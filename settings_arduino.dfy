/**
 * The AVR (Arduino Pro Mini) settings of the Spikeling sketch
 * (Arduino/Spikeling/SettingsArduino.h) with USES_FAST_ADC and
 * USES_HOUSEKEEPING: once per loop, housekeeping converts the six analog
 * inputs the sketch uses, one after the other, into the buffer ADCData;
 * analogReadHelper then reads that buffer instead of starting a conversion.
 *
 * The ADMUX and ADCSRA registers are bytes; the conversion result register
 * ADC is an input (one value per conversion started), since the converter
 * itself is hardware.
 */
module SettingsArduino {

  /** Arduino's A0 on the ATmega328P: analog pin Ax is A0 + x. */
  const A0 := 14
  /** MAX_ADC_DATA: one buffer entry per analog pin A0..A7. */
  const MAX_ADC_DATA := 8
  /** N_ADC_IND: the number of channels housekeeping converts. */
  const N_ADC_IND := 6
  /**
   * The channels of iADCData minus A0, in conversion order: the photodiode
   * (A0), membrane potential (A3), synapse 1 (A7), synapse 2 (A5), noise (A6)
   * and analog input (A2).  A1 and A4 are not used.
   */
  const CHANNELS: seq<int> := [0, 3, 7, 5, 6, 2]

  // ATmega328P register bits.
  /** ADMUX: REFS0 (AVcc reference) and the four MUX bits. */
  const REFS0: bv8 := 0x40
  const MUX_MASK: bv8 := 0x0F
  /** ADCSRA: enable, start conversion, and the three prescaler bits. */
  const ADEN: bv8 := 0x80
  const ADSC: bv8 := 0x40
  const ADPS2: bv8 := 0x04
  const ADPS1: bv8 := 0x02
  const ADPS0: bv8 := 0x01
  /** The bits ADC_init sets or clears in ADCSRA. */
  const INIT_BITS: bv8 := 0x87

  /** A 10-bit conversion result, as the ADC register holds it. */
  predicate Conversion(v: int)
  {
    0 <= v < 1024
  }

  /**
   * Channel select: clear the four MUX bits and OR in the channel.  For a
   * channel below 16 the MUX bits become the channel and the reference
   * selection and other upper bits are kept.
   */
  function MuxSelect(admux: bv8, ch: bv8): (r: bv8)
    ensures ch < 16 ==> r & MUX_MASK == ch
    ensures ch < 16 ==> r & !MUX_MASK == admux & !MUX_MASK
  {
    (admux & !MUX_MASK) | ch
  }

  /** The buffer after the first k conversions of a housekeeping pass have been stored. */
  function StoreConversions(data: seq<int>, results: seq<int>, k: nat): (r: seq<int>)
    requires |data| == MAX_ADC_DATA && |results| == N_ADC_IND && k <= N_ADC_IND
    ensures |r| == MAX_ADC_DATA
  {
    if k == 0 then data
    else StoreConversions(data, results, k - 1)[CHANNELS[k - 1] := results[k - 1]]
  }

  /**
   * After k conversions the buffer holds each converted channel's result and
   * every other entry as it was.
   */
  lemma {:induction false} StoreConversionsSpec(data: seq<int>, results: seq<int>, k: nat)
    requires |data| == MAX_ADC_DATA && |results| == N_ADC_IND && k <= N_ADC_IND
    ensures forall i :: 0 <= i < k ==> StoreConversions(data, results, k)[CHANNELS[i]] == results[i]
    ensures forall j :: 0 <= j < MAX_ADC_DATA && j !in CHANNELS[..k] ==> StoreConversions(data, results, k)[j] == data[j]
  {
    if k > 0 {
      StoreConversionsSpec(data, results, k - 1);
      assert CHANNELS[..k] == CHANNELS[..k - 1] + [CHANNELS[k - 1]];
    }
  }

  /** A1 and A4 are not in iADCData, so a housekeeping pass leaves their entries alone. */
  lemma UnlistedUntouched(data: seq<int>, results: seq<int>)
    requires |data| == MAX_ADC_DATA && |results| == N_ADC_IND
    ensures StoreConversions(data, results, N_ADC_IND)[1] == data[1]
    ensures StoreConversions(data, results, N_ADC_IND)[4] == data[4]
  {
    StoreConversionsSpec(data, results, N_ADC_IND);
    assert CHANNELS[..N_ADC_IND] == CHANNELS;
  }

  /** The ADC state the sketch shares: the buffer and the two control registers. */
  class AvrAdc {
    /** uint16_t ADCData[MAX_ADC_DATA]. */
    const adcData: array<int>
    var admux: bv8
    var adcsra: bv8
    /** The MUX channel of each conversion started, in order. */
    var converted: seq<int>

    ghost predicate Valid()
      reads this, adcData
    {
      adcData.Length == MAX_ADC_DATA && forall i :: 0 <= i < MAX_ADC_DATA ==> 0 <= adcData[i] < 0x1_0000
    }

    /** The buffer is a static (all zero) and both registers reset to 0. */
    constructor ()
      ensures Valid() && fresh(adcData)
      ensures adcData[..] == [0, 0, 0, 0, 0, 0, 0, 0]
      ensures admux == 0 && adcsra == 0 && converted == []
    {
      adcData := new int[MAX_ADC_DATA](i => 0);
      admux := 0;
      adcsra := 0;
      converted := [];
    }

    /**
     * ADC_init(): zero every buffer entry, select the AVcc reference (which
     * also selects channel 0), set the prescaler bits to 100 and enable the
     * converter; the other ADCSRA bits are kept.
     */
    method AdcInit()
      requires Valid()
      modifies adcData, this`admux, this`adcsra
      ensures Valid()
      ensures forall i :: 0 <= i < MAX_ADC_DATA ==> adcData[i] == 0
      ensures admux == REFS0
      ensures adcsra & INIT_BITS == ADEN | ADPS2
      ensures adcsra & !INIT_BITS == old(adcsra) & !INIT_BITS
    {
      var i := 0;
      while i < MAX_ADC_DATA
        modifies adcData
        invariant 0 <= i <= MAX_ADC_DATA
        invariant Valid()
        invariant forall j :: 0 <= j < i ==> adcData[j] == 0
      {
        adcData[i] := 0;
        i := i + 1;
      }
      admux := REFS0;
      adcsra := adcsra | ADPS2;
      adcsra := adcsra & !ADPS1;
      adcsra := adcsra & !ADPS0;
      adcsra := adcsra | ADEN;
    }

    /**
     * Start a conversion of the selected channel and wait for it: ADSC is
     * set, and the hardware clears it when `result` is ready.
     */
    method Convert(result: int) returns (r: int)
      modifies this`adcsra, this`converted
      ensures adcsra == old(adcsra) & !ADSC
      ensures converted == old(converted) + [(admux & MUX_MASK) as int]
      ensures r == result
    {
      adcsra := adcsra | ADSC;
      converted := converted + [(admux & MUX_MASK) as int];
      adcsra := adcsra & !ADSC;
      r := result;
    }

    /** ADC_read(pin): select channel `pin` and return one conversion of it. */
    method AdcRead(pin: bv8, result: int) returns (r: int)
      modifies this`admux, this`adcsra, this`converted
      ensures admux == MuxSelect(old(admux), pin)
      ensures pin < 16 ==> converted == old(converted) + [pin as int]
      ensures adcsra == old(adcsra) & !ADSC
      ensures r == result
    {
      admux := MuxSelect(admux, pin);
      r := Convert(result);
    }

    /** analogReadHelper(pin): the buffered value of analog pin `pin`; no conversion. */
    function AnalogReadHelper(pin: int): (r: int)
      reads this, adcData
      requires Valid() && A0 <= pin < A0 + MAX_ADC_DATA
      ensures 0 <= r < 0x1_0000
      ensures r == adcData[pin - A0]
    {
      adcData[pin - A0]
    }

    /** One pass of the housekeeping loop: select channel ch, convert it and store the result at ch. */
    method ConvertChannel(ch: int, result: int)
      requires Valid() && 0 <= ch < MAX_ADC_DATA && Conversion(result)
      modifies adcData, this`admux, this`adcsra, this`converted
      ensures Valid()
      ensures adcData[..] == old(adcData[..])[ch := result]
      ensures converted == old(converted) + [ch]
      ensures admux & !MUX_MASK == old(admux) & !MUX_MASK
      ensures adcsra == old(adcsra) & !ADSC
    {
      admux := MuxSelect(admux, ch as bv8);
      var v := Convert(result);
      adcData[ch] := v;
    }

    /**
     * housekeeping(): convert the six channels in iADCData order, each into
     * its own buffer entry.  `results` are the successive ADC readings.
     */
    method Housekeeping(results: seq<int>)
      requires Valid() && |results| == N_ADC_IND
      requires forall i :: 0 <= i < N_ADC_IND ==> Conversion(results[i])
      modifies adcData, this`admux, this`adcsra, this`converted
      ensures Valid()
      ensures adcData[..] == StoreConversions(old(adcData[..]), results, N_ADC_IND)
      ensures converted == old(converted) + CHANNELS
      ensures admux & !MUX_MASK == old(admux) & !MUX_MASK
      ensures adcsra == old(adcsra) & !ADSC
    {
      var i := 0;
      while i < N_ADC_IND
        invariant 0 <= i <= N_ADC_IND
        invariant Valid()
        invariant adcData[..] == StoreConversions(old(adcData[..]), results, i)
        invariant converted == old(converted) + CHANNELS[..i]
        invariant admux & !MUX_MASK == old(admux) & !MUX_MASK
        invariant adcsra == if i == 0 then old(adcsra) else old(adcsra) & !ADSC
      {
        ConvertChannel(CHANNELS[i], results[i]);
        assert CHANNELS[..i + 1] == CHANNELS[..i] + [CHANNELS[i]];
        i := i + 1;
      }
      assert CHANNELS[..N_ADC_IND] == CHANNELS;
    }
  }

  /** After a housekeeping pass, analogReadHelper on each listed pin gives that pin's conversion. */
  lemma ListedPinsRead(a: AvrAdc, before: seq<int>, results: seq<int>)
    requires a.Valid() && |before| == MAX_ADC_DATA && |results| == N_ADC_IND
    requires a.adcData[..] == StoreConversions(before, results, N_ADC_IND)
    ensures forall i :: 0 <= i < N_ADC_IND ==> a.AnalogReadHelper(A0 + CHANNELS[i]) == results[i]
  {
    StoreConversionsSpec(before, results, N_ADC_IND);
    forall i | 0 <= i < N_ADC_IND
      ensures a.AnalogReadHelper(A0 + CHANNELS[i]) == results[i]
    {
      assert a.adcData[CHANNELS[i]] == a.adcData[..][CHANNELS[i]];
    }
  }
}
