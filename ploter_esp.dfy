/**
 * The ESP32 board of the plotter build (Arduino/Spikeling_ploter/SettingsESP.h):
 * pins numbered 100..107 are channels of the MCP3208 A/D converter, pins
 * 110..117 are the MCP23S08 expander's port bits, everything else is an ESP
 * pin.  With USES_HOUSEKEEPING defined, a housekeeping pass once per loop
 * samples three A/D channels through a glitch filter into `ADCData`, toggles
 * a heartbeat LED on expander bit 0 and exchanges the expander's port once;
 * the pin-level read and write helpers then work on those buffers.
 */
module PloterEsp {
  import opened SpiBus
  import opened Mcp23s08
  import opened Definitions
  import opened TracePlotter

  // Pin windows and board pins.
  const MCP3208_FIRST := 100
  const MCP3208_LAST := 107
  const MCP23S08_FIRST: bv8 := 110
  const MCP23S08_LAST: bv8 := 117
  const SYN1_POT_PIN := 103
  const SYN2_POT_PIN := 104
  const ANALOG_IN_PIN := 105
  const DIGITAL_OUT_PIN: bv8 := 16
  const HOUSEKEEP_LED: bv8 := 110
  const BUTTON_PIN: bv8 := 111
  const DIGITAL_IN1_PIN: bv8 := 112
  const DIGITAL_IN2_PIN: bv8 := 113

  /** Chip-select pin and hardware address of the expander. */
  const DIO_CS: bv8 := 4
  const DIO_ADDR: bv8 := 0x20

  /** ADCData[8][2]: one row per A/D channel, [0] the last accepted sample, [1] the value reported. */
  const ADC_ROWS := 8
  /** Housekeeping samples channels 0..2. */
  const SAMPLED_CHANNELS := 3
  /** A sample above GLITCH_HIGH or below GLITCH_LOW is rejected as a glitch. */
  const GLITCH_HIGH := 4066
  const GLITCH_LOW := 30

  // Plotting configuration of this build.
  const INFO_DY := 20
  const LABEL_PAD := 5
  const OUTPUT_INFO_STR: seq<string> :=
    ["V_m[mV]", "I_t[pA]", "I_PD[pA]", "I_AI[pA]", "I_Sy[pA]", "StmSt", "SpIn1", "SpIn2", "t[us]"]
  /** USES_FULL_REDRAW is not defined: each column is erased before it is drawn, and a wrap erases column 0 only. */
  const CONFIG := PlotConfig(INFO_DY, false, LABEL_PAD, OUTPUT_INFO_STR)
  /** The (min, max) domains setTraceSet gives the three traces. */
  const DOMAINS: seq<(int, int)> := [(-110, 25), (-250, 250), (-50, 50)]

  /** A sample the filter rejects. */
  predicate Glitch(v: int)
  {
    v > GLITCH_HIGH || v < GLITCH_LOW
  }

  /**
   * One filter step for one channel, given the last accepted sample: the new
   * (accepted, reported) pair.  A glitch keeps the accepted sample and reports
   * it; any other sample is accepted and reported.
   */
  function FilterStep(accepted: int, v: int): (r: (int, int))
    ensures r.0 == r.1
    ensures r.0 == v || r.0 == accepted
    ensures r.0 == v <== !Glitch(v)
    ensures Glitch(v) ==> r.0 == accepted
  {
    if Glitch(v) then (accepted, accepted) else (v, v)
  }

  /** The accepted sample of a channel after one pass per element of `vs`, starting from `accepted`. */
  function FilterRun(accepted: int, vs: seq<int>): int
  {
    if |vs| == 0 then accepted else FilterStep(FilterRun(accepted, vs[..|vs| - 1]), vs[|vs| - 1]).0
  }

  /**
   * The filter reports the latest sample that was not a glitch, and the
   * starting value when every sample was one.
   */
  lemma {:induction false} FilterRunIsLastGood(accepted: int, vs: seq<int>)
    ensures (forall i :: 0 <= i < |vs| ==> Glitch(vs[i])) ==> FilterRun(accepted, vs) == accepted
    ensures forall j :: 0 <= j < |vs| && !Glitch(vs[j]) && (forall i :: j < i < |vs| ==> Glitch(vs[i])) ==>
              FilterRun(accepted, vs) == vs[j]
  {
    if |vs| > 0 {
      var init := vs[..|vs| - 1];
      FilterRunIsLastGood(accepted, init);
      forall j | 0 <= j < |vs| && !Glitch(vs[j]) && (forall i :: j < i < |vs| ==> Glitch(vs[i]))
        ensures FilterRun(accepted, vs) == vs[j]
      {
        if j < |vs| - 1 {
          assert Glitch(vs[|vs| - 1]);
          assert forall i :: j < i < |init| ==> init[i] == vs[i];
        }
      }
      if forall i :: 0 <= i < |vs| ==> Glitch(vs[i]) {
        assert forall i :: 0 <= i < |init| ==> init[i] == vs[i];
        assert Glitch(vs[|vs| - 1]);
      }
    }
  }

  /** A value the filter can hold: the static zero or an accepted sample. */
  predicate Plausible(v: int)
  {
    v == 0 || GLITCH_LOW <= v <= GLITCH_HIGH
  }

  /** Whatever arrives, a channel that starts plausible stays plausible. */
  lemma {:induction false} FilterRunPlausible(accepted: int, vs: seq<int>)
    requires Plausible(accepted)
    ensures Plausible(FilterRun(accepted, vs))
  {
    if |vs| > 0 {
      FilterRunPlausible(accepted, vs[..|vs| - 1]);
    }
  }

  /** An int code cast to the driver's uint8_t mode argument. */
  function ModeByte(code: int): bv8
  {
    (code % 256) as bv8
  }

  /** The globals of the ESP32 build that the housekeeping and pin helpers share. */
  class Board {
    /** The port expander `dio`. */
    const dio: MCP23S08
    /** uint16_t ADCData[8][2]. */
    const adcData: array2<int>
    /** DIOData: the port byte read by the last housekeeping pass. */
    var dioData: bv8
    /** stateHousekeepingLED. */
    var ledState: bool
    /** digitalWrite calls on ESP pins, in order. */
    var nativeWrites: seq<(bv8, bool)>

    ghost predicate Valid()
      reads this, dio, adcData
    {
      && dio.Valid()
      && dio.cs == DIO_CS && dio.useHaen && dio.adrs == DIO_ADDR
      && adcData.Length0 == ADC_ROWS && adcData.Length1 == 2
      && forall r, c :: 0 <= r < ADC_ROWS && 0 <= c < 2 ==> 0 <= adcData[r, c] < 0x1_0000
    }

    /** Every sampled channel reports its accepted sample, and that sample is plausible. */
    predicate Settled()
      reads this, adcData
      requires adcData.Length0 == ADC_ROWS && adcData.Length1 == 2
    {
      forall r :: 0 <= r < SAMPLED_CHANNELS ==> adcData[r, 0] == adcData[r, 1] && Plausible(adcData[r, 1])
    }

    /** The statically initialised globals: zeroed buffers and the expander as its constructor leaves it. */
    constructor (platform: Platform)
      ensures Valid() && Settled() && fresh(dio) && fresh(adcData)
      ensures dio.platform == platform && dio.log == []
      ensures forall r, c :: 0 <= r < ADC_ROWS && 0 <= c < 2 ==> adcData[r, c] == 0
      ensures dioData == 0 && !ledState && nativeWrites == []
    {
      dio := new MCP23S08(DIO_CS, DIO_ADDR, 0, platform);
      adcData := new int[ADC_ROWS, 2]((r, c) => 0);
      dioData := 0;
      ledState := false;
      nativeWrites := [];
    }

    /**
     * The buffer reset in initializeHardware.  Its loop runs eight times but
     * always clears row 0, so rows 1..7 keep their values (zero only
     * because the buffer is a static).
     */
    method ResetAdcBuffer()
      requires Valid()
      modifies adcData
      ensures Valid()
      ensures adcData[0, 0] == 0 && adcData[0, 1] == 0
      ensures forall r, c :: 1 <= r < ADC_ROWS && 0 <= c < 2 ==> adcData[r, c] == old(adcData[r, c])
    {
      var i := 0;
      while i < ADC_ROWS
        invariant 0 <= i <= ADC_ROWS
        invariant Valid()
        invariant i > 0 ==> adcData[0, 0] == 0 && adcData[0, 1] == 0
        invariant forall r, c :: 1 <= r < ADC_ROWS && 0 <= c < 2 ==> adcData[r, c] == old(adcData[r, c])
      {
        adcData[0, 0] := 0;
        adcData[0, 1] := 0;
        i := i + 1;
      }
    }

    /**
     * The expander part of initializeHardware: begin, the button and both
     * digital inputs as inputs, the LED bit as output, DIOData cleared.
     * INPUT is a byte-sized code, as on every Arduino core.
     */
    method InitializeDio()
      requires Valid() && 0 <= dio.platform.input < 256
      modifies dio`log, dio`gpioDirection, dio`gpioState, this`dioData
      ensures Valid()
      ensures dio.gpioState == 0x00 && dioData == 0
      ensures dio.gpioDirection == WithBit(0xFF, 0, ModeByte(dio.platform.output) as int == dio.platform.input)
      ensures dio.log == old(dio.log) + [CsHigh(DIO_CS as int)] + dio.WriteFrame(IOCON, IOCON_HAEN)
                         + dio.WriteFrame(IODIR, 0xFF) + dio.WriteFrame(IODIR, 0xFF) + dio.WriteFrame(IODIR, 0xFF)
                         + dio.WriteFrame(IODIR, dio.gpioDirection)
    {
      dio.Begin();
      ghost var begun := dio.log;
      var input := ModeByte(dio.platform.input);
      assert input as int == dio.platform.input;
      dio.GpioPinMode(BUTTON_PIN - MCP23S08_FIRST, input);
      assert dio.gpioDirection == 0xFF;
      dio.GpioPinMode(DIGITAL_IN1_PIN - MCP23S08_FIRST, input);
      assert dio.gpioDirection == 0xFF;
      dio.GpioPinMode(DIGITAL_IN2_PIN - MCP23S08_FIRST, input);
      assert dio.gpioDirection == 0xFF;
      assert dio.log == begun + dio.WriteFrame(IODIR, 0xFF) + dio.WriteFrame(IODIR, 0xFF) + dio.WriteFrame(IODIR, 0xFF);
      dio.GpioPinMode(HOUSEKEEP_LED - MCP23S08_FIRST, ModeByte(dio.platform.output));
      dioData := 0;
    }

    /**
     * digitalWriteNew(pin, val): an expander pin sets or clears its bit in
     * the output shadow only (the next housekeeping pass sends it), the
     * digital output pin is written directly, and any other pin is ignored.
     */
    method DigitalWriteNew(pin: bv8, val: bool)
      modifies dio`gpioState, this`nativeWrites
      ensures MCP23S08_FIRST <= pin <= MCP23S08_LAST ==>
                dio.gpioState == WithBit(old(dio.gpioState), pin - MCP23S08_FIRST, IsHigh(dio.platform, val))
                && nativeWrites == old(nativeWrites)
      ensures pin == DIGITAL_OUT_PIN ==> nativeWrites == old(nativeWrites) + [(pin, val)] && dio.gpioState == old(dio.gpioState)
      ensures !(MCP23S08_FIRST <= pin <= MCP23S08_LAST) && pin != DIGITAL_OUT_PIN ==>
                nativeWrites == old(nativeWrites) && dio.gpioState == old(dio.gpioState)
    {
      if MCP23S08_FIRST <= pin <= MCP23S08_LAST {
        dio.GpioDigitalWriteFast(pin - MCP23S08_FIRST, val);
      } else if pin == DIGITAL_OUT_PIN {
        nativeWrites := nativeWrites + [(pin, val)];
      }
    }

    /** digitalReadNew(pin): bit `pin - 110` of the buffered port byte for an expander pin, LOW otherwise. */
    function DigitalReadNew(pin: bv8): (r: int)
      reads this
      ensures MCP23S08_FIRST <= pin <= MCP23S08_LAST ==>
                r == if Bit(dioData, pin - MCP23S08_FIRST) then dio.platform.high else dio.platform.low
      ensures !(MCP23S08_FIRST <= pin <= MCP23S08_LAST) ==> r == dio.platform.low
    {
      if MCP23S08_FIRST <= pin <= MCP23S08_LAST then
        if dioData & (1 << (pin - MCP23S08_FIRST)) != 0 then dio.platform.high else dio.platform.low
      else
        dio.platform.low
    }

    /**
     * analogReadNew(pin): 0 outside the A/D window, a fixed value for the two
     * synapse potentiometers and the analog input, and otherwise the reported
     * sample of the channel scaled from 12 to 10 bits (`>> 2`).
     */
    function AnalogReadNew(pin: int): (r: int)
      reads this, dio, adcData
      requires Valid()
      ensures !(MCP3208_FIRST <= pin <= MCP3208_LAST) ==> r == 0
      ensures pin == SYN1_POT_PIN ==> r == 300
      ensures pin == SYN2_POT_PIN ==> r == 128
      ensures pin == ANALOG_IN_PIN ==> r == 100
      ensures MCP3208_FIRST <= pin <= MCP3208_LAST && pin != SYN1_POT_PIN && pin != SYN2_POT_PIN && pin != ANALOG_IN_PIN ==>
                4 * r <= adcData[pin - MCP3208_FIRST, 1] < 4 * r + 4
      ensures 0 <= r < 0x4000
      ensures MCP3208_FIRST <= pin <= MCP3208_LAST && adcData[pin - MCP3208_FIRST, 1] < 0x1000 ==> r <= 1023
    {
      if MCP3208_FIRST <= pin <= MCP3208_LAST then
        if pin == SYN1_POT_PIN then 300
        else if pin == SYN2_POT_PIN then 128
        else if pin == ANALOG_IN_PIN then 100
        else adcData[pin - MCP3208_FIRST, 1] / 4
      else 0
    }

    /**
     * The A/D part of a housekeeping pass: channels 0..2 in order, each
     * through the glitch filter; rows 3..7 are not touched.
     */
    method SampleChannels(readings: seq<int>)
      requires Valid() && |readings| == SAMPLED_CHANNELS
      requires forall i :: 0 <= i < |readings| ==> 0 <= readings[i] < 0x1_0000
      modifies adcData
      ensures Valid()
      ensures forall r :: 0 <= r < SAMPLED_CHANNELS ==> (adcData[r, 0], adcData[r, 1]) == FilterStep(old(adcData[r, 0]), readings[r])
      ensures forall r, c :: SAMPLED_CHANNELS <= r < ADC_ROWS && 0 <= c < 2 ==> adcData[r, c] == old(adcData[r, c])
    {
      var ch := 0;
      while ch < SAMPLED_CHANNELS
        invariant 0 <= ch <= SAMPLED_CHANNELS
        invariant Valid()
        invariant forall r :: 0 <= r < ch ==> (adcData[r, 0], adcData[r, 1]) == FilterStep(old(adcData[r, 0]), readings[r])
        invariant forall r, c :: ch <= r < ADC_ROWS && 0 <= c < 2 ==> adcData[r, c] == old(adcData[r, c])
      {
        var v := readings[ch];
        if v > GLITCH_HIGH || v < GLITCH_LOW {
          adcData[ch, 1] := adcData[ch, 0];
        } else {
          adcData[ch, 0] := v;
          adcData[ch, 1] := v;
        }
        ch := ch + 1;
      }
    }

    /**
     * housekeeping(): sample and filter channels 0..2 (`readings` are the
     * conversions, in channel order), fast-write the LED state to expander
     * bit 0 and toggle it, then one port read (answered with `reply`) into
     * DIOData and one GPIO write of the output shadow.
     */
    method Housekeeping(readings: seq<int>, reply: bv8)
      requires Valid() && |readings| == SAMPLED_CHANNELS
      requires forall i :: 0 <= i < |readings| ==> 0 <= readings[i] < 0x1_0000
      modifies adcData, dio`gpioState, dio`log, this`dioData, this`ledState, this`nativeWrites
      ensures Valid()
      ensures forall r :: 0 <= r < SAMPLED_CHANNELS ==> (adcData[r, 0], adcData[r, 1]) == FilterStep(old(adcData[r, 0]), readings[r])
      ensures forall r, c :: SAMPLED_CHANNELS <= r < ADC_ROWS && 0 <= c < 2 ==> adcData[r, c] == old(adcData[r, c])
      ensures old(Settled()) ==> Settled()
      ensures dio.gpioState == WithBit(old(dio.gpioState), 0, IsHigh(dio.platform, old(ledState)))
      ensures ledState == !old(ledState) && nativeWrites == old(nativeWrites)
      ensures dioData == reply
      ensures dio.log == old(dio.log) + dio.ReadFrame(GPIO) + dio.WriteFrame(GPIO, dio.gpioState)
    {
      SampleChannels(readings);
      DigitalWriteNew(HOUSEKEEP_LED, ledState);
      ledState := !ledState;
      dioData := dio.ReadGpioPort(reply);
      dio.GpioPortUpdate();
    }
  }

  /** A settled channel never reports a glitch: its 10-bit reading is at most 4066 / 4. */
  lemma SettledReadBound(b: Board, pin: int)
    requires b.Valid() && b.Settled() && MCP3208_FIRST <= pin < MCP3208_FIRST + SAMPLED_CHANNELS
    ensures b.AnalogReadNew(pin) <= GLITCH_HIGH / 4
  {
  }

  /**
   * setTraceSet(): every trace set selects the membrane potential, the total
   * current and the stimulus state, each with its fixed domain, whose ends
   * land on the bottom row and dyPlot rows above it.
   */
  method SetTraceSet(p: Plotter)
    requires p.Valid() && p.cfg == CONFIG
    modifies p`strIndex, p`domains
    ensures p.Valid() && p.DomainsSet()
    ensures p.strIndex == [ID_V, ID_I_TOTAL, ID_I_STIM_STATE] && p.domains == DOMAINS
    ensures forall t :: 0 <= t < MAX_TRACES ==>
              p.GetYCoord(t, DOMAINS[t].0) == SCREEN_HEIGHT - 1 && p.GetYCoord(t, DOMAINS[t].1) == SCREEN_HEIGHT - 1 - 220
  {
    p.strIndex := [ID_V, ID_I_TOTAL, ID_I_STIM_STATE];
    p.domains := DOMAINS;
  }
}
