/**
 * The MCP23S08 8-bit SPI port-expander driver
 * (Arduino/Spikeling/Mcp23s18/Mcp23s08.cpp).
 *
 * The driver keeps shadow copies of the direction register (`gpioDirection`,
 * a set bit is an input) and of the output latch (`gpioState`), the
 * hardware-address selection with the command bytes derived from it, and the
 * SPI transaction speed.  Every register access is appended to `log` as the
 * SPI events it causes; the byte a read receives is an input (`reply`).
 */
module Mcp23s08 {
  import opened SpiBus

  // Register offsets of the chip, as assigned in postSetup.
  const IODIR: bv8 := 0x00
  const IPOL: bv8 := 0x01
  const GPINTEN: bv8 := 0x02
  const DEFVAL: bv8 := 0x03
  const INTCON: bv8 := 0x04
  const IOCON: bv8 := 0x05
  const GPPU: bv8 := 0x06
  const INTF: bv8 := 0x07
  const INTCAP: bv8 := 0x08
  const GPIO: bv8 := 0x09
  const OLAT: bv8 := 0x0A

  /** IOCON written by begin: sequential operation off and hardware addressing on (0b00101000) or off (0b00100000). */
  const IOCON_HAEN: bv8 := 0x28
  const IOCON_NO_HAEN: bv8 := 0x20

  /**
   * What the Arduino core headers define: the HIGH/LOW and INPUT/OUTPUT codes,
   * MAXSPISPEED, and whether SPI_HAS_TRANSACTION is defined.
   */
  datatype Platform = Platform(high: int, low: int, input: int, output: int,
                               maxSpiSpeed: nat, hasTransactions: bool)

  /** Bit `q` of `b` is set. */
  predicate Bit(b: bv8, q: bv8)
    requires q < 8
  {
    (b >> q) & 1 == 1
  }

  /** `b |= (1 << pin)` when `on`, `b &= ~(1 << pin)` otherwise. */
  function WithBit(b: bv8, pin: bv8, on: bool): (r: bv8)
    requires pin < 8
    ensures Bit(r, pin) == on
    ensures forall q: bv8 :: q < 8 && q != pin ==> Bit(r, q) == Bit(b, q)
  {
    if on then b | (1 << pin) else b & !(1 << pin)
  }

  /** The C comparison `value == HIGH` of a bool, which is promoted to 0 or 1. */
  predicate IsHigh(p: Platform, value: bool)
  {
    (if value then 1 else 0) == p.high
  }

  /** A whole-port argument: the code `allSet` means 0xFF, `allClear` means 0x00, any other byte is taken as it is. */
  function PortByte(v: bv8, allSet: int, allClear: int): bv8
  {
    if v as int == allSet then 0xFF else if v as int == allClear then 0x00 else v
  }

  /** setSPIspeed: 0 disables transactions, a speed above MAXSPISPEED is clamped, and without transaction support the speed is always 0. */
  function SpiSpeedFor(p: Platform, requested: nat): (r: nat)
    ensures r <= p.maxSpiSpeed
    ensures !p.hasTransactions || requested == 0 ==> r == 0
    ensures p.hasTransactions && 0 < requested <= p.maxSpiSpeed ==> r == requested
    ensures p.hasTransactions && requested > p.maxSpiSpeed ==> r == p.maxSpiSpeed
  {
    if !p.hasTransactions then 0
    else if requested > 0 then (if requested > p.maxSpiSpeed then p.maxSpiSpeed else requested)
    else 0
  }

  /** The address and command bytes postSetup derives from the requested hardware address. */
  datatype Addressing = Addressing(adrs: bv8, useHaen: bool, readCmd: bv8, writeCmd: bv8)

  /**
   * postSetup: hardware addressing works only for 0x20..0x23; otherwise the
   * address is 0 and HAEN is off.  The command byte is the address shifted
   * left by one with the read flag in bit 0.
   */
  function SelectAddress(haenAdrs: bv8): (r: Addressing)
    ensures r.useHaen <==> 0x20 <= haenAdrs <= 0x23
    ensures r.adrs == if r.useHaen then haenAdrs else 0
    ensures r.readCmd >> 1 == r.adrs && Bit(r.readCmd, 0)
    ensures r.writeCmd >> 1 == r.adrs && !Bit(r.writeCmd, 0)
  {
    var useHaen := 0x20 <= haenAdrs <= 0x23;
    var adrs: bv8 := if useHaen then haenAdrs else 0;
    Addressing(adrs, useHaen, (adrs << 1) | 1, adrs << 1)
  }

  class MCP23S08 {
    const platform: Platform
    var cs: bv8
    var adrs: bv8
    var useHaen: bool
    var readCmd: bv8
    var writeCmd: bv8
    var spiSpeed: nat
    var gpioDirection: bv8
    var gpioState: bv8
    var log: seq<SpiEvent>

    /** The address fields agree with each other and the speed is within the platform's limit. */
    ghost predicate Ready()
      reads this
    {
      && Addressing(adrs, useHaen, readCmd, writeCmd) == SelectAddress(adrs)
      && spiSpeed <= platform.maxSpiSpeed
    }

    /** Ready, and every access so far has completed: no chip selected, no transaction open. */
    ghost predicate Valid()
      reads this
    {
      Ready() && Quiescent(log)
    }

    /** Accesses are bracketed by beginTransaction/endTransaction only with transaction support and a non-zero speed. */
    predicate Bracketed()
      reads this`spiSpeed
    {
      platform.hasTransactions && spiSpeed > 0
    }

    /** The bus traffic of writeByte(reg, data). */
    function WriteFrame(reg: bv8, data: bv8): seq<SpiEvent>
      reads this`cs, this`spiSpeed, this`writeCmd
    {
      Frame(cs as int, Bracketed(), spiSpeed, writeCmd, reg, data)
    }

    /** The bus traffic of readAddress(reg): the data phase shifts out 0x00. */
    function ReadFrame(reg: bv8): seq<SpiEvent>
      reads this`cs, this`spiSpeed, this`readCmd
    {
      Frame(cs as int, Bracketed(), spiSpeed, readCmd, reg, 0x00)
    }

    /**
     * The 3- and 4-argument constructors: postSetup, which calls setSPIspeed
     * only for a non-zero speed; otherwise the speed keeps its zero
     * initialisation.  Nothing is sent on the bus.
     */
    constructor (csPin: bv8, haenAdrs: bv8, spispeed: nat, platform: Platform)
      ensures Valid() && this.platform == platform
      ensures cs == csPin
      ensures Addressing(adrs, useHaen, readCmd, writeCmd) == SelectAddress(haenAdrs)
      ensures spiSpeed == if platform.hasTransactions && spispeed > 0 then SpiSpeedFor(platform, spispeed) else 0
      ensures gpioDirection == 0 && gpioState == 0 && log == []
    {
      this.platform := platform;
      cs, adrs, useHaen, readCmd, writeCmd := 0, 0, false, 0, 0;
      spiSpeed := 0;
      gpioDirection, gpioState := 0, 0;
      log := [];
      new;
      PostSetup(csPin, haenAdrs, spispeed);
    }

    method SetSPIspeed(spispeed: nat)
      modifies this`spiSpeed
      ensures spiSpeed == SpiSpeedFor(platform, spispeed)
    {
      if platform.hasTransactions {
        if spispeed > 0 {
          if spispeed > platform.maxSpiSpeed {
            spiSpeed := platform.maxSpiSpeed;
          } else {
            spiSpeed := spispeed;
          }
        } else {
          spiSpeed := 0;
        }
      } else {
        spiSpeed := 0;
      }
    }

    method PostSetup(csPin: bv8, haenAdrs: bv8, spispeed: nat)
      requires spiSpeed <= platform.maxSpiSpeed
      modifies this`cs, this`adrs, this`useHaen, this`readCmd, this`writeCmd, this`spiSpeed
      ensures Ready()
      ensures cs == csPin
      ensures Addressing(adrs, useHaen, readCmd, writeCmd) == SelectAddress(haenAdrs)
      ensures spiSpeed == if platform.hasTransactions && spispeed > 0 then SpiSpeedFor(platform, spispeed) else old(spiSpeed)
    {
      if platform.hasTransactions && spispeed > 0 {
        SetSPIspeed(spispeed);
      }
      cs := csPin;
      if haenAdrs >= 0x20 && haenAdrs <= 0x23 {
        adrs := haenAdrs;
        useHaen := true;
      } else {
        adrs := 0;
        useHaen := false;
      }
      readCmd := (adrs << 1) | 1;
      writeCmd := adrs << 1;
    }

    /**
     * begin: raise chip-select, write IOCON once (with or without HAEN), then
     * set the shadows to all-inputs and all-low without writing IODIR or GPIO.
     */
    method Begin()
      requires Valid()
      modifies this`log, this`gpioDirection, this`gpioState
      ensures Valid()
      ensures log == old(log) + [CsHigh(cs as int)] + WriteFrame(IOCON, if useHaen then IOCON_HAEN else IOCON_NO_HAEN)
      ensures gpioDirection == 0xFF && gpioState == 0x00
    {
      log := log + [CsHigh(cs as int)];
      assert Quiescent(log) by { AppendQuiescent(old(log), [CsHigh(cs as int)]); }
      if useHaen {
        WriteByte(IOCON, IOCON_HAEN);
      } else {
        WriteByte(IOCON, IOCON_NO_HAEN);
      }
      gpioDirection := 0xFF;
      gpioState := 0x00;
    }

    /** startSend: open the transaction when bracketed, select the chip, send the read or write command byte. */
    method StartSend(read: bool)
      modifies this`log
      ensures log == old(log) + Open(cs as int, Bracketed(), spiSpeed, if read then readCmd else writeCmd)
    {
      log := log + Open(cs as int, Bracketed(), spiSpeed, if read then readCmd else writeCmd);
    }

    /** One byte shifted out while the chip is selected. */
    method Transfer(b: bv8)
      modifies this`log
      ensures log == old(log) + [Xfer(b)]
    {
      log := log + [Xfer(b)];
    }

    /** endSend: release the chip, then close the transaction when bracketed. */
    method EndSend()
      modifies this`log
      ensures log == old(log) + Close(cs as int, Bracketed())
    {
      log := log + Close(cs as int, Bracketed());
    }

    /** writeByte: one complete write access. */
    method WriteByte(reg: bv8, data: bv8)
      requires Valid()
      modifies this`log
      ensures Valid()
      ensures log == old(log) + WriteFrame(reg, data)
    {
      StartSend(false);
      Transfer(reg);
      Transfer(data);
      EndSend();
      assert log == old(log) + WriteFrame(reg, data);
      AppendQuiescent(old(log), WriteFrame(reg, data));
    }

    /** readAddress: one complete read access; the result is the byte received during the data phase. */
    method ReadAddress(reg: bv8, reply: bv8) returns (b: bv8)
      requires Valid()
      modifies this`log
      ensures Valid()
      ensures log == old(log) + ReadFrame(reg)
      ensures b == reply
    {
      StartSend(true);
      Transfer(reg);
      Transfer(0x00);
      b := reply;
      EndSend();
      assert log == old(log) + ReadFrame(reg);
      AppendQuiescent(old(log), ReadFrame(reg));
    }

    /** gpioPinMode(mode): INPUT means all inputs, OUTPUT all outputs (and clears the output shadow), any other byte is the direction mask. */
    method GpioPinModePort(mode: bv8)
      requires Valid()
      modifies this`log, this`gpioDirection, this`gpioState
      ensures Valid()
      ensures gpioDirection == PortByte(mode, platform.input, platform.output)
      ensures mode as int == platform.input ==> gpioDirection == 0xFF && gpioState == old(gpioState)
      ensures mode as int != platform.input && mode as int == platform.output ==> gpioDirection == 0x00 && gpioState == 0x00
      ensures mode as int != platform.input && mode as int != platform.output ==> gpioDirection == mode && gpioState == old(gpioState)
      ensures log == old(log) + WriteFrame(IODIR, gpioDirection)
    {
      if mode as int == platform.input {
        gpioDirection := 0xFF;
      } else if mode as int == platform.output {
        gpioDirection := 0x00;
        gpioState := 0x00;
      } else {
        gpioDirection := mode;
      }
      WriteByte(IODIR, gpioDirection);
    }

    /** gpioPinMode(pin, mode): bit `pin` of the direction becomes 1 for INPUT and 0 otherwise, followed by one IODIR write; pins from 8 up change nothing. */
    method GpioPinMode(pin: bv8, mode: bv8)
      requires Valid()
      modifies this`log, this`gpioDirection
      ensures Valid()
      ensures pin < 8 ==> gpioDirection == WithBit(old(gpioDirection), pin, mode as int == platform.input)
      ensures pin < 8 ==> log == old(log) + WriteFrame(IODIR, gpioDirection)
      ensures pin >= 8 ==> gpioDirection == old(gpioDirection) && log == old(log)
    {
      if pin < 8 {
        gpioDirection := WithBit(gpioDirection, pin, mode as int == platform.input);
        WriteByte(IODIR, gpioDirection);
      }
    }

    /** gpioPort: HIGH means 0xFF, LOW 0x00, any other byte is written as it is; the output shadow follows. */
    method GpioPort(value: bv8)
      requires Valid()
      modifies this`log, this`gpioState
      ensures Valid()
      ensures value as int == platform.high ==> gpioState == 0xFF
      ensures value as int != platform.high && value as int == platform.low ==> gpioState == 0x00
      ensures value as int != platform.high && value as int != platform.low ==> gpioState == value
      ensures log == old(log) + WriteFrame(GPIO, gpioState)
    {
      gpioState := PortByte(value, platform.high, platform.low);
      WriteByte(GPIO, gpioState);
    }

    /** readGpioPort: one read access of the GPIO register; the shadows are not touched. */
    method ReadGpioPort(reply: bv8) returns (b: bv8)
      requires Valid()
      modifies this`log
      ensures Valid()
      ensures log == old(log) + ReadFrame(GPIO)
      ensures b == reply
    {
      b := ReadAddress(GPIO, reply);
    }

    /** readGpioPortFast: the output shadow, without touching the bus. */
    method ReadGpioPortFast() returns (b: bv8)
      ensures b == gpioState
    {
      b := gpioState;
    }

    /** gpioDigitalReadFast: bit `pin` of the output shadow as 0 or 1, and 0 for pins from 8 up; no bus access. */
    method GpioDigitalReadFast(pin: bv8) returns (r: int)
      ensures r == 0 || r == 1
      ensures pin < 8 ==> (r == 1 <==> Bit(gpioState, pin))
      ensures pin >= 8 ==> r == 0
    {
      if pin < 8 {
        r := ((gpioState >> pin) & 1) as int;
      } else {
        r := 0;
      }
    }

    /** portPullup: the pull-up byte (HIGH/LOW expanded as in gpioPort) is written to GPPU and also replaces the output shadow. */
    method PortPullup(data: bv8)
      requires Valid()
      modifies this`log, this`gpioState
      ensures Valid()
      ensures gpioState == PortByte(data, platform.high, platform.low)
      ensures log == old(log) + WriteFrame(GPPU, gpioState)
    {
      gpioState := PortByte(data, platform.high, platform.low);
      WriteByte(GPPU, gpioState);
    }

    /** gpioDigitalWrite: set or clear bit `pin` of the output shadow and write GPIO; pins from 8 up change nothing. */
    method GpioDigitalWrite(pin: bv8, value: bool)
      requires Valid()
      modifies this`log, this`gpioState
      ensures Valid()
      ensures pin < 8 ==> gpioState == WithBit(old(gpioState), pin, IsHigh(platform, value))
      ensures pin < 8 ==> log == old(log) + WriteFrame(GPIO, gpioState)
      ensures pin >= 8 ==> gpioState == old(gpioState) && log == old(log)
    {
      if pin < 8 {
        gpioState := WithBit(gpioState, pin, IsHigh(platform, value));
        WriteByte(GPIO, gpioState);
      }
    }

    /** gpioDigitalWriteFast: as gpioDigitalWrite but only the shadow changes; no bus access. */
    method GpioDigitalWriteFast(pin: bv8, value: bool)
      modifies this`gpioState
      ensures pin < 8 ==> gpioState == WithBit(old(gpioState), pin, IsHigh(platform, value))
      ensures pin >= 8 ==> gpioState == old(gpioState)
    {
      if pin < 8 {
        gpioState := WithBit(gpioState, pin, IsHigh(platform, value));
      }
    }

    /** gpioPortUpdate: write the output shadow to GPIO, leaving the shadow as it is. */
    method GpioPortUpdate()
      requires Valid()
      modifies this`log
      ensures Valid()
      ensures log == old(log) + WriteFrame(GPIO, gpioState)
    {
      WriteByte(GPIO, gpioState);
    }

    /**
     * gpioDigitalRead: for pins 0..7 one read of GPIO, returning the received
     * byte masked with `1 << pin` (so 0 or 2^pin, not 0 or 1); for pins from 8 up 0
     * and no bus access.
     */
    method GpioDigitalRead(pin: bv8, reply: bv8) returns (r: int)
      requires Valid()
      modifies this`log
      ensures Valid()
      ensures pin < 8 ==> log == old(log) + ReadFrame(GPIO)
      ensures pin < 8 ==> (r != 0 <==> Bit(reply, pin))
      ensures pin < 8 ==> r == 0 || r == ((1 as bv8) << pin) as int
      ensures pin >= 8 ==> r == 0 && log == old(log)
    {
      if pin < 8 {
        var b := ReadAddress(GPIO, reply);
        r := (b & (1 << pin)) as int;
      } else {
        r := 0;
      }
    }

    /** gpioRegisterReadByte: one read access of any register. */
    method GpioRegisterReadByte(reg: bv8, reply: bv8) returns (data: bv8)
      requires Valid()
      modifies this`log
      ensures Valid()
      ensures log == old(log) + ReadFrame(reg)
      ensures data == reply
    {
      StartSend(true);
      Transfer(reg);
      Transfer(0x00);
      data := reply;
      EndSend();
      assert log == old(log) + ReadFrame(reg);
      AppendQuiescent(old(log), ReadFrame(reg));
    }

    /** gpioRegisterWriteByte: one write access of any register. */
    method GpioRegisterWriteByte(reg: bv8, data: bv8)
      requires Valid()
      modifies this`log
      ensures Valid()
      ensures log == old(log) + WriteFrame(reg, data)
    {
      WriteByte(reg, data);
    }
  }
}
