# Spikeling firmware core in Dafny

Spikeling is a hardware neuron simulator.  Its firmware runs on an Arduino
Pro Mini (AVR) or an ESP32 board.  This project models the hardware-facing
core of that firmware and proves properties about it:

- **The MCP23S08 port-expander driver** (`mcp23s08.dfy`, with the SPI bus in
  `spi_bus.dfy`).  A class keeps shadow copies of the direction and output
  registers, the hardware address, the command bytes and the SPI speed.
  Every register access is appended to an event log
  (`BeginTx`, `CsLow`, `Xfer`, `CsHigh`, `EndTx`).  A replay function checks the
  log against the bus discipline.  Every complete register access (every
  public method; `startSend`, `transfer` and `endSend` are its pieces and
  leave the chip selected by design) keeps the log quiescent: no chip left
  selected and no transaction left open.  Bytes the
  chip sends back are inputs.
- **The byte/word helpers** of the expander base class (`byte_word.dfy`), with
  both round trips.
- **The ESP32 board of the plotter build** (`ploter_esp.dfy`):
  - the housekeeping pass: a one-sample glitch filter over three A/D
    channels, the heartbeat LED and one port exchange with the expander;
  - pin routing for the 100..107 (A/D) and 110..117 (expander) windows;
  - the A/D buffer reset of `initializeHardware`, reproduced as written.  It
    clears row 0 eight times, and the other rows are zero only because the
    buffer is a static.
- **The scrolling trace plotter** (`trace_plotter.dfy`).  It is shared by
  the three ESP settings files and configured per build (`ploter_esp.dfy`,
  `spikeling_esp.dfy`, `spikeling2_esp.dfy`):
  - Y-coordinate mapping with Arduino's `map` and C truncating division
    (`c_arith.dfy`);
  - a circular cursor over a 3 x 320 trace array;
  - the draw commands of each call as a log;
  - counting lemmas for segments, clears, legend labels and commits.
- **The AVR settings** (`settings_arduino.dfy`): buffer initialisation, the
  housekeeping conversion loop, the ADMUX channel select and the buffered
  analog read.

Conversions (MCP3208 reads, the AVR `ADC` register), the bytes the expander
returns, and the formatted time string are parameters.

## Model

| member | source | states |
|---|---|---|
| ByteWord.ByteToWord | Arduino/Spikeling/Mcp23s18/gpio_expander.h:63 | byte2word(h, l) is h*256 + l in 16-bit arithmetic |
| ByteWord.WordHighByte | Arduino/Spikeling/Mcp23s18/gpio_expander.h:64 | word2highByte(w) is the quotient w / 256 |
| ByteWord.WordLowByte | Arduino/Spikeling/Mcp23s18/gpio_expander.h:65 | word2lowByte(w) is the remainder w % 256 |
| ByteWord.PackUnpack | Arduino/Spikeling/Mcp23s18/gpio_expander.h:63-65 | byte2word(word2highByte(w), word2lowByte(w)) == w for every 16-bit w |
| ByteWord.UnpackPack | Arduino/Spikeling/Mcp23s18/gpio_expander.h:63-65 | word2highByte and word2lowByte of byte2word(h, l) give back h and l |
| SpiBus.ScanAppend | Arduino/Spikeling/Mcp23s18/Mcp23s08.cpp:252-283 | replaying two pieces of bus traffic is replaying the first, then the second from where the first left the bus |
| SpiBus.AppendQuiescent | Arduino/Spikeling/Mcp23s18/Mcp23s08.cpp:252-283 | a complete access appended to a quiescent log leaves it quiescent |
| SpiBus.OpenScan | Arduino/Spikeling/Mcp23s18/Mcp23s08.cpp:252-263 | startSend takes a released bus to one with the chip selected, inside a transaction exactly when bracketed |
| SpiBus.XferScan | Arduino/Spikeling/Mcp23s18/Mcp23s08.cpp:278-283 | shifting out the register and data bytes while the chip is selected leaves the bus state unchanged |
| SpiBus.CloseScan | Arduino/Spikeling/Mcp23s18/Mcp23s08.cpp:265-275 | endSend releases the chip and closes the transaction, leaving the bus released |
| SpiBus.Frame | Arduino/Spikeling/Mcp23s18/Mcp23s08.cpp:252-283 | one access is: optional beginTransaction, CS low, command, register, data, CS high, optional endTransaction; it keeps the bus discipline (5 or 7 events) |
| SpiBus.OverlapRejected | Arduino/Spikeling/Mcp23s18/Mcp23s08.cpp:252-263 | once any valid log has a chip selected, a further chip select rejects the log whatever follows |
| Mcp23s08.WithBit | Arduino/Spikeling/Mcp23s18/Mcp23s08.cpp:164-169 | `|= 1<<pin` / `&= ~(1<<pin)` sets bit pin to the given value and leaves every other bit alone |
| Mcp23s08.SpiSpeedFor | Arduino/Spikeling/Mcp23s18/Mcp23s08.cpp:23-37 | speed 0 stays 0, a speed above MAXSPISPEED becomes MAXSPISPEED, any other is kept; without transaction support it is 0 |
| Mcp23s08.SelectAddress | Arduino/Spikeling/Mcp23s18/Mcp23s08.cpp:86-94 | HAEN is on and the address kept iff 0x20 <= address <= 0x23, else address 0; readCmd is adrs<<1 with bit 0 set, writeCmd adrs<<1 with bit 0 clear |
| Mcp23s08.MCP23S08.constructor | Arduino/Spikeling/Mcp23s18/Mcp23s08.cpp:71-78 | postSetup's addressing; the speed is set only for a non-zero request with transaction support, and is 0 otherwise; nothing on the bus |
| Mcp23s08.MCP23S08.SetSPIspeed | Arduino/Spikeling/Mcp23s18/Mcp23s08.cpp:23-37 | the stored speed is the clamped speed |
| Mcp23s08.MCP23S08.PostSetup | Arduino/Spikeling/Mcp23s18/Mcp23s08.cpp:80-94 | chip select, address, HAEN and command bytes as SelectAddress says; the speed changes only for a non-zero request |
| Mcp23s08.MCP23S08.Begin | Arduino/Spikeling/Mcp23s18/Mcp23s08.cpp:109-138 | one CS-high, then exactly one IOCON write (0x28 with HAEN, 0x20 without); shadows become direction 0xFF and state 0x00 with no IODIR or GPIO write |
| Mcp23s08.MCP23S08.StartSend | Arduino/Spikeling/Mcp23s18/Mcp23s08.cpp:252-263 | appends the optional beginTransaction, CS low and the read or write command |
| Mcp23s08.MCP23S08.Transfer | Arduino/Spikeling/Mcp23s18/Mcp23s08.cpp:278-283 | appends one byte shifted out |
| Mcp23s08.MCP23S08.EndSend | Arduino/Spikeling/Mcp23s18/Mcp23s08.cpp:265-275 | appends CS high and the optional endTransaction |
| Mcp23s08.MCP23S08.WriteByte | Arduino/Spikeling/Mcp23s18/Mcp23s08.cpp:278-283 | exactly one write frame (CS low, writeCmd, register, data, CS high); the log stays quiescent |
| Mcp23s08.MCP23S08.ReadAddress | Arduino/Spikeling/Mcp23s18/Mcp23s08.cpp:141-148 | exactly one read frame with 0x00 as the data byte; returns the byte received |
| Mcp23s08.MCP23S08.GpioPinModePort | Arduino/Spikeling/Mcp23s18/Mcp23s08.cpp:151-161 | INPUT gives direction 0xFF, OUTPUT gives 0x00 and clears the state shadow, any other byte is the direction; one IODIR write |
| Mcp23s08.MCP23S08.GpioPinMode | Arduino/Spikeling/Mcp23s18/Mcp23s08.cpp:164-169 | for pin < 8 only bit pin of the direction changes (set iff INPUT) and one IODIR write follows; pin >= 8 changes nothing and sends nothing |
| Mcp23s08.MCP23S08.GpioPort | Arduino/Spikeling/Mcp23s18/Mcp23s08.cpp:172-181 | HIGH gives state 0xFF, LOW 0x00, any other byte is stored raw; one GPIO write of the new state |
| Mcp23s08.MCP23S08.ReadGpioPort | Arduino/Spikeling/Mcp23s18/Mcp23s08.cpp:184-186 | one read frame of GPIO; returns the received byte; shadows untouched |
| Mcp23s08.MCP23S08.ReadGpioPortFast | Arduino/Spikeling/Mcp23s18/Mcp23s08.cpp:188-190 | returns the state shadow without touching the bus |
| Mcp23s08.MCP23S08.GpioDigitalReadFast | Arduino/Spikeling/Mcp23s18/Mcp23s08.cpp:192-199 | bit pin of the state shadow as 0 or 1, and 0 for pin >= 8; no bus traffic |
| Mcp23s08.MCP23S08.PortPullup | Arduino/Spikeling/Mcp23s18/Mcp23s08.cpp:201-210 | the pull-up byte (HIGH/LOW expanded) replaces the state shadow and is written to GPPU once |
| Mcp23s08.MCP23S08.GpioDigitalWrite | Arduino/Spikeling/Mcp23s18/Mcp23s08.cpp:215-220 | for pin < 8 only bit pin of the state changes (set iff value == HIGH), then one GPIO write; pin >= 8 changes nothing |
| Mcp23s08.MCP23S08.GpioDigitalWriteFast | Arduino/Spikeling/Mcp23s18/Mcp23s08.cpp:222-226 | the same change of the state shadow with no bus traffic; pin >= 8 changes nothing |
| Mcp23s08.MCP23S08.GpioPortUpdate | Arduino/Spikeling/Mcp23s18/Mcp23s08.cpp:228-230 | one GPIO write of the unchanged state shadow |
| Mcp23s08.MCP23S08.GpioDigitalRead | Arduino/Spikeling/Mcp23s18/Mcp23s08.cpp:232-235 | for pin < 8 one GPIO read, non-zero iff bit pin of the reply is set (the value is the masked bit); 0 and no traffic for pin >= 8 |
| Mcp23s08.MCP23S08.GpioRegisterReadByte | Arduino/Spikeling/Mcp23s18/Mcp23s08.cpp:237-244 | one read frame of the register; returns the received byte |
| Mcp23s08.MCP23S08.GpioRegisterWriteByte | Arduino/Spikeling/Mcp23s18/Mcp23s08.cpp:247-249 | one write frame of the register and data |
| CArith.TruncDiv | Arduino/Spikeling_ploter/SettingsESP.h:440 | C `/` on long: the quotient's magnitude is the floor of the magnitudes' quotient, its sign is negative iff the operands' signs differ |
| CArith.CRem | Arduino/Spikeling_ploter/SettingsESP.h:490 | C `%`: smaller than the divisor in magnitude, the dividend's sign, Euclidean for non-negative operands |
| CArith.ArduinoMap | Arduino/Spikeling_ploter/SettingsESP.h:440 | map sends inMin to outMin and inMax to outMax |
| CArith.TruncDivExact | Arduino/Spikeling_ploter/SettingsESP.h:440 | dividing k*b by b gives k |
| CArith.TruncDivMonotone | Arduino/Spikeling_ploter/SettingsESP.h:440 | C division by a positive number is monotone |
| CArith.MapMonotone | Arduino/Spikeling_ploter/SettingsESP.h:440 | map over an increasing domain onto an increasing range is monotone |
| CArith.MapNotClamped | Arduino/Spikeling_ploter/SettingsESP.h:440 | map extrapolates: one domain width past either end lands one range width past that end |
| CArith.MapOfMultiple | Arduino/Spikeling_ploter/SettingsESP.h:440 | inMin + k*(inMax-inMin) maps to outMin + k*(outMax-outMin) |
| TracePlotter.YCoord | Arduino/Spikeling_ploter/SettingsESP.h:436-441 | the domain minimum maps to row 239, the maximum to 239 - dyPlot, values in the domain land between the two |
| TracePlotter.YCoordMonotone | Arduino/Spikeling_ploter/SettingsESP.h:436-441 | a larger value is never drawn lower on the screen |
| TracePlotter.YCoordNotClamped | Arduino/Spikeling_ploter/SettingsESP.h:436-441 | out-of-domain values are not clamped: one domain width beyond the maximum lands at 239 - 2*dyPlot, beyond the minimum at 239 + dyPlot |
| TracePlotter.NextCursor | Arduino/Spikeling_ploter/SettingsESP.h:471-476 | the cursor stays in [0, 320), goes to 0 exactly after column 319 and otherwise increases by one |
| TracePlotter.TimeDueSchedule | Arduino/Spikeling_ploter/SettingsESP.h:490 | with C's `%` the status text is due exactly at new cursor 0 and at 1, 17, 33, ... |
| TracePlotter.LabelX | Arduino/Spikeling_ploter/SettingsESP.h:487 | a legend label is placed right of the status text at dxInfo/2 |
| TracePlotter.SegmentsCount | Arduino/Spikeling_ploter/SettingsESP.h:466-469 | the segment loop emits one segment per trace and nothing of another kind |
| TracePlotter.LabelsCount | Arduino/Spikeling_ploter/SettingsESP.h:485-488 | the legend loop emits one label per trace and nothing of another kind |
| TracePlotter.DrawPartCount | Arduino/Spikeling_ploter/SettingsESP.h:460-469 | the drawing at column i holds three segments when i > 0 and none at column 0, and no clear, legend or commit |
| TracePlotter.WrapPartCount | Arduino/Spikeling_ploter/SettingsESP.h:472-489 | on wrap exactly one clear and three legend labels, otherwise nothing |
| TracePlotter.TimePartCount | Arduino/Spikeling_ploter/SettingsESP.h:490-504 | the status redraw commits exactly once when due and never otherwise |
| TracePlotter.StepCounts | Arduino/Spikeling_ploter/SettingsESP.h:444-505 | one plot call: 3 segments (0 at column 0); 1 clear and 3 legends iff it wraps; 1 commit iff the status text is due |
| TracePlotter.CursorArithmetic | Arduino/Spikeling_ploter/SettingsESP.h:471-476 | after n calls from column i the cursor is (i+n) % 320 and (i+n) / 320 wraps have happened |
| TracePlotter.FullSweep | Arduino/Spikeling_ploter/SettingsESP.h:471-476 | 320 calls bring the cursor back to where it was, with exactly one wrap |
| TracePlotter.Plotter.constructor | Arduino/Spikeling_ploter/SettingsESP.h:284-294 | cursor 0, empty status text, zeroed domains, zeroed trace buffer |
| TracePlotter.Plotter.Record | Arduino/Spikeling_ploter/SettingsESP.h:458-505 | only column iPnt of the trace buffer changes; the cursor advances and wraps; the draw log grows by exactly StepCmds (the counted commands); the status text is replaced exactly when due |
| TracePlotter.Plotter.Store | Arduino/Spikeling_ploter/SettingsESP.h:449-456 | the three values land in column iPnt and every other column is kept |
| TracePlotter.Plotter.DrawNewPiece | Arduino/Spikeling_ploter/SettingsESP.h:460-469 | erase of column iPnt (incremental build) and one segment per trace from (iPnt-1, Traces[t][iPnt-1]) to (iPnt, Traces[t][iPnt]) |
| TracePlotter.Plotter.Advance | Arduino/Spikeling_ploter/SettingsESP.h:471-489 | cursor advanced modulo 320; on wrap one clear and the three legend labels in the trace colours |
| TracePlotter.Plotter.RedrawTime | Arduino/Spikeling_ploter/SettingsESP.h:490-504 | when due: old text in colour 0, new text in colour 1, then commit |
| TracePlotter.Plotter.Plot | Arduino/Spikeling_ploter/SettingsESP.h:444-456 | trace 0 gets v, trace 1 I_total, trace 2 Stim_State, each through getYCoord on its own domain, then Record |
| PloterEsp.FilterStep | Arduino/Spikeling_ploter/SettingsESP.h:409-418 | a glitch (>4066 or <30) keeps the accepted sample and reports it; any other sample is accepted and reported; both entries agree afterwards |
| PloterEsp.FilterRunIsLastGood | Arduino/Spikeling_ploter/SettingsESP.h:409-418 | over any number of passes a channel reports its latest non-glitch sample, or its starting value if all were glitches |
| PloterEsp.FilterRunPlausible | Arduino/Spikeling_ploter/SettingsESP.h:409-418 | a channel that starts at 0 or in [30, 4066] stays there whatever is sampled |
| PloterEsp.Board.constructor | Arduino/Spikeling_ploter/SettingsESP.h:187-193 | zeroed ADCData, DIOData 0, LED off, expander dio(4, 0x20, speed 0) with an empty log |
| PloterEsp.Board.ResetAdcBuffer | Arduino/Spikeling_ploter/SettingsESP.h:270-273 | row 0 is zero and rows 1..7 keep their previous values |
| PloterEsp.Board.InitializeDio | Arduino/Spikeling_ploter/SettingsESP.h:274-279 | begin, three IODIR writes for the inputs and one for the LED output; state shadow 0; DIOData 0 |
| PloterEsp.Board.DigitalWriteNew | Arduino/Spikeling_ploter/SettingsESP.h:316-336 | pins 110..117 change only bit pin-110 of the expander shadow, pin 16 is written directly, every other pin is ignored |
| PloterEsp.Board.DigitalReadNew | Arduino/Spikeling_ploter/SettingsESP.h:354-367 | for 110..117 HIGH iff bit pin-110 of DIOData is set, else LOW; LOW for any other pin |
| PloterEsp.Board.AnalogReadNew | Arduino/Spikeling_ploter/SettingsESP.h:370-397 | 0 outside 100..107; 300, 128, 100 for pins 103, 104, 105; otherwise the reported sample >> 2, which is at most 1023 for a 12-bit sample |
| PloterEsp.Board.SampleChannels | Arduino/Spikeling_ploter/SettingsESP.h:409-418 | channels 0..2 each take one FilterStep; rows 3..7 are untouched |
| PloterEsp.Board.Housekeeping | Arduino/Spikeling_ploter/SettingsESP.h:402-431 | filter as SampleChannels; the LED bit takes the old LED state and the state is negated; DIOData is the reply of exactly one GPIO read, followed by exactly one GPIO write of the shadow; settled channels stay settled |
| PloterEsp.SettledReadBound | Arduino/Spikeling_ploter/SettingsESP.h:390 | a settled sampled channel never reports a glitch: its reading is at most 4066 / 4 |
| PloterEsp.SetTraceSet | Arduino/Spikeling_ploter/SettingsESP.h:222-235 | indices {V, I_total, Stim_State} with domains (-110,25), (-250,250), (-50,50); each domain's ends map to rows 239 and 19 |
| SpikelingEsp.DigitalReadNew | Arduino/Spikeling/SettingsESP.h:178-181 | every pin reads LOW |
| SpikelingEsp.AnalogReadNew | Arduino/Spikeling/SettingsESP.h:183-200 | defined exactly for the six analog pins with their constants (3: 512, 4: 300, 5: 128, 6: 100, 9: 200, 0: 0); failure for any other pin |
| SpikelingEsp.SetTraceSet | Arduino/Spikeling/SettingsESP.h:99-114 | indices {V, I_total, Stim_State} with domains (-105,20), (-150,100), (-50,50); each domain's ends map to rows 239 and 19 (dyPlot 220) |
| SpikelingEsp.Plot | Arduino/Spikeling/SettingsESP.h:220-272 | only column iPnt changes; the full-redraw step: three segments with no erase, a frame-buffer clear and the legend on wrap, the status redraw when due |
| Spikeling2Esp.GetYCoord | Arduino/Spikeling2/SettingsESP.h:188-191 | vMin maps to row 239, vMax to 239 - 222 = 17, values between land between |
| Spikeling2Esp.TraceValues | Arduino/Spikeling2/SettingsESP.h:200-205 | trace 0 on (-100, 40), traces 1 and 2 on (-200, 80); for each trace the lower domain end lands on row 239, the upper on row 17, and in-domain values between them |
| Spikeling2Esp.Plot | Arduino/Spikeling2/SettingsESP.h:194-243 | every call sets the indices to {V, I_total, Stim_State}; only column iPnt changes; draw log as for the full-redraw plotter with unpadded labels |
| SettingsArduino.MuxSelect | Arduino/Spikeling/SettingsArduino.h:103-104 | for a channel below 16 the MUX bits become the channel and the upper ADMUX bits (the reference) are preserved |
| SettingsArduino.StoreConversionsSpec | Arduino/Spikeling/SettingsArduino.h:146-152 | after k conversions each converted channel holds its result and every other entry is unchanged |
| SettingsArduino.UnlistedUntouched | Arduino/Spikeling/SettingsArduino.h:30-34 | entries 1 and 4 (A1, A4, not listed) are left unchanged by housekeeping |
| SettingsArduino.AvrAdc.constructor | Arduino/Spikeling/SettingsArduino.h:32 | the static buffer is zero |
| SettingsArduino.AvrAdc.AdcInit | Arduino/Spikeling/SettingsArduino.h:81-95 | all eight entries 0; ADMUX = REFS0; prescaler bits 100 and ADEN set; other ADCSRA bits kept |
| SettingsArduino.AvrAdc.Convert | Arduino/Spikeling/SettingsArduino.h:105-107 | one conversion of the selected MUX channel; ADSC ends clear |
| SettingsArduino.AvrAdc.AdcRead | Arduino/Spikeling/SettingsArduino.h:98-108 | ADMUX is MuxSelect(old ADMUX, pin); one conversion of that channel; returns its result |
| SettingsArduino.AvrAdc.AnalogReadHelper | Arduino/Spikeling/SettingsArduino.h:43-46 | the buffered ADCData[pin - A0], read without a conversion |
| SettingsArduino.AvrAdc.ConvertChannel | Arduino/Spikeling/SettingsArduino.h:147-151 | one loop pass: the channel is selected and converted, and its result stored at its own index only |
| SettingsArduino.AvrAdc.Housekeeping | Arduino/Spikeling/SettingsArduino.h:142-153 | the six channels are converted in iADCData order, each result stored at pin - A0 (as StoreConversions); upper ADMUX bits kept |
| SettingsArduino.ListedPinsRead | Arduino/Spikeling/SettingsArduino.h:43-46 | after a housekeeping pass, analogReadHelper of each listed pin is that pin's conversion |

## Left out

- Hardware bring-up in every `initializeHardware`: pinMode, ledc setup, SPI begin, TFT back-light, graphics init, screen rotation.  These are calls into platform libraries.  Only the A/D buffer reset and the expander set-up are modelled.
- The graphics library (MiniGrafx/ILI9341) and its palette.  Only the sequence of draw calls is kept, as `DrawCmd` values.
- The time string: `sprintf` of a float.  The new string is a parameter of the plot call.
- `round(float)` in getYCoord: trace values are the already-rounded integers, and the float domains hold integer values.
- `long` overflow in `map` and 16-bit wrap of `int` arithmetic: integers are unbounded.  All values the firmware feeds in are far from those limits.
- The MCP3208 driver (`adc.read`), the AVR converter and the busy-wait on ADSC.  Conversions are inputs, and the wait is modelled as ending with ADSC clear.
- Mcp23s08.MCP23S08.Begin: only the default `protocolInitOverride == false` call is modelled.  The other branch (Mcp23s08.cpp:110-123) only starts and configures the SPI peripheral (clock divider, bit order, mode), and the firmware never takes it.
- Interrupt support of the expander driver (commented out in the source) and the `delay(100)` in begin (timing only).
- The default MCP23S08 constructor, which the firmware does not use.  The two-argument constructor behaves as the modelled one with speed 0.
- `SPI_HAS_TRANSACTION`, `MAXSPISPEED`, `HIGH/LOW/INPUT/OUTPUT`: these come from platform headers and are fields of `Platform`.
- The ESP8266 branch of the plotter settings, which the source marks as incomplete.
- `analogWriteNew` (ledcWrite) and `pinModeNew`: calls into the ESP core, or empty.  The Spikeling and Spikeling2 `digitalWriteNew`/`analogWriteNew` are empty stubs.
- The Spikeling2 `digitalReadNew`/`analogReadNew` (Arduino/Spikeling2/SettingsESP.h:154-176): the same code as the Spikeling build's, modelled once by `SpikelingEsp.DigitalReadNew`/`AnalogReadNew`.
- `Serial.println` in the Spikeling/Spikeling2 `analogReadNew`: the missing return value is the `None` outcome, and the message is not modelled.
- The `TraceSet` switch: every value selects the same set, so `SetTraceSet` takes no argument.
- PloterEsp.Board.InitializeDio: requires the platform's INPUT code to fit in a byte, because the driver takes the mode as `uint8_t`.  This holds on every Arduino core.
- PloterEsp.Board.DigitalWriteNew: `digitalWrite` on an ESP pin is recorded in `nativeWrites`; the pin level itself is not modelled.
- SettingsArduino.AvrAdc.AdcRead: the channel is taken as a byte.  For a value of 16 or more, the upper ADMUX bits change exactly as `|=` does, and the low-nibble guarantee is stated only for channels below 16.
