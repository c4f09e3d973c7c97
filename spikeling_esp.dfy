/**
 * The ESP32 settings of the Spikeling sketch (Arduino/Spikeling/SettingsESP.h):
 * no I/O expander, stubbed pin helpers, and the trace plotter in its
 * full-redraw form (a wrap clears the whole frame buffer).
 */
module SpikelingEsp {
  import opened Optional
  import opened Definitions
  import opened TracePlotter

  // Simulation pins of this build (PhotoDiodePin and LEDOutPin share pin 0).
  const PHOTO_DIODE_PIN := 0
  const VM_POT_PIN := 3
  const SYN1_POT_PIN := 4
  const SYN2_POT_PIN := 5
  const NOISE_POT_PIN := 6
  const ANALOG_IN_PIN := 9

  const INFO_DY := 20
  const LABEL_PAD := 5
  const OUTPUT_STR: seq<string> :=
    ["V_m[mV]", "I_t[pA]", "I_PD[pA]", "I_AI[pA]", "I_Sy[pA]", "StmSt", "SpIn1", "SpIn2", "t[us]"]
  /** Full redraw: no per-column erase, and a wrap clears the frame buffer. */
  const CONFIG := PlotConfig(INFO_DY, true, LABEL_PAD, OUTPUT_STR)
  /** The (min, max) domains setTraceSet gives the three traces. */
  const DOMAINS: seq<(int, int)> := [(-105, 20), (-150, 100), (-50, 50)]

  /** digitalReadNew: a stub that reads every pin as LOW. */
  function DigitalReadNew(low: int, pin: int): (r: int)
    ensures r == low
  {
    low
  }

  /**
   * analogReadNew: fixed readings for the six analog pins.  Any other pin
   * reports an error and the function ends without a return value, which
   * is the failure outcome None here.
   */
  function AnalogReadNew(pin: int): (r: Option<int>)
    ensures r.Some? <==> pin in {PHOTO_DIODE_PIN, VM_POT_PIN, SYN1_POT_PIN, SYN2_POT_PIN, NOISE_POT_PIN, ANALOG_IN_PIN}
    ensures r.Some? ==> 0 <= r.value < 1024
    ensures pin == VM_POT_PIN ==> r == Some(512)
    ensures pin == SYN1_POT_PIN ==> r == Some(300)
    ensures pin == SYN2_POT_PIN ==> r == Some(128)
    ensures pin == NOISE_POT_PIN ==> r == Some(100)
    ensures pin == ANALOG_IN_PIN ==> r == Some(200)
    ensures pin == PHOTO_DIODE_PIN ==> r == Some(0)
  {
    match pin
    case 3 => Some(512)
    case 4 => Some(300)
    case 5 => Some(128)
    case 6 => Some(100)
    case 9 => Some(200)
    case 0 => Some(0)
    case _ => None
  }

  /**
   * setTraceSet(): every trace set selects the membrane potential, the total
   * current and the stimulus state with their fixed domains, whose ends land
   * on the bottom row and dyPlot = 220 rows above it.
   */
  method SetTraceSet(p: Plotter)
    requires p.Valid() && p.cfg == CONFIG
    modifies p`strIndex, p`domains
    ensures p.Valid() && p.DomainsSet()
    ensures p.strIndex == [ID_V, ID_I_TOTAL, ID_I_STIM_STATE] && p.domains == DOMAINS
    ensures forall t :: 0 <= t < MAX_TRACES ==>
              p.GetYCoord(t, DOMAINS[t].0) == SCREEN_HEIGHT - 1 && p.GetYCoord(t, DOMAINS[t].1) == SCREEN_HEIGHT - 1 - 220
  {
    p.strIndex := [ID_V, ID_I_TOTAL, ID_I_STIM_STATE];
    p.domains := DOMAINS;
  }

  /**
   * plot(Output) of this build: the new column is drawn as three segments
   * with no erase, and a wrap clears the whole buffer once before the legend.
   */
  method Plot(p: Plotter, out: Output, newTime: string)
    requires p.Valid() && p.cfg == CONFIG && p.domains == DOMAINS
    modifies p`iPnt, p`timeStr, p`log, p.traces
    ensures p.Valid()
    ensures var ys := [YCoord(220, -105, 20, out.v), YCoord(220, -150, 100, out.iTotal), YCoord(220, -50, 50, out.stimState)];
            && (forall t, c :: 0 <= t < MAX_TRACES && 0 <= c < MAX_VALUES ==>
                  p.traces[t, c] == if c == old(p.iPnt) then ys[t] else old(p.traces[t, c]))
            && p.log == old(p.log) + StepCmds(CONFIG, old(p.iPnt), old(p.PrevColumn()), ys, p.strIndex, old(p.timeStr), newTime)
    ensures p.iPnt == NextCursor(old(p.iPnt))
    ensures p.timeStr == if TimeDue(p.iPnt) then newTime else old(p.timeStr)
  {
    p.Plot(out, newTime);
  }
}
