/**
 * The ESP32 settings of the Spikeling2 sketch (Arduino/Spikeling2/SettingsESP.h):
 * a full-redraw trace plotter whose domains are fixed by V_MIN/V_MAX rather
 * than chosen by a trace set.  The pin helpers and analog pin numbers of this build
 * are the same as the Spikeling build's and are modelled once, in SpikelingEsp.
 */
module Spikeling2Esp {
  import opened Definitions
  import opened TracePlotter

  const INFO_DY := 18
  /** dyPlot = SCREEN_HEIGHT - INFO_DY. */
  const DY_PLOT := 222
  const V_MIN := -100
  const V_MAX := 40
  const OUTPUT_STR: seq<string> :=
    ["V_mem [V] ", "I_tot [pA]", "I_PD [pA] ", "I_AIn [pA]", "I_Syn [pA]", "Stim_State", "SpIn1State", "SpIn2State", "time [us] "]
  /** Full redraw, and the legend labels sit exactly on the info columns (no padding). */
  const CONFIG := PlotConfig(INFO_DY, true, 0, OUTPUT_STR)

  /**
   * getYCoord(vMin, vMax, v): the bottom row for vMin, dyPlot rows above it
   * for vMax, and rows in between for values in between.
   */
  function GetYCoord(vMin: int, vMax: int, v: int): (y: int)
    requires vMin != vMax
    ensures v == vMin ==> y == SCREEN_HEIGHT - 1
    ensures v == vMax ==> y == SCREEN_HEIGHT - 1 - DY_PLOT
    ensures vMin < vMax && vMin <= v <= vMax ==> SCREEN_HEIGHT - 1 - DY_PLOT <= y <= SCREEN_HEIGHT - 1
  {
    YCoord(CONFIG.DyPlot(), vMin, vMax, v)
  }

  /** The membrane potential on (V_MIN, V_MAX), both currents on the doubled domain. */
  function TraceValues(out: Output): (ys: seq<int>)
    ensures |ys| == MAX_TRACES
    ensures out.v == V_MIN ==> ys[0] == SCREEN_HEIGHT - 1
    ensures out.v == V_MAX ==> ys[0] == SCREEN_HEIGHT - 1 - DY_PLOT
    ensures V_MIN <= out.v <= V_MAX ==> SCREEN_HEIGHT - 1 - DY_PLOT <= ys[0] <= SCREEN_HEIGHT - 1
    ensures out.iTotal == 2 * V_MIN ==> ys[1] == SCREEN_HEIGHT - 1
    ensures out.iTotal == 2 * V_MAX ==> ys[1] == SCREEN_HEIGHT - 1 - DY_PLOT
    ensures 2 * V_MIN <= out.iTotal <= 2 * V_MAX ==> SCREEN_HEIGHT - 1 - DY_PLOT <= ys[1] <= SCREEN_HEIGHT - 1
    ensures out.stimState == 2 * V_MIN ==> ys[2] == SCREEN_HEIGHT - 1
    ensures out.stimState == 2 * V_MAX ==> ys[2] == SCREEN_HEIGHT - 1 - DY_PLOT
    ensures 2 * V_MIN <= out.stimState <= 2 * V_MAX ==> SCREEN_HEIGHT - 1 - DY_PLOT <= ys[2] <= SCREEN_HEIGHT - 1
  {
    [GetYCoord(V_MIN, V_MAX, out.v), GetYCoord(V_MIN * 2, V_MAX * 2, out.iTotal),
     GetYCoord(V_MIN * 2, V_MAX * 2, out.stimState)]
  }

  /**
   * plot(Output): every call names the three traces (potential, total
   * current, stimulus state), stores their Y coordinates in column iPnt and
   * draws, wraps and redraws the status text as the full-redraw plotter does.
   */
  method Plot(p: Plotter, out: Output, newTime: string)
    requires p.Valid() && p.cfg == CONFIG
    modifies p`strIndex, p`iPnt, p`timeStr, p`log, p.traces
    ensures p.Valid()
    ensures p.strIndex == [ID_V, ID_I_TOTAL, ID_I_STIM_STATE]
    ensures forall t, c :: 0 <= t < MAX_TRACES && 0 <= c < MAX_VALUES ==>
              p.traces[t, c] == if c == old(p.iPnt) then TraceValues(out)[t] else old(p.traces[t, c])
    ensures p.log == old(p.log) + StepCmds(CONFIG, old(p.iPnt), old(p.PrevColumn()), TraceValues(out), p.strIndex, old(p.timeStr), newTime)
    ensures p.iPnt == NextCursor(old(p.iPnt))
    ensures p.timeStr == if TimeDue(p.iPnt) then newTime else old(p.timeStr)
  {
    p.strIndex := [ID_V, ID_I_TOTAL, ID_I_STIM_STATE];
    p.Record(TraceValues(out), newTime);
  }
}
