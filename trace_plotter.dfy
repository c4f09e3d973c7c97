/**
 * The scrolling trace plotter shared by the three ESP settings files
 * (Arduino/Spikeling_ploter/SettingsESP.h, Arduino/Spikeling/SettingsESP.h,
 * Arduino/Spikeling2/SettingsESP.h).
 *
 * Three traces of 320 screen-space Y values share one write cursor `iPnt`.
 * Each call stores one column, draws one segment per trace from the previous
 * column (none at column 0), advances the cursor, clears the plot and redraws
 * the legend when the cursor wraps, and every 16 columns (and after a wrap)
 * redraws the status text by drawing the old string in colour 0 and the new
 * one in colour 1.  The graphics library is a log of draw commands.
 *
 * The variants differ only in configuration: the height of the info panel,
 * whether the build redraws fully (wrap clears the frame buffer) or
 * incrementally (each column is erased before it is drawn and a wrap erases
 * column 0), the legend's x offset, and the legend strings.
 */
module TracePlotter {
  import opened CArith
  import opened Definitions

  const SCREEN_WIDTH := 320
  const SCREEN_HEIGHT := 240
  const MAX_TRACES := 3
  const MAX_VALUES := 320
  const PLOT_UPDATE := 16
  /** dxInfo, SCREEN_WIDTH / (MAX_TRACES + 1): the width of one info column. */
  const DX_INFO := 80
  /** dxInfo / 2: where the status text starts. */
  const STATUS_X := 40
  const TRACE_COLS: seq<int> := [13, 11, 15]

  /** A call on the graphics surface. */
  datatype DrawCmd =
    | SetColor(color: int)
    | DrawLine(x0: int, y0: int, x1: int, y1: int)
    | DrawString(x: int, y: int, text: string)
    | FillBuffer(color: int)
    | Commit

  /** What distinguishes the three builds of the plotter. */
  datatype PlotConfig = PlotConfig(infoDy: int, fullRedraw: bool, labelPad: int, labels: seq<string>)
  {
    /** dyPlot: the height of the plotting area above the info panel. */
    function DyPlot(): int
    {
      SCREEN_HEIGHT - infoDy
    }

    predicate Valid()
    {
      0 <= infoDy <= SCREEN_HEIGHT && labelPad >= 0 && |labels| > 0
    }
  }

  /**
   * getYCoord: `SCREEN_HEIGHT - 1 - map(v, lo, hi, 0, dyPlot)`.  The domain
   * minimum lands on the bottom row, the maximum dyPlot rows higher, values
   * inside the domain stay between the two, and nothing is clamped.
   */
  function YCoord(dyPlot: int, lo: int, hi: int, v: int): (y: int)
    requires lo != hi
    ensures v == lo ==> y == SCREEN_HEIGHT - 1
    ensures v == hi ==> y == SCREEN_HEIGHT - 1 - dyPlot
    ensures lo < hi && 0 <= dyPlot && lo <= v <= hi ==> SCREEN_HEIGHT - 1 - dyPlot <= y <= SCREEN_HEIGHT - 1
  {
    assert lo < hi && 0 <= dyPlot && lo <= v <= hi ==> 0 <= ArduinoMap(v, lo, hi, 0, dyPlot) <= dyPlot by {
      if lo < hi && 0 <= dyPlot && lo <= v <= hi {
        MapMonotone(lo, v, lo, hi, 0, dyPlot);
        MapMonotone(v, hi, lo, hi, 0, dyPlot);
      }
    }
    SCREEN_HEIGHT - 1 - ArduinoMap(v, lo, hi, 0, dyPlot)
  }

  /** A larger value is drawn no lower on the screen (screen Y grows downward). */
  lemma YCoordMonotone(dyPlot: int, lo: int, hi: int, v1: int, v2: int)
    requires lo < hi && 0 <= dyPlot && v1 <= v2
    ensures YCoord(dyPlot, lo, hi, v1) >= YCoord(dyPlot, lo, hi, v2)
  {
    MapMonotone(v1, v2, lo, hi, 0, dyPlot);
  }

  /** Out-of-domain values are not clamped: one domain width beyond either end leaves the plotting area. */
  lemma YCoordNotClamped(dyPlot: int, lo: int, hi: int)
    requires lo != hi
    ensures YCoord(dyPlot, lo, hi, 2 * hi - lo) == SCREEN_HEIGHT - 1 - 2 * dyPlot
    ensures YCoord(dyPlot, lo, hi, 2 * lo - hi) == SCREEN_HEIGHT - 1 + dyPlot
  {
    MapNotClamped(lo, hi, 0, dyPlot);
  }

  /** The cursor after one call: one column on, back to 0 after the last column. */
  function NextCursor(i: int): (n: int)
    requires 0 <= i < MAX_VALUES
    ensures 0 <= n < MAX_VALUES
    ensures n == 0 <==> i == MAX_VALUES - 1
    ensures n != 0 ==> n == i + 1
  {
    if i + 1 >= MAX_VALUES then 0 else i + 1
  }

  /** `((iPnt - 1) % PLOT_UPDATE) == 0 || iPnt == 0` on the advanced cursor, with C's `%`. */
  predicate TimeDue(n: int)
  {
    CRem(n - 1, PLOT_UPDATE) == 0 || n == 0
  }

  /** The status text is redrawn at column 0 and at every column 1, 17, 33, ... */
  lemma TimeDueSchedule(n: int)
    requires 0 <= n < MAX_VALUES
    ensures TimeDue(n) <==> n == 0 || n % PLOT_UPDATE == 1
  {
    if n > 0 {
      assert CRem(n - 1, PLOT_UPDATE) == (n - 1) % PLOT_UPDATE;
    }
  }

  /** The segments of the first k traces, from column x - 1 to column x. */
  function Segments(k: nat, x: int, prev: seq<int>, cur: seq<int>): seq<DrawCmd>
    requires k <= MAX_TRACES && |prev| == MAX_TRACES && |cur| == MAX_TRACES
  {
    if k == 0 then []
    else Segments(k - 1, x, prev, cur) + [SetColor(TRACE_COLS[k - 1]), DrawLine(x - 1, prev[k - 1], x, cur[k - 1])]
  }

  /** The drawing done at column i, before the cursor moves. */
  function DrawPart(cfg: PlotConfig, i: int, prev: seq<int>, cur: seq<int>): seq<DrawCmd>
    requires |prev| == MAX_TRACES && |cur| == MAX_TRACES
  {
    if i == 0 then []
    else (if cfg.fullRedraw then [] else [SetColor(0), DrawLine(i, 0, i, cfg.DyPlot())])
         + Segments(MAX_TRACES, i, prev, cur)
  }

  predicate LabelsIndexed(cfg: PlotConfig, strIndex: seq<int>)
  {
    cfg.labelPad >= 0 && |strIndex| == MAX_TRACES && forall t :: 0 <= t < MAX_TRACES ==> 0 <= strIndex[t] < |cfg.labels|
  }

  /** dxInfo/2 + k*dxInfo + pad: trace k's legend label (k from 1), one info column (DX_INFO = 80) per trace right of the status text. */
  function LabelX(k: int, pad: int): (x: int)
    requires 1 <= k <= MAX_TRACES && pad >= 0
    ensures STATUS_X < x
  {
    STATUS_X + 80 * k + pad
  }

  /** The legend labels of the first k traces. */
  function Labels(k: nat, cfg: PlotConfig, strIndex: seq<int>): seq<DrawCmd>
    requires k <= MAX_TRACES && LabelsIndexed(cfg, strIndex)
  {
    if k == 0 then []
    else Labels(k - 1, cfg, strIndex)
         + [SetColor(TRACE_COLS[k - 1]),
            DrawString(LabelX(k, cfg.labelPad), cfg.DyPlot(), cfg.labels[strIndex[k - 1]])]
  }

  /** The clear and legend redraw when the advanced cursor n has wrapped to 0. */
  function WrapPart(cfg: PlotConfig, n: int, strIndex: seq<int>): seq<DrawCmd>
    requires LabelsIndexed(cfg, strIndex)
  {
    if n != 0 then []
    else (if cfg.fullRedraw then [FillBuffer(0)] else [SetColor(0), DrawLine(0, 0, 0, cfg.DyPlot())])
         + Labels(MAX_TRACES, cfg, strIndex)
  }

  /** The status-text redraw when it is due: old string in colour 0, new one in colour 1, then commit. */
  function TimePart(cfg: PlotConfig, due: bool, oldTime: string, newTime: string): seq<DrawCmd>
  {
    if !due then []
    else [SetColor(0), DrawString(STATUS_X, cfg.DyPlot(), oldTime),
          SetColor(1), DrawString(STATUS_X, cfg.DyPlot(), newTime), Commit]
  }

  /** Everything one plot call at cursor i sends to the graphics surface. */
  function StepCmds(cfg: PlotConfig, i: int, prev: seq<int>, cur: seq<int>, strIndex: seq<int>,
                    oldTime: string, newTime: string): seq<DrawCmd>
    requires 0 <= i < MAX_VALUES && |prev| == MAX_TRACES && |cur| == MAX_TRACES
    requires LabelsIndexed(cfg, strIndex)
  {
    DrawPart(cfg, i, prev, cur) + WrapPart(cfg, NextCursor(i), strIndex)
    + TimePart(cfg, TimeDue(NextCursor(i)), oldTime, newTime)
  }

  /**
   * The kinds of command a plot call is judged by: a trace segment (a line
   * from one column to the next), a clear (a frame-buffer fill or an erase of
   * column 0), a legend label (text away from the status position) and a
   * commit.
   */
  datatype Kind = Segment | Clear | Legend | Flush

  predicate IsKind(c: DrawCmd, k: Kind)
  {
    match c
    case DrawLine(x0, _, x1, _) => (k == Segment && x1 == x0 + 1) || (k == Clear && x0 == 0 && x1 == 0)
    case FillBuffer(_) => k == Clear
    case DrawString(x, _, _) => k == Legend && x != STATUS_X
    case Commit => k == Flush
    case SetColor(_) => false
  }

  /** How many commands of kind k a log holds. */
  function CountOf(cmds: seq<DrawCmd>, k: Kind): nat
  {
    if |cmds| == 0 then 0
    else CountOf(cmds[..|cmds| - 1], k) + (if IsKind(cmds[|cmds| - 1], k) then 1 else 0)
  }

  lemma {:induction false} CountAppend(a: seq<DrawCmd>, b: seq<DrawCmd>, k: Kind)
    ensures CountOf(a + b, k) == CountOf(a, k) + CountOf(b, k)
  {
    if |b| == 0 {
      assert a + b == a;
    } else {
      assert (a + b)[..|a + b| - 1] == a + b[..|b| - 1];
      assert (a + b)[|a + b| - 1] == b[|b| - 1];
      CountAppend(a, b[..|b| - 1], k);
    }
  }

  /** Appending a colour change and one drawing call counts the drawing call only. */
  lemma CountAppendPair(a: seq<DrawCmd>, color: int, d: DrawCmd, k: Kind)
    ensures CountOf(a + [SetColor(color), d], k) == CountOf(a, k) + (if IsKind(d, k) then 1 else 0)
  {
    var pair := [SetColor(color), d];
    CountAppend(a, pair, k);
    assert pair[..1] == [SetColor(color)] && pair[1] == d;
    assert [SetColor(color)][..0] == [];
    assert CountOf([SetColor(color)], k) == 0;
  }

  lemma {:induction false} SegmentsCount(n: nat, x: int, prev: seq<int>, cur: seq<int>, k: Kind)
    requires n <= MAX_TRACES && |prev| == MAX_TRACES && |cur| == MAX_TRACES && x > 0
    ensures CountOf(Segments(n, x, prev, cur), k) == if k == Segment then n else 0
  {
    if n > 0 {
      var line := DrawLine(x - 1, prev[n - 1], x, cur[n - 1]);
      assert Segments(n, x, prev, cur) == Segments(n - 1, x, prev, cur) + [SetColor(TRACE_COLS[n - 1]), line];
      CountAppendPair(Segments(n - 1, x, prev, cur), TRACE_COLS[n - 1], line, k);
      SegmentsCount(n - 1, x, prev, cur, k);
    }
  }

  lemma {:induction false} LabelsCount(n: nat, cfg: PlotConfig, strIndex: seq<int>, k: Kind)
    requires n <= MAX_TRACES && LabelsIndexed(cfg, strIndex)
    ensures CountOf(Labels(n, cfg, strIndex), k) == if k == Legend then n else 0
  {
    if n > 0 {
      var legend := DrawString(LabelX(n, cfg.labelPad), cfg.DyPlot(), cfg.labels[strIndex[n - 1]]);
      assert Labels(n, cfg, strIndex) == Labels(n - 1, cfg, strIndex) + [SetColor(TRACE_COLS[n - 1]), legend];
      CountAppendPair(Labels(n - 1, cfg, strIndex), TRACE_COLS[n - 1], legend, k);
      LabelsCount(n - 1, cfg, strIndex, k);
    }
  }

  lemma DrawPartCount(cfg: PlotConfig, i: int, prev: seq<int>, cur: seq<int>, k: Kind)
    requires 0 <= i < MAX_VALUES && |prev| == MAX_TRACES && |cur| == MAX_TRACES
    ensures CountOf(DrawPart(cfg, i, prev, cur), k) == if k == Segment && i > 0 then MAX_TRACES else 0
  {
    if i > 0 {
      var segs := Segments(MAX_TRACES, i, prev, cur);
      SegmentsCount(MAX_TRACES, i, prev, cur, k);
      if !cfg.fullRedraw {
        var erase := [SetColor(0), DrawLine(i, 0, i, cfg.DyPlot())];
        assert DrawPart(cfg, i, prev, cur) == erase + segs;
        CountAppend(erase, segs, k);
        CountAppendPair([], 0, DrawLine(i, 0, i, cfg.DyPlot()), k);
        assert [] + erase == erase;
      } else {
        assert DrawPart(cfg, i, prev, cur) == segs;
      }
    }
  }

  lemma WrapPartCount(cfg: PlotConfig, n: int, strIndex: seq<int>, k: Kind)
    requires LabelsIndexed(cfg, strIndex)
    ensures CountOf(WrapPart(cfg, n, strIndex), k)
            == if n != 0 then 0 else if k == Clear then 1 else if k == Legend then MAX_TRACES else 0
  {
    if n == 0 {
      var labels := Labels(MAX_TRACES, cfg, strIndex);
      LabelsCount(MAX_TRACES, cfg, strIndex, k);
      var clear: seq<DrawCmd>;
      if cfg.fullRedraw {
        clear := [FillBuffer(0)];
        assert clear[..0] == [];
      } else {
        clear := [SetColor(0), DrawLine(0, 0, 0, cfg.DyPlot())];
        CountAppendPair([], 0, DrawLine(0, 0, 0, cfg.DyPlot()), k);
        assert [] + clear == clear;
      }
      assert WrapPart(cfg, n, strIndex) == clear + labels;
      CountAppend(clear, labels, k);
    }
  }

  lemma TimePartCount(cfg: PlotConfig, due: bool, oldTime: string, newTime: string, k: Kind)
    ensures CountOf(TimePart(cfg, due, oldTime, newTime), k) == if due && k == Flush then 1 else 0
  {
    if due {
      var erase := [SetColor(0), DrawString(STATUS_X, cfg.DyPlot(), oldTime)];
      var draw := erase + [SetColor(1), DrawString(STATUS_X, cfg.DyPlot(), newTime)];
      CountAppendPair([], 0, DrawString(STATUS_X, cfg.DyPlot(), oldTime), k);
      assert [] + erase == erase;
      CountAppendPair(erase, 1, DrawString(STATUS_X, cfg.DyPlot(), newTime), k);
      assert TimePart(cfg, due, oldTime, newTime) == draw + [Commit];
      assert (draw + [Commit])[..|draw + [Commit]| - 1] == draw;
    }
  }

  /**
   * One plot call draws exactly one segment per trace except at column 0,
   * clears the plot exactly once and redraws the three legend labels exactly
   * when the cursor wraps, and commits exactly when the status text is due.
   */
  lemma StepCounts(cfg: PlotConfig, i: int, prev: seq<int>, cur: seq<int>, strIndex: seq<int>,
                   oldTime: string, newTime: string)
    requires 0 <= i < MAX_VALUES && |prev| == MAX_TRACES && |cur| == MAX_TRACES
    requires LabelsIndexed(cfg, strIndex)
    ensures var cmds := StepCmds(cfg, i, prev, cur, strIndex, oldTime, newTime);
            && CountOf(cmds, Segment) == (if i == 0 then 0 else MAX_TRACES)
            && CountOf(cmds, Clear) == (if i == MAX_VALUES - 1 then 1 else 0)
            && CountOf(cmds, Legend) == (if i == MAX_VALUES - 1 then MAX_TRACES else 0)
            && CountOf(cmds, Flush) == (if TimeDue(NextCursor(i)) then 1 else 0)
  {
    var n := NextCursor(i);
    var d, w, t := DrawPart(cfg, i, prev, cur), WrapPart(cfg, n, strIndex), TimePart(cfg, TimeDue(n), oldTime, newTime);
    forall k: Kind
      ensures CountOf(d + w + t, k) == CountOf(d, k) + CountOf(w, k) + CountOf(t, k)
    {
      CountAppend(d, w, k);
      CountAppend(d + w, t, k);
    }
    DrawPartCount(cfg, i, prev, cur, Segment);
    DrawPartCount(cfg, i, prev, cur, Clear);
    DrawPartCount(cfg, i, prev, cur, Legend);
    DrawPartCount(cfg, i, prev, cur, Flush);
    WrapPartCount(cfg, n, strIndex, Segment);
    WrapPartCount(cfg, n, strIndex, Clear);
    WrapPartCount(cfg, n, strIndex, Legend);
    WrapPartCount(cfg, n, strIndex, Flush);
    TimePartCount(cfg, TimeDue(n), oldTime, newTime, Segment);
    TimePartCount(cfg, TimeDue(n), oldTime, newTime, Clear);
    TimePartCount(cfg, TimeDue(n), oldTime, newTime, Legend);
    TimePartCount(cfg, TimeDue(n), oldTime, newTime, Flush);
  }

  /** The cursor after n calls starting at column i. */
  function CursorAfter(i: int, n: nat): int
    requires 0 <= i < MAX_VALUES
    decreases n
  {
    if n == 0 then i else CursorAfter(NextCursor(i), n - 1)
  }

  /** How many of n calls starting at column i wrap the cursor (and so clear the plot). */
  function WrapsDuring(i: int, n: nat): nat
    requires 0 <= i < MAX_VALUES
    decreases n
  {
    if n == 0 then 0 else (if NextCursor(i) == 0 then 1 else 0) + WrapsDuring(NextCursor(i), n - 1)
  }

  /**
   * The cursor is the number of columns written modulo 320, and every 320th
   * call wraps: each wrap takes exactly 320 columns back.
   */
  lemma {:induction false} CursorArithmetic(i: int, n: nat)
    requires 0 <= i < MAX_VALUES
    ensures 0 <= CursorAfter(i, n) < MAX_VALUES
    ensures CursorAfter(i, n) + MAX_VALUES * WrapsDuring(i, n) == i + n
    ensures CursorAfter(i, n) == (i + n) % MAX_VALUES
    ensures WrapsDuring(i, n) == (i + n) / MAX_VALUES
    decreases n
  {
    if n > 0 {
      var j := NextCursor(i);
      CursorArithmetic(j, n - 1);
      if i == MAX_VALUES - 1 {
        assert i + n == (j + n - 1) + MAX_VALUES;
      } else {
        assert i + n == j + n - 1;
      }
    }
  }

  /** Every 320 calls bring the cursor back where it was, with exactly one wrap (one clear) on the way. */
  lemma FullSweep(i: int)
    requires 0 <= i < MAX_VALUES
    ensures CursorAfter(i, MAX_VALUES) == i
    ensures WrapsDuring(i, MAX_VALUES) == 1
  {
    CursorArithmetic(i, MAX_VALUES);
    var w := WrapsDuring(i, MAX_VALUES);
    assert MAX_VALUES * w == i + MAX_VALUES - CursorAfter(i, MAX_VALUES);
    if w == 0 {
      assert false;
    } else if w >= 2 {
      assert false;
    }
  }

  /** The plotter's globals: Traces, iPnt, TracesStrIndex, TracesMinMax, timeStr, and the graphics log. */
  class Plotter {
    const cfg: PlotConfig
    const traces: array2<int>
    var iPnt: int
    var strIndex: seq<int>
    var domains: seq<(int, int)>
    var timeStr: string
    var log: seq<DrawCmd>

    ghost predicate Valid()
      reads this
    {
      && cfg.Valid()
      && traces.Length0 == MAX_TRACES && traces.Length1 == MAX_VALUES
      && 0 <= iPnt < MAX_VALUES
      && LabelsIndexed(cfg, strIndex)
      && |domains| == MAX_TRACES
    }

    /** Every trace has a proper domain (setTraceSet has run), so map does not divide by zero. */
    predicate DomainsSet()
      reads this
    {
      |domains| == MAX_TRACES && forall t :: 0 <= t < MAX_TRACES ==> domains[t].0 != domains[t].1
    }

    /** The three trace values stored at column c. */
    function Column(c: int): (col: seq<int>)
      reads this, traces
      requires Valid() && 0 <= c < MAX_VALUES
      ensures |col| == MAX_TRACES
    {
      [traces[0, c], traces[1, c], traces[2, c]]
    }

    /** The column a segment starts from: the one before the cursor (unused at column 0). */
    function PrevColumn(): (col: seq<int>)
      reads this, traces
      requires Valid()
      ensures |col| == MAX_TRACES
    {
      if iPnt > 0 then Column(iPnt - 1) else [0, 0, 0]
    }

    /** getYCoord(iTr, v) on the domain setTraceSet chose for trace iTr. */
    function GetYCoord(iTr: int, v: int): int
      reads this
      requires Valid() && DomainsSet() && 0 <= iTr < MAX_TRACES
    {
      YCoord(cfg.DyPlot(), domains[iTr].0, domains[iTr].1, v)
    }

    /**
     * The plotting variables as initializeHardware leaves them before
     * setTraceSet: cursor 0, empty status text, zeroed domains, and the
     * statically zeroed trace buffer and string indices.
     */
    constructor (cfg: PlotConfig)
      requires cfg.Valid()
      ensures Valid() && this.cfg == cfg && fresh(traces)
      ensures iPnt == 0 && timeStr == "" && log == []
      ensures strIndex == [0, 0, 0] && domains == [(0, 0), (0, 0), (0, 0)]
      ensures forall t, c :: 0 <= t < MAX_TRACES && 0 <= c < MAX_VALUES ==> traces[t, c] == 0
    {
      this.cfg := cfg;
      traces := new int[MAX_TRACES, MAX_VALUES]((t, c) => 0);
      iPnt := 0;
      strIndex := [0, 0, 0];
      domains := [(0, 0), (0, 0), (0, 0)];
      timeStr := "";
      log := [];
    }

    /**
     * The body of plot once the three Y values are known: store them in
     * column iPnt, draw, advance and wrap the cursor, redraw the status text
     * when due.  Only column iPnt of the trace buffer changes.
     */
    method Record(ys: seq<int>, newTime: string)
      requires Valid() && |ys| == MAX_TRACES
      modifies this`iPnt, this`timeStr, this`log, traces
      ensures Valid()
      ensures forall t, c :: 0 <= t < MAX_TRACES && 0 <= c < MAX_VALUES ==>
                traces[t, c] == if c == old(iPnt) then ys[t] else old(traces[t, c])
      ensures iPnt == NextCursor(old(iPnt))
      ensures log == old(log) + StepCmds(cfg, old(iPnt), old(PrevColumn()), ys, strIndex, old(timeStr), newTime)
      ensures timeStr == if TimeDue(iPnt) then newTime else old(timeStr)
    {
      Store(ys);
      DrawNewPiece();
      Advance();
      RedrawTime(newTime);
    }

    /** Traces[iTr][iPnt] = y for each trace; every other column is kept. */
    method Store(ys: seq<int>)
      requires Valid() && |ys| == MAX_TRACES
      modifies traces
      ensures forall t, c :: 0 <= t < MAX_TRACES && 0 <= c < MAX_VALUES ==>
                traces[t, c] == if c == iPnt then ys[t] else old(traces[t, c])
      ensures Column(iPnt) == ys && PrevColumn() == old(PrevColumn())
    {
      traces[0, iPnt] := ys[0];
      traces[1, iPnt] := ys[1];
      traces[2, iPnt] := ys[2];
    }

    /** The erase of column iPnt (incremental builds) and the segment of each trace ending there. */
    method DrawNewPiece()
      requires Valid()
      modifies this`log
      ensures log == old(log) + DrawPart(cfg, iPnt, PrevColumn(), Column(iPnt))
    {
      if iPnt > 0 {
        if !cfg.fullRedraw {
          log := log + [SetColor(0), DrawLine(iPnt, 0, iPnt, cfg.DyPlot())];
        }
        ghost var erased := log;
        var iTr := 0;
        while iTr < MAX_TRACES
          modifies this`log
          invariant 0 <= iTr <= MAX_TRACES
          invariant log == erased + Segments(iTr, iPnt, PrevColumn(), Column(iPnt))
        {
          log := log + [SetColor(TRACE_COLS[iTr]), DrawLine(iPnt - 1, traces[iTr, iPnt - 1], iPnt, traces[iTr, iPnt])];
          iTr := iTr + 1;
        }
      }
    }

    /** Move the cursor on; on wrapping, clear the plot and redraw the legend. */
    method Advance()
      requires Valid()
      modifies this`iPnt, this`log
      ensures Valid()
      ensures iPnt == NextCursor(old(iPnt))
      ensures log == old(log) + WrapPart(cfg, iPnt, strIndex)
    {
      iPnt := iPnt + 1;
      if iPnt >= MAX_VALUES {
        iPnt := 0;
        if !cfg.fullRedraw {
          log := log + [SetColor(0), DrawLine(0, 0, 0, cfg.DyPlot())];
        } else {
          log := log + [FillBuffer(0)];
        }
        ghost var cleared := log;
        var iTr := 0;
        while iTr < MAX_TRACES
          modifies this`log
          invariant 0 <= iTr <= MAX_TRACES
          invariant log == cleared + Labels(iTr, cfg, strIndex)
        {
          log := log + [SetColor(TRACE_COLS[iTr]),
                        DrawString(LabelX(iTr + 1, cfg.labelPad), cfg.DyPlot(), cfg.labels[strIndex[iTr]])];
          iTr := iTr + 1;
        }
      }
    }

    /** When due, overdraw the old status text in colour 0, draw the new one in colour 1 and commit. */
    method RedrawTime(newTime: string)
      modifies this`timeStr, this`log
      ensures log == old(log) + TimePart(cfg, TimeDue(iPnt), old(timeStr), newTime)
      ensures timeStr == if TimeDue(iPnt) then newTime else old(timeStr)
    {
      if TimeDue(iPnt) {
        log := log + [SetColor(0), DrawString(STATUS_X, cfg.DyPlot(), timeStr)];
        timeStr := newTime;
        log := log + [SetColor(1), DrawString(STATUS_X, cfg.DyPlot(), timeStr), Commit];
      }
    }

    /**
     * plot for the trace set of setTraceSet (both builds that keep per-trace
     * domains): trace 0 shows v, trace 1 I_total, trace 2 Stim_State, each
     * scaled with getYCoord on its own domain.
     */
    method Plot(out: Output, newTime: string)
      requires Valid() && DomainsSet()
      modifies this`iPnt, this`timeStr, this`log, traces
      ensures Valid()
      ensures var ys := [old(GetYCoord(0, out.v)), old(GetYCoord(1, out.iTotal)), old(GetYCoord(2, out.stimState))];
              && (forall t, c :: 0 <= t < MAX_TRACES && 0 <= c < MAX_VALUES ==>
                    traces[t, c] == if c == old(iPnt) then ys[t] else old(traces[t, c]))
              && log == old(log) + StepCmds(cfg, old(iPnt), old(PrevColumn()), ys, strIndex, old(timeStr), newTime)
      ensures iPnt == NextCursor(old(iPnt))
      ensures timeStr == if TimeDue(iPnt) then newTime else old(timeStr)
    {
      var ys := [GetYCoord(0, out.v), GetYCoord(1, out.iTotal), GetYCoord(2, out.stimState)];
      Record(ys, newTime);
    }
  }
}
