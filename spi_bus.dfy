/**
 * The SPI bus as seen by one device driver: an append-only log of what the
 * driver does to the bus, and the framing of a single register access
 * (startSend / endSend / writeByte in Arduino/Spikeling/Mcp23s18/Mcp23s08.cpp).
 *
 * A register access selects the chip, shifts out the command byte, the
 * register address and one data byte, and deselects the chip; when the
 * driver uses SPI transactions the whole access is bracketed by
 * beginTransaction / endTransaction.  `Scan` replays a log against the bus
 * discipline: transactions do not nest, a chip is not selected while another
 * one is, bytes move only while a chip is selected, and a transaction is not
 * opened or closed in the middle of a selection.
 */
module SpiBus {
  import opened Optional

  datatype SpiEvent =
    | BeginTx(speed: nat)    // beginTransaction(SPISettings(speed, MSBFIRST, SPI_MODE0))
    | CsLow(cs: int)         // chip-select line `cs` driven low: device selected
    | Xfer(out: bv8)         // one byte shifted out (what comes back is an input of the reader)
    | CsHigh(cs: int)        // chip-select line `cs` driven high: device released
    | EndTx                  // endTransaction()

  /** Where the bus stands: is a transaction open, and which chip is selected. */
  datatype BusState = BusState(locked: bool, selected: Option<int>)

  const Released := BusState(false, None)

  /** One step of the bus discipline; None when the event breaks it. */
  function Step(s: BusState, e: SpiEvent): Option<BusState>
  {
    match e
    case BeginTx(_) => if s.locked || s.selected.Some? then None else Some(BusState(true, None))
    case EndTx => if !s.locked || s.selected.Some? then None else Some(BusState(false, None))
    case CsLow(cs) => if s.selected.Some? then None else Some(BusState(s.locked, Some(cs)))
    case CsHigh(cs) => if s.selected == Some(cs) then Some(BusState(s.locked, None)) else Some(s)
    case Xfer(_) => if s.selected.Some? then Some(s) else None
  }

  /** Replays `log` from state `s`; None when some event breaks the discipline. */
  function Scan(s: BusState, log: seq<SpiEvent>): Option<BusState>
    decreases |log|
  {
    if log == [] then Some(s)
    else match Step(s, log[0])
      case None => None
      case Some(t) => Scan(t, log[1..])
  }

  /** A log that keeps the discipline and leaves no chip selected and no transaction open. */
  ghost predicate Quiescent(log: seq<SpiEvent>)
  {
    Scan(Released, log) == Some(Released)
  }

  /** Replaying a concatenation is replaying the first part and then the second from where it left the bus. */
  lemma {:induction false} ScanAppend(s: BusState, a: seq<SpiEvent>, b: seq<SpiEvent>)
    ensures Scan(s, a + b) == (match Scan(s, a) case None => None case Some(t) => Scan(t, b))
    decreases |a|
  {
    if a == [] {
      assert a + b == b;
    } else {
      assert (a + b)[0] == a[0];
      assert (a + b)[1..] == a[1..] + b;
      match Step(s, a[0])
      case None =>
      case Some(t) => ScanAppend(t, a[1..], b);
    }
  }

  /** Appending a self-contained piece of bus traffic to a quiescent log leaves it quiescent. */
  lemma AppendQuiescent(log: seq<SpiEvent>, more: seq<SpiEvent>)
    requires Quiescent(log) && Quiescent(more)
    ensures Quiescent(log + more)
  {
    ScanAppend(Released, log, more);
  }

  /** The opening of an access: begin the transaction if bracketed, select the chip, send the command byte. */
  function Open(cs: int, bracketed: bool, speed: nat, cmd: bv8): seq<SpiEvent>
  {
    (if bracketed then [BeginTx(speed)] else []) + [CsLow(cs), Xfer(cmd)]
  }

  /** The closing of an access: release the chip, end the transaction if bracketed. */
  function Close(cs: int, bracketed: bool): seq<SpiEvent>
  {
    [CsHigh(cs)] + (if bracketed then [EndTx] else [])
  }

  /** The opening takes a released bus to one with the chip selected, inside the transaction when bracketed. */
  lemma OpenScan(cs: int, bracketed: bool, speed: nat, cmd: bv8)
    ensures Scan(Released, Open(cs, bracketed, speed, cmd)) == Some(BusState(bracketed, Some(cs)))
  {
    var sel := BusState(bracketed, Some(cs));
    assert Scan(sel, [Xfer(cmd)]) == Some(sel) by { assert [Xfer(cmd)][1..] == []; }
    assert Scan(BusState(bracketed, None), [CsLow(cs), Xfer(cmd)]) == Some(sel) by {
      assert [CsLow(cs), Xfer(cmd)][1..] == [Xfer(cmd)];
    }
    if bracketed {
      assert Open(cs, bracketed, speed, cmd)[1..] == [CsLow(cs), Xfer(cmd)];
    } else {
      assert Open(cs, bracketed, speed, cmd) == [CsLow(cs), Xfer(cmd)];
    }
  }

  /** Bytes shifted out while a chip is selected leave the bus as it was. */
  lemma XferScan(s: BusState, a: bv8, b: bv8)
    requires s.selected.Some?
    ensures Scan(s, [Xfer(a), Xfer(b)]) == Some(s)
  {
    assert Scan(s, [Xfer(b)]) == Some(s) by { assert [Xfer(b)][1..] == []; }
    assert [Xfer(a), Xfer(b)][1..] == [Xfer(b)];
  }

  /** The closing releases the chip and, when bracketed, ends the transaction. */
  lemma CloseScan(cs: int, bracketed: bool)
    ensures Scan(BusState(bracketed, Some(cs)), Close(cs, bracketed)) == Some(Released)
  {
    var tail: seq<SpiEvent> := if bracketed then [EndTx] else [];
    assert Scan(BusState(bracketed, None), tail) == Some(Released) by {
      if bracketed { assert tail[1..] == []; }
    }
    assert Close(cs, bracketed)[1..] == tail;
  }

  /**
   * One register access: command byte, register address, data byte, framed
   * by chip-select and, when bracketed, by a transaction.
   */
  function Frame(cs: int, bracketed: bool, speed: nat, cmd: bv8, reg: bv8, data: bv8): (f: seq<SpiEvent>)
    ensures f == Open(cs, bracketed, speed, cmd) + [Xfer(reg), Xfer(data)] + Close(cs, bracketed)
    ensures Quiescent(f)
    ensures |f| == if bracketed then 7 else 5
  {
    var open, bytes, close := Open(cs, bracketed, speed, cmd), [Xfer(reg), Xfer(data)], Close(cs, bracketed);
    OpenScan(cs, bracketed, speed, cmd);
    XferScan(BusState(bracketed, Some(cs)), reg, data);
    CloseScan(cs, bracketed);
    ScanAppend(Released, open, bytes);
    ScanAppend(Released, open + bytes, close);
    open + bytes + close
  }

  /**
   * Two accesses that overlap break the discipline: once a chip is selected,
   * a further chip select rejects the log, whatever follows.
   */
  lemma OverlapRejected(log: seq<SpiEvent>, cs: int, rest: seq<SpiEvent>)
    requires Scan(Released, log).Some? && Scan(Released, log).value.selected.Some?
    ensures Scan(Released, log + [CsLow(cs)] + rest) == None
  {
    assert log + [CsLow(cs)] + rest == log + ([CsLow(cs)] + rest);
    ScanAppend(Released, log, [CsLow(cs)] + rest);
    assert ([CsLow(cs)] + rest)[0] == CsLow(cs);
  }
}
