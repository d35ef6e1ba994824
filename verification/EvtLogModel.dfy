/**
 The event log of msm/sde_dbg_evtlog.c on values: a ring of the newest events, and the counters by which
 reading it through debugfs (msm/sde_dbg.c) walks the events not read yet.  `cap` is SDE_EVTLOG_ENTRY.
 */
module EvtLogModel {

  datatype Slot = Blank | Event(time: int, name: string, line: int, data: seq<int>)

  // struct sde_dbg_evtlog, with cur_evt_index of the debugfs reader as `readCount`
  datatype Log = Log(slots: seq<Slot>, curr: nat, last: nat, first: nat, next: nat, lastDump: nat, readCount: nat)

  ghost predicate Shaped(l: Log, cap: nat) {
    cap > 0 && |l.slots| == cap
  }

  // sde_evtlog_log
  function Record(l: Log, e: Slot, cap: nat): (r: Log)
    requires Shaped(l, cap)
    ensures Shaped(r, cap)
  {
    l.(curr := l.curr + 1, slots := l.slots[(l.curr + 1) % cap := e], last := l.last + 1)
  }

  // sde_dbg_debugfs_open
  function Open(l: Log, cap: nat): Log {
    l.(readCount := 0, first := l.curr + 1, last := l.curr + 1 + cap)
  }

  // The folding back of `first` and `last_dump` when the end lies before the start.
  function Folded(first: nat, end: nat, cap: nat): (nat, nat)
    requires cap > 0
  {
    if end < first then (first % cap, if end < first % cap then end + cap else end) else (first, end)
  }

  // _sde_evtlog_dump_calc_range; the flag tells whether there is a row to print.
  function CalcRange(l: Log, update: bool, max: nat, cap: nat): (bool, Log)
    requires cap > 0
  {
    var end := if update then l.last else l.lastDump;
    if end == l.next then (false, l.(first := l.next, lastDump := end))
    else
      var (first, end') := Folded(l.next, end, cap);
      var first' := if end' - first > max then end' - max else first;
      (true, l.(first := first', lastDump := end', next := first' + 1))
  }

  datatype Reading = End(log: Log) | Row(row: Slot, log: Log)

  // sde_evtlog_dump_read with sde_evtlog_dump_to_buffer: the row selected, if any
  function Read(l: Log, cap: nat): (r: Reading)
    requires Shaped(l, cap)
  {
    var (some, l') := CalcRange(l, l.readCount == 0, cap, cap);
    var l'' := l'.(readCount := l.readCount + 1);
    if some then Row(l'.slots[l'.first % cap], l'') else End(l'')
  }

  // Where the next read stops.
  function EndOf(l: Log): nat {
    if l.readCount == 0 then l.last else l.lastDump
  }

  // The start has not passed the end, so that nothing needs folding back.
  ghost predicate Ahead(l: Log) {
    l.next <= EndOf(l)
  }

  datatype Drained = Drained(rows: seq<Slot>, log: Log)

  // Reading until nothing is left
  function Drain(l: Log, cap: nat): Drained
    requires Shaped(l, cap) && Ahead(l)
    decreases EndOf(l) - l.next
  {
    match Read(l, cap)
    case End(l') => Drained([], l')
    case Row(row, l') => var d := Drain(l', cap); Drained([row] + d.rows, d.log)
  }

  // The loops of sde_evtlog_dump_all: at most n rows, the end noted with the first of them.
  function DumpAll(l: Log, update: bool, max: nat, n: nat, cap: nat): Drained
    requires Shaped(l, cap)
    decreases n
  {
    if n == 0 then Drained([], l)
    else
      var (some, l') := CalcRange(l, update, max, cap);
      if !some then Drained([], l')
      else
        var d := DumpAll(l', false, max, n - 1, cap);
        Drained([l'.slots[l'.first % cap]] + d.rows, d.log)
  }

  // sde_evtlog_count
  function Count(l: Log, cap: nat): nat
    requires cap > 0
  {
    if l.last == l.next then 0
    else
      var (first, end) := Folded(l.next, l.last, cap);
      if end - first > cap then cap else end - first
  }

  // ----- The events behind the ring -----

  // Event number i of the history, counting from 1; before the first there are blanks.
  function At(h: seq<Slot>, i: int): Slot {
    if 1 <= i <= |h| then h[i - 1] else Blank
  }

  // Events after number `after` up to number `upTo`
  function Between(h: seq<Slot>, after: int, upTo: int): (r: seq<Slot>)
    requires after <= upTo
    ensures |r| == upTo - after
    ensures forall k :: 0 <= k < |r| ==> r[k] == At(h, after + 1 + k)
  {
    seq(upTo - after, k requires 0 <= k < upTo - after => At(h, after + 1 + k))
  }

  // The ring holds the newest `cap` events: the slot of number i holds event i - cap.
  ghost predicate Holds(l: Log, h: seq<Slot>, cap: nat)
    requires Shaped(l, cap)
  {
    l.curr == |h| && forall i: nat :: |h| < i <= |h| + cap ==> l.slots[i % cap] == At(h, i - cap)
  }

  function Later(a: int, b: int): int {
    if a < b then b else a
  }

  // What a drain has to print, when the events up to number d were printed before.
  function Fresh(h: seq<Slot>, d: int, cap: nat): seq<Slot>
    requires d <= |h|
  {
    Between(h, Later(d, |h| - cap), |h|)
  }
}
