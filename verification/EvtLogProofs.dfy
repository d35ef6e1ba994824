/**
 The ring refines the list of events: each drain prints exactly what was logged since the one before, as
 far as the ring still holds it, oldest first.
 */
module EvtLogProofs {
  import opened EvtLogModel

  // ----- Slots -----

  lemma {:induction false} SameSlot(i: nat, cap: nat)
    requires cap > 0
    ensures (i + cap) % cap == i % cap
  {
    assert i == cap * (i / cap) + i % cap;
    assert i + cap == cap * (i / cap + 1) + i % cap;
    Remainder(i + cap, i / cap + 1, i % cap, cap);
  }

  lemma {:induction false} Remainder(n: nat, q: int, r: int, cap: nat)
    requires cap > 0 && n == cap * q + r && 0 <= r < cap
    ensures n % cap == r
  {
    var q' := n / cap;
    if q' > q {
      MulLess(cap, q + 1, q');
    } else if q' < q {
      MulLess(cap, q' + 1, q);
    }
  }

  lemma MulLess(c: nat, a: int, b: int)
    requires a <= b
    ensures c * a <= c * b
  {
    assert c * (b - a) >= 0;
  }

  lemma {:induction false} OtherSlot(i: nat, j: nat, cap: nat)
    requires cap > 0 && i < j < i + cap
    ensures i % cap != j % cap
  {
    if i % cap == j % cap {
      var qi, qj := i / cap, j / cap;
      assert j - i == cap * (qj - qi) by {
        assert i == cap * qi + i % cap && j == cap * qj + j % cap;
      }
      if qj > qi {
        MulLess(cap, 1, qj - qi);
      } else {
        MulLess(cap, qj - qi, 0);
      }
    }
  }

  lemma {:induction false} RecordHolds(l: Log, h: seq<Slot>, e: Slot, cap: nat)
    requires Shaped(l, cap) && Holds(l, h, cap)
    ensures Holds(Record(l, e, cap), h + [e], cap)
  {
    var r, h' := Record(l, e, cap), h + [e];
    forall i: nat | |h'| < i <= |h'| + cap ensures r.slots[i % cap] == At(h', i - cap) {
      if i == |h'| + cap {
        SameSlot(|h'|, cap);
      } else {
        OtherSlot(|h'|, i, cap);
        assert l.slots[i % cap] == At(h, i - cap);
      }
    }
  }

  // ----- Draining -----

  // Once under way, the reader walks from `next` to the end it noted, one slot a row.
  lemma {:induction false} WalkPrints(l: Log, h: seq<Slot>, cap: nat)
    requires Shaped(l, cap) && Holds(l, h, cap) && l.readCount > 0
    requires |h| < l.next <= l.lastDump == |h| + cap + 1
    ensures var d := Drain(l, cap);
      && d.rows == Between(h, l.next - cap - 1, |h|)
      && d.log.slots == l.slots && d.log.curr == l.curr && d.log.last == l.last
      && d.log.next == d.log.lastDump == |h| + cap + 1 && d.log.readCount > 0
    decreases l.lastDump - l.next
  {
    if l.next < l.lastDump {
      var l' := Read(l, cap).log;
      assert Read(l, cap) == Row(At(h, l.next - cap), l');
      WalkPrints(l', h, cap);
      assert Between(h, l.next - cap - 1, |h|) == [At(h, l.next - cap)] + Between(h, l.next - cap, |h|);
    }
  }

  // Between drains the reader stands one ring's length after the last event it printed.
  ghost predicate Waiting(l: Log, h: seq<Slot>, d: int, cap: nat) {
    && Shaped(l, cap) && Holds(l, h, cap)
    && -(cap as int) - 1 <= d <= |h| && l.next == d + cap + 1
  }

  ghost predicate Opened(l: Log, cap: nat) {
    l.last == l.curr + cap + 1
  }

  // The first read after an open notes the end and skips what the ring no longer holds.
  lemma FirstRead(l: Log, h: seq<Slot>, d: int, cap: nat) returns (l': Log)
    requires Waiting(l, h, d, cap) && Opened(l, cap) && l.readCount == 0 && d < |h|
    ensures var first := Later(d, |h| - cap);
      && Read(l, cap) == Row(At(h, first + 1), l')
      && l' == l.(first := first + cap + 1, lastDump := |h| + cap + 1, next := first + cap + 2, readCount := 1)
  {
    var first := Later(d, |h| - cap);
    assert CalcRange(l, true, cap, cap)
        == (true, l.(first := first + cap + 1, lastDump := |h| + cap + 1, next := first + cap + 2));
    assert l.slots[(first + cap + 1) % cap] == At(h, first + 1);
    l' := Read(l, cap).log;
  }

  /** The first drain after an open prints what is fresh, and leaves nothing to print. */
  lemma DrainPrintsFresh(l: Log, h: seq<Slot>, d: int, cap: nat)
    requires Waiting(l, h, d, cap) && Opened(l, cap) && l.readCount == 0
    ensures var r := Drain(l, cap);
      && r.rows == Fresh(h, d, cap)
      && Waiting(r.log, h, |h|, cap) && Opened(r.log, cap) && r.log.readCount > 0 && r.log.lastDump == r.log.next
  {
    hide Read;
    if d == |h| {
      NothingFresh(l, h, cap);
      assert Fresh(h, d, cap) == [];
    } else {
      var first := Later(d, |h| - cap);
      var l' := FirstRead(l, h, d, cap);
      WalkPrints(l', h, cap);
      assert Fresh(h, d, cap) == [At(h, first + 1)] + Between(h, first + 1, |h|);
    }
  }

  lemma NothingFresh(l: Log, h: seq<Slot>, cap: nat)
    requires Waiting(l, h, |h|, cap) && Opened(l, cap) && l.readCount == 0
    ensures Read(l, cap) == End(l.(first := l.next, lastDump := l.last, readCount := 1))
  {
  }

  /** sde_evtlog_count tells how many rows the next drain has. */
  lemma CountIsFresh(l: Log, h: seq<Slot>, d: int, cap: nat)
    requires Waiting(l, h, d, cap) && Opened(l, cap)
    ensures Count(l, cap) == |Fresh(h, d, cap)|
  {
  }

  // ----- Runs -----

  datatype Op = Logged(e: Slot) | Opening | Draining

  // The log, the events logged, the number up to which they were printed, whether the file was ever
  // everOpen, what the drains after the first printed, and whether any of those had to skip events.
  datatype Sys = Sys(log: Log, history: seq<Slot>, printed: int, everOpen: bool, drains: nat, start: nat,
                     output: seq<Slot>, skipped: bool)

  ghost function Next(s: Sys, op: Op, cap: nat): Sys
    requires Inv(s, cap)
  {
    match op
    case Logged(e) => s.(log := Record(s.log, e, cap), history := s.history + [e])
    case Opening => s.(log := Open(s.log, cap), everOpen := true)
    case Draining =>
      if !s.everOpen then s
      else if s.log.readCount > 0 then s.(log := Drain(s.log, cap).log, output := s.output + Drain(s.log, cap).rows)
      else
        var d := Drain(s.log, cap);
        s.(log := d.log, printed := |s.history|, drains := s.drains + 1,
           start := if s.drains == 0 then |s.history| else s.start,
           output := if s.drains == 0 then [] else s.output + d.rows,
           skipped := s.skipped || (s.drains > 0 && |s.history| - s.printed > cap))
  }

  ghost predicate Inv(s: Sys, cap: nat) {
    && Waiting(s.log, s.history, s.printed, cap)
    && (s.everOpen ==> Opened(s.log, cap) && Ahead(s.log) && (s.log.readCount > 0 ==> s.log.lastDump == s.log.next))
    && (!s.everOpen ==> s.drains == 0)
    && (s.drains == 0 ==> s.output == [] && s.printed == -(cap as int) - 1 && s.log.readCount == 0 && !s.skipped)
    && (s.drains > 0 ==> s.start <= s.printed && (!s.skipped ==> s.output == s.history[s.start..s.printed]))
  }

  ghost function Start(cap: nat): Sys {
    Sys(Log(seq(cap, i => Blank), 0, 0, 0, 0, 0, 0), [], -(cap as int) - 1, false, 0, 0, [], false)
  }

  lemma StartHolds(cap: nat)
    requires cap > 0
    ensures Inv(Start(cap), cap)
  {
    var l := Start(cap).log;
    forall i: nat | 0 < i <= cap ensures l.slots[i % cap] == At([], i - cap) {
    }
  }

  lemma {:induction false} RecordKeeps(s: Sys, e: Slot, cap: nat)
    requires Inv(s, cap)
    ensures Inv(Next(s, Logged(e), cap), cap)
  {
    RecordHolds(s.log, s.history, e, cap);
  }

  lemma DrainKeeps(s: Sys, cap: nat)
    requires Inv(s, cap)
    ensures Inv(Next(s, Draining, cap), cap)
    ensures s.everOpen && s.log.readCount == 0 ==> Drain(s.log, cap).rows == Fresh(s.history, s.printed, cap)
    ensures s.everOpen && s.log.readCount > 0 ==> Drain(s.log, cap).rows == []
  {
    hide Holds, Drain, Fresh;
    if s.everOpen && s.log.readCount == 0 {
      DrainPrintsFresh(s.log, s.history, s.printed, cap);
      if s.drains > 0 && |s.history| - s.printed <= cap {
        FreshAppends(s.history, s.start, s.printed, cap);
      }
    } else if s.everOpen {
      DrainAgain(s.log, s.history, s.printed, cap);
    }
  }

  // Reading on without a new open finds nothing.
  lemma DrainAgain(l: Log, h: seq<Slot>, d: int, cap: nat)
    requires Waiting(l, h, d, cap) && l.readCount > 0 && l.lastDump == l.next
    ensures var r := Drain(l, cap);
      r.rows == [] && r.log == l.(first := l.next, readCount := l.readCount + 1) && Waiting(r.log, h, d, cap)
  {
  }

  lemma FreshAppends(h: seq<Slot>, start: nat, d: nat, cap: nat)
    requires start <= d <= |h| <= d + cap
    ensures h[start..d] + Fresh(h, d, cap) == h[start..|h|]
  {
    assert Fresh(h, d, cap) == h[d..];
  }

  ghost function Run(ops: seq<Op>, cap: nat): (s: Sys)
    requires cap > 0
    ensures Inv(s, cap)
  {
    if ops == [] then StartHolds(cap); Start(cap)
    else
      var s := Run(ops[..|ops| - 1], cap);
      var op := ops[|ops| - 1];
      NextKeeps(s, op, cap);
      Next(s, op, cap)
  }

  lemma {:induction false} NextKeeps(s: Sys, op: Op, cap: nat)
    requires Inv(s, cap)
    ensures Inv(Next(s, op, cap), cap)
  {
    match op {
      case Logged(e) => RecordKeeps(s, e, cap);
      case Opening =>
      case Draining => DrainKeeps(s, cap);
    }
  }

  /** Over every run of logging, opening and complete drains: a drain after an open prints exactly the events
      logged since the drain before it, the newest `cap` of them when there are more, oldest first; the
      first drain prints blanks for slots never written; a drain without a new open prints nothing. */
  lemma {:induction false} DrainsAreExact(ops: seq<Op>, cap: nat)
    requires cap > 0 && Run(ops, cap).everOpen
    ensures var s := Run(ops, cap);
      Drain(s.log, cap).rows == if s.log.readCount == 0 then Fresh(s.history, s.printed, cap) else []
  {
    DrainKeeps(Run(ops, cap), cap);
  }

  /** If no drain had to skip events, the drains after the first together printed every event from the
      first drain to the last, in order and once. */
  lemma DrainsLoseNothing(ops: seq<Op>, cap: nat)
    requires cap > 0 && Run(ops, cap).drains > 0 && !Run(ops, cap).skipped
    ensures var s := Run(ops, cap);
      0 <= s.start <= s.printed <= |s.history| && s.output == s.history[s.start..s.printed]
  {
  }

  /** The reader's start never passes its end: the folding back of the counters is never needed. */
  lemma NeverFolds(ops: seq<Op>, cap: nat)
    requires cap > 0 && Run(ops, cap).everOpen
    ensures var l := Run(ops, cap).log;
      l.next <= EndOf(l) && l.next <= l.last
  {
  }

  /** After an open, sde_evtlog_count is the number of rows the next drain prints. */
  lemma {:induction false} CountIsExact(ops: seq<Op>, cap: nat)
    requires cap > 0 && Run(ops, cap).everOpen && Run(ops, cap).log.readCount == 0
    ensures var l := Run(ops, cap).log; Ahead(l) && Count(l, cap) == |Drain(l, cap).rows|
  {
    var s := Run(ops, cap);
    CountIsFresh(s.log, s.history, s.printed, cap);
    DrainKeeps(s, cap);
  }

  // ----- Dumps of at most `max` events -----

  // Under way, a dump walks to the end it noted.
  lemma {:induction false} DumpWalks(l: Log, max: nat, n: nat, cap: nat)
    requires Shaped(l, cap) && l.next <= l.lastDump && l.lastDump - l.next <= max && l.lastDump - l.next <= n
    ensures var d := DumpAll(l, false, max, n, cap);
      && |d.rows| == l.lastDump - l.next
      && (forall k :: 0 <= k < |d.rows| ==> d.rows[k] == l.slots[(l.next + k) % cap])
      && d.log == l.(first := d.log.first, next := l.lastDump)
    decreases n
  {
    if l.next < l.lastDump {
      var l' := CalcRange(l, false, max, cap).1;
      assert l' == l.(first := l.next, next := l.next + 1);
      DumpWalks(l', max, n - 1, cap);
      var d := DumpAll(l', false, max, n - 1, cap);
      assert forall k :: 0 < k <= |d.rows| ==> ([l.slots[l.next % cap]] + d.rows)[k] == d.rows[k - 1];
    }
  }

  /** A dump of at most `max` rows prints the slots up to the end, the last `max` of them, once and in order, and leaves
      nothing before the end. */
  lemma {:induction false} DumpIsNewest(l: Log, max: nat, n: nat, cap: nat)
    requires Shaped(l, cap) && 0 < max <= n && l.next <= l.last
    ensures var d, first := DumpAll(l, true, max, n, cap), Later(l.next, l.last - max);
      && |d.rows| == l.last - first
      && (forall k :: 0 <= k < |d.rows| ==> d.rows[k] == l.slots[(first + k) % cap])
      && d.log == l.(first := d.log.first, next := l.last, lastDump := l.last)
  {
    if l.next < l.last {
      var first := Later(l.next, l.last - max);
      var l' := CalcRange(l, true, max, cap).1;
      assert l' == l.(first := first, lastDump := l.last, next := first + 1);
      DumpWalks(l', max, n - 1, cap);
      var d := DumpAll(l', false, max, n - 1, cap);
      assert forall k :: 0 < k <= |d.rows| ==> ([l.slots[first % cap]] + d.rows)[k] == d.rows[k - 1];
    }
  }

  /** On every run, once the file was opened, a dump of at most `max` events prints the newest of those not read yet, and
      all of them if they are no more than `max`; everything counts as read then. */
  lemma {:induction false} DumpPrintsNewest(ops: seq<Op>, max: nat, cap: nat)
    requires 0 < max <= cap && Run(ops, cap).everOpen
    ensures var s := Run(ops, cap);
      var d := DumpAll(s.log, true, max, cap, cap);
      && d.rows == Between(s.history, Later(s.printed, |s.history| - max), |s.history|)
      && Waiting(d.log, s.history, |s.history|, cap)
  {
    hide Run, DumpAll;
    var s := Run(ops, cap);
    DumpOpened(s.log, s.history, s.printed, max, cap);
  }

  lemma DumpOpened(l: Log, h: seq<Slot>, d: int, max: nat, cap: nat)
    requires Waiting(l, h, d, cap) && Opened(l, cap) && 0 < max <= cap
    ensures var r := DumpAll(l, true, max, cap, cap);
      r.rows == Between(h, Later(d, |h| - max), |h|) && Waiting(r.log, h, |h|, cap)
  {
    hide DumpAll;
    DumpIsNewest(l, max, cap, cap);
    RowsAre(l, h, Later(l.next, l.last - max), DumpAll(l, true, max, cap, cap).rows, cap);
  }

  // Consecutive slots of the ring hold consecutive events.
  lemma RowsAre(l: Log, h: seq<Slot>, first: nat, rows: seq<Slot>, cap: nat)
    requires Shaped(l, cap) && Holds(l, h, cap) && |h| < first && first + |rows| <= |h| + cap + 1
    requires forall k :: 0 <= k < |rows| ==> rows[k] == l.slots[(first + k) % cap]
    ensures rows == Between(h, first - cap - 1, first - cap - 1 + |rows|)
  {
    hide At;
    forall k | 0 <= k < |rows| ensures rows[k] == At(h, first - cap + k) {
      SlotIs(l, h, first + k, cap);
    }
  }

  lemma SlotIs(l: Log, h: seq<Slot>, i: nat, cap: nat)
    requires Shaped(l, cap) && Holds(l, h, cap) && |h| < i <= |h| + cap
    ensures l.slots[i % cap] == At(h, i - cap)
  {
  }

  lemma {:induction false} NeverOpened(ops: seq<Op>, cap: nat)
    requires cap > 0 && !Run(ops, cap).everOpen
    ensures var l := Run(ops, cap).log; Shaped(l, cap) && l.last == l.curr && l.next == 0
  {
    if ops != [] {
      NeverOpened(ops[..|ops| - 1], cap);
    }
  }

  /** Before the file was ever opened the end lies one slot short: such a dump stops before the newest event, whatever was
      logged, and starts with a blank while there are fewer events than it may print. */
  lemma {:induction false} DumpMissesNewest(ops: seq<Op>, max: nat, cap: nat)
    requires 0 < max < cap && !Run(ops, cap).everOpen
    ensures var s := Run(ops, cap);
      DumpAll(s.log, true, max, cap, cap).rows == Between(s.history, Later(0, |s.history| - max) - 1, |s.history| - 1)
  {
    hide Run, DumpAll;
    var s := Run(ops, cap);
    NeverOpened(ops, cap);
    DumpUnopened(s.log, s.history, max, cap);
  }

  lemma DumpUnopened(l: Log, h: seq<Slot>, max: nat, cap: nat)
    requires Shaped(l, cap) && Holds(l, h, cap) && l.last == l.curr == |h| && l.next == 0 && 0 < max < cap
    ensures DumpAll(l, true, max, cap, cap).rows == Between(h, Later(0, |h| - max) - 1, |h| - 1)
  {
    hide DumpAll, Holds;
    DumpIsNewest(l, max, cap, cap);
    var first := Later(0, |h| - max);
    var rows := DumpAll(l, true, max, cap, cap).rows;
    forall k | 0 <= k < |rows| ensures rows[k] == l.slots[(first + cap + k) % cap] {
      SlotAgain(l, first + k, first + cap + k, cap);
    }
    RowsAre(l, h, first + cap, rows, cap);
  }

  lemma SlotAgain(l: Log, i: nat, j: nat, cap: nat)
    requires Shaped(l, cap) && j == i + cap
    ensures l.slots[j % cap] == l.slots[i % cap]
  {
    SameSlot(i, cap);
  }
}
