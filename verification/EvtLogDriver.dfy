/**
 The event log in place: a ring array and its counters, written by the logging function and by the
 debugfs open and read handlers.
 */
module EvtLogDriver {
  import M = EvtLogModel

  const PRINT_ENTRY: nat := 256

  class EvtLog {
    const logs: array<M.Slot>
    var curr: nat
    var last: nat
    var first: nat
    var next: nat
    var lastDump: nat
    var readCount: nat    // cur_evt_index of the debugfs reader

    constructor (cap: nat)
      requires cap > 0
      ensures fresh(logs) && logs.Length == cap
      ensures View() == M.Log(seq(cap, i => M.Blank), 0, 0, 0, 0, 0, 0)
    {
      logs := new M.Slot[cap](i => M.Blank);
      curr, last, first, next, lastDump, readCount := 0, 0, 0, 0, 0, 0;
    }

    ghost predicate Valid()
      reads this
    {
      logs.Length > 0
    }

    function View(): M.Log
      reads this, logs
    {
      M.Log(logs[..], curr, last, first, next, lastDump, readCount)
    }

    // sde_evtlog_log
    method Record(e: M.Slot)
      requires Valid()
      modifies this`curr, this`last, logs
      ensures View() == M.Record(old(View()), e, logs.Length)
    {
      curr := curr + 1;
      logs[curr % logs.Length] := e;
      last := last + 1;
    }

    // sde_dbg_debugfs_open
    method Open()
      requires Valid()
      modifies this`readCount, this`first, this`last
      ensures View() == M.Open(old(View()), logs.Length)
    {
      readCount := 0;
      first := curr + 1;
      last := first + logs.Length;
    }

    // the part of _sde_evtlog_dump_calc_range for an end that lies before the start
    method FoldBack()
      requires Valid()
      modifies this`first, this`lastDump
      ensures (first, lastDump) == M.Folded(old(first), old(lastDump), logs.Length)
    {
      if lastDump < first {
        first := first % logs.Length;
        if lastDump < first {
          lastDump := lastDump + logs.Length;
        }
      }
    }

    // _sde_evtlog_dump_calc_range
    method CalcRange(updateLastEntry: bool, fullDump: bool) returns (some: bool)
      requires Valid()
      modifies this`first, this`lastDump, this`next
      ensures (some, View()) ==
        M.CalcRange(old(View()), updateLastEntry, if fullDump then logs.Length else PRINT_ENTRY, logs.Length)
    {
      hide M.Folded;
      var maxEntries := if fullDump then logs.Length else PRINT_ENTRY;
      first := next;
      if updateLastEntry {
        lastDump := last;
      }
      if lastDump == first { return false; }
      FoldBack();
      if lastDump - first > maxEntries {
        first := lastDump - maxEntries;
      }
      next := first + 1;
      return true;
    }

    // sde_evtlog_dump_read, with the row that sde_evtlog_dump_to_buffer selects
    method Read() returns (some: bool, row: M.Slot)
      requires Valid()
      modifies this`first, this`lastDump, this`next, this`readCount
      ensures M.Read(old(View()), logs.Length) == if some then M.Row(row, View()) else M.End(View())
    {
      row := M.Blank;
      some := CalcRange(readCount == 0, true);
      if some {
        row := logs[first % logs.Length];
      }
      readCount := readCount + 1;
    }

    // A reader that reads the file to its end
    method Drain() returns (rows: seq<M.Slot>)
      requires Valid() && M.Ahead(View())
      modifies this`first, this`lastDump, this`next, this`readCount
      ensures M.Drain(old(View()), logs.Length) == M.Drained(rows, View())
    {
      rows := [];
      ghost var d := M.Drain(View(), logs.Length);
      assert [] + d.rows == d.rows;
      var some := true;
      while some
        invariant if some then M.Ahead(View()) && var r := M.Drain(View(), logs.Length); d == M.Drained(rows + r.rows, r.log)
                  else d == M.Drained(rows, View())
        decreases if some then 1 + M.EndOf(View()) - next else 0
      {
        ghost var before := View();
        var row;
        some, row := Read();
        if some {
          ghost var r := M.Drain(View(), logs.Length);
          assert rows + ([row] + r.rows) == (rows + [row]) + r.rows;
          rows := rows + [row];
        } else {
          assert rows + [] == rows;
        }
      }
    }

    // the loops of sde_evtlog_dump_all, with log_size the length of the ring
    method DumpAll(fullDump: bool) returns (rows: seq<M.Slot>)
      requires Valid()
      modifies this`first, this`lastDump, this`next
      ensures M.Drained(rows, View()) ==
        M.DumpAll(old(View()), true, if fullDump then logs.Length else PRINT_ENTRY, logs.Length, logs.Length)
    {
      hide M.CalcRange;
      rows := [];
      ghost var max := if fullDump then logs.Length else PRINT_ENTRY;
      ghost var d := M.DumpAll(View(), true, max, logs.Length, logs.Length);
      assert [] + d.rows == d.rows;
      var i, update := 0, true;
      while i < logs.Length
        invariant i <= logs.Length && logs[..] == old(logs[..])
        invariant var r := M.DumpAll(View(), update, max, logs.Length - i, logs.Length); d == M.Drained(rows + r.rows, r.log)
      {
        ghost var r := M.DumpAll(View(), update, max, logs.Length - i, logs.Length);
        var some := CalcRange(update, fullDump);
        if !some {
          assert rows + [] == rows;
          return;
        }
        ghost var more := M.DumpAll(View(), false, max, logs.Length - i - 1, logs.Length);
        assert rows + ([logs[first % logs.Length]] + more.rows) == (rows + [logs[first % logs.Length]]) + more.rows;
        rows := rows + [logs[first % logs.Length]];
        i, update := i + 1, false;
      }
      assert rows + [] == rows;
    }

    // sde_evtlog_count
    method Count() returns (n: nat)
      requires Valid()
      ensures n == M.Count(View(), logs.Length)
    {
      var first', end := next, last;
      if end == first' { return 0; }
      if end < first' {
        first' := first' % logs.Length;
        if end < first' {
          end := end + logs.Length;
        }
      }
      if end - first' > logs.Length { return logs.Length; }
      return end - first';
    }
  }
}
