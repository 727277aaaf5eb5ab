/** The bounded history: terminal entries and completed items match, and pruning keeps the right ones. */
module ExecutorHistory {
  import opened ExecutorTypes

  ghost predicate ItemOk(mem: Memory, i: int)
    requires 0 <= i < |mem.completed|
  {
    var item := mem.completed[i];
    item.run in mem.runs && Terminal(mem.runs[item.run].state) && mem.runs[item.run].finishedAt == Some(item.finishedAt)
  }

  ghost predicate Listed(mem: Memory, run: RunId) {
    exists i :: 0 <= i < |mem.completed| && mem.completed[i].run == run
  }

  ghost predicate DistinctItems(completed: seq<Item>) {
    forall i, k :: 0 <= i < k < |completed| ==> completed[i].run != completed[k].run
  }

  /** Items stand for the terminal entries, one each; other entries have no finishing time. */
  ghost predicate HistoryOk(mem: Memory) {
    && DistinctItems(mem.completed)
    && (forall i :: 0 <= i < |mem.completed| ==> ItemOk(mem, i))
    && (forall run :: run in mem.runs && Terminal(mem.runs[run].state) ==> Listed(mem, run))
    && (forall run :: run in mem.runs && !Terminal(mem.runs[run].state) ==> mem.runs[run].finishedAt.None?)
  }

  ghost predicate Chronological(completed: seq<Item>) {
    forall i, k :: 0 <= i < k < |completed| ==> completed[i].finishedAt <= completed[k].finishedAt
  }

  /** Among the newest `limit` items and younger than the retention. */
  ghost predicate Kept(mem: Memory, i: int, now: Time)
    requires 0 <= i < |mem.completed|
  {
    && (mem.limit >= 0 ==> |mem.completed| - i <= mem.limit)
    && (mem.retention > 0 ==> now - mem.completed[i].finishedAt < mem.retention)
  }

  /** Dropping the first k items, and their entries. */
  ghost predicate Dropped(mem: Memory, after: Memory, k: nat) {
    && k <= |mem.completed| && after.completed == mem.completed[k..]
    && after.limit == mem.limit && after.retention == mem.retention
    && (forall run :: run in after.runs <==>
          run in mem.runs && !(exists i :: 0 <= i < k && mem.completed[i].run == run))
    && (forall run :: run in after.runs ==> after.runs[run] == mem.runs[run])
  }

  lemma DropOk(mem: Memory)
    requires HistoryOk(mem) && mem.completed != []
    ensures HistoryOk(DropOldest(mem)) && Dropped(mem, DropOldest(mem), 1)
  {
    var next := DropOldest(mem);
    assert ItemOk(mem, 0);
    forall i | 0 <= i < |next.completed| ensures ItemOk(next, i) {
      assert next.completed[i] == mem.completed[i + 1] && ItemOk(mem, i + 1);
    }
    forall run | run in next.runs && Terminal(next.runs[run].state) ensures Listed(next, run) {
      var i :| 0 <= i < |mem.completed| && mem.completed[i].run == run;
      assert next.completed[i - 1] == mem.completed[i];
    }
  }

  lemma DroppedThen(a: Memory, b: Memory, c: Memory, k: nat)
    requires Dropped(a, b, 1) && Dropped(b, c, k)
    ensures Dropped(a, c, k + 1)
  {
    forall run
      ensures run in c.runs <==> run in a.runs && !(exists i :: 0 <= i < k + 1 && a.completed[i].run == run)
    {
      if exists i :: 0 <= i < k + 1 && a.completed[i].run == run {
        var i :| 0 <= i < k + 1 && a.completed[i].run == run;
        if i > 0 { assert b.completed[i - 1].run == run; }
      }
      if exists i :: 0 <= i < k && b.completed[i].run == run {
        var i :| 0 <= i < k && b.completed[i].run == run;
        assert a.completed[i + 1].run == run;
      }
    }
  }

  /**
   Pruning drops a prefix of the items with exactly their entries: what stays are the
   items that are both within the limit and not expired, every running or waiting
   entry, and nothing else.
   */
  lemma {:induction false} PruneKeepsTheNewest(mem: Memory, now: Time) returns (k: nat)
    requires HistoryOk(mem) && Chronological(mem.completed)
    ensures HistoryOk(Prune(mem, now)) && Chronological(Prune(mem, now).completed)
    ensures Dropped(mem, Prune(mem, now), k)
    ensures forall i :: 0 <= i < |mem.completed| ==> (i >= k <==> Kept(mem, i, now))
    ensures forall run :: run in mem.runs && !Terminal(mem.runs[run].state) ==> run in Prune(mem, now).runs
    decreases |mem.completed|
  {
    if mem.completed != [] && Overdue(mem, now) {
      var next := DropOldest(mem);
      DropOk(mem);
      var rest := PruneKeepsTheNewest(next, now);
      DroppedThen(mem, next, Prune(mem, now), rest);
      k := rest + 1;
      forall i | 0 <= i < |mem.completed| ensures i >= k <==> Kept(mem, i, now) {
        if i > 0 {
          assert next.completed[i - 1] == mem.completed[i];
          assert Kept(next, i - 1, now) <==> Kept(mem, i, now);
        }
      }
    } else {
      k := 0;
    }
    forall run | run in mem.runs && !Terminal(mem.runs[run].state) ensures run in Prune(mem, now).runs {
      forall i | 0 <= i < k ensures mem.completed[i].run != run { assert ItemOk(mem, i); }
    }
  }

  ghost predicate NotAfter(completed: seq<Item>, now: Time) {
    forall i :: 0 <= i < |completed| ==> completed[i].finishedAt <= now
  }

  lemma AppendOk(mem: Memory, run: RunId, st: EntryState, now: Time)
    requires HistoryOk(mem) && RunningIn(mem, run) && Terminal(st)
    ensures HistoryOk(mem.(runs := mem.runs[run := Entry(st, Some(now))],
            completed := mem.completed + [Item(run, now)]))
  {
    var next := mem.(runs := mem.runs[run := Entry(st, Some(now))], completed := mem.completed + [Item(run, now)]);
    forall i | 0 <= i < |mem.completed| ensures mem.completed[i].run != run && next.completed[i] == mem.completed[i] {
      assert ItemOk(mem, i);
    }
    forall i | 0 <= i < |next.completed| ensures ItemOk(next, i) {
      if i < |mem.completed| { assert ItemOk(mem, i); }
    }
    assert next.completed[|mem.completed|].run == run;
    forall r | r in next.runs && Terminal(next.runs[r].state) ensures Listed(next, r) {
      if r != run {
        var i :| 0 <= i < |mem.completed| && mem.completed[i].run == r;
        assert next.completed[i].run == r;
      }
    }
  }

  /** A terminal transition keeps the history in order and touches no other entry but to prune it. */
  lemma SettleOk(mem: Memory, run: RunId, st: EntryState, now: Time)
    requires HistoryOk(mem) && Chronological(mem.completed) && NotAfter(mem.completed, now) && Terminal(st)
    ensures var next := Settle(mem, run, st, now);
            && HistoryOk(next) && Chronological(next.completed) && NotAfter(next.completed, now)
            && (forall r :: r in next.runs ==> r in mem.runs && (r != run ==> next.runs[r] == mem.runs[r]))
            && (forall r :: r in mem.runs && r != run && !Terminal(mem.runs[r].state) ==> r in next.runs)
            && (run in next.runs && mem.runs[run].state.Running? ==> next.runs[run] == Entry(st, Some(now)))
  {
    if RunningIn(mem, run) {
      AppendOk(mem, run, st, now);
      var k := PruneKeepsTheNewest(mem.(runs := mem.runs[run := Entry(st, Some(now))],
        completed := mem.completed + [Item(run, now)]), now);
    }
  }

  lemma MarkOk(mem: Memory, run: RunId)
    requires HistoryOk(mem)
    ensures HistoryOk(MarkWaiting(mem, run))
  {
    var next := MarkWaiting(mem, run);
    forall i | 0 <= i < |next.completed| ensures ItemOk(next, i) { assert ItemOk(mem, i); }
    forall r | r in next.runs && Terminal(next.runs[r].state) ensures Listed(next, r) {
      assert Listed(mem, r);
    }
  }
}
