/**
 The agent-run rows of one workflow, grouped into slots (one slot per thing to be produced),
 with the retry rule of the decision workflow's _ensure_*_runs and _*_run_state functions.
 */
module RunTable {
  import opened Basics

  /** Pending covers QUEUED, RUNNING and RETRY_WAIT; Usable is a SUCCEEDED run whose output can
      be materialized; every other terminal run is Unusable. */
  datatype RunState<+O> = Pending | Unusable | Usable(output: O)

  datatype Row<+S, +O> = Row(slot: S, state: RunState<O>)

  function Count<S(==), O>(rows: seq<Row<S, O>>, slot: S): nat {
    if |rows| == 0 then 0
    else Count(rows[..|rows| - 1], slot) + if rows[|rows| - 1].slot == slot then 1 else 0
  }

  predicate HasPending<S(==), O>(rows: seq<Row<S, O>>, slot: S) {
    exists i :: 0 <= i < |rows| && rows[i].slot == slot && rows[i].state.Pending?
  }

  /** The newest usable output of a slot. */
  function Newest<S(==), O>(rows: seq<Row<S, O>>, slot: S): Option<O> {
    if |rows| == 0 then None
    else
      var last := rows[|rows| - 1];
      if last.slot == slot && last.state.Usable? then Some(last.state.output)
      else Newest(rows[..|rows| - 1], slot)
  }

  predicate Ready<S(==), O>(rows: seq<Row<S, O>>, slot: S) { !HasPending(rows, slot) && Newest(rows, slot).Some? }

  /** One slot: wait, take the output, start another run, or give up at the limit. */
  function EnsureSlot<S(==), O>(rows: seq<Row<S, O>>, slot: S, limit: nat): Result<seq<Row<S, O>>> {
    if HasPending(rows, slot) || Newest(rows, slot).Some? then Ok(rows)
    else if Count(rows, slot) >= limit then Err(RetryLimitExceeded)
    else Ok(rows + [Row(slot, Pending)])
  }

  function EnsureAll<S(==), O>(rows: seq<Row<S, O>>, slots: seq<S>, limit: nat): Result<seq<Row<S, O>>> {
    if |slots| == 0 then Ok(rows)
    else
      var before := EnsureAll(rows, slots[..|slots| - 1], limit);
      if before.Err? then before else EnsureSlot(before.value, slots[|slots| - 1], limit)
  }

  predicate AllReady<S(==), O>(rows: seq<Row<S, O>>, slots: seq<S>) {
    forall i :: 0 <= i < |slots| ==> Ready(rows, slots[i])
  }

  /** The loop over the slots, counting the slots that were not ready when it reached them. */
  method EnsureRuns<S(==), O(0)>(rows: seq<Row<S, O>>, slots: seq<S>, limit: nat)
      returns (r: Result<seq<Row<S, O>>>, notReady: nat)
    requires forall i, k :: 0 <= i < k < |slots| ==> slots[i] != slots[k]
    ensures r == EnsureAll(rows, slots, limit)
    ensures r.Ok? ==> (notReady == 0 <==> AllReady(rows, slots))
  {
    var current := rows;
    notReady := 0;
    for k := 0 to |slots|
      invariant EnsureAll(rows, slots[..k], limit) == Ok(current)
      invariant notReady == 0 <==> AllReady(rows, slots[..k])
      invariant rows <= current
      invariant forall i :: |rows| <= i < |current| ==> current[i].slot in slots[..k]
    {
      var slot := slots[k];
      assert slots[..k + 1][..k] == slots[..k];
      OthersUntouched(rows, current, slot);
      var step := EnsureSlot(current, slot, limit);
      if step.Err? {
        ErrorSticks(rows, slots, limit, k + 1);
        return step, notReady;
      }
      assert AllReady(rows, slots[..k + 1]) <==> AllReady(rows, slots[..k]) && Ready(rows, slot);
      if !Ready(current, slot) { notReady := notReady + 1; }
      current := step.value;
    }
    assert slots[..|slots|] == slots;
    r := Ok(current);
  }

  lemma {:induction false} ErrorSticks<S, O>(rows: seq<Row<S, O>>, slots: seq<S>, limit: nat, k: nat)
    requires k <= |slots| && EnsureAll(rows, slots[..k], limit).Err?
    ensures EnsureAll(rows, slots, limit) == EnsureAll(rows, slots[..k], limit)
  {
    if k == |slots| {
      assert slots[..k] == slots;
    } else {
      assert slots[..|slots| - 1][..k] == slots[..k];
      ErrorSticks(rows, slots[..|slots| - 1], limit, k);
    }
  }

  lemma {:induction false} OthersUntouched<S, O>(rows: seq<Row<S, O>>, more: seq<Row<S, O>>, slot: S)
    requires rows <= more && forall i :: |rows| <= i < |more| ==> more[i].slot != slot
    ensures Newest(more, slot) == Newest(rows, slot)
    ensures Count(more, slot) == Count(rows, slot)
    ensures HasPending(more, slot) <==> HasPending(rows, slot)
  {
    if |more| == |rows| {
      assert more == rows;
    } else {
      var shorter := more[..|more| - 1];
      OthersUntouched(rows, shorter, slot);
      if i :| 0 <= i < |more| && more[i].slot == slot && more[i].state.Pending? {
        assert shorter[i] == more[i];
      }
      if i :| 0 <= i < |rows| && rows[i].slot == slot && rows[i].state.Pending? {
        assert more[i] == rows[i];
      }
    }
  }

  // ------------------------------------------------------------ what the retry rule keeps

  /** At most limit rows in any slot, and at most one of them pending. */
  predicate Disciplined<S(==), O>(rows: seq<Row<S, O>>, limit: nat) {
    && (forall i :: 0 <= i < |rows| ==> Count(rows, rows[i].slot) <= limit)
    && (forall i, k :: 0 <= i < k < |rows| && rows[i].slot == rows[k].slot ==> !rows[i].state.Pending?)
  }

  lemma {:induction false} NoRowsNoCount<S, O>(rows: seq<Row<S, O>>, slot: S)
    requires forall i :: 0 <= i < |rows| ==> rows[i].slot != slot
    ensures Count(rows, slot) == 0
  {
    if |rows| > 0 { NoRowsNoCount(rows[..|rows| - 1], slot); }
  }

  lemma EnsureSlotKeeps<S, O>(rows: seq<Row<S, O>>, slot: S, limit: nat)
    requires Disciplined(rows, limit) && EnsureSlot(rows, slot, limit).Ok?
    ensures
      var after := EnsureSlot(rows, slot, limit).value;
      && Disciplined(after, limit) && rows <= after
      && (forall i :: |rows| <= i < |after| ==> after[i].slot == slot)
      && (Ready(rows, slot) ==> after == rows)
  {
    var after := EnsureSlot(rows, slot, limit).value;
    if after != rows {
      assert after[..|rows|] == rows;
      forall i | 0 <= i < |after|
        ensures Count(after, after[i].slot) <= limit
      {
        if i < |rows| { assert after[i] == rows[i]; }
      }
    }
  }

  lemma {:induction false} EnsureAllKeeps<S, O>(rows: seq<Row<S, O>>, slots: seq<S>, limit: nat)
    requires Disciplined(rows, limit) && EnsureAll(rows, slots, limit).Ok?
    ensures
      var after := EnsureAll(rows, slots, limit).value;
      && Disciplined(after, limit) && rows <= after
      && (forall i :: |rows| <= i < |after| ==> after[i].slot in slots)
      && (AllReady(rows, slots) ==> after == rows)
  {
    if |slots| > 0 {
      var front := slots[..|slots| - 1];
      EnsureAllKeeps(rows, front, limit);
      EnsureSlotKeeps(EnsureAll(rows, front, limit).value, slots[|slots| - 1], limit);
      assert AllReady(rows, slots) ==> AllReady(rows, front) && Ready(rows, slots[|slots| - 1]);
    }
  }

  /** A pending run ends; nothing else about the table changes. */
  function Finish<S, O>(rows: seq<Row<S, O>>, i: nat, state: RunState<O>): seq<Row<S, O>>
    requires i < |rows|
  {
    rows[i := rows[i].(state := state)]
  }

  lemma {:induction false} SameSlotsSameCount<S, O>(a: seq<Row<S, O>>, b: seq<Row<S, O>>, slot: S)
    requires |a| == |b| && forall i :: 0 <= i < |a| ==> a[i].slot == b[i].slot
    ensures Count(a, slot) == Count(b, slot)
  {
    if |a| > 0 { SameSlotsSameCount(a[..|a| - 1], b[..|b| - 1], slot); }
  }

  lemma FinishKeeps<S, O>(rows: seq<Row<S, O>>, i: nat, state: RunState<O>, limit: nat)
    requires Disciplined(rows, limit) && i < |rows| && !state.Pending?
    ensures Disciplined(Finish(rows, i, state), limit)
  {
    var after := Finish(rows, i, state);
    forall k | 0 <= k < |after|
      ensures Count(after, after[k].slot) <= limit
    {
      SameSlotsSameCount(after, rows, after[k].slot);
      assert after[k].slot == rows[k].slot;
    }
  }

  function Drop<S(==), O(==)>(rows: seq<Row<S, O>>, slot: S): (r: seq<Row<S, O>>)
    ensures |r| + Count(rows, slot) == |rows|
    ensures forall x :: x in r ==> x in rows && x.slot != slot
  {
    if |rows| == 0 then []
    else
      var front := Drop(rows[..|rows| - 1], slot);
      if rows[|rows| - 1].slot == slot then front else front + [rows[|rows| - 1]]
  }

  lemma {:induction false} DropKeepsCount<S, O>(rows: seq<Row<S, O>>, slot: S, other: S)
    requires slot != other
    ensures Count(Drop(rows, slot), other) == Count(rows, other)
  {
    if |rows| > 0 {
      DropKeepsCount(rows[..|rows| - 1], slot, other);
      var front := Drop(rows[..|rows| - 1], slot);
      if rows[|rows| - 1].slot != slot {
        assert (front + [rows[|rows| - 1]])[..|front|] == front;
      }
    }
  }

  lemma OneSlotBounded<S, O>(rows: seq<Row<S, O>>, slot: S, limit: nat)
    requires forall i :: 0 <= i < |rows| ==> Count(rows, rows[i].slot) <= limit
    ensures Count(rows, slot) <= limit
  {
    if forall i :: 0 <= i < |rows| ==> rows[i].slot != slot { NoRowsNoCount(rows, slot); }
  }

  predicate Fits<S(==), O>(rows: seq<Row<S, O>>, slots: seq<S>, limit: nat) {
    && (forall i :: 0 <= i < |rows| ==> rows[i].slot in slots)
    && (forall i :: 0 <= i < |rows| ==> Count(rows, rows[i].slot) <= limit)
  }

  lemma DropFits<S, O>(rows: seq<Row<S, O>>, slots: seq<S>, limit: nat)
    requires Fits(rows, slots, limit) && |slots| > 0
    ensures Fits(Drop(rows, slots[|slots| - 1]), slots[..|slots| - 1], limit)
  {
    var s := slots[|slots| - 1];
    var rest := Drop(rows, s);
    forall i | 0 <= i < |rest|
      ensures rest[i].slot in slots[..|slots| - 1] && Count(rest, rest[i].slot) <= limit
    {
      assert rest[i] in rows && rest[i].slot != s;
      var k :| 0 <= k < |rows| && rows[k] == rest[i];
      assert rows[k].slot in slots;
      DropKeepsCount(rows, s, rest[i].slot);
    }
  }

  /** With at most limit rows per slot there are at most limit rows times the number of slots. */
  lemma {:induction false} TotalBounded<S, O>(rows: seq<Row<S, O>>, slots: seq<S>, limit: nat)
    requires Fits(rows, slots, limit)
    ensures |rows| <= limit * |slots|
    decreases |slots|
  {
    assert |rows| > 0 ==> rows[0].slot in slots;
    if |slots| > 0 {
      var s := slots[|slots| - 1];
      DropFits(rows, slots, limit);
      TotalBounded(Drop(rows, s), slots[..|slots| - 1], limit);
      OneSlotBounded(rows, s, limit);
      assert limit * |slots| == limit * (|slots| - 1) + limit;
    }
  }

  // ------------------------------------------------------------ what a slot has

  /** The output of a slot: that of its last usable row. */
  predicate HasOutput<S(==), O(==)>(rows: seq<Row<S, O>>, slot: S, o: O) {
    exists i :: 0 <= i < |rows| && LastUsable(rows, slot, o, i)
  }

  predicate LastUsable<S(==), O(==)>(rows: seq<Row<S, O>>, slot: S, o: O, i: nat)
    requires i < |rows|
  {
    && rows[i].slot == slot && rows[i].state == Usable(o)
    && forall k :: i < k < |rows| && rows[k].slot == slot ==> !rows[k].state.Usable?
  }

  /** No usable row at all. */
  predicate NoOutput<S(==), O>(rows: seq<Row<S, O>>, slot: S) {
    forall i :: 0 <= i < |rows| && rows[i].slot == slot ==> !rows[i].state.Usable?
  }

  lemma {:induction false} NewestIsOutput<S, O>(rows: seq<Row<S, O>>, slot: S)
    ensures Newest(rows, slot).Some? ==> HasOutput(rows, slot, Newest(rows, slot).value)
    ensures Newest(rows, slot).None? <==> NoOutput(rows, slot)
  {
    if |rows| > 0 {
      var front, n := rows[..|rows| - 1], |rows| - 1;
      NewestIsOutput(front, slot);
      if rows[n].slot == slot && rows[n].state.Usable? {
        assert LastUsable(rows, slot, rows[n].state.output, n);
      } else if Newest(front, slot).Some? {
        var o := Newest(front, slot).value;
        var i :| 0 <= i < |front| && LastUsable(front, slot, o, i);
        forall k | i < k < |rows| && rows[k].slot == slot
          ensures !rows[k].state.Usable?
        {
          assert k < n ==> front[k] == rows[k];
        }
        assert LastUsable(rows, slot, o, i);
      }
    }
  }

  lemma OutputIsOne<S, O>(rows: seq<Row<S, O>>, slot: S, a: O, b: O)
    requires HasOutput(rows, slot, a) && HasOutput(rows, slot, b)
    ensures a == b
  {
    var i :| 0 <= i < |rows| && LastUsable(rows, slot, a, i);
    var k :| 0 <= k < |rows| && LastUsable(rows, slot, b, k);
    assert i == k;
  }

  lemma NewestIff<S, O>(rows: seq<Row<S, O>>, slot: S, o: O)
    ensures Newest(rows, slot) == Some(o) <==> HasOutput(rows, slot, o)
  {
    NewestIsOutput(rows, slot);
    if HasOutput(rows, slot, o) && Newest(rows, slot).Some? {
      OutputIsOne(rows, slot, o, Newest(rows, slot).value);
    }
  }

  /** Its runs are over and it has this output. */
  predicate Settled<S(==), O(==)>(rows: seq<Row<S, O>>, slot: S, o: O) {
    HasOutput(rows, slot, o) && forall i :: 0 <= i < |rows| && rows[i].slot == slot ==> !rows[i].state.Pending?
  }

  lemma SettledGrows<S, O>(rows: seq<Row<S, O>>, slot: S, o: O, last: Row<S, O>)
    requires Settled(rows, slot, o) && last.slot != slot
    ensures Settled(rows + [last], slot, o)
  {
    var i :| 0 <= i < |rows| && LastUsable(rows, slot, o, i);
    assert LastUsable(rows + [last], slot, o, i);
  }

  lemma EnsureSlotKeepsSettled<S, O>(rows: seq<Row<S, O>>, other: S, limit: nat, slot: S, o: O)
    requires Settled(rows, slot, o) && EnsureSlot(rows, other, limit).Ok?
    ensures Settled(EnsureSlot(rows, other, limit).value, slot, o)
  {
    NewestIff(rows, slot, o);
    if EnsureSlot(rows, other, limit).value != rows {
      SettledGrows(rows, slot, o, Row(other, Pending));
    }
  }

  lemma {:induction false} EnsureAllKeepsSettled<S, O>(rows: seq<Row<S, O>>, slots: seq<S>, limit: nat, slot: S, o: O)
    requires Settled(rows, slot, o) && EnsureAll(rows, slots, limit).Ok?
    ensures Settled(EnsureAll(rows, slots, limit).value, slot, o)
  {
    if |slots| > 0 {
      EnsureAllKeepsSettled(rows, slots[..|slots| - 1], limit, slot, o);
      EnsureSlotKeepsSettled(EnsureAll(rows, slots[..|slots| - 1], limit).value, slots[|slots| - 1], limit, slot, o);
    }
  }

  lemma FinishKeepsSettled<S, O>(rows: seq<Row<S, O>>, i: nat, state: RunState<O>, slot: S, o: O)
    requires Settled(rows, slot, o) && i < |rows| && rows[i].state.Pending?
    ensures Settled(Finish(rows, i, state), slot, o)
  {
    var k :| 0 <= k < |rows| && LastUsable(rows, slot, o, k);
    assert LastUsable(Finish(rows, i, state), slot, o, k);
  }

  lemma ReadyIsSettled<S, O>(rows: seq<Row<S, O>>, slot: S)
    requires Ready(rows, slot)
    ensures Newest(rows, slot).Some? && Settled(rows, slot, Newest(rows, slot).value)
  {
    NewestIff(rows, slot, Newest(rows, slot).value);
  }

  // ------------------------------------------------------------ retries, exactly

  function RunsOf<S(==), O>(rows: seq<Row<S, O>>, slot: S): set<nat> {
    set i: nat | i < |rows| && rows[i].slot == slot
  }

  lemma {:induction false} CountIsSize<S, O>(rows: seq<Row<S, O>>, slot: S)
    ensures Count(rows, slot) == |RunsOf(rows, slot)|
  {
    if |rows| > 0 {
      var n := |rows| - 1;
      CountIsSize(rows[..n], slot);
      assert RunsOf(rows, slot) == RunsOf(rows[..n], slot) + if rows[n].slot == slot then {n} else {};
    }
  }

  /** Every run of the slot so far ended without usable output. */
  predicate AllUnusable<S(==), O>(rows: seq<Row<S, O>>, slot: S) {
    forall i :: 0 <= i < |rows| && rows[i].slot == slot ==> rows[i].state.Unusable?
  }

  /** A slot gets another run exactly when all its runs so far were unusable and fewer than the limit; at the
      limit it is an error; otherwise nothing changes. */
  lemma EnsureSlotExactly<S, O>(rows: seq<Row<S, O>>, slot: S, limit: nat)
    ensures
      var r := EnsureSlot(rows, slot, limit);
      && (r == Ok(rows + [Row(slot, Pending)]) <==> AllUnusable(rows, slot) && |RunsOf(rows, slot)| < limit)
      && (r.Err? <==> AllUnusable(rows, slot) && |RunsOf(rows, slot)| >= limit)
      && (r == Ok(rows) <==> !AllUnusable(rows, slot))
  {
    NewestIsOutput(rows, slot);
    CountIsSize(rows, slot);
  }

  function PendingRows<S, O>(slots: seq<S>): (rows: seq<Row<S, O>>)
    ensures |rows| == |slots| && forall k :: 0 <= k < |slots| ==> rows[k] == Row(slots[k], Pending)
  {
    seq(|slots|, k requires 0 <= k < |slots| => Row(slots[k], Pending))
  }

  /** Slots nobody has run for yet all get their first run, in order. */
  lemma {:induction false} FreshSlotsStart<S, O>(rows: seq<Row<S, O>>, slots: seq<S>, limit: nat)
    requires limit >= 1
    requires forall i, k :: 0 <= i < |rows| && 0 <= k < |slots| ==> rows[i].slot != slots[k]
    requires forall i, k :: 0 <= i < k < |slots| ==> slots[i] != slots[k]
    ensures EnsureAll(rows, slots, limit) == Ok(rows + PendingRows(slots))
  {
    if |slots| == 0 {
      assert rows + PendingRows(slots) == rows;
    } else {
      var n := |slots| - 1;
      var front := slots[..n];
      FreshSlotsStart(rows, front, limit);
      var before := rows + PendingRows(front);
      forall i | 0 <= i < |before|
        ensures before[i].slot != slots[n]
      {
      }
      NoRowsNoCount(before, slots[n]);
      NewestIsOutput(before, slots[n]);
      assert before + [Row(slots[n], Pending)] == rows + PendingRows(slots);
    }
  }
}
