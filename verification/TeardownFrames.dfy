/** What a turn of a destroy run leaves alone, in the store and in the trace. */
module TeardownFrames {
  import opened Ordering
  import opened Blueprint
  import opened ModuleState
  import opened SingleRun
  import opened Teardown
  import opened TeardownRun

  /** Between two points of a run nothing has happened to the slot. */
  ghost predicate Spares(before: Progress, after: Progress, slot: Slot) {
    && before.effects <= after.effects
    && (forall k :: |before.effects| <= k < |after.effects| ==> after.effects[k].slot != slot)
    && SameRecord(before.store, after.store, slot)
  }

  lemma SparesOn(a: Progress, b: Progress, c: Progress, slot: Slot)
    requires Spares(a, b, slot) && Spares(b, c, slot)
    ensures Spares(a, c, slot)
  {
    SameRecordOn(a.store, b.store, c.store, slot);
  }

  /** The children waiting for a step are on other slots. */
  ghost predicate ChildrenElsewhere(plan: Plan, p: Progress, parent: Id, slot: Slot) {
    forall k :: k in Parked(p.buckets, parent) ==>
      k < |p.results| && p.results[k].id in plan.steps && plan.steps[p.results[k].id].slot != slot
  }

  /** A turn touches no slot but that of its own step and those of the children it settles. */
  lemma TurnSpares(plan: Plan, p: Progress, s: Step, turn: Turn, slot: Slot)
    requires s.id in plan.steps && s.slot != slot && ChildrenElsewhere(plan, p, s.id, slot)
    ensures Spares(p, TakeTurn(plan, p, s, turn), slot)
  {
    hide GateRequired, Spares, ChildrenElsewhere, Finish, Settle, Gone;
    UntouchedIsSpared(p, slot);
    SettleSpares(plan, p, s, turn, slot);
    var gone := AddResult(p, Result(s.id, Skipped, 0, StateGone));
    SameChildren(plan, p, gone, s.id, slot);
    FinishSpares(plan, gone, s.id, turn, slot);
    SparesOn(p, gone, Finish(plan, gone, s.id, turn), slot);
  }

  lemma SettleSpares(plan: Plan, p: Progress, s: Step, turn: Turn, slot: Slot)
    requires s.slot != slot && ChildrenElsewhere(plan, p, s.id, slot)
    ensures Spares(p, Settle(plan, p, s, turn), slot)
  {
    hide Spares, ChildrenElsewhere, Finish, RunCommand, StoreAfter;
    var c := RunCommand(s, turn, p.store);
    CommandSpares(p, s, turn, slot);
    var q := p.(store := StoreAfter(p.store, c.effects), effects := p.effects + c.effects);
    var r := AddResult(q, Result(s.id, Succeeded, 0, NoReason));
    SameChildren(plan, p, r, s.id, slot);
    FinishSpares(plan, r, s.id, turn, slot);
    UntouchedIsSpared(q, slot);
    SparesOn(p, q, r, slot);
    SparesOn(p, r, Finish(plan, r, s.id, turn), slot);
    if c.rc != 0 {
      SparesOn(p, q, Settle(plan, p, s, turn), slot);
    }
  }

  lemma SameChildren(plan: Plan, p: Progress, q: Progress, parent: Id, slot: Slot)
    requires ChildrenElsewhere(plan, p, parent, slot) && p.results <= q.results && q.buckets == p.buckets
    ensures ChildrenElsewhere(plan, q, parent, slot)
  {
    hide Parked;
    forall k | k in Parked(q.buckets, parent)
      ensures k < |q.results| && q.results[k].id in plan.steps && plan.steps[q.results[k].id].slot != slot
    {
      assert q.results[k] == p.results[k];
    }
  }

  lemma NothingSpares(p: Progress, slot: Slot)
    ensures SameRecord(p.store, p.store, slot)
  {
  }

  lemma CommandSpares(p: Progress, s: Step, turn: Turn, slot: Slot)
    requires s.slot != slot
    ensures var c := RunCommand(s, turn, p.store);
            Spares(p, p.(store := StoreAfter(p.store, c.effects), effects := p.effects + c.effects), slot)
  {
    hide Single;
    var nobody: Hosts := _ => {};
    var es := RunCommand(s, turn, p.store).effects;
    EffectsStayInSlot(CmdDestroy, s.slot, turn.env, p.store);
    assert forall k :: 0 <= k < |es| ==> es[k] in Single(CmdDestroy, s.slot, turn.env, p.store).effects;
    OtherSlotsUntouched(nobody, World(p.store, {}), es, s.slot, slot);
    StoreAfterReplays(nobody, World(p.store, {}), es);
  }

  lemma FinishSpares(plan: Plan, p: Progress, parent: Id, turn: Turn, slot: Slot)
    requires ChildrenElsewhere(plan, p, parent, slot)
    ensures Spares(p, Finish(plan, p, parent, turn), slot)
  {
    hide SameRecord;
    NothingSpares(p, slot);
    var members := Parked(p.buckets, parent);
    assert forall k :: 0 <= k < |members| ==> members[k] in members;
    if MembersOk(plan, p.results, members) {
      MembersSpare(plan, p.(buckets := Unparked(p.buckets, parent)), parent, members, turn, slot);
    }
  }

  lemma {:induction false} MembersSpare(plan: Plan, p: Progress, parent: Id, members: seq<nat>, turn: Turn, slot: Slot)
    requires MembersOk(plan, p.results, members)
    requires forall k :: 0 <= k < |members| ==> plan.steps[p.results[members[k]].id].slot != slot
    ensures Spares(p, FinishMembers(plan, p, parent, members, turn), slot)
  {
    if members == [] {
      NothingSpares(p, slot);
    } else {
      hide FinishOne, Spares;
      var n := |members| - 1;
      var m := FinishMembers(plan, p, parent, members[..n], turn);
      MembersSpare(plan, p, parent, members[..n], turn, slot);
      OneSpares(plan, m, parent, members[n], turn, slot);
      SparesOn(p, m, FinishOne(plan, m, parent, members[n], turn), slot);
    }
  }

  lemma OneSpares(plan: Plan, p: Progress, parent: Id, i: nat, turn: Turn, slot: Slot)
    requires i < |p.results| && p.results[i].id in plan.steps && plan.steps[p.results[i].id].slot != slot
    ensures Spares(p, FinishOne(plan, p, parent, i, turn), slot)
  {
  }

  // ----- Whole runs -------------------------------------------------------------------------------------

  ghost predicate OneSlotEach(plan: Plan)
    requires PlanOk(plan)
  {
    forall i, j :: 0 <= i < j < |plan.order| ==> plan.steps[plan.order[i]].slot != plan.steps[plan.order[j]].slot
  }

  /** The step was passed by: skipped for whatever reason, or retained. */
  predicate PassedBy(r: Result) {
    r.status == Skipped || r.status == Retained
  }

  lemma LoopStart(plan: Plan, store: Store, turns: seq<Turn>)
    requires PlanOk(plan) && |turns| == |plan.order|
    ensures Loop(plan, store, turns, 0) == Fresh(store)
  {
  }

  /** With a slot for each step, nothing happens in a run to the slot of a step that was passed by. */
  lemma {:induction false} PassedByStays(plan: Plan, store: Store, turns: seq<Turn>, i: nat, n: nat)
    requires PlanOk(plan) && |turns| == |plan.order| && OneSlotEach(plan) && i < |turns| && n <= |turns|
    requires var p := Loop(plan, store, turns, n); i < |p.results| ==> PassedBy(p.results[i])
    ensures Spares(Fresh(store), Loop(plan, store, turns, n), plan.steps[plan.order[i]].slot)
  {
    hide TakeTurn, Loop, Booked, TurnShape, Spares;
    LoopStart(plan, store, turns);
    var slot := plan.steps[plan.order[i]].slot;
    if n == 0 {
      FreshSpares(store, slot);
    } else {
      LoopKeeps(plan, store, turns, n - 1);
      LoopStep(plan, store, turns, n - 1);
      var p, q := Loop(plan, store, turns, n - 1), Loop(plan, store, turns, n);
      assert plan.order[n - 1] in plan.order;
      var s := plan.steps[plan.order[n - 1]];
      if !p.halted {
        PassedByBefore(plan, p, s, turns[n - 1], q, i);
      }
      PassedByStays(plan, store, turns, i, n - 1);
      if !p.halted {
        OnlyOwnSlots(plan, p, n - 1, i);
        if i == n - 1 {
          PassingBySpares(plan, p, s, turns[n - 1]);
        } else {
          TurnSpares(plan, p, s, turns[n - 1], slot);
        }
        SparesOn(Fresh(store), p, q, slot);
      }
    }
  }

  lemma FreshSpares(store: Store, slot: Slot)
    ensures Spares(Fresh(store), Fresh(store), slot)
  {
  }

  lemma PassedByBefore(plan: Plan, p: Progress, s: Step, turn: Turn, q: Progress, i: nat)
    requires Booked(plan, p) && TurnShape(plan, p, s, turn, q)
    requires i < |q.results| ==> PassedBy(q.results[i])
    ensures |q.results| == |p.results| + 1
    ensures i < |p.results| ==> PassedBy(p.results[i])
  {
  }

  /** A turn that passes its step by touches at most the children that were waiting for it. */
  lemma PassingBySpares(plan: Plan, p: Progress, s: Step, turn: Turn)
    requires Booked(plan, p) && s.id in plan.steps && plan.steps[s.id] == s && ChildrenElsewhere(plan, p, s.id, s.slot)
    requires var q := TakeTurn(plan, p, s, turn); |q.results| > |p.results| && PassedBy(q.results[|p.results|])
    ensures Spares(p, TakeTurn(plan, p, s, turn), s.slot)
  {
    hide Finish, Settle, GateRequired, Gone, Spares, Booked;
    PassedByDoesNotSettle(plan, p, s, turn);
    UntouchedIsSpared(p, s.slot);
    var r := Result(s.id, Skipped, 0, StateGone);
    AddingSpares(p, r, s.slot);
    FinishSpares(plan, AddResult(p, r), s.id, turn, s.slot);
    SparesOn(p, AddResult(p, r), Finish(plan, AddResult(p, r), s.id, turn), s.slot);
  }

  /** A step whose command had its turn was not passed by. */
  lemma PassedByDoesNotSettle(plan: Plan, p: Progress, s: Step, turn: Turn)
    requires Booked(plan, p)
    ensures var q := Settle(plan, p, s, turn); |q.results| == |p.results| + 1 && !PassedBy(q.results[|p.results|])
  {
    hide Finish, RunCommand, StoreAfter, Booked;
    var c := RunCommand(s, turn, p.store);
    var q := p.(store := StoreAfter(p.store, c.effects), effects := p.effects + c.effects);
    OwnResultIsKept(plan, p, q, s, turn, Result(s.id, Succeeded, 0, NoReason));
  }

  lemma UntouchedIsSpared(p: Progress, slot: Slot)
    ensures forall q: Progress :: q.store == p.store && q.effects == p.effects ==> Spares(p, q, slot)
  {
  }

  lemma AddingSpares(p: Progress, r: Result, slot: Slot)
    ensures Spares(p, AddResult(p, r), slot)
  {
  }

  lemma NotParked(plan: Plan, p: Progress, a: Id, i: nat)
    requires Booked(plan, p) && i < |p.results| && p.results[i].status != Deferred
    ensures i !in Parked(p.buckets, a)
  {
  }

  /** Settling the children of a step leaves the step's own new result as it is. */
  lemma OwnResultIsKept(plan: Plan, p: Progress, q: Progress, s: Step, turn: Turn, r: Result)
    requires Booked(plan, p) && q.results == p.results && q.buckets == p.buckets && r.status != Deferred
    ensures var f := Finish(plan, AddResult(q, r), s.id, turn);
            && |f.results| == |p.results| + 1 && f.results[|p.results|] == r
            && f.halted == q.halted && f.cancelled == q.cancelled && f.optional == q.optional
  {
    var added := AddResult(q, r);
    assert Booked(plan, q);
    AddKeepsBooked(plan, q, r);
    FinishKeepsBooked(plan, added, s.id, turn);
    var members := Parked(added.buckets, s.id);
    NotParked(plan, added, s.id, |p.results|);
    MembersAreFinished(plan, added.(buckets := Unparked(added.buckets, s.id)), s.id, members, turn);
    MembersKeepFlags(plan, added.(buckets := Unparked(added.buckets, s.id)), s.id, members, turn);
  }

  /** The children parked under step n have slots of their own, step i's apart if it is not deferred. */
  lemma OnlyOwnSlots(plan: Plan, p: Progress, n: nat, i: nat)
    requires PlanOk(plan) && OneSlotEach(plan) && Booked(plan, p) && InOrder(plan, p, n) && i < |plan.order| && n < |plan.order|
    requires i < |p.results| ==> p.results[i].status != Deferred
    ensures i != n ==> plan.steps[plan.order[n]].slot != plan.steps[plan.order[i]].slot
    ensures ChildrenElsewhere(plan, p, plan.order[n], plan.steps[plan.order[i]].slot)
  {
    assert plan.order[i] in plan.order;
    forall k | k in Parked(p.buckets, plan.order[n])
      ensures k < |p.results| && p.results[k].id in plan.steps && plan.steps[p.results[k].id].slot != plan.steps[plan.order[i]].slot
    {
      assert ParkedChild(plan, p.results, plan.order[n], k);
      assert p.results[k].id == plan.order[k] && k != i;
    }
  }
}
