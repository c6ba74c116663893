/** The failure lists of a destroy run: they name the steps that are reported failed, and no others. */
module TeardownLists {
  import opened Ordering
  import opened Blueprint
  import opened ModuleState
  import opened SingleRun
  import opened Teardown
  import opened TeardownRun
  import opened TeardownTheorems
  import opened TeardownFrames
  import opened TeardownVerdicts
  import opened TeardownReports

  ghost predicate ReportedFailed(results: seq<Result>, a: Id) {
    exists k :: 0 <= k < |results| && results[k].id == a && results[k].status == Failed
  }

  /** The steps reported so, in the order of the report. */
  ghost function ExcusedIds(results: seq<Result>): seq<Id> {
    if results == [] then []
    else
      var n := |results| - 1;
      ExcusedIds(results[..n]) + if results[n].status == FailedOptional then [results[n].id] else []
  }

  ghost predicate Listed(p: Progress) {
    && (forall a :: a in p.required ==> ReportedFailed(p.results, a))
    && p.optional == ExcusedIds(p.results)
  }

  // ----- Settling children --------------------------------------------------------------------------

  /** Settling a child with this record fails. */
  predicate Resists(store: Store, slot: Slot, turn: Turn) {
    (slot in store && slot in turn.unreadable) || slot in turn.unwritable || slot in turn.torn
  }

  ghost predicate FailedAmong(plan: Plan, q: Progress, members: seq<nat>, turn: Turn, a: Id) {
    exists k :: 0 <= k < |members| && FailedAt(plan, q, members[k], turn, a)
  }

  ghost predicate FailedAt(plan: Plan, q: Progress, i: nat, turn: Turn, a: Id) {
    && i < |q.results| && q.results[i].id == a && q.results[i].status == Failed
    && a in plan.steps && Resists(q.store, plan.steps[a].slot, turn)
  }

  /** A child that is listed has resisted. */
  lemma OneIsListed(plan: Plan, p: Progress, parent: Id, i: nat, turn: Turn, a: Id)
    requires i < |p.results| && p.results[i].id in plan.steps
    ensures var q := FinishOne(plan, p, parent, i, turn);
            a in q.required ==> a in p.required || FailedAt(plan, q, i, turn, a)
  {
  }

  /** A child that has resisted once does so again. */
  lemma FailedStaysFailed(plan: Plan, p: Progress, parent: Id, i: nat, turn: Turn, a: Id, k: nat)
    requires i < |p.results| && p.results[i].id in plan.steps && FailedAt(plan, p, k, turn, a)
    ensures FailedAt(plan, FinishOne(plan, p, parent, i, turn), k, turn, a)
  {
  }

  lemma {:induction false} MembersAreListed(plan: Plan, p: Progress, parent: Id, members: seq<nat>, turn: Turn, a: Id)
    requires MembersOk(plan, p.results, members)
    ensures var q := FinishMembers(plan, p, parent, members, turn);
            a in q.required ==> a in p.required || FailedAmong(plan, q, members, turn, a)
  {
    hide FinishOne, FailedAt;
    if members != [] {
      var n := |members| - 1;
      var m, q := FinishMembers(plan, p, parent, members[..n], turn), FinishMembers(plan, p, parent, members, turn);
      MembersAreListed(plan, p, parent, members[..n], turn, a);
      OneIsListed(plan, m, parent, members[n], turn, a);
      if FailedAmong(plan, m, members[..n], turn, a) {
        var k :| 0 <= k < n && FailedAt(plan, m, members[..n][k], turn, a);
        FailedStaysFailed(plan, m, parent, members[n], turn, a, members[k]);
        assert FailedAt(plan, q, members[k], turn, a);
      }
    }
  }

  lemma {:induction false} ExcusedAlike(before: seq<Result>, after: seq<Result>)
    requires |before| == |after|
    requires forall k :: 0 <= k < |before| ==>
               before[k].id == after[k].id && (before[k].status == FailedOptional <==> after[k].status == FailedOptional)
    ensures ExcusedIds(before) == ExcusedIds(after)
  {
    if before != [] {
      ExcusedAlike(before[..|before| - 1], after[..|after| - 1]);
    }
  }

  lemma FinishKeepsListed(plan: Plan, p: Progress, parent: Id, turn: Turn)
    requires Booked(plan, p) && Listed(p)
    ensures Listed(Finish(plan, p, parent, turn))
  {
    hide FinishOne, Ebbs, Keeps, Booked, ChildDone, FailedAt;
    FinishKeepsBooked(plan, p, parent, turn);
    var members := Parked(p.buckets, parent);
    var p', q := p.(buckets := Unparked(p.buckets, parent)), Finish(plan, p, parent, turn);
    MembersAreFinished(plan, p', parent, members, turn);
    MembersKeepFlags(plan, p', parent, members, turn);
    forall k | 0 <= k < |p.results| && k in members
      ensures p.results[k].status == Deferred && q.results[k].status in {Subsumed, Failed}
    {
      WaitingIsDeferred(plan, p, parent, k);
      DoneIsSettled(plan, p.store, q, parent, turn, k);
    }
    forall a | a in q.required
      ensures ReportedFailed(q.results, a)
    {
      MembersAreListed(plan, p', parent, members, turn, a);
      if FailedAmong(plan, q, members, turn, a) {
        FailedIsReported(plan, q, members, turn, a);
      } else {
        var k :| 0 <= k < |p.results| && p.results[k].id == a && p.results[k].status == Failed;
        assert q.results[k] == p.results[k];
      }
    }
    ExcusedAlike(p.results, q.results);
  }

  lemma FailedIsReported(plan: Plan, q: Progress, members: seq<nat>, turn: Turn, a: Id)
    requires FailedAmong(plan, q, members, turn, a)
    ensures ReportedFailed(q.results, a)
  {
  }

  lemma DoneIsSettled(plan: Plan, before: Store, q: Progress, parent: Id, turn: Turn, k: nat)
    requires k < |q.results| && ChildDone(plan, before, q, parent, turn, k)
    ensures q.results[k].status in {Subsumed, Failed}
  {
  }

  lemma WaitingIsDeferred(plan: Plan, p: Progress, parent: Id, k: nat)
    requires Booked(plan, p) && k in Parked(p.buckets, parent)
    ensures ParkedChild(plan, p.results, parent, k)
  {
  }

  // ----- Turns ------------------------------------------------------------------------------------------

  lemma AddKeepsListed(p: Progress, r: Result, q: Progress)
    requires Listed(p) && q.results == p.results + [r]
    requires q.required == if r.status == Failed then p.required + [r.id] else p.required
    requires q.optional == if r.status == FailedOptional then p.optional + [r.id] else p.optional
    ensures Listed(q)
  {
    assert q.results[..|p.results|] == p.results && q.results[|p.results|] == r;
    forall a | a in q.required
      ensures ReportedFailed(q.results, a)
    {
      if a in p.required {
        var k :| 0 <= k < |p.results| && p.results[k].id == a && p.results[k].status == Failed;
        assert q.results[k] == p.results[k];
      }
    }
  }

  lemma TurnKeepsListed(plan: Plan, p: Progress, s: Step, turn: Turn)
    requires Booked(plan, p) && Listed(p)
    ensures Listed(TakeTurn(plan, p, s, turn))
  {
    hide Finish, Settle, GateRequired, Gone, Booked, Listed;
    var gone := Result(s.id, Skipped, 0, StateGone);
    AddKeepsBooked(plan, p, gone);
    AddKeepsListed(p, gone, AddResult(p, gone));
    FinishKeepsListed(plan, AddResult(p, gone), s.id, turn);
    SettleKeepsListed(plan, p, s, turn);
    var q := TakeTurn(plan, p, s, turn);
    var course := CourseOf(plan, s, p.store, turn.unreadable);
    if !(course.GoneSkip? && course.status != Blank) && !course.Dispatch? {
      AddKeepsListed(p, q.results[|p.results|], q);
    }
  }

  lemma SettleKeepsListed(plan: Plan, p: Progress, s: Step, turn: Turn)
    requires Booked(plan, p) && Listed(p)
    ensures Listed(Settle(plan, p, s, turn))
  {
    hide Finish, RunCommand, StoreAfter, Booked, Listed;
    var c := RunCommand(s, turn, p.store);
    var p' := p.(store := StoreAfter(p.store, c.effects), effects := p.effects + c.effects);
    SameBooks(plan, p, p');
    if c.rc == 0 {
      var done := Result(s.id, Succeeded, 0, NoReason);
      AddKeepsBooked(plan, p', done);
      AddKeepsListed(p', done, AddResult(p', done));
      FinishKeepsListed(plan, AddResult(p', done), s.id, turn);
    } else {
      var q := Settle(plan, p, s, turn);
      AddKeepsListed(p, q.results[|p.results|], q);
    }
  }

  lemma SameBooks(plan: Plan, p: Progress, q: Progress)
    requires q == p.(store := q.store, effects := q.effects)
    ensures Booked(plan, p) ==> Booked(plan, q)
    ensures Listed(p) ==> Listed(q)
  {
  }

  lemma {:induction false} LoopIsListed(plan: Plan, store: Store, turns: seq<Turn>, n: nat)
    requires PlanOk(plan) && |turns| == |plan.order| && n <= |turns|
    ensures Listed(Loop(plan, store, turns, n))
  {
    hide TakeTurn, Booked, TurnShape, Loop;
    LoopStart(plan, store, turns);
    if n > 0 {
      LoopIsListed(plan, store, turns, n - 1);
      LoopStep(plan, store, turns, n - 1);
      var p := Loop(plan, store, turns, n - 1);
      if !p.halted {
        TurnKeepsListed(plan, p, plan.steps[plan.order[n - 1]], turns[n - 1]);
      }
    }
  }

  // ----- The sweep ----------------------------------------------------------------------------------------

  lemma {:induction false} MembersSweptAreListed(p: Progress, parent: Id, members: seq<nat>, a: Id)
    requires forall k :: 0 <= k < |members| ==> members[k] < |p.results|
    ensures a in SweepMembers(p, parent, members).required ==>
              a in p.required || exists k :: 0 <= k < |members| && p.results[members[k]].id == a
  {
    if members != [] {
      MembersSweptAreListed(p, parent, members[..|members| - 1], a);
    }
  }

  lemma {:induction false} SweptAreListed(p: Progress, n: nat, a: Id)
    requires BucketsInRange(p) && n <= |p.buckets|
    ensures a in Sweep(p, n).required ==>
              a in p.required || exists k :: 0 <= k < |p.results| && InFirst(p, n, k) && p.results[k].id == a
  {
    hide SweepMembers;
    if n > 0 {
      SweptAreListed(p, n - 1, a);
      var m, bucket := Sweep(p, n - 1), p.buckets[n - 1];
      MembersSweptAreListed(m, bucket.parent, bucket.members, a);
      if k :| 0 <= k < |bucket.members| && m.results[bucket.members[k]].id == a {
        assert bucket.members[k] in bucket.members && InFirst(p, n, bucket.members[k]);
      }
      if a in m.required && a !in p.required {
        var k :| 0 <= k < |p.results| && InFirst(p, n - 1, k) && p.results[k].id == a;
        assert InFirst(p, n, k);
      }
    }
  }

  /** What has been added to the list was not in it yet. */
  ghost predicate AddsOnce(before: seq<Id>, after: seq<Id>) {
    before <= after && forall j :: |before| <= j < |after| ==> after[j] !in after[..j]
  }

  lemma AddsOnceOn(a: seq<Id>, b: seq<Id>, c: seq<Id>)
    requires AddsOnce(a, b) && AddsOnce(b, c)
    ensures AddsOnce(a, c)
  {
    forall j | |a| <= j < |c|
      ensures c[j] !in c[..j]
    {
      if j < |b| {
        assert c[..j] == b[..j] && c[j] == b[j];
      }
    }
  }

  lemma {:induction false} MembersAreAddedOnce(p: Progress, parent: Id, members: seq<nat>)
    requires forall k :: 0 <= k < |members| ==> members[k] < |p.results|
    ensures AddsOnce(p.required, SweepMembers(p, parent, members).required)
  {
    if members != [] {
      var n := |members| - 1;
      var m, q := SweepMembers(p, parent, members[..n]), SweepMembers(p, parent, members);
      MembersAreAddedOnce(p, parent, members[..n]);
      assert q.required[..|m.required|] == m.required;
      AddsOnceOn(p.required, m.required, q.required);
    }
  }

  /** The final sweep lists a step once, and only if it was not listed before. */
  lemma {:induction false} SweptAreAddedOnce(p: Progress, n: nat)
    requires BucketsInRange(p) && n <= |p.buckets|
    ensures AddsOnce(p.required, Sweep(p, n).required)
  {
    hide SweepMembers, AddsOnce;
    if n > 0 {
      SweptAreAddedOnce(p, n - 1);
      var m, bucket := Sweep(p, n - 1), p.buckets[n - 1];
      MembersAreAddedOnce(m, bucket.parent, bucket.members);
      AddsOnceOn(p.required, m.required, Sweep(p, n).required);
    } else {
      NothingAdded(p.required);
    }
  }

  lemma NothingAdded(ids: seq<Id>)
    ensures AddsOnce(ids, ids)
  {
  }

  lemma InFirstIsDeferred(plan: Plan, p: Progress, n: nat, k: nat)
    requires Booked(plan, p) && n <= |p.buckets| && InFirst(p, n, k)
    ensures k < |p.results| && p.results[k].status == Deferred
  {
    var b :| 0 <= b < n && k in p.buckets[b].members;
    BucketReads(p.buckets, b);
    WaitingIsDeferred(plan, p, p.buckets[b].parent, k);
  }

  /**
   The lists of a destroy run are exact: "required" names the steps that are reported failed, one
   by one or with their parent, and "optional" those whose failure was excused.
   */
  lemma ListsAreExact(plan: Plan, store: Store, turns: seq<Turn>)
    requires PlanOk(plan) && |turns| == |plan.order|
    ensures var q := Run(plan, store, turns);
            && (forall a :: a in q.required <==> ReportedFailed(q.results, a))
            && q.optional == ExcusedIds(q.results)
  {
    hide Loop, Booked;
    var p, q := Loop(plan, store, turns, |turns|), Run(plan, store, turns);
    LoopKeeps(plan, store, turns, |turns|);
    LoopIsListed(plan, store, turns, |turns|);
    SweepFailsTheDeferred(plan, store, turns);
    BookedInRange(plan, p);
    forall a | a in q.required
      ensures ReportedFailed(q.results, a)
    {
      SweptAreListed(p, |p.buckets|, a);
      if k :| 0 <= k < |p.results| && InFirst(p, |p.buckets|, k) && p.results[k].id == a {
        InFirstIsDeferred(plan, p, |p.buckets|, k);
        assert Swept(p, q, plan.steps[p.results[k].id].subsumedBy.value, k);
      } else {
        var k :| 0 <= k < |p.results| && p.results[k].id == a && p.results[k].status == Failed;
        assert q.results[k] == p.results[k];
      }
    }
    DeferralsAreSettled(plan, store, turns);
    forall a | ReportedFailed(q.results, a)
      ensures a in q.required
    {
      var k :| 0 <= k < |q.results| && q.results[k].id == a && q.results[k].status == Failed;
      assert Settled(plan, q, k);
    }
    ExcusedAlike(p.results, q.results);
  }

  /** The code of a run, from the results that it reports: 130 for an interrupt, 2 for a failure. */
  lemma CodeIsExact(plan: Plan, store: Store, turns: seq<Turn>)
    requires PlanOk(plan) && |turns| == |plan.order|
    ensures var q := Run(plan, store, turns);
            ExitCode(q) == if exists k :: 0 <= k < |q.results| && q.results[k].status == Cancelled then 130
                           else if exists k :: 0 <= k < |q.results| && q.results[k].status == Failed then 2
                           else 0
  {
    hide Loop, Run, Booked;
    var p, q := Loop(plan, store, turns, |turns|), Run(plan, store, turns);
    SweepFailsTheDeferred(plan, store, turns);
    LoopStopsThere(plan, store, turns, |turns|);
    ListsAreExact(plan, store, turns);
    if q.required != [] {
      assert q.required[0] in q.required;
    }
    forall k | 0 <= k < |q.results| && q.results[k].status == Failed
      ensures ReportedFailed(q.results, q.results[k].id)
    {
    }
    assert forall k :: 0 <= k < |q.results| ==> (q.results[k].status == Cancelled <==> p.results[k].status == Cancelled);
  }
}
