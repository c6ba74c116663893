/** The promises of a destroy run: settled deferrals, crash safety, guarded gates, honest verdicts. */
module TeardownTheorems {
  import opened Graphs
  import opened Ordering
  import opened Blueprint
  import opened ModuleState
  import opened SingleRun
  import opened Teardown
  import opened TeardownRun

  // ----- Deferral -----------------------------------------------------------------------------

  /** A report that no reader has to second-guess. */
  ghost predicate Settled(plan: Plan, p: Progress, i: nat)
    requires i < |p.results|
  {
    var r := p.results[i];
    && r.status != Deferred
    && (r.status == Failed ==> r.id in p.required)
    && (r.status == Subsumed ==>
          && r.id in plan.steps && plan.steps[r.id].subsumedBy.Some?
          && ParentConfirmed(p.results, plan.steps[r.id].subsumedBy.value)
          && StatusOf(p.store, plan.steps[r.id].slot) == Destroyed)
  }

  /** When the run ends nothing is deferred, every failure is listed, every subsumption is founded. */
  lemma DeferralsAreSettled(plan: Plan, store: Store, turns: seq<Turn>)
    requires PlanOk(plan) && |turns| == |plan.order|
    ensures forall i :: 0 <= i < |Run(plan, store, turns).results| ==> Settled(plan, Run(plan, store, turns), i)
  {
    var p, q := Loop(plan, store, turns, |turns|), Run(plan, store, turns);
    LoopIsBacked(plan, store, turns, |turns|);
    SweepFailsTheDeferred(plan, store, turns);
    forall i | 0 <= i < |q.results|
      ensures Settled(plan, q, i)
    {
      assert Backed(plan, turns, p, i);
      if p.results[i].status == Subsumed {
        ConfirmedSurvivesSweep(plan, store, turns, plan.steps[p.results[i].id].subsumedBy.value);
      }
    }
  }

  lemma ConfirmedSurvivesSweep(plan: Plan, store: Store, turns: seq<Turn>, parent: Id)
    requires PlanOk(plan) && |turns| == |plan.order|
    ensures ParentConfirmed(Loop(plan, store, turns, |turns|).results, parent) <==> ParentConfirmed(Run(plan, store, turns).results, parent)
  {
    var p, q := Loop(plan, store, turns, |turns|), Run(plan, store, turns);
    SweepFailsTheDeferred(plan, store, turns);
    forall j | 0 <= j < |p.results|
      ensures Confirmed(p.results[j]) <==> Confirmed(q.results[j])
      ensures p.results[j].id == q.results[j].id
    {
    }
  }

  /** Once deferred, a result can only wait, be subsumed or fail. */
  predicate DeferredFamily(r: Result) {
    || ((r.status == Deferred || r.status == Subsumed) && r.rc == 0)
    || (r.status == Failed && r.rc == 2 && r.reason in {ChildUnreadable, ChildUnwritable})
  }

  lemma DeferredReturnsNothing(plan: Plan, store: Store, turns: seq<Turn>, i: nat)
    requires PlanOk(plan) && |turns| == |plan.order| && i < |turns|
    requires i < |Loop(plan, store, turns, i + 1).results| && Loop(plan, store, turns, i + 1).results[i].status == Deferred
    ensures Loop(plan, store, turns, i + 1).results[i].rc == 0
  {
    hide TakeTurn, Loop, Booked, ChildDone, Ebbs, Keeps;
    LoopKeeps(plan, store, turns, i);
    LoopStep(plan, store, turns, i);
  }

  lemma {:induction false} DeferredStaysInFamily(plan: Plan, store: Store, turns: seq<Turn>, i: nat, n: nat)
    requires PlanOk(plan) && |turns| == |plan.order| && i < n <= |turns|
    requires i < |Loop(plan, store, turns, i + 1).results| && Loop(plan, store, turns, i + 1).results[i].status == Deferred
    ensures i < |Loop(plan, store, turns, n).results| && DeferredFamily(Loop(plan, store, turns, n).results[i])
  {
    hide TakeTurn, Loop, Booked, Ebbs, Keeps;
    if n == i + 1 {
      DeferredReturnsNothing(plan, store, turns, i);
    } else {
      DeferredStaysInFamily(plan, store, turns, i, n - 1);
      LoopStep(plan, store, turns, n - 1);
      var p, q := Loop(plan, store, turns, n - 1), Loop(plan, store, turns, n);
      if !p.halted {
        var a := plan.order[n - 1];
        if i in Parked(p.buckets, a) && Confirmed(q.results[|p.results|]) {
          assert ChildDone(plan, p.store, q, a, turns[n - 1], i);
        } else {
          assert q.results[i] == p.results[i];
        }
      }
    }
  }

  /**
   In an accepted blueprint a step deferred at its turn ends subsumed or failed.  It ends subsumed
   exactly when its parent was confirmed gone, by its own destroy returning 0 in this run or by a
   record that already said so, and its own record could be read and replaced at the parent's turn.
   */
  lemma SubsumedIffParentConfirmed(steps: seq<Step>, order: seq<Id>, plan: Plan, store: Store, turns: seq<Turn>, i: nat)
    requires Payload(steps, order) && plan.order == Reversed(order) && plan.steps == ById(steps)
    requires PlanOk(plan) && |turns| == |plan.order| && i < |turns|
    requires i < |Loop(plan, store, turns, i + 1).results| && Loop(plan, store, turns, i + 1).results[i].status == Deferred
    ensures var q, s := Run(plan, store, turns), plan.steps[plan.order[i]];
            && i < |q.results| && q.results[i].id == s.id && s.subsumedBy.Some?
            && q.results[i].status in {Subsumed, Failed}
            && (q.results[i].status == Subsumed <==>
                  ParentConfirmed(q.results, s.subsumedBy.value) && !TroubleAt(plan, turns, s.subsumedBy.value, s.slot))
  {
    hide Loop, Run, Booked, Trouble;
    var p, q := Loop(plan, store, turns, |turns|), Run(plan, store, turns);
    DeferredStaysInFamily(plan, store, turns, i, |turns|);
    LoopKeeps(plan, store, turns, |turns|);
    LoopIsBacked(plan, store, turns, |turns|);
    assert Backed(plan, turns, p, i);
    assert plan.order[i] in plan.order;
    var s := plan.steps[plan.order[i]];
    SweepFailsTheDeferred(plan, store, turns);
    ConfirmedSurvivesSweep(plan, store, turns, s.subsumedBy.value);
    ReversedIsDistinct(order);
    assert StepSound(StepGraph(steps), s);
    if q.results[i].status == Subsumed {
      ClearIsNoTrouble(plan, turns, s.subsumedBy.value, s.slot);
    }
    if p.results[i].status == Deferred {
      TeardownOrder(steps, order, i, s);
      StillWaiting(plan, turns, p, i, s.subsumedBy.value);
    }
  }

  /** With distinct ids a step has one turn. */
  lemma ClearIsNoTrouble(plan: Plan, turns: seq<Turn>, a: Id, slot: Slot)
    requires NoDuplicates(plan.order) && ClearAt(plan, turns, a, slot)
    ensures !TroubleAt(plan, turns, a, slot)
  {
  }

  /** A child still deferred has a later parent, and that parent has not been confirmed. */
  lemma StillWaiting(plan: Plan, turns: seq<Turn>, p: Progress, i: nat, parent: Id)
    requires NoDuplicates(plan.order) && InOrder(plan, p, |plan.order|)
    requires i < |p.results| && p.results[i].status == Deferred && Backed(plan, turns, p, i)
    requires plan.steps[p.results[i].id].subsumedBy == Some(parent) && LaterIn(plan.order, i, parent)
    ensures !ParentConfirmed(p.results, parent)
  {
    var k :| i < k < |plan.order| && plan.order[k] == parent;
    forall j | 0 <= j < |p.results| && p.results[j].id == parent
      ensures !Confirmed(p.results[j])
    {
      assert plan.order[j] == plan.order[k];
    }
  }

  lemma ReversedIsDistinct(order: seq<Id>)
    requires NoDuplicates(order)
    ensures NoDuplicates(Reversed(order))
  {
  }

  /** A child whose parent is itself deferred to a third step is never reported as destroyed. */
  lemma NestedDeferralFails(plan: Plan, store: Store, turns: seq<Turn>, i: nat, j: nat)
    requires PlanOk(plan) && |turns| == |plan.order| && NoDuplicates(plan.order) && i < |turns| && j < |turns|
    requires i < |Loop(plan, store, turns, i + 1).results| && Loop(plan, store, turns, i + 1).results[i].status == Deferred
    requires j < |Loop(plan, store, turns, j + 1).results| && Loop(plan, store, turns, j + 1).results[j].status == Deferred
    requires plan.steps[plan.order[i]].subsumedBy == Some(plan.order[j])
    ensures var q := Run(plan, store, turns);
            i < |q.results| && q.results[i].status == Failed && q.results[i].id in q.required
  {
    hide Loop, Run, Booked;
    var p, q := Loop(plan, store, turns, |turns|), Run(plan, store, turns);
    DeferredStaysInFamily(plan, store, turns, i, |turns|);
    DeferredStaysInFamily(plan, store, turns, j, |turns|);
    LoopKeeps(plan, store, turns, |turns|);
    SweepFailsTheDeferred(plan, store, turns);
    DeferralsAreSettled(plan, store, turns);
    assert Settled(plan, q, i);
    OnlyResultOf(plan, q, j);
  }

  /** With distinct ids a step's own result speaks for it alone. */
  lemma OnlyResultOf(plan: Plan, q: Progress, j: nat)
    requires NoDuplicates(plan.order) && j < |q.results| <= |plan.order|
    requires forall k :: 0 <= k < |q.results| ==> q.results[k].id == plan.order[k]
    ensures ParentConfirmed(q.results, plan.order[j]) <==> Confirmed(q.results[j])
  {
    forall k | 0 <= k < |q.results| && q.results[k].id == plan.order[j]
      ensures k == j
    {
    }
  }

  // ----- Crash safety -------------------------------------------------------------------------

  /** Subsumption as declared agrees with what hosts what. */
  ghost predicate HostsAgree(hosts: Hosts, plan: Plan) {
    && TransitiveHosts(hosts)
    && forall a :: a in plan.steps && plan.steps[a].subsumedBy.Some? ==>
         var b := plan.steps[a].subsumedBy.value;
         b in plan.steps && plan.steps[b].slot in hosts(plan.steps[a].slot)
  }

  ghost predicate Tracks(hosts: Hosts, w: World, p: Progress) {
    && SafeThroughout(hosts, w, p.effects)
    && p.store == Replay(hosts, w, p.effects).store
  }

  lemma TracksNow(hosts: Hosts, w: World, p: Progress)
    requires Tracks(hosts, w, p)
    ensures Safe(hosts, Replay(hosts, w, p.effects))
  {
    assert p.effects[..|p.effects|] == p.effects;
  }

  /** The step command, cut short or not, keeps the run safe; rc 0 means the slot holds nothing. */
  lemma CommandKeepsTracks(hosts: Hosts, w: World, p: Progress, s: Step, turn: Turn)
    requires TransitiveHosts(hosts) && Tracks(hosts, w, p)
    ensures var c := RunCommand(s, turn, p.store);
            && Tracks(hosts, w, p.(store := StoreAfter(p.store, c.effects), effects := p.effects + c.effects))
            && (c.rc == 0 ==> StatusOf(StoreAfter(p.store, c.effects), s.slot) == Destroyed
                              && s.slot !in Replay(hosts, w, p.effects + c.effects).holds)
  {
    var v := Replay(hosts, w, p.effects);
    var c := RunCommand(s, turn, p.store);
    TracksNow(hosts, w, p);
    StepRunIsCrashSafe(hosts, v, CmdDestroy, s.slot, turn.env, turn.cut);
    SafeConcat(hosts, w, p.effects, c.effects);
    ReplayConcat(hosts, w, p.effects, c.effects);
    StoreAfterReplays(hosts, v, c.effects);
    if c.rc == 0 {
      SuccessIsRecorded(hosts, v, CmdDestroy, s.slot, turn.env);
    }
  }

  /** Children written off with their parent hold nothing, because the parent holds nothing. */
  lemma {:induction false} MembersKeepTracks(hosts: Hosts, w: World, plan: Plan, p: Progress, parent: Id,
        members: seq<nat>, turn: Turn)
    requires HostsAgree(hosts, plan) && Tracks(hosts, w, p) && MembersOk(plan, p.results, members)
    requires parent in plan.steps && plan.steps[parent].slot !in Replay(hosts, w, p.effects).holds
    requires forall k :: 0 <= k < |members| ==> plan.steps[p.results[members[k]].id].subsumedBy == Some(parent)
    ensures var q := FinishMembers(plan, p, parent, members, turn);
            && Tracks(hosts, w, q) && Replay(hosts, w, q.effects).holds == Replay(hosts, w, p.effects).holds
  {
    if members != [] {
      var n := |members| - 1;
      MembersKeepTracks(hosts, w, plan, p, parent, members[..n], turn);
      var m := FinishMembers(plan, p, parent, members[..n], turn);
      assert m.results[members[n]].id == p.results[members[n]].id;
      OneKeepsTracks(hosts, w, plan, m, parent, members[n], turn);
    }
  }

  lemma OneKeepsTracks(hosts: Hosts, w: World, plan: Plan, p: Progress, parent: Id, i: nat, turn: Turn)
    requires HostsAgree(hosts, plan) && Tracks(hosts, w, p)
    requires i < |p.results| && p.results[i].id in plan.steps && plan.steps[p.results[i].id].subsumedBy == Some(parent)
    requires parent in plan.steps && plan.steps[parent].slot !in Replay(hosts, w, p.effects).holds
    ensures var q := FinishOne(plan, p, parent, i, turn);
            && Tracks(hosts, w, q) && Replay(hosts, w, q.effects).holds == Replay(hosts, w, p.effects).holds
  {
    hide Replay;
    var child := plan.steps[p.results[i].id].slot;
    var effect := Write(child, SubsumedRecord(parent));
    TracksNow(hosts, w, p);
    ReplayAppend(hosts, w, p.effects, effect);
    assert Harmless(hosts, Replay(hosts, w, p.effects), effect);
    SafeAppend(hosts, w, p.effects, effect);
  }

  lemma ReplayAppend(hosts: Hosts, w: World, es: seq<Effect>, e: Effect)
    ensures Replay(hosts, w, es + [e]) == Step1(hosts, Replay(hosts, w, es), e)
  {
    assert (es + [e])[..|es|] == es;
  }

  lemma FinishKeepsTracks(hosts: Hosts, w: World, plan: Plan, p: Progress, parent: Id, turn: Turn)
    requires HostsAgree(hosts, plan) && Tracks(hosts, w, p) && Booked(plan, p)
    requires parent in plan.steps && plan.steps[parent].slot !in Replay(hosts, w, p.effects).holds
    ensures Tracks(hosts, w, Finish(plan, p, parent, turn))
  {
    FinishKeepsBooked(plan, p, parent, turn);
    var members := Parked(p.buckets, parent);
    forall k | 0 <= k < |members|
      ensures plan.steps[p.results[members[k]].id].subsumedBy == Some(parent)
    {
      assert members[k] in members;
      assert ParkedChild(plan, p.results, parent, members[k]);
    }
    MembersKeepTracks(hosts, w, plan, p.(buckets := Unparked(p.buckets, parent)), parent, members, turn);
  }

  lemma TurnKeepsTracks(hosts: Hosts, w: World, plan: Plan, p: Progress, s: Step, turn: Turn)
    requires HostsAgree(hosts, plan) && Tracks(hosts, w, p) && Booked(plan, p)
    requires s.id in plan.steps && plan.steps[s.id] == s
    ensures Tracks(hosts, w, TakeTurn(plan, p, s, turn))
  {
    hide RunCommand, StoreAfter, Finish, GateRequired, Replay, SafeThroughout;
    match CourseOf(plan, s, p.store, turn.unreadable)
    case PreserveSkip =>
    case Retain =>
    case GoneSkip(status) =>
      if status != Blank {
        var r := Result(s.id, Skipped, 0, StateGone);
        AddKeepsBooked(plan, p, r);
        TracksNow(hosts, w, p);
        FinishKeepsTracks(hosts, w, plan, AddResult(p, r), s.id, turn);
      }
    case Defer(parent) =>
    case Dispatch =>
      CommandKeepsTracks(hosts, w, p, s, turn);
      var c := RunCommand(s, turn, p.store);
      if c.rc == 0 {
        var q := p.(store := StoreAfter(p.store, c.effects), effects := p.effects + c.effects);
        var r := Result(s.id, Succeeded, 0, NoReason);
        assert Booked(plan, q);
        AddKeepsBooked(plan, q, r);
        FinishKeepsTracks(hosts, w, plan, AddResult(q, r), s.id, turn);
      }
  }

  /** However far the loop got, and wherever its effects are cut off, no live slot reads as gone. */
  lemma {:induction false} LoopIsCrashSafe(hosts: Hosts, w: World, plan: Plan, turns: seq<Turn>, n: nat)
    requires PlanOk(plan) && |turns| == |plan.order| && n <= |turns|
    requires HostsAgree(hosts, plan) && Safe(hosts, w)
    ensures Tracks(hosts, w, Loop(plan, w.store, turns, n))
  {
    hide TakeTurn, Booked, Safe, HostsAgree, SafeThroughout, InOrder;
    if n == 0 {
      SafeEmpty(hosts, w);
      ReplayNothing(hosts, w);
    } else {
      LoopIsCrashSafe(hosts, w, plan, turns, n - 1);
      LoopKeeps(plan, w.store, turns, n - 1);
      var p := Loop(plan, w.store, turns, n - 1);
      if !p.halted {
        assert plan.order[n - 1] in plan.order;
        TurnKeepsTracks(hosts, w, plan, p, plan.steps[plan.order[n - 1]], turns[n - 1]);
      }
    }
  }

  lemma DestroyRunIsCrashSafe(hosts: Hosts, w: World, plan: Plan, turns: seq<Turn>)
    requires PlanOk(plan) && |turns| == |plan.order|
    requires HostsAgree(hosts, plan) && Safe(hosts, w)
    ensures Tracks(hosts, w, Run(plan, w.store, turns))
  {
    LoopIsCrashSafe(hosts, w, plan, turns, |turns|);
    SweepFailsTheDeferred(plan, w.store, turns);
  }
}
