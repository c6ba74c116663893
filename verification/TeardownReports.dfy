/**
 What a destroy run reports about each step, said in terms of what the step declares, what the
 records said at its turn, and what its command was answered.
 */
module TeardownReports {
  import opened Ordering
  import opened Blueprint
  import opened ModuleState
  import opened SingleRun
  import opened RunVerdicts
  import opened Teardown
  import opened TeardownRun
  import opened TeardownTheorems
  import opened TeardownFrames
  import opened TeardownVerdicts

  // ----- What a turn sees -----------------------------------------------------------------------------

  /** The record of the slot can be read, and has this status. */
  predicate Says(store: Store, slot: Slot, unreadable: set<Slot>, status: Status) {
    slot in store && slot !in unreadable && store[slot].status == status
  }

  predicate SaysAnything(store: Store, slot: Slot, unreadable: set<Slot>) {
    slot in store && slot !in unreadable && store[slot].status != Blank
  }

  /** Nothing readable says that the slot stands. */
  predicate PassesForGone(store: Store, slot: Slot, unreadable: set<Slot>) {
    || !SaysAnything(store, slot, unreadable)
    || Says(store, slot, unreadable, Destroyed) || Says(store, slot, unreadable, Absent)
  }

  predicate PassesForLive(store: Store, slot: Slot, unreadable: set<Slot>) {
    !PassesForGone(store, slot, unreadable) && !Says(store, slot, unreadable, StatusMissing)
  }

  /** A gate with something readable and live to guard. */
  predicate HasToGuard(plan: Plan, s: Step, store: Store, unreadable: set<Slot>) {
    s.gate && exists b :: b in s.needs && b in plan.steps && PassesForLive(store, plan.steps[b].slot, unreadable)
  }

  /** The plan itself leaves the step out. */
  predicate LeftOut(plan: Plan, s: Step) {
    s.retain || (plan.skipArchive && s.gate)
  }

  /** The command of the step had its turn. */
  predicate Commanded(r: Result) {
    r.status in {Succeeded, FailedOptional, Cancelled} || (r.status == Failed && r.reason == CommandFailed)
  }

  /** The step's command returned 0. */
  predicate Destroys(turn: Turn) {
    turn.cut.None? && WorkDone(CmdDestroy, turn.env) && turn.env.final == Kept
  }

  /** The operator interrupted the step's command, or whatever cut it short. */
  predicate Interrupts(turn: Turn) {
    if turn.cut.Some? then turn.cut.value.byOperator else OperatorStops(CmdDestroy, turn.env)
  }

  /** The report on a step, from the plan, the records before its turn, and the answers at its turn. */
  ghost predicate Reports(plan: Plan, s: Step, before: Store, turn: Turn, r: Result) {
    var passes := PassesForGone(before, s.slot, turn.unreadable) && !HasToGuard(plan, s, before, turn.unreadable);
    && r.id == s.id
    && (r.status == Skipped && r.reason == PreservationSkipped <==> plan.skipArchive && s.gate)
    && (r.status == Retained <==> s.retain && !(plan.skipArchive && s.gate))
    && (r.status == Skipped && r.reason == NoState <==>
          !LeftOut(plan, s) && passes && !SaysAnything(before, s.slot, turn.unreadable))
    && (r.status == Skipped && r.reason == StateGone <==>
          !LeftOut(plan, s) && passes && SaysAnything(before, s.slot, turn.unreadable))
    && (r.status == Deferred <==> !LeftOut(plan, s) && !passes && s.subsumedBy.Some?)
    && (r.status == Deferred ==> r.reason == WithParent(s.subsumedBy.value))
    && (Commanded(r) <==> !LeftOut(plan, s) && !passes && s.subsumedBy.None?)
    && (Commanded(r) ==>
          && (r.status == Succeeded <==> Destroys(turn))
          && (r.status == Cancelled <==> Interrupts(turn))
          && (r.status == FailedOptional <==> !Destroys(turn) && !Interrupts(turn) && s.optional))
    && (r.rc == 0 <==> !(r.status in {Failed, FailedOptional, Cancelled}))
    && (r.rc == 130 <==> r.status == Cancelled)
  }

  lemma CourseReports(plan: Plan, s: Step, store: Store, unreadable: set<Slot>)
    ensures var passes := PassesForGone(store, s.slot, unreadable) && !HasToGuard(plan, s, store, unreadable);
            CourseOf(plan, s, store, unreadable) ==
              if plan.skipArchive && s.gate then PreserveSkip
              else if s.retain then Retain
              else if passes then
                GoneSkip(if !SaysAnything(store, s.slot, unreadable) then Blank
                         else if Says(store, s.slot, unreadable, Destroyed) then Destroyed else Absent)
              else if s.subsumedBy.Some? then Defer(s.subsumedBy.value)
              else Dispatch
  {
    LivesAlike(plan, s, store, unreadable);
  }

  lemma LivesAlike(plan: Plan, s: Step, store: Store, unreadable: set<Slot>)
    ensures GateRequired(plan, s, store, unreadable) <==> HasToGuard(plan, s, store, unreadable)
  {
    forall slot
      ensures Live(StatusRead(store, slot, unreadable)) <==> PassesForLive(store, slot, unreadable)
    {
    }
  }

  lemma TurnReports(plan: Plan, p: Progress, s: Step, turn: Turn)
    requires Booked(plan, p) && s.id in plan.steps && plan.steps[s.id] == s && !p.halted
    ensures var q := TakeTurn(plan, p, s, turn);
            && |q.results| == |p.results| + 1 && Reports(plan, s, p.store, turn, q.results[|p.results|])
            && q.cancelled == (p.cancelled || q.results[|p.results|].status == Cancelled)
            && q.halted == (q.results[|p.results|].status == Cancelled || (q.results[|p.results|].status == Failed && plan.failFast))
  {
    hide Finish, RunCommand, StoreAfter, Booked, GateRequired, Gone, PassesForGone, HasToGuard, SaysAnything, Says;
    CourseReports(plan, s, p.store, turn.unreadable);
    CutReturnCodes(CmdDestroy, s.slot, turn.env, turn.cut, p.store);
    CommandCodes(s, turn, p.store);
    hide Destroys, Interrupts;
    var c := RunCommand(s, turn, p.store);
    var q := p.(store := StoreAfter(p.store, c.effects), effects := p.effects + c.effects);
    OwnResultIsKept(plan, p, q, s, turn, Result(s.id, Succeeded, 0, NoReason));
    OwnResultIsKept(plan, p, p, s, turn, Result(s.id, Skipped, 0, StateGone));
  }

  lemma CommandCodes(s: Step, turn: Turn, store: Store)
    ensures RunCommand(s, turn, store).rc == 0 <==> Destroys(turn)
    ensures RunCommand(s, turn, store).rc == 130 <==> Interrupts(turn)
  {
    hide Single;
    CutReturnCodes(CmdDestroy, s.slot, turn.env, turn.cut, store);
    ReturnCodes(CmdDestroy, s.slot, turn.env, store);
  }

  // ----- The report of a run ----------------------------------------------------------------------------

  /**
   Every result of a run is the report of the step's own turn, unless that one deferred it: then
   it has been subsumed or has failed since, without a command of its own.
   */
  lemma RunReports(plan: Plan, store: Store, turns: seq<Turn>, i: nat)
    requires PlanOk(plan) && |turns| == |plan.order| && i < |Run(plan, store, turns).results|
    ensures i < |turns| && i < |Loop(plan, store, turns, i + 1).results|
    ensures var own, r := Loop(plan, store, turns, i + 1).results[i], Run(plan, store, turns).results[i];
            && Reports(plan, plan.steps[plan.order[i]], Loop(plan, store, turns, i).store, turns[i], own)
            && if own.status == Deferred then 
                 r.id == own.id && !Commanded(r) && ((r.status == Subsumed && r.rc == 0) || (r.status == Failed && r.rc == 2))
               else r == own
  {
    hide Loop, Run, Booked, TakeTurn, Reports, TurnShape;
    SweepFailsTheDeferred(plan, store, turns);
    LoopKeeps(plan, store, turns, |turns|);
    TurnCame(plan, store, turns, i);
    LoopKeeps(plan, store, turns, i);
    LoopStep(plan, store, turns, i);
    assert plan.order[i] in plan.order;
    TurnReports(plan, Loop(plan, store, turns, i), plan.steps[plan.order[i]], turns[i]);
    if Loop(plan, store, turns, i + 1).results[i].status == Deferred {
      DeferredStaysInFamily(plan, store, turns, i, |turns|);
      LoopKeeps(plan, store, turns, i + 1);
    } else {
      OwnResultStays(plan, store, turns, i, |turns|);
    }
  }

  /** A step with a result had its turn. */
  lemma TurnCame(plan: Plan, store: Store, turns: seq<Turn>, i: nat)
    requires PlanOk(plan) && |turns| == |plan.order| && i < |turns| && i < |Loop(plan, store, turns, |turns|).results|
    ensures !Loop(plan, store, turns, i).halted && |Loop(plan, store, turns, i).results| == i
    ensures |Loop(plan, store, turns, i + 1).results| == i + 1
  {
    hide Loop, Booked, TakeTurn, TurnShape;
    LoopKeeps(plan, store, turns, i);
    LoopKeeps(plan, store, turns, i + 1);
    LoopStep(plan, store, turns, i);
    if Loop(plan, store, turns, i).halted {
      HaltedFreezes(plan, store, turns, i, |turns|);
    } else {
      ResultAdded(plan, Loop(plan, store, turns, i), plan.steps[plan.order[i]], turns[i], Loop(plan, store, turns, i + 1));
    }
  }

  lemma ResultAdded(plan: Plan, p: Progress, s: Step, turn: Turn, q: Progress)
    requires TurnShape(plan, p, s, turn, q)
    ensures |q.results| == |p.results| + 1
  {
  }

  /** What the plan excuses is what it declares, and nothing else. */
  lemma ExcusesAreDeclared(plan: Plan, store: Store, turns: seq<Turn>, i: nat)
    requires PlanOk(plan) && |turns| == |plan.order| && i < |Run(plan, store, turns).results|
    ensures i < |plan.order| &&
            var s, r := plan.steps[plan.order[i]], Run(plan, store, turns).results[i];
            && r.id == s.id
            && (r.status == Retained <==> s.retain && !(plan.skipArchive && s.gate))
            && (r.status == Skipped && r.reason == PreservationSkipped <==> plan.skipArchive && s.gate)
            && (r.status == FailedOptional ==> s.optional && !Destroys(turns[i]) && !Interrupts(turns[i]))
            && (r.status == Succeeded ==> !LeftOut(plan, s) && Destroys(turns[i]))
  {
    hide Loop, Run, PassesForGone, HasToGuard, SaysAnything, Says, Destroys, Interrupts;
    RunReports(plan, store, turns, i);
  }

  /** With a slot for each step, nothing happens to the slot of a step that the plan leaves out. */
  lemma LeftOutIsLeftAlone(plan: Plan, store: Store, turns: seq<Turn>, i: nat)
    requires PlanOk(plan) && |turns| == |plan.order| && OneSlotEach(plan)
    requires i < |plan.order| && LeftOut(plan, plan.steps[plan.order[i]])
    ensures var q, slot := Run(plan, store, turns), plan.steps[plan.order[i]].slot;
            (forall e :: e in q.effects ==> e.slot != slot) && SameRecord(store, q.store, slot)
  {
    hide Loop, Run, Booked;
    var p, q := Loop(plan, store, turns, |turns|), Run(plan, store, turns);
    SweepFailsTheDeferred(plan, store, turns);
    if i < |p.results| {
      LeftOutIsPassedBy(plan, store, turns, i);
    }
    PassedByStays(plan, store, turns, i, |turns|);
  }

  lemma LeftOutIsPassedBy(plan: Plan, store: Store, turns: seq<Turn>, i: nat)
    requires PlanOk(plan) && |turns| == |plan.order| && i < |turns| && i < |Loop(plan, store, turns, |turns|).results|
    requires LeftOut(plan, plan.steps[plan.order[i]])
    ensures PassedBy(Loop(plan, store, turns, |turns|).results[i])
  {
    hide Loop, Run;
    SweepFailsTheDeferred(plan, store, turns);
    ExcusesAreDeclared(plan, store, turns, i);
    if Loop(plan, store, turns, |turns|).results[i].status == Deferred {
      RunReports(plan, store, turns, i);
    }
  }

  // ----- What stops a run ---------------------------------------------------------------------------------

  /** The result ends the run: the operator's interrupt always does, a required failure under fail_fast. */
  predicate Ends(plan: Plan, r: Result) {
    r.status == Cancelled || (plan.failFast && r.status == Failed && r.reason == CommandFailed)
  }

  /** The run goes on until a result that ends it, and no further. */
  ghost predicate StopsThere(plan: Plan, p: Progress) {
    && (p.cancelled <==> p.results != [] && p.results[|p.results| - 1].status == Cancelled)
    && (p.halted <==> p.results != [] && Ends(plan, p.results[|p.results| - 1]))
    && forall k :: 0 <= k < |p.results| - 1 ==> !Ends(plan, p.results[k]) && p.results[k].status != Cancelled
  }

  lemma TurnStopsThere(plan: Plan, p: Progress, s: Step, turn: Turn, q: Progress)
    requires Booked(plan, p) && s.id in plan.steps && plan.steps[s.id] == s && !p.halted && StopsThere(plan, p)
    requires q == TakeTurn(plan, p, s, turn) && TurnShape(plan, p, s, turn, q)
    ensures StopsThere(plan, q)
  {
    hide Reports, TakeTurn, Booked;
    TurnReports(plan, p, s, turn);
    OwnFailureIsCommand(plan, p, s, turn);
    var n := |p.results|;
    forall k | 0 <= k < n
      ensures !Ends(plan, q.results[k]) && q.results[k].status != Cancelled
    {
      if k in Parked(p.buckets, s.id) && Confirmed(q.results[n]) {
        assert ChildDone(plan, p.store, q, s.id, turn, k);
      } else {
        assert q.results[k] == p.results[k];
      }
    }
  }

  lemma OwnFailureIsCommand(plan: Plan, p: Progress, s: Step, turn: Turn)
    requires Booked(plan, p) && s.id in plan.steps && plan.steps[s.id] == s
    ensures var q := TakeTurn(plan, p, s, turn);
            |q.results| == |p.results| + 1
            && (q.results[|p.results|].status == Failed ==> q.results[|p.results|].reason == CommandFailed)
  {
    hide TakeTurn, Booked;
    TurnKeeps(plan, p, s, turn);
  }

  lemma {:induction false} LoopStopsThere(plan: Plan, store: Store, turns: seq<Turn>, n: nat)
    requires PlanOk(plan) && |turns| == |plan.order| && n <= |turns|
    ensures StopsThere(plan, Loop(plan, store, turns, n))
  {
    hide TakeTurn, Booked, TurnShape, Loop, StopsThere;
    LoopStart(plan, store, turns);
    if n == 0 {
      NothingStops(plan, store);
    } else {
      LoopStopsThere(plan, store, turns, n - 1);
      LoopStep(plan, store, turns, n - 1);
      var p := Loop(plan, store, turns, n - 1);
      assert plan.order[n - 1] in plan.order;
      if !p.halted {
        TurnStopsThere(plan, p, plan.steps[plan.order[n - 1]], turns[n - 1], Loop(plan, store, turns, n));
      }
    }
  }

  lemma NothingStops(plan: Plan, store: Store)
    ensures StopsThere(plan, Fresh(store))
  {
  }

  /**
   The operator's interrupt ends a destroy run at the step whose command it hit, whatever that
   step declares and with or without fail_fast; and only then does the run return 130.
   */
  lemma InterruptEndsTheRun(plan: Plan, store: Store, turns: seq<Turn>)
    requires PlanOk(plan) && |turns| == |plan.order|
    ensures var q := Run(plan, store, turns);
            && |q.results| <= |turns|
            && (forall i :: 0 <= i < |q.results| && Commanded(q.results[i]) && Interrupts(turns[i]) ==>
                  i + 1 == |q.results| && q.results[i].status == Cancelled && ExitCode(q) == 130)
            && (ExitCode(q) == 130 ==>
                  q.results != [] && var last := |q.results| - 1; Commanded(q.results[last]) && Interrupts(turns[last]))
  {
    hide Loop, Run, Booked, Reports, Interrupts;
    var p, q := Loop(plan, store, turns, |turns|), Run(plan, store, turns);
    LoopKeeps(plan, store, turns, |turns|);
    LoopStopsThere(plan, store, turns, |turns|);
    SweepFailsTheDeferred(plan, store, turns);
    forall i | 0 <= i < |q.results|
      ensures q.results[i].status == Cancelled <==> Commanded(q.results[i]) && Interrupts(turns[i])
    {
      CancelledIffInterrupted(plan, store, turns, i);
    }
  }

  lemma CancelledIffInterrupted(plan: Plan, store: Store, turns: seq<Turn>, i: nat)
    requires PlanOk(plan) && |turns| == |plan.order| && i < |Run(plan, store, turns).results|
    ensures i < |turns|
    ensures Run(plan, store, turns).results[i].status == Cancelled <==> Commanded(Run(plan, store, turns).results[i]) && Interrupts(turns[i])
  {
    hide Loop, Run, PassesForGone, HasToGuard, SaysAnything, Says, Destroys, Interrupts;
    RunReports(plan, store, turns, i);
  }

  /** A run stops early exactly at an interrupt, or under fail_fast at a required failure. */
  lemma RunStopsIff(plan: Plan, store: Store, turns: seq<Turn>, i: nat)
    requires PlanOk(plan) && |turns| == |plan.order| && i < |Run(plan, store, turns).results|
    ensures i + 1 < |plan.order| ==>
              (i + 1 == |Run(plan, store, turns).results| <==> Ends(plan, Run(plan, store, turns).results[i]))
  {
    hide Loop, Run, Booked, Reports;
    var p, q := Loop(plan, store, turns, |turns|), Run(plan, store, turns);
    LoopKeeps(plan, store, turns, |turns|);
    LoopStopsThere(plan, store, turns, |turns|);
    SweepFailsTheDeferred(plan, store, turns);
  }
}
