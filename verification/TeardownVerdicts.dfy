/** What the reports of a destroy run are worth: gates, return codes, and "released". */
module TeardownVerdicts {
  import opened Graphs
  import opened Ordering
  import opened Blueprint
  import opened ModuleState
  import opened SingleRun
  import opened Teardown
  import opened TeardownRun
  import opened TeardownTheorems
  import opened TeardownFrames

  // ----- Turns do not come back ---------------------------------------------------------------

  /** A result that its own turn did not defer is final. */
  lemma {:induction false} OwnResultStays(plan: Plan, store: Store, turns: seq<Turn>, i: nat, n: nat)
    requires PlanOk(plan) && |turns| == |plan.order| && i < n <= |turns|
    requires i < |Loop(plan, store, turns, i + 1).results| && Loop(plan, store, turns, i + 1).results[i].status != Deferred
    ensures i < |Loop(plan, store, turns, n).results|
    ensures Loop(plan, store, turns, n).results[i] == Loop(plan, store, turns, i + 1).results[i]
  {
    hide TakeTurn, Loop, Booked, TurnShape;
    if n > i + 1 {
      OwnResultStays(plan, store, turns, i, n - 1);
      LoopStep(plan, store, turns, n - 1);
      var p, q := Loop(plan, store, turns, n - 1), Loop(plan, store, turns, n);
      if !p.halted {
        TurnLeavesFinal(plan, p, plan.steps[plan.order[n - 1]], turns[n - 1], q, i);
      }
    }
  }

  lemma TurnLeavesFinal(plan: Plan, p: Progress, s: Step, turn: Turn, q: Progress, i: nat)
    requires Booked(plan, p) && TurnShape(plan, p, s, turn, q)
    requires i < |p.results| && p.results[i].status != Deferred
    ensures i < |q.results| && q.results[i] == p.results[i]
  {
    NotParked(plan, p, s.id, i);
  }

  /** If the run went past step i, turn i was really taken and did not break the loop. */
  lemma WentPast(plan: Plan, store: Store, turns: seq<Turn>, i: nat)
    requires PlanOk(plan) && |turns| == |plan.order| && i < |turns|
    requires i + 1 < |Loop(plan, store, turns, |turns|).results|
    ensures !Loop(plan, store, turns, i).halted && !Loop(plan, store, turns, i + 1).halted
    ensures |Loop(plan, store, turns, i).results| == i && |Loop(plan, store, turns, i + 1).results| == i + 1
  {
    hide Loop, Booked;
    LoopKeeps(plan, store, turns, i);
    LoopKeeps(plan, store, turns, i + 1);
    if Loop(plan, store, turns, i).halted {
      HaltedFreezes(plan, store, turns, i, |turns|);
    }
    if Loop(plan, store, turns, i + 1).halted {
      HaltedFreezes(plan, store, turns, i + 1, |turns|);
    }
  }

  // ----- Gates --------------------------------------------------------------------------------

  /** The gate reads as gone, and of the steps it guards no live one can be read. */
  predicate PassesOver(plan: Plan, g: Step, store: Store, unreadable: set<Slot>) {
    && Gone(StatusRead(store, g.slot, unreadable))
    && forall b :: b in g.needs && b in plan.steps && Live(StatusOf(store, plan.steps[b].slot)) ==> plan.steps[b].slot in unreadable
  }

  /**
   A gate stands before everything it guards.  With fail_fast on and preservation not skipped,
   a run that takes a turn after the gate has the gate's own command return 0, unless the gate
   was passed over: that is exactly when its own record reads as gone and every live step that
   it directly guards had an unreadable record at that moment.
   */
  lemma GateGuards(steps: seq<Step>, order: seq<Id>, plan: Plan, store: Store, turns: seq<Turn>, i: nat)
    requires Payload(steps, order) && plan.order == Reversed(order) && plan.steps == ById(steps)
    requires PlanOk(plan) && |turns| == |plan.order| && i < |turns|
    requires plan.failFast && !plan.skipArchive && plan.steps[plan.order[i]].gate
    requires i + 1 < |Run(plan, store, turns).results|
    ensures var g, before := plan.steps[plan.order[i]], Loop(plan, store, turns, i).store;
            Run(plan, store, turns).results[i] ==
              if PassesOver(plan, g, before, turns[i].unreadable)
              then PassedOver(g, StatusRead(before, g.slot, turns[i].unreadable))
              else Result(g.id, Succeeded, 0, NoReason)
    ensures forall b :: b in plan.steps[plan.order[i]].needs ==> LaterIn(plan.order, i, b)
  {
    hide Loop, Run, Booked, TakeTurn, PassesOver, StatusRead;
    var g := plan.steps[plan.order[i]];
    assert plan.order[i] in plan.order;
    TeardownOrder(steps, order, i, g);
    assert StepSound(StepGraph(steps), g);
    SweepFailsTheDeferred(plan, store, turns);
    WentPast(plan, store, turns, i);
    LoopStep(plan, store, turns, i);
    LoopUnfolds(plan, store, turns, i);
    GateTurn(plan, Loop(plan, store, turns, i), g, turns[i]);
    OwnResultStays(plan, store, turns, i, |turns|);
  }

  function PassedOver(g: Step, status: Status): Result {
    Result(g.id, Skipped, 0, if status == Blank then NoState else StateGone)
  }

  lemma GateTurn(plan: Plan, p: Progress, g: Step, turn: Turn)
    requires Booked(plan, p) && g.gate && !g.retain && !g.optional && g.subsumedBy.None?
    requires g.id in plan.steps && plan.steps[g.id] == g && plan.failFast && !plan.skipArchive
    requires !TakeTurn(plan, p, g, turn).halted
    ensures var q := TakeTurn(plan, p, g, turn);
            && |q.results| == |p.results| + 1
            && q.results[|p.results|] ==
                 if PassesOver(plan, g, p.store, turn.unreadable) then PassedOver(g, StatusRead(p.store, g.slot, turn.unreadable))
                 else Result(g.id, Succeeded, 0, NoReason)
  {
    hide Finish, RunCommand, StoreAfter, Booked;
    var status := StatusRead(p.store, g.slot, turn.unreadable);
    GateCourse(plan, p.store, g, turn.unreadable);
    if PassesOver(plan, g, p.store, turn.unreadable) {
      GateFinishes(plan, p, PassedOver(g, status), g, turn);
    } else {
      var c := RunCommand(g, turn, p.store);
      var q := p.(store := StoreAfter(p.store, c.effects), effects := p.effects + c.effects);
      assert Booked(plan, q) by {
        SameBook(plan, p, q);
      }
      GateFinishes(plan, q, Result(g.id, Succeeded, 0, NoReason), g, turn);
    }
  }

  lemma SameBook(plan: Plan, p: Progress, q: Progress)
    requires Booked(plan, p) && q.buckets == p.buckets && q.results == p.results
    ensures Booked(plan, q)
  {
  }

  lemma GateCourse(plan: Plan, store: Store, g: Step, unreadable: set<Slot>)
    requires g.gate && !g.retain && g.subsumedBy.None? && !plan.skipArchive
    ensures CourseOf(plan, g, store, unreadable) ==
              if PassesOver(plan, g, store, unreadable) then GoneSkip(StatusRead(store, g.slot, unreadable)) else Dispatch
  {
  }

  lemma GateFinishes(plan: Plan, p: Progress, r: Result, g: Step, turn: Turn)
    requires Booked(plan, p) && r.status != Deferred && g.id in plan.steps
    ensures var q := Finish(plan, AddResult(p, r), g.id, turn);
            |q.results| == |p.results| + 1 && q.results[|p.results|] == r
  {
    AddKeepsBooked(plan, p, r);
    var q := AddResult(p, r);
    NotParked(plan, q, g.id, |p.results|);
    FinishKeepsBooked(plan, q, g.id, turn);
    MembersAreFinished(plan, q.(buckets := Unparked(q.buckets, g.id)), g.id, Parked(q.buckets, g.id), turn);
  }

  /**
   A required gate whose command fails ends the run exactly when fail_fast is on: without it
   what the gate guards has its turn next, whatever the gate reported.
   */
  lemma FailedGateStopsIffFailFast(plan: Plan, store: Store, turns: seq<Turn>, i: nat)
    requires PlanOk(plan) && |turns| == |plan.order| && i < |turns| && !Loop(plan, store, turns, i).halted
    requires var g := plan.steps[plan.order[i]];
             var before := Loop(plan, store, turns, i).store;
             && g.gate && !g.optional && !g.retain && g.subsumedBy.None? && !plan.skipArchive
             && GateRequired(plan, g, before, turns[i].unreadable)
             && RunCommand(g, turns[i], before).rc !in {0, CANCELLED}
    ensures var q := Run(plan, store, turns);
            && i < |q.results| && q.results[i].status == Failed
            && (i + 1 < |q.results| <==> !plan.failFast && i + 1 < |plan.order|)
  {
    hide Loop, RunCommand, Run, Booked, TurnShape;
    FailedGateTurn(plan, store, turns, i);
    LoopKeeps(plan, store, turns, i);
    LoopStep(plan, store, turns, i);
    OwnResultStays(plan, store, turns, i, |turns|);
    SweepFailsTheDeferred(plan, store, turns);
    LoopKeeps(plan, store, turns, |turns|);
    if plan.failFast {
      HaltedFreezes(plan, store, turns, i + 1, |turns|);
    } else if i + 1 < |plan.order| {
      ResultsGrow(plan, store, turns, i + 1, |turns|);
    }
  }

  lemma FailedGateTurn(plan: Plan, store: Store, turns: seq<Turn>, i: nat)
    requires PlanOk(plan) && |turns| == |plan.order| && i < |turns| && !Loop(plan, store, turns, i).halted
    requires var g := plan.steps[plan.order[i]];
             var before := Loop(plan, store, turns, i).store;
             && g.gate && !g.optional && !g.retain && g.subsumedBy.None? && !plan.skipArchive
             && GateRequired(plan, g, before, turns[i].unreadable)
             && RunCommand(g, turns[i], before).rc !in {0, CANCELLED}
    ensures var p, q := Loop(plan, store, turns, i), Loop(plan, store, turns, i + 1);
            && (q.halted <==> plan.failFast)
            && |q.results| == |p.results| + 1 && q.results[|p.results|].status == Failed
  {
    var p := Loop(plan, store, turns, i);
    var g := plan.steps[plan.order[i]];
    assert CourseOf(plan, g, p.store, turns[i].unreadable) == Dispatch;
    hide Loop, RunCommand;
    LoopUnfolds(plan, store, turns, i);
  }

  lemma {:induction false} ResultsGrow(plan: Plan, store: Store, turns: seq<Turn>, i: nat, n: nat)
    requires PlanOk(plan) && |turns| == |plan.order| && i < n <= |turns| && !Loop(plan, store, turns, i).halted
    ensures |Loop(plan, store, turns, n).results| > i
  {
    hide Loop, TakeTurn, Booked;
    LoopStep(plan, store, turns, n - 1);
    if n > i + 1 {
      ResultsGrow(plan, store, turns, i, n - 1);
    } else {
      LoopKeeps(plan, store, turns, i);
    }
  }

  lemma LoopUnfolds(plan: Plan, store: Store, turns: seq<Turn>, i: nat)
    requires PlanOk(plan) && |turns| == |plan.order| && i < |turns| && !Loop(plan, store, turns, i).halted
    ensures Loop(plan, store, turns, i + 1) == TakeTurn(plan, Loop(plan, store, turns, i), plan.steps[plan.order[i]], turns[i])
  {
  }

  const MACHINE := Step("vm", "gcp/vm", Deploy, [], false, false, false, None, false, false, [], false, None)
  const ARCHIVE := Step("archive", "lab/archive", Deploy, ["vm"], false, false, true, None, false, false, [], false, None)

  const LIVE_STORE: Store := map[
    "gcp/vm" := StateRecord(StatusOk, map[], None, None, None),
    "lab/archive" := StateRecord(StatusOk, map[], None, None, None)]

  const GUARDED := Plan(map["vm" := MACHINE, "archive" := ARCHIVE], ["archive", "vm"], false, false)
  const GATE_FAILS := Turn({}, {}, {}, CALM.(driver := Returned(false)), None)
  const ALL_WELL := Turn({}, {}, {}, CALM, None)

  /** With fail_fast off a gate that fails does not stop the teardown of what it guards. */
  lemma GateIgnoredWithoutFailFast()
    ensures Sound([MACHINE, ARCHIVE]) && GUARDED.steps == ById([MACHINE, ARCHIVE]) && PlanOk(GUARDED)
    ensures GateRequired(GUARDED, ARCHIVE, LIVE_STORE, {})
    ensures var p := Loop(GUARDED, LIVE_STORE, [GATE_FAILS, ALL_WELL], 2);
            && p.results == [Result("archive", Failed, 1, CommandFailed), Result("vm", Succeeded, 0, NoReason)]
            && StatusOf(p.store, "gcp/vm") == Destroyed
  {
    TwoStepsAreSound();
    assert "vm" in ARCHIVE.needs && Live(StatusRead(LIVE_STORE, GUARDED.steps["vm"].slot, {}));
    var turns := [GATE_FAILS, ALL_WELL];
    GateFails();
    hide TakeTurn;
    var p := TakeTurn(GUARDED, Fresh(LIVE_STORE), ARCHIVE, GATE_FAILS);
    assert Loop(GUARDED, LIVE_STORE, turns, 0) == Fresh(LIVE_STORE);
    assert Loop(GUARDED, LIVE_STORE, turns, 1) == p;
    MachineGoes(GUARDED, p);
    assert Loop(GUARDED, LIVE_STORE, turns, 2) == TakeTurn(GUARDED, p, MACHINE, ALL_WELL);
  }

  lemma GateFails()
    requires GateRequired(GUARDED, ARCHIVE, LIVE_STORE, {})
    ensures var p := TakeTurn(GUARDED, Fresh(LIVE_STORE), ARCHIVE, GATE_FAILS);
            p.results == [Result("archive", Failed, 1, CommandFailed)] && !p.halted && p.store == LIVE_STORE && p.buckets == []
  {
    assert CourseOf(GUARDED, ARCHIVE, LIVE_STORE, {}) == Dispatch;
    var c := RunCommand(ARCHIVE, GATE_FAILS, LIVE_STORE);
    assert c.effects == [] && c.rc == 1;
  }

  lemma MachineGoes(plan: Plan, p: Progress)
    requires StatusOf(p.store, "gcp/vm") == StatusOk && p.buckets == [] && !p.halted
    ensures var q := TakeTurn(plan, p, MACHINE, ALL_WELL);
            && q.results == p.results + [Result("vm", Succeeded, 0, NoReason)] && StatusOf(q.store, "gcp/vm") == Destroyed
            && q.required == p.required && q.cancelled == p.cancelled && q.buckets == [] && !q.halted
  {
    DestroyedAtStore(MACHINE, ALL_WELL, p.store);
    var c := RunCommand(MACHINE, ALL_WELL, p.store);
    assert c.rc == 0;
    assert Parked([], "vm") == [];
    var q := p.(store := StoreAfter(p.store, c.effects), effects := p.effects + c.effects);
    var r := AddResult(q, Result("vm", Succeeded, 0, NoReason));
    assert Finish(plan, r, "vm", ALL_WELL) == r.(buckets := Unparked([], "vm"));
  }

  /** With fail_fast on, an unreadable record of what it guards is enough for the gate to be passed over. */
  lemma UnreadableRecordOpensTheGate()
    ensures var plan := GUARDED.(failFast := true);
            var store: Store := map["gcp/vm" := StateRecord(StatusOk, map[], None, None, None)];
            var turns := [Turn({"gcp/vm"}, {}, {}, CALM, None), ALL_WELL];
            && PlanOk(plan) && PassesOver(plan, ARCHIVE, store, {"gcp/vm"})
            && Live(StatusOf(store, "gcp/vm"))
            && Run(plan, store, turns).results == [Result("archive", Skipped, 0, NoState), Result("vm", Succeeded, 0, NoReason)]
            && ExitCode(Run(plan, store, turns)) == 0
            && StatusOf(Run(plan, store, turns).store, "gcp/vm") == Destroyed
  {
    var plan := GUARDED.(failFast := true);
    var store: Store := map["gcp/vm" := StateRecord(StatusOk, map[], None, None, None)];
    var turns := [Turn({"gcp/vm"}, {}, {}, CALM, None), ALL_WELL];
    GateCourse(plan, store, ARCHIVE, {"gcp/vm"});
    hide TakeTurn;
    var p := TakeTurn(plan, Fresh(store), ARCHIVE, turns[0]);
    GateIsPassedOver(plan, store, turns[0]);
    MachineGoes(plan, p);
    assert Loop(plan, store, turns, 0) == Fresh(store);
    assert Loop(plan, store, turns, 1) == p;
    assert Loop(plan, store, turns, 2) == TakeTurn(plan, p, MACHINE, ALL_WELL);
    SweepFailsTheDeferred(plan, store, turns);
  }

  lemma GateIsPassedOver(plan: Plan, store: Store, turn: Turn)
    requires CourseOf(plan, ARCHIVE, store, turn.unreadable) == GoneSkip(Blank)
    ensures TakeTurn(plan, Fresh(store), ARCHIVE, turn) == Fresh(store).(results := [Result("archive", Skipped, 0, NoState)])
  {
  }

  lemma TwoStepsAreSound()
    ensures Sound([MACHINE, ARCHIVE]) && ById([MACHINE, ARCHIVE]) == map["vm" := MACHINE, "archive" := ARCHIVE]
  {
    var steps := [MACHINE, ARCHIVE];
    assert steps[..1] == [MACHINE] && [MACHINE][..0] == [];
    assert ById([MACHINE]) == map["vm" := MACHINE];
    assert ById(steps) == map["vm" := MACHINE]["archive" := ARCHIVE];
    var g := StepGraph(steps);
    assert g == map["vm" := [], "archive" := ["vm"]];
    assert Topological(g, ["vm", "archive"]) by {
      assert ["vm", "archive"][..1] == ["vm"];
    }
    TopologicalImpliesAcyclic(g, ["vm", "archive"]);
  }

  // ----- Skipping -----------------------------------------------------------------------------

  /**
   A step whose slot may hold resources is passed over as "nothing to destroy" exactly when its
   record could not be read at that moment.
   */
  lemma SkipsLiveSlotIffUnreadable(hosts: Hosts, w: World, plan: Plan, s: Step, unreadable: set<Slot>)
    requires Safe(hosts, w) && s.slot in w.holds
    requires !(plan.skipArchive && s.gate) && !s.retain && !GateRequired(plan, s, w.store, unreadable)
    ensures CourseOf(plan, s, w.store, unreadable).GoneSkip? <==> s.slot in unreadable
  {
  }

  function ExitCode(p: Progress): int {
    if p.cancelled then CANCELLED else if p.required == [] then 0 else OPERATOR_ERROR
  }

  /** One unreadable record is enough for a destroy that reports success over a live machine. */
  lemma UnreadableRecordLeaks()
    ensures var plan := Plan(map["vm" := MACHINE], ["vm"], false, true);
            var turns := [Turn({"gcp/vm"}, {}, {}, CALM, None)];
            var w := World(LIVE_STORE, {"gcp/vm"});
            && PlanOk(plan) && Safe(s => {}, w)
            && ExitCode(Run(plan, LIVE_STORE, turns)) == 0
            && Run(plan, LIVE_STORE, turns).results == [Result("vm", Skipped, 0, NoState)]
            && "gcp/vm" in Replay(s => {}, w, Run(plan, LIVE_STORE, turns).effects).holds
            && StatusOf(Run(plan, LIVE_STORE, turns).store, "gcp/vm") == StatusOk
  {
    var plan := Plan(map["vm" := MACHINE], ["vm"], false, true);
    var turns := [Turn({"gcp/vm"}, {}, {}, CALM, None)];
    var p := TakeTurn(plan, Fresh(LIVE_STORE), MACHINE, turns[0]);
    assert Loop(plan, LIVE_STORE, turns, 1) == p;
    SweepFailsTheDeferred(plan, LIVE_STORE, turns);
    assert Run(plan, LIVE_STORE, turns) == p;
  }

  // ----- Return code 0 --------------------------------------------------------------------------

  /** The steps a destroy run may leave standing without calling that a failure. */
  predicate Excused(r: Result) {
    r.status == Retained || r.status == FailedOptional || (r.status == Skipped && r.reason == PreservationSkipped)
  }

  /** The turn took the step for one without a state because its record could not be read. */
  predicate Overlooked(plan: Plan, turn: Turn, r: Result) {
    r.status == Skipped && r.reason == NoState && r.id in plan.steps && plan.steps[r.id].slot in turn.unreadable
  }

  /** What the loop's report and its flags owe the reader. */
  ghost predicate Honest(plan: Plan, turns: seq<Turn>, p: Progress) {
    && |p.results| <= |turns|
    && (p.halted ==> p.cancelled || p.required != [])
    && forall i :: 0 <= i < |p.results| ==> HonestResult(plan, turns[i], p, i)
  }

  ghost predicate HonestResult(plan: Plan, turn: Turn, p: Progress, i: nat)
    requires i < |p.results|
  {
    var r := p.results[i];
    && (r.status == Cancelled ==> p.cancelled)
    && (r.status == Skipped ==> r.reason in {PreservationSkipped, NoState, StateGone})
    && (SaysGone(r) && !Overlooked(plan, turn, r) ==> r.id in plan.steps && Gone(StatusOf(p.store, plan.steps[r.id].slot)))
  }

  lemma TurnStaysHonest(plan: Plan, turns: seq<Turn>, p: Progress, s: Step, q: Progress)
    requires Booked(plan, p) && s.id in plan.steps && plan.steps[s.id] == s && !p.halted
    requires Honest(plan, turns, p) && |p.results| < |turns| && TurnShape(plan, p, s, turns[|p.results|], q)
    ensures Honest(plan, turns, q)
  {
    var n := |p.results|;
    forall i | 0 <= i < n
      ensures HonestResult(plan, turns[i], q, i)
    {
      assert HonestResult(plan, turns[i], p, i);
      if i in Parked(p.buckets, s.id) && Confirmed(q.results[n]) {
        assert ChildDone(plan, p.store, q, s.id, turns[n], i);
      } else {
        assert q.results[i] == p.results[i];
      }
    }
    assert HonestResult(plan, turns[n], q, n);
  }

  lemma {:induction false} LoopIsHonest(plan: Plan, store: Store, turns: seq<Turn>, n: nat)
    requires PlanOk(plan) && |turns| == |plan.order| && n <= |turns|
    ensures Honest(plan, turns, Loop(plan, store, turns, n))
  {
    hide TakeTurn, Booked, TurnShape, InOrder;
    if n > 0 {
      LoopIsHonest(plan, store, turns, n - 1);
      LoopStep(plan, store, turns, n - 1);
      var p, q := Loop(plan, store, turns, n - 1), Loop(plan, store, turns, n);
      if !p.halted {
        TurnStaysHonest(plan, turns, p, plan.steps[plan.order[n - 1]], q);
      }
    }
  }

  /** The step is recorded as gone, and its slot holds nothing at the provider. */
  ghost predicate GoneForGood(store: Store, world: World, s: Step) {
    Gone(StatusOf(store, s.slot)) && s.slot !in world.holds
  }

  /**
   Return code 0 means that every step got its turn and that each one is recorded as gone and
   holds nothing, unless it is openly excused, or was overlooked because its own record could
   not be read at its own turn.
   */
  lemma ZeroMeansGone(hosts: Hosts, w: World, plan: Plan, turns: seq<Turn>)
    requires PlanOk(plan) && |turns| == |plan.order|
    requires HostsAgree(hosts, plan) && Safe(hosts, w)
    requires ExitCode(Run(plan, w.store, turns)) == 0
    ensures var q := Run(plan, w.store, turns);
            && |q.results| == |plan.order|
            && forall i :: 0 <= i < |q.results| ==>
                 var s := plan.steps[plan.order[i]];
                 && q.results[i].id == s.id
                 && (Excused(q.results[i]) || Overlooked(plan, turns[i], q.results[i])
                     || GoneForGood(q.store, Replay(hosts, w, q.effects), s))
  {
    var p, q := Loop(plan, w.store, turns, |turns|), Run(plan, w.store, turns);
    LoopKeeps(plan, w.store, turns, |turns|);
    LoopIsBacked(plan, w.store, turns, |turns|);
    LoopIsHonest(plan, w.store, turns, |turns|);
    SweepFailsTheDeferred(plan, w.store, turns);
    DestroyRunIsCrashSafe(hosts, w, plan, turns);
    TracksNow(hosts, w, q);
    NothingRequired(p, q);
    hide Loop, Run, Booked, HostsAgree, Safe, Tracks, Overlooked;
    forall i | 0 <= i < |q.results|
      ensures q.results[i].id == plan.order[i]
      ensures Excused(q.results[i]) || Overlooked(plan, turns[i], q.results[i])
              || GoneForGood(q.store, Replay(hosts, w, q.effects), plan.steps[plan.order[i]])
    {
      assert plan.order[i] in plan.order;
      OneIsGone(plan, turns, p, q, i);
      GoneHoldsNothing(hosts, w, q, plan.steps[plan.order[i]]);
    }
  }

  lemma OneIsGone(plan: Plan, turns: seq<Turn>, p: Progress, q: Progress, i: nat)
    requires i < |p.results| && |p.results| == |q.results| <= |turns| && p.results[i].id in plan.steps
    requires Backed(plan, turns, p, i) && HonestResult(plan, turns[i], p, i) && SameButResults(p, q)
    requires p.results[i].status != Deferred && q.results[i] == p.results[i]
    requires p.required == [] && !p.cancelled
    ensures Excused(q.results[i]) || Overlooked(plan, turns[i], q.results[i])
            || Gone(StatusOf(q.store, plan.steps[q.results[i].id].slot))
  {
  }

  lemma GoneHoldsNothing(hosts: Hosts, w: World, q: Progress, s: Step)
    requires Safe(hosts, Replay(hosts, w, q.effects)) && Tracks(hosts, w, q)
    ensures Gone(StatusOf(q.store, s.slot)) ==> GoneForGood(q.store, Replay(hosts, w, q.effects), s)
  {
  }

  /**
   With a slot for each step, a run that returns 0 leaves a step that is not excused standing in
   the records exactly if the step was overlooked and its record said that it stood.
   */
  lemma ZeroLeavesStandingIff(plan: Plan, store: Store, turns: seq<Turn>, i: nat)
    requires PlanOk(plan) && |turns| == |plan.order| && OneSlotEach(plan)
    requires ExitCode(Run(plan, store, turns)) == 0 && i < |Run(plan, store, turns).results|
    requires !Excused(Run(plan, store, turns).results[i])
    ensures var q := Run(plan, store, turns);
            i < |plan.order| &&
            var slot := plan.steps[plan.order[i]].slot;
            !Gone(StatusOf(q.store, slot)) <==> Overlooked(plan, turns[i], q.results[i]) && !Gone(StatusOf(store, slot))
  {
    var p, q := Loop(plan, store, turns, |turns|), Run(plan, store, turns);
    LoopKeeps(plan, store, turns, |turns|);
    LoopIsBacked(plan, store, turns, |turns|);
    LoopIsHonest(plan, store, turns, |turns|);
    SweepFailsTheDeferred(plan, store, turns);
    NothingRequired(p, q);
    hide Loop, Run, Booked, OneSlotEach, StatusOf, Gone;
    assert plan.order[i] in plan.order && Backed(plan, turns, p, i);
    OneIsGone(plan, turns, p, q, i);
    if Overlooked(plan, turns[i], p.results[i]) {
      PassedByStays(plan, store, turns, i, |turns|);
    }
  }

  lemma NothingRequired(p: Progress, q: Progress)
    requires SameButResults(p, q)
    ensures p.required != [] ==> q.required != []
  {
    if p.required != [] {
      assert p.required[0] in p.required;
    }
  }

  // ----- "released" -----------------------------------------------------------------------------

  /** `_destroyed_blueprint_cost_cleared` */
  method CostCleared(steps: seq<Step>, store: Store) returns (cleared: bool)
    ensures cleared <==> forall s :: s in steps ==> !s.retain && StatusOf(store, s.slot) in {Destroyed, Absent}
  {
    for i := 0 to |steps|
      invariant forall k :: 0 <= k < i ==> !steps[k].retain && StatusOf(store, steps[k].slot) in {Destroyed, Absent}
    {
      assert steps[i] in steps;
      if steps[i].retain {
        return false;
      }
      var status := StatusOf(store, steps[i].slot);
      if status != Destroyed && status != Absent {
        return false;
      }
    }
    cleared := true;
  }

  /**
   "released" after a destroy run, itself unharmed by any unreadable record during the run, is
   only said when no step's slot may still hold resources.
   */
  lemma ReleasedMeansEmpty(hosts: Hosts, w: World, plan: Plan, turns: seq<Turn>, steps: seq<Step>)
    requires PlanOk(plan) && |turns| == |plan.order|
    requires HostsAgree(hosts, plan) && Safe(hosts, w)
    requires forall s :: s in steps ==> StatusOf(Run(plan, w.store, turns).store, s.slot) in {Destroyed, Absent}
    ensures forall s :: s in steps ==> s.slot !in Replay(hosts, w, Run(plan, w.store, turns).effects).holds
  {
    DestroyRunIsCrashSafe(hosts, w, plan, turns);
    TracksNow(hosts, w, Run(plan, w.store, turns));
  }
}
