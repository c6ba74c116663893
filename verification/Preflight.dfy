/**
 Planning a deployment: which steps look ready, given only the store and the states that
 earlier steps of the same plan are expected to reach.
 */
module Preflight {
  import opened Graphs
  import opened Ordering
  import opened Blueprint
  import opened ModuleState
  import opened Authority

  datatype StepStatus = Ready | Skipped | Blocked | Deferred

  /** What a live verification of an existing state answers; an exception counts as trouble. */
  datatype Live = LiveSafe | LiveDrift | LiveTrouble

  /** What the outside world answers while one step is planned. */
  datatype Checks = Checks(
    unreadable: set<Slot>,
    inputsWritten: bool,
    inputsChanged: bool,
    live: Live,
    provider: Provider,
    resolves: bool,
    envPresent: bool,
    driverOk: bool)

  /** `begin_step_contracts`: every required state is planned or recorded ok, and any authority admits. */
  predicate ContractsHold(s: Step, store: Store, unreadable: set<Slot>, assumed: set<Slot>, provider: Provider,
        policy: Option<OnUnverifiable>) {
    && (forall ref :: ref in s.requiredOk ==> ref in assumed || StatusRead(store, ref, unreadable) == StatusOk)
    && (s.authority ==> Begin(provider, policy).Some?)
  }

  /** An existing state may be skipped, subject to verification if the step asks for one. */
  predicate MaySkip(s: Step, store: Store, unreadable: set<Slot>, inputsChanged: bool) {
    s.skipIfOk && Mutates(s) && StatusRead(store, s.slot, unreadable) == StatusOk && !inputsChanged
  }

  function Verification(s: Step, live: Live): Live {
    if s.verifyOnSkip then live else LiveSafe
  }

  /** Everything that stands between a step and its command, a skip apart, is in order. */
  predicate Runnable(s: Step, store: Store, c: Checks, assumed: set<Slot>, deferDriver: bool) {
    && ContractsHold(s, store, c.unreadable, assumed, c.provider, None)
    && c.resolves && c.envPresent && (c.driverOk || deferDriver)
  }

  /**
   `preflight_step`: skipped means that an ok state stands, verified if the step asks for it; ready
   means that nothing stands in the way of running it again or for the first time.
   */
  function PlanStep(s: Step, store: Store, c: Checks, assumed: set<Slot>, deferDriver: bool): (r: StepStatus)
    ensures r != Deferred
    ensures r == Skipped <==>
              c.inputsWritten && MaySkip(s, store, c.unreadable, c.inputsChanged) && (s.verifyOnSkip ==> c.live == LiveSafe)
    ensures r == Skipped ==> StatusOf(store, s.slot) == StatusOk
    ensures r == Ready <==>
              && c.inputsWritten && Runnable(s, store, c, assumed, deferDriver)
              && (MaySkip(s, store, c.unreadable, c.inputsChanged) ==> s.verifyOnSkip && c.live.LiveDrift?)
  {
    if !c.inputsWritten then Blocked
    else
      var skip := MaySkip(s, store, c.unreadable, c.inputsChanged);
      if skip && Verification(s, c.live) == LiveSafe then Skipped
      else if skip && Verification(s, c.live) == LiveTrouble then Blocked
      else if !ContractsHold(s, store, c.unreadable, assumed, c.provider, None) then Blocked
      else if !c.resolves || !c.envPresent then Blocked
      else if deferDriver || c.driverOk then Ready
      else Blocked
  }

  // ----- The report ---------------------------------------------------------------------------

  predicate Planned(s: Step, status: StepStatus) {
    !s.optional && Mutates(s) && (status == Ready || status == Skipped)
  }

  ghost predicate InStep(steps: map<Id, Step>, order: seq<Id>, statuses: seq<StepStatus>) {
    |statuses| <= |order| && forall a :: a in order ==> a in steps && steps[a].id == a
  }

  /** The states the first n steps are expected to reach. */
  ghost function Assumed(steps: map<Id, Step>, order: seq<Id>, statuses: seq<StepStatus>, n: nat): set<Slot>
    requires InStep(steps, order, statuses) && n <= |statuses|
  {
    set i | 0 <= i < n && Planned(steps[order[i]], statuses[i]) :: steps[order[i]].slot
  }

  ghost predicate HasStatus(order: seq<Id>, statuses: seq<StepStatus>, n: nat, a: Id, status: StepStatus)
    requires |statuses| <= |order| && n <= |statuses|
  {
    exists i :: 0 <= i < n && order[i] == a && statuses[i] == status
  }

  /** Driver checks wait for a direct requirement that this plan still has to build. */
  ghost predicate DefersDriver(steps: map<Id, Step>, order: seq<Id>, statuses: seq<StepStatus>, i: nat)
    requires InStep(steps, order, statuses) && i <= |statuses| && i < |order|
  {
    exists b :: b in steps[order[i]].needs && b in steps
                && steps[b].slot in Assumed(steps, order, statuses, i) && HasStatus(order, statuses, i, b, Ready)
  }

  ghost predicate Held(steps: map<Id, Step>, order: seq<Id>, statuses: seq<StepStatus>, i: nat)
    requires InStep(steps, order, statuses) && i <= |statuses| && i < |order|
  {
    exists b :: b in steps[order[i]].needs
                && (HasStatus(order, statuses, i, b, Blocked) || HasStatus(order, statuses, i, b, Deferred))
  }

  /** The i-th entry of a report follows from the ones before it. */
  ghost predicate Follows(steps: map<Id, Step>, order: seq<Id>, store: Store, checks: seq<Checks>,
        statuses: seq<StepStatus>, i: nat)
    requires InStep(steps, order, statuses) && i < |statuses| <= |checks|
  {
    if Held(steps, order, statuses, i) then statuses[i] == Deferred
    else statuses[i] == PlanStep(steps[order[i]], store, checks[i], Assumed(steps, order, statuses, i), DefersDriver(steps, order, statuses, i))
  }

  /** The blocked steps among the first n, optional or not as asked, in order. */
  ghost function BlockedIds(steps: map<Id, Step>, order: seq<Id>, statuses: seq<StepStatus>, n: nat,
        optional: bool): seq<Id>
    requires InStep(steps, order, statuses) && n <= |statuses|
  {
    if n == 0 then []
    else
      var front := BlockedIds(steps, order, statuses, n - 1, optional);
      if statuses[n - 1] == Blocked && steps[order[n - 1]].optional == optional then front + [order[n - 1]] else front
  }

  /** What a longer report says about the steps before n is what the shorter one said. */
  lemma EarlierUnaffected(steps: map<Id, Step>, order: seq<Id>, statuses: seq<StepStatus>, last: StepStatus, n: nat)
    requires InStep(steps, order, statuses + [last]) && n <= |statuses| && n < |order|
    ensures var more := statuses + [last];
            && Assumed(steps, order, more, n) == Assumed(steps, order, statuses, n)
            && (forall b, status :: HasStatus(order, more, n, b, status) <==> HasStatus(order, statuses, n, b, status))
            && (Held(steps, order, more, n) <==> Held(steps, order, statuses, n))
            && (DefersDriver(steps, order, more, n) <==> DefersDriver(steps, order, statuses, n))
  {
    var more := statuses + [last];
    assert Assumed(steps, order, more, n) == Assumed(steps, order, statuses, n);
    forall b, status
      ensures HasStatus(order, more, n, b, status) <==> HasStatus(order, statuses, n, b, status)
    {
    }
  }

  lemma {:induction false} BlockedIdsGrow(steps: map<Id, Step>, order: seq<Id>, statuses: seq<StepStatus>,
        last: StepStatus, n: nat, optional: bool)
    requires InStep(steps, order, statuses + [last]) && n <= |statuses|
    ensures BlockedIds(steps, order, statuses + [last], n, optional) == BlockedIds(steps, order, statuses, n, optional)
  {
    if n > 0 {
      BlockedIdsGrow(steps, order, statuses, last, n - 1, optional);
    }
  }

  datatype Report = Report(statuses: seq<StepStatus>, required: seq<Id>, optional: seq<Id>)

  ghost predicate Faithful(steps: map<Id, Step>, order: seq<Id>, store: Store, checks: seq<Checks>, r: Report) {
    && InStep(steps, order, r.statuses) && |r.statuses| <= |checks|
    && (forall i :: 0 <= i < |r.statuses| ==> Follows(steps, order, store, checks, r.statuses, i))
    && r.required == BlockedIds(steps, order, r.statuses, |r.statuses|, false)
    && r.optional == BlockedIds(steps, order, r.statuses, |r.statuses|, true)
  }

  /** One more entry that follows from the report so far. */
  lemma EntryKeepsFaithful(steps: map<Id, Step>, order: seq<Id>, store: Store, checks: seq<Checks>, r: Report,
        last: StepStatus)
    requires Faithful(steps, order, store, checks, r) && |r.statuses| < |order| && |checks| == |order|
    requires var i := |r.statuses|;
             last == if Held(steps, order, r.statuses, i) then Deferred
                     else PlanStep(steps[order[i]], store, checks[i], Assumed(steps, order, r.statuses, i), DefersDriver(steps, order, r.statuses, i))
    ensures var a := order[|r.statuses|];
            Faithful(steps, order, store, checks, Report(r.statuses + [last],
              if last == Blocked && !steps[a].optional then r.required + [a] else r.required,
              if last == Blocked && steps[a].optional then r.optional + [a] else r.optional))
  {
    hide PlanStep, Held, DefersDriver, Assumed, HasStatus;
    var n := |r.statuses|;
    var more := r.statuses + [last];
    forall i | 0 <= i < |more|
      ensures Follows(steps, order, store, checks, more, i)
    {
      EarlierUnaffected(steps, order, r.statuses, last, i);
      if i < n {
        assert Follows(steps, order, store, checks, r.statuses, i);
      }
    }
    BlockedIdsGrow(steps, order, r.statuses, last, n, false);
    BlockedIdsGrow(steps, order, r.statuses, last, n, true);
  }

  lemma AssumedGrows(steps: map<Id, Step>, order: seq<Id>, statuses: seq<StepStatus>, last: StepStatus)
    requires InStep(steps, order, statuses + [last])
    ensures var n := |statuses|;
            Assumed(steps, order, statuses + [last], n + 1) ==
              Assumed(steps, order, statuses, n) + if Planned(steps[order[n]], last) then {steps[order[n]].slot} else {}
  {
    var n := |statuses|;
    var more := statuses + [last];
    forall slot
      ensures slot in Assumed(steps, order, more, n + 1) <==>
              slot in Assumed(steps, order, statuses, n) || (Planned(steps[order[n]], last) && slot == steps[order[n]].slot)
    {
      if slot in Assumed(steps, order, statuses, n) {
        var i :| 0 <= i < n && Planned(steps[order[i]], statuses[i]) && steps[order[i]].slot == slot;
        assert Planned(steps[order[i]], more[i]);
      }
      if Planned(steps[order[n]], last) {
        assert Planned(steps[order[n]], more[n]);
      }
    }
  }

  lemma StatusesGrow(order: seq<Id>, statuses: seq<StepStatus>, last: StepStatus, a: Id, status: StepStatus)
    requires |statuses| < |order| && NoDuplicates(order)
    ensures HasStatus(order, statuses + [last], |statuses| + 1, a, status) <==>
            if a == order[|statuses|] then status == last else HasStatus(order, statuses, |statuses|, a, status)
  {
    var more := statuses + [last];
    if HasStatus(order, statuses, |statuses|, a, status) {
      var i :| 0 <= i < |statuses| && order[i] == a && statuses[i] == status;
      assert more[i] == status;
    }
    if a == order[|statuses|] && status == last {
      assert more[|statuses|] == status;
    }
  }

  /**
   What planning hands back: the report on the steps, or a single blocked entry, a required
   failure under the name of the controller, when the controller lacks its collections.
   */
  datatype Preflighted = ControllerBlocked | Reported(report: Report)

  /** Linux platform steps are configured from the controller. */
  predicate NeedsController(steps: map<Id, Step>) {
    exists a :: a in steps && "platform/linux/" <= steps[a].slot
  }

  lemma LinuxNeedsController(steps: map<Id, Step>)
    ensures NeedsController(steps) <==> exists a :: a in steps && |steps[a].slot| >= 15 && steps[a].slot[..15] == "platform/linux/"
  {
    assert forall a :: a in steps ==> ("platform/linux/" <= steps[a].slot <==> |steps[a].slot| >= 15 && steps[a].slot[..15] == "platform/linux/");
  }

  /** `compute_preflight`; `collections` says whether the controller has what it needs. */
  method ComputePreflight(steps: map<Id, Step>, order: seq<Id>, store: Store, collections: bool, checks: seq<Checks>)
    returns (p: Preflighted)
    requires (forall a :: a in order ==> a in steps && steps[a].id == a) && NoDuplicates(order) && |checks| == |order|
    ensures p.ControllerBlocked? <==> !collections && exists a :: a in steps && |steps[a].slot| >= 15 && steps[a].slot[..15] == "platform/linux/"
    ensures p.Reported? ==> |p.report.statuses| == |order| && Faithful(steps, order, store, checks, p.report)
  {
    hide Faithful, Follows, PlanStep, Assumed, HasStatus;
    LinuxNeedsController(steps);
    if NeedsController(steps) {
      if !collections {
        return ControllerBlocked;
      }
    }
    var assumed: set<Slot> := {};
    var statusById: map<Id, StepStatus> := map[];
    var r := Report([], [], []);
    StartsFaithful(steps, order, store, checks);
    for i := 0 to |order|
      invariant |r.statuses| == i && Faithful(steps, order, store, checks, r)
      invariant assumed == Assumed(steps, order, r.statuses, i)
      invariant Indexes(statusById, order, r.statuses)
    {
      var s := steps[order[i]];
      var held := exists b :: b in s.needs && b in statusById && statusById[b] in {Blocked, Deferred};
      var status: StepStatus;
      if held {
        status := Deferred;
      } else {
        var deferDriver := exists b :: b in s.needs && b in steps && steps[b].slot in assumed && b in statusById && statusById[b] == Ready;
        status := PlanStep(s, store, checks[i], assumed, deferDriver);
      }
      AssumedGrows(steps, order, r.statuses, status);
      EntryKeepsFaithful(steps, order, store, checks, r, status);
      IndexGrows(statusById, order, r.statuses, status);
      r := r.(statuses := r.statuses + [status]);
      statusById := statusById[s.id := status];
      if status == Blocked {
        if s.optional {
          r := r.(optional := r.optional + [s.id]);
        } else {
          r := r.(required := r.required + [s.id]);
        }
        continue;
      }
      if Planned(s, status) {
        assumed := assumed + {s.slot};
      }
    }
    p := Reported(r);
  }

  lemma StartsFaithful(steps: map<Id, Step>, order: seq<Id>, store: Store, checks: seq<Checks>)
    requires forall a :: a in order ==> a in steps && steps[a].id == a
    ensures Faithful(steps, order, store, checks, Report([], [], []))
    ensures Assumed(steps, order, [], 0) == {} && Indexes(map[], order, [])
  {
  }

  /** `step_status_by_id` is an index of the report so far. */
  ghost predicate Indexes(statusById: map<Id, StepStatus>, order: seq<Id>, statuses: seq<StepStatus>) {
    |statuses| <= |order|
    && forall a, status :: (a in statusById && statusById[a] == status) <==> HasStatus(order, statuses, |statuses|, a, status)
  }

  lemma IndexGrows(statusById: map<Id, StepStatus>, order: seq<Id>, statuses: seq<StepStatus>, last: StepStatus)
    requires |statuses| < |order| && NoDuplicates(order) && Indexes(statusById, order, statuses)
    ensures Indexes(statusById[order[|statuses|] := last], order, statuses + [last])
  {
    hide HasStatus;
    var more, index := statuses + [last], statusById[order[|statuses|] := last];
    forall a, status
      ensures (a in index && index[a] == status) <==> HasStatus(order, more, |more|, a, status)
    {
      StatusesGrow(order, statuses, last, a, status);
    }
  }

  // ----- What a report means ------------------------------------------------------------------

  /** Some requirement that a reaches is blocked. */
  ghost predicate BlockedBelow(g: Graph, order: seq<Id>, statuses: seq<StepStatus>, a: Id)
    requires |statuses| <= |order|
  {
    exists b :: Reaches(g, a, b) && HasStatus(order, statuses, |statuses|, b, Blocked)
  }

  /**
   A step is deferred exactly when something it needs, directly or through others, is blocked.
   */
  lemma DeferredIffBlockedBelow(steps: seq<Step>, order: seq<Id>, store: Store, checks: seq<Checks>, r: Report, i: nat)
    requires Payload(steps, order) && Faithful(ById(steps), order, store, checks, r)
    requires |r.statuses| == |order| && i < |order|
    ensures r.statuses[i] == Deferred <==> BlockedBelow(StepGraph(steps), order, r.statuses, order[i])
  {
    hide Acyclic, PlanStep, Sound;
    if r.statuses[i] == Deferred {
      DeferredHasCause(steps, order, store, checks, r, i);
    }
    if BlockedBelow(StepGraph(steps), order, r.statuses, order[i]) {
      var b :| Reaches(StepGraph(steps), order[i], b) && HasStatus(order, r.statuses, |order|, b, Blocked);
      var p :| WalkFromTo(StepGraph(steps), p, order[i], b);
      BlockSpreads(steps, order, store, checks, r, p, i);
    }
  }

  lemma DeferredIsHeld(steps: map<Id, Step>, order: seq<Id>, store: Store, checks: seq<Checks>, r: Report, i: nat)
    returns (b: Id, j: nat)
    requires Faithful(steps, order, store, checks, r) && |r.statuses| == |order| && i < |order| && r.statuses[i] == Deferred
    ensures b in steps[order[i]].needs && j < i && order[j] == b && r.statuses[j] in {Blocked, Deferred}
  {
    hide PlanStep;
    assert Follows(steps, order, store, checks, r.statuses, i);
    b, j :| b in steps[order[i]].needs && 0 <= j < i && order[j] == b && r.statuses[j] in {Blocked, Deferred};
  }

  lemma {:induction false} DeferredHasCause(steps: seq<Step>, order: seq<Id>, store: Store, checks: seq<Checks>,
        r: Report, i: nat)
    requires Payload(steps, order) && Faithful(ById(steps), order, store, checks, r)
    requires |r.statuses| == |order| && i < |order| && r.statuses[i] == Deferred
    ensures BlockedBelow(StepGraph(steps), order, r.statuses, order[i])
    decreases i
  {
    hide Acyclic, PlanStep, Sound, Follows, Reaches;
    var g := StepGraph(steps);
    var b, j := DeferredIsHeld(ById(steps), order, store, checks, r, i);
    assert Edge(g, order[i], b);
    ReachesByEdge(g, order[i], b);
    if r.statuses[j] == Deferred {
      DeferredHasCause(steps, order, store, checks, r, j);
      var c :| Reaches(g, b, c) && HasStatus(order, r.statuses, |order|, c, Blocked);
      ReachesTransitive(g, order[i], b, c);
    }
  }

  lemma HeldIsDeferred(steps: map<Id, Step>, order: seq<Id>, store: Store, checks: seq<Checks>, r: Report,
        i: nat, j: nat)
    requires Faithful(steps, order, store, checks, r) && j < i < |r.statuses|
    requires order[j] in steps[order[i]].needs && r.statuses[j] in {Blocked, Deferred}
    ensures r.statuses[i] == Deferred
  {
    hide PlanStep;
    assert Follows(steps, order, store, checks, r.statuses, i);
    assert HasStatus(order, r.statuses, i, order[j], r.statuses[j]);
  }

  /** In a topological order a walk's second node comes before its first. */
  lemma FirstStepBack(steps: seq<Step>, order: seq<Id>, p: seq<Id>, i: nat) returns (j: nat)
    requires Payload(steps, order) && i < |order| && Walk(StepGraph(steps), p) && |p| >= 2 && p[0] == order[i]
    ensures j < i && order[j] == p[1] && p[1] in ById(steps)[order[i]].needs
  {
    assert Edge(StepGraph(steps), order[i], p[1]);
    ReachesByEdge(StepGraph(steps), order[i], p[1]);
    j :| 0 <= j < i && order[j] == p[1];
  }

  lemma {:induction false} BlockSpreads(steps: seq<Step>, order: seq<Id>, store: Store, checks: seq<Checks>,
        r: Report, p: seq<Id>, i: nat)
    requires Payload(steps, order) && Faithful(ById(steps), order, store, checks, r)
    requires |r.statuses| == |order| && i < |order|
    requires Walk(StepGraph(steps), p) && |p| >= 2 && p[0] == order[i] && HasStatus(order, r.statuses, |order|, p[|p| - 1], Blocked)
    ensures r.statuses[i] == Deferred
    decreases |p|
  {
    hide Acyclic, PlanStep, Sound, Follows, ExecutionOrder;
    var j := FirstStepBack(steps, order, p, i);
    if |p| > 2 {
      BlockSpreads(steps, order, store, checks, r, p[1..], j);
    } else {
      var k :| 0 <= k < |order| && order[k] == p[1] && r.statuses[k] == Blocked;
      SamePlace(steps, order, j, k);
    }
    HeldIsDeferred(ById(steps), order, store, checks, r, i, j);
  }

  lemma SamePlace(steps: seq<Step>, order: seq<Id>, j: nat, k: nat)
    requires Payload(steps, order) && j < |order| && k < |order| && order[j] == order[k]
    ensures j == k
  {
  }

  /** The failure lists name exactly the blocked steps, each once, split by what the step declares. */
  lemma {:induction false} BlockedIdsExact(steps: map<Id, Step>, order: seq<Id>, statuses: seq<StepStatus>,
        n: nat, optional: bool)
    requires InStep(steps, order, statuses) && NoDuplicates(order) && n <= |statuses|
    ensures var ids := BlockedIds(steps, order, statuses, n, optional);
            && NoDuplicates(ids)
            && forall a :: a in ids <==> HasStatus(order, statuses, n, a, Blocked) && a in steps && steps[a].optional == optional
  {
    if n > 0 {
      BlockedIdsExact(steps, order, statuses, n - 1, optional);
      var front := BlockedIds(steps, order, statuses, n - 1, optional);
      forall a
        ensures HasStatus(order, statuses, n, a, Blocked) <==>
                HasStatus(order, statuses, n - 1, a, Blocked) || (a == order[n - 1] && statuses[n - 1] == Blocked)
      {
      }
      assert order[n - 1] !in front;
    }
  }

  /**
   No required failure means every required step is planned, or waits for an optional one: a
   deployment may start with nothing required standing blocked.
   */
  lemma ClearMeansPlanned(steps: seq<Step>, order: seq<Id>, store: Store, checks: seq<Checks>, r: Report, i: nat)
    requires Payload(steps, order) && Faithful(ById(steps), order, store, checks, r)
    requires |r.statuses| == |order| && i < |order| && r.required == []
    requires !ById(steps)[order[i]].optional && r.statuses[i] !in {Ready, Skipped}
    ensures exists b :: Reaches(StepGraph(steps), order[i], b) && HasStatus(order, r.statuses, |order|, b, Blocked)
                        && b in ById(steps) && ById(steps)[b].optional
  {
    hide Acyclic, PlanStep, Sound;
    var m := ById(steps);
    BlockedIdsExact(m, order, r.statuses, |order|, false);
    DeferredHasCause(steps, order, store, checks, r, i);
    var b :| Reaches(StepGraph(steps), order[i], b) && HasStatus(order, r.statuses, |order|, b, Blocked);
    assert b in order;
    assert b !in r.required;
  }
}
