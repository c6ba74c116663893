/**
 The destroy run as the code performs it: result objects that sit in `step_results` and in
 `deferred_by_parent` at once, and are rewritten in place when their parent is settled.
 */
module DestroyLoop {
  import opened Ordering
  import opened Blueprint
  import opened ModuleState
  import opened SingleRun
  import opened Teardown
  import opened TeardownRun

  class StepResult {
    const id: Id
    var status: ResultStatus
    var rc: int
    var reason: Reason

    ghost function Value(): Result
      reads this
    {
      Result(id, status, rc, reason)
    }

    constructor (id: Id, status: ResultStatus, rc: int, reason: Reason)
      ensures Value() == Result(id, status, rc, reason)
    {
      this.id, this.status, this.rc, this.reason := id, status, rc, reason;
    }

    /** `child_result.update(...)` */
    method Update(status: ResultStatus, rc: int, reason: Reason)
      modifies this
      ensures Value() == Result(id, status, rc, reason)
    {
      this.status, this.rc, this.reason := status, rc, reason;
    }
  }

  /** `by_id`, as the comprehension builds it. */
  ghost predicate Keyed(plan: Plan) {
    && (forall a :: a in plan.steps ==> plan.steps[a].id == a)
    && (forall a :: a in plan.order ==> a in plan.steps)
  }

  datatype Child = Child(step: Step, result: StepResult)
  datatype Pending = Pending(parent: Id, children: seq<Child>)

  /** The variables that the step loop shares with the nested `finish_subsumed_steps`. */
  class DestroyRun {
    const plan: Plan
    const machine: Machine
    ghost const base: seq<Effect>
    var stepResults: seq<StepResult>
    var deferredByParent: seq<Pending>
    var requiredFailures: seq<Id>
    var optionalFailures: seq<Id>
    var cancelled: bool
    var halted: bool
    /** The same state as a value. */
    ghost var now: Progress

    ghost predicate Valid()
      reads this, machine, stepResults
    {
      && Keyed(plan)
      && machine.Valid() && now.store == machine.store && machine.trace == base + now.effects
      && now.required == requiredFailures && now.optional == optionalFailures
      && now.cancelled == cancelled && now.halted == halted
      && Shows(now.results)
      && PendingMirrors(now.buckets)
    }

    /** The result objects are distinct and hold exactly these values. */
    ghost predicate Shows(results: seq<Result>)
      reads `stepResults, stepResults
    {
      && |stepResults| == |results|
      && (forall i :: 0 <= i < |stepResults| ==> stepResults[i].Value() == results[i] && results[i].id in plan.steps)
      && (forall i, j :: 0 <= i < j < |stepResults| ==> stepResults[i] != stepResults[j])
    }

    ghost predicate PendingMirrors(buckets: seq<Bucket>)
      reads `stepResults, `deferredByParent
    {
      && |deferredByParent| == |buckets|
      && forall k :: 0 <= k < |deferredByParent| ==> Mirrors(deferredByParent[k], buckets[k])
    }

    /** A pending entry refers to the very result objects whose positions the bucket lists. */
    ghost predicate Mirrors(pending: Pending, bucket: Bucket)
      reads `stepResults
    {
      pending.parent == bucket.parent && MirrorsAll(pending.children, bucket.members)
    }

    ghost predicate MirrorsAll(children: seq<Child>, members: seq<nat>)
      reads `stepResults
    {
      && |children| == |members|
      && forall j :: 0 <= j < |children| ==>
           && members[j] < |stepResults| && children[j].result == stepResults[members[j]]
           && children[j].result.id in plan.steps && children[j].step == plan.steps[children[j].result.id]
    }

    constructor (plan: Plan, machine: Machine)
      requires Keyed(plan) && machine.Valid()
      ensures Valid() && now == Fresh(machine.store) && this.plan == plan && this.machine == machine
      ensures base == machine.trace && stepResults == []
    {
      this.plan, this.machine, base := plan, machine, machine.trace;
      stepResults, deferredByParent := [], [];
      requiredFailures, optionalFailures := [], [];
      cancelled, halted := false, false;
      now := Fresh(machine.store);
    }

    /** `step_results.append(result)` */
    method Append(id: Id, status: ResultStatus, rc: int, reason: Reason) returns (result: StepResult)
      requires Valid() && id in plan.steps
      modifies this`stepResults, this`now
      ensures Valid() && now == AddResult(old(now), Result(id, status, rc, reason))
      ensures fresh(result) && stepResults == old(stepResults) + [result] && result.id == id
    {
      result := new StepResult(id, status, rc, reason);
      stepResults := stepResults + [result];
      now := AddResult(now, Result(id, status, rc, reason));
      assert forall k :: 0 <= k < |deferredByParent| ==> Mirrors(deferredByParent[k], now.buckets[k]);
    }

    /** Rewriting one result object is seen in `step_results` at its position, and only there. */
    method Rewrite(result: StepResult, status: ResultStatus, rc: int, reason: Reason, ghost i: nat)
      requires Valid() && i < |stepResults| && result == stepResults[i]
      modifies this`now, stepResults[i]
      ensures Valid() && now == old(now).(results := old(now).results[i := Result(result.id, status, rc, reason)])
    {
      hide PendingMirrors;
      result.Update(status, rc, reason);
      now := now.(results := now.results[i := Result(result.id, status, rc, reason)]);
    }

    method FailChild(child: Child, reason: Reason, ghost i: nat)
      requires Valid() && i < |stepResults| && child.result == stepResults[i]
      requires child.step == plan.steps[child.result.id]
      modifies this`requiredFailures, this`now, stepResults[i]
      ensures Valid()
      ensures now == old(now).(results := old(now).results[i := Result(child.result.id, Failed, OPERATOR_ERROR, reason)],
                               required := old(now).required + [child.result.id])
    {
      hide PendingMirrors;
      Rewrite(child.result, Failed, OPERATOR_ERROR, reason, i);
      requiredFailures := requiredFailures + [child.step.id];
      now := now.(required := requiredFailures);
    }

    method WriteOff(slot: Slot, parent: Id)
      requires Valid()
      modifies this`now, machine
      ensures Valid() && now == old(now).(store := old(now).store[slot := SubsumedRecord(parent)],
                                          effects := old(now).effects + [Write(slot, SubsumedRecord(parent))])
    {
      hide PendingMirrors, Shows;
      machine.WriteState(slot, SubsumedRecord(parent));
      now := now.(store := machine.store, effects := now.effects + [Write(slot, SubsumedRecord(parent))]);
    }

    /** One child of the popped list: write its record off, and its result with it. */
    method FinishChild(parent: Id, child: Child, turn: Turn, ghost i: nat)
      requires Valid() && i < |stepResults| && child.result == stepResults[i]
      requires child.step == plan.steps[child.result.id]
      modifies this`requiredFailures, this`now, machine, stepResults[i]
      ensures Valid() && now == FinishOne(plan, old(now), parent, i, turn)
    {
      hide PendingMirrors;
      var slot := child.step.slot;
      if slot in machine.store && slot in turn.unreadable {
        FailChild(child, ChildUnreadable, i);
      } else if slot in turn.unwritable {
        FailChild(child, ChildUnwritable, i);
      } else {
        WriteOff(slot, parent);
        if slot in turn.torn {
          FailChild(child, ChildUnwritable, i);
        } else {
          Rewrite(child.result, Subsumed, 0, WithParent(parent), i);
        }
      }
    }

    /** Position of the entry that `pop(parent)` takes out, or the length when there is none. */
    method FindPending(parent: Id) returns (k: nat)
      requires Valid()
      ensures k <= |deferredByParent|
      ensures k < |deferredByParent| ==> deferredByParent[k].parent == parent
                                         && Parked(now.buckets, parent) == now.buckets[k].members
                                         && Unparked(now.buckets, parent) == now.buckets[..k] + now.buckets[k + 1..]
      ensures k == |deferredByParent| ==> Parked(now.buckets, parent) == [] && Unparked(now.buckets, parent) == now.buckets
      ensures forall j :: 0 <= j < k ==> now.buckets[j].parent != parent
    {
      k := 0;
      while k < |deferredByParent| && deferredByParent[k].parent != parent
        invariant 0 <= k <= |deferredByParent|
        invariant forall j :: 0 <= j < k ==> now.buckets[j].parent != parent
      {
        assert Mirrors(deferredByParent[k], now.buckets[k]);
        k := k + 1;
      }
      if k < |deferredByParent| {
        assert Mirrors(deferredByParent[k], now.buckets[k]);
      }
      PopAt(now.buckets, parent, k);
    }

    /** `deferred_by_parent.pop(parent_id, [])` */
    method PopPending(parent: Id) returns (children: seq<Child>)
      requires Valid()
      modifies this`deferredByParent, this`now
      ensures Valid() && now == old(now).(buckets := Unparked(old(now).buckets, parent))
      ensures MirrorsAll(children, Parked(old(now).buckets, parent))
    {
      hide Shows, Keyed, Park, Parked;
      var k := FindPending(parent);
      children := [];
      if k < |deferredByParent| {
        assert Mirrors(deferredByParent[k], now.buckets[k]);
        children := deferredByParent[k].children;
        deferredByParent := deferredByParent[..k] + deferredByParent[k + 1..];
      }
      now := now.(buckets := Unparked(now.buckets, parent));
    }

    /** `finish_subsumed_steps` and the extension of `required_failures` by what it returns. */
    method FinishSubsumed(parent: Id, turn: Turn)
      requires Valid()
      modifies this`deferredByParent, this`requiredFailures, this`now, machine, stepResults
      ensures Valid() && now == Finish(plan, old(now), parent, turn)
    {
      hide FinishMembers, FinishOne, PendingMirrors, Keyed, Parked;
      ghost var members := Parked(now.buckets, parent);
      var children := PopPending(parent);
      ghost var popped := now;
      assert MembersOk(plan, popped.results, members);
      var c := 0;
      NoMembers(plan, popped, parent, turn);
      assert members[..0] == [];
      while c < |children|
        invariant 0 <= c <= |children| == |members|
        invariant Valid() && MirrorsAll(children, members) && MembersOk(plan, popped.results, members)
        invariant now == FinishMembers(plan, popped, parent, members[..c], turn)
        invariant stepResults == old(stepResults)
      {
        NextMember(plan, popped, parent, members, c, turn);
        FinishChild(parent, children[c], turn, members[c]);
        c := c + 1;
      }
      assert members[..c] == members;
    }
  
    /** `deferred_by_parent.setdefault(parent, []).append((step, result))` */
    method Defer(s: Step, parent: Id)
      requires Valid() && s.id in plan.steps && plan.steps[s.id] == s
      modifies this`stepResults, this`deferredByParent, this`now
      ensures Valid() && Extends(old(stepResults))
      ensures now == AddResult(old(now), Result(s.id, Deferred, 0, WithParent(parent))).(buckets := Park(old(now).buckets, parent, |old(now).results|))
    {
      ghost var n := |stepResults|;
      var result := Append(s.id, Deferred, 0, WithParent(parent));
      Enlist(parent, Child(s, result), n);
    }

    method Enlist(parent: Id, child: Child, ghost n: nat)
      requires Valid() && MirrorsAll([child], [n])
      modifies this`deferredByParent, this`now
      ensures Valid() && now == old(now).(buckets := Park(old(now).buckets, parent, n))
    {
      hide Shows, Keyed, Park, PendingMirrors, MirrorsAll;
      var k := FindPending(parent);
      SameParents();
      ParkAt(now.buckets, parent, n, k);
      if k < |deferredByParent| {
        AddTo(k, child, n);
      } else {
        StartList(parent, child, n);
      }
    }

    method AddTo(k: nat, child: Child, ghost n: nat)
      requires Valid() && MirrorsAll([child], [n]) && k < |deferredByParent| == |now.buckets|
      modifies this`deferredByParent, this`now
      ensures Valid()
      ensures now == old(now).(buckets := old(now).buckets[k := Bucket(old(now).buckets[k].parent, old(now).buckets[k].members + [n])])
    {
      hide Shows, Keyed;
      var pending := deferredByParent[k];
      ghost var bucket := now.buckets[k];
      MirrorOf(k);
      deferredByParent := deferredByParent[k := Pending(pending.parent, pending.children + [child])];
      now := now.(buckets := now.buckets[k := Bucket(bucket.parent, bucket.members + [n])]);
    }

    method StartList(parent: Id, child: Child, ghost n: nat)
      requires Valid() && MirrorsAll([child], [n])
      modifies this`deferredByParent, this`now
      ensures Valid() && now == old(now).(buckets := old(now).buckets + [Bucket(parent, [n])])
    {
      hide Shows, Keyed, MirrorsAll;
      deferredByParent := deferredByParent + [Pending(parent, [child])];
      now := now.(buckets := now.buckets + [Bucket(parent, [n])]);
    }

    /** `run_step_module_command` with the destroy action, and what it raises. */
    method StepCommand(s: Step, turn: Turn) returns (rc: int)
      requires Valid()
      modifies this`now, machine
      ensures Valid() && rc == RunCommand(s, turn, old(now).store).rc
      ensures now == old(now).(store := StoreAfter(old(now).store, RunCommand(s, turn, old(now).store).effects),
                               effects := old(now).effects + RunCommand(s, turn, old(now).store).effects)
    {
      hide PendingMirrors, Shows, Single;
      ghost var command := RunCommand(s, turn, machine.store);
      rc := RunStep(machine, CmdDestroy, s.slot, turn.env, turn.cut);
      now := now.(store := machine.store, effects := now.effects + command.effects);
    }

    method Dispatch(s: Step, turn: Turn)
      requires Valid() && s.id in plan.steps && plan.steps[s.id] == s
      modifies this, machine, stepResults
      ensures Valid() && now == Settle(plan, old(now), s, turn) && Extends(old(stepResults))
    {
      hide PendingMirrors, Shows, Single, RunCommand, StoreAfter, Finish;
      var rc := StepCommand(s, turn);
      if rc == 0 {
        AppendAndFinish(s, Succeeded, NoReason, turn);
      } else {
        SettleFailure(s, rc);
      }
    }

    /** `step_results` only grows, by new objects. */
    twostate predicate Extends(before: seq<StepResult>)
      reads `stepResults
    {
      |before| <= |stepResults| && stepResults[..|before|] == before && fresh(stepResults[|before|..])
    }

    method AppendAndFinish(s: Step, status: ResultStatus, reason: Reason, turn: Turn)
      requires Valid() && s.id in plan.steps
      modifies this, machine, stepResults
      ensures Valid() && now == Finish(plan, AddResult(old(now), Result(s.id, status, 0, reason)), s.id, turn)
      ensures Extends(old(stepResults))
    {
      hide PendingMirrors, Shows, Finish;
      var _ := Append(s.id, status, 0, reason);
      FinishSubsumed(s.id, turn);
    }

    method SettleFailure(s: Step, rc: int)
      requires Valid() && s.id in plan.steps && rc != 0
      modifies this
      ensures Valid() && Extends(old(stepResults))
      ensures now ==
        if rc == CANCELLED then AddResult(old(now), Result(s.id, Cancelled, rc, CommandFailed)).(cancelled := true, halted := true)
        else if s.optional then AddResult(old(now), Result(s.id, FailedOptional, rc, CommandFailed)).(optional := old(now).optional + [s.id])
        else AddResult(old(now), Result(s.id, Failed, rc, CommandFailed)).(required := old(now).required + [s.id], halted := plan.failFast)
    {
      hide PendingMirrors, Shows, Keyed;
      var status := if rc == CANCELLED then Cancelled else if s.optional then FailedOptional else Failed;
      var _ := Append(s.id, status, rc, CommandFailed);
      Enter(s, status);
    }

    /** The lists and flags that go with a failed result. */
    method Enter(s: Step, status: ResultStatus)
      requires Valid() && status in {Cancelled, FailedOptional, Failed}
      modifies this`cancelled, this`halted, this`optionalFailures, this`requiredFailures, this`now
      ensures Valid()
      ensures now ==
        if status == Cancelled then old(now).(cancelled := true, halted := true)
        else if status == FailedOptional then old(now).(optional := old(now).optional + [s.id])
        else old(now).(required := old(now).required + [s.id], halted := plan.failFast)
    {
      hide PendingMirrors, Shows, Keyed;
      if status == Cancelled {
        cancelled, halted := true, true;
        now := now.(cancelled := true, halted := true);
      } else if status == FailedOptional {
        optionalFailures := optionalFailures + [s.id];
        now := now.(optional := optionalFailures);
      } else {
        requiredFailures := requiredFailures + [s.id];
        halted := plan.failFast;
        now := now.(required := requiredFailures, halted := halted);
      }
    }

    /** `_destroy_gate_required` */
    method NeedsGate(s: Step, unreadable: set<Slot>) returns (b: bool)
      requires Valid()
      ensures b == GateRequired(plan, s, machine.store, unreadable)
    {
      if !s.gate {
        return false;
      }
      for k := 0 to |s.needs|
        invariant forall j :: 0 <= j < k && s.needs[j] in plan.steps ==> !Live(StatusRead(machine.store, plan.steps[s.needs[j]].slot, unreadable))
      {
        if s.needs[k] in plan.steps && Live(StatusRead(machine.store, plan.steps[s.needs[k]].slot, unreadable)) {
          assert s.needs[k] in s.needs;
          return true;
        }
      }
      b := false;
    }

    /** One iteration of the step loop. */
    method Take(s: Step, turn: Turn)
      requires Valid() && s.id in plan.steps && plan.steps[s.id] == s
      modifies this, machine, stepResults
      ensures Valid() && now == TakeTurn(plan, old(now), s, turn) && Extends(old(stepResults))
    {
      hide PendingMirrors, Shows, Settle, Finish, Park, GateRequired;
      if plan.skipArchive && s.gate {
        var _ := Append(s.id, Skipped, 0, PreservationSkipped);
        return;
      }
      if s.retain {
        var _ := Append(s.id, Retained, 0, RetainDeclared);
        return;
      }
      var status := StatusRead(machine.store, s.slot, turn.unreadable);
      var gateRequired := NeedsGate(s, turn.unreadable);
      if !gateRequired && Gone(status) {
        if status == Blank {
          var _ := Append(s.id, Skipped, 0, NoState);
        } else {
          AppendAndFinish(s, Skipped, StateGone, turn);
        }
        return;
      }
      if s.subsumedBy.Some? {
        Defer(s, s.subsumedBy.value);
        return;
      }
      Dispatch(s, turn);
    }
  
    /** What is still deferred when the loop has ended was never confirmed. */
    method SweepChild(parent: Id, child: Child, ghost i: nat)
      requires Valid() && i < |stepResults| && child.result == stepResults[i]
      requires child.step == plan.steps[child.result.id]
      modifies this`requiredFailures, this`now, stepResults[i]
      ensures Valid() && now == SweepOne(old(now), parent, i)
    {
      hide PendingMirrors;
      Rewrite(child.result, Failed, OPERATOR_ERROR, NotConfirmed(parent), i);
      if child.step.id !in requiredFailures {
        requiredFailures := requiredFailures + [child.step.id];
        now := now.(required := requiredFailures);
      }
    }

    method SweepPending(k: nat)
      requires Valid() && k < |deferredByParent|
      modifies this`requiredFailures, this`now, stepResults
      ensures Valid() && now.buckets == old(now).buckets
      ensures BucketInRange(old(now), k) && now == SweepMembers(old(now), old(now).buckets[k].parent, old(now).buckets[k].members)
    {
      hide SweepOne, SweepMembers, PendingMirrors, Keyed;
      MirrorOf(k);
      var parent, children := deferredByParent[k].parent, deferredByParent[k].children;
      ghost var before, members := now, now.buckets[k].members;
      var c := 0;
      SweepNone(before, parent, members);
      while c < |children|
        invariant 0 <= c <= |children| == |members|
        invariant Valid() && MirrorsAll(children, members)
        invariant forall j :: 0 <= j < |members| ==> members[j] < |before.results|
        invariant now == SweepMembers(before, parent, members[..c])
      {
        SweepNext(before, parent, members, c);
        SweepChild(parent, children[c], members[c]);
        c := c + 1;
      }
      assert members[..c] == members;
    }

    lemma MirrorOf(k: nat)
      requires PendingMirrors(now.buckets) && k < |deferredByParent|
      ensures k < |now.buckets| && Mirrors(deferredByParent[k], now.buckets[k])
    {
    }

    ghost predicate BucketInRange(p: Progress, k: nat) {
      k < |p.buckets| && forall j :: 0 <= j < |p.buckets[k].members| ==> p.buckets[k].members[j] < |p.results|
    }

    method SweepAll()
      requires Valid()
      modifies this`requiredFailures, this`now, stepResults
      ensures Valid() && BucketsInRange(old(now)) && now == Sweep(old(now), |old(now).buckets|)
    {
      hide SweepMembers, PendingMirrors, Sweep, Keyed, Shows, BucketsInRange;
      ghost var before := now;
      AllInRange();
      SweepStart(before);
      var k := 0;
      while k < |deferredByParent|
        invariant 0 <= k <= |deferredByParent| == |before.buckets|
        invariant Valid() && now == Sweep(before, k)
      {
        SweepOnward(before, k);
        SameParents();
        SweepPending(k);
        k := k + 1;
      }
      SameParents();
    }

    lemma SameParents()
      requires PendingMirrors(now.buckets)
      ensures |deferredByParent| == |now.buckets|
      ensures forall j :: 0 <= j < |deferredByParent| ==> deferredByParent[j].parent == now.buckets[j].parent
    {
    }

    lemma AllInRange()
      requires PendingMirrors(now.buckets) && Shows(now.results)
      ensures BucketsInRange(now) && |deferredByParent| == |now.buckets|
    {
      forall k | 0 <= k < |now.buckets|
        ensures BucketInRange(now, k)
      {
        assert Mirrors(deferredByParent[k], now.buckets[k]);
      }
    }

    /** The step loop and the sweep: the report that the run ends with. */
    method Execute(turns: seq<Turn>) returns (rc: int)
      requires Valid() && |turns| == |plan.order| && PlanOk(plan)
      requires now == Fresh(machine.store) && stepResults == []
      modifies this, machine
      ensures Valid() && now == TeardownRun.Run(plan, old(machine.store), turns)
      ensures rc == if now.cancelled then CANCELLED else if now.required == [] then 0 else OPERATOR_ERROR
    {
      hide TakeTurn, Loop, Sweep, PendingMirrors, Shows, Booked, InOrder;
      ghost var store := machine.store;
      LoopStart(plan, store, turns);
      var i := 0;
      while i < |plan.order| && !halted
        invariant 0 <= i <= |plan.order|
        invariant Valid() && now == Loop(plan, store, turns, i)
        invariant fresh(stepResults)
      {
        ghost var before := stepResults;
        var s := plan.steps[plan.order[i]];
        LoopNext(plan, store, turns, i);
        Take(s, turns[i]);
        assert stepResults == before + stepResults[|before|..];
        assert fresh(before) && fresh(stepResults[|before|..]);
        i := i + 1;
      }
      if halted {
        HaltedFreezes(plan, store, turns, i, |turns|);
      }
      LoopKeeps(plan, store, turns, |turns|);
      SweepAll();
      if cancelled {
        return CANCELLED;
      }
      rc := if requiredFailures == [] then 0 else OPERATOR_ERROR;
    }
  }

  lemma LoopStart(plan: Plan, store: Store, turns: seq<Turn>)
    requires PlanOk(plan) && |turns| == |plan.order|
    ensures Loop(plan, store, turns, 0) == Fresh(store)
  {
  }

  lemma LoopNext(plan: Plan, store: Store, turns: seq<Turn>, i: nat)
    requires PlanOk(plan) && |turns| == |plan.order| && i < |turns| && !Loop(plan, store, turns, i).halted
    ensures Loop(plan, store, turns, i + 1) == TakeTurn(plan, Loop(plan, store, turns, i), plan.steps[plan.order[i]], turns[i])
  {
  }

  lemma SweepNone(p: Progress, parent: Id, members: seq<nat>)
    requires forall k :: 0 <= k < |members| ==> members[k] < |p.results|
    ensures SweepMembers(p, parent, members[..0]) == p && members[..|members|] == members
  {
  }

  lemma SweepNext(p: Progress, parent: Id, members: seq<nat>, c: nat)
    requires c < |members| && forall k :: 0 <= k < |members| ==> members[k] < |p.results|
    ensures SweepMembers(p, parent, members[..c + 1]) == SweepOne(SweepMembers(p, parent, members[..c]), parent, members[c])
  {
    assert members[..c + 1][..c] == members[..c];
  }

  lemma SweepStart(p: Progress)
    requires BucketsInRange(p)
    ensures Sweep(p, 0) == p
  {
  }

  lemma SweepOnward(p: Progress, k: nat)
    requires BucketsInRange(p) && k < |p.buckets|
    ensures Sweep(p, k).buckets == p.buckets && |Sweep(p, k).results| == |p.results|
    ensures Sweep(p, k + 1) == SweepMembers(Sweep(p, k), p.buckets[k].parent, p.buckets[k].members)
  {
  }

  lemma {:induction false} ParkAt(buckets: seq<Bucket>, parent: Id, i: nat, k: nat)
    requires k <= |buckets| && forall j :: 0 <= j < k ==> buckets[j].parent != parent
    requires k < |buckets| ==> buckets[k].parent == parent
    ensures Park(buckets, parent, i) ==
              if k < |buckets| then buckets[k := Bucket(parent, buckets[k].members + [i])] else buckets + [Bucket(parent, [i])]
  {
    if k > 0 {
      ParkAt(buckets[1..], parent, i, k - 1);
    }
  }

  lemma NoMembers(plan: Plan, p: Progress, parent: Id, turn: Turn)
    ensures FinishMembers(plan, p, parent, [], turn) == p
  {
  }

  lemma NextMember(plan: Plan, p: Progress, parent: Id, members: seq<nat>, c: nat, turn: Turn)
    requires MembersOk(plan, p.results, members) && c < |members|
    ensures FinishMembers(plan, p, parent, members[..c + 1], turn)
         == FinishOne(plan, FinishMembers(plan, p, parent, members[..c], turn), parent, members[c], turn)
  {
    assert members[..c + 1][..c] == members[..c];
  }

  lemma {:induction false} PopAt(buckets: seq<Bucket>, parent: Id, k: nat)
    requires k <= |buckets| && forall j :: 0 <= j < k ==> buckets[j].parent != parent
    requires k < |buckets| ==> buckets[k].parent == parent
    ensures k < |buckets| ==> Parked(buckets, parent) == buckets[k].members
                              && Unparked(buckets, parent) == buckets[..k] + buckets[k + 1..]
    ensures k == |buckets| ==> Parked(buckets, parent) == [] && Unparked(buckets, parent) == buckets
  {
    hide Parked, Unparked;
    PopNext(buckets, parent);
    if k > 0 {
      var rest := buckets[1..];
      PopAt(rest, parent, k - 1);
      if k < |buckets| {
        assert buckets[..k] == [buckets[0]] + rest[..k - 1] && buckets[k + 1..] == rest[k..];
      }
    }
  }

  lemma PopNext(buckets: seq<Bucket>, parent: Id)
    ensures buckets == [] ==> Parked(buckets, parent) == [] && Unparked(buckets, parent) == []
    ensures buckets != [] && buckets[0].parent == parent ==>
              Parked(buckets, parent) == buckets[0].members && Unparked(buckets, parent) == buckets[..0] + buckets[1..]
    ensures buckets != [] && buckets[0].parent != parent ==>
              Parked(buckets, parent) == Parked(buckets[1..], parent)
              && Unparked(buckets, parent) == [buckets[0]] + Unparked(buckets[1..], parent)
  {
  }
}
