/**
 The destroy run of a blueprint as a function of what the outside world answers at each turn:
 `_run_destroy_unlocked` from the step loop to the final sweep.
 */
module Teardown {
  import opened Ordering
  import opened Blueprint
  import opened ModuleState
  import opened SingleRun

  datatype ResultStatus = Succeeded | Skipped | Retained | Deferred | Subsumed | Failed | FailedOptional | Cancelled

  datatype Reason =
    | NoReason
    | PreservationSkipped
    | RetainDeclared
    | NoState
    | StateGone
    | WithParent(parent: Id)
    | ChildUnreadable
    | ChildUnwritable
    | NotConfirmed(parent: Id)
    | CommandFailed

  datatype Result = Result(id: Id, status: ResultStatus, rc: int, reason: Reason)

  /** `deferred_by_parent`, in insertion order; members are positions in `step_results`. */
  datatype Bucket = Bucket(parent: Id, members: seq<nat>)

  datatype Plan = Plan(steps: map<Id, Step>, order: seq<Id>, skipArchive: bool, failFast: bool)

  /**
   What the world answers while one step has its turn: the records that cannot be read, those
   that cannot be replaced, and those whose replacement raises once it is in place.
   */
  datatype Turn = Turn(
    unreadable: set<Slot>,
    unwritable: set<Slot>,
    torn: set<Slot>,
    env: Surroundings,
    cut: Option<Cut>)

  datatype Progress = Progress(
    store: Store,
    effects: seq<Effect>,
    results: seq<Result>,
    buckets: seq<Bucket>,
    required: seq<Id>,
    optional: seq<Id>,
    cancelled: bool,
    halted: bool)

  predicate PlanOk(plan: Plan) {
    forall a :: a in plan.order ==> a in plan.steps && plan.steps[a].id == a
  }

  predicate Live(s: Status) {
    !Gone(s) && s != StatusMissing
  }

  /** `_destroy_gate_required` */
  predicate GateRequired(plan: Plan, s: Step, store: Store, unreadable: set<Slot>) {
    s.gate && exists b :: b in s.needs && b in plan.steps && Live(StatusRead(store, plan.steps[b].slot, unreadable))
  }

  function RunCommand(s: Step, turn: Turn, store: Store): Ending {
    StepRun(CmdDestroy, s.slot, turn.env, turn.cut, store)
  }

  // ----- Deferred children ------------------------------------------------------------------

  /** `setdefault(parent, []).append(...)` */
  function Park(buckets: seq<Bucket>, parent: Id, i: nat): seq<Bucket> {
    if buckets == [] then [Bucket(parent, [i])]
    else if buckets[0].parent == parent then [Bucket(parent, buckets[0].members + [i])] + buckets[1..]
    else [buckets[0]] + Park(buckets[1..], parent, i)
  }

  /** `pop(parent, [])`: what it returns and what it leaves. */
  function Parked(buckets: seq<Bucket>, parent: Id): seq<nat> {
    if buckets == [] then []
    else if buckets[0].parent == parent then buckets[0].members
    else Parked(buckets[1..], parent)
  }

  function Unparked(buckets: seq<Bucket>, parent: Id): seq<Bucket> {
    if buckets == [] then []
    else if buckets[0].parent == parent then buckets[1..]
    else [buckets[0]] + Unparked(buckets[1..], parent)
  }

  function SubsumedRecord(parent: Id): StateRecord {
    StateRecord(Destroyed, map[], None, None, Some(parent))
  }

  /** One child of `finish_subsumed_steps`. */
  ghost function FinishOne(plan: Plan, p: Progress, parent: Id, i: nat, turn: Turn): Progress
    requires i < |p.results| && p.results[i].id in plan.steps
  {
    var r := p.results[i];
    var slot := plan.steps[r.id].slot;
    if slot in p.store && slot in turn.unreadable then
      p.(results := p.results[i := r.(status := Failed, rc := OPERATOR_ERROR, reason := ChildUnreadable)],
         required := p.required + [r.id])
    else if slot in turn.unwritable then
      p.(results := p.results[i := r.(status := Failed, rc := OPERATOR_ERROR, reason := ChildUnwritable)],
         required := p.required + [r.id])
    else
      var record := SubsumedRecord(parent);
      var q := p.(store := p.store[slot := record], effects := p.effects + [Write(slot, record)]);
      if slot in turn.torn then
        q.(results := p.results[i := r.(status := Failed, rc := OPERATOR_ERROR, reason := ChildUnwritable)],
           required := p.required + [r.id])
      else
        q.(results := p.results[i := r.(status := Subsumed, rc := 0, reason := WithParent(parent))])
  }

  ghost predicate MembersOk(plan: Plan, results: seq<Result>, members: seq<nat>) {
    forall k :: 0 <= k < |members| ==> members[k] < |results| && results[members[k]].id in plan.steps
  }

  ghost function FinishMembers(plan: Plan, p: Progress, parent: Id, members: seq<nat>, turn: Turn): (q: Progress)
    requires MembersOk(plan, p.results, members)
    ensures |q.results| == |p.results| && forall k :: 0 <= k < |p.results| ==> q.results[k].id == p.results[k].id
    decreases |members|
  {
    if members == [] then p
    else
      var n := |members| - 1;
      var q := FinishMembers(plan, p, parent, members[..n], turn);
      FinishOne(plan, q, parent, members[n], turn)
  }

  /** `finish_subsumed_steps(parent)` followed by `required_failures.extend(...)`. */
  ghost function Finish(plan: Plan, p: Progress, parent: Id, turn: Turn): Progress {
    var members := Parked(p.buckets, parent);
    if MembersOk(plan, p.results, members)
    then FinishMembers(plan, p.(buckets := Unparked(p.buckets, parent)), parent, members, turn)
    else p
  }

  // ----- One turn -----------------------------------------------------------------------------

  datatype Course = PreserveSkip | Retain | GoneSkip(status: Status) | Defer(parent: Id) | Dispatch

  /** The branch that the loop takes for a step. */
  function CourseOf(plan: Plan, s: Step, store: Store, unreadable: set<Slot>): Course {
    if plan.skipArchive && s.gate then PreserveSkip
    else if s.retain then Retain
    else
      var status := StatusRead(store, s.slot, unreadable);
      if !GateRequired(plan, s, store, unreadable) && Gone(status) then GoneSkip(status)
      else if s.subsumedBy.Some? then Defer(s.subsumedBy.value)
      else Dispatch
  }

  ghost function AddResult(p: Progress, r: Result): Progress {
    p.(results := p.results + [r])
  }

  /** The dispatch branch: run the command, then settle its return code. */
  ghost function Settle(plan: Plan, p: Progress, s: Step, turn: Turn): Progress {
    var command := RunCommand(s, turn, p.store);
    var q := p.(store := StoreAfter(p.store, command.effects), effects := p.effects + command.effects);
    if command.rc == 0 then
      Finish(plan, AddResult(q, Result(s.id, Succeeded, 0, NoReason)), s.id, turn)
    else if command.rc == CANCELLED then
      AddResult(q, Result(s.id, Cancelled, command.rc, CommandFailed)).(cancelled := true, halted := true)
    else if s.optional then
      AddResult(q, Result(s.id, FailedOptional, command.rc, CommandFailed)).(optional := q.optional + [s.id])
    else
      AddResult(q, Result(s.id, Failed, command.rc, CommandFailed)).(required := q.required + [s.id], halted := plan.failFast)
  }

  ghost function TakeTurn(plan: Plan, p: Progress, s: Step, turn: Turn): Progress {
    match CourseOf(plan, s, p.store, turn.unreadable)
    case PreserveSkip => AddResult(p, Result(s.id, Skipped, 0, PreservationSkipped))
    case Retain => AddResult(p, Result(s.id, Retained, 0, RetainDeclared))
    case GoneSkip(status) =>
      if status == Blank then AddResult(p, Result(s.id, Skipped, 0, NoState))
      else Finish(plan, AddResult(p, Result(s.id, Skipped, 0, StateGone)), s.id, turn)
    case Defer(parent) =>
      AddResult(p, Result(s.id, Deferred, 0, WithParent(parent))).(buckets := Park(p.buckets, parent, |p.results|))
    case Dispatch => Settle(plan, p, s, turn)
  }

  function Fresh(store: Store): Progress {
    Progress(store, [], [], [], [], [], false, false)
  }

  /** The loop after n steps of the order; a `break` freezes it. */
  ghost function Loop(plan: Plan, store: Store, turns: seq<Turn>, n: nat): Progress
    requires PlanOk(plan) && |turns| == |plan.order| && n <= |turns|
  {
    if n == 0 then Fresh(store)
    else
      var p := Loop(plan, store, turns, n - 1);
      if p.halted then p else TakeTurn(plan, p, plan.steps[plan.order[n - 1]], turns[n - 1])
  }

  // ----- The final sweep ------------------------------------------------------------------

  ghost function SweepOne(p: Progress, parent: Id, i: nat): Progress
    requires i < |p.results|
  {
    var r := p.results[i];
    p.(results := p.results[i := r.(status := Failed, rc := OPERATOR_ERROR, reason := NotConfirmed(parent))],
       required := if r.id in p.required then p.required else p.required + [r.id])
  }

  ghost function SweepMembers(p: Progress, parent: Id, members: seq<nat>): (q: Progress)
    requires forall k :: 0 <= k < |members| ==> members[k] < |p.results|
    ensures |q.results| == |p.results| && q.buckets == p.buckets
    ensures forall k :: 0 <= k < |p.results| ==> q.results[k].id == p.results[k].id
    decreases |members|
  {
    if members == [] then p
    else SweepOne(SweepMembers(p, parent, members[..|members| - 1]), parent, members[|members| - 1])
  }

  ghost predicate BucketsInRange(p: Progress) {
    forall k, j :: 0 <= k < |p.buckets| && 0 <= j < |p.buckets[k].members| ==> p.buckets[k].members[j] < |p.results|
  }

  ghost function Sweep(p: Progress, n: nat): (q: Progress)
    requires BucketsInRange(p) && n <= |p.buckets|
    ensures |q.results| == |p.results| && q.buckets == p.buckets
    ensures forall k :: 0 <= k < |p.results| ==> q.results[k].id == p.results[k].id
  {
    if n == 0 then p
    else
      var q := Sweep(p, n - 1);
      SweepMembers(q, p.buckets[n - 1].parent, p.buckets[n - 1].members)
  }

  // ----- Results keep the order of the steps ------------------------------------------------

  lemma {:induction false} MembersKeepFlags(plan: Plan, p: Progress, parent: Id, members: seq<nat>, turn: Turn)
    requires MembersOk(plan, p.results, members)
    ensures var q := FinishMembers(plan, p, parent, members, turn);
            q.halted == p.halted && q.cancelled == p.cancelled && q.optional == p.optional && q.buckets == p.buckets
  {
    hide FinishOne;
    if members != [] {
      var n := |members| - 1;
      MembersKeepFlags(plan, p, parent, members[..n], turn);
      OneKeepsFlags(plan, FinishMembers(plan, p, parent, members[..n], turn), parent, members[n], turn);
    }
  }

  lemma OneKeepsFlags(plan: Plan, p: Progress, parent: Id, i: nat, turn: Turn)
    requires i < |p.results| && p.results[i].id in plan.steps
    ensures var q := FinishOne(plan, p, parent, i, turn);
            q.halted == p.halted && q.cancelled == p.cancelled && q.optional == p.optional && q.buckets == p.buckets
  {
  }
}
