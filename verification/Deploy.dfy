/** The deploy run of a blueprint: the step loop of `run_deploy`. */
module Deploy {
  import opened Graphs
  import opened Ordering
  import opened Blueprint
  import opened ModuleState
  import opened SingleRun
  import opened Authority
  import opened Preflight

  datatype Standing = StepOk | StepSkipped | StepFailed | StepFailedOptional | StepCancelled

  /** A deploy result; `interval` is the authority receipt that it carries. */
  datatype Outcome = Outcome(id: Id, standing: Standing, rc: int, interval: Option<Receipt>)

  /** `licensed` holds the steps of the IOL image module, whose licence may be repaired in flight. */
  datatype DeployPlan = DeployPlan(steps: map<Id, Step>, order: seq<Id>, failFast: bool, repairAllowed: bool, licensed: set<Id>)

  datatype Attempt = Attempt(env: Surroundings, cut: Option<Cut>)

  /** What the world answers while one step has its turn; `floor` is the clock at completion. */
  datatype DeployTurn = DeployTurn(
    unreadable: set<Slot>,
    provider: Provider,
    inputsChanged: bool,
    live: Live,
    first: Attempt,
    mismatch: bool,
    repairStored: bool,
    retry: Attempt,
    floor: int,
    completionRaises: bool)

  datatype Deployment = Deployment(
    store: Store,
    effects: seq<Effect>,
    commands: seq<Id>,
    results: seq<Outcome>,
    required: seq<Id>,
    optional: seq<Id>,
    cancelled: bool,
    repairUsed: bool,
    halted: bool)

  function CommandOf(s: Step): Command {
    match s.action
    case Apply => CmdApply
    case Deploy => CmdDeploy
    case PlanOnly => CmdPlan
    case ValidateOnly => CmdValidate
  }

  // ----- The authority interval -----------------------------------------------------------------

  datatype Closing = NoReceipt | Receipted(receipt: Receipt) | Unclosed

  /** `_authority_completion_receipt` for a step whose admission went through. */
  function Close(s: Step, turn: DeployTurn): Closing {
    if !s.authority || s.observation.None? then NoReceipt
    else if turn.completionRaises || Begin(turn.provider, s.observation).None? then Unclosed
    else Receipted(Complete(turn.provider, Begin(turn.provider, s.observation).value, s.observation.value, turn.floor))
  }

  predicate Consents(c: Closing) {
    c.NoReceipt? || (c.Receipted? && c.receipt.decision != Deny)
  }

  function ReceiptOf(c: Closing): Option<Receipt> {
    if c.Receipted? then Some(c.receipt) else None
  }

  predicate Admits(s: Step, store: Store, turn: DeployTurn) {
    ContractsHold(s, store, turn.unreadable, {}, turn.provider, s.observation)
  }

  // ----- One step -----------------------------------------------------------------------------

  /** How a step's turn ends: `runs` counts the times its command was started. */
  datatype StepEnd = StepEnd(store: Store, effects: seq<Effect>, runs: nat, repaired: bool, skipped: bool, rc: int, interval: Option<Receipt>)

  function NoRun(store: Store, skipped: bool, rc: int, interval: Option<Receipt>): StepEnd {
    StepEnd(store, [], 0, false, skipped, rc, interval)
  }

  function Try(s: Step, a: Attempt, store: Store): Ending {
    StepRun(CommandOf(s), s.slot, a.env, a.cut, store)
  }

  /** The one licence repair of a run: an error that names a mismatch, on a step of the image module. */
  predicate Repairs(plan: DeployPlan, s: Step, turn: DeployTurn, repairUsed: bool, rc: int) {
    && rc != 0 && turn.mismatch && !(turn.first.cut.Some? && turn.first.cut.value.byOperator)
    && plan.repairAllowed && !repairUsed && s.id in plan.licensed && Mutates(s)
  }

  ghost function Execute(plan: DeployPlan, s: Step, turn: DeployTurn, store: Store, repairUsed: bool): (e: StepEnd)
    ensures !e.skipped && e.runs in {1, 2} && (e.runs == 2 ==> e.repaired)
    ensures e.repaired ==> !repairUsed && plan.repairAllowed && s.id in plan.licensed && Mutates(s)
  {
    var first := Try(s, turn.first, store);
    var between := StoreAfter(store, first.effects);
    if Repairs(plan, s, turn, repairUsed, first.rc) then
      if turn.repairStored then
        var again := Try(s, turn.retry, between);
        StepEnd(StoreAfter(between, again.effects), first.effects + again.effects, 2, true, false, again.rc, None)
      else StepEnd(between, first.effects, 1, true, false, first.rc, None)
    else StepEnd(between, first.effects, 1, false, false, first.rc, None)
  }

  /** A command that succeeded still fails if the authority does not consent. */
  function Closed(e: StepEnd, c: Closing): StepEnd {
    e.(rc := if e.rc == 0 && !Consents(c) then OPERATOR_ERROR else e.rc, interval := ReceiptOf(c))
  }

  ghost function StepTurn(plan: DeployPlan, s: Step, turn: DeployTurn, store: Store, repairUsed: bool): StepEnd {
    var skip := MaySkip(s, store, turn.unreadable, turn.inputsChanged);
    var live := Verification(s, turn.live);
    if s.observation.Some? && !Admits(s, store, turn) then NoRun(store, false, OPERATOR_ERROR, None)
    else if skip && live == LiveSafe then
      if Consents(Close(s, turn)) then NoRun(store, true, 0, ReceiptOf(Close(s, turn)))
      else NoRun(store, false, OPERATOR_ERROR, ReceiptOf(Close(s, turn)))
    else if skip && live == LiveTrouble then NoRun(store, false, OPERATOR_ERROR, None)
    else if !Admits(s, store, turn) then NoRun(store, false, OPERATOR_ERROR, None)
    else Closed(Execute(plan, s, turn, store, repairUsed), Close(s, turn))
  }

  // ----- The loop -----------------------------------------------------------------------------

  function StandingOf(s: Step, e: StepEnd): Standing {
    if e.skipped then StepSkipped
    else if e.rc == 0 then StepOk
    else if e.rc == CANCELLED then StepCancelled
    else if s.optional then StepFailedOptional
    else StepFailed
  }

  ghost function Book(plan: DeployPlan, d: Deployment, s: Step, e: StepEnd): Deployment {
    var standing := StandingOf(s, e);
    Deployment(
      e.store,
      d.effects + e.effects,
      d.commands + seq(e.runs, _ => s.id),
      d.results + [Outcome(s.id, standing, e.rc, e.interval)],
      if standing == StepFailed then d.required + [s.id] else d.required,
      if standing == StepFailedOptional then d.optional + [s.id] else d.optional,
      d.cancelled || standing == StepCancelled,
      d.repairUsed || e.repaired,
      standing == StepCancelled || (standing == StepFailed && plan.failFast))
  }

  predicate DeployPlanOk(plan: DeployPlan) {
    forall a :: a in plan.order ==> a in plan.steps && plan.steps[a].id == a
  }

  function Begun(store: Store): Deployment {
    Deployment(store, [], [], [], [], [], false, false, false)
  }

  ghost function DeployTurnEnd(plan: DeployPlan, d: Deployment, s: Step, turn: DeployTurn): StepEnd {
    StepTurn(plan, s, turn, d.store, d.repairUsed)
  }

  /** The loop after n steps of the order; a `break` freezes it. */
  ghost function DeployLoop(plan: DeployPlan, store: Store, turns: seq<DeployTurn>, n: nat): Deployment
    requires DeployPlanOk(plan) && |turns| == |plan.order| && n <= |turns|
  {
    if n == 0 then Begun(store)
    else
      var d := DeployLoop(plan, store, turns, n - 1);
      if d.halted then d
      else
        var s := plan.steps[plan.order[n - 1]];
        Book(plan, d, s, DeployTurnEnd(plan, d, s, turns[n - 1]))
  }

  // ----- The loop as the code runs it -----------------------------------------------------------

  /** The command and, at most once in a run, its repair and retry. */
  method RunCommands(m: Machine, plan: DeployPlan, s: Step, turn: DeployTurn, repairUsed: bool)
    returns (rc: int, used: bool, ghost e: StepEnd)
    requires m.Valid()
    modifies m
    ensures m.Valid() && e == Execute(plan, s, turn, old(m.store), repairUsed)
    ensures rc == e.rc && used == (repairUsed || e.repaired) && m.store == e.store
    ensures m.trace == old(m.trace) + e.effects
  {
    hide StepRun, StoreAfter;
    e := Execute(plan, s, turn, m.store, repairUsed);
    used := repairUsed;
    rc := RunStep(m, CommandOf(s), s.slot, turn.first.env, turn.first.cut);
    if Repairs(plan, s, turn, used, rc) {
      used := true;
      if turn.repairStored {
        rc := RunStep(m, CommandOf(s), s.slot, turn.retry.env, turn.retry.cut);
      }
    }
  }

  method RunTurn(m: Machine, plan: DeployPlan, s: Step, turn: DeployTurn, repairUsed: bool)
    returns (skipped: bool, rc: int, interval: Option<Receipt>, used: bool, ghost e: StepEnd)
    requires m.Valid()
    modifies m
    ensures m.Valid() && e == StepTurn(plan, s, turn, old(m.store), repairUsed)
    ensures skipped == e.skipped && rc == e.rc && interval == e.interval && used == (repairUsed || e.repaired)
    ensures m.store == e.store && m.trace == old(m.trace) + e.effects
  {
    hide Execute, ContractsHold, Complete, Begin;
    e := StepTurn(plan, s, turn, m.store, repairUsed);
    skipped, rc, interval, used := false, OPERATOR_ERROR, None, repairUsed;
    if s.observation.Some? {
      if !Admits(s, m.store, turn) {
        return;
      }
    }
    if MaySkip(s, m.store, turn.unreadable, turn.inputsChanged) {
      var live := Verification(s, turn.live);
      if live == LiveSafe {
        var closing := Close(s, turn);
        interval := ReceiptOf(closing);
        if Consents(closing) {
          skipped, rc := true, 0;
        }
        return;
      }
      if live == LiveTrouble {
        return;
      }
    }
    if s.observation.None? {
      if !Admits(s, m.store, turn) {
        return;
      }
    }
    ghost var run;
    rc, used, run := RunCommands(m, plan, s, turn, repairUsed);
    var closing := Close(s, turn);
    interval := ReceiptOf(closing);
    if rc == 0 && !Consents(closing) {
      rc := OPERATOR_ERROR;
    }
  }

  /** The step loop of `run_deploy`. */
  method RunDeploy(m: Machine, plan: DeployPlan, turns: seq<DeployTurn>)
    returns (results: seq<Outcome>, required: seq<Id>, optional: seq<Id>, rc: int)
    requires m.Valid() && DeployPlanOk(plan) && |turns| == |plan.order|
    modifies m
    ensures m.Valid()
    ensures var d := DeployLoop(plan, old(m.store), turns, |turns|);
            && m.store == d.store && m.trace == old(m.trace) + d.effects
            && results == d.results && required == d.required && optional == d.optional
            && rc == DeployCode(d)
  {
    hide StepTurn, DeployLoop, Replay, Book;
    ghost var store := m.store;
    DeployStart(plan, store, turns);
    var cancelled, repairUsed := false, false;
    results, required, optional := [], [], [];
    ghost var d := Begun(store);
    for i := 0 to |plan.order|
      invariant m.Valid() && d == DeployLoop(plan, store, turns, i) && !d.halted
      invariant m.store == d.store && m.trace == old(m.trace) + d.effects
      invariant results == d.results && required == d.required && optional == d.optional
      invariant cancelled == d.cancelled && repairUsed == d.repairUsed
    {
      var s := plan.steps[plan.order[i]];
      var skipped, code, interval, used, e := RunTurn(m, plan, s, turns[i], repairUsed);
      DeployNext(plan, store, turns, i);
      BookReads(plan, d, s, e);
      d := Book(plan, d, s, e);
      repairUsed := used;
      if skipped {
        results := results + [Outcome(s.id, StepSkipped, code, interval)];
        continue;
      }
      if code == 0 {
        results := results + [Outcome(s.id, StepOk, code, interval)];
        continue;
      }
      if code == CANCELLED {
        results := results + [Outcome(s.id, StepCancelled, code, interval)];
        cancelled := true;
        BrokenOff(plan, store, turns, i + 1);
        break;
      }
      if s.optional {
        optional := optional + [s.id];
        results := results + [Outcome(s.id, StepFailedOptional, code, interval)];
        continue;
      }
      required := required + [s.id];
      results := results + [Outcome(s.id, StepFailed, code, interval)];
      if plan.failFast {
        BrokenOff(plan, store, turns, i + 1);
        break;
      }
    }
    if cancelled {
      return results, required, optional, CANCELLED;
    }
    rc := if required == [] then 0 else OPERATOR_ERROR;
  }

  function DeployCode(d: Deployment): int {
    if d.cancelled then CANCELLED else if d.required == [] then 0 else OPERATOR_ERROR
  }

  /** What is booked about a step, in the fields that the loop keeps. */
  lemma BookReads(plan: DeployPlan, d: Deployment, s: Step, e: StepEnd)
    ensures var after, standing := Book(plan, d, s, e), StandingOf(s, e);
            && after.store == e.store && after.effects == d.effects + e.effects
            && after.results == d.results + [Outcome(s.id, standing, e.rc, e.interval)]
            && after.required == (if standing == StepFailed then d.required + [s.id] else d.required)
            && after.optional == (if standing == StepFailedOptional then d.optional + [s.id] else d.optional)
            && after.cancelled == (d.cancelled || standing == StepCancelled) && after.repairUsed == (d.repairUsed || e.repaired)
            && after.halted == (standing == StepCancelled || (standing == StepFailed && plan.failFast))
  {
  }

  lemma DeployStart(plan: DeployPlan, store: Store, turns: seq<DeployTurn>)
    requires DeployPlanOk(plan) && |turns| == |plan.order|
    ensures DeployLoop(plan, store, turns, 0) == Begun(store)
  {
  }

  lemma DeployNext(plan: DeployPlan, store: Store, turns: seq<DeployTurn>, i: nat)
    requires DeployPlanOk(plan) && |turns| == |plan.order| && i < |turns|
    ensures var d := DeployLoop(plan, store, turns, i);
            var s := plan.steps[plan.order[i]];
            DeployLoop(plan, store, turns, i + 1) == if d.halted then d else Book(plan, d, s, DeployTurnEnd(plan, d, s, turns[i]))
  {
  }

  lemma BrokenOff(plan: DeployPlan, store: Store, turns: seq<DeployTurn>, n: nat)
    requires DeployPlanOk(plan) && |turns| == |plan.order| && n <= |turns| && DeployLoop(plan, store, turns, n).halted
    ensures DeployLoop(plan, store, turns, |turns|) == DeployLoop(plan, store, turns, n)
  {
    DeployFreezes(plan, store, turns, n, |turns|);
  }

  lemma {:induction false} DeployFreezes(plan: DeployPlan, store: Store, turns: seq<DeployTurn>, m: nat, n: nat)
    requires DeployPlanOk(plan) && |turns| == |plan.order| && m <= n <= |turns|
    ensures DeployLoop(plan, store, turns, m).halted ==> DeployLoop(plan, store, turns, n) == DeployLoop(plan, store, turns, m)
    ensures !DeployLoop(plan, store, turns, n).halted ==> !DeployLoop(plan, store, turns, m).halted
  {
    hide DeployTurnEnd, DeployLoop;
    if m < n {
      DeployNext(plan, store, turns, n - 1);
      DeployFreezes(plan, store, turns, m, n - 1);
    }
  }
}
