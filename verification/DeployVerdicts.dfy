/**
 What a deploy run reports about each step, said in terms of what the step declares, what the
 records said at its turn, and what its command and its authority were answered.
 */
module DeployVerdicts {
  import opened Ordering
  import opened Blueprint
  import opened ModuleState
  import opened SingleRun
  import opened RunVerdicts
  import opened Authority
  import opened Preflight
  import opened Deploy
  import opened DeployTheorems

  // ----- What a turn sees -----------------------------------------------------------------------

  /** The record of the slot can be read, and says ok. */
  predicate ReadsOk(store: Store, slot: Slot, unreadable: set<Slot>) {
    slot in store && slot !in unreadable && store[slot].status == StatusOk
  }

  /** All that the step requires reads ok, or is taken for granted. */
  predicate RequirementsRead(s: Step, store: Store, unreadable: set<Slot>, assumed: set<Slot>) {
    forall ref :: ref in s.requiredOk ==> ref in assumed || ReadsOk(store, ref, unreadable)
  }

  /** What the step requires is there, and its authority, if it has one, permits it. */
  predicate MayStart(s: Step, before: Store, turn: DeployTurn) {
    RequirementsRead(s, before, turn.unreadable, {}) && (s.authority ==> Permits(turn.provider, s.observation))
  }

  /** The step's own state reads ok on unchanged inputs, and the step would leave it at that. */
  predicate Stands(s: Step, store: Store, unreadable: set<Slot>, inputsChanged: bool) {
    s.skipIfOk && s.action in {Apply, Deploy} && ReadsOk(store, s.slot, unreadable) && !inputsChanged
  }

  /** The state stands, and has been found in order if the step asks for that. */
  predicate LetBe(s: Step, before: Store, turn: DeployTurn) {
    Stands(s, before, turn.unreadable, turn.inputsChanged) && (s.verifyOnSkip ==> turn.live == LiveSafe)
  }

  /** The command is called for and may start: nothing stands, or what stands has drifted. */
  predicate Goes(s: Step, before: Store, turn: DeployTurn) {
    && MayStart(s, before, turn)
    && (Stands(s, before, turn.unreadable, turn.inputsChanged) ==> s.verifyOnSkip && turn.live == LiveDrift)
  }

  /** The authority, if the step has it observed, lets pass what the turn has done. */
  predicate LetsPass(s: Step, turn: DeployTurn) {
    s.authority && s.observation.Some? ==>
      && !turn.completionRaises && Permits(turn.provider, s.observation)
      && var before := turn.provider.atBegin.v.observation;
         || Vouches(turn.provider, before, turn.floor)
         || (s.observation == Some(RecordUnverified) && LeavesOpen(turn.provider, before, turn.floor))
  }

  /** The command that carries out the step's action. */
  function Ordered(s: Step): (cmd: Command)
    ensures cmd == CmdApply <==> s.action == Apply
    ensures cmd == CmdDeploy <==> s.action == Deploy
    ensures cmd == CmdPlan <==> s.action == PlanOnly
    ensures cmd == CmdValidate <==> s.action == ValidateOnly
  {
    CommandOf(s)
  }

  /** The command returned 0. */
  predicate Works(s: Step, a: Attempt) {
    a.cut.None? && WorkDone(Ordered(s), a.env) && (s.action in {PlanOnly, ValidateOnly} || a.env.final == Kept)
  }

  /** The operator interrupted the command, or whatever cut it short. */
  predicate StoppedByOperator(s: Step, a: Attempt) {
    if a.cut.Some? then a.cut.value.byOperator else OperatorStops(Ordered(s), a.env)
  }

  /** The one repair of the run is due: a licence mismatch has stopped a step of the image module. */
  predicate RepairDue(plan: DeployPlan, s: Step, turn: DeployTurn, repairUsed: bool) {
    && !Works(s, turn.first) && turn.mismatch && !(turn.first.cut.Some? && turn.first.cut.value.byOperator)
    && plan.repairAllowed && !repairUsed && s.id in plan.licensed && s.action in {Apply, Deploy}
  }

  predicate TriesAgain(plan: DeployPlan, s: Step, turn: DeployTurn, repairUsed: bool) {
    RepairDue(plan, s, turn, repairUsed) && turn.repairStored
  }

  /** The attempt that decides: the retry after a repair that was stored, else the first. */
  function Decisive(plan: DeployPlan, s: Step, turn: DeployTurn, repairUsed: bool): Attempt {
    if TriesAgain(plan, s, turn, repairUsed) then turn.retry else turn.first
  }

  // ----- One turn -------------------------------------------------------------------------------

  lemma CommandCodes(s: Step, a: Attempt, store: Store)
    ensures Try(s, a, store) == StepRun(Ordered(s), s.slot, a.env, a.cut, store)
    ensures Try(s, a, store).rc == 0 <==> Works(s, a)
    ensures Try(s, a, store).rc == 130 <==> StoppedByOperator(s, a)
  {
    hide Single;
    CutReturnCodes(Ordered(s), s.slot, a.env, a.cut, store);
    ReturnCodes(Ordered(s), s.slot, a.env, store);
  }

  lemma ChecksAlike(s: Step, store: Store, turn: DeployTurn)
    ensures Admits(s, store, turn) <==> MayStart(s, store, turn)
    ensures MaySkip(s, store, turn.unreadable, turn.inputsChanged) <==> Stands(s, store, turn.unreadable, turn.inputsChanged)
    ensures Consents(Close(s, turn)) <==> LetsPass(s, turn)
  {
    hide Complete, Begin;
  }

  lemma ExecuteIsDecided(plan: DeployPlan, s: Step, turn: DeployTurn, store: Store, repairUsed: bool)
    ensures var e, last := Execute(plan, s, turn, store, repairUsed), Decisive(plan, s, turn, repairUsed);
            && e.runs == (if TriesAgain(plan, s, turn, repairUsed) then 2 else 1)
            && (e.repaired <==> RepairDue(plan, s, turn, repairUsed))
            && (e.rc == 0 <==> Works(s, last)) && (e.rc == 130 <==> StoppedByOperator(s, last))
  {
    hide Try, StoreAfter, Works, StoppedByOperator;
    CommandCodes(s, turn.first, store);
    CommandCodes(s, turn.retry, StoreAfter(store, Try(s, turn.first, store).effects));
  }

  /**
   A turn is decided by what it sees: the command runs exactly if it is called for and may start,
   once or with one retry; the step is skipped exactly if its state may be left alone and the
   authority agrees; and 0 and 130 are returned for what they say.
   */
  lemma TurnIsDecided(plan: DeployPlan, s: Step, turn: DeployTurn, store: Store, repairUsed: bool)
    ensures var e := StepTurn(plan, s, turn, store, repairUsed);
            var last := Decisive(plan, s, turn, repairUsed);
            && e.runs == (if !Goes(s, store, turn) then 0 else if TriesAgain(plan, s, turn, repairUsed) then 2 else 1)
            && (e.repaired <==> Goes(s, store, turn) && RepairDue(plan, s, turn, repairUsed))
            && (e.skipped <==> LetBe(s, store, turn) && (s.observation.Some? ==> MayStart(s, store, turn)) && LetsPass(s, turn))
            && (e.rc == 0 <==> e.skipped || (Goes(s, store, turn) && Works(s, last) && LetsPass(s, turn)))
            && (e.rc == 130 <==> Goes(s, store, turn) && StoppedByOperator(s, last))
            && (e.runs == 0 && !e.skipped ==> e.rc == 2)
  {
    hide Admits, MaySkip, Consents, Close, ReceiptOf, MayStart, Stands, LetsPass, Execute, TriesAgain, RepairDue, Decisive, Works,
         StoppedByOperator;
    ChecksAlike(s, store, turn);
    ExecuteIsDecided(plan, s, turn, store, repairUsed);
  }

  /** The receipt of the turn: that of the provider's verdict, if the authority was asked for it. */
  function Evidence(s: Step, before: Store, turn: DeployTurn): Option<Receipt> {
    if s.authority && s.observation.Some? && !turn.completionRaises
       && MayStart(s, before, turn) && (Goes(s, before, turn) || LetBe(s, before, turn))
    then Some(Complete(turn.provider, turn.provider.atBegin.v.observation, s.observation.value, turn.floor))
    else None
  }

  lemma TurnCarriesEvidence(plan: DeployPlan, s: Step, turn: DeployTurn, store: Store, repairUsed: bool)
    ensures StepTurn(plan, s, turn, store, repairUsed).interval == Evidence(s, store, turn)
  {
    hide Try, StoreAfter, Complete, Begin;
  }

  /** What a turn does: the effects of its first command, and after a stored repair those of the second. */
  lemma TurnDoes(plan: DeployPlan, s: Step, turn: DeployTurn, store: Store, repairUsed: bool)
    ensures var e := StepTurn(plan, s, turn, store, repairUsed);
            var first := StepRun(Ordered(s), s.slot, turn.first.env, turn.first.cut, store).effects;
            var between := StoreAfter(store, first);
            var again := StepRun(Ordered(s), s.slot, turn.retry.env, turn.retry.cut, between).effects;
            && (!Goes(s, store, turn) ==> e.effects == [] && e.store == store)
            && (Goes(s, store, turn) && !TriesAgain(plan, s, turn, repairUsed) ==> e.effects == first && e.store == between)
            && (TriesAgain(plan, s, turn, repairUsed) && Goes(s, store, turn) ==>
                  e.effects == first + again && e.store == StoreAfter(between, again))
  {
    hide Admits, MaySkip, Consents, Close, ReceiptOf, MayStart, Stands, LetsPass, StepRun, Single, StoreAfter, Works, StoppedByOperator;
    ChecksAlike(s, store, turn);
    CommandCodes(s, turn.first, store);
  }

  // ----- Planning ---------------------------------------------------------------------------------

  /**
   Planning decides alike, on records and checks alone: a step is ready exactly if all it requires
   is there or planned, its authority permits it, and everything it runs with is in place.
   */
  lemma PlanIsDecided(s: Step, store: Store, c: Checks, assumed: set<Slot>, deferDriver: bool)
    ensures var stands := Stands(s, store, c.unreadable, c.inputsChanged);
            && (PlanStep(s, store, c, assumed, deferDriver) == Ready <==>
                  && c.inputsWritten && RequirementsRead(s, store, c.unreadable, assumed)
                  && (s.authority ==> Permits(c.provider, None))
                  && c.resolves && c.envPresent && (c.driverOk || deferDriver)
                  && (stands ==> s.verifyOnSkip && c.live == LiveDrift))
            && (PlanStep(s, store, c, assumed, deferDriver) == Skipped <==>
                  c.inputsWritten && stands && (s.verifyOnSkip ==> c.live == LiveSafe))
            && PlanStep(s, store, c, assumed, deferDriver) in {Ready, Skipped, Blocked}
  {
    hide Begin;
  }

  /** Before step i the plan has a required step that applies or deploys the state, ready or skipped. */
  ghost predicate Granted(steps: map<Id, Step>, order: seq<Id>, statuses: seq<StepStatus>, i: nat, ref: Slot)
    requires InStep(steps, order, statuses) && i <= |statuses|
  {
    exists j :: 0 <= j < i && statuses[j] in {Ready, Skipped} && Grants(steps[order[j]], ref)
  }

  predicate Grants(s: Step, ref: Slot) {
    !s.optional && s.action in {Apply, Deploy} && s.slot == ref
  }

  /** Something that step i requires directly is reported so before it. */
  ghost predicate RequiresOne(steps: map<Id, Step>, order: seq<Id>, statuses: seq<StepStatus>, i: nat, among: set<StepStatus>)
    requires InStep(steps, order, statuses) && i < |statuses|
  {
    exists j :: 0 <= j < i && order[j] in steps[order[i]].needs && statuses[j] in among
  }

  /** Something that step i requires directly is ready, and its state granted: the driver cannot be checked yet. */
  ghost predicate DriverMayWait(steps: map<Id, Step>, order: seq<Id>, statuses: seq<StepStatus>, i: nat)
    requires InStep(steps, order, statuses) && i < |statuses|
  {
    exists j :: 0 <= j < i && order[j] in steps[order[i]].needs && statuses[j] == Ready
                && Granted(steps, order, statuses, i, steps[order[j]].slot)
  }

  /**
   A report is decided entry by entry: a step is held back exactly if something it requires is
   blocked or held back itself; otherwise its checks decide, with the states that the plan grants.
   */
  lemma ReportTells(steps: map<Id, Step>, order: seq<Id>, store: Store, checks: seq<Checks>, r: Report, i: nat)
    requires Faithful(steps, order, store, checks, r) && i < |r.statuses|
    ensures var s, c := steps[order[i]], checks[i];
            var held := RequiresOne(steps, order, r.statuses, i, {Blocked, Deferred});
            var stands := Stands(s, store, c.unreadable, c.inputsChanged);
            && (r.statuses[i] == Deferred <==> held)
            && (r.statuses[i] == Skipped <==>
                  !held && c.inputsWritten && stands && (s.verifyOnSkip ==> c.live == LiveSafe))
            && (r.statuses[i] == Ready <==>
                  && !held && c.inputsWritten && (stands ==> s.verifyOnSkip && c.live == LiveDrift)
                  && (forall ref :: ref in s.requiredOk ==> Granted(steps, order, r.statuses, i, ref) || ReadsOk(store, ref, c.unreadable))
                  && (s.authority ==> Permits(c.provider, None)) && c.resolves && c.envPresent
                  && (c.driverOk || DriverMayWait(steps, order, r.statuses, i)))
  {
    hide PlanStep, Assumed, Held, DefersDriver, RequiresOne, DriverMayWait, Granted, Stands, ReadsOk;
    assert Follows(steps, order, store, checks, r.statuses, i);
    GrantedIsAssumed(steps, order, r.statuses, i);
    HeldAlike(steps, order, r.statuses, i);
    PlanIsDecided(steps[order[i]], store, checks[i], Assumed(steps, order, r.statuses, i), DefersDriver(steps, order, r.statuses, i));
  }

  lemma GrantedIsAssumed(steps: map<Id, Step>, order: seq<Id>, statuses: seq<StepStatus>, i: nat)
    requires InStep(steps, order, statuses) && i <= |statuses|
    ensures forall ref :: ref in Assumed(steps, order, statuses, i) <==> Granted(steps, order, statuses, i, ref)
  {
    forall ref
      ensures ref in Assumed(steps, order, statuses, i) <==> Granted(steps, order, statuses, i, ref)
    {
      if j :| 0 <= j < i && statuses[j] in {Ready, Skipped} && Grants(steps[order[j]], ref) {
        assert Planned(steps[order[j]], statuses[j]);
      }
    }
  }

  lemma HeldAlike(steps: map<Id, Step>, order: seq<Id>, statuses: seq<StepStatus>, i: nat)
    requires InStep(steps, order, statuses) && i < |statuses|
    ensures Held(steps, order, statuses, i) <==> RequiresOne(steps, order, statuses, i, {Blocked, Deferred})
    ensures DefersDriver(steps, order, statuses, i) <==> DriverMayWait(steps, order, statuses, i)
  {
    hide Assumed, Granted;
    GrantedIsAssumed(steps, order, statuses, i);
    if j :| 0 <= j < i && order[j] in steps[order[i]].needs && statuses[j] in {Blocked, Deferred} {
      assert HasStatus(order, statuses, i, order[j], statuses[j]);
    }
    if DriverMayWait(steps, order, statuses, i) {
      var j :| 0 <= j < i && order[j] in steps[order[i]].needs && statuses[j] == Ready && Granted(steps, order, statuses, i, steps[order[j]].slot);
      assert HasStatus(order, statuses, i, order[j], Ready) && order[j] in order;
    }
  }

  // ----- The report of a run ------------------------------------------------------------------------

  /** The report on a step, from the state of the run before its turn and the answers at its turn. */
  ghost predicate Tells(plan: DeployPlan, s: Step, before: Deployment, turn: DeployTurn, o: Outcome) {
    var last := Decisive(plan, s, turn, before.repairUsed);
    && o.id == s.id
    && (o.standing == StepSkipped <==>
          LetBe(s, before.store, turn) && (s.observation.Some? ==> MayStart(s, before.store, turn)) && LetsPass(s, turn))
    && (o.standing == StepOk <==> Goes(s, before.store, turn) && Works(s, last) && LetsPass(s, turn))
    && (o.standing == StepCancelled <==> Goes(s, before.store, turn) && StoppedByOperator(s, last))
    && (o.standing == StepFailed ==> !s.optional) && (o.standing == StepFailedOptional ==> s.optional)
    && (o.rc == 0 <==> o.standing in {StepOk, StepSkipped}) && (o.rc == 130 <==> o.standing == StepCancelled)
    && o.interval == Evidence(s, before.store, turn)
  }

  lemma TurnTells(plan: DeployPlan, s: Step, before: Deployment, turn: DeployTurn, d: Deployment)
    requires d == Book(plan, before, s, DeployTurnEnd(plan, before, s, turn))
    ensures |d.results| == |before.results| + 1 && Tells(plan, s, before, turn, d.results[|before.results|])
    ensures d.repairUsed <==> before.repairUsed || (Goes(s, before.store, turn) && RepairDue(plan, s, turn, before.repairUsed))
  {
    hide StepTurn, Evidence, Goes, LetBe, MayStart, LetsPass, Works, StoppedByOperator, RepairDue, TriesAgain;
    TurnIsDecided(plan, s, turn, before.store, before.repairUsed);
    TurnCarriesEvidence(plan, s, turn, before.store, before.repairUsed);
    SkippedDoesNotGo(plan, s, turn, before.store);
    WorksOrStops(s, Decisive(plan, s, turn, before.repairUsed), before.store);
  }

  lemma SkippedDoesNotGo(plan: DeployPlan, s: Step, turn: DeployTurn, store: Store)
    ensures !(LetBe(s, store, turn) && Goes(s, store, turn))
  {
  }

  lemma WorksOrStops(s: Step, a: Attempt, store: Store)
    ensures !(Works(s, a) && StoppedByOperator(s, a))
  {
  }

  /** Step i has its turn in the run. */
  ghost predicate Comes(plan: DeployPlan, store: Store, turns: seq<DeployTurn>, i: nat)
    requires DeployPlanOk(plan) && |turns| == |plan.order|
  {
    i < |turns| && !DeployLoop(plan, store, turns, i).halted
  }

  lemma ResultMeansTurn(plan: DeployPlan, store: Store, turns: seq<DeployTurn>, i: nat, n: nat)
    requires DeployPlanOk(plan) && |turns| == |plan.order| && n <= |turns|
    ensures i < |DeployLoop(plan, store, turns, n).results| <==> i < n && Comes(plan, store, turns, i)
    ensures Comes(plan, store, turns, i) ==> |DeployLoop(plan, store, turns, i).results| == i
  {
    hide DeployLoop, StepTurn;
    DeployKeepsShape(plan, store, turns, n);
    if i < |turns| {
      DeployKeepsShape(plan, store, turns, i);
    }
    if i < n {
      DeployNext(plan, store, turns, i);
      if DeployLoop(plan, store, turns, i).halted {
        DeployFreezes(plan, store, turns, i, n);
      } else {
        ReportGrows(plan, store, turns, i + 1, n);
      }
    }
  }

  /** Every result of a run is the report of the step's own turn, on the store that it found. */
  lemma RunTells(plan: DeployPlan, store: Store, turns: seq<DeployTurn>, i: nat)
    requires DeployPlanOk(plan) && |turns| == |plan.order| && Comes(plan, store, turns, i)
    ensures i < |DeployLoop(plan, store, turns, |turns|).results|
    ensures Tells(plan, plan.steps[plan.order[i]], DeployLoop(plan, store, turns, i), turns[i],
                  DeployLoop(plan, store, turns, |turns|).results[i])
  {
    hide DeployLoop, StepTurn, Tells, Book;
    ResultMeansTurn(plan, store, turns, i, |turns|);
    ResultMeansTurn(plan, store, turns, i, i + 1);
    DeployNext(plan, store, turns, i);
    TurnTells(plan, plan.steps[plan.order[i]], DeployLoop(plan, store, turns, i), turns[i], DeployLoop(plan, store, turns, i + 1));
    ReportGrows(plan, store, turns, i + 1, |turns|);
  }

  /** The run repairs the licence at step i. */
  ghost predicate RepairsAt(plan: DeployPlan, store: Store, turns: seq<DeployTurn>, i: nat)
    requires DeployPlanOk(plan) && |turns| == |plan.order|
  {
    Comes(plan, store, turns, i) &&
    var s, d := plan.steps[plan.order[i]], DeployLoop(plan, store, turns, i);
    Goes(s, d.store, turns[i]) && RepairDue(plan, s, turns[i], d.repairUsed)
  }

  /** The repair is spent once a step has used it, so that no later one can. */
  lemma {:induction false} RepairIsSpent(plan: DeployPlan, store: Store, turns: seq<DeployTurn>, n: nat)
    requires DeployPlanOk(plan) && |turns| == |plan.order| && n <= |turns|
    ensures DeployLoop(plan, store, turns, n).repairUsed <==> exists i :: 0 <= i < n && RepairsAt(plan, store, turns, i)
    ensures forall i, j :: 0 <= i < j < n ==> !(RepairsAt(plan, store, turns, i) && RepairsAt(plan, store, turns, j))
  {
    hide DeployLoop, StepTurn, Tells, Book, Goes;
    if n == 0 {
      DeployStart(plan, store, turns);
    } else {
      RepairIsSpent(plan, store, turns, n - 1);
      DeployNext(plan, store, turns, n - 1);
      var d := DeployLoop(plan, store, turns, n - 1);
      if !d.halted {
        TurnTells(plan, plan.steps[plan.order[n - 1]], d, turns[n - 1], DeployLoop(plan, store, turns, n));
      }
      assert RepairsAt(plan, store, turns, n - 1) ==> DeployLoop(plan, store, turns, n).repairUsed;
    }
  }

  /** The steps reported so, in the order of the report. */
  ghost function Reported(results: seq<Outcome>, standing: Standing): seq<Id> {
    if results == [] then []
    else
      var n := |results| - 1;
      Reported(results[..n], standing) + if results[n].standing == standing then [results[n].id] else []
  }

  /** The lists of a run name exactly the steps that are reported failed, required or optional. */
  lemma {:induction false} ListsAreExact(plan: DeployPlan, store: Store, turns: seq<DeployTurn>, n: nat)
    requires DeployPlanOk(plan) && |turns| == |plan.order| && n <= |turns|
    ensures var d := DeployLoop(plan, store, turns, n);
            && d.required == Reported(d.results, StepFailed)
            && d.optional == Reported(d.results, StepFailedOptional)
  {
    hide DeployLoop, StepTurn;
    if n == 0 {
      DeployStart(plan, store, turns);
    } else {
      ListsAreExact(plan, store, turns, n - 1);
      DeployNext(plan, store, turns, n - 1);
      var d, d' := DeployLoop(plan, store, turns, n - 1), DeployLoop(plan, store, turns, n);
      assert !d.halted ==> d'.results[..|d.results|] == d.results;
    }
  }

  /** The commands that the first n steps call for, one each, and two where the repair has been stored. */
  ghost function CalledFor(plan: DeployPlan, store: Store, turns: seq<DeployTurn>, n: nat): seq<Id>
    requires DeployPlanOk(plan) && |turns| == |plan.order| && n <= |turns|
  {
    if n == 0 then []
    else
      var s, d := plan.steps[plan.order[n - 1]], DeployLoop(plan, store, turns, n - 1);
      CalledFor(plan, store, turns, n - 1)
      + if !Comes(plan, store, turns, n - 1) || !Goes(s, d.store, turns[n - 1]) then []
        else if TriesAgain(plan, s, turns[n - 1], d.repairUsed) then [s.id, s.id] else [s.id]
  }

  /** No command is started that is not called for, and none is left out. */
  lemma {:induction false} CommandsAreExact(plan: DeployPlan, store: Store, turns: seq<DeployTurn>, n: nat)
    requires DeployPlanOk(plan) && |turns| == |plan.order| && n <= |turns|
    ensures DeployLoop(plan, store, turns, n).commands == CalledFor(plan, store, turns, n)
  {
    hide DeployLoop, StepTurn, Goes, TriesAgain, RepairDue;
    if n == 0 {
      DeployStart(plan, store, turns);
    } else {
      CommandsAreExact(plan, store, turns, n - 1);
      DeployNext(plan, store, turns, n - 1);
      var d, s := DeployLoop(plan, store, turns, n - 1), plan.steps[plan.order[n - 1]];
      TurnIsDecided(plan, s, turns[n - 1], d.store, d.repairUsed);
    }
  }

  ghost predicate HasStanding(results: seq<Outcome>, standing: Standing) {
    exists i :: 0 <= i < |results| && results[i].standing == standing
  }

  /** The code of a run, from the results that it reports: 130 for an interrupt, 2 for a required failure. */
  lemma CodeIsExact(plan: DeployPlan, store: Store, turns: seq<DeployTurn>)
    requires DeployPlanOk(plan) && |turns| == |plan.order|
    ensures var q := DeployLoop(plan, store, turns, |turns|);
            DeployCode(q) == if HasStanding(q.results, StepCancelled) then 130 else if HasStanding(q.results, StepFailed) then 2 else 0
  {
    hide DeployLoop, HasStanding;
    FlagsAreExact(plan, store, turns, |turns|);
  }

  lemma {:induction false} FlagsAreExact(plan: DeployPlan, store: Store, turns: seq<DeployTurn>, n: nat)
    requires DeployPlanOk(plan) && |turns| == |plan.order| && n <= |turns|
    ensures var d := DeployLoop(plan, store, turns, n);
            && (d.cancelled <==> HasStanding(d.results, StepCancelled))
            && (d.required != [] <==> HasStanding(d.results, StepFailed))
  {
    hide DeployLoop, StepTurn;
    if n == 0 {
      DeployStart(plan, store, turns);
    } else {
      FlagsAreExact(plan, store, turns, n - 1);
      DeployNext(plan, store, turns, n - 1);
      var d, d' := DeployLoop(plan, store, turns, n - 1), DeployLoop(plan, store, turns, n);
      if !d.halted {
        OneMoreStanding(d.results, d'.results[|d.results|], StepCancelled);
        OneMoreStanding(d.results, d'.results[|d.results|], StepFailed);
      }
    }
  }

  lemma OneMoreStanding(results: seq<Outcome>, o: Outcome, standing: Standing)
    ensures HasStanding(results + [o], standing) <==> HasStanding(results, standing) || o.standing == standing
  {
    var more := results + [o];
    assert more[|results|] == o;
    if HasStanding(results, standing) {
      var i :| 0 <= i < |results| && results[i].standing == standing;
      assert more[i].standing == standing;
    }
  }

  // ----- What stops a run ---------------------------------------------------------------------------

  /**
   A deploy run stops before its end exactly where the operator's interrupt hit a command, or under
   fail_fast where a required step failed; and it returns 130 exactly for the interrupt, which no
   declaration of the step and no later step can outweigh.
   */
  lemma InterruptEndsTheDeployment(plan: DeployPlan, store: Store, turns: seq<DeployTurn>, i: nat)
    requires DeployPlanOk(plan) && |turns| == |plan.order| && Comes(plan, store, turns, i)
    ensures var before, q := DeployLoop(plan, store, turns, i), DeployLoop(plan, store, turns, |turns|);
            var s := plan.steps[plan.order[i]];
            var hit := Goes(s, before.store, turns[i]) && StoppedByOperator(s, Decisive(plan, s, turns[i], before.repairUsed));
            && i < |q.results|
            && (hit ==> i + 1 == |q.results| && DeployCode(q) == 130)
            && (DeployCode(q) == 130 && i + 1 == |q.results| ==> hit)
            && (i + 1 < |turns| ==>
                  (i + 1 == |q.results| <==> hit || (plan.failFast && q.results[i].standing == StepFailed)))
  {
    hide DeployLoop, StepTurn, Goes, StoppedByOperator, RepairDue, Evidence, Works, LetBe, LetsPass, MayStart;
    RunTells(plan, store, turns, i);
    LoopIsAccounted(plan, store, turns, |turns|);
    DeployKeepsShape(plan, store, turns, |turns|);
    var q := DeployLoop(plan, store, turns, |turns|);
    ResultMeansTurn(plan, store, turns, i + 1, |turns|);
    TurnStops(plan, store, turns, i);
  }

  /** A turn breaks the loop exactly if it was cancelled, or failed with fail_fast. */
  lemma TurnStops(plan: DeployPlan, store: Store, turns: seq<DeployTurn>, i: nat)
    requires DeployPlanOk(plan) && |turns| == |plan.order| && Comes(plan, store, turns, i)
    ensures var q := DeployLoop(plan, store, turns, |turns|);
            && i < |q.results|
            && (DeployLoop(plan, store, turns, i + 1).halted <==>
                  q.results[i].standing == StepCancelled || (plan.failFast && q.results[i].standing == StepFailed))
            && (DeployLoop(plan, store, turns, i + 1).halted ==>
                  |q.results| == i + 1 && q.cancelled == (q.results[i].standing == StepCancelled))
  {
    hide DeployLoop, StepTurn;
    DeployNext(plan, store, turns, i);
    ResultMeansTurn(plan, store, turns, i, i + 1);
    ReportGrows(plan, store, turns, i + 1, |turns|);
    if DeployLoop(plan, store, turns, i + 1).halted {
      DeployFreezes(plan, store, turns, i + 1, |turns|);
    }
    LoopIsAccounted(plan, store, turns, i);
  }

  // ----- The trace ------------------------------------------------------------------------------------

  /** Step i hands its slot over to the driver. */
  ghost predicate HandsOver(plan: DeployPlan, store: Store, turns: seq<DeployTurn>, i: nat)
    requires DeployPlanOk(plan) && |turns| == |plan.order|
  {
    Comes(plan, store, turns, i) &&
    var s, d := plan.steps[plan.order[i]], DeployLoop(plan, store, turns, i);
    && Goes(s, d.store, turns[i]) && s.action in {Apply, Deploy}
    && (|| ReachesDriver(Ordered(s), turns[i].first.env)
        || (TriesAgain(plan, s, turns[i], d.repairUsed) && ReachesDriver(Ordered(s), turns[i].retry.env)))
  }

  /** The same with the first attempt of the step, which nothing cuts short. */
  ghost predicate HandsOverAtOnce(plan: DeployPlan, store: Store, turns: seq<DeployTurn>, i: nat)
    requires DeployPlanOk(plan) && |turns| == |plan.order|
  {
    && HandsOver(plan, store, turns, i) && turns[i].first.cut.None?
    && ReachesDriver(Ordered(plan.steps[plan.order[i]]), turns[i].first.env)
  }

  lemma AttemptStarts(cmd: Command, slot: Slot, a: Attempt, store: Store, at: Slot)
    ensures DriverStarts(at) in StepRun(cmd, slot, a.env, a.cut, store).effects ==>
              at == slot && Provisions(cmd) && ReachesDriver(cmd, a.env)
    ensures a.cut.None? && at == slot && Provisions(cmd) && ReachesDriver(cmd, a.env) ==>
              DriverStarts(at) in StepRun(cmd, slot, a.env, a.cut, store).effects
  {
    hide Single, ReachesDriver;
    DriverIsReachedIff(cmd, slot, a.env, store, at);
    var full := Single(cmd, slot, a.env, store).effects;
    if a.cut.Some? && a.cut.value.after < |full| {
      assert forall e :: e in full[..a.cut.value.after] ==> e in full;
    }
  }

  lemma TurnStarts(plan: DeployPlan, s: Step, turn: DeployTurn, store: Store, repairUsed: bool, at: Slot)
    ensures var es := StepTurn(plan, s, turn, store, repairUsed).effects;
            var first, again := ReachesDriver(Ordered(s), turn.first.env), TriesAgain(plan, s, turn, repairUsed);
            && (DriverStarts(at) in es ==>
                  && at == s.slot && s.action in {Apply, Deploy} && Goes(s, store, turn)
                  && (first || (again && ReachesDriver(Ordered(s), turn.retry.env))))
            && (at == s.slot && s.action in {Apply, Deploy} && Goes(s, store, turn) && first && turn.first.cut.None? ==>
                  DriverStarts(at) in es)
  {
    hide StepTurn, StepRun, ReachesDriver, Goes, TriesAgain, StoreAfter;
    TurnDoes(plan, s, turn, store, repairUsed);
    var first := StepRun(Ordered(s), s.slot, turn.first.env, turn.first.cut, store).effects;
    AttemptStarts(Ordered(s), s.slot, turn.first, store, at);
    AttemptStarts(Ordered(s), s.slot, turn.retry, StoreAfter(store, first), at);
  }

  /**
   In the trace of a run the driver of a slot is started only by the turn of a step on it that
   found all it requires recorded ok and its authority, if it has one, permitting; and whenever
   such a turn gets as far as its driver, the trace has the start.
   */
  lemma {:induction false} DriversStartOnlyIfAdmitted(plan: DeployPlan, store: Store, turns: seq<DeployTurn>, n: nat, at: Slot)
    requires DeployPlanOk(plan) && |turns| == |plan.order| && n <= |turns|
    ensures DriverStarts(at) in DeployLoop(plan, store, turns, n).effects ==>
              exists i :: 0 <= i < n && HandsOver(plan, store, turns, i) && plan.steps[plan.order[i]].slot == at
    ensures forall i :: 0 <= i < n && HandsOverAtOnce(plan, store, turns, i) && plan.steps[plan.order[i]].slot == at ==>
              DriverStarts(at) in DeployLoop(plan, store, turns, n).effects
  {
    hide DeployLoop, StepTurn, Goes, ReachesDriver, TriesAgain;
    if n == 0 {
      DeployStart(plan, store, turns);
    } else {
      DriversStartOnlyIfAdmitted(plan, store, turns, n - 1, at);
      DeployNext(plan, store, turns, n - 1);
      var d := DeployLoop(plan, store, turns, n - 1);
      if !d.halted {
        TurnStarts(plan, plan.steps[plan.order[n - 1]], turns[n - 1], d.store, d.repairUsed, at);
        assert DriverStarts(at) in StepTurn(plan, plan.steps[plan.order[n - 1]], turns[n - 1], d.store, d.repairUsed).effects ==>
                 HandsOver(plan, store, turns, n - 1);
      }
    }
  }
}
