/** What an optional step can do to a plan: exactly when a state that planning saw may be gone at its turn. */
module DeployPlans {
  import opened Ordering
  import opened Blueprint
  import opened ModuleState
  import opened SingleRun
  import opened Authority
  import opened Preflight
  import opened Deploy
  import opened DeployTheorems

  // ----- What a command reads -------------------------------------------------------------------

  /** The stores differ in the record of `ref` at most. */
  ghost predicate SameBut(store: Store, other: Store, ref: Slot) {
    store - {ref} == other - {ref}
  }

  lemma SameElsewhere(store: Store, other: Store, ref: Slot, slot: Slot)
    requires SameBut(store, other, ref) && slot != ref
    ensures slot in store <==> slot in other
    ensures slot in store ==> store[slot] == other[slot]
  {
    assert slot in store ==> slot in store - {ref};
    assert slot in other ==> slot in other - {ref};
  }

  /** A command reads no record but its own. */
  lemma CommandReadsOwnSlot(cmd: Command, slot: Slot, env: Surroundings, store: Store, other: Store, ref: Slot)
    requires SameBut(store, other, ref) && slot != ref
    ensures Single(cmd, slot, env, store) == Single(cmd, slot, env, other)
  {
    hide StartEffects, FailureEffects, StartedRecord, FailedRecord, FinalRecord, Previous, StoreAtDriver, PreflightStops;
    SameReads(cmd, slot, env, store, other, ref);
    StartReadsOwnSlot(cmd, slot, env, store, other);
    FailureReadsOwnSlot(cmd, slot, env, store, other, false);
    FailureReadsOwnSlot(cmd, slot, env, StoreAtDriver(cmd, slot, env, store), StoreAtDriver(cmd, slot, env, other), Creates(cmd));
  }

  lemma SameReads(cmd: Command, slot: Slot, env: Surroundings, store: Store, other: Store, ref: Slot)
    requires SameBut(store, other, ref) && slot != ref
    ensures Previous(store, slot, env) == Previous(other, slot, env)
    ensures Previous(StoreAtDriver(cmd, slot, env, store), slot, env) == Previous(StoreAtDriver(cmd, slot, env, other), slot, env)
  {
    SameElsewhere(store, other, ref, slot);
  }

  lemma FailureReadsOwnSlot(cmd: Command, slot: Slot, env: Surroundings, store: Store, other: Store, started: bool)
    requires Previous(store, slot, env) == Previous(other, slot, env)
    ensures FailureEffects(cmd, slot, env, store, started) == FailureEffects(cmd, slot, env, other, started)
  {
  }

  lemma StartReadsOwnSlot(cmd: Command, slot: Slot, env: Surroundings, store: Store, other: Store)
    requires Previous(store, slot, env) == Previous(other, slot, env)
    requires Previous(StoreAtDriver(cmd, slot, env, store), slot, env) == Previous(StoreAtDriver(cmd, slot, env, other), slot, env)
    ensures StartEffects(cmd, slot, env, store) == StartEffects(cmd, slot, env, other)
  {
  }

  lemma {:induction false} EffectsKeepSameBut(store: Store, other: Store, es: seq<Effect>, ref: Slot)
    requires SameBut(store, other, ref)
    ensures SameBut(StoreAfter(store, es), StoreAfter(other, es), ref)
  {
    if es != [] {
      var n := |es| - 1;
      EffectsKeepSameBut(store, other, es[..n], ref);
      var a, b := StoreAfter(store, es[..n]), StoreAfter(other, es[..n]);
      if es[n].Write? {
        WriteKeepsSameBut(a, b, es[n].slot, es[n].record, ref);
      }
    }
  }

  lemma WriteKeepsSameBut(store: Store, other: Store, slot: Slot, record: StateRecord, ref: Slot)
    requires SameBut(store, other, ref)
    ensures SameBut(store[slot := record], other[slot := record], ref)
  {
    var a, b := store[slot := record], other[slot := record];
    forall x | x != ref
      ensures x in a <==> x in b
      ensures x in a ==> a[x] == b[x]
    {
      SameElsewhere(store, other, ref, x);
    }
  }

  lemma {:induction false} OwnEffectsSameBut(store: Store, es: seq<Effect>, ref: Slot)
    requires forall e :: e in es ==> e.slot == ref
    ensures SameBut(store, StoreAfter(store, es), ref)
  {
    if es != [] {
      var n := |es| - 1;
      assert es[n] in es && forall e :: e in es[..n] ==> e in es;
      OwnEffectsSameBut(store, es[..n], ref);
    }
  }

  // ----- What a turn reads ------------------------------------------------------------------------

  ghost predicate SameEnd(e: StepEnd, f: StepEnd, ref: Slot) {
    SameBut(e.store, f.store, ref) && e.rc == f.rc && e.skipped == f.skipped && e.repaired == f.repaired
  }

  lemma TryReadsOwnSlot(s: Step, a: Attempt, store: Store, other: Store, ref: Slot)
    requires SameBut(store, other, ref) && s.slot != ref
    ensures Try(s, a, store) == Try(s, a, other)
    ensures SameBut(StoreAfter(store, Try(s, a, store).effects), StoreAfter(other, Try(s, a, store).effects), ref)
  {
    CommandReadsOwnSlot(CommandOf(s), s.slot, a.env, store, other, ref);
    EffectsKeepSameBut(store, other, Try(s, a, store).effects, ref);
  }

  lemma ExecuteReadsOwnSlot(plan: DeployPlan, s: Step, turn: DeployTurn, store: Store, other: Store, used: bool, ref: Slot)
    requires SameBut(store, other, ref) && s.slot != ref
    ensures SameEnd(Execute(plan, s, turn, store, used), Execute(plan, s, turn, other, used), ref)
  {
    hide Try, StoreAfter, SameBut;
    TryReadsOwnSlot(s, turn.first, store, other, ref);
    var es := Try(s, turn.first, store).effects;
    TryReadsOwnSlot(s, turn.retry, StoreAfter(store, es), StoreAfter(other, es), ref);
  }

  /** A turn reads the record of its own slot and of the states that the step requires. */
  lemma TurnReads(plan: DeployPlan, s: Step, turn: DeployTurn, store: Store, other: Store, used: bool, ref: Slot)
    requires SameBut(store, other, ref) && s.slot != ref && ref !in s.requiredOk
    ensures SameEnd(StepTurn(plan, s, turn, store, used), StepTurn(plan, s, turn, other, used), ref)
  {
    assert Admits(s, store, turn) == Admits(s, other, turn)
           && MaySkip(s, store, turn.unreadable, turn.inputsChanged) == MaySkip(s, other, turn.unreadable, turn.inputsChanged) by {
      GuardsRead(s, turn, store, other, ref);
    }
    hide SameBut, Execute, Admits, MaySkip, Close, Consents, Verification, ReceiptOf;
    ExecuteReadsOwnSlot(plan, s, turn, store, other, used, ref);
  }

  lemma GuardsRead(s: Step, turn: DeployTurn, store: Store, other: Store, ref: Slot)
    requires SameBut(store, other, ref) && s.slot != ref && ref !in s.requiredOk
    ensures Admits(s, store, turn) == Admits(s, other, turn)
    ensures MaySkip(s, store, turn.unreadable, turn.inputsChanged) == MaySkip(s, other, turn.unreadable, turn.inputsChanged)
  {
    forall slot | slot != ref
      ensures StatusRead(store, slot, turn.unreadable) == StatusRead(other, slot, turn.unreadable)
    {
      SameElsewhere(store, other, ref, slot);
    }
  }

  // ----- The run with one turn replaced -------------------------------------------------------------

  const READY := Provider(true, true, Value(Evaluation(true, Some(Observation("t", "s", "st", Some(0), true)))),
    Value(true), OtherError, OtherError)

  /** The step is admitted, its command starts and fails, and so does its retry if there was to be one. */
  function Failing(turn: DeployTurn, repaired: bool): DeployTurn {
    var fails := Attempt(CALM.(driver := Returned(false)), None);
    turn.(unreadable := {}, provider := READY, inputsChanged := true, first := fails,
          mismatch := repaired, repairStored := true, retry := fails)
  }

  lemma FailedTry(s: Step, store: Store)
    requires Mutates(s)
    ensures var c := Try(s, Attempt(CALM.(driver := Returned(false)), None), store);
            && c.rc == 1 && StatusOf(StoreAfter(store, c.effects), s.slot) == StatusError
  {
    var env := CALM.(driver := Returned(false));
    var c := Try(s, Attempt(env, None), store);
    var started := StartedRecord(Previous(store, s.slot, env), CommandOf(s));
    var failed := FailedRecord(Previous(StoreAtDriver(CommandOf(s), s.slot, env, store), s.slot, env), CommandOf(s));
    assert c.effects == [Write(s.slot, started), DriverStarts(s.slot)] + [Write(s.slot, failed)];
    assert c.effects[|c.effects| - 1] == Write(s.slot, failed);
  }

  lemma FailingTurn(plan: DeployPlan, s: Step, turn: DeployTurn, store: Store, used: bool)
    requires Mutates(s) && RequirementsOk(s, store)
    ensures var repaired := StepTurn(plan, s, turn, store, used).repaired;
            var e := StepTurn(plan, s, Failing(turn, repaired), store, used);
            e.rc == 1 && !e.skipped && e.repaired == repaired && StatusOf(e.store, s.slot) == StatusError
  {
    hide Admits, MaySkip, Try, StoreAfter, Begin, StatusOf, Close, Consents, Failing;
    var repaired := StepTurn(plan, s, turn, store, used).repaired;
    var failing := Failing(turn, repaired);
    FailingIsAdmitted(s, turn, repaired, store);
    RepairsAgain(plan, s, turn, store, used);
    FailedTry(s, store);
    FailedTry(s, StoreAfter(store, Try(s, failing.first, store).effects));
  }

  lemma FailingIsAdmitted(s: Step, turn: DeployTurn, repaired: bool, store: Store)
    requires RequirementsOk(s, store)
    ensures var failing, fails := Failing(turn, repaired), Attempt(CALM.(driver := Returned(false)), None);
            && Admits(s, store, failing) && !MaySkip(s, store, failing.unreadable, failing.inputsChanged)
            && failing.first == failing.retry == fails && failing.repairStored && failing.mismatch == repaired
  {
    assert Begin(READY, s.observation).Some?;
  }

  /** What could be repaired at this turn can be repaired after the failure. */
  lemma RepairsAgain(plan: DeployPlan, s: Step, turn: DeployTurn, store: Store, used: bool)
    ensures StepTurn(plan, s, turn, store, used).repaired ==>
              plan.repairAllowed && !used && s.id in plan.licensed && Mutates(s)
  {
    hide Execute, Admits, MaySkip, Close, Consents;
  }

  /** Every effect of a turn is on the step's own slot. */
  lemma TurnKeepsOthers(plan: DeployPlan, s: Step, turn: DeployTurn, store: Store, used: bool)
    ensures SameBut(store, StepTurn(plan, s, turn, store, used).store, s.slot)
  {
    hide Try, StoreAfter, SameBut, Admits, MaySkip, Close, Consents;
    TryKeepsOthers(s, turn.first, store);
    var between := StoreAfter(store, Try(s, turn.first, store).effects);
    TryKeepsOthers(s, turn.retry, between);
    SameButOn(store, between, StoreAfter(between, Try(s, turn.retry, between).effects), s.slot);
  }

  lemma SameButOn(a: Store, b: Store, c: Store, ref: Slot)
    ensures SameBut(a, a, ref)
    ensures SameBut(a, b, ref) && SameBut(b, c, ref) ==> SameBut(a, c, ref)
    ensures SameBut(a, b, ref) && SameBut(a, c, ref) ==> SameBut(b, c, ref)
  {
  }

  lemma TryKeepsOthers(s: Step, a: Attempt, store: Store)
    ensures SameBut(store, StoreAfter(store, Try(s, a, store).effects), s.slot)
  {
    hide Single;
    EffectsStayInSlot(CommandOf(s), s.slot, a.env, store);
    OwnEffectsSameBut(store, Try(s, a, store).effects, s.slot);
  }

  lemma {:induction false} SamePrefix(plan: DeployPlan, store: Store, turns: seq<DeployTurn>, others: seq<DeployTurn>, n: nat)
    requires DeployPlanOk(plan) && |turns| == |others| == |plan.order| && n <= |turns| && turns[..n] == others[..n]
    ensures DeployLoop(plan, store, turns, n) == DeployLoop(plan, store, others, n)
  {
    hide StepTurn, DeployTurnEnd, DeployLoop;
    DeployStart(plan, store, turns);
    DeployStart(plan, store, others);
    if n > 0 {
      assert turns[..n][n - 1] == others[..n][n - 1] && turns[..n - 1] == turns[..n][..n - 1] == others[..n - 1];
      SamePrefix(plan, store, turns, others, n - 1);
      DeployNext(plan, store, turns, n - 1);
      DeployNext(plan, store, others, n - 1);
    }
  }

  ghost predicate Alike(d: Deployment, f: Deployment, ref: Slot) {
    SameBut(d.store, f.store, ref) && d.halted == f.halted && d.repairUsed == f.repairUsed
  }

  lemma BookAlike(plan: DeployPlan, d: Deployment, f: Deployment, s: Step, turn: DeployTurn, ref: Slot)
    requires Alike(d, f, ref) && s.slot != ref && ref !in s.requiredOk
    ensures Alike(Book(plan, d, s, DeployTurnEnd(plan, d, s, turn)), Book(plan, f, s, DeployTurnEnd(plan, f, s, turn)), ref)
  {
    hide StepTurn, SameBut;
    TurnReads(plan, s, turn, d.store, f.store, d.repairUsed, ref);
  }

  /** Step k neither is on the slot nor asks for its state. */
  predicate Ignores(plan: DeployPlan, k: nat, ref: Slot)
    requires k < |plan.order|
  {
    var a := plan.order[k];
    a in plan.steps && plan.steps[a].slot != ref && ref !in plan.steps[a].requiredOk
  }

  /** From one step to another, runs alike stay alike if no step between them looks at `ref`. */
  lemma {:induction false} StayAlike(plan: DeployPlan, store: Store, turns: seq<DeployTurn>, others: seq<DeployTurn>,
        m: nat, n: nat, ref: Slot)
    requires DeployPlanOk(plan) && |turns| == |others| == |plan.order| && m <= n <= |turns|
    requires turns[m..n] == others[m..n]
    requires forall k :: m <= k < n ==> Ignores(plan, k, ref)
    requires Alike(DeployLoop(plan, store, turns, m), DeployLoop(plan, store, others, m), ref)
    ensures Alike(DeployLoop(plan, store, turns, n), DeployLoop(plan, store, others, n), ref)
  {
    hide StepTurn, DeployTurnEnd, DeployLoop, Alike;
    if m < n {
      assert turns[m..n][..n - 1 - m] == turns[m..n - 1] && others[m..n][..n - 1 - m] == others[m..n - 1];
      assert turns[m..n][n - 1 - m] == others[m..n][n - 1 - m];
      StayAlike(plan, store, turns, others, m, n - 1, ref);
      DeployNext(plan, store, turns, n - 1);
      DeployNext(plan, store, others, n - 1);
      var d, f := DeployLoop(plan, store, turns, n - 1), DeployLoop(plan, store, others, n - 1);
      AlikeHalts(d, f, ref);
      assert Ignores(plan, n - 1, ref);
      BookAlike(plan, d, f, plan.steps[plan.order[n - 1]], turns[n - 1], ref);
    }
  }

  lemma AlikeHalts(d: Deployment, f: Deployment, ref: Slot)
    requires Alike(d, f, ref)
    ensures d.halted == f.halted
  {
  }

  /**
   The exception that the plan makes for an admitted optional step is exact.  Whenever a run
   reaches step i past one, some answers to that step alone make the run reach step i with the
   state in error, if no step between the two is on the slot or asks for its state.
   */
  lemma OptionalMaySpoil(plan: DeployPlan, store: Store, turns: seq<DeployTurn>, j: nat, i: nat)
    returns (others: seq<DeployTurn>)
    requires DeployPlanOk(plan) && |turns| == |plan.order| && j < i < |turns|
    requires plan.steps[plan.order[j]].optional && Mutates(plan.steps[plan.order[j]])
    requires RequirementsOk(plan.steps[plan.order[j]], DeployLoop(plan, store, turns, j).store)
    requires forall k :: j < k < i ==> Ignores(plan, k, plan.steps[plan.order[j]].slot)
    requires !DeployLoop(plan, store, turns, i).halted
    ensures |others| == |turns| && others == turns[j := others[j]]
    ensures !DeployLoop(plan, store, others, i).halted
    ensures StatusOf(DeployLoop(plan, store, others, i).store, plan.steps[plan.order[j]].slot) == StatusError
    ensures MayHaveSpoilt(plan, store, others, j, plan.steps[plan.order[j]].slot)
  {
    hide StepTurn, DeployLoop, Failing, RequirementsOk;
    var s, d := plan.steps[plan.order[j]], DeployLoop(plan, store, turns, j);
    DeployFreezes(plan, store, turns, j, i);
    DeployFreezes(plan, store, turns, j + 1, i);
    var repaired := StepTurn(plan, s, turns[j], d.store, d.repairUsed).repaired;
    others := turns[j := Failing(turns[j], repaired)];
    SamePrefix(plan, store, turns, others, j);
    DeployNext(plan, store, turns, j);
    DeployNext(plan, store, others, j);
    SpoiltAlike(plan, d, s, turns[j]);
    DeployKeepsShape(plan, store, turns, j);
    StayAlike(plan, store, turns, others, j + 1, i, s.slot);
    forall k | j < k < i
      ensures !Builds(plan, k, s.slot)
    {
      assert Ignores(plan, k, s.slot);
    }
    KeepsStatusSince(plan, store, others, j + 1, i, s.slot);
  }

  lemma SpoiltAlike(plan: DeployPlan, d: Deployment, s: Step, turn: DeployTurn)
    requires s.optional && Mutates(s) && RequirementsOk(s, d.store) && !Book(plan, d, s, DeployTurnEnd(plan, d, s, turn)).halted
    ensures var repaired := StepTurn(plan, s, turn, d.store, d.repairUsed).repaired;
            var f := Book(plan, d, s, DeployTurnEnd(plan, d, s, Failing(turn, repaired)));
            && Alike(Book(plan, d, s, DeployTurnEnd(plan, d, s, turn)), f, s.slot)
            && StatusOf(f.store, s.slot) == StatusError
            && f.results == d.results + [f.results[|d.results|]] && !Served(f.results[|d.results|])
  {
    hide StepTurn, SameBut, RequirementsOk, Failing;
    var repaired := StepTurn(plan, s, turn, d.store, d.repairUsed).repaired;
    FailingTurn(plan, s, turn, d.store, d.repairUsed);
    TurnKeepsOthers(plan, s, turn, d.store, d.repairUsed);
    TurnKeepsOthers(plan, s, Failing(turn, repaired), d.store, d.repairUsed);
    SameButOn(d.store, StepTurn(plan, s, turn, d.store, d.repairUsed).store,
              StepTurn(plan, s, Failing(turn, repaired), d.store, d.repairUsed).store, s.slot);
  }

  /** A turn without authority, repair or skip is its command. */
  lemma PlainTurn(plan: DeployPlan, s: Step, turn: DeployTurn, store: Store, used: bool)
    requires !s.authority && s.observation.None? && !s.skipIfOk && s.requiredOk == [] && !turn.mismatch
    requires Mutates(s) && turn.first.cut.None? && turn.first.env in {CALM, CALM.(driver := Returned(false))}
    ensures var e, fails := StepTurn(plan, s, turn, store, used), turn.first.env != CALM;
            && e.rc == (if fails then 1 else 0) && !e.skipped && !e.repaired
            && (fails ==> StatusOf(e.store, s.slot) == StatusError)
  {
    hide StoreAfter, StatusOf;
    FailedTry(s, store);
    assert !MaySkip(s, store, turn.unreadable, turn.inputsChanged) && Admits(s, store, turn);
    assert turn.first.env == CALM ==> Try(s, turn.first, store).rc == 0;
  }

  // ----- Optional steps may break the plan -----------------------------------------------------

  const NOBODY := Provider(false, false, OtherError, OtherError, OtherError, OtherError)

  const EXTRA := Step("extra", "net/extra", Apply, [], true, false, false, None, false, false, [], false, None)
  const MAIN := Step("main", "vm/main", Deploy, [], false, false, false, None, false, false, ["net/extra"], false, None)

  const EXTRA_OK: Store := map["net/extra" := StateRecord(StatusOk, map[], None, None, None)]
  const PAIR := DeployPlan(map["extra" := EXTRA, "main" := MAIN], ["extra", "main"], true, false, {})
  const CLEAR := Checks({}, true, false, LiveSafe, NOBODY, true, true, true)
  const EXTRA_FAILS := DeployTurn({}, NOBODY, false, LiveSafe, Attempt(CALM.(driver := Returned(false)), None),
    false, false, Attempt(CALM, None), 0, false)

  /**
   The exception for optional steps is needed: a re-applied optional step that fails takes
   away a state which planning had read as ok, and the run goes on to the step that needs it.
   */
  lemma OptionalStepBreaksThePlan(last: DeployTurn)
    ensures DeployPlanOk(PAIR)
    ensures Faithful(PAIR.steps, PAIR.order, EXTRA_OK, [CLEAR, CLEAR], Report([Ready, Ready], [], []))
    ensures var d := DeployLoop(PAIR, EXTRA_OK, [EXTRA_FAILS, last], 1);
            !d.halted && StatusOf(d.store, "net/extra") == StatusError
  {
    PairIsReady();
    var turns := [EXTRA_FAILS, last];
    DeployStart(PAIR, EXTRA_OK, turns);
    DeployNext(PAIR, EXTRA_OK, turns, 0);
    PlainTurn(PAIR, EXTRA, EXTRA_FAILS, EXTRA_OK, false);
  }

  lemma PairIsReady()
    ensures Faithful(PAIR.steps, PAIR.order, EXTRA_OK, [CLEAR, CLEAR], Report([Ready, Ready], [], []))
  {
    var statuses := [Ready, Ready];
    assert !Held(PAIR.steps, PAIR.order, statuses, 0) && !Held(PAIR.steps, PAIR.order, statuses, 1);
    assert StatusRead(EXTRA_OK, "net/extra", {}) == StatusOk;
    assert Follows(PAIR.steps, PAIR.order, EXTRA_OK, [CLEAR, CLEAR], statuses, 0);
    assert Follows(PAIR.steps, PAIR.order, EXTRA_OK, [CLEAR, CLEAR], statuses, 1);
    forall optional
      ensures BlockedIds(PAIR.steps, PAIR.order, statuses, 2, optional) == []
    {
      assert BlockedIds(PAIR.steps, PAIR.order, statuses, 1, optional) == [];
    }
  }

  // ----- Two steps on one slot -------------------------------------------------------------------

  const AGAIN := Step("again", "vm/main", Deploy, [], true, false, false, None, false, false, [], false, None)
  const FIRST := AGAIN.(id := "first", optional := false)
  const TWICE := DeployPlan(map["first" := FIRST, "again" := AGAIN], ["first", "again"], true, false, {})
  const GOES_WELL := EXTRA_FAILS.(first := Attempt(CALM, None))

  /**
   Steps may share a slot: a required deploy succeeds, an optional one on the same slot fails
   after it, and the run returns 0 over a state in error.
   */
  lemma SharedSlotBreaksZero(store: Store)
    ensures DeployPlanOk(TWICE)
    ensures var d := DeployLoop(TWICE, store, [GOES_WELL, EXTRA_FAILS], 2);
            && DeployCode(d) == 0 && |d.results| == 2 && Served(d.results[0])
            && StatusOf(d.store, FIRST.slot) == StatusError && LeftBroken(TWICE, d, 1, FIRST.slot)
  {
    hide StepTurn, DeployLoop, StatusOf;
    var turns := [GOES_WELL, EXTRA_FAILS];
    DeployStart(TWICE, store, turns);
    DeployNext(TWICE, store, turns, 0);
    DeployNext(TWICE, store, turns, 1);
    PlainTurn(TWICE, FIRST, GOES_WELL, store, false);
    var e := StepTurn(TWICE, FIRST, GOES_WELL, store, false);
    PlainTurn(TWICE, AGAIN, EXTRA_FAILS, e.store, false);
    assert TWICE.order[0] == "first" && TWICE.order[1] == "again";
  }
}
