/** The promises of a deploy run: its shape, its authority, its crash safety, and its plan. */
module DeployTheorems {
  import opened Graphs
  import opened Ordering
  import opened Blueprint
  import opened ModuleState
  import opened SingleRun
  import opened Authority
  import opened Preflight
  import opened Deploy

  // ----- One step ------------------------------------------------------------------------------

  predicate Served(o: Outcome) {
    o.standing == StepOk || o.standing == StepSkipped
  }

  /**
   Evidence of an authority interval over the very turn: a valid observation from before the
   command and one of the same scope from after it, no older than the clock at completion, and a
   provider that vouches for what lies between.  Or the policy's consent to its absence, given to
   a provider that was ready at both ends and did not object.
   */
  ghost predicate Continuous(s: Step, turn: DeployTurn, interval: Option<Receipt>) {
    && interval.Some? && s.observation.Some?
    && Permits(turn.provider, s.observation) && interval.value.before == turn.provider.atBegin.v.observation
    && Healthy(turn.provider.atCompletion)
    && interval.value.after == turn.provider.atCompletion.v.observation
    && match interval.value.decision
       case Allow => && interval.value.interval == Stable && interval.value.completion == FreshRead
                     && Observed(interval.value, turn.floor) && Readable(interval.value.before.value)
                     && Vouches(turn.provider, interval.value.before, turn.floor)
       case Record => s.observation.value == RecordUnverified && LeavesOpen(turn.provider, interval.value.before, turn.floor)
       case Deny => false
  }

  /** What one turn can do: everything later rests on these five facts. */
  ghost predicate EndSound(plan: DeployPlan, s: Step, turn: DeployTurn, store: Store, repairUsed: bool, e: StepEnd) {
    && (e.skipped ==> e.rc == 0 && e.runs == 0 && StatusOf(store, s.slot) == StatusOk)
    && (e.runs == 0 ==> e.store == store && e.effects == [] && !e.repaired)
    && (e.rc == 0 ==> e.skipped || e.runs > 0)
    && (e.runs > 0 ==> Admits(s, store, turn))
    && (e.runs > 1 ==> e.repaired) && e.runs <= 2
    && (e.repaired ==> !repairUsed && plan.repairAllowed && s.id in plan.licensed && Mutates(s))
    && (e.rc == 0 && Mutates(s) ==> StatusOf(e.store, s.slot) == StatusOk)
    && (forall other :: other != s.slot || !Mutates(s) ==> StatusOf(e.store, other) == StatusOf(store, other))
    && (e.rc == 0 && s.observation.Some? && s.authority ==> Continuous(s, turn, e.interval))
  }

  lemma TryFacts(s: Step, a: Attempt, store: Store)
    ensures var c := Try(s, a, store);
            && (c.rc == 0 && Mutates(s) ==> StatusOf(StoreAfter(store, c.effects), s.slot) == StatusOk)
            && (forall other :: other != s.slot || !Mutates(s) ==> StatusOf(StoreAfter(store, c.effects), other) == StatusOf(store, other))
  {
    var none: Hosts := _ => {};
    var w := World(store, {});
    var c := Try(s, a, store);
    StoreAfterReplays(none, w, c.effects);
    if c.rc == 0 {
      SuccessIsRecorded(none, w, CommandOf(s), s.slot, a.env);
    }
    EffectsStayInSlot(CommandOf(s), s.slot, a.env, store);
    PlansDoNothing(CommandOf(s), s.slot, a.env, store);
    assert forall e :: e in c.effects ==> e in Single(CommandOf(s), s.slot, a.env, store).effects;
    forall other | other != s.slot
      ensures StatusOf(Replay(none, w, c.effects).store, other) == StatusOf(store, other)
    {
      OtherSlotsUntouched(none, w, c.effects, s.slot, other);
    }
  }

  lemma PlansDoNothing(cmd: Command, slot: Slot, env: Surroundings, store: Store)
    ensures cmd == CmdPlan || cmd == CmdValidate ==> Single(cmd, slot, env, store).effects == []
  {
  }

  lemma ExecuteFacts(plan: DeployPlan, s: Step, turn: DeployTurn, store: Store, repairUsed: bool)
    ensures var e := Execute(plan, s, turn, store, repairUsed);
            && (e.rc == 0 && Mutates(s) ==> StatusOf(e.store, s.slot) == StatusOk)
            && (forall other :: other != s.slot || !Mutates(s) ==> StatusOf(e.store, other) == StatusOf(store, other))
  {
    hide Try, StatusOf, StoreAfter;
    TryFacts(s, turn.first, store);
    TryFacts(s, turn.retry, StoreAfter(store, Try(s, turn.first, store).effects));
  }

  lemma ClosingFacts(s: Step, turn: DeployTurn)
    ensures s.observation.Some? && s.authority && Consents(Close(s, turn)) ==> Continuous(s, turn, ReceiptOf(Close(s, turn)))
  {
    var c := Close(s, turn);
    assert c.Receipted? ==> Observed(c.receipt, turn.floor) || c.receipt.decision != Allow;
  }

  lemma TurnIsSound(plan: DeployPlan, s: Step, turn: DeployTurn, store: Store, repairUsed: bool)
    ensures EndSound(plan, s, turn, store, repairUsed, StepTurn(plan, s, turn, store, repairUsed))
  {
    hide Execute, Close, Continuous, ContractsHold, Consents, ReceiptOf, StatusOf, MaySkip, Verification;
    ExecuteFacts(plan, s, turn, store, repairUsed);
    ClosingFacts(s, turn);
    SkippedWasOk(s, turn, store);
  }

  lemma SkippedWasOk(s: Step, turn: DeployTurn, store: Store)
    ensures MaySkip(s, store, turn.unreadable, turn.inputsChanged) ==> StatusOf(store, s.slot) == StatusOk
  {
  }

  // ----- The loop ------------------------------------------------------------------------------

  /** Iteration n, for a step whose turn really came. */
  ghost predicate DeployIterates(plan: DeployPlan, n: nat, turn: DeployTurn, d: Deployment, d': Deployment)
    requires DeployPlanOk(plan) && n < |plan.order|
  {
    var s := plan.steps[plan.order[n]];
    if d.halted then d' == d
    else
      |d.results| == n
      && exists e :: EndSound(plan, s, turn, d.store, d.repairUsed, e) && d' == Book(plan, d, s, e)
  }

  ghost predicate DeployShape(plan: DeployPlan, d: Deployment, n: nat) {
    && |d.results| <= n <= |plan.order| && (!d.halted ==> |d.results| == n)
    && forall k :: 0 <= k < |d.results| ==> d.results[k].id == plan.order[k]
  }

  lemma {:induction false} DeployKeepsShape(plan: DeployPlan, store: Store, turns: seq<DeployTurn>, n: nat)
    requires DeployPlanOk(plan) && |turns| == |plan.order| && n <= |turns|
    ensures DeployShape(plan, DeployLoop(plan, store, turns, n), n)
  {
    hide StepTurn, DeployLoop;
    DeployStart(plan, store, turns);
    if n > 0 {
      DeployKeepsShape(plan, store, turns, n - 1);
      DeployNext(plan, store, turns, n - 1);
      assert plan.order[n - 1] in plan.order;
    }
  }

  lemma DeployStep(plan: DeployPlan, store: Store, turns: seq<DeployTurn>, n: nat)
    requires DeployPlanOk(plan) && |turns| == |plan.order| && n < |turns|
    ensures DeployIterates(plan, n, turns[n], DeployLoop(plan, store, turns, n), DeployLoop(plan, store, turns, n + 1))
  {
    hide StepTurn, EndSound;
    var d := DeployLoop(plan, store, turns, n);
    var s := plan.steps[plan.order[n]];
    DeployKeepsShape(plan, store, turns, n);
    TurnIsSound(plan, s, turns[n], d.store, d.repairUsed);
  }

  /** Whatever an earlier state reported stays in the report. */
  lemma {:induction false} ReportGrows(plan: DeployPlan, store: Store, turns: seq<DeployTurn>, m: nat, n: nat)
    requires DeployPlanOk(plan) && |turns| == |plan.order| && m <= n <= |turns|
    ensures DeployLoop(plan, store, turns, m).results <= DeployLoop(plan, store, turns, n).results
  {
    hide EndSound, StepTurn, DeployLoop;
    if m < n {
      ReportGrows(plan, store, turns, m, n - 1);
      DeployStep(plan, store, turns, n - 1);
    }
  }

  // ----- Run shape -----------------------------------------------------------------------------

  /** What the loop has booked about step k. */
  ghost predicate Booked(plan: DeployPlan, turns: seq<DeployTurn>, d: Deployment, k: nat)
    requires k < |d.results| <= |turns|
  {
    var o := d.results[k];
    && o.id in plan.steps
    && (o.standing == StepFailed <==> o.rc != 0 && o.rc != CANCELLED && !plan.steps[o.id].optional)
    && (o.standing == StepFailedOptional <==> o.rc != 0 && o.rc != CANCELLED && plan.steps[o.id].optional)
    && (o.standing == StepCancelled <==> o.rc == CANCELLED)
    && (o.standing == StepFailed ==> o.id in d.required)
    && (Served(o) && plan.steps[o.id].observation.Some? && plan.steps[o.id].authority ==>
          Continuous(plan.steps[o.id], turns[k], o.interval))
  }

  /** Nothing but the last entry can have stopped the run. */
  ghost predicate Accounted(plan: DeployPlan, turns: seq<DeployTurn>, d: Deployment) {
    && |d.results| <= |turns| && (forall k :: 0 <= k < |d.results| ==> Booked(plan, turns, d, k))
    && (forall a :: a in d.required ==> exists k :: 0 <= k < |d.results| && d.results[k].id == a && d.results[k].standing == StepFailed)
    && (d.cancelled ==> d.halted)
    && (!d.halted ==> forall k :: 0 <= k < |d.results| ==>
          d.results[k].standing != StepCancelled && (plan.failFast ==> d.results[k].standing != StepFailed))
    && (d.halted ==> |d.results| > 0 && var last := d.results[|d.results| - 1].standing;
          (last == StepCancelled && d.cancelled) || (last == StepFailed && plan.failFast))
  }

  lemma {:induction false} LoopIsAccounted(plan: DeployPlan, store: Store, turns: seq<DeployTurn>, n: nat)
    requires DeployPlanOk(plan) && |turns| == |plan.order| && n <= |turns|
    ensures Accounted(plan, turns, DeployLoop(plan, store, turns, n))
  {
    hide StepTurn, DeployLoop, Continuous, EndSound, Book, Accounted;
    if n > 0 {
      LoopIsAccounted(plan, store, turns, n - 1);
      DeployStep(plan, store, turns, n - 1);
      var d, d' := DeployLoop(plan, store, turns, n - 1), DeployLoop(plan, store, turns, n);
      if !d.halted {
        assert plan.order[n - 1] in plan.order;
        BookKeepsAccounted(plan, turns, d, plan.steps[plan.order[n - 1]], d');
      }
    } else {
      DeployStart(plan, store, turns);
      NothingBooked(plan, turns, store);
    }
  }

  lemma NothingBooked(plan: DeployPlan, turns: seq<DeployTurn>, store: Store)
    ensures Accounted(plan, turns, Begun(store))
  {
  }

  lemma BookKeepsAccounted(plan: DeployPlan, turns: seq<DeployTurn>, d: Deployment, s: Step, d': Deployment)
    requires Accounted(plan, turns, d) && |d.results| < |turns| && !d.halted && s.id in plan.steps && plan.steps[s.id] == s
    requires exists e :: EndSound(plan, s, turns[|d.results|], d.store, d.repairUsed, e) && d' == Book(plan, d, s, e)
    ensures Accounted(plan, turns, d')
  {
    hide Continuous;
    var n := |d.results|;
    var e :| EndSound(plan, s, turns[n], d.store, d.repairUsed, e) && d' == Book(plan, d, s, e);
    forall k | 0 <= k <= n
      ensures Booked(plan, turns, d', k)
    {
      assert k < n ==> Booked(plan, turns, d, k);
    }
    forall a | a in d'.required
      ensures exists k :: 0 <= k <= n && d'.results[k].id == a && d'.results[k].standing == StepFailed
    {
      if a in d.required {
        var k :| 0 <= k < n && d.results[k].id == a && d.results[k].standing == StepFailed;
        assert d'.results[k] == d.results[k];
      } else {
        assert d'.results[n].id == a;
      }
    }
  }

  /** A step's turn comes only if no required step before it failed or was cancelled. */
  lemma FailFastMeansServed(plan: DeployPlan, store: Store, turns: seq<DeployTurn>, i: nat)
    requires DeployPlanOk(plan) && |turns| == |plan.order| && i < |turns|
    requires plan.failFast && !DeployLoop(plan, store, turns, i).halted
    ensures var d := DeployLoop(plan, store, turns, i);
            && |d.results| == i
            && forall j :: 0 <= j < i ==>
                 && d.results[j].id == plan.order[j]
                 && (Served(d.results[j]) || (plan.steps[plan.order[j]].optional && d.results[j].standing == StepFailedOptional))
  {
    hide Continuous, DeployLoop;
    var d := DeployLoop(plan, store, turns, i);
    LoopIsAccounted(plan, store, turns, i);
    DeployKeepsShape(plan, store, turns, i);
    forall j | 0 <= j < i
      ensures Served(d.results[j]) || (plan.steps[plan.order[j]].optional && d.results[j].standing == StepFailedOptional)
    {
      assert Booked(plan, turns, d, j);
    }
  }

  /** Under fail_fast nothing runs before all it needs, however indirectly, has been served. */
  lemma RequirementsServedFirst(steps: seq<Step>, order: seq<Id>, plan: DeployPlan, store: Store,
        turns: seq<DeployTurn>, i: nat, b: Id)
    requires Payload(steps, order) && plan.steps == ById(steps) && plan.order == order
    requires DeployPlanOk(plan) && |turns| == |plan.order| && i < |turns|
    requires plan.failFast && !DeployLoop(plan, store, turns, i).halted
    requires Reaches(StepGraph(steps), order[i], b) && !plan.steps[b].optional
    ensures exists j :: 0 <= j < i < |turns| && order[j] == b && j < |DeployLoop(plan, store, turns, i).results|
                        && Served(DeployLoop(plan, store, turns, i).results[j])
  {
    hide DeployLoop, Acyclic, Sound;
    FailFastMeansServed(plan, store, turns, i);
    assert b in order[..i];
    var j :| 0 <= j < i && order[j] == b;
  }

  // ----- Commands are started once -------------------------------------------------------------

  ghost predicate Once(plan: DeployPlan, d: Deployment, started: multiset<Id>, retried: Option<Id>) {
    && (forall a :: started[a] <= if retried == Some(a) then 2 else 1)
    && (retried.Some? ==> d.repairUsed && plan.repairAllowed && retried.value in plan.licensed)
    && (forall a :: a in started ==> exists k :: 0 <= k < |d.results| && d.results[k].id == a)
  }

  /**
   No step's command is started twice, but for one step of the image module in the whole run, and
   only if repairs are allowed; and a command is started only for steps in the report.
   */
  lemma {:induction false} CommandsOnce(plan: DeployPlan, store: Store, turns: seq<DeployTurn>, n: nat)
    returns (retried: Option<Id>)
    requires DeployPlanOk(plan) && |turns| == |plan.order| && n <= |turns| && NoDuplicates(plan.order)
    ensures Once(plan, DeployLoop(plan, store, turns, n), multiset(DeployLoop(plan, store, turns, n).commands), retried)
  {
    hide StepTurn, DeployLoop, Continuous;
    if n == 0 {
      DeployStart(plan, store, turns);
      return None;
    }
    retried := CommandsOnce(plan, store, turns, n - 1);
    DeployStep(plan, store, turns, n - 1);
    DeployKeepsShape(plan, store, turns, n - 1);
    var d, d' := DeployLoop(plan, store, turns, n - 1), DeployLoop(plan, store, turns, n);
    if !d.halted {
      var s := plan.steps[plan.order[n - 1]];
      assert plan.order[n - 1] in plan.order;
      var e :| EndSound(plan, s, turns[n - 1], d.store, d.repairUsed, e) && d' == Book(plan, d, s, e);
      retried := OneMoreTurn(plan, d, s, turns[n - 1], e, retried);
    }
  }

  lemma {:induction false} CountsGrow(commands: seq<Id>, id: Id, runs: nat)
    ensures forall a :: multiset(commands + seq(runs, _ => id))[a] == multiset(commands)[a] + if a == id then runs else 0
  {
    var more := commands + seq(runs, _ => id);
    if runs == 0 {
      assert more == commands;
    } else {
      CountsGrow(commands, id, runs - 1);
      assert more == (commands + seq(runs - 1, _ => id)) + [id];
    }
  }

  lemma OneMoreTurn(plan: DeployPlan, d: Deployment, s: Step, turn: DeployTurn, e: StepEnd, retried: Option<Id>)
    returns (r: Option<Id>)
    requires Once(plan, d, multiset(d.commands), retried) && EndSound(plan, s, turn, d.store, d.repairUsed, e)
    requires forall k :: 0 <= k < |d.results| ==> d.results[k].id != s.id
    ensures Once(plan, Book(plan, d, s, e), multiset(Book(plan, d, s, e).commands), r)
  {
    hide Continuous, Admits, StatusOf;
    var d' := Book(plan, d, s, e);
    var before, after := multiset(d.commands), multiset(d'.commands);
    r := if e.runs == 2 then Some(s.id) else retried;
    CountsGrow(d.commands, s.id, e.runs);
    assert before[s.id] == 0;
    forall a | a in after
      ensures exists k :: 0 <= k < |d'.results| && d'.results[k].id == a
    {
      if a in before {
        var k :| 0 <= k < |d.results| && d.results[k].id == a;
        assert d'.results[k].id == a;
      } else {
        assert d'.results[|d.results|].id == a;
      }
    }
  }

  function Starts(es: seq<Effect>, slot: Slot): nat {
    multiset(es)[DriverStarts(slot)]
  }

  lemma StartsAdd(es: seq<Effect>, fs: seq<Effect>, slot: Slot)
    ensures Starts(es + fs, slot) == Starts(es, slot) + Starts(fs, slot)
  {
  }

  lemma NoStarts(es: seq<Effect>, slot: Slot)
    requires forall e :: e in es ==> e != DriverStarts(slot)
    ensures Starts(es, slot) == 0
  {
    assert DriverStarts(slot) !in es;
  }

  lemma PrefixStarts(es: seq<Effect>, n: nat, slot: Slot)
    requires n <= |es|
    ensures Starts(es[..n], slot) <= Starts(es, slot)
  {
    assert es == es[..n] + es[n..];
    StartsAdd(es[..n], es[n..], slot);
  }

  /** One command hands over to the driver of its own slot at most once. */
  lemma SingleStartsOnce(cmd: Command, slot: Slot, env: Surroundings, store: Store, other: Slot)
    ensures Starts(Single(cmd, slot, env, store).effects, other) <= if other == slot then 1 else 0
  {
    hide FailureEffects, StartEffects, StoreAtDriver, PreflightStops, DriverSucceeds, Starts;
    OnlyTheDriverStarts(cmd, slot, env, store, store, false);
    OnlyTheDriverStarts(cmd, slot, env, store, StoreAtDriver(cmd, slot, env, store), Creates(cmd));
    var called := DriverEffects(cmd, slot, env, store);
    var failed := FailureEffects(cmd, slot, env, StoreAtDriver(cmd, slot, env, store), Creates(cmd));
    var last := Saves(env.final, slot, FinalRecord(cmd, env));
    CallStartsOnce(cmd, slot, env, store, other);
    NoStarts(failed, other);
    NoStarts(last, other);
    NoStarts(StartEffects(cmd, slot, env, store), other);
    NoStarts(FailureEffects(cmd, slot, env, store, false), other);
    NoStarts([], other);
    StartsAdd(called, failed, other);
    StartsAdd(called, last, other);
  }

  lemma CallStartsOnce(cmd: Command, slot: Slot, env: Surroundings, store: Store, other: Slot)
    ensures Starts(DriverEffects(cmd, slot, env, store), other) <= if other == slot then 1 else 0
  {
  }

  lemma TryStartsOnce(s: Step, a: Attempt, store: Store, slot: Slot)
    ensures Starts(Try(s, a, store).effects, slot) <= if slot == s.slot then 1 else 0
  {
    hide Single, Starts;
    SingleStartsOnce(CommandOf(s), s.slot, a.env, store, slot);
    var full := Single(CommandOf(s), s.slot, a.env, store).effects;
    PrefixStarts(full, |Try(s, a, store).effects|, slot);
    assert full[..|full|] == full;
  }

  lemma TurnStartsRuns(plan: DeployPlan, s: Step, turn: DeployTurn, store: Store, repairUsed: bool, slot: Slot)
    ensures var e := StepTurn(plan, s, turn, store, repairUsed);
            Starts(e.effects, slot) <= if slot == s.slot then e.runs else 0
  {
    hide Try, StoreAfter, Close, ContractsHold, Consents, ReceiptOf, MaySkip, Starts;
    var first := Try(s, turn.first, store).effects;
    TryStartsOnce(s, turn.first, store, slot);
    var between := StoreAfter(store, first);
    TryStartsOnce(s, turn.retry, between, slot);
    StartsAdd(first, Try(s, turn.retry, between).effects, slot);
    NoStarts([], slot);
  }

  /** How many of the first n steps are on the slot. */
  function StepsOn(plan: DeployPlan, slot: Slot, n: nat): nat
    requires DeployPlanOk(plan) && n <= |plan.order|
  {
    if n == 0 then 0
    else
      assert plan.order[n - 1] in plan.order;
      StepsOn(plan, slot, n - 1) + if plan.steps[plan.order[n - 1]].slot == slot then 1 else 0
  }

  predicate RetriedOn(plan: DeployPlan, retried: Option<Id>, slot: Slot) {
    retried.Some? && retried.value in plan.steps && plan.steps[retried.value].slot == slot
  }

  /**
   In the trace of a run a slot's driver is started at most once for each step on the slot, but
   for one more start in the whole run, of a licensed step and only if repairs are allowed.
   */
  lemma {:induction false} DriversStartOnce(plan: DeployPlan, store: Store, turns: seq<DeployTurn>, n: nat)
    returns (retried: Option<Id>)
    requires DeployPlanOk(plan) && |turns| == |plan.order| && n <= |turns|
    ensures retried.Some? ==> plan.repairAllowed && retried.value in plan.licensed && DeployLoop(plan, store, turns, n).repairUsed
    ensures forall slot ::
              Starts(DeployLoop(plan, store, turns, n).effects, slot)
                <= StepsOn(plan, slot, n) + if RetriedOn(plan, retried, slot) then 1 else 0
  {
    hide StepTurn, DeployLoop, Starts, Continuous, StatusOf;
    if n == 0 {
      DeployStart(plan, store, turns);
      forall slot
        ensures Starts([], slot) == 0
      {
        NoStarts([], slot);
      }
      return None;
    }
    retried := DriversStartOnce(plan, store, turns, n - 1);
    DeployNext(plan, store, turns, n - 1);
    assert plan.order[n - 1] in plan.order;
    var d, s, before := DeployLoop(plan, store, turns, n - 1), plan.steps[plan.order[n - 1]], retried;
    if !d.halted {
      var e := StepTurn(plan, s, turns[n - 1], d.store, d.repairUsed);
      TurnIsSound(plan, s, turns[n - 1], d.store, d.repairUsed);
      retried := if e.runs == 2 then Some(s.id) else before;
      forall slot
        ensures Starts(d.effects + e.effects, slot) <= StepsOn(plan, slot, n) + if RetriedOn(plan, retried, slot) then 1 else 0
      {
        TurnStartsRuns(plan, s, turns[n - 1], d.store, d.repairUsed, slot);
        StartsAdd(d.effects, e.effects, slot);
      }
    }
  }

  // ----- Authority -----------------------------------------------------------------------------

  /**
   In a validated blueprint no step that asks for an observed authority interval is reported
   ok or skipped without one: evidenced over the step's own turn, or unverifiable with the
   policy's consent.
   */
  lemma ServedMeansContinuous(steps: seq<Step>, plan: DeployPlan, store: Store, turns: seq<DeployTurn>, k: nat)
    requires Sound(steps) && plan.steps == ById(steps)
    requires DeployPlanOk(plan) && |turns| == |plan.order|
    requires k < |DeployLoop(plan, store, turns, |turns|).results|
    ensures k < |turns|
    ensures var o := DeployLoop(plan, store, turns, |turns|).results[k];
            && o.id in plan.steps && o.id == plan.order[k]
            && (Served(o) && plan.steps[o.id].observation.Some? ==> Continuous(plan.steps[o.id], turns[k], o.interval))
  {
    hide Continuous, DeployLoop, Acyclic, StepSound;
    LoopIsAccounted(plan, store, turns, |turns|);
    DeployKeepsShape(plan, store, turns, |turns|);
    assert Booked(plan, turns, DeployLoop(plan, store, turns, |turns|), k);
  }

  // ----- Crash safety --------------------------------------------------------------------------

  ghost predicate Accompanies(hosts: Hosts, w: World, es: seq<Effect>, store: Store) {
    SafeThroughout(hosts, w, es) && store == Replay(hosts, w, es).store
  }

  lemma TryIsSafe(hosts: Hosts, w: World, es: seq<Effect>, store: Store, s: Step, a: Attempt)
    requires TransitiveHosts(hosts) && Accompanies(hosts, w, es, store)
    ensures Accompanies(hosts, w, es + Try(s, a, store).effects, StoreAfter(store, Try(s, a, store).effects))
  {
    hide StepRun, TransitiveHosts;
    var more := Try(s, a, store).effects;
    assert es[..|es|] == es;
    StepRunIsCrashSafe(hosts, Replay(hosts, w, es), CommandOf(s), s.slot, a.env, a.cut);
    SafeConcat(hosts, w, es, more);
    ReplayConcat(hosts, w, es, more);
    StoreAfterReplays(hosts, Replay(hosts, w, es), more);
  }

  lemma TurnIsSafe(hosts: Hosts, w: World, es: seq<Effect>, store: Store, plan: DeployPlan, s: Step,
        turn: DeployTurn, repairUsed: bool)
    requires TransitiveHosts(hosts) && Accompanies(hosts, w, es, store)
    ensures var e := StepTurn(plan, s, turn, store, repairUsed);
            Accompanies(hosts, w, es + e.effects, e.store)
  {
    hide Accompanies, Try, StoreAfter, Close, ContractsHold;
    TryIsSafe(hosts, w, es, store, s, turn.first);
    var first := Try(s, turn.first, store);
    var between := StoreAfter(store, first.effects);
    TryIsSafe(hosts, w, es + first.effects, between, s, turn.retry);
    assert es + first.effects + Try(s, turn.retry, between).effects == es + (first.effects + Try(s, turn.retry, between).effects);
    assert es + [] == es;
  }

  /** However far the run got, and wherever its effects are cut off, no live slot reads as gone. */
  lemma {:induction false} DeployRunIsCrashSafe(hosts: Hosts, w: World, plan: DeployPlan,
        turns: seq<DeployTurn>, n: nat)
    requires DeployPlanOk(plan) && |turns| == |plan.order| && n <= |turns|
    requires TransitiveHosts(hosts) && Safe(hosts, w)
    ensures Accompanies(hosts, w, DeployLoop(plan, w.store, turns, n).effects, DeployLoop(plan, w.store, turns, n).store)
  {
    hide StepTurn, DeployLoop, TransitiveHosts;
    if n == 0 {
      DeployStart(plan, w.store, turns);
      SafeEmpty(hosts, w);
    } else {
      DeployRunIsCrashSafe(hosts, w, plan, turns, n - 1);
      DeployNext(plan, w.store, turns, n - 1);
      var d := DeployLoop(plan, w.store, turns, n - 1);
      TurnIsSafe(hosts, w, d.effects, d.store, plan, plan.steps[plan.order[n - 1]], turns[n - 1], d.repairUsed);
    }
  }

  // ----- The plan was right --------------------------------------------------------------------

  /** A turn touches the status of its own slot only. */
  lemma OnlyOwnSlot(plan: DeployPlan, store: Store, turns: seq<DeployTurn>, n: nat, ref: Slot)
    requires DeployPlanOk(plan) && |turns| == |plan.order| && n < |turns|
    requires ref != plan.steps[plan.order[n]].slot || !Mutates(plan.steps[plan.order[n]])
    ensures StatusOf(DeployLoop(plan, store, turns, n + 1).store, ref) == StatusOf(DeployLoop(plan, store, turns, n).store, ref)
  {
    hide StepTurn, DeployLoop, Continuous, StatusOf;
    DeployStep(plan, store, turns, n);
  }

  lemma ServedIsOk(plan: DeployPlan, store: Store, turns: seq<DeployTurn>, n: nat)
    requires DeployPlanOk(plan) && |turns| == |plan.order| && n < |turns| && !DeployLoop(plan, store, turns, n).halted
    ensures var s, d := plan.steps[plan.order[n]], DeployLoop(plan, store, turns, n + 1);
            |d.results| == n + 1 && (Served(d.results[n]) && Mutates(s) ==> StatusOf(d.store, s.slot) == StatusOk)
  {
    hide StepTurn, DeployLoop, Continuous, StatusOf;
    DeployStep(plan, store, turns, n);
  }

  /** Step k applies or deploys this state. */
  predicate Builds(plan: DeployPlan, k: nat, ref: Slot)
    requires k < |plan.order|
  {
    var a := plan.order[k];
    a in plan.steps && plan.steps[a].slot == ref && Mutates(plan.steps[a])
  }

  /** A state keeps the status of the last turn that built it. */
  lemma {:induction false} KeepsStatusSince(plan: DeployPlan, store: Store, turns: seq<DeployTurn>, m: nat, n: nat, ref: Slot)
    requires DeployPlanOk(plan) && |turns| == |plan.order| && m <= n <= |turns|
    requires forall k :: m <= k < n ==> !Builds(plan, k, ref)
    ensures StatusOf(DeployLoop(plan, store, turns, n).store, ref) == StatusOf(DeployLoop(plan, store, turns, m).store, ref)
  {
    hide StepTurn, DeployLoop, StatusOf;
    if m < n {
      KeepsStatusSince(plan, store, turns, m, n - 1, ref);
      assert !Builds(plan, n - 1, ref) && plan.order[n - 1] in plan.order;
      OnlyOwnSlot(plan, store, turns, n - 1, ref);
    }
  }

  /** Once the last step to build a state has been served, the state reads ok until the end. */
  lemma ServedStaysOk(plan: DeployPlan, store: Store, turns: seq<DeployTurn>, j: nat, n: nat)
    requires DeployPlanOk(plan) && |turns| == |plan.order| && j < n <= |turns|
    requires !DeployLoop(plan, store, turns, j).halted && Mutates(plan.steps[plan.order[j]])
    requires forall k :: j < k < n ==> !Builds(plan, k, plan.steps[plan.order[j]].slot)
    ensures j < |DeployLoop(plan, store, turns, n).results|
    ensures Served(DeployLoop(plan, store, turns, n).results[j]) ==>
              StatusOf(DeployLoop(plan, store, turns, n).store, plan.steps[plan.order[j]].slot) == StatusOk
  {
    hide StepTurn, DeployLoop, StatusOf;
    ServedIsOk(plan, store, turns, j);
    ReportGrows(plan, store, turns, j + 1, n);
    KeepsStatusSince(plan, store, turns, j + 1, n, plan.steps[plan.order[j]].slot);
  }

  /**
   An optional apply or deploy of the state has had its turn, was admitted, and was not served:
   its command may have been started on the state.
   */
  ghost predicate MayHaveSpoilt(plan: DeployPlan, store: Store, turns: seq<DeployTurn>, j: nat, ref: Slot)
    requires DeployPlanOk(plan) && |turns| == |plan.order| && j < |turns|
  {
    var s, d := plan.steps[plan.order[j]], DeployLoop(plan, store, turns, j + 1);
    && s.slot == ref && s.optional && Mutates(s)
    && (j < |d.results| ==> !Served(d.results[j]))
    && RequirementsOk(s, DeployLoop(plan, store, turns, j).store)
  }

  ghost predicate RequirementsOk(s: Step, store: Store) {
    forall ref :: ref in s.requiredOk ==> StatusOf(store, ref) == StatusOk
  }

  ghost predicate UnspoiltSince(plan: DeployPlan, store: Store, turns: seq<DeployTurn>, m: nat, n: nat, ref: Slot)
    requires DeployPlanOk(plan) && |turns| == |plan.order| && n <= |turns|
  {
    forall k :: m <= k < n ==> !MayHaveSpoilt(plan, store, turns, k, ref)
  }

  /** Planning took the state for granted on account of step j, and nothing has spoilt it since. */
  ghost predicate BuiltSafely(plan: DeployPlan, store: Store, turns: seq<DeployTurn>, r: Report, j: nat, i: nat, ref: Slot)
    requires DeployPlanOk(plan) && |turns| == |plan.order| && j < i <= |turns| && i <= |r.statuses|
  {
    Planned(plan.steps[plan.order[j]], r.statuses[j]) && plan.steps[plan.order[j]].slot == ref
    && UnspoiltSince(plan, store, turns, j + 1, i, ref)
  }

  /**
   The plan's optimism is justified.  When a fail_fast run reaches step i, a state that planning
   took for granted because an earlier step was to build it is recorded ok, and so is one that
   planning saw, unless an optional step was admitted to it since then and was not served.
   */
  lemma PlanHolds(plan: DeployPlan, store: Store, checks: seq<Checks>, r: Report, turns: seq<DeployTurn>,
        i: nat, ref: Slot)
    requires DeployPlanOk(plan) && |turns| == |plan.order| == |checks| && i < |turns| && plan.failFast
    requires Faithful(plan.steps, plan.order, store, checks, r) && |r.statuses| == |plan.order|
    requires r.statuses[i] == Ready && ref in plan.steps[plan.order[i]].requiredOk
    requires !DeployLoop(plan, store, turns, i).halted
    ensures (exists j :: 0 <= j < i && BuiltSafely(plan, store, turns, r, j, i, ref)) ==>
              StatusOf(DeployLoop(plan, store, turns, i).store, ref) == StatusOk
    ensures UnspoiltSince(plan, store, turns, 0, i, ref) ==>
              StatusOf(DeployLoop(plan, store, turns, i).store, ref) == StatusOk
  {
    hide DeployLoop, Continuous, MayHaveSpoilt, StatusOf;
    forall j | 0 <= j < i && BuiltSafely(plan, store, turns, r, j, i, ref)
      ensures StatusOf(DeployLoop(plan, store, turns, i).store, ref) == StatusOk
    {
      PlannedStaysOk(plan, store, turns, j, i);
    }
    if UnspoiltSince(plan, store, turns, 0, i, ref) {
      SeenByPlanning(plan, store, checks, r, i, ref);
      if StatusOf(store, ref) == StatusOk {
        DeployStart(plan, store, turns);
        UnspoiltStaysOk(plan, store, turns, 0, i, ref);
      } else {
        var j :| 0 <= j < i && Planned(plan.steps[plan.order[j]], r.statuses[j]) && plan.steps[plan.order[j]].slot == ref;
        PlannedStaysOk(plan, store, turns, j, i);
      }
    }
  }

  /** A required step that builds a state has been served when a later turn comes. */
  lemma PlannedStaysOk(plan: DeployPlan, store: Store, turns: seq<DeployTurn>, j: nat, i: nat)
    requires DeployPlanOk(plan) && |turns| == |plan.order| && j < i < |turns| && plan.failFast
    requires !plan.steps[plan.order[j]].optional && Mutates(plan.steps[plan.order[j]])
    requires UnspoiltSince(plan, store, turns, j + 1, i, plan.steps[plan.order[j]].slot)
    requires !DeployLoop(plan, store, turns, i).halted
    ensures StatusOf(DeployLoop(plan, store, turns, i).store, plan.steps[plan.order[j]].slot) == StatusOk
  {
    hide DeployLoop, Continuous, MayHaveSpoilt, StatusOf, UnspoiltSince;
    DeployFreezes(plan, store, turns, j, i);
    ServedIsOk(plan, store, turns, j);
    FailFastMeansServed(plan, store, turns, i);
    ReportGrows(plan, store, turns, j + 1, i);
    UnspoiltStaysOk(plan, store, turns, j + 1, i, plan.steps[plan.order[j]].slot);
  }

  lemma {:induction false} UnspoiltStaysOk(plan: DeployPlan, store: Store, turns: seq<DeployTurn>, m: nat, n: nat, ref: Slot)
    requires DeployPlanOk(plan) && |turns| == |plan.order| && m <= n < |turns| && plan.failFast
    requires UnspoiltSince(plan, store, turns, m, n, ref) && !DeployLoop(plan, store, turns, n).halted
    requires StatusOf(DeployLoop(plan, store, turns, m).store, ref) == StatusOk
    ensures StatusOf(DeployLoop(plan, store, turns, n).store, ref) == StatusOk
  {
    hide DeployLoop, MayHaveSpoilt, StatusOf;
    if m < n {
      DeployFreezes(plan, store, turns, n - 1, n);
      UnspoiltStaysOk(plan, store, turns, m, n - 1, ref);
      TurnKeepsOk(plan, store, turns, n - 1, ref);
    }
  }

  /** A turn takes an ok state away only if it may have spoilt it. */
  lemma TurnKeepsOk(plan: DeployPlan, store: Store, turns: seq<DeployTurn>, k: nat, ref: Slot)
    requires DeployPlanOk(plan) && |turns| == |plan.order| && k + 1 < |turns| && plan.failFast
    requires !DeployLoop(plan, store, turns, k).halted && !DeployLoop(plan, store, turns, k + 1).halted
    requires !MayHaveSpoilt(plan, store, turns, k, ref) && StatusOf(DeployLoop(plan, store, turns, k).store, ref) == StatusOk
    ensures StatusOf(DeployLoop(plan, store, turns, k + 1).store, ref) == StatusOk
  {
    hide DeployLoop, Continuous, StatusOf, StatusRead;
    var s := plan.steps[plan.order[k]];
    if s.slot == ref && Mutates(s) {
      ServedIsOk(plan, store, turns, k);
      FailFastMeansServed(plan, store, turns, k + 1);
      DeployStep(plan, store, turns, k);
      AdmittedMeansRequirementsOk(s, DeployLoop(plan, store, turns, k).store, turns[k]);
    } else {
      OnlyOwnSlot(plan, store, turns, k, ref);
    }
  }

  lemma AdmittedMeansRequirementsOk(s: Step, store: Store, turn: DeployTurn)
    ensures Admits(s, store, turn) ==> RequirementsOk(s, store)
  {
  }

  lemma SeenByPlanning(plan: DeployPlan, store: Store, checks: seq<Checks>, r: Report, i: nat, ref: Slot)
    requires DeployPlanOk(plan) && |plan.order| == |checks| && i < |plan.order|
    requires Faithful(plan.steps, plan.order, store, checks, r) && |r.statuses| == |plan.order|
    requires r.statuses[i] == Ready && ref in plan.steps[plan.order[i]].requiredOk
    ensures ref in Assumed(plan.steps, plan.order, r.statuses, i) || StatusOf(store, ref) == StatusOk
  {
    assert Follows(plan.steps, plan.order, store, checks, r.statuses, i);
  }

  // ----- Exit code -----------------------------------------------------------------------------

  /** The last step to build the state is an optional one, and was not served. */
  ghost predicate LeftBroken(plan: DeployPlan, d: Deployment, k: nat, ref: Slot)
    requires DeployPlanOk(plan) && k < |d.results| <= |plan.order|
  {
    && Builds(plan, k, ref) && plan.steps[plan.order[k]].optional && !Served(d.results[k])
    && forall l :: k < l < |plan.order| ==> !Builds(plan, l, ref)
  }

  /**
   Exit code 0 means that every step had its turn, every required one was served, and every
   required apply or deploy has its state recorded ok, unless an optional step on the same slot
   had the last turn and was not served.
   */
  lemma ZeroMeansDeployed(plan: DeployPlan, store: Store, turns: seq<DeployTurn>)
    requires DeployPlanOk(plan) && |turns| == |plan.order|
    requires DeployCode(DeployLoop(plan, store, turns, |turns|)) == 0
    ensures var d := DeployLoop(plan, store, turns, |turns|);
            && |d.results| == |plan.order|
            && forall i :: 0 <= i < |d.results| ==>
                 var s := plan.steps[plan.order[i]];
                 && d.results[i].id == s.id && (!s.optional ==> Served(d.results[i]))
                 && (!s.optional && Mutates(s) ==>
                       || StatusOf(d.store, s.slot) == StatusOk
                       || exists k :: i < k < |d.results| && LeftBroken(plan, d, k, s.slot))
  {
    hide DeployLoop, Continuous, StatusOf, LeftBroken;
    var d := DeployLoop(plan, store, turns, |turns|);
    LoopIsAccounted(plan, store, turns, |turns|);
    DeployKeepsShape(plan, store, turns, |turns|);
    assert |d.results| > 0 ==> Booked(plan, turns, d, |d.results| - 1);
    forall i | 0 <= i < |d.results|
      ensures var s := plan.steps[plan.order[i]];
              && d.results[i].id == s.id && (!s.optional ==> Served(d.results[i]))
              && (!s.optional && Mutates(s) ==>
                    || StatusOf(d.store, s.slot) == StatusOk
                    || exists k :: i < k < |d.results| && LeftBroken(plan, d, k, s.slot))
    {
      assert plan.order[i] in plan.order && Booked(plan, turns, d, i);
      if Mutates(plan.steps[plan.order[i]]) {
        var k := LastToBuild(plan, i);
        assert plan.order[k] in plan.order && Booked(plan, turns, d, k);
        LastBuilderDecides(plan, store, turns, k, plan.steps[plan.order[i]].slot);
      }
    }
  }

  lemma LastBuilderDecides(plan: DeployPlan, store: Store, turns: seq<DeployTurn>, k: nat, ref: Slot)
    requires DeployPlanOk(plan) && |turns| == |plan.order| && k < |turns| && Builds(plan, k, ref)
    requires !DeployLoop(plan, store, turns, |turns|).halted && forall l :: k < l < |plan.order| ==> !Builds(plan, l, ref)
    ensures var d := DeployLoop(plan, store, turns, |turns|);
            && k < |d.results| <= |plan.order|
            && (Served(d.results[k]) ==> StatusOf(d.store, ref) == StatusOk)
            && (!Served(d.results[k]) && plan.steps[plan.order[k]].optional ==> LeftBroken(plan, d, k, ref))
  {
    hide DeployLoop, StatusOf;
    DeployFreezes(plan, store, turns, k, |turns|);
    ServedStaysOk(plan, store, turns, k, |turns|);
    DeployKeepsShape(plan, store, turns, |turns|);
  }

  lemma {:induction false} LastToBuild(plan: DeployPlan, i: nat) returns (k: nat)
    requires DeployPlanOk(plan) && i < |plan.order| && Mutates(plan.steps[plan.order[i]])
    ensures var ref := plan.steps[plan.order[i]].slot;
            i <= k < |plan.order| && Builds(plan, k, ref) && forall l :: k < l < |plan.order| ==> !Builds(plan, l, ref)
    decreases |plan.order| - i
  {
    var ref := plan.steps[plan.order[i]].slot;
    if l :| i < l < |plan.order| && Builds(plan, l, ref) {
      k := LastToBuild(plan, l);
    } else {
      assert plan.order[i] in plan.order;
      k := i;
    }
  }
}
