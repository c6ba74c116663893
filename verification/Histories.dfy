/**
 Whole histories: commands, deployments, teardowns and rebuilds, one after the other, each
 possibly cut off by a crash between any two of its effects.
 */
module Histories {
  import opened Ordering
  import opened Blueprint
  import opened ModuleState
  import opened SingleRun
  import opened Teardown
  import opened TeardownTheorems
  import opened TeardownVerdicts
  import TeardownRun
  import DestroyLoop
  import Deploy
  import DeployTheorems

  /** One episode; it is cut off after `cut` effects, or completes if there are no more. */
  datatype Episode =
    | OneCommand(cut: nat, cmd: Command, slot: Slot, env: Surroundings)
    | Destroying(cut: nat, plan: Plan, turns: seq<Turn>)
    | Deploying(cut: nat, deployPlan: Deploy.DeployPlan, deployTurns: seq<Deploy.DeployTurn>)

  /** The episode could be run at all, and its plan knows what hosts what. */
  ghost predicate WellPosed(hosts: Hosts, e: Episode) {
    match e
    case OneCommand(_, _, _, _) => true
    case Destroying(_, plan, turns) => PlanOk(plan) && |turns| == |plan.order| && HostsAgree(hosts, plan)
    case Deploying(_, plan, turns) => Deploy.DeployPlanOk(plan) && |turns| == |plan.order|
  }

  ghost function EffectsOf(hosts: Hosts, e: Episode, store: Store): seq<Effect>
    requires WellPosed(hosts, e)
  {
    match e
    case OneCommand(_, cmd, slot, env) => Single(cmd, slot, env, store).effects
    case Destroying(_, plan, turns) => TeardownRun.Run(plan, store, turns).effects
    case Deploying(_, plan, turns) => Deploy.DeployLoop(plan, store, turns, |turns|).effects
  }

  ghost function Leaves(hosts: Hosts, w: World, e: Episode): World
    requires WellPosed(hosts, e)
  {
    var es := EffectsOf(hosts, e, w.store);
    Replay(hosts, w, if e.cut < |es| then es[..e.cut] else es)
  }

  ghost function Outlives(hosts: Hosts, w: World, history: seq<Episode>): World
    requires forall e :: e in history ==> WellPosed(hosts, e)
  {
    if history == [] then w
    else Leaves(hosts, Outlives(hosts, w, history[..|history| - 1]), history[|history| - 1])
  }

  lemma EpisodeIsSafe(hosts: Hosts, w: World, e: Episode)
    requires TransitiveHosts(hosts) && Safe(hosts, w) && WellPosed(hosts, e)
    ensures SafeThroughout(hosts, w, EffectsOf(hosts, e, w.store)) && Safe(hosts, Leaves(hosts, w, e))
  {
    hide Single, Safe, Deploy.DeployLoop, TeardownRun.Run;
    var es := EffectsOf(hosts, e, w.store);
    match e {
      case OneCommand(_, cmd, slot, env) => SingleIsCrashSafe(hosts, w, cmd, slot, env);
      case Destroying(_, plan, turns) => DestroyRunIsCrashSafe(hosts, w, plan, turns);
      case Deploying(_, plan, turns) => DeployTheorems.DeployRunIsCrashSafe(hosts, w, plan, turns, |turns|);
    }
    assert es[..|es|] == es;
  }

  /**
   Write-ahead over whole histories: from a safe world, whatever was run and wherever each run
   crashed, a slot that may hold resources never reads as empty, absent or destroyed.
   */
  lemma {:induction false} HistoriesAreSafe(hosts: Hosts, w: World, history: seq<Episode>)
    requires TransitiveHosts(hosts) && Safe(hosts, w)
    requires forall e :: e in history ==> WellPosed(hosts, e)
    ensures Safe(hosts, Outlives(hosts, w, history))
  {
    if history != [] {
      hide Safe, Leaves;
      HistoriesAreSafe(hosts, w, history[..|history| - 1]);
      EpisodeIsSafe(hosts, Outlives(hosts, w, history[..|history| - 1]), history[|history| - 1]);
    }
  }

  /** After any history a readable live slot is destroyed, deferred or retained, never passed over. */
  lemma NothingLiveIsPassedOver(hosts: Hosts, w: World, history: seq<Episode>, plan: Plan, s: Step,
        unreadable: set<Slot>)
    requires TransitiveHosts(hosts) && Safe(hosts, w)
    requires forall e :: e in history ==> WellPosed(hosts, e)
    requires s.slot in Outlives(hosts, w, history).holds && s.slot !in unreadable
    ensures !CourseOf(plan, s, Outlives(hosts, w, history).store, unreadable).GoneSkip?
  {
    HistoriesAreSafe(hosts, w, history);
  }

  /** After any history "released" is the truth: the named slots hold nothing at the provider. */
  lemma ReleasedIsTrue(hosts: Hosts, w: World, history: seq<Episode>, steps: seq<Step>)
    requires TransitiveHosts(hosts) && Safe(hosts, w)
    requires forall e :: e in history ==> WellPosed(hosts, e)
    requires forall s :: s in steps ==> StatusOf(Outlives(hosts, w, history).store, s.slot) in {Destroyed, Absent}
    ensures forall s :: s in steps ==> s.slot !in Outlives(hosts, w, history).holds
  {
    HistoriesAreSafe(hosts, w, history);
  }

  /** The slots of a plan hold nothing, those apart that are openly excused or were overlooked. */
  ghost predicate Cleared(plan: Plan, turns: seq<Turn>, torn: Progress, w: World) {
    && |torn.results| == |plan.order| == |turns|
    && forall i :: 0 <= i < |torn.results| ==>
         Excused(torn.results[i]) || Overlooked(plan, turns[i], torn.results[i])
         || (torn.results[i].id in plan.steps && plan.steps[torn.results[i].id].slot !in w.holds)
  }

  /**
   `_run_rebuild_unlocked`: the deployment starts only after a teardown that returned 0, and so
   only once everything is gone that was not openly excused, or overlooked for a record of its
   own that could not be read.
   */
  method RunRebuild(m: Machine, plan: Plan, turns: seq<Turn>, deployPlan: Deploy.DeployPlan,
        deployTurns: seq<Deploy.DeployTurn>)
    returns (rc: int, ghost between: World)
    requires m.Valid() && DestroyLoop.Keyed(plan) && PlanOk(plan) && |turns| == |plan.order|
    requires Deploy.DeployPlanOk(deployPlan) && |deployTurns| == |deployPlan.order|
    requires HostsAgree(m.hosts, plan) && Safe(m.hosts, m.Now())
    modifies m
    ensures m.Valid() && Safe(m.hosts, m.Now())
    ensures between == Replay(m.hosts, old(m.Now()), TeardownRun.Run(plan, old(m.store), turns).effects)
    ensures var torn := TeardownRun.Run(plan, old(m.store), turns);
            && (ExitCode(torn) != 0 ==> rc == ExitCode(torn) && m.Now() == between)
            && (ExitCode(torn) == 0 ==>
                  var d := Deploy.DeployLoop(deployPlan, between.store, deployTurns, |deployTurns|);
                  rc == Deploy.DeployCode(d) && m.Now() == Replay(m.hosts, between, d.effects))
            && (ExitCode(torn) == 0 ==> Cleared(plan, turns, torn, between))
  {
    hide TeardownRun.Run, Deploy.DeployLoop, Safe, HostsAgree;
    ghost var before, trace := m.Now(), m.trace;
    ghost var torn := TeardownRun.Run(plan, m.store, turns);
    TeardownIsSafe(m.hosts, before, plan, turns);
    var run := new DestroyLoop.DestroyRun(plan, m);
    rc := run.Execute(turns);
    ReplayConcat(m.hosts, m.origin, trace, torn.effects);
    between := m.Now();
    if rc != 0 {
      return;
    }
    trace := m.trace;
    ghost var d := Deploy.DeployLoop(deployPlan, m.store, deployTurns, |deployTurns|);
    DeploymentIsSafe(m.hosts, between, deployPlan, deployTurns);
    var results, required, optional, code := Deploy.RunDeploy(m, deployPlan, deployTurns);
    ReplayConcat(m.hosts, m.origin, trace, d.effects);
    rc := code;
  }

  lemma TeardownIsSafe(hosts: Hosts, w: World, plan: Plan, turns: seq<Turn>)
    requires PlanOk(plan) && |turns| == |plan.order| && HostsAgree(hosts, plan) && Safe(hosts, w)
    ensures var torn := TeardownRun.Run(plan, w.store, turns);
            && Safe(hosts, Replay(hosts, w, torn.effects)) && TransitiveHosts(hosts)
            && (ExitCode(torn) == 0 ==> Cleared(plan, turns, torn, Replay(hosts, w, torn.effects)))
  {
    hide TeardownRun.Run;
    var torn := TeardownRun.Run(plan, w.store, turns);
    DestroyRunIsCrashSafe(hosts, w, plan, turns);
    TracksNow(hosts, w, torn);
    if ExitCode(torn) == 0 {
      ZeroMeansGone(hosts, w, plan, turns);
      assert forall i :: 0 <= i < |plan.order| ==> plan.order[i] in plan.order;
    }
  }

  lemma DeploymentIsSafe(hosts: Hosts, w: World, plan: Deploy.DeployPlan, turns: seq<Deploy.DeployTurn>)
    requires Deploy.DeployPlanOk(plan) && |turns| == |plan.order| && TransitiveHosts(hosts) && Safe(hosts, w)
    ensures Safe(hosts, Replay(hosts, w, Deploy.DeployLoop(plan, w.store, turns, |turns|).effects))
  {
    hide Deploy.DeployLoop;
    var es := Deploy.DeployLoop(plan, w.store, turns, |turns|).effects;
    DeployTheorems.DeployRunIsCrashSafe(hosts, w, plan, turns, |turns|);
    assert es[..|es|] == es;
  }
}
