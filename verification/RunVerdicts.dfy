/**
 What one lifecycle command comes to, said in terms of what the outside world answered: its
 return code, whether the driver was reached, and the record that stands when it ends.
 */
module RunVerdicts {
  import opened Ordering
  import opened Blueprint
  import opened ModuleState
  import opened SingleRun

  /** The commands that may leave resources behind. */
  predicate Provisions(cmd: Command) {
    cmd in {CmdApply, CmdDeploy, CmdImport}
  }

  /** Every check before the driver has passed. */
  predicate PassesChecks(env: Surroundings) {
    && env.admission == Admitted && env.slotGuardHolds && env.driverKnown
    && (env.skipPreflight || env.preflight == Returned(true))
  }

  /** The driver is called: the checks have passed, and a start that matters is on record. */
  predicate ReachesDriver(cmd: Command, env: Surroundings) {
    PassesChecks(env) && (Provisions(cmd) ==> env.running == Kept)
  }

  /** The driver has done its work, and its result is on record. */
  predicate WorkDone(cmd: Command, env: Surroundings) {
    ReachesDriver(cmd, env) && env.driver == Returned(true) && env.resultRecorded
  }

  /** The operator interrupts a call that the command is really in. */
  predicate OperatorStops(cmd: Command, env: Surroundings) {
    && env.admission == Admitted && env.slotGuardHolds && env.driverKnown
    && (|| (!env.skipPreflight && env.preflight == Interrupted)
        || (PassesChecks(env) && Provisions(cmd) && env.running != Kept && env.startInterrupted)
        || (ReachesDriver(cmd, env) && env.driver == Interrupted))
  }

  /** 0 for work done and recorded, 130 for the operator's interrupt, 2 for an unfounded bypass, else 1. */
  lemma ReturnCodes(cmd: Command, slot: Slot, env: Surroundings, store: Store)
    ensures var rc := Single(cmd, slot, env, store).rc;
            && (rc == 0 <==> WorkDone(cmd, env) && (cmd in {CmdPlan, CmdValidate} || env.final == Kept))
            && (rc == 130 <==> OperatorStops(cmd, env))
            && (rc == 2 <==> env.admission == BypassInvalid)
            && rc in {0, 1, 2, 130}
  {
    hide FailureEffects, DriverEffects, StartEffects, StoreAtDriver, FinalRecord;
  }

  /** Cut short by something that no handler catches, a step command has codes of its own. */
  lemma CutReturnCodes(cmd: Command, slot: Slot, env: Surroundings, cut: Option<Cut>, store: Store)
    ensures var rc := StepRun(cmd, slot, env, cut, store).rc;
            && (rc == 130 <==> if cut.Some? then cut.value.byOperator else OperatorStops(cmd, env))
            && (cut.Some? && !cut.value.byOperator ==> rc == 2)
            && (rc == 0 ==> cut.None? && WorkDone(cmd, env))
            && (cut.None? && WorkDone(cmd, env) && env.final == Kept ==> rc == 0)
  {
    hide Single;
    ReturnCodes(cmd, slot, env, store);
  }

  /** And it leaves exactly the effects that came before the cut. */
  lemma CutLeavesPrefix(cmd: Command, slot: Slot, env: Surroundings, cut: Option<Cut>, store: Store)
    ensures var full, es := Single(cmd, slot, env, store).effects, StepRun(cmd, slot, env, cut, store).effects;
            && es <= full
            && |es| == if cut.Some? && cut.value.after <= |full| then cut.value.after else |full|
  {
    hide Single;
  }

  /** The driver of a provisioning command is handed the slot, and a destroy confirmed, exactly so. */
  lemma DriverIsReachedIff(cmd: Command, slot: Slot, env: Surroundings, store: Store, at: Slot)
    ensures var es := Single(cmd, slot, env, store).effects;
            && (DriverStarts(at) in es <==> at == slot && Provisions(cmd) && ReachesDriver(cmd, env))
            && (DriverDestroyed(at) in es <==>
                  at == slot && cmd == CmdDestroy && ReachesDriver(cmd, env) && env.driver == Returned(true))
  {
    hide FailureEffects, StartEffects, StoreAtDriver, FinalRecord, StartedRecord, Previous;
    OnlyTheDriverStarts(cmd, slot, env, store, store, false);
    OnlyTheDriverStarts(cmd, slot, env, store, StoreAtDriver(cmd, slot, env, store), Creates(cmd));
    var called := DriverEffects(cmd, slot, env, store);
    assert cmd in {CmdApply, CmdDeploy, CmdImport} ==> called[1] == DriverStarts(slot) && called[1] in called;
    assert cmd == CmdDestroy && env.driver == Returned(true) ==> called[0] == DriverDestroyed(slot) && called[0] in called;
  }

  // ----- The record that stands ---------------------------------------------------------------------

  /** The final record has replaced the old one. */
  predicate EndStands(cmd: Command, env: Surroundings) {
    WorkDone(cmd, env) && cmd in {CmdApply, CmdDeploy, CmdImport, CmdDestroy} && env.final != Lost
  }

  /**
   The failure has replaced the old record: after a driver that did not succeed, and for checks
   that only report a status after anything that stopped them.
   */
  predicate FailureStands(cmd: Command, env: Surroundings) {
    && env.admission == Admitted && (env.slotGuardHolds ==> env.driverKnown) && env.error != Lost
    && if ReachesDriver(cmd, env) then Provisions(cmd) && !WorkDone(cmd, env)
       else cmd in {CmdApply, CmdDeploy} && env.statusOnly
  }

  /** The start has replaced the old record. */
  predicate StartStands(cmd: Command, env: Surroundings) {
    Provisions(cmd) && PassesChecks(env) && env.running != Lost
  }

  /** What a provisioning command makes of the record it could read. */
  function Remembered(store: Store, slot: Slot, env: Surroundings): StateRecord {
    if slot in store && env.previousReadable then store[slot] else StateRecord(Blank, map[], None, None, None)
  }

  /**
   The store when a command ends: the record of its end, of its failure or of its start, in this
   order of precedence, or the old store if it placed none of them.
   */
  lemma RecordThatStands(hosts: Hosts, w: World, cmd: Command, slot: Slot, env: Surroundings)
    ensures var was := Remembered(w.store, slot, env);
            After(hosts, w, cmd, slot, env).store ==
              if EndStands(cmd, env) then
                w.store[slot := if cmd == CmdDestroy then StateRecord(Destroyed, map[], None, None, None)
                                else StateRecord(StatusOk, env.published, None, None, None)]
              else if FailureStands(cmd, env) then
                w.store[slot := StateRecord(StatusError, was.outputs, None, Some(cmd), was.subsumedUnder)]
              else if StartStands(cmd, env) then
                w.store[slot := StateRecord(Running, was.outputs, Some(cmd), None, was.subsumedUnder)]
              else w.store
  {
    hide Replay;
    if ReachesDriver(cmd, env) {
      ReachedRecord(hosts, w, cmd, slot, env);
    } else {
      UnreachedRecord(hosts, w, cmd, slot, env);
    }
  }

  lemma ReachedRecord(hosts: Hosts, w: World, cmd: Command, slot: Slot, env: Surroundings)
    requires ReachesDriver(cmd, env)
    ensures var was := Remembered(w.store, slot, env);
            After(hosts, w, cmd, slot, env).store ==
              if EndStands(cmd, env) then
                w.store[slot := if cmd == CmdDestroy then StateRecord(Destroyed, map[], None, None, None)
                                else StateRecord(StatusOk, env.published, None, None, None)]
              else if FailureStands(cmd, env) then
                w.store[slot := StateRecord(StatusError, was.outputs, None, Some(cmd), was.subsumedUnder)]
              else if StartStands(cmd, env) then
                w.store[slot := StateRecord(Running, was.outputs, Some(cmd), None, was.subsumedUnder)]
              else w.store
  {
    hide Replay;
    var called := DriverEffects(cmd, slot, env, w.store);
    var v := Replay(hosts, w, called);
    DriverRecord(hosts, w, cmd, slot, env);
    var failed := FailureEffects(cmd, slot, env, StoreAtDriver(cmd, slot, env, w.store), Creates(cmd));
    var last := Saves(env.final, slot, FinalRecord(cmd, env));
    ReplayConcat(hosts, w, called, failed);
    ReplayConcat(hosts, w, called, last);
    ReplayNothing(hosts, v);
    if failed != [] {
      ReplayOne(hosts, v, failed[0]);
    }
    if last != [] {
      ReplayOne(hosts, v, last[0]);
    }
    assert called + [] == called;
    var running := StartedRecord(Previous(w.store, slot, env), cmd);
    OnlyTheLastStands(w.store, slot, running, FinalRecord(cmd, env));
    OnlyTheLastStands(w.store, slot, running, FailedRecord(Previous(StoreAtDriver(cmd, slot, env, w.store), slot, env), cmd));
  }

  lemma OnlyTheLastStands(store: Store, slot: Slot, first: StateRecord, last: StateRecord)
    ensures store[slot := first][slot := last] == store[slot := last]
  {
  }

  lemma DriverRecord(hosts: Hosts, w: World, cmd: Command, slot: Slot, env: Surroundings)
    ensures var was := Remembered(w.store, slot, env);
            Replay(hosts, w, DriverEffects(cmd, slot, env, w.store)).store == StoreAtDriver(cmd, slot, env, w.store) ==
              if Provisions(cmd) then w.store[slot := StateRecord(Running, was.outputs, Some(cmd), None, was.subsumedUnder)]
              else w.store
  {
    hide Replay;
    var called := DriverEffects(cmd, slot, env, w.store);
    ReplayNothing(hosts, w);
    if |called| == 2 {
      ReplayTwo(hosts, w, called[0], called[1]);
    } else if |called| == 1 {
      ReplayOne(hosts, w, called[0]);
    }
  }

  lemma UnreachedRecord(hosts: Hosts, w: World, cmd: Command, slot: Slot, env: Surroundings)
    requires !ReachesDriver(cmd, env)
    ensures var was := Remembered(w.store, slot, env);
            After(hosts, w, cmd, slot, env).store ==
              if FailureStands(cmd, env) then
                w.store[slot := StateRecord(StatusError, was.outputs, None, Some(cmd), was.subsumedUnder)]
              else if StartStands(cmd, env) then
                w.store[slot := StateRecord(Running, was.outputs, Some(cmd), None, was.subsumedUnder)]
              else w.store
  {
    hide Replay;
    ReplayNothing(hosts, w);
    var record := StartedRecord(Previous(w.store, slot, env), cmd);
    var begun := Saves(env.running, slot, record);
    ReplayOne(hosts, w, Write(slot, record));
    var v := Replay(hosts, w, begun);
    var store := if begun == [] then w.store else StoreAtDriver(cmd, slot, env, w.store);
    FailureRecordStands(hosts, w, cmd, slot, env, w.store);
    FailureRecordStands(hosts, v, cmd, slot, env, store);
    ReplayConcat(hosts, w, begun, FailureEffects(cmd, slot, env, store, false));
  }

  lemma FailureRecordStands(hosts: Hosts, w: World, cmd: Command, slot: Slot, env: Surroundings, store: Store)
    ensures var was := Previous(store, slot, env);
            Replay(hosts, w, FailureEffects(cmd, slot, env, store, false)).store ==
              if cmd in {CmdApply, CmdDeploy} && env.statusOnly && env.error != Lost then
                w.store[slot := StateRecord(StatusError, was.outputs, None, Some(cmd), was.subsumedUnder)]
              else w.store
  {
    hide Replay;
    var es := FailureEffects(cmd, slot, env, store, false);
    ReplayNothing(hosts, w);
    if es != [] {
      ReplayOne(hosts, w, es[0]);
    }
  }

  // ----- The resources that stand -------------------------------------------------------------------

  /** Writing records changes nothing at the provider. */
  lemma {:induction false} WritesHoldNothing(hosts: Hosts, w: World, es: seq<Effect>)
    requires forall e :: e in es ==> e.Write?
    ensures Replay(hosts, w, es).holds == w.holds
  {
    if es != [] {
      var n := |es| - 1;
      assert es[n] in es && forall e :: e in es[..n] ==> e in es;
      WritesHoldNothing(hosts, w, es[..n]);
    }
  }

  /**
   What a command leaves at the provider: a provisioning one that reaches its driver may have made
   the resources of its slot, if its hosts are there; a destroy whose driver confirmed it has taken
   them away, with all that they hosted; and nothing else changes.
   */
  lemma ResourcesThatStand(hosts: Hosts, w: World, cmd: Command, slot: Slot, env: Surroundings, at: Slot)
    ensures at in After(hosts, w, cmd, slot, env).holds <==>
              if Provisions(cmd) && ReachesDriver(cmd, env) then at in w.holds || (at == slot && hosts(slot) <= w.holds)
              else if cmd == CmdDestroy && ReachesDriver(cmd, env) && env.driver == Returned(true) then
                at in w.holds && at != slot && slot !in hosts(at)
              else at in w.holds
  {
    hide Replay;
    ReplayNothing(hosts, w);
    if ReachesDriver(cmd, env) {
      var called := DriverEffects(cmd, slot, env, w.store);
      DriverHolds(hosts, w, cmd, slot, env, at);
      var failed := FailureEffects(cmd, slot, env, StoreAtDriver(cmd, slot, env, w.store), Creates(cmd));
      var last := Saves(env.final, slot, FinalRecord(cmd, env));
      ReplayConcat(hosts, w, called, failed);
      ReplayConcat(hosts, w, called, last);
      WritesHoldNothing(hosts, Replay(hosts, w, called), failed);
      WritesHoldNothing(hosts, Replay(hosts, w, called), last);
      assert called + [] == called;
    } else {
      WritesHoldNothing(hosts, w, StartEffects(cmd, slot, env, w.store));
      WritesHoldNothing(hosts, w, FailureEffects(cmd, slot, env, w.store, false));
    }
  }

  lemma DriverHolds(hosts: Hosts, w: World, cmd: Command, slot: Slot, env: Surroundings, at: Slot)
    ensures at in Replay(hosts, w, DriverEffects(cmd, slot, env, w.store)).holds <==>
              if Provisions(cmd) then at in w.holds || (at == slot && hosts(slot) <= w.holds)
              else if cmd == CmdDestroy && env.driver == Returned(true) then at in w.holds && at != slot && slot !in hosts(at)
              else at in w.holds
  {
    hide Replay;
    var called := DriverEffects(cmd, slot, env, w.store);
    ReplayNothing(hosts, w);
    if |called| == 2 {
      ReplayTwo(hosts, w, called[0], called[1]);
    } else if |called| == 1 {
      ReplayOne(hosts, w, called[0]);
    }
  }
}
