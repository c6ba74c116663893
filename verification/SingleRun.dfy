/**
 `run_single`: one lifecycle command on one state slot.  The choices of the outside world
 (the driver, the file system, the operator's interrupt) are the fields of `Surroundings`.
 */
module SingleRun {
  import opened Ordering
  import opened Blueprint
  import opened ModuleState

  const CANCELLED := 130
  const OPERATOR_ERROR := 2

  datatype Admission = Admitted | BypassInvalid | NotResolved

  /** How a driver call ends: a result object, an exception, or the operator's interrupt. */
  datatype Call = Returned(ok: bool) | Raised | Interrupted

  /**
   How saving a record ends.  Torn: the record has been replaced and then something raised, the
   sync of its directory or the evidence that is written after it.
   */
  datatype Saved = Kept | Lost | Torn

  datatype Surroundings = Surroundings(
    admission: Admission,
    slotGuardHolds: bool,
    driverKnown: bool,
    statusOnly: bool,
    skipPreflight: bool,
    preflight: Call,
    previousReadable: bool,
    running: Saved,
    startInterrupted: bool,
    driver: Call,
    resultRecorded: bool,
    published: Outputs,
    error: Saved,
    final: Saved)

  datatype Ending = Ending(effects: seq<Effect>, rc: int)

  /** The commands that may leave resources behind and so record their start first. */
  predicate Creates(cmd: Command) {
    cmd == CmdApply || cmd == CmdDeploy || cmd == CmdImport
  }

  predicate StatusApply(cmd: Command, env: Surroundings) {
    (cmd == CmdApply || cmd == CmdDeploy) && env.statusOnly
  }

  function Previous(store: Store, slot: Slot, env: Surroundings): StateRecord {
    if slot in store && env.previousReadable then store[slot]
    else StateRecord(Blank, map[], None, None, None)
  }

  function StartedRecord(previous: StateRecord, cmd: Command): StateRecord {
    previous.(status := Running, active := Some(cmd), failed := None)
  }

  function FailedRecord(previous: StateRecord, cmd: Command): StateRecord {
    previous.(status := StatusError, active := None, failed := Some(cmd))
  }

  function FinalRecord(cmd: Command, env: Surroundings): StateRecord {
    if cmd == CmdDestroy then StateRecord(Destroyed, map[], None, None, None)
    else StateRecord(StatusOk, env.published, None, None, None)
  }

  function Saves(saved: Saved, slot: Slot, record: StateRecord): seq<Effect> {
    if saved == Lost then [] else [Write(slot, record)]
  }

  /** Failures are recorded once the start has been, and always for modules that only report a status. */
  predicate RecordsFailure(cmd: Command, env: Surroundings, started: bool) {
    Creates(cmd) && (started || StatusApply(cmd, env))
  }

  /** `persist_mutation_state` for a failure: what it writes, if it writes at all. */
  function FailureEffects(cmd: Command, slot: Slot, env: Surroundings, store: Store, started: bool): seq<Effect> {
    if RecordsFailure(cmd, env, started)
    then Saves(env.error, slot, FailedRecord(Previous(store, slot, env), cmd))
    else []
  }

  predicate PreflightStops(env: Surroundings) {
    !env.skipPreflight && env.preflight != Returned(true)
  }

  predicate DriverSucceeds(env: Surroundings) {
    env.driver == Returned(true) && env.resultRecorded
  }

  /** Nothing has ended the run before the start is recorded. */
  predicate Cleared(env: Surroundings) {
    env.admission == Admitted && env.slotGuardHolds && env.driverKnown && !PreflightStops(env)
  }

  /** The driver is really called. */
  predicate Dispatches(cmd: Command, env: Surroundings) {
    Cleared(env) && (Creates(cmd) ==> env.running == Kept)
  }

  /** The start could not be recorded for sure: the run ends here, before the driver. */
  function StartEffects(cmd: Command, slot: Slot, env: Surroundings, store: Store): seq<Effect> {
    var begun := Saves(env.running, slot, StartedRecord(Previous(store, slot, env), cmd));
    begun + FailureEffects(cmd, slot, env, if begun == [] then store else StoreAtDriver(cmd, slot, env, store), false)
  }

  /** The effects up to and including the driver call. */
  function DriverEffects(cmd: Command, slot: Slot, env: Surroundings, store: Store): seq<Effect> {
    if Creates(cmd) then [Write(slot, StartedRecord(Previous(store, slot, env), cmd)), DriverStarts(slot)]
    else if cmd == CmdDestroy && env.driver == Returned(true) then [DriverDestroyed(slot)]
    else []
  }

  function StoreAtDriver(cmd: Command, slot: Slot, env: Surroundings, store: Store): Store {
    if Creates(cmd) then store[slot := StartedRecord(Previous(store, slot, env), cmd)] else store
  }

  function Code(call: Call): int {
    if call == Interrupted then CANCELLED else 1
  }

  function Single(cmd: Command, slot: Slot, env: Surroundings, store: Store): Ending {
    if env.admission != Admitted then
      Ending([], if env.admission == BypassInvalid then 2 else 1)
    else if !env.slotGuardHolds then
      Ending(FailureEffects(cmd, slot, env, store, false), 1)
    else if !env.driverKnown then
      Ending([], 1)
    else if PreflightStops(env) then
      Ending(FailureEffects(cmd, slot, env, store, false), Code(env.preflight))
    else if Creates(cmd) && env.running != Kept then
      Ending(StartEffects(cmd, slot, env, store), if env.startInterrupted then CANCELLED else 1)
    else
      var called := DriverEffects(cmd, slot, env, store);
      if !DriverSucceeds(env) then
        Ending(called + FailureEffects(cmd, slot, env, StoreAtDriver(cmd, slot, env, store), Creates(cmd)), Code(env.driver))
      else if cmd == CmdPlan || cmd == CmdValidate then
        Ending(called, 0)
      else
        Ending(called + Saves(env.final, slot, FinalRecord(cmd, env)), if env.final == Kept then 0 else 1)
  }

  /** `write_module_state` and the evidence of it. */
  method Save(m: Machine, slot: Slot, record: StateRecord, saved: Saved) returns (raised: bool)
    requires m.Valid()
    modifies m
    ensures m.Valid() && raised == (saved != Kept)
    ensures m.trace == old(m.trace) + Saves(saved, slot, record)
    ensures m.Now() == Replay(m.hosts, old(m.Now()), Saves(saved, slot, record))
  {
    ReplayOne(m.hosts, m.Now(), Write(slot, record));
    if saved != Lost {
      m.WriteState(slot, record);
    }
    raised := saved != Kept;
  }

  /** Best effort: a failure to record the failure is swallowed. */
  method PersistFailure(m: Machine, cmd: Command, slot: Slot, env: Surroundings, started: bool)
    requires m.Valid()
    modifies m
    ensures m.Valid() && m.trace == old(m.trace) + FailureEffects(cmd, slot, env, old(m.store), started)
    ensures m.Now() == Replay(m.hosts, old(m.Now()), FailureEffects(cmd, slot, env, old(m.store), started))
  {
    if !Creates(cmd) {
      return;
    }
    if !started && !StatusApply(cmd, env) {
      return;
    }
    var _ := Save(m, slot, FailedRecord(Previous(m.store, slot, env), cmd), env.error);
  }

  /** Recording the start raises, with the record replaced or not; the failure is recorded in turn. */
  method StartFails(m: Machine, cmd: Command, slot: Slot, env: Surroundings)
    requires m.Valid() && Creates(cmd) && env.running != Kept
    modifies m
    ensures m.Valid() && m.trace == old(m.trace) + StartEffects(cmd, slot, env, old(m.store))
    ensures m.Now() == Replay(m.hosts, old(m.Now()), StartEffects(cmd, slot, env, old(m.store)))
  {
    hide Replay, FailureEffects;
    ghost var before := m.Now();
    var record := StartedRecord(Previous(m.store, slot, env), cmd);
    ghost var begun := Saves(env.running, slot, record);
    ReplayNothing(m.hosts, before);
    ReplayOne(m.hosts, before, Write(slot, record));
    var _ := Save(m, slot, record, env.running);
    ReplayConcat(m.hosts, before, begun, FailureEffects(cmd, slot, env, m.store, false));
    PersistFailure(m, cmd, slot, env, false);
  }

  /** The driver call, with the record of the start written before control is handed over. */
  method CallDriver(m: Machine, cmd: Command, slot: Slot, env: Surroundings) returns (succeeded: bool)
    requires m.Valid() && Dispatches(cmd, env)
    modifies m
    ensures m.Valid() && succeeded == DriverSucceeds(env)
    ensures m.trace == old(m.trace) + DriverEffects(cmd, slot, env, old(m.store))
    ensures m.Now() == Replay(m.hosts, old(m.Now()), DriverEffects(cmd, slot, env, old(m.store)))
    ensures m.store == StoreAtDriver(cmd, slot, env, old(m.store))
  {
    ghost var before := m.Now();
    if Creates(cmd) {
      var record := StartedRecord(Previous(m.store, slot, env), cmd);
      m.WriteState(slot, record);
      m.Starts(slot);
      ReplayTwo(m.hosts, before, Write(slot, record), DriverStarts(slot));
    }
    if cmd == CmdDestroy && env.driver == Returned(true) {
      ReplayOne(m.hosts, before, DriverDestroyed(slot));
      m.Confirms(slot);
    }
    succeeded := DriverSucceeds(env);
  }

  lemma ReplayTwo(hosts: Hosts, w: World, e: Effect, f: Effect)
    ensures Replay(hosts, w, [e, f]) == Step1(hosts, Step1(hosts, w, e), f)
  {
    assert [e, f] == [e] + [f];
    ReplayConcat(hosts, w, [e], [f]);
    ReplayOne(hosts, w, e);
    ReplayOne(hosts, Step1(hosts, w, e), f);
  }

  method RunSingle(m: Machine, cmd: Command, slot: Slot, env: Surroundings) returns (rc: int)
    requires m.Valid()
    modifies m
    ensures m.Valid() && rc == Single(cmd, slot, env, old(m.store)).rc
    ensures m.trace == old(m.trace) + Single(cmd, slot, env, old(m.store)).effects
    ensures m.Now() == Replay(m.hosts, old(m.Now()), Single(cmd, slot, env, old(m.store)).effects)
  {
    hide Replay, FailureEffects, DriverEffects;
    ReplayNothing(m.hosts, m.Now());
    if env.admission == BypassInvalid {
      return 2;
    }
    if env.admission == NotResolved {
      return 1;
    }
    if !env.slotGuardHolds {
      PersistFailure(m, cmd, slot, env, false);
      return 1;
    }
    if !env.driverKnown {
      return 1;
    }
    if !env.skipPreflight {
      if env.preflight != Returned(true) {
        PersistFailure(m, cmd, slot, env, false);
        return Code(env.preflight);
      }
    }
    if Creates(cmd) && env.running != Kept {
      StartFails(m, cmd, slot, env);
      return if env.startInterrupted then CANCELLED else 1;
    }
    ghost var called := DriverEffects(cmd, slot, env, m.store);
    ghost var before := m.Now();
    var succeeded := CallDriver(m, cmd, slot, env);
    if !succeeded {
      ReplayConcat(m.hosts, before, called, FailureEffects(cmd, slot, env, m.store, Creates(cmd)));
      PersistFailure(m, cmd, slot, env, Creates(cmd));
      return Code(env.driver);
    }
    if cmd != CmdPlan && cmd != CmdValidate {
      ReplayConcat(m.hosts, before, called, Saves(env.final, slot, FinalRecord(cmd, env)));
      var raised := Save(m, slot, FinalRecord(cmd, env), env.final);
      if raised {
        return 1;
      }
    }
    rc := 0;
  }

  /**
   The same command when something in it raises past every handler: an exception or an
   interrupt leaves exactly the effects that came before it.
   */
  method RunInterrupted(m: Machine, cmd: Command, slot: Slot, env: Surroundings, n: nat)
    requires m.Valid() && n <= |Single(cmd, slot, env, m.store).effects|
    modifies m
    ensures m.Valid() && m.trace == old(m.trace) + Single(cmd, slot, env, old(m.store)).effects[..n]
    ensures m.Now() == Replay(m.hosts, old(m.Now()), Single(cmd, slot, env, old(m.store)).effects[..n])
  {
    hide Single, Replay;
    var effects := Single(cmd, slot, env, m.store).effects;
    ReplayNothing(m.hosts, m.Now());
    assert effects[..0] == [];
    for i := 0 to n
      invariant m.Valid() && m.trace == old(m.trace) + effects[..i]
      invariant m.Now() == Replay(m.hosts, old(m.Now()), effects[..i])
    {
      ReplayNext(m.hosts, old(m.Now()), effects, i);
      assert effects[..i + 1] == effects[..i] + [effects[i]];
      match effects[i] {
        case Write(at, record) => m.WriteState(at, record);
        case DriverStarts(at) => m.Starts(at);
        case DriverDestroyed(at) => m.Confirms(at);
      }
    }
  }

  /** An exception out of a step command, after some of its effects. */
  datatype Cut = Cut(after: nat, byOperator: bool)

  /** `run_step_module_command` as a blueprint run calls it, cut short if it raises. */
  function StepRun(cmd: Command, slot: Slot, env: Surroundings, cut: Option<Cut>, store: Store): Ending {
    var full := Single(cmd, slot, env, store);
    match cut
    case None => full
    case Some(c) =>
      Ending(if c.after < |full.effects| then full.effects[..c.after] else full.effects,
             if c.byOperator then CANCELLED else OPERATOR_ERROR)
  }

  method RunStep(m: Machine, cmd: Command, slot: Slot, env: Surroundings, cut: Option<Cut>) returns (rc: int)
    requires m.Valid()
    modifies m
    ensures m.Valid() && rc == StepRun(cmd, slot, env, cut, old(m.store)).rc
    ensures m.trace == old(m.trace) + StepRun(cmd, slot, env, cut, old(m.store)).effects
    ensures m.Now() == Replay(m.hosts, old(m.Now()), StepRun(cmd, slot, env, cut, old(m.store)).effects)
    ensures m.store == StoreAfter(old(m.store), StepRun(cmd, slot, env, cut, old(m.store)).effects)
  {
    hide Single;
    ghost var effects := StepRun(cmd, slot, env, cut, m.store).effects;
    StoreAfterReplays(m.hosts, m.Now(), effects);
    match cut {
      case None => rc := RunSingle(m, cmd, slot, env);
      case Some(c) =>
        var full := Single(cmd, slot, env, m.store).effects;
        assert full[..|full|] == full;
        RunInterrupted(m, cmd, slot, env, if c.after < |full| then c.after else |full|);
        rc := if c.byOperator then CANCELLED else OPERATOR_ERROR;
    }
  }

  // ----- Write-ahead ----------------------------------------------------------------------

  lemma FailureIsHarmless(hosts: Hosts, w: World, cmd: Command, slot: Slot, env: Surroundings, es: seq<Effect>,
        store: Store, started: bool)
    requires TransitiveHosts(hosts) && SafeThroughout(hosts, w, es)
    ensures SafeThroughout(hosts, w, es + FailureEffects(cmd, slot, env, store, started))
  {
    var fs := FailureEffects(cmd, slot, env, store, started);
    if fs != [] {
      SafeAppend(hosts, w, es, fs[0]);
    } else {
      assert es + fs == es;
    }
  }

  /** Wherever the command is cut off, no slot that may hold resources reads as gone. */
  lemma SingleIsCrashSafe(hosts: Hosts, w: World, cmd: Command, slot: Slot, env: Surroundings)
    requires TransitiveHosts(hosts) && Safe(hosts, w)
    ensures SafeThroughout(hosts, w, Single(cmd, slot, env, w.store).effects)
  {
    hide FailureEffects, DriverEffects, StartEffects, Replay;
    SafeEmpty(hosts, w);
    if Cleared(env) && !Dispatches(cmd, env) {
      StartIsHarmless(hosts, w, cmd, slot, env);
      return;
    }
    if !Dispatches(cmd, env) {
      FailureIsHarmless(hosts, w, cmd, slot, env, [], w.store, false);
      assert [] + FailureEffects(cmd, slot, env, w.store, false) == FailureEffects(cmd, slot, env, w.store, false);
      return;
    }
    var called := DriverEffects(cmd, slot, env, w.store);
    DriverEffectsAreSafe(hosts, w, cmd, slot, env);
    if !DriverSucceeds(env) {
      FailureIsHarmless(hosts, w, cmd, slot, env, called, StoreAtDriver(cmd, slot, env, w.store), Creates(cmd));
    } else if cmd != CmdPlan && cmd != CmdValidate {
      var last := Write(slot, FinalRecord(cmd, env));
      assert Harmless(hosts, Replay(hosts, w, called), last);
      SafeAppend(hosts, w, called, last);
      assert called + [] == called;
    }
  }

  lemma StartIsHarmless(hosts: Hosts, w: World, cmd: Command, slot: Slot, env: Surroundings)
    requires TransitiveHosts(hosts) && Safe(hosts, w)
    ensures SafeThroughout(hosts, w, StartEffects(cmd, slot, env, w.store))
  {
    hide FailureEffects, Replay, SafeThroughout;
    SafeEmpty(hosts, w);
    var start := Write(slot, StartedRecord(Previous(w.store, slot, env), cmd));
    var begun := Saves(env.running, slot, start.record);
    SafeAppend(hosts, w, [], start);
    assert [] + [start] == [start];
    FailureIsHarmless(hosts, w, cmd, slot, env, begun, if begun == [] then w.store else StoreAtDriver(cmd, slot, env, w.store), false);
  }

  lemma DriverEffectsAreSafe(hosts: Hosts, w: World, cmd: Command, slot: Slot, env: Surroundings)
    requires TransitiveHosts(hosts) && Safe(hosts, w)
    ensures SafeThroughout(hosts, w, DriverEffects(cmd, slot, env, w.store))
    ensures DriverSucceeds(env) && cmd == CmdDestroy ==>
              slot !in Replay(hosts, w, DriverEffects(cmd, slot, env, w.store)).holds
  {
    hide Replay, SafeThroughout;
    SafeEmpty(hosts, w);
    ReplayNothing(hosts, w);
    var called := DriverEffects(cmd, slot, env, w.store);
    if Creates(cmd) {
      assert called[..1] == [called[0]] == [] + [called[0]] && called == called[..1] + [called[1]];
      SafeAppend(hosts, w, [], called[0]);
      ReplayOne(hosts, w, called[0]);
      SafeAppend(hosts, w, called[..1], called[1]);
    } else if called != [] {
      assert called == [] + [called[0]];
      SafeAppend(hosts, w, [], called[0]);
      ReplayOne(hosts, w, called[0]);
    }
  }

  lemma StepRunIsCrashSafe(hosts: Hosts, w: World, cmd: Command, slot: Slot, env: Surroundings, cut: Option<Cut>)
    requires TransitiveHosts(hosts) && Safe(hosts, w)
    ensures SafeThroughout(hosts, w, StepRun(cmd, slot, env, cut, w.store).effects)
  {
    hide Single;
    var full := Single(cmd, slot, env, w.store).effects;
    SingleIsCrashSafe(hosts, w, cmd, slot, env);
    var n := |StepRun(cmd, slot, env, cut, w.store).effects|;
    SafePrefix(hosts, w, full, n);
    assert full[..|full|] == full;
  }

  /** The driver of a creating command never starts before its slot has been marked running. */
  lemma StartIsRecordedFirst(hosts: Hosts, w: World, cmd: Command, slot: Slot, env: Surroundings, k: nat)
    requires var es := Single(cmd, slot, env, w.store).effects; k < |es| && es[k].DriverStarts?
    ensures var es := Single(cmd, slot, env, w.store).effects;
            && es[k].slot == slot && Dispatches(cmd, env) && Creates(cmd)
            && StatusOf(Replay(hosts, w, es[..k]).store, slot) == Running
  {
    hide Single, Replay;
    StartComesSecond(cmd, slot, env, w.store, k);
    ReplayOne(hosts, w, Write(slot, StartedRecord(Previous(w.store, slot, env), cmd)));
  }

  lemma StartComesSecond(cmd: Command, slot: Slot, env: Surroundings, store: Store, k: nat)
    requires var es := Single(cmd, slot, env, store).effects; k < |es| && es[k].DriverStarts?
    ensures var es := Single(cmd, slot, env, store).effects;
            && es[k].slot == slot && Dispatches(cmd, env) && Creates(cmd)
            && es[..k] == [Write(slot, StartedRecord(Previous(store, slot, env), cmd))]
  {
    hide StartEffects, FailureEffects, FinalRecord, StoreAtDriver, StartedRecord, Previous, PreflightStops, DriverSucceeds;
    var es := Single(cmd, slot, env, store).effects;
    OnlyTheDriverStarts(cmd, slot, env, store, store, false);
    OnlyTheDriverStarts(cmd, slot, env, store, StoreAtDriver(cmd, slot, env, store), Creates(cmd));
    assert Dispatches(cmd, env) by {
      assert es[k] in es;
    }
    var called := DriverEffects(cmd, slot, env, store);
    assert called == es[..|called|];
    NotAmongWrites(es, called, k);
    assert called == [Write(slot, StartedRecord(Previous(store, slot, env), cmd)), DriverStarts(slot)];
  }

  lemma NotAmongWrites(es: seq<Effect>, called: seq<Effect>, k: nat)
    requires called <= es && k < |es| && !es[k].Write? && forall e :: e in es[|called|..] ==> e.Write?
    ensures k < |called| && es[k] == called[k] && es[..k] == called[..k]
  {
    forall j | |called| <= j < |es|
      ensures es[j].Write?
    {
      assert es[j] == es[|called|..][j - |called|];
    }
  }

  lemma OnlyTheDriverStarts(cmd: Command, slot: Slot, env: Surroundings, store: Store, later: Store, started: bool)
    ensures forall e :: e in FailureEffects(cmd, slot, env, later, started) ==> e.Write?
    ensures forall e :: e in StartEffects(cmd, slot, env, store) ==> e.Write?
  {
  }

  // ----- What a return code means ---------------------------------------------------------

  ghost function After(hosts: Hosts, w: World, cmd: Command, slot: Slot, env: Surroundings): World {
    Replay(hosts, w, Single(cmd, slot, env, w.store).effects)
  }

  /**
   Success is recorded before it is reported: rc 0 leaves "ok" with exactly the published
   outputs, or "destroyed" with nothing left at the provider.
   */
  lemma SuccessIsRecorded(hosts: Hosts, w: World, cmd: Command, slot: Slot, env: Surroundings)
    requires Single(cmd, slot, env, w.store).rc == 0
    ensures Creates(cmd) ==> slot in After(hosts, w, cmd, slot, env).store
                             && After(hosts, w, cmd, slot, env).store[slot] == StateRecord(StatusOk, env.published, None, None, None)
    ensures cmd == CmdDestroy ==> StatusOf(After(hosts, w, cmd, slot, env).store, slot) == Destroyed
                                  && slot !in After(hosts, w, cmd, slot, env).holds
    ensures cmd == CmdPlan || cmd == CmdValidate ==> After(hosts, w, cmd, slot, env) == w
  {
    hide Replay;
    ReplayNothing(hosts, w);
    var called := DriverEffects(cmd, slot, env, w.store);
    if cmd != CmdPlan && cmd != CmdValidate {
      var last := Write(slot, FinalRecord(cmd, env));
      ReplayConcat(hosts, w, called, [last]);
      ReplayOne(hosts, Replay(hosts, w, called), last);
      if cmd == CmdDestroy {
        ReplayOne(hosts, w, called[0]);
      }
    }
  }

  /** Only the command's own slot is ever written, started or confirmed. */
  lemma EffectsStayInSlot(cmd: Command, slot: Slot, env: Surroundings, store: Store)
    ensures forall e :: e in Single(cmd, slot, env, store).effects ==> e.slot == slot
  {
    PartsStayInSlot(cmd, slot, env, store, store, false);
    PartsStayInSlot(cmd, slot, env, store, StoreAtDriver(cmd, slot, env, store), Creates(cmd));
    hide FailureEffects, DriverEffects, StartEffects, FinalRecord, StoreAtDriver;
  }

  lemma PartsStayInSlot(cmd: Command, slot: Slot, env: Surroundings, store: Store, later: Store, started: bool)
    ensures forall e :: e in DriverEffects(cmd, slot, env, store) ==> e.slot == slot
    ensures forall e :: e in FailureEffects(cmd, slot, env, later, started) ==> e.slot == slot
    ensures forall e :: e in StartEffects(cmd, slot, env, store) ==> e.slot == slot
  {
  }

  lemma {:induction false} OtherSlotsUntouched(hosts: Hosts, w: World, es: seq<Effect>, slot: Slot, other: Slot)
    requires other != slot && forall e :: e in es ==> e.slot == slot
    ensures StatusOf(Replay(hosts, w, es).store, other) == StatusOf(w.store, other)
    ensures other in Replay(hosts, w, es).store <==> other in w.store
    ensures other in w.store ==> Replay(hosts, w, es).store[other] == w.store[other]
  {
    if es != [] {
      var n := |es| - 1;
      assert es[n] in es && forall e :: e in es[..n] ==> e in es;
      OtherSlotsUntouched(hosts, w, es[..n], slot, other);
    }
  }

  // ----- What a failure leaves ------------------------------------------------------------

  /** The command has done its work and its final record is in place; only then something raised. */
  predicate EndsTorn(cmd: Command, env: Surroundings) {
    Dispatches(cmd, env) && DriverSucceeds(env) && cmd != CmdPlan && cmd != CmdValidate && env.final == Torn
  }

  /**
   A destroy that does not return 0 keeps the old record, "ok" included, exactly when it ended
   before the final record was in place; past that point it reports a failure of a destroy that
   is both done and recorded.
   */
  lemma FailedDestroyKeepsRecord(hosts: Hosts, w: World, slot: Slot, env: Surroundings)
    requires Single(CmdDestroy, slot, env, w.store).rc != 0
    ensures var after := After(hosts, w, CmdDestroy, slot, env);
            if EndsTorn(CmdDestroy, env)
            then after.store == w.store[slot := StateRecord(Destroyed, map[], None, None, None)] && slot !in after.holds
            else after.store == w.store
  {
    hide Replay;
    var es := Single(CmdDestroy, slot, env, w.store).effects;
    ReplayNothing(hosts, w);
    if EndsTorn(CmdDestroy, env) {
      ReplayTwo(hosts, w, es[0], es[1]);
      assert es == [es[0], es[1]];
    } else if es != [] {
      assert es == [es[0]];
      ReplayOne(hosts, w, es[0]);
    }
  }

  /** Everything goes well. */
  const CALM := Surroundings(Admitted, true, true, false, false, Returned(true), true, Kept, false, Returned(true), true, map[], Kept, Kept)

  /** A destroy that reports a failure although the machine is gone and recorded as gone. */
  lemma TornDestroyReportsFailure(slot: Slot)
    ensures var w := World(map[slot := StateRecord(StatusOk, map[], None, None, None)], {slot});
            var env := CALM.(final := Torn);
            && Single(CmdDestroy, slot, env, w.store).rc == 1
            && After(s => {}, w, CmdDestroy, slot, env).holds == {}
            && StatusOf(After(s => {}, w, CmdDestroy, slot, env).store, slot) == Destroyed
  {
    var w := World(map[slot := StateRecord(StatusOk, map[], None, None, None)], {slot});
    var record := FinalRecord(CmdDestroy, CALM.(final := Torn));
    assert Single(CmdDestroy, slot, CALM.(final := Torn), w.store).effects == [DriverDestroyed(slot), Write(slot, record)];
    ReplayTwo(s => {}, w, DriverDestroyed(slot), Write(slot, record));
  }

  /**
   An apply that reports a failure although it has finished and says "ok"; and one that never
   reached its driver although its record says "running".
   */
  lemma TornApplyReportsFailure(slot: Slot)
    ensures var w := World(map[], {});
            && Single(CmdApply, slot, CALM.(final := Torn), w.store).rc == 1
            && StatusOf(After(s => {}, w, CmdApply, slot, CALM.(final := Torn)).store, slot) == StatusOk
            && Single(CmdApply, slot, CALM.(running := Torn), w.store).rc == 1
            && After(s => {}, w, CmdApply, slot, CALM.(running := Torn)).holds == {}
            && StatusOf(After(s => {}, w, CmdApply, slot, CALM.(running := Torn)).store, slot) == Running
  {
    var w := World(map[], {});
    var env := CALM.(final := Torn);
    var start := Write(slot, StartedRecord(Previous(w.store, slot, env), CmdApply));
    var end := Write(slot, FinalRecord(CmdApply, env));
    assert Single(CmdApply, slot, env, w.store).effects == [start, DriverStarts(slot)] + [end];
    ReplayConcat(s => {}, w, [start, DriverStarts(slot)], [end]);
    ReplayOne(s => {}, Replay(s => {}, w, [start, DriverStarts(slot)]), end);
    assert Single(CmdApply, slot, CALM.(running := Torn), w.store).effects == [start];
    ReplayOne(s => {}, w, start);
  }

  /** The start stands in the store: it was saved, even if saving it raised. */
  predicate StartRecorded(cmd: Command, env: Surroundings) {
    Creates(cmd) && Cleared(env) && env.running != Lost
  }

  /** The failure stands in the store. */
  predicate FailureRecorded(cmd: Command, env: Surroundings) {
    && env.admission == Admitted && (env.slotGuardHolds ==> env.driverKnown)
    && RecordsFailure(cmd, env, Dispatches(cmd, env)) && env.error != Lost
    && !(Dispatches(cmd, env) && DriverSucceeds(env))
  }

  /**
   A creating command that fails, short of its final record, keeps the outputs published before
   it exactly if it placed no record or could read the old one: a record that cannot be read is
   taken for an empty one, and its outputs are lost.  The status it leaves is that of the last
   record it placed, whether or not placing it raised, and without one the store is as it was.
   */
  lemma FailureKeepsOutputs(hosts: Hosts, w: World, cmd: Command, slot: Slot, env: Surroundings)
    requires Creates(cmd) && Single(cmd, slot, env, w.store).rc != 0
    ensures var after := After(hosts, w, cmd, slot, env).store;
            if EndsTorn(cmd, env) then
              after == w.store[slot := StateRecord(StatusOk, env.published, None, None, None)]
            else
              && (slot in w.store ==>
                    && slot in after
                    && after[slot].outputs ==
                         if env.previousReadable || !(StartRecorded(cmd, env) || FailureRecorded(cmd, env))
                         then w.store[slot].outputs else map[])
              && (StatusOf(after, slot) == if FailureRecorded(cmd, env) then StatusError
                                           else if StartRecorded(cmd, env) then Running else StatusOf(w.store, slot))
              && (!FailureRecorded(cmd, env) && !StartRecorded(cmd, env) ==> after == w.store)
  {
    hide Single, Replay, StatusOf, Previous;
    PreviousOutputs(w.store, slot, env);
    if Dispatches(cmd, env) {
      DispatchedWrites(hosts, w, cmd, slot, env);
    } else {
      UndispatchedWrites(hosts, w, cmd, slot, env);
    }
  }

  lemma UndispatchedWrites(hosts: Hosts, w: World, cmd: Command, slot: Slot, env: Surroundings)
    requires Creates(cmd) && !Dispatches(cmd, env)
    ensures var after := After(hosts, w, cmd, slot, env).store;
            && (if FailureRecorded(cmd, env) || StartRecorded(cmd, env)
                then slot in after && after[slot].outputs == Previous(w.store, slot, env).outputs
                else after == w.store)
            && StatusOf(after, slot) == if FailureRecorded(cmd, env) then StatusError
                                        else if StartRecorded(cmd, env) then Running else StatusOf(w.store, slot)
  {
    hide Replay, StatusOf, FailureEffects, StartEffects, Previous;
    if Cleared(env) {
      StartWrites(hosts, w, cmd, slot, env);
    } else {
      ReplayNothing(hosts, w);
      FailureWrites(hosts, w, cmd, slot, env, false);
    }
  }

  lemma DispatchedWrites(hosts: Hosts, w: World, cmd: Command, slot: Slot, env: Surroundings)
    requires Creates(cmd) && Dispatches(cmd, env) && Single(cmd, slot, env, w.store).rc != 0
    ensures var after := After(hosts, w, cmd, slot, env).store;
            if EndsTorn(cmd, env) then
              after == w.store[slot := StateRecord(StatusOk, env.published, None, None, None)]
            else
              && slot in after && after[slot].outputs == Previous(w.store, slot, env).outputs
              && StatusOf(after, slot) == if FailureRecorded(cmd, env) then StatusError else Running
  {
    hide Replay, StatusOf, FailureEffects, StartEffects, PreflightStops, Previous;
    var called := DriverEffects(cmd, slot, env, w.store);
    ReplayTwo(hosts, w, called[0], called[1]);
    var v := Replay(hosts, w, called);
    RunningIsRecorded(w, cmd, slot, env);
    assert v.store == StoreAtDriver(cmd, slot, env, w.store);
    FailureWrites(hosts, v, cmd, slot, env, true);
    ReplayConcat(hosts, w, called, FailureEffects(cmd, slot, env, v.store, true));
    var last := Write(slot, FinalRecord(cmd, env));
    ReplayConcat(hosts, w, called, [last]);
    ReplayOne(hosts, v, last);
    assert called + [] == called;
  }

  /** One apply that fails beside an unreadable record is enough to lose the outputs. */
  lemma UnreadableRecordLosesOutputs(slot: Slot, outputs: Outputs)
    ensures var w := World(map[slot := StateRecord(StatusOk, outputs, None, None, None)], {slot});
            var env := CALM.(driver := Returned(false), previousReadable := false);
            && Single(CmdApply, slot, env, w.store).rc == 1
            && slot in After(s => {}, w, CmdApply, slot, env).store
            && After(s => {}, w, CmdApply, slot, env).store[slot].outputs == map[]
  {
    var w := World(map[slot := StateRecord(StatusOk, outputs, None, None, None)], {slot});
    var env := CALM.(driver := Returned(false), previousReadable := false);
    FailureKeepsOutputs(s => {}, w, CmdApply, slot, env);
  }

  /** What is read of the outputs of a slot. */
  lemma PreviousOutputs(store: Store, slot: Slot, env: Surroundings)
    ensures Previous(store, slot, env).outputs == if slot in store && env.previousReadable then store[slot].outputs else map[]
  {
  }

  lemma StartWrites(hosts: Hosts, w: World, cmd: Command, slot: Slot, env: Surroundings)
    requires Creates(cmd)
    ensures var after := Replay(hosts, w, StartEffects(cmd, slot, env, w.store)).store;
            var failed := RecordsFailure(cmd, env, false) && env.error != Lost;
            && (failed || env.running != Lost ==>
                  slot in after && after[slot].outputs == Previous(w.store, slot, env).outputs)
            && (StatusOf(after, slot) == if failed then StatusError else if env.running != Lost then Running else StatusOf(w.store, slot))
            && (!failed && env.running == Lost ==> after == w.store)
  {
    hide Replay, FailureEffects, Previous;
    var record := StartedRecord(Previous(w.store, slot, env), cmd);
    var begun := Saves(env.running, slot, record);
    ReplayNothing(hosts, w);
    ReplayOne(hosts, w, Write(slot, record));
    var v := Replay(hosts, w, begun);
    RunningIsRecorded(w, cmd, slot, env);
    FailureWrites(hosts, v, cmd, slot, env, false);
    ReplayConcat(hosts, w, begun, FailureEffects(cmd, slot, env, v.store, false));
  }

  /** The record of the start has the outputs that were read, and reading it again changes nothing. */
  lemma RunningIsRecorded(w: World, cmd: Command, slot: Slot, env: Surroundings)
    requires Creates(cmd)
    ensures var store, outputs := StoreAtDriver(cmd, slot, env, w.store), Previous(w.store, slot, env).outputs;
            && slot in store && StatusOf(store, slot) == Running
            && store[slot].outputs == Previous(store, slot, env).outputs == outputs
  {
  }

  /** A failure keeps the outputs it can read and turns the status to "error", or leaves all as it is. */
  lemma FailureWrites(hosts: Hosts, w: World, cmd: Command, slot: Slot, env: Surroundings, started: bool)
    ensures var after := Replay(hosts, w, FailureEffects(cmd, slot, env, w.store, started)).store;
            if RecordsFailure(cmd, env, started) && env.error != Lost then
              slot in after && StatusOf(after, slot) == StatusError && after[slot].outputs == Previous(w.store, slot, env).outputs
            else after == w.store
  {
    var es := FailureEffects(cmd, slot, env, w.store, started);
    if es == [] {
      ReplayNothing(hosts, w);
    } else {
      ReplayOne(hosts, w, es[0]);
    }
  }
}
