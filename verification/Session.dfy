/**
 Time-bounded access sessions: one record file, changed by supervisors, operators and expiry
 handlers.  Loads and saves are steps of their own; only the recovery of a failed expiry works
 without the lifecycle lock, whose exclusion module Lock proves.
 */
module Session {
  import opened Ordering

  type Proc = nat
  type SessionId = nat
  type Generation = nat

  datatype Status = Active | Executing | CancelledByOperator | Completed | Interrupted | Released | RetainedAfterFailure | StaleGeneration

  /** What a supervisor that stops watching may leave behind. */
  type Closing = s: Status | s == CancelledByOperator || s == Completed || s == Interrupted witness Completed

  datatype SessionRecord = SessionRecord(id: SessionId, status: Status, generation: Generation, deadline: int)

  datatype Goal = ToStart(duration: nat, read: Generation) | ToExtend(seconds: nat) | ToCancel

  /** Where a process is; the states from Admitted on hold the lock, except where they say. */
  datatype Pc =
    | Sleeping
    | Admitted(goal: Goal)
    | Loaded(goal: Goal, found: Option<SessionRecord>)
    | Extended(copy: SessionRecord)
    // the supervisor of a session
    | Watching(id: SessionId)
    | Waiting(id: SessionId)
    | Expiring(id: SessionId)
    | ExpiryAdmitted(id: SessionId)
    | ExpiryLoaded(copy: SessionRecord)
    | Committed(copy: SessionRecord, read: Generation)
    | Destroying(copy: SessionRecord, read: Generation)
    | Failed(id: SessionId)
    | Recovering(copy: SessionRecord)
    | Leaving(id: SessionId, closing: Closing)
    | LeavingAdmitted(id: SessionId, closing: Closing)
    | LeavingLoaded(copy: SessionRecord, closing: Closing)
    | Ended
    | Crashed

  /** A dispatch of the protected destroy: the record it acted on, and what it read beside it. */
  datatype Dispatch = Dispatch(record: SessionRecord, generation: Generation, at: int)

  datatype State = State(
    record: Option<SessionRecord>,
    lock: Option<Proc>,
    now: int,
    generation: Generation,
    pcs: map<Proc, Pc>,
    used: set<SessionId>,
    cancelled: set<SessionId>,
    dispatches: seq<Dispatch>)

  const START := State(None, None, 0, 0, map[], {}, {}, [])

  /**
   One step of a process.  A torn save has replaced the record and then raised, before the copy
   of it in the run's own record was written.
   */
  datatype Step =
    | Tick
    | Regenerate(g: Generation)
    | Enter(p: Proc, goal: Goal)
    | Load(p: Proc, supervised: bool)
    | Begin(p: Proc, id: SessionId, torn: bool)
    | Extend(p: Proc)
    | TestExtension(p: Proc)
    | SaveExtension(p: Proc)
    | Cancel(p: Proc)
    | GiveUp(p: Proc)
    | Poll(p: Proc)
    | Expire(p: Proc)
    | LoadExpiry(p: Proc)
    | JudgeExpiry(p: Proc, torn: bool)
    | DispatchDestroy(p: Proc)
    | Finish(p: Proc, released: bool, torn: bool)
    | Raise(p: Proc)
    | LoadRecovery(p: Proc)
    | SaveRecovery(p: Proc)
    | Interrupt(p: Proc, closing: Closing)
    | Leave(p: Proc)
    | LoadLeaving(p: Proc)
    | SaveLeaving(p: Proc)
    | Crash(p: Proc)
    | BreakLock

  function PcOf(s: State, p: Proc): Pc {
    if p in s.pcs then s.pcs[p] else Sleeping
  }

  function Goto(s: State, p: Proc, pc: Pc): State {
    s.(pcs := s.pcs[p := pc])
  }

  function Release(s: State, p: Proc, pc: Pc): State {
    s.(lock := None, pcs := s.pcs[p := pc])
  }

  function Save(s: State, r: SessionRecord): State {
    s.(record := Some(r))
  }

  /** Under the lock: without it the operation is refused and its process gives up. */
  function Locked(s: State, p: Proc, pc: Pc): State {
    if s.lock.None? then s.(lock := Some(p), pcs := s.pcs[p := pc]) else Goto(s, p, Ended)
  }

  predicate IsActive(r: Option<SessionRecord>, id: SessionId) {
    r.Some? && r.value.id == id && r.value.status == Active
  }

  /** What a record counts as, given whether its supervisor runs. */
  datatype Effective = As(status: Status) | Unsupervised | OverdueUnsupervised

  predicate FinalStatus(s: Status) {
    s != Active && s != Executing
  }

  /** `effective_status`: only a supervised session can count as active or executing. */
  function EffectiveStatus(r: SessionRecord, supervised: bool, now: int): (e: Effective)
    ensures e in {As(Active), As(Executing)} <==> supervised && !FinalStatus(r.status)
    ensures e.As? ==> e.status == r.status
    ensures e == OverdueUnsupervised <==> !FinalStatus(r.status) && !supervised && r.deadline <= now
  {
    if FinalStatus(r.status) || supervised then As(r.status)
    else if now >= r.deadline then OverdueUnsupervised
    else Unsupervised
  }

  /** `start_session` and `run_session` under the lock. */
  function OperatorStep(s: State, step: Step): Option<State>
    requires step.Load? || step.Begin? || step.Extend? || step.TestExtension? || step.SaveExtension? || step.Cancel? || step.GiveUp?
  {
    var p := step.p;
    match (step, PcOf(s, p))
    case (Load(_, supervised), Admitted(goal)) =>
      var effective := if s.record.Some? then EffectiveStatus(s.record.value, supervised, s.now) else Unsupervised;
      if goal.ToStart? && effective in {As(Active), As(Executing)} then Some(Release(s, p, Ended))
      else if goal.ToExtend? && effective != As(Active) then Some(Release(s, p, Ended))
      else if goal.ToCancel? && (s.record.None? || s.record.value.status != Active) then Some(Release(s, p, Ended))
      else Some(Goto(s, p, Loaded(goal, s.record)))
    case (Begin(_, id, torn), Loaded(ToStart(duration, read), _)) =>
      if id in s.used then None
      else Some(Save(Release(s, p, if torn then Ended else Watching(id)), SessionRecord(id, Active, read, s.now + duration)).(used := s.used + {id}))
    case (Extend(_), Loaded(ToExtend(seconds), Some(r))) =>
      if s.generation != r.generation then Some(Save(Release(s, p, Ended), r.(status := StaleGeneration)))
      else if r.deadline <= s.now then Some(Release(s, p, Ended))
      else Some(Save(Release(s, p, Ended), r.(deadline := r.deadline + seconds)))
    case (TestExtension(_), Loaded(ToExtend(seconds), Some(r))) =>
      if s.generation != r.generation || r.deadline <= s.now then None
      else Some(Goto(s, p, Extended(r.(deadline := r.deadline + seconds))))
    case (SaveExtension(_), Extended(r)) => Some(Save(Release(s, p, Ended), r))
    case (Cancel(_), Loaded(ToCancel, Some(r))) =>
      Some(Save(Release(s, p, Ended), r.(status := CancelledByOperator)).(cancelled := s.cancelled + {r.id}))
    case (GiveUp(_), Admitted(_)) => Some(Release(s, p, Ended))
    case (GiveUp(_), Loaded(_, _)) => Some(Release(s, p, Ended))
    case (GiveUp(_), Extended(_)) => Some(Release(s, p, Ended))
    case _ => None
  }

  /** `_wait_for_managed_access` and `_close_access_session`. */
  function SupervisorStep(s: State, step: Step): Option<State>
    requires step.Poll? || step.Interrupt? || step.Leave? || step.LoadLeaving? || step.SaveLeaving?
  {
    var p := step.p;
    match (step, PcOf(s, p))
    case (Poll(_), Watching(id)) =>
      if !IsActive(s.record, id) then Some(Goto(s, p, Waiting(id)))
      else if s.record.value.deadline <= s.now then Some(Goto(s, p, Expiring(id)))
      else Some(s)
    case (Interrupt(_, closing), Waiting(id)) => Some(Goto(s, p, Leaving(id, closing)))
    case (Interrupt(_, closing), Watching(id)) => Some(Goto(s, p, Leaving(id, closing)))
    case (Interrupt(_, closing), Expiring(id)) => Some(Goto(s, p, Leaving(id, closing)))
    case (Interrupt(_, closing), ExpiryAdmitted(id)) => Some(Release(s, p, Leaving(id, closing)))
    case (Interrupt(_, closing), ExpiryLoaded(r)) => Some(Release(s, p, Leaving(r.id, closing)))
    case (Interrupt(_, closing), Committed(r, _)) => Some(Release(s, p, Leaving(r.id, closing)))
    case (Interrupt(_, closing), Destroying(r, _)) => Some(Release(s, p, Leaving(r.id, closing)))
    case (Leave(_), Leaving(id, closing)) => Some(Locked(s, p, LeavingAdmitted(id, closing)))
    case (LoadLeaving(_), LeavingAdmitted(id, closing)) =>
      if IsActive(s.record, id) then Some(Goto(s, p, LeavingLoaded(s.record.value, closing))) else Some(Release(s, p, Ended))
    case (SaveLeaving(_), LeavingLoaded(r, closing)) =>
      var t := Save(Release(s, p, Ended), r.(status := closing));
      Some(if closing == CancelledByOperator then t.(cancelled := s.cancelled + {r.id}) else t)
    case _ => None
  }

  /** The last save of an expiry either ends it or, torn, leaves it to the handler. */
  function Raised(torn: bool, id: SessionId): Pc {
    if torn then Failed(id) else Ended
  }

  /** `_expire_access_session`, whose handler runs after the lock has been released. */
  function ExpiryStep(s: State, step: Step): Option<State>
    requires step.Expire? || step.LoadExpiry? || step.JudgeExpiry? || step.DispatchDestroy? || step.Finish?
             || step.Raise? || step.LoadRecovery? || step.SaveRecovery?
  {
    var p := step.p;
    match (step, PcOf(s, p))
    case (Expire(_), Expiring(id)) => Some(Locked(s, p, ExpiryAdmitted(id)))
    case (LoadExpiry(_), ExpiryAdmitted(id)) =>
      if IsActive(s.record, id) then Some(Goto(s, p, ExpiryLoaded(s.record.value))) else Some(Release(s, p, Failed(id)))
    case (JudgeExpiry(_, torn), ExpiryLoaded(r)) =>
      if s.generation != r.generation then Some(Save(Release(s, p, Raised(torn, r.id)), r.(status := StaleGeneration)))
      else if torn then Some(Save(Release(s, p, Failed(r.id)), r.(status := Executing)))
      else Some(Save(Goto(s, p, Committed(r, s.generation)), r.(status := Executing)))
    case (DispatchDestroy(_), Committed(r, read)) =>
      Some(Goto(s, p, Destroying(r, read)).(dispatches := s.dispatches + [Dispatch(r, read, s.now)]))
    case (Finish(_, released, torn), Destroying(r, _)) =>
      Some(Save(Release(s, p, Raised(torn, r.id)), r.(status := if released then Released else RetainedAfterFailure)))
    case (Raise(_), ExpiryAdmitted(id)) => Some(Release(s, p, Failed(id)))
    case (Raise(_), ExpiryLoaded(r)) => Some(Release(s, p, Failed(r.id)))
    case (Raise(_), Committed(r, _)) => Some(Release(s, p, Failed(r.id)))
    case (Raise(_), Destroying(r, _)) => Some(Release(s, p, Failed(r.id)))
    case (LoadRecovery(_), Failed(id)) =>
      if s.record.Some? && s.record.value.id == id then Some(Goto(s, p, Recovering(s.record.value))) else Some(Goto(s, p, Ended))
    case (SaveRecovery(_), Recovering(r)) => Some(Save(Goto(s, p, Ended), r.(status := RetainedAfterFailure)))
    case _ => None
  }

  /** The state after a step, or None if the process is not at that step. */
  function Take(s: State, step: Step): Option<State> {
    match step
    case Tick => Some(s.(now := s.now + 1))
    case Regenerate(g) => Some(s.(generation := g))
    case Enter(p, goal) => if PcOf(s, p) == Sleeping then Some(Locked(s, p, Admitted(goal))) else None
    case Crash(p) => Some(Goto(s, p, Crashed))
    case BreakLock => if s.lock.Some? && PcOf(s, s.lock.value) == Crashed then Some(s.(lock := None)) else None
    case Load(_, _) => OperatorStep(s, step)
    case Begin(_, _, _) => OperatorStep(s, step)
    case Extend(_) => OperatorStep(s, step)
    case TestExtension(_) => OperatorStep(s, step)
    case SaveExtension(_) => OperatorStep(s, step)
    case Cancel(_) => OperatorStep(s, step)
    case GiveUp(_) => OperatorStep(s, step)
    case Poll(_) => SupervisorStep(s, step)
    case Interrupt(_, _) => SupervisorStep(s, step)
    case Leave(_) => SupervisorStep(s, step)
    case LoadLeaving(_) => SupervisorStep(s, step)
    case SaveLeaving(_) => SupervisorStep(s, step)
    case _ => ExpiryStep(s, step)
  }

  function After(s: State, steps: seq<Step>): Option<State> {
    if steps == [] then Some(s)
    else
      var before := After(s, steps[..|steps| - 1]);
      if before.None? then None else Take(before.value, steps[|steps| - 1])
  }

  // ----- Who may do what -----------------------------------------------------------------------

  /** The lock is held in this state. */
  predicate Inside(pc: Pc) {
    match pc
    case Admitted(_) => true
    case Loaded(_, _) => true
    case Extended(_) => true
    case ExpiryAdmitted(_) => true
    case ExpiryLoaded(_) => true
    case Committed(_, _) => true
    case Destroying(_, _) => true
    case LeavingAdmitted(_, _) => true
    case LeavingLoaded(_, _) => true
    case _ => false
  }

  /** The session that a process may still dispatch a destroy for. */
  function Armed(pc: Pc): Option<SessionId> {
    match pc
    case Watching(id) => Some(id)
    case Expiring(id) => Some(id)
    case ExpiryAdmitted(id) => Some(id)
    case ExpiryLoaded(r) => Some(r.id)
    case Committed(r, _) => Some(r.id)
    case _ => None
  }

  /** A record that a process under the lock may base its next save on. */
  function Copy(pc: Pc): Option<SessionRecord> {
    match pc
    case Loaded(goal, found) => if goal.ToStart? then None else found
    case Extended(r) => Some(r)
    case ExpiryLoaded(r) => Some(r)
    case LeavingLoaded(r, _) => Some(r)
    case _ => None
  }

  predicate WasDispatched(s: State, id: SessionId) {
    exists k :: 0 <= k < |s.dispatches| && s.dispatches[k].record.id == id
  }

  /** The supervisor has seen its deadline pass and has not yet read the record again. */
  predicate Ripe(pc: Pc) {
    pc.Expiring? || pc.ExpiryAdmitted?
  }

  // ----- What a step can change --------------------------------------------------------------------

  predicate HasActor(step: Step) {
    !step.Tick? && !step.Regenerate? && !step.BreakLock?
  }

  /** Where the process that takes the step may be afterwards. */
  predicate PcChange(s: State, step: Step, pc: Pc, after: Pc) {
    && (Armed(after).Some? ==> Armed(after) == Armed(pc) || (step.Begin? && step.id !in s.used && Armed(after) == Some(step.id)))
    && (Copy(after).Some? && !after.Extended? ==> Inside(pc) && s.record == Copy(after) && s.record.value.status == Active)
    && (after.Extended? ==> step.TestExtension? && pc.Loaded? && Copy(pc).Some? && after.copy == Copy(pc).value.(deadline := after.copy.deadline))
    && (after.Loaded? && !after.goal.ToStart? ==> after.found.Some?)
    && (after.Committed? ==> pc.ExpiryLoaded? && after.copy == pc.copy && after.read == s.generation == pc.copy.generation)
    && (after.Destroying? ==> pc.Committed? && after.copy == pc.copy)
    && (after.Recovering? ==> s.record == Some(after.copy))
    && (Ripe(after) ==> (Ripe(pc) || (pc.Watching? && IsActive(s.record, pc.id) && s.record.value.deadline <= s.now)) && after.id == pc.id)
    && (after.ExpiryLoaded? ==> pc.ExpiryAdmitted? && IsActive(s.record, pc.id) && s.record == Some(after.copy))
  }

  /** What may become of the record, given where its writer stood. */
  predicate RecordChange(s: State, step: Step, pc: Pc, record: Option<SessionRecord>) {
    || record == s.record
    || (record.Some? && var r := record.value;
        || (step.Begin? && pc.Loaded? && step.id !in s.used && r.id == step.id)
        || (Copy(pc).Some? && r.status != Active && r == Copy(pc).value.(status := r.status))
        || (Copy(pc).Some? && r == Copy(pc).value.(deadline := r.deadline) && (pc.Extended? || Copy(pc).value.deadline > s.now))
        || (pc.Destroying? && r.status != Active && r == pc.copy.(status := r.status))
        || (pc.Recovering? && step.SaveRecovery? && r == pc.copy.(status := RetainedAfterFailure)))
  }

  predicate LockChange(before: Option<Proc>, after: Option<Proc>, p: Proc, pc: Pc, pc': Pc) {
    || (after == before && (Inside(pc') ==> Inside(pc)))
    || (before.None? && after == Some(p) && !Inside(pc))
    || (after.None? && Inside(pc) && !Inside(pc'))
  }

  /** A session is closed by a cancellation or by a dispatch, never by both at once. */
  predicate ClosingChange(s: State, step: Step, pc: Pc, after: Pc, t: State) {
    || (t.cancelled == s.cancelled && t.dispatches == s.dispatches && !after.Destroying?)
    || (t.cancelled == s.cancelled && step.DispatchDestroy? && pc.Committed? && after.Destroying? && t.record == s.record
        && t.dispatches == s.dispatches + [Dispatch(pc.copy, pc.read, s.now)])
    || (t.dispatches == s.dispatches && Inside(pc) && Copy(pc).Some? && Copy(after).None? && !after.Destroying?
        && t.cancelled == s.cancelled + {Copy(pc).value.id} && t.record == Some(Copy(pc).value.(status := CancelledByOperator)))
  }

  ghost predicate Changes(s: State, step: Step, t: State)
    requires HasActor(step)
  {
    var pc, after := PcOf(s, step.p), PcOf(t, step.p);
    && t.pcs == s.pcs[step.p := after] && t.now == s.now && t.generation == s.generation
    && t.used == (if step.Begin? then s.used + {step.id} else s.used)
    && PcChange(s, step, pc, after)
    && RecordChange(s, step, pc, t.record)
    && LockChange(s.lock, t.lock, step.p, pc, after)
    && ClosingChange(s, step, pc, after, t)
    && (after.Committed? ==> t.record == Some(pc.copy.(status := Executing)))
    && (Copy(after).Some? ==> t.record == s.record)
    && (!Inside(pc) && !step.SaveRecovery? ==> t.record == s.record)
  }

  lemma OperatorChanges(s: State, step: Step)
    requires step.Load? || step.Begin? || step.Extend? || step.TestExtension? || step.SaveExtension? || step.Cancel? || step.GiveUp?
    requires OperatorStep(s, step).Some?
    ensures Changes(s, step, OperatorStep(s, step).value)
  {
  }

  lemma SupervisorChanges(s: State, step: Step)
    requires step.Poll? || step.Interrupt? || step.Leave? || step.LoadLeaving? || step.SaveLeaving?
    requires SupervisorStep(s, step).Some?
    ensures Changes(s, step, SupervisorStep(s, step).value)
  {
  }

  lemma ExpiryChanges(s: State, step: Step)
    requires step.Expire? || step.LoadExpiry? || step.JudgeExpiry? || step.DispatchDestroy? || step.Finish?
             || step.Raise? || step.LoadRecovery? || step.SaveRecovery?
    requires ExpiryStep(s, step).Some?
    ensures Changes(s, step, ExpiryStep(s, step).value)
  {
  }
}
