/** The promises of the session protocol, over every interleaving of its processes. */
module SessionTheorems {
  import opened Ordering
  import opened Session

  // ----- The invariant --------------------------------------------------------------------------

  /** The session is over for good: nothing on disk or in flight says that it is active. */
  ghost predicate Over(s: State, id: SessionId) {
    && id in s.used
    && !IsActive(s.record, id)
    && forall p :: !IsActive(Copy(PcOf(s, p)), id)
  }

  /** What holds of a process wherever it stands. */
  ghost predicate Local(s: State, p: Proc, pc: Pc) {
    && (Inside(pc) ==> s.lock == Some(p))
    && (Armed(pc).Some? ==> Armed(pc).value in s.used && !WasDispatched(s, Armed(pc).value))
    && (Copy(pc).Some? ==> Copy(pc).value.id in s.used && Copy(pc).value.status == Active)
    && (pc.Loaded? && !pc.goal.ToStart? ==> pc.found.Some?)
    && (pc.Committed? ==>
          && !IsActive(s.record, pc.copy.id) && pc.copy.id !in s.cancelled
          && pc.copy.status == Active && pc.copy.generation == pc.read)
    && (pc.Destroying? || pc.Recovering? ==> pc.copy.id in s.used)
  }

  ghost predicate Sound(s: State) {
    && (s.record.Some? ==> s.record.value.id in s.used)
    && (forall p :: Local(s, p, PcOf(s, p)))
    && (forall p, q :: Armed(PcOf(s, p)).Some? && Armed(PcOf(s, p)) == Armed(PcOf(s, q)) ==> p == q)
    && (forall id :: id in s.cancelled || WasDispatched(s, id) ==> Over(s, id))
    && (forall id :: id in s.cancelled ==> !WasDispatched(s, id))
  }

  ghost predicate Once(ds: seq<Dispatch>) {
    forall j, k :: 0 <= j < k < |ds| ==> ds[j].record.id != ds[k].record.id
  }

  ghost predicate Authorised(ds: seq<Dispatch>) {
    forall k :: 0 <= k < |ds| ==> ds[k].record.status == Active && ds[k].record.generation == ds[k].generation
  }

  // ----- Every step keeps it ----------------------------------------------------------------------

  lemma StepChanges(s: State, step: Step)
    requires Take(s, step).Some? && HasActor(step)
    ensures Changes(s, step, Take(s, step).value)
  {
    hide Changes, OperatorStep, SupervisorStep, ExpiryStep;
    if OfOperator(step) {
      OperatorChanges(s, step);
    } else if OfSupervisor(step) {
      SupervisorChanges(s, step);
    } else if OfExpiry(step) {
      ExpiryChanges(s, step);
    } else {
      EntryChanges(s, step);
    }
  }

  predicate OfOperator(step: Step) {
    step.Load? || step.Begin? || step.Extend? || step.TestExtension? || step.SaveExtension? || step.Cancel? || step.GiveUp?
  }

  predicate OfSupervisor(step: Step) {
    step.Poll? || step.Interrupt? || step.Leave? || step.LoadLeaving? || step.SaveLeaving?
  }

  predicate OfExpiry(step: Step) {
    step.Expire? || step.LoadExpiry? || step.JudgeExpiry? || step.DispatchDestroy? || step.Finish?
    || step.Raise? || step.LoadRecovery? || step.SaveRecovery?
  }

  lemma EntryChanges(s: State, step: Step)
    requires (step.Enter? || step.Crash?) && Take(s, step).Some?
    ensures Changes(s, step, Take(s, step).value)
  {
  }

  /** A step without an actor: the clock, the resources' generation, or a lock whose owner crashed. */
  predicate Passes(s: State, t: State) {
    && t.pcs == s.pcs && t.record == s.record && t.used == s.used && t.cancelled == s.cancelled && t.dispatches == s.dispatches
    && t.now >= s.now
    && (t.lock == s.lock || (s.lock.Some? && PcOf(s, s.lock.value) == Crashed))
  }

  lemma StepPasses(s: State, step: Step)
    requires Take(s, step).Some? && !HasActor(step)
    ensures Passes(s, Take(s, step).value)
  {
  }

  /** Only the process that takes a step changes place. */
  lemma OthersWait(s: State, step: Step, t: State, q: Proc)
    requires HasActor(step) && Changes(s, step, t) && step.p != q
    ensures PcOf(t, q) == PcOf(s, q)
  {
  }

  lemma AloneInside(s: State, p: Proc, q: Proc)
    requires Sound(s) && Inside(PcOf(s, p)) && p != q
    ensures !Inside(PcOf(s, q)) && Copy(PcOf(s, q)).None? && !PcOf(s, q).Committed?
  {
    assert Local(s, p, PcOf(s, p)) && Local(s, q, PcOf(s, q));
  }

  /** Nothing still in flight as active has been cancelled or dispatched. */
  lemma InFlightIsOpen(s: State, p: Proc)
    requires Sound(s)
    ensures Copy(PcOf(s, p)).Some? ==>
              Copy(PcOf(s, p)).value.id !in s.cancelled && !WasDispatched(s, Copy(PcOf(s, p)).value.id)
  {
    hide WasDispatched;
    assert Local(s, p, PcOf(s, p));
    if Copy(PcOf(s, p)).Some? {
      var id := Copy(PcOf(s, p)).value.id;
      assert id in s.cancelled || WasDispatched(s, id) ==> Over(s, id);
    }
  }

  lemma UnusedIsOpen(s: State, id: SessionId)
    requires Sound(s) && id !in s.used
    ensures !WasDispatched(s, id) && id !in s.cancelled
  {
    hide WasDispatched;
    assert WasDispatched(s, id) || id in s.cancelled ==> Over(s, id);
  }

  /** The dispatches of the state after a step. */
  lemma DispatchesGrow(s: State, step: Step, t: State, id: SessionId)
    requires HasActor(step) && Changes(s, step, t)
    ensures WasDispatched(t, id) <==>
              WasDispatched(s, id) || (t.dispatches != s.dispatches && PcOf(s, step.p).Committed? && PcOf(s, step.p).copy.id == id)
  {
    if WasDispatched(s, id) {
      var k :| 0 <= k < |s.dispatches| && s.dispatches[k].record.id == id;
      assert t.dispatches[k].record.id == id;
    }
    if t.dispatches != s.dispatches && PcOf(s, step.p).Committed? && PcOf(s, step.p).copy.id == id {
      assert t.dispatches[|s.dispatches|].record.id == id;
    }
  }

  /** No step but the start of a session makes a record active that was not. */
  lemma OverStaysOver(s: State, step: Step, t: State, id: SessionId)
    requires HasActor(step) && Changes(s, step, t) && Sound(s) && Over(s, id)
    ensures Over(t, id)
  {
    assert Local(s, step.p, PcOf(s, step.p));
    forall p
      ensures !IsActive(Copy(PcOf(t, p)), id)
    {
      if step.p != p {
        OthersWait(s, step, t, p);
      }
    }
  }

  /** A session that a step cancels or dispatches is over from then on. */
  lemma NewlyClosedIsOver(s: State, step: Step, t: State, id: SessionId)
    requires HasActor(step) && Changes(s, step, t) && Sound(s)
    requires id !in s.cancelled && !WasDispatched(s, id) && (id in t.cancelled || WasDispatched(t, id))
    ensures Over(t, id) && (id in t.cancelled ==> !WasDispatched(t, id))
  {
    DispatchesGrow(s, step, t, id);
    assert Local(s, step.p, PcOf(s, step.p));
    forall q
      ensures !IsActive(Copy(PcOf(t, q)), id)
    {
      if q != step.p {
        AloneInside(s, step.p, q);
        OthersWait(s, step, t, q);
      }
    }
  }

  lemma ClosedIsOver(s: State, step: Step, t: State, id: SessionId)
    requires HasActor(step) && Changes(s, step, t) && Sound(s)
    requires id in t.cancelled || WasDispatched(t, id)
    ensures Over(t, id) && (id in t.cancelled ==> !WasDispatched(t, id))
  {
    hide Local, WasDispatched, IsActive;
    if id in s.cancelled || WasDispatched(s, id) {
      assert Over(s, id) && (id in s.cancelled ==> !WasDispatched(s, id));
      OverStaysOver(s, step, t, id);
      DispatchesGrow(s, step, t, id);
      InFlightIsOpen(s, step.p);
      assert Local(s, step.p, PcOf(s, step.p));
      CommittedIsOpen(s, step.p);
    } else {
      NewlyClosedIsOver(s, step, t, id);
    }
  }

  lemma CommittedIsOpen(s: State, p: Proc)
    requires Sound(s)
    ensures PcOf(s, p).Committed? ==> PcOf(s, p).copy.id !in s.cancelled && !WasDispatched(s, PcOf(s, p).copy.id)
  {
    hide WasDispatched;
    assert Local(s, p, PcOf(s, p));
  }

  lemma BystandersStayLocal(s: State, step: Step, t: State, q: Proc)
    requires HasActor(step) && Changes(s, step, t) && Sound(s) && step.p != q
    ensures Local(t, q, PcOf(t, q))
  {
    hide WasDispatched;
    var pc := PcOf(s, q);
    OthersWait(s, step, t, q);
    assert Local(s, q, pc) && Local(s, step.p, PcOf(s, step.p));
    if Inside(pc) {
      AloneInside(s, q, step.p);
    }
    if Armed(pc).Some? {
      DispatchesGrow(s, step, t, Armed(pc).value);
      OneSupervisor(s, step.p, q);
    }
  }

  lemma OneSupervisor(s: State, p: Proc, q: Proc)
    requires Sound(s) && p != q
    ensures Armed(PcOf(s, p)).Some? ==> Armed(PcOf(s, p)) != Armed(PcOf(s, q))
  {
  }

  lemma ActorStaysLocal(s: State, step: Step, t: State)
    requires HasActor(step) && Changes(s, step, t) && Sound(s)
    ensures Local(t, step.p, PcOf(t, step.p))
  {
    var p := step.p;
    assert Local(s, p, PcOf(s, p)) && (s.record.Some? ==> s.record.value.id in s.used);
    InFlightIsOpen(s, p);
    if step.Begin? && step.id !in s.used {
      UnusedIsOpen(s, step.id);
    }
    hide Sound, WasDispatched, Over;
    if Armed(PcOf(t, p)).Some? {
      DispatchesGrow(s, step, t, Armed(PcOf(t, p)).value);
    }
  }

  lemma SupervisorsStayApart(s: State, step: Step, t: State, p: Proc, q: Proc)
    requires HasActor(step) && Changes(s, step, t) && Sound(s)
    requires Armed(PcOf(t, p)).Some? && Armed(PcOf(t, p)) == Armed(PcOf(t, q))
    ensures p == q
  {
    assert Local(s, p, PcOf(s, p)) && Local(s, q, PcOf(s, q));
    if p != step.p {
      OthersWait(s, step, t, p);
    }
    if q != step.p {
      OthersWait(s, step, t, q);
    }
  }

  lemma RecordIsUsed(s: State, step: Step, t: State)
    requires HasActor(step) && Changes(s, step, t) && Sound(s)
    ensures t.record.Some? ==> t.record.value.id in t.used
  {
    assert Local(s, step.p, PcOf(s, step.p));
  }

  lemma ChangeKeepsSound(s: State, step: Step, t: State)
    requires HasActor(step) && Changes(s, step, t) && Sound(s)
    ensures Sound(t)
  {
    hide Changes, Local, Over, WasDispatched;
    forall p
      ensures Local(t, p, PcOf(t, p))
    {
      if step.p == p {
        ActorStaysLocal(s, step, t);
      } else {
        BystandersStayLocal(s, step, t, p);
      }
    }
    forall p, q | Armed(PcOf(t, p)).Some? && Armed(PcOf(t, p)) == Armed(PcOf(t, q))
      ensures p == q
    {
      SupervisorsStayApart(s, step, t, p, q);
    }
    forall id | id in t.cancelled || WasDispatched(t, id)
      ensures Over(t, id) && (id in t.cancelled ==> !WasDispatched(t, id))
    {
      ClosedIsOver(s, step, t, id);
    }
    RecordIsUsed(s, step, t);
  }

  lemma PassingKeepsSound(s: State, t: State)
    requires Passes(s, t) && Sound(s)
    ensures Sound(t)
  {
    assert forall p :: PcOf(t, p) == PcOf(s, p);
    forall p
      ensures Local(t, p, PcOf(t, p))
    {
      assert Local(s, p, PcOf(s, p)) && PcOf(t, p) == PcOf(s, p);
      assert forall id :: WasDispatched(t, id) <==> WasDispatched(s, id);
    }
    forall id | id in t.cancelled || WasDispatched(t, id)
      ensures Over(t, id) && (id in t.cancelled ==> !WasDispatched(t, id))
    {
      assert WasDispatched(t, id) <==> WasDispatched(s, id);
      assert Over(s, id);
    }
  }

  /** A dispatch acts on a record read as active, of the generation read beside it, and is the first. */
  lemma ChangeKeepsOnce(s: State, step: Step, t: State)
    requires HasActor(step) && Changes(s, step, t) && Sound(s) && Once(s.dispatches) && Authorised(s.dispatches)
    ensures Once(t.dispatches) && Authorised(t.dispatches)
  {
    assert Local(s, step.p, PcOf(s, step.p));
    CommittedIsOpen(s, step.p);
  }

  lemma StepKeepsSound(s: State, step: Step)
    requires Take(s, step).Some? && Sound(s) && Once(s.dispatches) && Authorised(s.dispatches)
    ensures Sound(Take(s, step).value) && Once(Take(s, step).value.dispatches) && Authorised(Take(s, step).value.dispatches)
  {
    hide Take, Sound, Changes, Once, Authorised;
    var t := Take(s, step).value;
    if HasActor(step) {
      StepChanges(s, step);
      ChangeKeepsSound(s, step, t);
      ChangeKeepsOnce(s, step, t);
    } else {
      StepPasses(s, step);
      PassingKeepsSound(s, t);
    }
  }

  lemma {:induction false} RunsAreSound(steps: seq<Step>)
    requires After(START, steps).Some?
    ensures Sound(After(START, steps).value)
    ensures Once(After(START, steps).value.dispatches) && Authorised(After(START, steps).value.dispatches)
  {
    hide Take, Sound;
    if steps == [] {
      StartIsSound();
    } else {
      var s := After(START, steps[..|steps| - 1]).value;
      RunsAreSound(steps[..|steps| - 1]);
      StepKeepsSound(s, steps[|steps| - 1]);
    }
  }

  lemma StartIsSound()
    ensures Sound(START)
  {
  }

  /**
   Over every interleaving of supervisors, operators and handlers: each session dispatches its
   destroy at most once, only for a record that said "active" and the generation that was then
   read, and never if it has been cancelled, before or after.
   */
  lemma AtMostOneRelease(steps: seq<Step>, j: nat, k: nat)
    requires After(START, steps).Some?
    requires j < |After(START, steps).value.dispatches| && k < |After(START, steps).value.dispatches|
    ensures var s := After(START, steps).value;
            && (s.dispatches[j].record.id == s.dispatches[k].record.id ==> j == k)
            && s.dispatches[j].record.status == Active && s.dispatches[j].record.generation == s.dispatches[j].generation
            && s.dispatches[j].record.id !in s.cancelled
  {
    hide Take;
    RunsAreSound(steps);
    var s := After(START, steps).value;
    assert WasDispatched(s, s.dispatches[j].record.id);
  }

  // ----- Deadlines ------------------------------------------------------------------------------

  /** `extend` takes its test and its save as one step. */
  predicate Whole(step: Step) {
    !step.TestExtension?
  }

  predicate Overdue(r: Option<SessionRecord>, id: SessionId, now: int) {
    IsActive(r, id) ==> r.value.deadline <= now
  }

  /** What a process knows of the deadline it acts on. */
  ghost predicate Punctual(s: State, p: Proc, pc: Pc) {
    && !pc.Extended?
    && (Copy(pc).Some? && IsActive(s.record, Copy(pc).value.id) ==> s.record == Copy(pc))
    && (Ripe(pc) ==> Overdue(s.record, pc.id, s.now) && forall q :: Overdue(Copy(PcOf(s, q)), pc.id, s.now))
    && (pc.ExpiryLoaded? || pc.Committed? ==> pc.copy.deadline <= s.now)
  }

  ghost predicate Timely(s: State) {
    forall p :: Punctual(s, p, PcOf(s, p))
  }

  /** An extension never succeeds once a poll has seen the deadline pass. */
  lemma StaysOverdue(s: State, step: Step, t: State, id: SessionId)
    requires HasActor(step) && Changes(s, step, t) && Sound(s) && Whole(step) && id in s.used
    requires !PcOf(s, step.p).Extended?
    requires Overdue(s.record, id, s.now) && forall q :: Overdue(Copy(PcOf(s, q)), id, s.now)
    ensures Overdue(t.record, id, t.now) && forall q :: Overdue(Copy(PcOf(t, q)), id, t.now)
  {
    var p := step.p;
    assert Local(s, p, PcOf(s, p)) && Overdue(Copy(PcOf(s, p)), id, s.now);
    forall q
      ensures Overdue(Copy(PcOf(t, q)), id, t.now)
    {
      assert Overdue(Copy(PcOf(s, q)), id, s.now);
      if q != p {
        OthersWait(s, step, t, q);
      }
    }
  }

  /** A poll that sees an active record's deadline pass sees it for every copy under the lock, too. */
  lemma PollSeesAll(s: State, id: SessionId)
    requires Timely(s) && IsActive(s.record, id) && s.record.value.deadline <= s.now
    ensures forall q :: Overdue(Copy(PcOf(s, q)), id, s.now)
  {
    forall q
      ensures Overdue(Copy(PcOf(s, q)), id, s.now)
    {
      assert Punctual(s, q, PcOf(s, q));
    }
  }

  lemma RipeStaysOverdue(s: State, step: Step, t: State, p: Proc)
    requires HasActor(step) && Changes(s, step, t) && Sound(s) && Timely(s) && Whole(step)
    ensures Ripe(PcOf(t, p)) ==> Overdue(t.record, PcOf(t, p).id, t.now) && forall q :: Overdue(Copy(PcOf(t, q)), PcOf(t, p).id, t.now)
  {
    if Ripe(PcOf(t, p)) {
      if p != step.p {
        OthersWait(s, step, t, p);
      }
      var id := PcOf(t, p).id;
      assert Punctual(s, p, PcOf(s, p)) && Local(s, p, PcOf(s, p)) && Punctual(s, step.p, PcOf(s, step.p));
      assert Armed(PcOf(s, p)) == Some(id);
      if !Ripe(PcOf(s, p)) {
        PollSeesAll(s, id);
      }
      hide Changes, Timely, Overdue, Local, Sound, IsActive;
      assert id in s.used by {
        ArmedIsUsed(s, p);
      }
      StaysOverdue(s, step, t, id);
    }
  }

  lemma ArmedIsUsed(s: State, p: Proc)
    requires Sound(s)
    ensures Armed(PcOf(s, p)).Some? ==> Armed(PcOf(s, p)).value in s.used
  {
    assert Local(s, p, PcOf(s, p));
  }

  lemma OneStaysPunctual(s: State, step: Step, t: State, p: Proc)
    requires HasActor(step) && Changes(s, step, t) && Sound(s) && Timely(s) && Whole(step)
    ensures Punctual(t, p, PcOf(t, p))
  {
    RipeStaysOverdue(s, step, t, p);
    assert Punctual(s, p, PcOf(s, p)) && Local(s, p, PcOf(s, p)) && Punctual(s, step.p, PcOf(s, step.p));
    if p != step.p {
      OthersWait(s, step, t, p);
      if Inside(PcOf(s, p)) {
        AloneInside(s, p, step.p);
      }
    }
  }

  ghost predicate OnTime(ds: seq<Dispatch>) {
    forall k :: 0 <= k < |ds| ==> ds[k].record.deadline <= ds[k].at
  }

  lemma StepKeepsTimely(s: State, step: Step)
    requires Take(s, step).Some? && Sound(s) && Timely(s) && OnTime(s.dispatches) && Whole(step)
    ensures Timely(Take(s, step).value) && OnTime(Take(s, step).value.dispatches)
  {
    hide Take, Sound;
    var t := Take(s, step).value;
    if HasActor(step) {
      StepChanges(s, step);
      assert Punctual(s, step.p, PcOf(s, step.p));
      assert OnTime(t.dispatches);
      hide Changes, Punctual;
      forall p
        ensures Punctual(t, p, PcOf(t, p))
      {
        OneStaysPunctual(s, step, t, p);
      }
    } else {
      StepPasses(s, step);
      forall p
        ensures Punctual(t, p, PcOf(t, p))
      {
        assert Punctual(s, p, PcOf(s, p));
        assert forall q :: PcOf(t, q) == PcOf(s, q);
      }
    }
  }

  lemma {:induction false} RunsAreTimely(steps: seq<Step>)
    requires After(START, steps).Some? && forall k :: 0 <= k < |steps| ==> Whole(steps[k])
    ensures Timely(After(START, steps).value) && OnTime(After(START, steps).value.dispatches)
  {
    if steps != [] {
      hide Take, Sound, Timely, OnTime;
      var front, step := steps[..|steps| - 1], steps[|steps| - 1];
      RunsAreTimely(front);
      RunsAreSound(front);
      StepKeepsTimely(After(START, front).value, step);
    }
  }

  /** With whole polls and whole extensions no destroy is dispatched before the recorded deadline. */
  lemma NeverReleasedEarly(steps: seq<Step>, k: nat)
    requires After(START, steps).Some? && forall i :: 0 <= i < |steps| ==> Whole(steps[i])
    requires k < |After(START, steps).value.dispatches|
    ensures After(START, steps).value.dispatches[k].record.deadline <= After(START, steps).value.dispatches[k].at
  {
    hide Take;
    RunsAreTimely(steps);
  }

  // ----- Final states -----------------------------------------------------------------------------

  predicate Final(r: Option<SessionRecord>) {
    r.Some? && FinalStatus(r.value.status)
  }

  /** What a step puts on disk, if anything. */
  function Saves(s: State, step: Step): Option<SessionRecord> {
    if !HasActor(step) then None
    else
      match (step, PcOf(s, step.p))
      case (Begin(_, id, _), Loaded(ToStart(duration, read), _)) => Some(SessionRecord(id, Active, read, s.now + duration))
      case (Extend(_), Loaded(ToExtend(seconds), Some(r))) =>
        if s.generation != r.generation then Some(r.(status := StaleGeneration))
        else if r.deadline <= s.now then None else Some(r.(deadline := r.deadline + seconds))
      case (SaveExtension(_), Extended(r)) => Some(r)
      case (Cancel(_), Loaded(ToCancel, Some(r))) => Some(r.(status := CancelledByOperator))
      case (SaveLeaving(_), LeavingLoaded(r, closing)) => Some(r.(status := closing))
      case (JudgeExpiry(_, _), ExpiryLoaded(r)) =>
        Some(r.(status := if s.generation != r.generation then StaleGeneration else Executing))
      case (Finish(_, released, _), Destroying(r, _)) => Some(r.(status := if released then Released else RetainedAfterFailure))
      case (SaveRecovery(_), Recovering(r)) => Some(r.(status := RetainedAfterFailure))
      case _ => None
  }

  lemma SavesAreTheChanges(s: State, step: Step)
    requires Take(s, step).Some?
    ensures Take(s, step).value.record == if Saves(s, step).Some? then Saves(s, step) else s.record
  {
    hide Saves, OperatorStep, SupervisorStep, ExpiryStep;
    if OfOperator(step) {
      OperatorSaves(s, step);
    } else if OfSupervisor(step) {
      SupervisorSaves(s, step);
    } else if OfExpiry(step) {
      ExpirySaves(s, step);
    } else {
      OthersSaveNothing(s, step);
    }
  }

  lemma OthersSaveNothing(s: State, step: Step)
    requires Take(s, step).Some? && !OfOperator(step) && !OfSupervisor(step) && !OfExpiry(step)
    ensures Saves(s, step).None? && Take(s, step).value.record == s.record
  {
    hide OperatorStep, SupervisorStep, ExpiryStep;
  }

  lemma OperatorSaves(s: State, step: Step)
    requires OfOperator(step) && OperatorStep(s, step).Some?
    ensures OperatorStep(s, step).value.record == if Saves(s, step).Some? then Saves(s, step) else s.record
  {
  }

  lemma SupervisorSaves(s: State, step: Step)
    requires OfSupervisor(step) && SupervisorStep(s, step).Some?
    ensures SupervisorStep(s, step).value.record == if Saves(s, step).Some? then Saves(s, step) else s.record
  {
  }

  lemma ExpirySaves(s: State, step: Step)
    requires OfExpiry(step) && ExpiryStep(s, step).Some?
    ensures ExpiryStep(s, step).value.record == if Saves(s, step).Some? then Saves(s, step) else s.record
  {
  }

  /** The process still acts on a session that the disk no longer shows as it left it. */
  predicate Outdated(s: State, p: Proc) {
    var pc := PcOf(s, p);
    || (Copy(pc).Some? && !IsActive(s.record, Copy(pc).value.id))
    || ((pc.Committed? || pc.Destroying?) && s.record != Some(pc.copy.(status := Executing)))
  }

  /** Only a recovery can take the record away from a process under the lock. */
  lemma ChangeKeepsCurrent(s: State, step: Step, t: State, p: Proc)
    requires HasActor(step) && Changes(s, step, t) && Sound(s) && !Outdated(s, p) && !step.SaveRecovery?
    ensures !Outdated(t, p)
  {
    assert Local(s, step.p, PcOf(s, step.p)) && Local(s, p, PcOf(s, p));
    if p != step.p {
      OthersWait(s, step, t, p);
      if Inside(PcOf(s, p)) {
        AloneInside(s, p, step.p);
      }
    }
  }

  lemma StepKeepsCurrent(s: State, step: Step, p: Proc)
    requires Take(s, step).Some? && Sound(s) && !Outdated(s, p)
    ensures Outdated(Take(s, step).value, p) ==> step.SaveRecovery?
  {
    hide Take, Sound, Changes;
    if HasActor(step) {
      StepChanges(s, step);
      if !step.SaveRecovery? {
        ChangeKeepsCurrent(s, step, Take(s, step).value, p);
      }
    } else {
      StepPasses(s, step);
    }
  }

  /** The writer of a final record over which something else is saved. */
  lemma FinalWriter(s: State, step: Step)
    requires Sound(s) && Final(s.record) && Take(s, step).Some? && !step.Begin? && Saves(s, step).Some?
    ensures step.SaveRecovery? || Outdated(s, step.p)
  {
  }

  /** Whoever leaves a final state, other than by starting a session, recovers or has been overtaken. */
  lemma FinalIsLeftBy(s: State, step: Step)
    requires Sound(s) && Final(s.record) && Take(s, step).Some? && !step.Begin?
    requires Take(s, step).value.record != s.record
    ensures HasActor(step) && ((step.SaveRecovery? && PcOf(s, step.p).Recovering?) || Outdated(s, step.p))
    ensures MayOverwrite(s, step.p)
  {
    SavesAreTheChanges(s, step);
    hide Take;
    FinalWriter(s, step);
  }

  /** Where p stands, and with what, it can overwrite the final record on disk. */
  predicate MayOverwrite(s: State, p: Proc)
    requires s.record.Some?
  {
    var r := s.record.value;
    match PcOf(s, p)
    case Recovering(copy) => r != copy.(status := RetainedAfterFailure)
    case Loaded(ToCancel, Some(copy)) => r != copy.(status := CancelledByOperator)
    case Loaded(ToExtend(_), Some(copy)) =>
      if s.generation != copy.generation then r != copy.(status := StaleGeneration) else s.now < copy.deadline
    case Extended(_) => true
    case LeavingLoaded(copy, closing) => r != copy.(status := closing)
    case ExpiryLoaded(copy) => s.generation == copy.generation || r != copy.(status := StaleGeneration)
    case Destroying(_, _) => true
    case _ => false
  }

  /** The step with which such a process does it. */
  function Overwriting(s: State, p: Proc): Step
    requires s.record.Some?
  {
    match PcOf(s, p)
    case Recovering(_) => SaveRecovery(p)
    case Loaded(ToCancel, _) => Cancel(p)
    case Loaded(_, _) => Extend(p)
    case Extended(_) => SaveExtension(p)
    case LeavingLoaded(_, _) => SaveLeaving(p)
    case ExpiryLoaded(_) => JudgeExpiry(p, false)
    case Destroying(copy, _) => Finish(p, s.record.value != copy.(status := Released), false)
    case _ => Crash(p)
  }

  lemma OverwritingOverwrites(s: State, p: Proc)
    requires Sound(s) && Final(s.record) && MayOverwrite(s, p)
    ensures var step := Overwriting(s, p);
            && HasActor(step) && step.p == p && !step.Begin? && Take(s, step).Some? && Take(s, step).value.record != s.record
  {
    assert Local(s, p, PcOf(s, p));
    hide Sound, Local;
  }

  /** The process can take a step, other than the start of a session, that changes the record. */
  ghost predicate CanChange(s: State, p: Proc) {
    exists step :: HasActor(step) && step.p == p && !step.Begin? && Take(s, step).Some? && Take(s, step).value.record != s.record
  }

  /**
   Which process can leave a final state, other than by starting a session, is told from where
   it stands; and it is always one that recovers a failed expiry, or one whose copy the disk no
   longer matches.
   */
  lemma FinalIsLeftIff(s: State, p: Proc)
    requires Sound(s) && Final(s.record)
    ensures CanChange(s, p) <==> MayOverwrite(s, p)
    ensures MayOverwrite(s, p) ==> PcOf(s, p).Recovering? || Outdated(s, p)
  {
    hide Take, Sound, MayOverwrite, Overwriting, Outdated;
    if MayOverwrite(s, p) {
      OverwritingOverwrites(s, p);
      assert CanChange(s, p);
    }
    forall step | HasActor(step) && step.p == p && !step.Begin? && Take(s, step).Some? && Take(s, step).value.record != s.record
      ensures MayOverwrite(s, p) && (PcOf(s, p).Recovering? || Outdated(s, p))
    {
      FinalIsLeftBy(s, step);
    }
  }

  /** At step k a recovery overtook process p, and p has not caught up since. */
  ghost predicate OvertakenAt(steps: seq<Step>, p: Proc, k: nat) {
    && k < |steps| && steps[k].SaveRecovery?
    && (forall j :: 0 <= j <= |steps| ==> After(START, steps[..j]).Some?)
    && !Outdated(After(START, steps[..k]).value, p)
    && forall j :: k < j <= |steps| ==> Outdated(After(START, steps[..j]).value, p)
  }

  lemma {:induction false} PrefixesRun(steps: seq<Step>, j: nat)
    requires After(START, steps).Some? && j <= |steps|
    ensures After(START, steps[..j]).Some?
  {
    hide Take;
    if j == |steps| {
      assert steps[..j] == steps;
    } else {
      PrefixesRun(steps[..|steps| - 1], j);
      assert steps[..|steps| - 1][..j] == steps[..j];
    }
  }

  /** Whoever acts on an outdated copy was overtaken by the recovery of a failed expiry. */
  lemma {:induction false} OutdatedMeansOvertaken(steps: seq<Step>, p: Proc) returns (k: nat)
    requires After(START, steps).Some? && Outdated(After(START, steps).value, p)
    ensures OvertakenAt(steps, p, k)
  {
    hide Take, Sound, Outdated;
    assert steps != [] by {
      NobodyOutdated(p);
    }
    var n := |steps| - 1;
    var front := steps[..n];
    forall j | 0 <= j <= |steps|
      ensures After(START, steps[..j]).Some?
    {
      PrefixesRun(steps, j);
    }
    assert steps[..|steps|] == steps;
    if Outdated(After(START, front).value, p) {
      k := OutdatedMeansOvertaken(front, p);
      forall j | k < j <= |steps|
        ensures Outdated(After(START, steps[..j]).value, p)
      {
        assert j <= n ==> front[..j] == steps[..j];
      }
      assert front[..k] == steps[..k];
    } else {
      RunsAreSound(front);
      StepKeepsCurrent(After(START, front).value, steps[n], p);
      k := n;
    }
  }

  lemma NobodyOutdated(p: Proc)
    ensures !Outdated(START, p)
  {
  }

  lemma NotOvertaken(steps: seq<Step>, p: Proc)
    requires After(START, steps).Some? && forall k :: 0 <= k < |steps| ==> !steps[k].SaveRecovery?
    ensures !Outdated(After(START, steps).value, p)
  {
    hide Take, Outdated, After;
    if Outdated(After(START, steps).value, p) {
      var k := OutdatedMeansOvertaken(steps, p);
      assert false;
    }
  }

  /** As long as no recovery has saved, a final state is left only by starting a new session. */
  lemma FinalIsAbsorbingWithoutRecovery(steps: seq<Step>, step: Step)
    requires After(START, steps).Some? && Take(After(START, steps).value, step).Some?
    requires (forall k :: 0 <= k < |steps| ==> !steps[k].SaveRecovery?) && !step.SaveRecovery?
    requires Final(After(START, steps).value.record)
    ensures Take(After(START, steps).value, step).value.record == After(START, steps).value.record || step.Begin?
  {
    hide Take, Sound, Saves, Outdated;
    var s := After(START, steps).value;
    RunsAreSound(steps);
    if !step.Begin? && Take(s, step).value.record != s.record {
      FinalIsLeftBy(s, step);
      NotOvertaken(steps, step.p);
    }
  }

  // ----- Handlers ---------------------------------------------------------------------------------

  /**
   A handler about to save overwrites another session exactly when the record on disk bears
   another id; if that session was active, its supervisor finds at its next poll that it has
   been replaced, and stops watching the deadline.
   */
  lemma HandlerOverwrites(s: State, p: Proc)
    requires Sound(s) && PcOf(s, p).Recovering? && s.record.Some?
    ensures Take(s, SaveRecovery(p)).Some?
    ensures var t, id := Take(s, SaveRecovery(p)).value, s.record.value.id;
            && t.record.Some?
            && (t.record.value.id != id <==> PcOf(s, p).copy.id != id)
            && (PcOf(s, p).copy.id != id ==>
                  forall q :: PcOf(t, q) == Watching(id) ==> Take(t, Poll(q)) == Some(Goto(t, q, Waiting(id))))
  {
  }

  /** The record's session changes only by a start, a recovery, or a process that a recovery overtook. */
  lemma IdChanges(s: State, step: Step)
    requires Sound(s) && Take(s, step).Some? && s.record.Some?
    ensures var t := Take(s, step).value;
            t.record.Some? && (t.record.value.id != s.record.value.id ==>
              HasActor(step) && (step.Begin? || step.SaveRecovery? || Outdated(s, step.p)))
  {
    hide Take, Changes, Local;
    if HasActor(step) {
      SavesAreTheChanges(s, step);
      if Saves(s, step).Some? && !step.Begin? && !step.SaveRecovery? {
        WriterKeepsId(s, step);
      }
    } else {
      StepPasses(s, step);
    }
  }

  lemma WriterKeepsId(s: State, step: Step)
    requires Sound(s) && HasActor(step) && Saves(s, step).Some? && !step.Begin? && !step.SaveRecovery? && s.record.Some?
    ensures Outdated(s, step.p) || s.record.value.id == Saves(s, step).value.id
  {
  }

  predicate Shows(r: Option<SessionRecord>, id: SessionId) {
    r.Some? && r.value.id == id
  }

  /** At step k the record went over to another session, while the handler p held what it will save. */
  ghost predicate RacedAt(steps: seq<Step>, p: Proc, k: nat) {
    && k < |steps| && Runs(steps) && PcOf(StateAt(steps, k), p).Recovering? &&
    var before, copy := StateAt(steps, k), PcOf(StateAt(steps, k), p).copy;
    && Shows(before.record, copy.id) && !Shows(StateAt(steps, k + 1).record, copy.id)
    && HasActor(steps[k]) && (steps[k].Begin? || steps[k].SaveRecovery? || Outdated(before, steps[k].p))
    && forall j :: k <= j <= |steps| ==> PcOf(StateAt(steps, j), p) == Recovering(copy)
  }

  ghost predicate Runs(steps: seq<Step>) {
    forall j :: 0 <= j <= |steps| ==> After(START, steps[..j]).Some?
  }

  ghost function StateAt(steps: seq<Step>, j: nat): State
    requires Runs(steps) && j <= |steps|
  {
    After(START, steps[..j]).value
  }

  /** A handler that would overwrite another session has been raced by whatever put it there. */
  lemma {:induction false} OverwritingNeedsARace(steps: seq<Step>, p: Proc) returns (k: nat)
    requires After(START, steps).Some? && PcOf(After(START, steps).value, p).Recovering?
    requires !Shows(After(START, steps).value.record, PcOf(After(START, steps).value, p).copy.id)
    ensures RacedAt(steps, p, k)
  {
    hide Take, Sound, Outdated, Changes;
    var n := |steps| - 1;
    assert steps != [];
    var front := steps[..n];
    var f, s := After(START, front).value, After(START, steps).value;
    AllPrefixesRun(steps);
    AllPrefixesRun(front);
    assert steps[..|steps|] == steps;
    assert StateAt(steps, n) == f && StateAt(steps, n + 1) == s;
    RunsAreSound(front);
    HandlerHolds(f, steps[n], p);
    if Shows(f.record, PcOf(s, p).copy.id) {
      IdChanges(f, steps[n]);
      k := n;
    } else {
      k := OverwritingNeedsARace(front, p);
      RaceOutlasts(steps, p, k);
    }
  }

  lemma RaceOutlasts(steps: seq<Step>, p: Proc, k: nat)
    requires Runs(steps) && steps != [] && RacedAt(steps[..|steps| - 1], p, k)
    requires PcOf(StateAt(steps, |steps|), p) == PcOf(StateAt(steps, |steps| - 1), p)
    ensures RacedAt(steps, p, k)
  {
    hide After, Outdated;
    var front := steps[..|steps| - 1];
    assert forall j :: 0 <= j < |steps| ==> front[..j] == steps[..j];
    assert forall j :: 0 <= j < |steps| ==> StateAt(front, j) == StateAt(steps, j);
  }

  lemma AllPrefixesRun(steps: seq<Step>)
    requires After(START, steps).Some?
    ensures Runs(steps)
  {
    hide Take;
    forall j | 0 <= j <= |steps|
      ensures After(START, steps[..j]).Some?
    {
      PrefixesRun(steps, j);
    }
  }

  /** A handler that has read the record keeps what it read; one that has just read it is up to date. */
  lemma HandlerHolds(s: State, step: Step, p: Proc)
    requires Take(s, step).Some? && PcOf(Take(s, step).value, p).Recovering?
    ensures var t := Take(s, step).value;
            PcOf(s, p) == PcOf(t, p) || Shows(t.record, PcOf(t, p).copy.id)
  {
    hide Take;
    var t := Take(s, step).value;
    if HasActor(step) {
      StepChanges(s, step);
      if p != step.p {
        OthersWait(s, step, t, p);
      } else {
        RecoveringIsFresh(s, step);
      }
    } else {
      StepPasses(s, step);
    }
  }

  lemma RecoveringIsFresh(s: State, step: Step)
    requires HasActor(step) && Take(s, step).Some? && PcOf(Take(s, step).value, step.p).Recovering?
    ensures var t := Take(s, step).value; Shows(t.record, PcOf(t, step.p).copy.id)
  {
    if OfOperator(step) {
    } else if OfSupervisor(step) {
    } else if OfExpiry(step) {
    }
  }

  // ----- Runs to be aware of ----------------------------------------------------------------------

  ghost predicate Reached(steps: seq<Step>, s: State) {
    After(START, steps) == Some(s)
  }

  lemma Next(steps: seq<Step>, s: State, step: Step) returns (more: seq<Step>, t: State)
    requires Reached(steps, s) && Take(s, step).Some?
    ensures more == steps + [step] && t == Take(s, step).value && Reached(more, t)
  {
    more, t := steps + [step], Take(s, step).value;
    assert more[..|steps|] == steps;
  }

  /** A process takes the free lock, loads, and starts a session. */
  lemma Starts(before: seq<Step>, s: State, p: Proc, id: SessionId, duration: nat) returns (steps: seq<Step>, t: State)
    requires Reached(before, s) && s.lock.None? && PcOf(s, p) == Sleeping && id !in s.used
    requires s.record.Some? ==> s.record.value.status !in {Active, Executing}
    ensures Reached(steps, t) && t.record == Some(SessionRecord(id, Active, 0, s.now + duration)) && t.lock.None?
    ensures t.used == s.used + {id} && t.pcs == s.pcs[p := Watching(id)] && t.now == s.now
    ensures t.cancelled == s.cancelled && t.generation == s.generation && t.dispatches == s.dispatches
  {
    hide Reached;
    steps, t := Next(before, s, Enter(p, ToStart(duration, 0)));
    steps, t := Next(steps, t, Load(p, false));
    steps, t := Next(steps, t, Begin(p, id, false));
    assert t.pcs == s.pcs[p := Watching(id)];
  }

  /**
   Final states are not absorbing, and a handler can overwrite a newer session.  The deadline
   passes; the operator cancels before the supervisor has the lock; its handler loads the
   cancelled record, waits while another session starts, and saves what it has: the
   cancellation reads as a failure, the new session is gone from disk, and its supervisor
   stops watching, so that nothing will release the environment when it is due.
   */
  lemma HandlerOverwritesNewerSession() returns (steps: seq<Step>, s: State)
    ensures Reached(steps, s)
    ensures 7 in s.cancelled && s.record == Some(SessionRecord(7, RetainedAfterFailure, 0, 0))
    ensures 8 in s.used && 8 !in s.cancelled && PcOf(s, 3) == Waiting(8) && s.dispatches == []
  {
    assert Reached([], START);
    steps, s := Starts([], START, 1, 7, 0);
    steps, s := CancelledMeanwhile(steps, s);
    steps, s := Starts(steps, s, 3, 8, 60);
    steps, s := RecoverySaves(steps, s);
  }

  lemma RecoverySaves(before: seq<Step>, s: State) returns (steps: seq<Step>, t: State)
    requires Reached(before, s) && PcOf(s, 1) == Recovering(SessionRecord(7, CancelledByOperator, 0, 0)) && PcOf(s, 3) == Watching(8)
    ensures Reached(steps, t) && t.record == Some(SessionRecord(7, RetainedAfterFailure, 0, 0)) && PcOf(t, 3) == Waiting(8)
    ensures t.cancelled == s.cancelled && t.used == s.used && t.dispatches == s.dispatches
  {
    hide Reached;
    steps, t := Next(before, s, SaveRecovery(1));
    steps, t := Next(steps, t, Poll(3));
  }

  lemma CancelledMeanwhile(before: seq<Step>, s: State) returns (steps: seq<Step>, t: State)
    requires Reached(before, s) && s.record == Some(SessionRecord(7, Active, 0, 0)) && s.lock.None? && s.now == 0
    requires s.pcs == map[1 := Watching(7)] && s.used == {7} && s.dispatches == [] && s.cancelled == {}
    ensures Reached(steps, t) && t.record == Some(SessionRecord(7, CancelledByOperator, 0, 0)) && t.lock.None?
    ensures PcOf(t, 1) == Recovering(t.record.value) && PcOf(t, 3) == Sleeping && t.used == {7} && 7 in t.cancelled && 8 !in t.cancelled
    ensures t.dispatches == [] && t.now == 0
  {
    hide Reached;
    steps, t := Next(before, s, Poll(1));
    assert t.pcs == map[1 := Expiring(7)];
    steps, t := OperatorCancels(steps, t);
    steps, t := ExpiryFails(steps, t);
  }

  lemma OperatorCancels(before: seq<Step>, s: State) returns (steps: seq<Step>, t: State)
    requires Reached(before, s) && s.record.Some? && s.record.value.status == Active && s.lock.None? && PcOf(s, 2) == Sleeping
    ensures var r := s.record.value.(status := CancelledByOperator);
            Reached(steps, t) && t.pcs == s.pcs[2 := Ended] && t == s.(pcs := t.pcs, record := Some(r), cancelled := s.cancelled + {r.id})
  {
    hide Reached;
    steps, t := Next(before, s, Enter(2, ToCancel));
    steps, t := Next(steps, t, Load(2, true));
    steps, t := Next(steps, t, Cancel(2));
    assert t.pcs == s.pcs[2 := Ended];
  }

  lemma ExpiryFails(before: seq<Step>, s: State) returns (steps: seq<Step>, t: State)
    requires Reached(before, s) && s.record == Some(SessionRecord(7, CancelledByOperator, 0, 0)) && s.lock.None?
    requires PcOf(s, 1) == Expiring(7) && PcOf(s, 3) == Sleeping
    ensures Reached(steps, t) && t.pcs == s.pcs[1 := Recovering(s.record.value)] && t == s.(pcs := t.pcs)
  {
    hide Reached;
    steps, t := ExpiryRefused(before, s);
    steps, t := Next(steps, t, LoadRecovery(1));
    assert t.pcs == s.pcs[1 := Recovering(s.record.value)];
  }

  lemma ExpiryRefused(before: seq<Step>, s: State) returns (steps: seq<Step>, t: State)
    requires Reached(before, s) && PcOf(s, 1) == Expiring(7) && !IsActive(s.record, 7) && s.lock.None?
    ensures Reached(steps, t) && t.pcs == s.pcs[1 := Failed(7)] && t == s.(pcs := t.pcs)
  {
    hide Reached;
    steps, t := Next(before, s, Expire(1));
    steps, t := Next(steps, t, LoadExpiry(1));
    assert t.pcs == s.pcs[1 := Failed(7)];
  }

  /**
   A release that raises after it has been recorded is taken for a failed expiry: its own
   handler turns "released" into "retained-after-failure", over an environment that is gone.
   */
  lemma TornReleaseReadsAsRetained() returns (steps: seq<Step>, s: State)
    ensures Reached(steps, s) && |steps| >= 3 && steps[|steps| - 3] == Finish(1, true, true) && |s.dispatches| == 1
    ensures s.record == Some(SessionRecord(7, RetainedAfterFailure, 0, 0)) && PcOf(s, 1) == Ended
  {
    hide Reached;
    assert Reached([], START) by {
      StartIsReached();
    }
    steps, s := Starts([], START, 1, 7, 0);
    steps, s := Next(steps, s, Poll(1));
    steps, s := ExpiryGoesAhead(steps, s);
    steps, s := TornRelease(steps, s);
  }

  lemma StartIsReached()
    ensures Reached([], START)
  {
  }

  lemma TornRelease(before: seq<Step>, s: State) returns (steps: seq<Step>, t: State)
    requires Reached(before, s) && PcOf(s, 1).Destroying?
    ensures Reached(steps, t) && steps == before + [Finish(1, true, true), LoadRecovery(1), SaveRecovery(1)]
    ensures t.record == Some(PcOf(s, 1).copy.(status := RetainedAfterFailure)) && PcOf(t, 1) == Ended
    ensures t.dispatches == s.dispatches
  {
    hide Reached;
    steps, t := Next(before, s, Finish(1, true, true));
    steps, t := Next(steps, t, LoadRecovery(1));
    steps, t := Next(steps, t, SaveRecovery(1));
  }

  /**
   An extension that tests and saves in two steps breaks the deadline: the poll falls between
   them, and the expiry, which does not read the deadline again, destroys what was extended.
   */
  lemma SplitExtensionReleasesEarly() returns (steps: seq<Step>, s: State)
    ensures Reached(steps, s) && |s.dispatches| == 1
    ensures s.dispatches[0].record.deadline == 61 && s.dispatches[0].at == 1
  {
    assert Reached([], START);
    steps, s := Starts([], START, 1, 7, 1);
    steps, s := ExtendedMeanwhile(steps, s);
    steps, s := ExpiryGoesAhead(steps, s);
  }

  lemma ExpiryGoesAhead(before: seq<Step>, s: State) returns (steps: seq<Step>, t: State)
    requires Reached(before, s) && s.record.Some? && IsActive(s.record, 7) && s.record.value.generation == s.generation
    requires s.lock.None? && PcOf(s, 1) == Expiring(7)
    ensures Reached(steps, t) && t.dispatches == s.dispatches + [Dispatch(s.record.value, s.generation, s.now)]
    ensures PcOf(t, 1) == Destroying(s.record.value, s.generation)
  {
    hide Reached;
    steps, t := Next(before, s, Expire(1));
    steps, t := Next(steps, t, LoadExpiry(1));
    steps, t := LoadedGoesAhead(steps, t);
  }

  lemma LoadedGoesAhead(before: seq<Step>, s: State) returns (steps: seq<Step>, t: State)
    requires Reached(before, s) && PcOf(s, 1).ExpiryLoaded? && PcOf(s, 1).copy.generation == s.generation
    ensures Reached(steps, t) && t.dispatches == s.dispatches + [Dispatch(PcOf(s, 1).copy, s.generation, s.now)]
    ensures PcOf(t, 1) == Destroying(PcOf(s, 1).copy, s.generation)
  {
    hide Reached;
    steps, t := Next(before, s, JudgeExpiry(1, false));
    steps, t := Next(steps, t, DispatchDestroy(1));
  }

  lemma ExtensionTested(before: seq<Step>, s: State) returns (steps: seq<Step>, t: State)
    requires Reached(before, s) && s.record == Some(SessionRecord(7, Active, 0, 1)) && s.lock.None? && s.now == 0
    requires PcOf(s, 2) == Sleeping && s.generation == 0
    ensures Reached(steps, t) && t.pcs == s.pcs[2 := Extended(SessionRecord(7, Active, 0, 61))]
    ensures t == s.(pcs := t.pcs, lock := Some(2))
  {
    hide Reached;
    steps, t := Next(before, s, Enter(2, ToExtend(60)));
    steps, t := Next(steps, t, Load(2, true));
    steps, t := Next(steps, t, TestExtension(2));
    assert t.pcs == s.pcs[2 := Extended(SessionRecord(7, Active, 0, 61))];
  }

  lemma ExtendedMeanwhile(before: seq<Step>, s: State) returns (steps: seq<Step>, t: State)
    requires Reached(before, s) && s.record == Some(SessionRecord(7, Active, 0, 1)) && s.lock.None? && s.now == 0
    requires s.pcs == map[1 := Watching(7)] && s.dispatches == [] && s.generation == 0
    ensures Reached(steps, t) && t.record == Some(SessionRecord(7, Active, 0, 61)) && t.lock.None?
    ensures PcOf(t, 1) == Expiring(7) && t.now == 1 && t.dispatches == [] && t.generation == 0
  {
    hide Reached;
    steps, t := ExtensionTested(before, s);
    steps, t := Next(steps, t, Tick);
    steps, t := Next(steps, t, Poll(1));
    steps, t := Next(steps, t, SaveExtension(2));
  }
}
