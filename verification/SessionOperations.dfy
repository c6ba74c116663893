/**
 What the operations on access sessions come to, from a free lock to its release, said in records,
 clocks and locks alone.  What may come in between is the matter of the other session modules.
 */
module SessionOperations {
  import opened Ordering
  import opened Session
  import opened SessionTheorems

  ghost predicate Leads(s: State, steps: seq<Step>, t: State) {
    After(s, steps) == Some(t)
  }

  lemma LeadsNowhere(s: State)
    ensures Leads(s, [], s)
  {
  }

  lemma LeadsOn(s: State, steps: seq<Step>, m: State, step: Step, t: State)
    requires Leads(s, steps, m) && Take(m, step) == Some(t)
    ensures Leads(s, steps + [step], t)
  {
    assert (steps + [step])[..|steps|] == steps;
  }

  lemma LeadsTwice(s: State, a: Step, m: State, b: Step, t: State)
    requires Take(s, a) == Some(m) && Take(m, b) == Some(t)
    ensures Leads(s, [a, b], t)
  {
    hide Take, Leads;
    LeadsNowhere(s);
    LeadsOn(s, [], s, a, m);
    assert [] + [a] == [a] && [a] + [b] == [a, b];
    LeadsOn(s, [a], m, b, t);
  }

  lemma LeadsThrice(s: State, a: Step, b: Step, m: State, c: Step, t: State)
    requires Leads(s, [a, b], m) && Take(m, c) == Some(t)
    ensures Leads(s, [a, b, c], t)
  {
    hide Take, Leads;
    LeadsOn(s, [a, b], m, c, t);
    assert [a, b] + [c] == [a, b, c];
  }

  /** The process has come to an end, and all else is as it was. */
  function Gone(s: State, p: Proc): State {
    s.(pcs := s.pcs[p := Ended])
  }

  /** The process is elsewhere, and all else is as it was. */
  function Moved(s: State, p: Proc, pc: Pc): State {
    s.(pcs := s.pcs[p := pc])
  }

  predicate Asleep(s: State, p: Proc) {
    p in s.pcs ==> s.pcs[p] == Sleeping
  }

  predicate Stands(s: State, p: Proc, pc: Pc) {
    p in s.pcs && s.pcs[p] == pc
  }

  // ----- Operators --------------------------------------------------------------------------------

  /** The session on record is under way, and its supervisor was answered as running. */
  predicate Supervised(r: Option<SessionRecord>, supervised: bool) {
    r.Some? && r.value.status in {Active, Executing} && supervised
  }

  predicate SaysActive(r: Option<SessionRecord>) {
    r.Some? && r.value.status == Active
  }

  /** What the operation needs to find on record. */
  predicate Suits(goal: Goal, r: Option<SessionRecord>, supervised: bool) {
    match goal
    case ToStart(_, _) => !Supervised(r, supervised)
    case ToExtend(_) => SaysActive(r) && supervised
    case ToCancel => SaysActive(r)
  }

  /** Whoever finds the lock held is refused and changes nothing. */
  lemma BusyIsRefused(s: State, p: Proc, goal: Goal)
    requires s.lock.Some?
    ensures Asleep(s, p) ==> Take(s, Enter(p, goal)) == Some(Gone(s, p))
    ensures forall id :: Stands(s, p, Expiring(id)) ==> Take(s, Expire(p)) == Some(Gone(s, p))
    ensures forall id, closing :: Stands(s, p, Leaving(id, closing)) ==> Take(s, Leave(p)) == Some(Gone(s, p))
  {
  }

  /**
   Under the lock the operation goes on exactly if the record suits it, with a copy of it: a start
   if no supervised session is under way, an extension of a supervised active one, and a
   cancellation of an active one.  Otherwise it gives the lock back and changes nothing.
   */
  lemma LoadGoesOnIff(s: State, p: Proc, goal: Goal, supervised: bool)
    requires Stands(s, p, Admitted(goal))
    ensures Take(s, Load(p, supervised)) == Some(
              if Suits(goal, s.record, supervised) then Moved(s, p, Loaded(goal, s.record)) else Gone(s, p).(lock := None))
  {
  }

  lemma Enters(s: State, p: Proc, goal: Goal, supervised: bool) returns (t: State)
    requires Asleep(s, p) && s.lock.None?
    ensures Leads(s, [Enter(p, goal), Load(p, supervised)], t)
    ensures t == if Suits(goal, s.record, supervised) then Moved(s, p, Loaded(goal, s.record)).(lock := Some(p)) else Gone(s, p)
  {
    hide Leads;
    var m := Moved(s, p, Admitted(goal)).(lock := Some(p));
    assert Take(s, Enter(p, goal)) == Some(m);
    LoadGoesOnIff(m, p, goal, supervised);
    t := Take(m, Load(p, supervised)).value;
    LeadsTwice(s, Enter(p, goal), m, Load(p, supervised), t);
    assert t.pcs == s.pcs[p := t.pcs[p]];
  }

  /** A start, undisturbed: refused over a supervised session, else a new active one of the given length. */
  lemma StartOutcome(s: State, p: Proc, duration: nat, read: Generation, supervised: bool, id: SessionId, torn: bool)
    returns (t: State)
    requires Asleep(s, p) && s.lock.None? && id !in s.used
    ensures if Supervised(s.record, supervised)
            then Leads(s, [Enter(p, ToStart(duration, read)), Load(p, supervised)], t) && t == Gone(s, p)
            else && Leads(s, [Enter(p, ToStart(duration, read)), Load(p, supervised), Begin(p, id, torn)], t)
                 && t == Moved(s, p, if torn then Ended else Watching(id)).(
                           record := Some(SessionRecord(id, Active, read, s.now + duration)), used := s.used + {id})
  {
    hide Leads;
    var goal := ToStart(duration, read);
    t := Enters(s, p, goal, supervised);
    if !Supervised(s.record, supervised) {
      var m := t;
      t := Take(m, Begin(p, id, torn)).value;
      LeadsThrice(s, Enter(p, goal), Load(p, supervised), m, Begin(p, id, torn), t);
      assert t.pcs == s.pcs[p := t.pcs[p]];
    }
  }

  /**
   An extension, undisturbed: refused unless a supervised session is active; a session of another
   generation is marked stale, one past its deadline is left to its expiry, and only one that is
   neither is given more time.
   */
  lemma ExtendOutcome(s: State, p: Proc, seconds: nat, supervised: bool) returns (t: State)
    requires Asleep(s, p) && s.lock.None?
    ensures if !(SaysActive(s.record) && supervised)
            then Leads(s, [Enter(p, ToExtend(seconds)), Load(p, supervised)], t) && t == Gone(s, p)
            else var r := s.record.value;
                 && Leads(s, [Enter(p, ToExtend(seconds)), Load(p, supervised), Extend(p)], t)
                 && t == Gone(s, p).(record := Some(
                           if r.generation != s.generation then SessionRecord(r.id, StaleGeneration, r.generation, r.deadline)
                           else if s.now >= r.deadline then r
                           else SessionRecord(r.id, Active, r.generation, r.deadline + seconds)))
  {
    hide Leads;
    var goal := ToExtend(seconds);
    t := Enters(s, p, goal, supervised);
    if SaysActive(s.record) && supervised {
      var m := t;
      t := Take(m, Extend(p)).value;
      LeadsThrice(s, Enter(p, goal), Load(p, supervised), m, Extend(p), t);
      assert t.pcs == s.pcs[p := t.pcs[p]];
    }
  }

  /** A cancellation, undisturbed: refused unless the session on record is active. */
  lemma CancelOutcome(s: State, p: Proc, supervised: bool) returns (t: State)
    requires Asleep(s, p) && s.lock.None?
    ensures if !SaysActive(s.record)
            then Leads(s, [Enter(p, ToCancel), Load(p, supervised)], t) && t == Gone(s, p)
            else var r := s.record.value;
                 && Leads(s, [Enter(p, ToCancel), Load(p, supervised), Cancel(p)], t)
                 && t == Gone(s, p).(record := Some(SessionRecord(r.id, CancelledByOperator, r.generation, r.deadline)),
                                     cancelled := s.cancelled + {r.id})
  {
    hide Leads;
    t := Enters(s, p, ToCancel, supervised);
    if SaysActive(s.record) {
      var m := t;
      t := Take(m, Cancel(p)).value;
      LeadsThrice(s, Enter(p, ToCancel), Load(p, supervised), m, Cancel(p), t);
      assert t.pcs == s.pcs[p := t.pcs[p]];
    }
  }

  /** Taken apart, an extension saves what it tested, whatever the record has become since. */
  lemma SplitExtendOutcome(s: State, p: Proc, seconds: nat, r: SessionRecord, later: State)
    requires Stands(s, p, Loaded(ToExtend(seconds), Some(r)))
    requires Stands(later, p, Extended(r.(deadline := r.deadline + seconds)))
    ensures Take(s, TestExtension(p)) == if r.generation == s.generation && s.now < r.deadline
                                         then Some(Moved(s, p, Extended(r.(deadline := r.deadline + seconds)))) else None
    ensures Take(later, SaveExtension(p)) == Some(Gone(later, p).(lock := None, record := Some(r.(deadline := r.deadline + seconds))))
  {
  }

  // ----- Supervisors ---------------------------------------------------------------------------------

  /** The record says that this very session is active. */
  predicate OwnActive(r: Option<SessionRecord>, id: SessionId) {
    SaysActive(r) && r.value.id == id
  }

  /** A supervisor goes on watching its own active session until the deadline, and expires it then. */
  lemma PollOutcome(s: State, p: Proc, id: SessionId)
    requires Stands(s, p, Watching(id))
    ensures Take(s, Poll(p)) == Some(
              if !OwnActive(s.record, id) then Moved(s, p, Waiting(id))
              else if s.now >= s.record.value.deadline then Moved(s, p, Expiring(id))
              else s)
  {
  }

  /** The copy that an expiry goes on with is of its own active session. */
  lemma ExpiryLoads(s: State, p: Proc, id: SessionId) returns (t: State)
    requires Stands(s, p, Expiring(id)) && s.lock.None?
    ensures Leads(s, [Expire(p), LoadExpiry(p)], t)
    ensures t == if OwnActive(s.record, id) then Moved(s, p, ExpiryLoaded(s.record.value)).(lock := Some(p))
                 else Moved(s, p, Failed(id))
  {
    hide Leads;
    var m := Take(s, Expire(p)).value;
    t := Take(m, LoadExpiry(p)).value;
    LeadsTwice(s, Expire(p), m, LoadExpiry(p), t);
    assert t.pcs == s.pcs[p := t.pcs[p]];
  }

  /**
   A judged expiry: a copy of another generation is marked stale and never destroyed for; the
   other is marked as executing, and the process goes on to the destroy unless the save raised.
   */
  lemma JudgeOutcome(s: State, p: Proc, r: SessionRecord, torn: bool)
    requires Stands(s, p, ExpiryLoaded(r))
    ensures Take(s, JudgeExpiry(p, torn)) == Some(
              if r.generation != s.generation then
                Moved(s, p, if torn then Failed(r.id) else Ended).(lock := None, record := Some(r.(status := StaleGeneration)))
              else if torn then
                Moved(s, p, Failed(r.id)).(lock := None, record := Some(r.(status := Executing)))
              else
                Moved(s, p, Committed(r, s.generation)).(record := Some(r.(status := Executing))))
  {
  }

  /** The destroy of a committed expiry: one dispatch, and a record of how it ended. */
  lemma DestroyOutcome(s: State, p: Proc, r: SessionRecord, read: Generation, released: bool, torn: bool) returns (t: State)
    requires Stands(s, p, Committed(r, read))
    ensures Leads(s, [DispatchDestroy(p), Finish(p, released, torn)], t)
    ensures t == Moved(s, p, if torn then Failed(r.id) else Ended).(
                   lock := None, dispatches := s.dispatches + [Dispatch(r, read, s.now)],
                   record := Some(r.(status := if released then Released else RetainedAfterFailure)))
  {
    hide Leads;
    var m := Take(s, DispatchDestroy(p)).value;
    t := Take(m, Finish(p, released, torn)).value;
    LeadsTwice(s, DispatchDestroy(p), m, Finish(p, released, torn), t);
    assert t.pcs == s.pcs[p := t.pcs[p]];
  }

  /**
   A session that is due, undisturbed: its environment is destroyed once, for the record that said
   "active", the lock is free again, and the record says how the destroy ended.
   */
  lemma DueSessionIsReleased(s: State, p: Proc, released: bool) returns (steps: seq<Step>, t: State)
    requires s.lock.None? && SaysActive(s.record) && s.record.value.deadline <= s.now && s.record.value.generation == s.generation
    requires Stands(s, p, Watching(s.record.value.id))
    ensures Leads(s, steps, t)
    ensures t == Gone(s, p).(dispatches := s.dispatches + [Dispatch(s.record.value, s.generation, s.now)],
                             record := Some(s.record.value.(status := if released then Released else RetainedAfterFailure)))
  {
    hide Leads, Take;
    var r := s.record.value;
    PollOutcome(s, p, r.id);
    var a := Take(s, Poll(p)).value;
    LeadsNowhere(s);
    LeadsOn(s, [], s, Poll(p), a);
    var b := ExpiryLoads(a, p, r.id);
    LeadsFurther(s, [] + [Poll(p)], a, [Expire(p), LoadExpiry(p)], b);
    JudgeOutcome(b, p, r, false);
    var c := Take(b, JudgeExpiry(p, false)).value;
    steps := [] + [Poll(p)] + [Expire(p), LoadExpiry(p)];
    LeadsOn(s, steps, b, JudgeExpiry(p, false), c);
    t := DestroyOutcome(c, p, r, s.generation, released, false);
    steps := steps + [JudgeExpiry(p, false)];
    LeadsFurther(s, steps, c, [DispatchDestroy(p), Finish(p, released, false)], t);
    steps := steps + [DispatchDestroy(p), Finish(p, released, false)];
    assert t.pcs == s.pcs[p := Ended];
  }

  lemma {:induction false} LeadsFurther(s: State, steps: seq<Step>, m: State, more: seq<Step>, t: State)
    requires Leads(s, steps, m) && Leads(m, more, t)
    ensures Leads(s, steps + more, t)
  {
    hide Take;
    if more == [] {
      assert steps + more == steps;
    } else {
      var n := |more| - 1;
      LeadsFurther(s, steps, m, more[..n], After(m, more[..n]).value);
      LeadsOn(s, steps + more[..n], After(m, more[..n]).value, more[n], t);
      assert steps + more == steps + more[..n] + [more[n]];
    }
  }

  /** Whatever raises in an expiry gives the lock back and leaves the record to the handler. */
  lemma RaiseOutcome(s: State, p: Proc, id: SessionId, r: SessionRecord, read: Generation)
    ensures Stands(s, p, ExpiryAdmitted(id)) ==> Take(s, Raise(p)) == Some(Moved(s, p, Failed(id)).(lock := None))
    ensures Stands(s, p, ExpiryLoaded(r)) || Stands(s, p, Committed(r, read)) || Stands(s, p, Destroying(r, read)) ==>
              Take(s, Raise(p)) == Some(Moved(s, p, Failed(r.id)).(lock := None))
  {
  }

  /** The handler of a failed expiry marks its own session as retained, and no other one. */
  lemma RecoveryOutcome(s: State, p: Proc, id: SessionId) returns (t: State)
    requires Stands(s, p, Failed(id))
    ensures if s.record.Some? && s.record.value.id == id
            then Leads(s, [LoadRecovery(p), SaveRecovery(p)], t) && t == Gone(s, p).(record := Some(s.record.value.(status := RetainedAfterFailure)))
            else Take(s, LoadRecovery(p)) == Some(t) && t == Gone(s, p)
  {
    hide Leads;
    t := Take(s, LoadRecovery(p)).value;
    if s.record.Some? && s.record.value.id == id {
      var m := t;
      t := Take(m, SaveRecovery(p)).value;
      LeadsTwice(s, LoadRecovery(p), m, SaveRecovery(p), t);
      assert t.pcs == s.pcs[p := Ended];
    }
  }

  /** An expiry that raises under the lock, undisturbed: its session is retained, and the lock is free. */
  lemma FailedExpiryOutcome(s: State, p: Proc, id: SessionId) returns (t: State)
    requires p in s.pcs && InExpiry(s.pcs[p]) && SessionOf(s.pcs[p]) == id
    ensures if s.record.Some? && s.record.value.id == id
            then && Leads(s, [Raise(p), LoadRecovery(p), SaveRecovery(p)], t)
                 && t == Gone(s, p).(lock := None, record := Some(s.record.value.(status := RetainedAfterFailure)))
            else Leads(s, [Raise(p), LoadRecovery(p)], t) && t == Gone(s, p).(lock := None)
  {
    hide Leads;
    var pc := s.pcs[p];
    RaiseOutcome(s, p, id, if pc.ExpiryAdmitted? then SessionRecord(id, Active, 0, 0) else pc.copy, if pc.Committed? || pc.Destroying? then pc.read else 0);
    var m := Moved(s, p, Failed(id)).(lock := None);
    t := RecoveryOutcome(m, p, id);
    assert t.pcs == s.pcs[p := Ended];
    if s.record.Some? && s.record.value.id == id {
      LeadsNowhere(s);
      LeadsOn(s, [], s, Raise(p), m);
      assert [] + [Raise(p)] == [Raise(p)] && [Raise(p)] + [LoadRecovery(p), SaveRecovery(p)] == [Raise(p), LoadRecovery(p), SaveRecovery(p)];
      LeadsFurther(s, [Raise(p)], m, [LoadRecovery(p), SaveRecovery(p)], t);
    } else {
      LeadsTwice(s, Raise(p), m, LoadRecovery(p), t);
    }
  }

  /** The session of an expiry under way. */
  function SessionOf(pc: Pc): SessionId
    requires InExpiry(pc)
  {
    if pc.ExpiryAdmitted? then pc.id else pc.copy.id
  }

  /** The operator's interrupt takes a supervisor away from wherever it stands, and frees its lock. */
  lemma InterruptOutcome(s: State, p: Proc, closing: Closing, id: SessionId, r: SessionRecord, read: Generation)
    ensures Stands(s, p, Watching(id)) || Stands(s, p, Waiting(id)) || Stands(s, p, Expiring(id)) ==>
              Take(s, Interrupt(p, closing)) == Some(Moved(s, p, Leaving(id, closing)))
    ensures Stands(s, p, ExpiryAdmitted(id)) ==>
              Take(s, Interrupt(p, closing)) == Some(Moved(s, p, Leaving(id, closing)).(lock := None))
    ensures Stands(s, p, ExpiryLoaded(r)) || Stands(s, p, Committed(r, read)) || Stands(s, p, Destroying(r, read)) ==>
              Take(s, Interrupt(p, closing)) == Some(Moved(s, p, Leaving(r.id, closing)).(lock := None))
  {
  }

  lemma LeaveLoads(s: State, p: Proc, id: SessionId, closing: Closing) returns (t: State)
    requires Stands(s, p, Leaving(id, closing)) && s.lock.None?
    ensures Leads(s, [Leave(p), LoadLeaving(p)], t)
    ensures t == if OwnActive(s.record, id) then Moved(s, p, LeavingLoaded(s.record.value, closing)).(lock := Some(p)) else Gone(s, p)
  {
    hide Leads;
    var m := Take(s, Leave(p)).value;
    t := Take(m, LoadLeaving(p)).value;
    LeadsTwice(s, Leave(p), m, LoadLeaving(p), t);
    assert t.pcs == s.pcs[p := t.pcs[p]];
  }

  /** A supervisor that leaves closes its own session if that is still active, and nothing else. */
  lemma LeaveOutcome(s: State, p: Proc, id: SessionId, closing: Closing) returns (t: State)
    requires Stands(s, p, Leaving(id, closing)) && s.lock.None?
    ensures if !OwnActive(s.record, id)
            then Leads(s, [Leave(p), LoadLeaving(p)], t) && t == Gone(s, p)
            else && Leads(s, [Leave(p), LoadLeaving(p), SaveLeaving(p)], t)
                 && t == Gone(s, p).(record := Some(s.record.value.(status := closing)),
                                     cancelled := if closing == CancelledByOperator then s.cancelled + {id} else s.cancelled)
  {
    hide Leads;
    t := LeaveLoads(s, p, id, closing);
    if OwnActive(s.record, id) {
      var m := t;
      t := Take(m, SaveLeaving(p)).value;
      LeadsThrice(s, Leave(p), LoadLeaving(p), m, SaveLeaving(p), t);
      assert t.pcs == s.pcs[p := Ended];
    }
  }

  /** The operator's interrupt of an expiry, undisturbed: the session is closed as asked for if it is still active. */
  lemma InterruptedExpiryOutcome(s: State, p: Proc, id: SessionId, closing: Closing) returns (steps: seq<Step>, t: State)
    requires p in s.pcs && InExpiry(s.pcs[p]) && SessionOf(s.pcs[p]) == id
    ensures Leads(s, steps, t)
    ensures t == if !OwnActive(s.record, id) then Gone(s, p).(lock := None)
                 else Gone(s, p).(lock := None, record := Some(s.record.value.(status := closing)),
                                  cancelled := if closing == CancelledByOperator then s.cancelled + {id} else s.cancelled)
  {
    hide Leads;
    var pc := s.pcs[p];
    InterruptOutcome(s, p, closing, id, if pc.ExpiryAdmitted? then SessionRecord(id, Active, 0, 0) else pc.copy,
                     if pc.Committed? || pc.Destroying? then pc.read else 0);
    var m := Moved(s, p, Leaving(id, closing)).(lock := None);
    LeadsNowhere(s);
    LeadsOn(s, [], s, Interrupt(p, closing), m);
    t := LeaveOutcome(m, p, id, closing);
    var more := if OwnActive(s.record, id) then [Leave(p), LoadLeaving(p), SaveLeaving(p)] else [Leave(p), LoadLeaving(p)];
    LeadsFurther(s, [] + [Interrupt(p, closing)], m, more, t);
    steps := [] + [Interrupt(p, closing)] + more;
    assert t.pcs == s.pcs[p := Ended];
  }

  // ----- Crashes ---------------------------------------------------------------------------------------

  /** A crash keeps the lock, and only a crashed owner's lock is broken. */
  lemma CrashOutcome(s: State, p: Proc)
    ensures Take(s, Crash(p)) == Some(Moved(s, p, Crashed))
    ensures Take(s, BreakLock).Some? <==> s.lock.Some? && Stands(s, s.lock.value, Crashed)
    ensures Take(s, BreakLock).Some? ==> Take(s, BreakLock) == Some(s.(lock := None))
  {
  }

  lemma GiveUpOutcome(s: State, p: Proc)
    ensures Take(s, GiveUp(p)).Some? <==> p in s.pcs && (s.pcs[p].Admitted? || s.pcs[p].Loaded? || s.pcs[p].Extended?)
    ensures Take(s, GiveUp(p)).Some? ==> Take(s, GiveUp(p)) == Some(Gone(s, p).(lock := None))
  {
  }

  /** An operation that raises once it has loaded, undisturbed, has changed nothing, and the lock is free. */
  lemma RaisingOperationOutcome(s: State, p: Proc, goal: Goal, supervised: bool) returns (t: State)
    requires Asleep(s, p) && s.lock.None? && Suits(goal, s.record, supervised)
    ensures Leads(s, [Enter(p, goal), Load(p, supervised), GiveUp(p)], t) && t == Gone(s, p)
  {
    hide Leads;
    var m := Enters(s, p, goal, supervised);
    GiveUpOutcome(m, p);
    t := Gone(m, p).(lock := None);
    LeadsThrice(s, Enter(p, goal), Load(p, supervised), m, GiveUp(p), t);
    assert t.pcs == s.pcs[p := Ended];
  }

  /** A process that crashes with the lock changes nothing else, and its lock can be broken from then on. */
  lemma CrashedHolderOutcome(s: State, p: Proc)
    requires s.lock == Some(p)
    ensures Leads(s, [Crash(p), BreakLock], Moved(s, p, Crashed).(lock := None))
  {
    hide Leads;
    CrashOutcome(s, p);
    var m := Moved(s, p, Crashed);
    CrashOutcome(m, p);
    LeadsTwice(s, Crash(p), m, BreakLock, m.(lock := None));
  }

  /** The clock goes on by itself, and the resources may change their generation at any time. */
  lemma WorldOutcome(s: State, g: Generation)
    ensures Take(s, Tick) == Some(s.(now := s.now + 1)) && Take(s, Regenerate(g)) == Some(s.(generation := g))
  {
  }

  // ----- Places ----------------------------------------------------------------------------------------

  /** Where a process must stand to take the step. */
  predicate HasItsPlace(s: State, step: Step)
    requires HasActor(step)
  {
    match step
    case Enter(p, _) => Asleep(s, p)
    case Crash(_) => true
    case Begin(p, id, _) => p in s.pcs && s.pcs[p].Loaded? && s.pcs[p].goal.ToStart? && id !in s.used
    case Extend(p) => p in s.pcs && s.pcs[p].Loaded? && s.pcs[p].goal.ToExtend? && s.pcs[p].found.Some?
    case TestExtension(p) =>
      && p in s.pcs && s.pcs[p].Loaded? && s.pcs[p].goal.ToExtend? && s.pcs[p].found.Some?
      && s.pcs[p].found.value.generation == s.generation && s.now < s.pcs[p].found.value.deadline
    case Cancel(p) => p in s.pcs && s.pcs[p].Loaded? && s.pcs[p].goal.ToCancel? && s.pcs[p].found.Some?
    case Interrupt(p, _) =>
      p in s.pcs && (s.pcs[p].Watching? || s.pcs[p].Waiting? || s.pcs[p].Expiring? || InExpiry(s.pcs[p]))
    case Raise(p) => p in s.pcs && InExpiry(s.pcs[p])
    case Load(p, _) => p in s.pcs && s.pcs[p].Admitted?
    case SaveExtension(p) => p in s.pcs && s.pcs[p].Extended?
    case GiveUp(p) => p in s.pcs && (s.pcs[p].Admitted? || s.pcs[p].Loaded? || s.pcs[p].Extended?)
    case Poll(p) => p in s.pcs && s.pcs[p].Watching?
    case Expire(p) => p in s.pcs && s.pcs[p].Expiring?
    case LoadExpiry(p) => p in s.pcs && s.pcs[p].ExpiryAdmitted?
    case JudgeExpiry(p, _) => p in s.pcs && s.pcs[p].ExpiryLoaded?
    case DispatchDestroy(p) => p in s.pcs && s.pcs[p].Committed?
    case Finish(p, _, _) => p in s.pcs && s.pcs[p].Destroying?
    case LoadRecovery(p) => p in s.pcs && s.pcs[p].Failed?
    case SaveRecovery(p) => p in s.pcs && s.pcs[p].Recovering?
    case Leave(p) => p in s.pcs && s.pcs[p].Leaving?
    case LoadLeaving(p) => p in s.pcs && s.pcs[p].LeavingAdmitted?
    case SaveLeaving(p) => p in s.pcs && s.pcs[p].LeavingLoaded?
  }

  /** An expiry that holds the lock. */
  predicate InExpiry(pc: Pc) {
    pc.ExpiryAdmitted? || pc.ExpiryLoaded? || pc.Committed? || pc.Destroying?
  }

  lemma OperatorPlaces(s: State, step: Step)
    requires OfOperator(step)
    ensures OperatorStep(s, step).Some? <==> HasItsPlace(s, step)
  {
  }

  lemma SupervisorPlaces(s: State, step: Step)
    requires OfSupervisor(step)
    ensures SupervisorStep(s, step).Some? <==> HasItsPlace(s, step)
  {
  }

  lemma ExpiryPlaces(s: State, step: Step)
    requires OfExpiry(step)
    ensures ExpiryStep(s, step).Some? <==> HasItsPlace(s, step)
  {
  }

  /** A step can be taken exactly from its place: no operation skips its check or its load. */
  lemma TakenFromItsPlace(s: State, step: Step)
    requires HasActor(step)
    ensures Take(s, step).Some? <==> HasItsPlace(s, step)
  {
    if OfOperator(step) {
      hide OperatorStep, HasItsPlace;
      OperatorPlaces(s, step);
    } else if OfSupervisor(step) {
      hide SupervisorStep, HasItsPlace;
      SupervisorPlaces(s, step);
    } else if OfExpiry(step) {
      hide ExpiryStep, HasItsPlace;
      ExpiryPlaces(s, step);
    }
  }
}
