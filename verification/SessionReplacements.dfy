/**
 Which session an operator may replace, extend or cancel, over every interleaving: the one that
 the operation loaded under its own hold of the lock, and what the load was told of it.
 */
module SessionReplacements {
  import opened Ordering
  import opened Session
  import opened SessionTheorems
  import opened SessionOperations

  /** At step j the process loaded this record for this goal, and it suited it. */
  ghost predicate LoadedAt(steps: seq<Step>, p: Proc, goal: Goal, found: Option<SessionRecord>, j: nat) {
    && j < |steps| && steps[j].Load? && steps[j].p == p && After(START, steps[..j]).Some?
    && var s := After(START, steps[..j]).value;
       Stands(s, p, Admitted(goal)) && s.record == found && Suits(goal, found, steps[j].supervised)
  }

  /** The record is what was found, or a handler of a failed expiry has written over it since. */
  predicate SinceFound(found: Option<SessionRecord>, now: Option<SessionRecord>) {
    now == found || (now.Some? && now.value.status == RetainedAfterFailure)
  }

  lemma OnlyLoadLoads(s: State, step: Step)
    requires HasActor(step) && Take(s, step).Some? && PcOf(Take(s, step).value, step.p).Loaded?
    ensures step.Load? && PcOf(s, step.p).Admitted?
    ensures var pc := PcOf(Take(s, step).value, step.p);
            pc.goal == PcOf(s, step.p).goal && pc.found == s.record && Suits(pc.goal, s.record, step.supervised)
  {
    if OfOperator(step) {
      if step.Load? {
        LoadGoesOnIff(s, step.p, PcOf(s, step.p).goal, step.supervised);
      }
    } else if OfSupervisor(step) {
    } else if OfExpiry(step) {
    }
  }

  /** While a process holds the lock, only a handler of a failed expiry changes the record. */
  lemma LockGuardsRecord(s: State, step: Step, p: Proc)
    requires Sound(s) && HasActor(step) && Take(s, step).Some? && Inside(PcOf(s, p)) && p != step.p
    ensures var t := Take(s, step).value;
            t.record == s.record || (step.SaveRecovery? && t.record.Some? && t.record.value.status == RetainedAfterFailure)
  {
    StepChanges(s, step);
    AloneInside(s, p, step.p);
    if step.SaveRecovery? {
      HandlerRetains(s, step);
    }
  }

  lemma HandlerRetains(s: State, step: Step)
    requires step.SaveRecovery? && Take(s, step).Some?
    ensures var t := Take(s, step).value; t.record.Some? && t.record.value.status == RetainedAfterFailure
  {
  }

  /** A process that acts for a goal has loaded, under its present hold of the lock, what it acts on. */
  lemma {:induction false} ActsOnWhatItLoaded(steps: seq<Step>, p: Proc, goal: Goal, found: Option<SessionRecord>) returns (j: nat)
    requires After(START, steps).Some? && PcOf(After(START, steps).value, p) == Loaded(goal, found)
    ensures LoadedAt(steps, p, goal, found, j) && SinceFound(found, After(START, steps).value.record)
  {
    hide Take, Sound, Changes, Suits;
    assert steps != [];
    var n := |steps| - 1;
    var front, step := steps[..n], steps[n];
    var s := After(START, front).value;
    RunsAreSound(front);
    if HasActor(step) && step.p == p {
      OnlyLoadLoads(s, step);
      StepChanges(s, step);
      LoadKeepsRecord(s, step);
      return n;
    }
    if HasActor(step) {
      StepChanges(s, step);
      OthersWait(s, step, Take(s, step).value, p);
      LockGuardsRecord(s, step, p);
    } else {
      StepPasses(s, step);
    }
    j := ActsOnWhatItLoaded(front, p, goal, found);
    assert front[..j] == steps[..j];
  }

  lemma LoadKeepsRecord(s: State, step: Step)
    requires step.Load? && Take(s, step).Some?
    ensures Take(s, step).value.record == s.record
  {
    LoadGoesOnIff(s, step.p, PcOf(s, step.p).goal, step.supervised);
  }

  /**
   Over every run a start replaces a session that is under way, active or executing, only if its
   own load found that very session and was told that no supervisor runs.
   */
  lemma OnlyUnsupervisedIsReplaced(steps: seq<Step>, p: Proc, id: SessionId, torn: bool) returns (j: nat)
    requires After(START, steps).Some? && Take(After(START, steps).value, Begin(p, id, torn)).Some?
    ensures j < |steps| && After(START, steps[..j]).Some?
    ensures var found, now := After(START, steps[..j]).value.record, After(START, steps).value.record;
            && (now.Some? && now.value.status in {Active, Executing} ==> steps[j] == Load(p, false) && now == found)
            && (found.Some? && found.value.status in {Active, Executing} ==> steps[j] == Load(p, false))
  {
    hide Take;
    var s := After(START, steps).value;
    TakenFromItsPlace(s, Begin(p, id, torn));
    j := ActsOnWhatItLoaded(steps, p, PcOf(s, p).goal, PcOf(s, p).found);
  }

  /** Over every run an extension adds time only to the active session that its load found supervised. */
  lemma OnlySupervisedIsExtended(steps: seq<Step>, p: Proc) returns (j: nat, seconds: nat)
    requires After(START, steps).Some? && Take(After(START, steps).value, Extend(p)).Some?
    ensures j < |steps| && steps[j] == Load(p, true) && After(START, steps[..j]).Some?
    ensures var s, found := After(START, steps).value, After(START, steps[..j]).value.record;
            && found.Some? && found.value.status == Active && SinceFound(found, s.record)
            && Stands(s, p, Loaded(ToExtend(seconds), found))
            && var r := found.value;
               Take(s, Extend(p)).value.record ==
                 if r.generation != s.generation then Some(SessionRecord(r.id, StaleGeneration, r.generation, r.deadline))
                 else if s.now >= r.deadline then s.record
                 else Some(SessionRecord(r.id, Active, r.generation, r.deadline + seconds))
  {
    var s := After(START, steps).value;
    hide After;
    TakenFromItsPlace(s, Extend(p));
    seconds := PcOf(s, p).goal.seconds;
    j := ActsOnWhatItLoaded(steps, p, PcOf(s, p).goal, PcOf(s, p).found);
  }

  /** Over every run a cancellation cancels exactly the active session that its load found. */
  lemma OnlyActiveIsCancelled(steps: seq<Step>, p: Proc) returns (j: nat)
    requires After(START, steps).Some? && Take(After(START, steps).value, Cancel(p)).Some?
    ensures j < |steps| && steps[j].Load? && steps[j].p == p && After(START, steps[..j]).Some?
    ensures var s, found := After(START, steps).value, After(START, steps[..j]).value.record;
            && found.Some? && found.value.status == Active && SinceFound(found, s.record)
            && var t := Take(s, Cancel(p)).value;
               && t.record == Some(found.value.(status := CancelledByOperator))
               && t.cancelled == s.cancelled + {found.value.id}
  {
    var s := After(START, steps).value;
    hide After;
    TakenFromItsPlace(s, Cancel(p));
    j := ActsOnWhatItLoaded(steps, p, PcOf(s, p).goal, PcOf(s, p).found);
  }
}
