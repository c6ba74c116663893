/** A recorded release: who can still turn it into a failure. */
module SessionReleases {
  import opened Ordering
  import opened Session
  import opened SessionTheorems

  // ----- The process behind a session ------------------------------------------------------------

  /** A handler of a failed expiry, before or after it has read the record. */
  predicate Handles(pc: Pc) {
    pc.Failed? || pc.Recovering?
  }

  /** The session that a process supervises, destroys for, or handles the failure of. */
  function Tied(pc: Pc): Option<SessionId> {
    match pc
    case Destroying(copy, _) => Some(copy.id)
    case Failed(id) => Some(id)
    case Recovering(copy) => Some(copy.id)
    case _ => Armed(pc)
  }

  predicate TieChange(s: State, step: Step, before: Pc, after: Pc) {
    && (Tied(after).Some? ==>
          Tied(after) == Tied(before) || (step.Begin? && step.id !in s.used && Tied(after) == Some(step.id)))
    && (Handles(before) && Tied(after).Some? ==> Handles(after))
  }

  lemma OperatorTies(s: State, step: Step)
    requires OfOperator(step) && OperatorStep(s, step).Some?
    ensures TieChange(s, step, PcOf(s, step.p), PcOf(OperatorStep(s, step).value, step.p))
  {
  }

  lemma SupervisorTies(s: State, step: Step)
    requires OfSupervisor(step) && SupervisorStep(s, step).Some?
    ensures TieChange(s, step, PcOf(s, step.p), PcOf(SupervisorStep(s, step).value, step.p))
  {
  }

  lemma ExpiryTies(s: State, step: Step)
    requires OfExpiry(step) && ExpiryStep(s, step).Some?
    ensures TieChange(s, step, PcOf(s, step.p), PcOf(ExpiryStep(s, step).value, step.p))
  {
  }

  lemma EntryTies(s: State, step: Step)
    requires (step.Enter? || step.Crash?) && Take(s, step).Some?
    ensures TieChange(s, step, PcOf(s, step.p), PcOf(Take(s, step).value, step.p))
  {
  }

  lemma StepTies(s: State, step: Step)
    requires HasActor(step) && Take(s, step).Some?
    ensures TieChange(s, step, PcOf(s, step.p), PcOf(Take(s, step).value, step.p))
  {
    hide TieChange, OperatorStep, SupervisorStep, ExpiryStep;
    if OfOperator(step) {
      OperatorTies(s, step);
    } else if OfSupervisor(step) {
      SupervisorTies(s, step);
    } else if OfExpiry(step) {
      ExpiryTies(s, step);
    } else {
      EntryTies(s, step);
    }
  }

  // ----- Who writes "released" -----------------------------------------------------------------------

  predicate SaysReleased(r: Option<SessionRecord>, id: SessionId) {
    r.Some? && r.value.id == id && r.value.status == Released
  }

  /** Only the last save of an expiry writes "released". */
  lemma OnlyFinishReleases(s: State, step: Step, id: SessionId)
    requires Sound(s) && HasActor(step) && Take(s, step).Some?
    requires SaysReleased(Take(s, step).value.record, id) && Take(s, step).value.record != s.record
    ensures step.Finish? && step.released && PcOf(s, step.p).Destroying? && PcOf(s, step.p).copy.id == id
    ensures PcOf(Take(s, step).value, step.p) == Raised(step.torn, id)
  {
    SavesAreTheChanges(s, step);
    SaverOfReleased(s, step);
  }

  lemma SaverOfReleased(s: State, step: Step)
    requires Sound(s) && HasActor(step) && Saves(s, step).Some? && Saves(s, step).value.status == Released
    ensures step.Finish? && step.released && PcOf(s, step.p).Destroying?
  {
    assert Local(s, step.p, PcOf(s, step.p));
  }

  /** One process for each session; once its release is recorded, at most a handler is left. */
  ghost predicate Owned(s: State) {
    && (forall p :: Tied(PcOf(s, p)).Some? ==> Tied(PcOf(s, p)).value in s.used)
    && (forall p, q :: Tied(PcOf(s, p)).Some? && Tied(PcOf(s, p)) == Tied(PcOf(s, q)) ==> p == q)
    && (forall p :: Tied(PcOf(s, p)).Some? && SaysReleased(s.record, Tied(PcOf(s, p)).value) ==> Handles(PcOf(s, p)))
  }

  /** A release that is recorded, or was already, leaves the tied process nothing but to handle it. */
  lemma ReleasedLeavesHandler(s: State, step: Step, t: State, p: Proc)
    requires Sound(s) && Owned(s) && HasActor(step) && Take(s, step) == Some(t)
    requires Changes(s, step, t) && TieChange(s, step, PcOf(s, step.p), PcOf(t, step.p))
    requires Tied(PcOf(t, p)).Some? && SaysReleased(t.record, Tied(PcOf(t, p)).value)
    ensures Handles(PcOf(t, p))
    ensures t.record != s.record ==> step == Finish(p, true, true) && PcOf(s, p).Destroying? && Tied(PcOf(s, p)) == Tied(PcOf(t, p))
    ensures t.record == s.record ==> Tied(PcOf(s, p)) == Tied(PcOf(t, p)) && Handles(PcOf(s, p))
  {
    hide Take, Sound, Changes, SaysReleased;
    var id := Tied(PcOf(t, p)).value;
    if p != step.p {
      OthersWait(s, step, t, p);
    }
    if t.record != s.record {
      OnlyFinishReleases(s, step, id);
    } else {
      ReleasedIsUsed(s, id);
    }
  }

  lemma ReleasedIsUsed(s: State, id: SessionId)
    requires Sound(s) && SaysReleased(s.record, id)
    ensures id in s.used
  {
  }

  lemma StepKeepsOwned(s: State, step: Step)
    requires Sound(s) && Owned(s) && Take(s, step).Some?
    ensures Owned(Take(s, step).value)
  {
    hide Take, Sound, Changes, TieChange, Tied, Handles, SaysReleased;
    var t := Take(s, step).value;
    if HasActor(step) {
      StepChanges(s, step);
      StepTies(s, step);
      forall p | Tied(PcOf(t, p)).Some?
        ensures Tied(PcOf(t, p)).value in t.used
        ensures SaysReleased(t.record, Tied(PcOf(t, p)).value) ==> Handles(PcOf(t, p))
      {
        TiedStaysUsed(s, step, t, p);
        if SaysReleased(t.record, Tied(PcOf(t, p)).value) {
          ReleasedLeavesHandler(s, step, t, p);
        }
      }
      forall p, q | Tied(PcOf(t, p)).Some? && Tied(PcOf(t, p)) == Tied(PcOf(t, q))
        ensures p == q
      {
        TiedStayApart(s, step, t, p, q);
      }
    } else {
      StepPasses(s, step);
      assert forall p :: PcOf(t, p) == PcOf(s, p);
    }
  }

  lemma TiedStaysUsed(s: State, step: Step, t: State, p: Proc)
    requires Owned(s) && HasActor(step) && Changes(s, step, t) && TieChange(s, step, PcOf(s, step.p), PcOf(t, step.p))
    ensures Tied(PcOf(t, p)).Some? ==> Tied(PcOf(t, p)).value in t.used
  {
    hide SaysReleased, Tied, Handles;
    if p != step.p {
      OthersWait(s, step, t, p);
    }
  }

  lemma TiedStayApart(s: State, step: Step, t: State, p: Proc, q: Proc)
    requires Owned(s) && HasActor(step) && Changes(s, step, t) && TieChange(s, step, PcOf(s, step.p), PcOf(t, step.p))
    requires Tied(PcOf(t, p)).Some? && Tied(PcOf(t, p)) == Tied(PcOf(t, q))
    ensures p == q
  {
    hide SaysReleased, Tied, Handles;
    if p != step.p {
      OthersWait(s, step, t, p);
    }
    if q != step.p {
      OthersWait(s, step, t, q);
    }
  }

  lemma {:induction false} RunsAreOwned(steps: seq<Step>)
    requires After(START, steps).Some?
    ensures Owned(After(START, steps).value)
  {
    hide Take, Sound, Owned;
    if steps == [] {
      StartIsOwned();
    } else {
      var front := steps[..|steps| - 1];
      RunsAreOwned(front);
      RunsAreSound(front);
      StepKeepsOwned(After(START, front).value, steps[|steps| - 1]);
    }
  }

  lemma StartIsOwned()
    ensures Owned(START)
  {
  }

  // ----- Whose release is undone ----------------------------------------------------------------------

  /** At step k the process recorded the release of the session, and only then something raised. */
  ghost predicate TornAt(steps: seq<Step>, p: Proc, id: SessionId, k: nat) {
    && k < |steps| && steps[k] == Finish(p, true, true) && After(START, steps[..k]).Some?
    && var pc := PcOf(After(START, steps[..k]).value, p); pc.Destroying? && pc.copy.id == id
  }

  /**
   A handler that stands before the recorded release of its own session, and would turn it into
   a failure, is there only because it recorded that release itself and something raised then.
   */
  lemma {:induction false} OnlyTornReleasesAreUndone(steps: seq<Step>, p: Proc, id: SessionId) returns (k: nat)
    requires After(START, steps).Some?
    requires Tied(PcOf(After(START, steps).value, p)) == Some(id) && SaysReleased(After(START, steps).value.record, id)
    ensures TornAt(steps, p, id, k)
  {
    hide Take, Sound, Changes, TieChange, Owned, SaysReleased, Handles;
    assert steps != [];
    var n := |steps| - 1;
    var front, step := steps[..n], steps[n];
    var s, t := After(START, front).value, After(START, steps).value;
    RunsAreSound(front);
    RunsAreOwned(front);
    if HasActor(step) {
      StepChanges(s, step);
      StepTies(s, step);
      ReleasedLeavesHandler(s, step, t, p);
      if t.record != s.record {
        return n;
      }
    } else {
      StepPasses(s, step);
    }
    k := OnlyTornReleasesAreUndone(front, p, id);
    assert front[..k] == steps[..k];
  }

  /** And whenever that happens, a handler that goes on at once turns the release into a failure. */
  lemma TornReleasesAreUndone(s: State, p: Proc)
    requires PcOf(s, p).Destroying?
    ensures var copy := PcOf(s, p).copy;
            var torn := Take(s, Finish(p, true, true));
            && torn.Some? && SaysReleased(torn.value.record, copy.id) && Tied(PcOf(torn.value, p)) == Some(copy.id)
            && var read := Take(torn.value, LoadRecovery(p));
               && read.Some? && Take(read.value, SaveRecovery(p)).Some?
               && Take(read.value, SaveRecovery(p)).value.record == Some(copy.(status := RetainedAfterFailure))
  {
    var copy := PcOf(s, p).copy;
    var torn := Take(s, Finish(p, true, true)).value;
    assert torn.record == Some(copy.(status := Released)) && PcOf(torn, p) == Failed(copy.id);
    var read := Take(torn, LoadRecovery(p)).value;
    assert PcOf(read, p) == Recovering(copy.(status := Released));
  }
}
