/**
 What each operation on the lock does to the directory, whatever state it finds it in: the facts
 that the exclusion of module Lock rests on, said of the directory, the clock and the dead.
 */
module LockOperations {
  import opened Ordering
  import opened Lock

  predicate Stands(s: State, p: Proc, ph: Phase) {
    p in s.phases && s.phases[p] == ph
  }

  /** The process is elsewhere, and all else is as it was. */
  function Moved(s: State, p: Proc, ph: Phase): State {
    State(s.dir, s.now, s.phases[p := ph])
  }

  /** The process is elsewhere, and the directory is this. */
  function Left(s: State, dir: Option<Dir>, p: Proc, ph: Phase): State {
    State(dir, s.now, s.phases[p := ph])
  }

  predicate IsDead(s: State, p: Proc) {
    p in s.phases && s.phases[p] == Dead
  }

  /** Nobody can be at work behind the directory: its owner is dead, or it has had none for 30 s. */
  predicate Abandoned(home: Proc -> Host, s: State, p: Proc) {
    s.dir.Some? &&
    match s.dir.value.owner
    case Some(o) => home(o) == home(p) && IsDead(s, o)
    case None => s.now >= s.dir.value.mtime + 30
  }

  /** An empty directory is removed, and no other one. */
  function WithoutEmpty(dir: Option<Dir>): Option<Dir> {
    match dir
    case None => None
    case Some(d) => if d.owner == None && d.temps == {} then None else dir
  }

  lemma Three(home: Proc -> Host, s: State, a: Step, b: Step, c: Step)
    requires Take(home, s, a).Some? && Take(home, Take(home, s, a).value, b).Some?
    ensures After(home, s, [a, b, c]) == Take(home, Take(home, Take(home, s, a).value, b).value, c)
  {
    hide Take;
    assert [a, b, c] == [a] + ([b] + [c]);
    First(home, s, a, [b] + [c]);
    First(home, Take(home, s, a).value, b, [c]);
    One(home, Take(home, Take(home, s, a).value, b).value, c);
  }

  // ----- Acquiring ------------------------------------------------------------------------------------

  /** An acquisition starts with two attempts; an attempt makes the directory exactly if there is none. */
  lemma AttemptOutcome(home: Proc -> Host, s: State, p: Proc, left: nat)
    ensures p !in s.phases || Stands(s, p, Idle) ==> Take(home, s, Enter(p)) == Some(Moved(s, p, Trying(2)))
    ensures Stands(s, p, Trying(left)) ==>
              Take(home, s, MakeDir(p)) == Some(if s.dir.None? then Left(s, Some(Dir(None, {}, s.now)), p, Made(s.now))
                                                else Moved(s, p, Blocked(left)))
  {
  }

  /**
   A blocked process clears the directory exactly if it is abandoned.  What is cleared is the owner
   file; the directory itself goes if nothing else is in it, and only then is there a second
   attempt, once.  A directory that is not abandoned is left as it is.
   */
  lemma ClearOutcome(home: Proc -> Host, s: State, p: Proc, left: nat)
    requires Stands(s, p, Blocked(left))
    ensures Take(home, s, ClearStale(p)) == Some(
              if !Abandoned(home, s, p) then Moved(s, p, Idle)
              else
                var d := s.dir.value;
                if d.temps == {} then Left(s, None, p, if left >= 2 then Trying(left - 1) else Idle)
                else Left(s, Some(Dir(None, d.temps, if d.owner.Some? then s.now else d.mtime)), p, Idle))
  {
  }

  /** The owner file is written beside its place, in a directory that is made anew if it has gone. */
  lemma MakeTempOutcome(home: Proc -> Host, s: State, p: Proc, since: nat)
    requires Stands(s, p, Made(since))
    ensures var owner, temps := if s.dir.Some? then s.dir.value.owner else None, if s.dir.Some? then s.dir.value.temps else {};
            Take(home, s, MakeTemp(p)) == Some(Left(s, Some(Dir(owner, temps + {p}, s.now)), p, Temped(s.now)))
  {
  }

  /** It is moved into its place if it is still there; the lock is held once that is on disk for sure. */
  lemma PublishOutcome(home: Proc -> Host, s: State, p: Proc, since: nat, synced: bool)
    requires Stands(s, p, Temped(since))
    ensures Take(home, s, Publish(p, synced)) == Some(
              if s.dir.Some? && p in s.dir.value.temps
              then Left(s, Some(Dir(Some(p), s.dir.value.temps - {p}, s.now)), p, if synced then Held else Idle)
              else Moved(s, p, Unlinked(s.now)))
  {
  }

  /** An acquisition that fails takes its own unfinished owner file away, and nothing else. */
  lemma AbortOutcome(home: Proc -> Host, s: State, p: Proc, since: nat)
    ensures Stands(s, p, Made(since)) ==> Take(home, s, Abort(p)) == Some(Moved(s, p, Unlinked(since)))
    ensures Stands(s, p, Temped(since)) ==>
              Take(home, s, Abort(p)) == Some(
                if s.dir.Some? && p in s.dir.value.temps
                then Left(s, Some(Dir(s.dir.value.owner, s.dir.value.temps - {p}, s.now)), p, Unlinked(s.now))
                else Moved(s, p, Unlinked(s.now)))
  {
  }

  /** An acquisition of a free lock, undisturbed: the process holds it, and the owner file says so. */
  lemma AcquireOutcome(home: Proc -> Host, s: State, p: Proc)
    requires s.dir.None? && (p !in s.phases || Stands(s, p, Idle))
    ensures After(home, s, [Enter(p), MakeDir(p), MakeTemp(p), Publish(p, true)]) == Some(Left(s, Some(Dir(Some(p), {}, s.now)), p, Held))
  {
    AttemptOutcome(home, s, p, 2);
    var a := Moved(s, p, Trying(2));
    AttemptOutcome(home, a, p, 2);
    var b := Take(home, a, MakeDir(p)).value;
    MakeTempOutcome(home, b, p, s.now);
    var c := Take(home, b, MakeTemp(p)).value;
    PublishOutcome(home, c, p, s.now, true);
    Four(home, s, Enter(p), MakeDir(p), MakeTemp(p), Publish(p, true));
    var d := Take(home, c, Publish(p, true)).value;
    assert d.phases == s.phases[p := Held] && {} + {p} - {p} == {};
  }

  /** One that fails while it writes its owner file, undisturbed, leaves no directory behind. */
  lemma FailedAcquireOutcome(home: Proc -> Host, s: State, p: Proc)
    requires s.dir.None? && Stands(s, p, Trying(2))
    ensures After(home, s, [MakeDir(p), MakeTemp(p), Abort(p), RemoveDir(p)]) == Some(Left(s, None, p, Idle))
  {
    AttemptOutcome(home, s, p, 2);
    var a := Take(home, s, MakeDir(p)).value;
    MakeTempOutcome(home, a, p, s.now);
    var b := Take(home, a, MakeTemp(p)).value;
    AbortOutcome(home, b, p, s.now);
    var c := Take(home, b, Abort(p)).value;
    assert c.dir == Some(Dir(None, {}, s.now)) by {
      assert {} + {p} - {p} == {};
    }
    RemoveDirOutcome(home, c, p, s.now);
    Four(home, s, MakeDir(p), MakeTemp(p), Abort(p), RemoveDir(p));
    assert Take(home, c, RemoveDir(p)).value.phases == s.phases[p := Idle];
  }

  /** One that finds the lock of somebody who may be at work is refused and changes nothing. */
  lemma BusyOutcome(home: Proc -> Host, s: State, p: Proc)
    requires s.dir.Some? && !Abandoned(home, s, p) && (p !in s.phases || Stands(s, p, Idle))
    ensures After(home, s, [Enter(p), MakeDir(p), ClearStale(p)]) == Some(Moved(s, p, Idle))
  {
    AttemptOutcome(home, s, p, 2);
    var a := Moved(s, p, Trying(2));
    AttemptOutcome(home, a, p, 2);
    var b := Take(home, a, MakeDir(p)).value;
    ClearOutcome(home, b, p, 2);
    Three(home, s, Enter(p), MakeDir(p), ClearStale(p));
    assert Take(home, b, ClearStale(p)).value.phases == s.phases[p := Idle];
  }

  // ----- Releasing ------------------------------------------------------------------------------------

  /** A release goes on exactly if the owner file names the process that releases. */
  lemma CheckOutcome(home: Proc -> Host, s: State, p: Proc)
    requires Stands(s, p, Held)
    ensures Take(home, s, Check(p)) == Some(Moved(s, p, if s.dir.Some? && s.dir.value.owner == Some(p) then Releasing else Idle))
  {
  }

  lemma UnlinkOutcome(home: Proc -> Host, s: State, p: Proc)
    requires Stands(s, p, Releasing)
    ensures Take(home, s, Unlink(p)) == Some(
              if s.dir.Some? && s.dir.value.owner.Some?
              then Left(s, Some(Dir(None, s.dir.value.temps, s.now)), p, Unlinked(s.now))
              else Moved(s, p, Unlinked(s.now)))
  {
  }

  lemma RemoveDirOutcome(home: Proc -> Host, s: State, p: Proc, since: nat)
    requires Stands(s, p, Unlinked(since))
    ensures Take(home, s, RemoveDir(p)) == Some(Left(s, WithoutEmpty(s.dir), p, Idle))
  {
  }

  /** A release, undisturbed: the directory is gone and the process is idle. */
  lemma ReleaseOutcome(home: Proc -> Host, s: State, p: Proc)
    requires Stands(s, p, Held) && s.dir.Some? && s.dir.value.owner == Some(p) && s.dir.value.temps == {}
    ensures After(home, s, [Check(p), Unlink(p), RemoveDir(p)]) == Some(Left(s, None, p, Idle))
  {
    CheckOutcome(home, s, p);
    var a := Take(home, s, Check(p)).value;
    UnlinkOutcome(home, a, p);
    var b := Take(home, a, Unlink(p)).value;
    RemoveDirOutcome(home, b, p, s.now);
    Three(home, s, Check(p), Unlink(p), RemoveDir(p));
    assert Take(home, b, RemoveDir(p)).value.phases == s.phases[p := Idle];
  }

  // ----- Split clearing -------------------------------------------------------------------------------

  /** The steps of a split clearing judge what was read, and remove what is there. */
  lemma SplitClearingOutcome(home: Proc -> Host, s: State, p: Proc, left: nat, seen: Option<Proc>)
    ensures Stands(s, p, Blocked(left)) ==>
              Take(home, s, ReadOwner(p)) == Some(Moved(s, p, Judging(left, if s.dir.Some? then s.dir.value.owner else None)))
    ensures Stands(s, p, Judging(left, seen)) ==>
              Take(home, s, Judge(p)) == Some(Moved(s, p,
                if (match seen
                    case Some(o) => home(o) == home(p) && IsDead(s, o)
                    case None => s.dir.Some? && s.now >= s.dir.value.mtime + 30)
                then Clearing(left) else Idle))
    ensures Stands(s, p, Clearing(left)) ==>
              Take(home, s, UnlinkStale(p)) == Some(Left(s,
                if s.dir.Some? && s.dir.value.owner.Some? then Some(Dir(None, s.dir.value.temps, s.now)) else s.dir,
                p, Emptied(left)))
    ensures Stands(s, p, Emptied(left)) ==>
              Take(home, s, RemoveStale(p)) == Some(Left(s, WithoutEmpty(s.dir), p,
                if s.dir.Some? && WithoutEmpty(s.dir).None? && left >= 2 then Trying(left - 1) else Idle))
  {
  }

  /** Taken apart, the clearing removes whatever lock is there by then, of a live owner too. */
  lemma SplitClearingTakesAnyLock(home: Proc -> Host, s: State, p: Proc, dead: Proc, live: Proc, left: nat)
    requires Stands(s, p, Judging(left, Some(dead))) && home(dead) == home(p) && IsDead(s, dead)
    requires s.dir.Some? && s.dir.value.owner == Some(live) && s.dir.value.temps == {}
    ensures After(home, s, [Judge(p), UnlinkStale(p), RemoveStale(p)]) == Some(Left(s, None, p, if left >= 2 then Trying(left - 1) else Idle))
  {
    SplitClearingOutcome(home, s, p, left, Some(dead));
    var a := Take(home, s, Judge(p)).value;
    SplitClearingOutcome(home, a, p, left, Some(dead));
    var b := Take(home, a, UnlinkStale(p)).value;
    SplitClearingOutcome(home, b, p, left, Some(dead));
    Three(home, s, Judge(p), UnlinkStale(p), RemoveStale(p));
    assert Take(home, b, RemoveStale(p)).value.phases == s.phases[p := if left >= 2 then Trying(left - 1) else Idle];
  }

  // ----- Places ---------------------------------------------------------------------------------------

  /** Where a process must stand to take the step. */
  predicate HasItsPlace(s: State, step: Step) {
    match step
    case Tick => true
    case Enter(p) => p in s.phases ==> s.phases[p] == Idle
    case Crash(_) => true
    case MakeDir(p) => p in s.phases && s.phases[p].Trying?
    case ClearStale(p) => p in s.phases && s.phases[p].Blocked?
    case MakeTemp(p) => p in s.phases && s.phases[p].Made?
    case Publish(p, _) => p in s.phases && s.phases[p].Temped?
    case Abort(p) => p in s.phases && (s.phases[p].Made? || s.phases[p].Temped?)
    case Check(p) => p in s.phases && s.phases[p].Held?
    case Unlink(p) => p in s.phases && s.phases[p].Releasing?
    case RemoveDir(p) => p in s.phases && s.phases[p].Unlinked?
    case ReadOwner(p) => p in s.phases && s.phases[p].Blocked?
    case Judge(p) => p in s.phases && s.phases[p].Judging?
    case UnlinkStale(p) => p in s.phases && s.phases[p].Clearing?
    case RemoveStale(p) => p in s.phases && s.phases[p].Emptied?
  }

  /** A step can be taken exactly from its place; a crash stops a process wherever it is, and keeps the directory. */
  lemma TakenFromItsPlace(home: Proc -> Host, s: State, step: Step)
    ensures Take(home, s, step).Some? <==> HasItsPlace(s, step)
    ensures step.Crash? ==> Take(home, s, step) == Some(Moved(s, step.p, Dead))
    ensures step.Tick? ==> Take(home, s, step) == Some(State(s.dir, s.now + 1, s.phases))
  {
  }

  // ----- Attempts -------------------------------------------------------------------------------------

  /** The attempts that a process has left of the two that it entered with. */
  function AttemptsLeft(ph: Phase): nat {
    match ph
    case Trying(left) => left
    case Blocked(left) => Less(left)
    case Judging(left, _) => Less(left)
    case Clearing(left) => Less(left)
    case Emptied(left) => Less(left)
    case _ => 0
  }

  function Less(left: nat): nat {
    if left == 0 then 0 else left - 1
  }

  predicate HasAttempt(ph: Phase) {
    match ph
    case Trying(left) => left >= 1
    case Blocked(left) => left >= 1
    case Judging(left, _) => left >= 1
    case Clearing(left) => left >= 1
    case Emptied(left) => left >= 1
    case _ => true
  }

  function Times(steps: seq<Step>, step: Step): nat {
    multiset(steps)[step]
  }

  lemma OneMoreTime(steps: seq<Step>, last: Step, step: Step)
    ensures Times(steps + [last], step) == Times(steps, step) + if last == step then 1 else 0
  {
  }

  lemma StepCounts(home: Proc -> Host, s: State, step: Step, p: Proc)
    requires Take(home, s, step).Some? && HasAttempt(PhaseOf(s, p))
    ensures var after := PhaseOf(Take(home, s, step).value, p);
            && HasAttempt(after)
            && AttemptsLeft(after) + (if step == MakeDir(p) then 1 else 0) <= AttemptsLeft(PhaseOf(s, p)) + if step == Enter(p) then 2 else 0
  {
    if step.Tick? || step.p != p {
      OthersWait(home, s, step, p);
    }
  }

  /** Over every run a process tries to make the directory at most twice each time it enters. */
  lemma {:induction false} AtMostTwoAttempts(home: Proc -> Host, steps: seq<Step>, p: Proc)
    requires After(home, START, steps).Some?
    ensures HasAttempt(PhaseOf(After(home, START, steps).value, p))
    ensures Times(steps, MakeDir(p)) + AttemptsLeft(PhaseOf(After(home, START, steps).value, p)) <= 2 * Times(steps, Enter(p))
  {
    hide Take, HasAttempt, AttemptsLeft, Times;
    if steps == [] {
      NoAttemptYet(p);
    } else {
      var n := |steps| - 1;
      AtMostTwoAttempts(home, steps[..n], p);
      StepCounts(home, After(home, START, steps[..n]).value, steps[n], p);
      assert steps == steps[..n] + [steps[n]];
      OneMoreTime(steps[..n], steps[n], MakeDir(p));
      OneMoreTime(steps[..n], steps[n], Enter(p));
    }
  }

  lemma NoAttemptYet(p: Proc)
    ensures HasAttempt(PhaseOf(START, p)) && AttemptsLeft(PhaseOf(START, p)) == 0
    ensures Times([], MakeDir(p)) == Times([], Enter(p)) == 0
  {
  }
}
