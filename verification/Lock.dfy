/**
 `LifecycleLock`: a lock directory with an owner file, as interleaved steps of any number of
 processes.  One process stands for one use of the lock; processes may crash at any step.
 */
module Lock {
  import opened Ordering

  type Proc = nat
  type Host = nat

  /** Seconds after which a directory without an owner counts as abandoned. */
  const WINDOW := 30

  /** The directory; `temps` are owner files that are written but not yet renamed into place. */
  datatype Dir = Dir(owner: Option<Proc>, temps: set<Proc>, mtime: nat)

  datatype Phase =
    | Idle
    | Trying(left: nat)
    | Blocked(left: nat)
    | Made(since: nat)
    | Temped(since: nat)
    | Held
    | Releasing
    | Unlinked(since: nat)
    | Dead
    // `_clear_stale` when its reads and removals are steps of their own
    | Judging(left: nat, seen: Option<Proc>)
    | Clearing(left: nat)
    | Emptied(left: nat)

  datatype State = State(dir: Option<Dir>, now: nat, phases: map<Proc, Phase>)

  function PhaseOf(s: State, p: Proc): Phase {
    if p in s.phases then s.phases[p] else Idle
  }

  datatype Step =
    | Tick
    | Enter(p: Proc)
    | MakeDir(p: Proc)
    | ClearStale(p: Proc)
    | MakeTemp(p: Proc)
    | Publish(p: Proc, synced: bool)
    | Abort(p: Proc)
    | Check(p: Proc)
    | Unlink(p: Proc)
    | RemoveDir(p: Proc)
    | Crash(p: Proc)
    | ReadOwner(p: Proc)
    | Judge(p: Proc)
    | UnlinkStale(p: Proc)
    | RemoveStale(p: Proc)

  function Goto(s: State, p: Proc, ph: Phase): State {
    s.(phases := s.phases[p := ph])
  }

  function Put(s: State, dir: Option<Dir>, p: Proc, ph: Phase): State {
    s.(dir := dir, phases := s.phases[p := ph])
  }

  /** `rmdir`, which only removes an empty directory. */
  function Rmdir(dir: Option<Dir>): Option<Dir> {
    if dir.Some? && dir.value.owner.None? && dir.value.temps == {} then None else dir
  }

  /** `unlink(missing_ok=True)` of the owner file. */
  function UnlinkOwner(dir: Option<Dir>, now: nat): Option<Dir> {
    if dir.Some? && dir.value.owner.Some? then Some(dir.value.(owner := None, mtime := now)) else dir
  }

  /** The verdict of `_clear_stale` on a directory whose owner file reads as `seen`. */
  predicate Stale(home: Proc -> Host, s: State, p: Proc, seen: Option<Proc>) {
    match seen
    case None => s.dir.Some? && s.now - s.dir.value.mtime >= WINDOW
    case Some(o) => home(o) == home(p) && PhaseOf(s, o) == Dead
  }

  /** After a removal that worked the loop goes round, if it has an attempt left. */
  function Again(left: nat): Phase {
    if left > 1 then Trying(left - 1) else Idle
  }

  function Removed(s: State, p: Proc, left: nat, dir: Option<Dir>): State {
    Put(s, Rmdir(dir), p, if dir.Some? && Rmdir(dir).None? then Again(left) else Idle)
  }

  /** The state after a step, or None if the process is not at that step. */
  function Take(home: Proc -> Host, s: State, step: Step): Option<State> {
    match step
    case Tick => Some(s.(now := s.now + 1))
    case Enter(p) => if PhaseOf(s, p) == Idle then Some(Goto(s, p, Trying(2))) else None
    case MakeDir(p) =>
      (match PhaseOf(s, p)
       case Trying(left) =>
         if s.dir.None? then Some(Put(s, Some(Dir(None, {}, s.now)), p, Made(s.now)))
         else Some(Goto(s, p, Blocked(left)))
       case _ => None)
    case ClearStale(p) =>
      (match PhaseOf(s, p)
       case Blocked(left) =>
         if s.dir.Some? && Stale(home, s, p, s.dir.value.owner) then Some(Removed(s, p, left, UnlinkOwner(s.dir, s.now)))
         else Some(Goto(s, p, Idle))
       case _ => None)
    case MakeTemp(p) =>
      (match PhaseOf(s, p)
       case Made(_) =>
         var d := if s.dir.Some? then s.dir.value else Dir(None, {}, s.now);
         Some(Put(s, Some(d.(temps := d.temps + {p}, mtime := s.now)), p, Temped(s.now)))
       case _ => None)
    case Publish(p, synced) =>
      (match PhaseOf(s, p)
       case Temped(_) =>
         if s.dir.Some? && p in s.dir.value.temps then
           var d := s.dir.value.(owner := Some(p), temps := s.dir.value.temps - {p}, mtime := s.now);
           Some(Put(s, Some(d), p, if synced then Held else Idle))
         else Some(Goto(s, p, Unlinked(s.now)))
       case _ => None)
    case Abort(p) =>
      (match PhaseOf(s, p)
       case Made(since) => Some(Goto(s, p, Unlinked(since)))
       case Temped(_) =>
         var dir := if s.dir.Some? && p in s.dir.value.temps
                    then Some(s.dir.value.(temps := s.dir.value.temps - {p}, mtime := s.now)) else s.dir;
         Some(Put(s, dir, p, Unlinked(s.now)))
       case _ => None)
    case Check(p) =>
      if PhaseOf(s, p) == Held then
        Some(Goto(s, p, if s.dir.Some? && s.dir.value.owner == Some(p) then Releasing else Idle))
      else None
    case Unlink(p) =>
      if PhaseOf(s, p) == Releasing then Some(Put(s, UnlinkOwner(s.dir, s.now), p, Unlinked(s.now))) else None
    case RemoveDir(p) =>
      if PhaseOf(s, p).Unlinked? then Some(Put(s, Rmdir(s.dir), p, Idle)) else None
    case Crash(p) => Some(Goto(s, p, Dead))
    case ReadOwner(p) =>
      (match PhaseOf(s, p)
       case Blocked(left) => Some(Goto(s, p, Judging(left, if s.dir.Some? then s.dir.value.owner else None)))
       case _ => None)
    case Judge(p) =>
      (match PhaseOf(s, p)
       case Judging(left, seen) => Some(Goto(s, p, if Stale(home, s, p, seen) then Clearing(left) else Idle))
       case _ => None)
    case UnlinkStale(p) =>
      (match PhaseOf(s, p)
       case Clearing(left) => Some(Put(s, UnlinkOwner(s.dir, s.now), p, Emptied(left)))
       case _ => None)
    case RemoveStale(p) =>
      (match PhaseOf(s, p)
       case Emptied(left) => Some(Removed(s, p, left, s.dir))
       case _ => None)
  }

  /** `_clear_stale` happens in one step. */
  predicate Whole(step: Step) {
    !step.ReadOwner?
  }

  /** No live process stays 30 s between two of its own changes to the directory. */
  ghost predicate Brisk(s: State) {
    forall p :: PhaseOf(s, p).Made? || PhaseOf(s, p).Temped? || PhaseOf(s, p).Unlinked? ==> s.now < PhaseOf(s, p).since + WINDOW
  }

  // ----- Runs ---------------------------------------------------------------------------------

  const START := State(None, 0, map[])

  /** The state that a list of steps leads to, if every one of them could be taken. */
  function After(home: Proc -> Host, s: State, steps: seq<Step>): Option<State> {
    if steps == [] then Some(s)
    else
      var before := After(home, s, steps[..|steps| - 1]);
      if before.None? then None else Take(home, before.value, steps[|steps| - 1])
  }

  /** Every state on the way, the last one included, satisfied the timing assumption. */
  ghost predicate BriskRun(home: Proc -> Host, s: State, steps: seq<Step>) {
    forall k :: 0 <= k <= |steps| && After(home, s, steps[..k]).Some? ==> Brisk(After(home, s, steps[..k]).value)
  }

  predicate Holds(s: State, p: Proc) {
    PhaseOf(s, p) == Held || PhaseOf(s, p) == Releasing
  }

  // ----- The invariant --------------------------------------------------------------------------

  /** The process has made the directory and not yet given it up. */
  predicate Claims(ph: Phase) {
    ph.Made? || ph.Temped? || ph == Held || ph == Releasing || ph.Unlinked?
  }

  /** What the directory looks like while a process claims it. */
  predicate Fits(dir: Option<Dir>, p: Proc, ph: Phase) {
    dir.Some? && var d := dir.value;
    match ph
    case Made(since) => d.owner == None && d.temps == {} && d.mtime >= since
    case Temped(since) => d.owner == None && d.temps == {p} && d.mtime >= since
    case Held => d.owner == Some(p) && d.temps == {}
    case Releasing => d.owner == Some(p) && d.temps == {}
    case Unlinked(since) => d.owner == None && d.temps == {} && d.mtime >= since
    case _ => true
  }

  /** The clearing steps of a split `_clear_stale` are not in use. */
  predicate Unsplit(ph: Phase) {
    !ph.Judging? && !ph.Clearing? && !ph.Emptied?
  }

  ghost predicate Exclusive(s: State) {
    && (forall p :: Unsplit(PhaseOf(s, p)))
    && (forall p :: Claims(PhaseOf(s, p)) ==> Fits(s.dir, p, PhaseOf(s, p)))
    && (forall p, q :: Claims(PhaseOf(s, p)) && Claims(PhaseOf(s, q)) ==> p == q)
  }

  /** A directory that `_clear_stale` removes is claimed by no live process. */
  lemma StaleIsUnclaimed(home: Proc -> Host, s: State, p: Proc, q: Proc)
    requires Exclusive(s) && Brisk(s) && s.dir.Some? && Stale(home, s, p, s.dir.value.owner)
    ensures !Claims(PhaseOf(s, q))
  {
    assert Claims(PhaseOf(s, q)) ==> Fits(s.dir, q, PhaseOf(s, q));
  }

  /** Only the process that takes a step changes phase. */
  lemma OthersWait(home: Proc -> Host, s: State, step: Step, q: Proc)
    requires Take(home, s, step).Some? && (step.Tick? || step.p != q)
    ensures PhaseOf(Take(home, s, step).value, q) == PhaseOf(s, q)
  {
  }

  lemma StepKeepsExclusive(home: Proc -> Host, s: State, step: Step)
    requires Exclusive(s) && Brisk(s) && Whole(step) && Take(home, s, step).Some?
    ensures Exclusive(Take(home, s, step).value)
  {
    var t := Take(home, s, step).value;
    forall q
      ensures Unsplit(PhaseOf(t, q)) && (Claims(PhaseOf(t, q)) ==> Fits(t.dir, q, PhaseOf(t, q)))
    {
      StepKeepsFit(home, s, step, q);
    }
    forall p, q | Claims(PhaseOf(t, p)) && Claims(PhaseOf(t, q))
      ensures p == q
    {
      ClaimsAreOld(home, s, step, p);
      ClaimsAreOld(home, s, step, q);
    }
  }

  /** A process that claims the directory after a step claimed it before, or found none there. */
  lemma ClaimsAreOld(home: Proc -> Host, s: State, step: Step, p: Proc)
    requires Exclusive(s) && Take(home, s, step).Some? && Claims(PhaseOf(Take(home, s, step).value, p))
    ensures Claims(PhaseOf(s, p)) || (step == MakeDir(p) && forall q :: !Claims(PhaseOf(s, q)))
  {
    if step.Tick? || step.p != p {
      OthersWait(home, s, step, p);
    }
  }

  lemma StepKeepsFit(home: Proc -> Host, s: State, step: Step, q: Proc)
    requires Exclusive(s) && Brisk(s) && Whole(step) && Take(home, s, step).Some?
    ensures var t := Take(home, s, step).value;
            Unsplit(PhaseOf(t, q)) && (Claims(PhaseOf(t, q)) ==> Fits(t.dir, q, PhaseOf(t, q)))
  {
    var t := Take(home, s, step).value;
    assert Unsplit(PhaseOf(s, q)) && (Claims(PhaseOf(s, q)) ==> Fits(s.dir, q, PhaseOf(s, q)));
    if step.Tick? || step.p != q {
      OthersWait(home, s, step, q);
      if !step.Tick? && Claims(PhaseOf(s, q)) {
        assert !Claims(PhaseOf(s, step.p));
        if step.ClearStale? && s.dir.Some? && Stale(home, s, step.p, s.dir.value.owner) {
          StaleIsUnclaimed(home, s, step.p, q);
        }
      }
    } else {
      assert Unsplit(PhaseOf(s, step.p));
    }
  }

  lemma {:induction false} RunKeepsExclusive(home: Proc -> Host, steps: seq<Step>)
    requires After(home, START, steps).Some? && BriskRun(home, START, steps)
    requires forall k :: 0 <= k < |steps| ==> Whole(steps[k])
    ensures Exclusive(After(home, START, steps).value)
  {
    if steps != [] {
      var n := |steps| - 1;
      var front := steps[..n];
      forall k | 0 <= k <= n
        ensures front[..k] == steps[..k]
      {
      }
      RunKeepsExclusive(home, front);
      StepKeepsExclusive(home, After(home, START, front).value, steps[n]);
    }
  }

  /** At most one live process holds the lock, whatever the interleaving, crashes and exits. */
  lemma AtMostOneHolder(home: Proc -> Host, steps: seq<Step>, p: Proc, q: Proc)
    requires After(home, START, steps).Some? && BriskRun(home, START, steps)
    requires forall k :: 0 <= k < |steps| ==> Whole(steps[k])
    requires Holds(After(home, START, steps).value, p) && Holds(After(home, START, steps).value, q)
    ensures p == q && After(home, START, steps).value.dir.Some?
    ensures After(home, START, steps).value.dir.value.owner == Some(p)
  {
    RunKeepsExclusive(home, steps);
    var s := After(home, START, steps).value;
    assert Fits(s.dir, p, PhaseOf(s, p));
  }

  /**
   Release removes only its own token: an owner file goes away only by its own process, or when
   the process it names is dead.
   */
  lemma OwnerLeavesByItselfOrDead(home: Proc -> Host, s: State, step: Step, o: Proc)
    requires Exclusive(s) && Brisk(s) && Whole(step) && Take(home, s, step).Some?
    requires s.dir.Some? && s.dir.value.owner == Some(o)
    ensures var t := Take(home, s, step).value;
            (t.dir.Some? && t.dir.value.owner == Some(o))
            || step == Unlink(o)
            || (step.ClearStale? && PhaseOf(s, o) == Dead && home(o) == home(step.p))
  {
    if !step.Tick? {
      assert Unsplit(PhaseOf(s, step.p)) && (Claims(PhaseOf(s, step.p)) ==> Fits(s.dir, step.p, PhaseOf(s, step.p)));
    }
  }

  /** A lock left by a crashed process of the same host is taken over in four steps. */
  lemma CrashedOwnerIsReplaced(home: Proc -> Host, s: State, o: Proc, p: Proc)
    requires s.dir.Some? && s.dir.value.owner == Some(o) && s.dir.value.temps == {}
    requires PhaseOf(s, o) == Dead && home(o) == home(p) && PhaseOf(s, p) == Blocked(2)
    ensures var t := After(home, s, [ClearStale(p), MakeDir(p), MakeTemp(p), Publish(p, true)]);
            t.Some? && Holds(t.value, p) && t.value.dir.Some? && t.value.dir.value.owner == Some(p)
  {
    var s1 := Take(home, s, ClearStale(p)).value;
    assert s1.dir == None && PhaseOf(s1, p) == Trying(1);
    var s2 := Take(home, s1, MakeDir(p)).value;
    var s3 := Take(home, s2, MakeTemp(p)).value;
    assert s3.dir.value.temps == {p};
    Four(home, s, ClearStale(p), MakeDir(p), MakeTemp(p), Publish(p, true));
  }

  /** Runs are taken step by step from the front, too. */
  lemma {:induction false} AfterConcat(home: Proc -> Host, s: State, es: seq<Step>, fs: seq<Step>)
    ensures After(home, s, es + fs) ==
              if After(home, s, es).Some? then After(home, After(home, s, es).value, fs) else None
  {
    if fs == [] {
      assert es + fs == es;
    } else {
      var n := |fs| - 1;
      assert (es + fs)[..|es| + n] == es + fs[..n];
      AfterConcat(home, s, es, fs[..n]);
    }
  }

  lemma One(home: Proc -> Host, s: State, a: Step)
    ensures After(home, s, [a]) == Take(home, s, a)
  {
    assert [a][..0] == [];
  }

  lemma First(home: Proc -> Host, s: State, a: Step, rest: seq<Step>)
    ensures After(home, s, [a] + rest) == if Take(home, s, a).Some? then After(home, Take(home, s, a).value, rest) else None
  {
    AfterConcat(home, s, [a], rest);
    One(home, s, a);
  }

  lemma Four(home: Proc -> Host, s: State, a: Step, b: Step, c: Step, d: Step)
    requires Take(home, s, a).Some? && Take(home, Take(home, s, a).value, b).Some?
    requires Take(home, Take(home, Take(home, s, a).value, b).value, c).Some?
    ensures After(home, s, [a, b, c, d]) == Take(home, Take(home, Take(home, Take(home, s, a).value, b).value, c).value, d)
  {
    hide Take;
    assert [a, b, c, d] == [a] + ([b] + ([c] + [d]));
    First(home, s, a, [b] + ([c] + [d]));
    First(home, Take(home, s, a).value, b, [c] + [d]);
    First(home, Take(home, Take(home, s, a).value, b).value, c, [d]);
    One(home, Take(home, Take(home, Take(home, s, a).value, b).value, c).value, d);
  }

  // ----- Split clearing ---------------------------------------------------------------------------

  /** A run that has arrived at s without the clock moving, so that no process was ever slow. */
  ghost predicate Reached(home: Proc -> Host, steps: seq<Step>, s: State) {
    After(home, START, steps) == Some(s) && s.now == 0 && BriskRun(home, START, steps)
  }

  lemma NextIsBrisk(home: Proc -> Host, s: State, step: Step)
    requires s.now == 0 && !step.Tick? && Take(home, s, step).Some?
    ensures Take(home, s, step).value.now == 0 && Brisk(Take(home, s, step).value)
  {
  }

  lemma OneStep(home: Proc -> Host, steps: seq<Step>, s: State, step: Step)
    requires Reached(home, steps, s) && !step.Tick? && Take(home, s, step).Some?
    ensures Reached(home, steps + [step], Take(home, s, step).value)
  {
    hide Take, Brisk;
    var more := steps + [step];
    NextIsBrisk(home, s, step);
    assert more[..|steps|] == steps && more[..|more|] == more;
    forall k | 0 <= k <= |more| && After(home, START, more[..k]).Some?
      ensures Brisk(After(home, START, more[..k]).value)
    {
      if k < |more| {
        assert more[..k] == steps[..k];
      }
    }
  }

  function Owned(s: State, p: Proc): State {
    Put(s, Some(Dir(Some(p), {}, 0)), p, Held)
  }

  lemma Acquires(home: Proc -> Host, steps: seq<Step>, s: State, p: Proc) returns (after: seq<Step>)
    requires Reached(home, steps, s) && s.now == 0 && s.dir.None? && PhaseOf(s, p).Trying?
    ensures after == steps + [MakeDir(p)] + [MakeTemp(p)] + [Publish(p, true)] && Reached(home, after, Owned(s, p))
  {
    hide After, BriskRun, Reached;
    OneStep(home, steps, s, MakeDir(p));
    var s1 := Put(s, Some(Dir(None, {}, 0)), p, Made(0));
    OneStep(home, steps + [MakeDir(p)], s1, MakeTemp(p));
    var s2 := Put(s, Some(Dir(None, {p}, 0)), p, Temped(0));
    assert {} + {p} == {p};
    assert Take(home, s1, MakeTemp(p)).value == s2;
    OneStep(home, steps + [MakeDir(p)] + [MakeTemp(p)], s2, Publish(p, true));
    assert {p} - {p} == {};
    assert Take(home, s2, Publish(p, true)).value == Owned(s, p);
    after := steps + [MakeDir(p)] + [MakeTemp(p)] + [Publish(p, true)];
  }

  /** A holder releases the lock and its process ends. */
  lemma Leaves(home: Proc -> Host, steps: seq<Step>, s: State, p: Proc) returns (after: seq<Step>)
    requires Reached(home, steps, s) && s.now == 0 && s.dir == Some(Dir(Some(p), {}, 0)) && PhaseOf(s, p) == Held
    ensures after == steps + [Check(p)] + [Unlink(p)] + [RemoveDir(p)] + [Crash(p)] && Reached(home, after, Put(s, None, p, Dead))
  {
    hide After, BriskRun, Reached;
    OneStep(home, steps, s, Check(p));
    var s1 := Goto(s, p, Releasing);
    OneStep(home, steps + [Check(p)], s1, Unlink(p));
    var s2 := Put(s, Some(Dir(None, {}, 0)), p, Unlinked(0));
    assert Take(home, s1, Unlink(p)).value == s2;
    OneStep(home, steps + [Check(p)] + [Unlink(p)], s2, RemoveDir(p));
    var s3 := Put(s, None, p, Idle);
    assert Take(home, s2, RemoveDir(p)).value == s3;
    OneStep(home, steps + [Check(p)] + [Unlink(p)] + [RemoveDir(p)], s3, Crash(p));
    assert Take(home, s3, Crash(p)).value == Put(s, None, p, Dead);
    after := steps + [Check(p)] + [Unlink(p)] + [RemoveDir(p)] + [Crash(p)];
  }

  /** A process that finds the lock taken reads whose it is. */
  lemma Reads(home: Proc -> Host, steps: seq<Step>, s: State, p: Proc, o: Proc) returns (after: seq<Step>)
    requires Reached(home, steps, s) && s.dir.Some? && s.dir.value.owner == Some(o) && PhaseOf(s, p) == Idle
    ensures after == steps + [Enter(p)] + [MakeDir(p)] + [ReadOwner(p)] && Reached(home, after, Goto(s, p, Judging(2, Some(o))))
  {
    hide After, BriskRun, Reached;
    OneStep(home, steps, s, Enter(p));
    var s1 := Goto(s, p, Trying(2));
    OneStep(home, steps + [Enter(p)], s1, MakeDir(p));
    var s2 := Goto(s, p, Blocked(2));
    assert Take(home, s1, MakeDir(p)).value == s2;
    OneStep(home, steps + [Enter(p)] + [MakeDir(p)], s2, ReadOwner(p));
    assert Take(home, s2, ReadOwner(p)).value == Goto(s, p, Judging(2, Some(o)));
    after := steps + [Enter(p)] + [MakeDir(p)] + [ReadOwner(p)];
  }

  /** Having found the owner dead, a process removes the lock that is there now. */
  lemma Clears(home: Proc -> Host, steps: seq<Step>, s: State, p: Proc, o: Proc, now: Proc) returns (after: seq<Step>)
    requires Reached(home, steps, s) && s.now == 0 && s.dir == Some(Dir(Some(now), {}, 0))
    requires PhaseOf(s, p) == Judging(2, Some(o)) && PhaseOf(s, o) == Dead && home(o) == home(p)
    ensures after == steps + [Judge(p)] + [UnlinkStale(p)] + [RemoveStale(p)] && Reached(home, after, Put(s, None, p, Trying(1)))
  {
    hide After, BriskRun, Reached;
    OneStep(home, steps, s, Judge(p));
    var s1 := Goto(s, p, Clearing(2));
    OneStep(home, steps + [Judge(p)], s1, UnlinkStale(p));
    var s2 := Put(s, Some(Dir(None, {}, 0)), p, Emptied(2));
    assert Take(home, s1, UnlinkStale(p)).value == s2;
    OneStep(home, steps + [Judge(p)] + [UnlinkStale(p)], s2, RemoveStale(p));
    assert Take(home, s2, RemoveStale(p)).value == Put(s, None, p, Trying(1));
    after := steps + [Judge(p)] + [UnlinkStale(p)] + [RemoveStale(p)];
  }

  /**
   With `_clear_stale` in separate steps two live processes hold the lock.  Process 2 reads that
   1 owns it; 1 releases it and exits; 3 acquires it; 2 finds 1 gone, and removes what is now
   the lock of 3.
   */
  lemma SplitClearingBreaksExclusion(home: Proc -> Host) returns (steps: seq<Step>, s: State)
    requires home(1) == home(2)
    ensures After(home, START, steps) == Some(s) && BriskRun(home, START, steps)
    ensures Holds(s, 2) && Holds(s, 3)
  {
    assert Reached(home, [], START);
    var before, read := OneLeavesTwoMidway(home);
    steps, s := ThreeGetsIn(home, before, read);
  }

  lemma OneLeavesTwoMidway(home: Proc -> Host) returns (steps: seq<Step>, s: State)
    requires Reached(home, [], START)
    ensures Reached(home, steps, s) && s.now == 0
    ensures s.dir.None? && PhaseOf(s, 1) == Dead && PhaseOf(s, 2) == Judging(2, Some(1)) && PhaseOf(s, 3) == Idle
  {
    hide After, BriskRun, Reached;
    OneStep(home, [], START, Enter(1));
    s := Goto(START, 1, Trying(2));
    steps := Acquires(home, [] + [Enter(1)], s, 1);
    s := Owned(s, 1);
    steps := Reads(home, steps, s, 2, 1);
    s := Goto(s, 2, Judging(2, Some(1)));
    steps := Leaves(home, steps, s, 1);
    s := Put(s, None, 1, Dead);
  }

  lemma ThreeGetsIn(home: Proc -> Host, before: seq<Step>, s: State) returns (steps: seq<Step>, t: State)
    requires Reached(home, before, s) && s.now == 0 && home(1) == home(2)
    requires s.dir.None? && PhaseOf(s, 1) == Dead && PhaseOf(s, 2) == Judging(2, Some(1)) && PhaseOf(s, 3) == Idle
    ensures Reached(home, steps, t) && Holds(t, 2) && Holds(t, 3)
  {
    hide After, BriskRun, Reached;
    OneStep(home, before, s, Enter(3));
    var s1 := Goto(s, 3, Trying(2));
    steps := Acquires(home, before + [Enter(3)], s1, 3);
    var s2 := Owned(s1, 3);
    steps := Clears(home, steps, s2, 2, 1, 3);
    var s3 := Put(s2, None, 2, Trying(1));
    steps := Acquires(home, steps, s3, 2);
    t := Owned(s3, 2);
  }

  // ----- A slow maker ---------------------------------------------------------------------------

  ghost predicate Arrives(home: Proc -> Host, steps: seq<Step>, s: State) {
    After(home, START, steps) == Some(s) && forall k :: 0 <= k < |steps| ==> Whole(steps[k])
  }

  lemma OneMore(home: Proc -> Host, steps: seq<Step>, s: State, step: Step)
    requires Arrives(home, steps, s) && Whole(step) && Take(home, s, step).Some?
    ensures Arrives(home, steps + [step], Take(home, s, step).value)
  {
    assert (steps + [step])[..|steps|] == steps;
  }

  lemma {:induction false} Wait(home: Proc -> Host, before: seq<Step>, s: State, seconds: nat)
    returns (steps: seq<Step>)
    requires Arrives(home, before, s)
    ensures Arrives(home, steps, s.(now := s.now + seconds))
  {
    if seconds == 0 {
      return before;
    }
    steps := Wait(home, before, s, seconds - 1);
    OneMore(home, steps, s.(now := s.now + (seconds - 1)), Tick);
    steps := steps + [Tick];
  }

  /**
   The timing assumption is needed too: a process that stalls for the whole window between
   making the directory and writing its owner file shares the lock with the one that cleared it.
   */
  lemma SlowMakerBreaksExclusion(home: Proc -> Host) returns (steps: seq<Step>, s: State)
    ensures Arrives(home, steps, s) && Holds(s, 1) && Holds(s, 2)
  {
    assert Arrives(home, [], START);
    s := Goto(START, 1, Trying(2));
    OneMore(home, [], START, Enter(1));
    OneMore(home, [] + [Enter(1)], s, MakeDir(1));
    s := Put(s, Some(Dir(None, {}, 0)), 1, Made(0));
    steps := Wait(home, [] + [Enter(1)] + [MakeDir(1)], s, WINDOW);
    s := s.(now := WINDOW);
    steps, s := TwoClears(home, steps, s);
    steps, s := OneCatchesUp(home, steps, s);
  }

  lemma TwoClears(home: Proc -> Host, before: seq<Step>, s: State) returns (steps: seq<Step>, t: State)
    requires Arrives(home, before, s) && s.dir == Some(Dir(None, {}, 0)) && s.now == WINDOW
    requires PhaseOf(s, 1) == Made(0) && PhaseOf(s, 2) == Idle
    ensures Arrives(home, steps, t) && t.dir == Some(Dir(Some(2), {}, WINDOW)) && t.now == WINDOW
    ensures PhaseOf(t, 1) == Made(0) && PhaseOf(t, 2) == Held
  {
    hide Arrives;
    OneMore(home, before, s, Enter(2));
    t, steps := Goto(s, 2, Trying(2)), before + [Enter(2)];
    OneMore(home, steps, t, MakeDir(2));
    t, steps := Goto(t, 2, Blocked(2)), steps + [MakeDir(2)];
    OneMore(home, steps, t, ClearStale(2));
    t, steps := Take(home, t, ClearStale(2)).value, steps + [ClearStale(2)];
    assert t.dir.None? && PhaseOf(t, 2) == Trying(1);
    steps, t := TwoTakesOver(home, steps, t);
  }

  lemma TwoTakesOver(home: Proc -> Host, before: seq<Step>, s: State) returns (steps: seq<Step>, t: State)
    requires Arrives(home, before, s) && s.dir.None? && s.now == WINDOW
    requires PhaseOf(s, 1) == Made(0) && PhaseOf(s, 2) == Trying(1)
    ensures Arrives(home, steps, t) && t.dir == Some(Dir(Some(2), {}, WINDOW)) && t.now == WINDOW
    ensures PhaseOf(t, 1) == Made(0) && PhaseOf(t, 2) == Held
  {
    hide Arrives;
    steps, t := before, s;
    OneMore(home, steps, t, MakeDir(2));
    t, steps := Take(home, t, MakeDir(2)).value, steps + [MakeDir(2)];
    OneMore(home, steps, t, MakeTemp(2));
    t, steps := Take(home, t, MakeTemp(2)).value, steps + [MakeTemp(2)];
    assert t.dir.value.temps == {2};
    OneMore(home, steps, t, Publish(2, true));
    t, steps := Take(home, t, Publish(2, true)).value, steps + [Publish(2, true)];
  }

  lemma OneCatchesUp(home: Proc -> Host, before: seq<Step>, s: State) returns (steps: seq<Step>, t: State)
    requires Arrives(home, before, s) && s.dir.Some? && PhaseOf(s, 1) == Made(0) && PhaseOf(s, 2) == Held
    ensures Arrives(home, steps, t) && Holds(t, 1) && Holds(t, 2)
  {
    hide Arrives;
    OneMore(home, before, s, MakeTemp(1));
    t, steps := Take(home, s, MakeTemp(1)).value, before + [MakeTemp(1)];
    OneMore(home, steps, t, Publish(1, true));
    t, steps := Take(home, t, Publish(1, true)).value, steps + [Publish(1, true)];
  }

  // ----- A crash while the owner file is written ----------------------------------------------------

  /** The directory is unowned, unclaimed, and holds the unfinished owner file of a dead process. */
  ghost predicate Littered(s: State) {
    && s.dir.Some? && s.dir.value.owner.None?
    && (exists p :: p in s.dir.value.temps && PhaseOf(s, p) == Dead)
    && forall p :: Unsplit(PhaseOf(s, p)) && !Claims(PhaseOf(s, p))
  }

  lemma LitterStays(home: Proc -> Host, s: State, step: Step)
    requires Littered(s) && Whole(step) && Take(home, s, step).Some?
    ensures Littered(Take(home, s, step).value)
  {
    var t := Take(home, s, step).value;
    var p :| p in s.dir.value.temps && PhaseOf(s, p) == Dead;
    assert step.Tick? || (Unsplit(PhaseOf(s, step.p)) && !Claims(PhaseOf(s, step.p)));
    assert t.dir == s.dir;
    forall q
      ensures Unsplit(PhaseOf(t, q)) && !Claims(PhaseOf(t, q))
    {
      assert Unsplit(PhaseOf(s, q)) && !Claims(PhaseOf(s, q));
    }
    assert PhaseOf(t, p) == Dead;
  }

  /** No run from a littered directory ever lets a process hold the lock again. */
  lemma {:induction false} LitterBlocksForever(home: Proc -> Host, s: State, steps: seq<Step>)
    requires Littered(s) && After(home, s, steps).Some?
    requires forall k :: 0 <= k < |steps| ==> Whole(steps[k])
    ensures Littered(After(home, s, steps).value) && forall p :: !Holds(After(home, s, steps).value, p)
  {
    if steps != [] {
      var n := |steps| - 1;
      LitterBlocksForever(home, s, steps[..n]);
      LitterStays(home, After(home, s, steps[..n]).value, steps[n]);
    }
    forall p
      ensures !Holds(After(home, s, steps).value, p)
    {
      assert !Claims(PhaseOf(After(home, s, steps).value, p));
    }
  }

  /** A crash between writing and renaming the owner file blocks the lock for good. */
  lemma CrashWhileWritingLitters(home: Proc -> Host)
    ensures var s := After(home, START, [Enter(1), MakeDir(1), MakeTemp(1), Crash(1)]);
            s.Some? && Littered(s.value)
  {
    Four(home, START, Enter(1), MakeDir(1), MakeTemp(1), Crash(1));
    hide After;
    var s1 := Goto(START, 1, Trying(2));
    var s2 := Put(s1, Some(Dir(None, {}, 0)), 1, Made(0));
    assert Take(home, START, Enter(1)) == Some(s1) && Take(home, s1, MakeDir(1)) == Some(s2);
    MakerCrashes(home, s2);
  }

  lemma MakerCrashes(home: Proc -> Host, s: State)
    requires s.dir == Some(Dir(None, {}, 0)) && PhaseOf(s, 1) == Made(0)
    requires forall p :: p != 1 ==> PhaseOf(s, p) == Idle
    ensures var t := Take(home, s, MakeTemp(1)).value;
            Take(home, t, Crash(1)).Some? && Littered(Take(home, t, Crash(1)).value)
  {
    var t := Take(home, s, MakeTemp(1)).value;
    var u := Take(home, t, Crash(1)).value;
    assert 1 in u.dir.value.temps && PhaseOf(u, 1) == Dead;
    forall p | p != 1
      ensures PhaseOf(u, p) == Idle
    {
      assert PhaseOf(s, p) == Idle;
    }
  }

  // ----- Which crashes block the lock ------------------------------------------------------------

  /** A run of whole steps in which no live process is slow. */
  ghost predicate Leads(home: Proc -> Host, s: State, steps: seq<Step>, t: State) {
    && After(home, s, steps) == Some(t) && BriskRun(home, s, steps)
    && forall k :: 0 <= k < |steps| ==> Whole(steps[k])
  }

  lemma LeadsOn(home: Proc -> Host, s: State, steps: seq<Step>, t: State, step: Step)
    requires Leads(home, s, steps, t) && Whole(step) && Take(home, t, step).Some? && Brisk(Take(home, t, step).value)
    ensures Leads(home, s, steps + [step], Take(home, t, step).value)
  {
    hide Take, Brisk;
    var more := steps + [step];
    assert more[..|steps|] == steps && more[..|more|] == more;
    forall k | 0 <= k <= |more| && After(home, s, more[..k]).Some?
      ensures Brisk(After(home, s, more[..k]).value)
    {
      if k < |more| {
        assert more[..k] == steps[..k];
      }
    }
  }

  /** Nobody but q, and q no longer ago than now, is about to change the directory. */
  ghost predicate OnlyActor(s: State, q: Proc) {
    && (forall r :: r != q ==> !Claims(PhaseOf(s, r)))
    && var ph := PhaseOf(s, q);
       (ph.Made? || ph.Temped? || ph.Unlinked? ==> ph.since == s.now)
  }

  lemma OnlyActorIsBrisk(s: State, q: Proc)
    requires OnlyActor(s, q)
    ensures Brisk(s)
  {
  }

  function Ticks(n: nat): seq<Step> {
    seq(n, _ => Tick)
  }

  lemma {:induction false} TicksLead(home: Proc -> Host, s: State, q: Proc, n: nat)
    requires OnlyActor(s, q) && PhaseOf(s, q) == Idle
    ensures Leads(home, s, Ticks(n), s.(now := s.now + n))
  {
    hide Leads, Brisk;
    var t := s.(now := s.now + n);
    assert OnlyActor(t, q) by {
      assert forall r :: PhaseOf(t, r) == PhaseOf(s, r);
    }
    OnlyActorIsBrisk(t, q);
    if n == 0 {
      NoStepsLead(home, s);
      assert Ticks(0) == [];
    } else {
      TicksLead(home, s, q, n - 1);
      LeadsOn(home, s, Ticks(n - 1), s.(now := s.now + (n - 1)), Tick);
      assert Ticks(n) == Ticks(n - 1) + [Tick];
    }
  }

  lemma NoStepsLead(home: Proc -> Host, s: State)
    requires Brisk(s)
    ensures Leads(home, s, [], s)
  {
  }

  /** The steps of an acquisition that finds an abandoned lock and replaces it. */
  function TakeOver(q: Proc): seq<Step> {
    [Enter(q), MakeDir(q), ClearStale(q), MakeDir(q), MakeTemp(q), Publish(q, true)]
  }

  lemma TakeOverLeads(home: Proc -> Host, s: State, before: seq<Step>, v: State, q: Proc)
    requires Leads(home, s, before, v) && OnlyActor(v, q) && PhaseOf(v, q) == Idle
    requires v.dir.Some? && v.dir.value.temps == {} && Stale(home, v, q, v.dir.value.owner)
    ensures Leads(home, s, before + TakeOver(q), Put(v, Some(Dir(Some(q), {}, v.now)), q, Held))
  {
    hide Leads;
    var v3 := ClearingLeads(home, s, before, v, q);
    var front := before + [Enter(q)] + [MakeDir(q)] + [ClearStale(q)];
    assert before + TakeOver(q) == front + [MakeDir(q)] + [MakeTemp(q)] + [Publish(q, true)];
    MakingLeads(home, s, front, v3, v, q);
  }

  /** What q's own steps make of the state v, in which nobody else acts. */
  lemma OnlyQMoves(v: State, w: State, q: Proc)
    requires OnlyActor(v, q) && w.now == v.now && (forall r :: r != q ==> PhaseOf(w, r) == PhaseOf(v, r))
    requires var ph := PhaseOf(w, q); ph.Made? || ph.Temped? || ph.Unlinked? ==> ph.since == w.now
    ensures OnlyActor(w, q) && Brisk(w)
  {
    OnlyActorIsBrisk(w, q);
  }

  lemma ClearingLeads(home: Proc -> Host, s: State, before: seq<Step>, v: State, q: Proc) returns (w: State)
    requires Leads(home, s, before, v) && OnlyActor(v, q) && PhaseOf(v, q) == Idle
    requires v.dir.Some? && v.dir.value.temps == {} && Stale(home, v, q, v.dir.value.owner)
    ensures Leads(home, s, before + [Enter(q)] + [MakeDir(q)] + [ClearStale(q)], w) && w == Put(v, None, q, Trying(1))
  {
    hide Leads, Brisk, OnlyActor;
    var v1 := Goto(v, q, Trying(2));
    OnlyQMoves(v, v1, q);
    LeadsOn(home, s, before, v, Enter(q));
    var v2 := Goto(v1, q, Blocked(2));
    OnlyQMoves(v, v2, q);
    LeadsOn(home, s, before + [Enter(q)], v1, MakeDir(q));
    w := Put(v, None, q, Trying(1));
    OnlyQMoves(v, w, q);
    assert Stale(home, v2, q, v2.dir.value.owner);
    assert w.phases == Put(v2, None, q, Trying(1)).phases;
    LeadsOn(home, s, before + [Enter(q)] + [MakeDir(q)], v2, ClearStale(q));
  }

  lemma MakingLeads(home: Proc -> Host, s: State, before: seq<Step>, w: State, v: State, q: Proc)
    requires Leads(home, s, before, w) && OnlyActor(v, q) && w == Put(v, None, q, Trying(1))
    ensures Leads(home, s, before + [MakeDir(q)] + [MakeTemp(q)] + [Publish(q, true)],
                  Put(v, Some(Dir(Some(q), {}, v.now)), q, Held))
  {
    hide Leads, Brisk, OnlyActor;
    var w1 := Put(v, Some(Dir(None, {}, v.now)), q, Made(v.now));
    OnlyQMoves(v, w1, q);
    assert w1.phases == w.phases[q := Made(v.now)];
    LeadsOn(home, s, before, w, MakeDir(q));
    var w2 := Put(v, Some(Dir(None, {q}, v.now)), q, Temped(v.now));
    OnlyQMoves(v, w2, q);
    assert w2.phases == w1.phases[q := Temped(v.now)] && {} + {q} == {q};
    LeadsOn(home, s, before + [MakeDir(q)], w1, MakeTemp(q));
    var w3 := Put(v, Some(Dir(Some(q), {}, v.now)), q, Held);
    OnlyQMoves(v, w3, q);
    assert w3.phases == w2.phases[q := Held] && {q} - {q} == {};
    LeadsOn(home, s, before + [MakeDir(q)] + [MakeTemp(q)], w2, Publish(q, true));
  }

  /** The directory was not changed in the future. */
  ghost predicate Dated(s: State) {
    s.dir.Some? ==> s.dir.value.mtime <= s.now
  }

  lemma {:induction false} RunsAreDated(home: Proc -> Host, steps: seq<Step>)
    requires After(home, START, steps).Some?
    ensures Dated(After(home, START, steps).value)
  {
    if steps != [] {
      RunsAreDated(home, steps[..|steps| - 1]);
    }
  }

  ghost predicate Recoverable(home: Proc -> Host, s: State, q: Proc) {
    exists steps, t :: Leads(home, s, steps, t) && Holds(t, q)
  }

  /** The wait before a crashed claim can be cleared: none if the owner file names the dead process. */
  function Patience(ph: Phase): nat {
    if ph == Held || ph == Releasing then 0 else WINDOW
  }

  lemma CrashedClaimIsTakenOver(home: Proc -> Host, s: State, p: Proc, q: Proc)
    requires Exclusive(s) && Dated(s) && Claims(PhaseOf(s, p)) && !PhaseOf(s, p).Temped?
    requires q != p && PhaseOf(s, q) == Idle && home(p) == home(q)
    ensures var dead, n := Goto(s, p, Dead), Patience(PhaseOf(s, p));
            Leads(home, dead, Ticks(n) + TakeOver(q), Put(dead.(now := s.now + n), Some(Dir(Some(q), {}, s.now + n)), q, Held))
  {
    var dead, n := Goto(s, p, Dead), Patience(PhaseOf(s, p));
    assert Fits(s.dir, p, PhaseOf(s, p));
    assert OnlyActor(dead, q) by {
      forall r | r != q
        ensures !Claims(PhaseOf(dead, r))
      {
        assert r != p ==> PhaseOf(dead, r) == PhaseOf(s, r);
      }
    }
    var v := dead.(now := s.now + n);
    assert OnlyActor(v, q) by {
      assert forall r :: PhaseOf(v, r) == PhaseOf(dead, r);
    }
    assert Stale(home, v, q, v.dir.value.owner);
    hide Leads, Exclusive, OnlyActor;
    TicksLead(home, dead, q, n);
    TakeOverLeads(home, dead, Ticks(n), v, q);
  }

  lemma CrashWhileTempedLitters(s: State, p: Proc)
    requires Exclusive(s) && PhaseOf(s, p).Temped?
    ensures Littered(Goto(s, p, Dead))
  {
    var dead := Goto(s, p, Dead);
    assert Fits(s.dir, p, PhaseOf(s, p));
    assert p in dead.dir.value.temps && PhaseOf(dead, p) == Dead;
    forall r
      ensures Unsplit(PhaseOf(dead, r)) && !Claims(PhaseOf(dead, r))
    {
      assert r != p ==> PhaseOf(dead, r) == PhaseOf(s, r);
    }
  }

  /**
   A crash of the process that has claimed the directory blocks the lock exactly when it falls
   between the writing and the renaming of the owner file.  After any other crash the next process
   of the same host gets the lock: at once if the owner file was in place, else after the window.
   */
  lemma CrashBlocksIffTemped(home: Proc -> Host, steps: seq<Step>, p: Proc, q: Proc)
    requires After(home, START, steps).Some? && BriskRun(home, START, steps)
    requires forall k :: 0 <= k < |steps| ==> Whole(steps[k])
    requires Claims(PhaseOf(After(home, START, steps).value, p))
    requires q != p && PhaseOf(After(home, START, steps).value, q) == Idle && home(p) == home(q)
    ensures var s := After(home, START, steps).value;
            && Take(home, s, Crash(p)) == Some(Goto(s, p, Dead))
            && (Recoverable(home, Goto(s, p, Dead), q) <==> !PhaseOf(s, p).Temped?)
            && (!PhaseOf(s, p).Temped? ==>
                  exists t :: Leads(home, Goto(s, p, Dead), Ticks(Patience(PhaseOf(s, p))) + TakeOver(q), t) && Holds(t, q))
  {
    hide Exclusive, Leads, BriskRun;
    RunKeepsExclusive(home, steps);
    RunsAreDated(home, steps);
    var s := After(home, START, steps).value;
    var dead, n := Goto(s, p, Dead), Patience(PhaseOf(s, p));
    if PhaseOf(s, p).Temped? {
      CrashWhileTempedLitters(s, p);
      forall more, t | Leads(home, dead, more, t)
        ensures !Holds(t, q)
      {
        LitterIsNoWay(home, dead, more, t, q);
      }
    } else {
      CrashedClaimIsTakenOver(home, s, p, q);
      var t := Put(dead.(now := s.now + n), Some(Dir(Some(q), {}, s.now + n)), q, Held);
      assert Leads(home, dead, Ticks(n) + TakeOver(q), t) && Holds(t, q);
    }
  }

  lemma LitterIsNoWay(home: Proc -> Host, s: State, steps: seq<Step>, t: State, q: Proc)
    requires Littered(s) && Leads(home, s, steps, t)
    ensures !Holds(t, q)
  {
    LitterBlocksForever(home, s, steps);
  }
}
