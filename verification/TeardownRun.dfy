/** What every destroy run keeps, turn by turn, and what holds when it ends. */
module TeardownRun {
  import opened Ordering
  import opened Blueprint
  import opened ModuleState
  import opened SingleRun
  import opened Teardown

  // ----- The association list is a dictionary ---------------------------------------------

  ghost predicate DistinctParents(buckets: seq<Bucket>) {
    forall j, k :: 0 <= j < k < |buckets| ==> buckets[j].parent != buckets[k].parent
  }

  lemma {:induction false} ParkThenRead(buckets: seq<Bucket>, parent: Id, i: nat, q: Id)
    ensures Parked(Park(buckets, parent, i), q) == if q == parent then Parked(buckets, parent) + [i] else Parked(buckets, q)
  {
    if buckets != [] && buckets[0].parent != parent {
      ParkThenRead(buckets[1..], parent, i, q);
    }
  }

  lemma {:induction false} ParkKeepsDistinct(buckets: seq<Bucket>, parent: Id, i: nat)
    requires DistinctParents(buckets)
    ensures DistinctParents(Park(buckets, parent, i))
    ensures forall k :: 0 <= k < |Park(buckets, parent, i)| ==>
              Park(buckets, parent, i)[k].parent == parent || exists j :: 0 <= j < |buckets| && buckets[j].parent == Park(buckets, parent, i)[k].parent
  {
    if buckets != [] && buckets[0].parent != parent {
      ParkKeepsDistinct(buckets[1..], parent, i);
    }
  }

  lemma {:induction false} UnparkThenRead(buckets: seq<Bucket>, parent: Id, q: Id)
    requires DistinctParents(buckets)
    ensures Parked(Unparked(buckets, parent), q) == if q == parent then [] else Parked(buckets, q)
  {
    if buckets != [] {
      if buckets[0].parent == parent {
        AbsentReadsEmpty(buckets[1..], parent);
      } else {
        UnparkThenRead(buckets[1..], parent, q);
      }
    }
  }

  lemma {:induction false} AbsentReadsEmpty(buckets: seq<Bucket>, parent: Id)
    requires forall k :: 0 <= k < |buckets| ==> buckets[k].parent != parent
    ensures Parked(buckets, parent) == []
  {
    if buckets != [] {
      AbsentReadsEmpty(buckets[1..], parent);
    }
  }

  lemma {:induction false} UnparkKeepsDistinct(buckets: seq<Bucket>, parent: Id)
    requires DistinctParents(buckets)
    ensures DistinctParents(Unparked(buckets, parent))
    ensures forall k :: 0 <= k < |Unparked(buckets, parent)| ==>
              exists j :: 0 <= j < |buckets| && buckets[j] == Unparked(buckets, parent)[k]
  {
    if buckets != [] {
      if buckets[0].parent == parent {
        assert forall k :: 0 <= k < |buckets| - 1 ==> buckets[1..][k] == buckets[k + 1];
      } else {
        UnparkKeepsDistinct(buckets[1..], parent);
        forall k | 0 <= k < |Unparked(buckets, parent)|
          ensures exists j :: 0 <= j < |buckets| && buckets[j] == Unparked(buckets, parent)[k]
        {
          if k > 0 {
            var j :| 0 <= j < |buckets| - 1 && buckets[1..][j] == Unparked(buckets[1..], parent)[k - 1];
            assert buckets[j + 1] == Unparked(buckets, parent)[k];
          } else {
            assert buckets[0] == Unparked(buckets, parent)[0];
          }
        }
      }
    }
  }

  lemma {:induction false} BucketReads(buckets: seq<Bucket>, k: nat)
    requires DistinctParents(buckets) && k < |buckets|
    ensures Parked(buckets, buckets[k].parent) == buckets[k].members
  {
    if k > 0 {
      assert buckets[0].parent != buckets[k].parent;
      BucketReads(buckets[1..], k - 1);
    }
  }

  lemma {:induction false} ReadsFromBucket(buckets: seq<Bucket>, parent: Id)
    requires Parked(buckets, parent) != []
    ensures exists k :: 0 <= k < |buckets| && buckets[k].parent == parent && buckets[k].members == Parked(buckets, parent)
  {
    if buckets[0].parent != parent {
      ReadsFromBucket(buckets[1..], parent);
      var k :| 0 <= k < |buckets| - 1 && buckets[1..][k].parent == parent && buckets[1..][k].members == Parked(buckets[1..], parent);
      assert buckets[k + 1].parent == parent;
    } else {
      assert buckets[0].parent == parent;
    }
  }

  // ----- Finishing children ---------------------------------------------------------------

  /** The parent's resources are confirmed gone by this result. */
  predicate Confirmed(r: Result) {
    r.status == Succeeded || (r.status == Skipped && r.reason == StateGone)
  }

  ghost predicate Finished(r: Result, parent: Id, required: seq<Id>) {
    || (r.status == Subsumed && r.rc == 0 && r.reason == WithParent(parent))
    || (r.status == Failed && r.rc == 2 && r.reason in {ChildUnreadable, ChildUnwritable} && r.id in required)
  }

  /** Statuses only ever turn into "destroyed" during a teardown, and no record is lost. */
  ghost predicate Ebbs(before: Store, after: Store) {
    && before.Keys <= after.Keys
    && forall s :: StatusOf(after, s) == StatusOf(before, s) || StatusOf(after, s) == Destroyed
  }

  ghost predicate Keeps(before: seq<Id>, after: seq<Id>) {
    forall a :: a in before ==> a in after
  }

  /** The slots whose records cannot be read, replaced, or replaced for sure during a turn. */
  function Trouble(turn: Turn): set<Slot> {
    turn.unreadable + turn.unwritable + turn.torn
  }

  /** A record that can be read and replaced has been, even if something raised afterwards. */
  predicate WrittenOff(store: Store, slot: Slot, parent: Id, turn: Turn) {
    slot !in turn.unreadable + turn.unwritable ==>
      slot in store && store[slot] == StateRecord(Destroyed, map[], None, None, Some(parent))
  }

  lemma StaysWrittenOff(plan: Plan, p: Progress, parent: Id, i: nat, turn: Turn, slot: Slot)
    requires i < |p.results| && p.results[i].id in plan.steps && WrittenOff(p.store, slot, parent, turn)
    ensures WrittenOff(FinishOne(plan, p, parent, i, turn).store, slot, parent, turn)
  {
  }

  lemma OneIsWrittenOff(plan: Plan, p: Progress, parent: Id, i: nat, turn: Turn)
    requires i < |p.results| && p.results[i].id in plan.steps
    ensures WrittenOff(FinishOne(plan, p, parent, i, turn).store, plan.steps[p.results[i].id].slot, parent, turn)
  {
  }

  /**
   The result of a finished child, together with the stores before and after its parent's turn;
   only trouble with its record keeps it from being written off.
   */
  ghost predicate ChildDone(plan: Plan, before: Store, q: Progress, parent: Id, turn: Turn, k: nat)
    requires k < |q.results|
  {
    var r := q.results[k];
    && r.id in plan.steps && Finished(r, parent, q.required)
    && (r.status == Subsumed ==> StatusOf(q.store, plan.steps[r.id].slot) == Destroyed)
    && WrittenOff(q.store, plan.steps[r.id].slot, parent, turn)
    && (r.status == Failed && plan.steps[r.id].slot in before ==>
          (r.reason == ChildUnreadable <==> plan.steps[r.id].slot in turn.unreadable))
    && (plan.steps[r.id].slot !in Trouble(turn) ==> r.status == Subsumed)
    && (plan.steps[r.id].slot in Trouble(turn) && StatusOf(before, plan.steps[r.id].slot) != Blank ==> r.status == Failed)
  }

  lemma {:induction false} MembersAreFinished(plan: Plan, p: Progress, parent: Id, members: seq<nat>, turn: Turn)
    requires MembersOk(plan, p.results, members)
    ensures var q := FinishMembers(plan, p, parent, members, turn);
            && Keeps(p.required, q.required) && Ebbs(p.store, q.store)
            && (forall k :: 0 <= k < |p.results| && k !in members ==> q.results[k] == p.results[k])
            && (forall k :: 0 <= k < |p.results| && k in members ==> ChildDone(plan, p.store, q, parent, turn, k))
  {
    hide ChildDone, FinishOne, Ebbs, Keeps;
    EbbsRefl(p.store);
    KeepsRefl(p.required);
    if members != [] {
      var n := |members| - 1;
      var front := members[..n];
      MembersAreFinished(plan, p, parent, front, turn);
      var m := FinishMembers(plan, p, parent, front, turn);
      var q := FinishOne(plan, m, parent, members[n], turn);
      OneIsFinished(plan, m, parent, members[n], turn);
      SinceBefore(plan, p.store, m.store, q, parent, turn, members[n]);
      EbbsOn(p.store, m.store, q.store);
      KeepsOn(p.required, m.required, q.required);
      forall k | 0 <= k < |p.results| && k in members && k != members[n]
        ensures ChildDone(plan, p.store, q, parent, turn, k)
      {
        assert k in front;
        OthersStayDone(plan, m, parent, members[n], turn, k, p.store);
      }
      assert forall k :: k in front ==> k in members;
    }
  }

  lemma OneIsFinished(plan: Plan, p: Progress, parent: Id, i: nat, turn: Turn)
    requires i < |p.results| && p.results[i].id in plan.steps
    ensures var q := FinishOne(plan, p, parent, i, turn);
            && Keeps(p.required, q.required) && Ebbs(p.store, q.store)
            && |q.results| == |p.results| && ChildDone(plan, p.store, q, parent, turn, i)
            && forall k :: 0 <= k < |p.results| && k != i ==> q.results[k] == p.results[k]
  {
    hide WrittenOff, Ebbs;
    OneIsWrittenOff(plan, p, parent, i, turn);
    OneEbbs(plan, p, parent, i, turn);
  }

  lemma OneEbbs(plan: Plan, p: Progress, parent: Id, i: nat, turn: Turn)
    requires i < |p.results| && p.results[i].id in plan.steps
    ensures Ebbs(p.store, FinishOne(plan, p, parent, i, turn).store)
  {
  }

  /** A record that stood before still stands, so what is done since then is done since before. */
  lemma SinceBefore(plan: Plan, before: Store, store: Store, q: Progress, parent: Id, turn: Turn, k: nat)
    requires k < |q.results| && Ebbs(before, store)
    ensures ChildDone(plan, store, q, parent, turn, k) ==> ChildDone(plan, before, q, parent, turn, k)
  {
  }

  lemma KeepsRefl(ids: seq<Id>)
    ensures Keeps(ids, ids)
  {
  }

  lemma KeepsOn(a: seq<Id>, b: seq<Id>, c: seq<Id>)
    requires Keeps(a, b) && Keeps(b, c)
    ensures Keeps(a, c)
  {
  }

  lemma OthersStayDone(plan: Plan, p: Progress, parent: Id, i: nat, turn: Turn, k: nat, before: Store)
    requires i < |p.results| && p.results[i].id in plan.steps
    requires k < |p.results| && k != i && ChildDone(plan, before, p, parent, turn, k)
    ensures ChildDone(plan, before, FinishOne(plan, p, parent, i, turn), parent, turn, k)
  {
    hide WrittenOff;
    StaysWrittenOff(plan, p, parent, i, turn, plan.steps[p.results[k].id].slot);
  }

  // ----- The invariant on deferred results --------------------------------------------------

  ghost predicate ParkedChild(plan: Plan, results: seq<Result>, parent: Id, i: nat) {
    && i < |results| && results[i].status == Deferred
    && results[i].id in plan.steps && plan.steps[results[i].id].subsumedBy == Some(parent)
  }

  /** Exactly the deferred results wait in the dictionary, each under its own parent. */
  ghost predicate Booked(plan: Plan, p: Progress) {
    && DistinctParents(p.buckets)
    && (forall parent, i :: i in Parked(p.buckets, parent) ==> ParkedChild(plan, p.results, parent, i))
    && (forall i :: 0 <= i < |p.results| && p.results[i].status == Deferred ==>
          exists parent :: i in Parked(p.buckets, parent))
  }

  lemma OneBucketEach(plan: Plan, p: Progress, a: Id, b: Id, i: nat)
    requires Booked(plan, p) && i in Parked(p.buckets, a)
    ensures i in Parked(p.buckets, b) ==> a == b
  {
    assert ParkedChild(plan, p.results, a, i);
    if i in Parked(p.buckets, b) {
      assert ParkedChild(plan, p.results, b, i);
    }
  }

  lemma FinishKeepsBooked(plan: Plan, p: Progress, parent: Id, turn: Turn)
    requires Booked(plan, p)
    ensures MembersOk(plan, p.results, Parked(p.buckets, parent))
    ensures Booked(plan, Finish(plan, p, parent, turn))
    ensures var q := Finish(plan, p, parent, turn);
            && q.buckets == Unparked(p.buckets, parent)
            && q == FinishMembers(plan, p.(buckets := Unparked(p.buckets, parent)), parent, Parked(p.buckets, parent), turn)
  {
    hide FinishOne, Ebbs, Keeps;
    var members := Parked(p.buckets, parent);
    assert MembersOk(plan, p.results, members) by {
      forall k | 0 <= k < |members|
        ensures members[k] < |p.results| && p.results[members[k]].id in plan.steps
      {
        assert members[k] in members;
        assert ParkedChild(plan, p.results, parent, members[k]);
      }
    }
    var p' := p.(buckets := Unparked(p.buckets, parent));
    MembersAreFinished(plan, p', parent, members, turn);
    MembersKeepFlags(plan, p', parent, members, turn);
    UnparkKeepsDistinct(p.buckets, parent);
    var q := Finish(plan, p, parent, turn);
    forall a, i | i in Parked(q.buckets, a)
      ensures ParkedChild(plan, q.results, a, i)
    {
      UnparkThenRead(p.buckets, parent, a);
      assert ParkedChild(plan, p.results, a, i);
      OneBucketEach(plan, p, a, parent, i);
    }
    forall i | 0 <= i < |q.results| && q.results[i].status == Deferred
      ensures exists a :: i in Parked(q.buckets, a)
    {
      assert i !in members;
      var a :| i in Parked(p.buckets, a);
      UnparkThenRead(p.buckets, parent, a);
    }
  }

  lemma AddKeepsBooked(plan: Plan, p: Progress, r: Result)
    requires Booked(plan, p) && r.status != Deferred
    ensures Booked(plan, AddResult(p, r))
  {
    var q := AddResult(p, r);
    forall parent, i | i in Parked(q.buckets, parent)
      ensures ParkedChild(plan, q.results, parent, i)
    {
      assert ParkedChild(plan, p.results, parent, i);
    }
  }

  lemma ParkKeepsBooked(plan: Plan, p: Progress, s: Step, parent: Id)
    requires Booked(plan, p) && s.subsumedBy == Some(parent) && s.id in plan.steps && plan.steps[s.id] == s
    ensures Booked(plan, AddResult(p, Result(s.id, Deferred, 0, WithParent(parent))).(buckets := Park(p.buckets, parent, |p.results|)))
  {
    var n := |p.results|;
    var q := AddResult(p, Result(s.id, Deferred, 0, WithParent(parent))).(buckets := Park(p.buckets, parent, n));
    ParkKeepsDistinct(p.buckets, parent, n);
    forall a, i | i in Parked(q.buckets, a)
      ensures ParkedChild(plan, q.results, a, i)
    {
      ParkThenRead(p.buckets, parent, n, a);
      if i in Parked(p.buckets, a) {
        assert ParkedChild(plan, p.results, a, i);
      }
    }
    forall i | 0 <= i < |q.results| && q.results[i].status == Deferred
      ensures exists a :: i in Parked(q.buckets, a)
    {
      if i < n {
        var a :| i in Parked(p.buckets, a);
        ParkThenRead(p.buckets, parent, n, a);
      } else {
        ParkThenRead(p.buckets, parent, n, parent);
      }
    }
  }

  // ----- One turn, seen from outside ----------------------------------------------------------

  /** The turn passed the step over, or confirmed it, because its slot reads as gone. */
  predicate SaysGone(r: Result) {
    Confirmed(r) || (r.status == Skipped && r.reason == NoState)
  }

  /** What a step's own turn can report about it, and what that does to the run. */
  ghost predicate NewResult(p: Progress, s: Step, turn: Turn, q: Progress) {
    |q.results| == |p.results| + 1 &&
    var r := q.results[|p.results|];
    && r.id == s.id && r.status != Subsumed
    && (r.status == Failed ==> r.reason == CommandFailed && s.id in q.required)
    && (r.status == Deferred ==> r.rc == 0 && s.subsumedBy.Some? && (s.gate || StatusOf(q.store, s.slot) != Blank))
    && (r.status == Skipped ==> r.reason in {PreservationSkipped, NoState, StateGone})
    && (r.status == Cancelled || p.cancelled ==> q.cancelled)
    && (q.halted && !p.halted ==> q.cancelled || q.required != [])
    && (Confirmed(r) || (SaysGone(r) && s.slot !in turn.unreadable) ==> Gone(StatusOf(q.store, s.slot)))
    && (r.status == Skipped && r.reason == NoState ==> q.store == p.store)
  }

  /**
   A turn adds one result under the step's own id, and changes earlier ones only by finishing
   children of this very step after the step itself has been confirmed gone.
   */
  ghost predicate TurnShape(plan: Plan, p: Progress, s: Step, turn: Turn, q: Progress) {
    var n := |p.results|;
    && NewResult(p, s, turn, q)
    && Ebbs(p.store, q.store) && Keeps(p.required, q.required)
    && (forall k :: 0 <= k < n && k !in Parked(p.buckets, s.id) ==> q.results[k] == p.results[k])
    && (forall k :: 0 <= k < n && k in Parked(p.buckets, s.id) ==>
          if Confirmed(q.results[n]) then
            && q.results[k].id == p.results[k].id
            && ChildDone(plan, p.store, q, s.id, turn, k)
          else q.results[k] == p.results[k])
  }

  lemma {:induction false} DestroyWritesOnlyDestroyed(store: Store, es: seq<Effect>)
    requires forall e :: e in es && e.Write? ==> e.record.status == Destroyed
    ensures Ebbs(store, StoreAfter(store, es))
  {
    if es != [] {
      var n := |es| - 1;
      assert es[n] in es && forall e :: e in es[..n] ==> e in es;
      DestroyWritesOnlyDestroyed(store, es[..n]);
    }
  }

  lemma CommandEbbs(s: Step, turn: Turn, store: Store)
    ensures Ebbs(store, StoreAfter(store, RunCommand(s, turn, store).effects))
  {
    var full := Single(CmdDestroy, s.slot, turn.env, store).effects;
    var es := RunCommand(s, turn, store).effects;
    assert forall e :: e in full && e.Write? ==> e.record.status == Destroyed;
    assert forall e :: e in es ==> e in full;
    DestroyWritesOnlyDestroyed(store, es);
  }

  lemma DestroyedAtStore(s: Step, turn: Turn, store: Store)
    ensures RunCommand(s, turn, store).rc == 0 ==>
              StatusOf(StoreAfter(store, RunCommand(s, turn, store).effects), s.slot) == Destroyed
  {
  }

  lemma FinishAfter(plan: Plan, p: Progress, s: Step, turn: Turn, p': Progress)
    requires Booked(plan, p) && Booked(plan, p') && |p'.results| == |p.results| + 1
    requires p'.results[..|p.results|] == p.results && p'.buckets == p.buckets && p'.required == p.required
    requires Ebbs(p.store, p'.store) && NewResult(p, s, turn, p') && Confirmed(p'.results[|p.results|])
    requires p'.halted == p.halted
    ensures Booked(plan, Finish(plan, p', s.id, turn))
    ensures TurnShape(plan, p, s, turn, Finish(plan, p', s.id, turn))
  {
    var n := |p.results|;
    FinishKeepsBooked(plan, p', s.id, turn);
    var members := Parked(p.buckets, s.id);
    var q := Finish(plan, p', s.id, turn);
    MembersAreFinished(plan, p'.(buckets := Unparked(p'.buckets, s.id)), s.id, members, turn);
    MembersKeepFlags(plan, p'.(buckets := Unparked(p'.buckets, s.id)), s.id, members, turn);
    forall k | k in members
      ensures k < n && p'.results[k] == p.results[k] && p'.results[k].id in plan.steps
    {
      assert ParkedChild(plan, p.results, s.id, k) && ParkedChild(plan, p'.results, s.id, k);
    }
    assert n !in members;
    forall k | 0 <= k < n && k in members
      ensures ChildDone(plan, p.store, q, s.id, turn, k)
    {
      SinceBefore(plan, p.store, p'.store, q, s.id, turn, k);
    }
    forall k | 0 <= k < n
      ensures p'.results[k] == p.results[k]
    {
      assert p'.results[..n][k] == p.results[k];
    }
  }

  lemma TurnKeeps(plan: Plan, p: Progress, s: Step, turn: Turn)
    requires Booked(plan, p) && s.id in plan.steps && plan.steps[s.id] == s
    ensures Booked(plan, TakeTurn(plan, p, s, turn))
    ensures TurnShape(plan, p, s, turn, TakeTurn(plan, p, s, turn))
  {
    hide Booked, TurnShape, Ebbs, Finish, RunCommand;
    var q := TakeTurn(plan, p, s, turn);
    match CourseOf(plan, s, p.store, turn.unreadable)
    case PreserveSkip => PlainTurn(plan, p, s, turn, Result(s.id, Skipped, 0, PreservationSkipped));
    case Retain => PlainTurn(plan, p, s, turn, Result(s.id, Retained, 0, RetainDeclared));
    case GoneSkip(status) =>
      if status == Blank {
        PlainTurn(plan, p, s, turn, Result(s.id, Skipped, 0, NoState));
      } else {
        var r := Result(s.id, Skipped, 0, StateGone);
        AddKeepsBooked(plan, p, r);
        EbbsRefl(p.store);
        FinishAfter(plan, p, s, turn, AddResult(p, r));
      }
    case Defer(parent) =>
      ParkKeepsBooked(plan, p, s, parent);
      DeferShape(plan, p, s, turn, parent);
    case Dispatch => SettleKeeps(plan, p, s, turn);
  }

  lemma EbbsRefl(store: Store)
    ensures Ebbs(store, store)
  {
  }

  lemma DeferShape(plan: Plan, p: Progress, s: Step, turn: Turn, parent: Id)
    requires Booked(plan, p) && CourseOf(plan, s, p.store, turn.unreadable) == Defer(parent)
    ensures TurnShape(plan, p, s, turn, AddResult(p, Result(s.id, Deferred, 0, WithParent(parent))).(buckets := Park(p.buckets, parent, |p.results|)))
  {
  }

  lemma PlainTurn(plan: Plan, p: Progress, s: Step, turn: Turn, r: Result)
    requires Booked(plan, p) && NewResult(p, s, turn, AddResult(p, r)) && r.status != Deferred && !Confirmed(r)
    ensures Booked(plan, AddResult(p, r)) && TurnShape(plan, p, s, turn, AddResult(p, r))
  {
    AddKeepsBooked(plan, p, r);
  }

  lemma SettleKeeps(plan: Plan, p: Progress, s: Step, turn: Turn)
    requires Booked(plan, p)
    ensures Booked(plan, Settle(plan, p, s, turn)) && TurnShape(plan, p, s, turn, Settle(plan, p, s, turn))
  {
    var command := RunCommand(s, turn, p.store);
    var q := p.(store := StoreAfter(p.store, command.effects), effects := p.effects + command.effects);
    CommandEbbs(s, turn, p.store);
    DestroyedAtStore(s, turn, p.store);
    hide RunCommand, StoreAfter, Ebbs, Booked, TurnShape, Finish;
    if command.rc == 0 {
      SuccessKeeps(plan, p, s, turn, q);
    } else {
      var status := if command.rc == CANCELLED then Cancelled else if s.optional then FailedOptional else Failed;
      FailureKeeps(plan, p, s, turn, q, Settle(plan, p, s, turn), Result(s.id, status, command.rc, CommandFailed));
    }
  }

  lemma SuccessKeeps(plan: Plan, p: Progress, s: Step, turn: Turn, q: Progress)
    requires Booked(plan, p) && q == p.(store := q.store, effects := q.effects)
    requires Ebbs(p.store, q.store) && StatusOf(q.store, s.slot) == Destroyed
    ensures var f := Finish(plan, AddResult(q, Result(s.id, Succeeded, 0, NoReason)), s.id, turn);
            Booked(plan, f) && TurnShape(plan, p, s, turn, f)
  {
    var r := Result(s.id, Succeeded, 0, NoReason);
    assert Booked(plan, q);
    AddKeepsBooked(plan, q, r);
    hide Booked, Ebbs, Finish;
    FinishAfter(plan, p, s, turn, AddResult(q, r));
  }

  lemma FailureKeeps(plan: Plan, p: Progress, s: Step, turn: Turn, q: Progress, f: Progress, r: Result)
    requires Booked(plan, p) && q == p.(store := q.store, effects := q.effects) && Ebbs(p.store, q.store)
    requires f == AddResult(q, r).(required := f.required, optional := f.optional, cancelled := f.cancelled, halted := f.halted)
    requires r.id == s.id && r.status in {Cancelled, FailedOptional, Failed} && r.reason == CommandFailed
    requires f.required == if r.status == Failed then p.required + [s.id] else p.required
    requires f.cancelled == (p.cancelled || r.status == Cancelled) && (f.halted ==> p.halted || r.status in {Cancelled, Failed})
    ensures Booked(plan, f) && TurnShape(plan, p, s, turn, f)
  {
    assert Booked(plan, q);
    AddKeepsBooked(plan, q, r);
    assert Booked(plan, f);
  }

  // ----- The whole loop ---------------------------------------------------------------------

  /** Results stand in the order of the steps; only a `break` leaves some out. */
  ghost predicate InOrder(plan: Plan, p: Progress, n: nat) {
    && |p.results| <= n && n <= |plan.order|
    && (!p.halted ==> |p.results| == n)
    && forall k :: 0 <= k < |p.results| ==> p.results[k].id == plan.order[k]
  }

  lemma {:induction false} LoopKeeps(plan: Plan, store: Store, turns: seq<Turn>, n: nat)
    requires PlanOk(plan) && |turns| == |plan.order| && n <= |turns|
    ensures Booked(plan, Loop(plan, store, turns, n)) && InOrder(plan, Loop(plan, store, turns, n), n)
    ensures Ebbs(store, Loop(plan, store, turns, n).store)
  {
    if n > 0 {
      hide TakeTurn, TurnShape, InOrder, Booked;
      LoopKeeps(plan, store, turns, n - 1);
      var p := Loop(plan, store, turns, n - 1);
      InOrderGrows(plan, p, n - 1);
      if !p.halted {
        var a := plan.order[n - 1];
        assert a in plan.order;
        TurnKeeps(plan, p, plan.steps[a], turns[n - 1]);
        var q := TakeTurn(plan, p, plan.steps[a], turns[n - 1]);
        TurnKeepsOrder(plan, p, n - 1, turns[n - 1], q);
        assert Ebbs(store, q.store) by {
          EbbsOn(store, p.store, q.store);
        }
      }
    }
  }

  lemma InOrderGrows(plan: Plan, p: Progress, n: nat)
    requires InOrder(plan, p, n) && n < |plan.order|
    ensures p.halted ==> InOrder(plan, p, n + 1)
  {
  }

  lemma EbbsOn(a: Store, b: Store, c: Store)
    requires Ebbs(a, b) && Ebbs(b, c)
    ensures Ebbs(a, c)
  {
  }

  /** The n-th iteration: nothing after a `break`, one well-shaped turn otherwise. */
  ghost predicate Iterates(plan: Plan, n: nat, turn: Turn, p: Progress, q: Progress)
    requires PlanOk(plan) && n < |plan.order|
  {
    var a := plan.order[n];
    if p.halted then q == p
    else
      && a in plan.steps && plan.steps[a].id == a
      && Booked(plan, p) && |p.results| == n
      && TurnShape(plan, p, plan.steps[a], turn, q)
      && q == TakeTurn(plan, p, plan.steps[a], turn)
  }

  lemma LoopStep(plan: Plan, store: Store, turns: seq<Turn>, n: nat)
    requires PlanOk(plan) && |turns| == |plan.order| && n < |turns|
    ensures Iterates(plan, n, turns[n], Loop(plan, store, turns, n), Loop(plan, store, turns, n + 1))
  {
    LoopKeeps(plan, store, turns, n);
    assert plan.order[n] in plan.order;
    var p := Loop(plan, store, turns, n);
    if !p.halted {
      TurnKeeps(plan, p, plan.steps[plan.order[n]], turns[n]);
    }
  }

  lemma TurnKeepsOrder(plan: Plan, p: Progress, n: nat, turn: Turn, q: Progress)
    requires Booked(plan, p) && InOrder(plan, p, n) && n < |plan.order| && !p.halted
    requires plan.order[n] in plan.steps && plan.steps[plan.order[n]].id == plan.order[n]
    requires TurnShape(plan, p, plan.steps[plan.order[n]], turn, q)
    ensures InOrder(plan, q, n + 1) && Ebbs(p.store, q.store)
  {
  }

  lemma {:induction false} HaltedFreezes(plan: Plan, store: Store, turns: seq<Turn>, m: nat, n: nat)
    requires PlanOk(plan) && |turns| == |plan.order| && m <= n <= |turns|
    requires Loop(plan, store, turns, m).halted
    ensures Loop(plan, store, turns, n) == Loop(plan, store, turns, m)
  {
    hide TakeTurn, Loop;
    if n > m {
      HaltedFreezes(plan, store, turns, m, n - 1);
      LoopStep(plan, store, turns, n - 1);
    }
  }

  ghost predicate ParentConfirmed(results: seq<Result>, parent: Id) {
    exists j :: 0 <= j < |results| && results[j].id == parent && Confirmed(results[j])
  }

  /** At a turn of this step the record of the slot made trouble. */
  ghost predicate TroubleAt(plan: Plan, turns: seq<Turn>, a: Id, slot: Slot) {
    exists t :: 0 <= t < |turns| && t < |plan.order| && plan.order[t] == a && slot in Trouble(turns[t])
  }

  ghost predicate ClearAt(plan: Plan, turns: seq<Turn>, a: Id, slot: Slot) {
    exists t :: 0 <= t < |turns| && t < |plan.order| && plan.order[t] == a && slot !in Trouble(turns[t])
  }

  /** What the report says about one step is backed by what happened. */
  ghost predicate Backed(plan: Plan, turns: seq<Turn>, p: Progress, i: nat)
    requires i < |p.results|
  {
    var r := p.results[i];
    r.id in plan.steps &&
    var s := plan.steps[r.id];
    match r.status
    case Deferred =>
      && s.subsumedBy.Some?
      && forall j :: i < j < |p.results| && p.results[j].id == s.subsumedBy.value ==> !Confirmed(p.results[j])
    case Subsumed =>
      && s.subsumedBy.Some? && ParentConfirmed(p.results, s.subsumedBy.value)
      && StatusOf(p.store, s.slot) == Destroyed
      && (s.gate || ClearAt(plan, turns, s.subsumedBy.value, s.slot))
    case Failed =>
      && r.id in p.required
      && !r.reason.NotConfirmed?
      && (r.reason in {ChildUnreadable, ChildUnwritable} ==>
            s.subsumedBy.Some? && ParentConfirmed(p.results, s.subsumedBy.value) && TroubleAt(plan, turns, s.subsumedBy.value, s.slot))
    case _ => true
  }

  /** A deferred step has a record; a gate may have been required without one. */
  ghost predicate Recorded(plan: Plan, p: Progress, i: nat)
    requires i < |p.results|
  {
    p.results[i].id in plan.steps &&
    var s := plan.steps[p.results[i].id];
    p.results[i].status == Deferred ==> s.gate || StatusOf(p.store, s.slot) != Blank
  }

  ghost predicate AllBacked(plan: Plan, turns: seq<Turn>, p: Progress) {
    && (forall i :: 0 <= i < |p.results| ==> Recorded(plan, p, i))
    && forall i :: 0 <= i < |p.results| ==> Backed(plan, turns, p, i)
  }

  lemma TurnKeepsBacked(plan: Plan, turns: seq<Turn>, p: Progress, s: Step, t: nat, q: Progress)
    requires Booked(plan, p) && AllBacked(plan, turns, p)
    requires s.id in plan.steps && plan.steps[s.id] == s && t < |turns| && t < |plan.order| && plan.order[t] == s.id
    requires TurnShape(plan, p, s, turns[t], q)
    ensures AllBacked(plan, turns, q)
  {
    var n := |p.results|;
    StillRecorded(plan, p, s, turns[t], q);
    forall i | 0 <= i < |q.results|
      ensures Backed(plan, turns, q, i)
    {
      if i < n {
        assert Backed(plan, turns, p, i) && Recorded(plan, p, i);
        if i in Parked(p.buckets, s.id) && Confirmed(q.results[n]) {
          ChildIsBacked(plan, turns, p, s, t, q, i);
        } else {
          assert q.results[i] == p.results[i];
          OldStaysBacked(plan, turns, p, s, t, q, i);
        }
      }
    }
  }

  lemma StillRecorded(plan: Plan, p: Progress, s: Step, turn: Turn, q: Progress)
    requires s.id in plan.steps && plan.steps[s.id] == s && TurnShape(plan, p, s, turn, q)
    requires forall i :: 0 <= i < |p.results| ==> Recorded(plan, p, i)
    ensures forall i :: 0 <= i < |q.results| ==> Recorded(plan, q, i)
  {
    forall i | 0 <= i < |q.results|
      ensures Recorded(plan, q, i)
    {
      if i < |p.results| {
        assert Recorded(plan, p, i);
      }
    }
  }

  lemma ChildIsBacked(plan: Plan, turns: seq<Turn>, p: Progress, s: Step, t: nat, q: Progress, i: nat)
    requires Booked(plan, p) && i < |p.results| && Recorded(plan, p, i)
    requires t < |turns| && t < |plan.order| && plan.order[t] == s.id && TurnShape(plan, p, s, turns[t], q)
    requires i in Parked(p.buckets, s.id) && Confirmed(q.results[|p.results|])
    ensures Backed(plan, turns, q, i)
  {
    assert ParkedChild(plan, p.results, s.id, i);
    assert ChildDone(plan, p.store, q, s.id, turns[t], i);
    assert q.results[|p.results|].id == s.id;
  }

  lemma OldStaysBacked(plan: Plan, turns: seq<Turn>, p: Progress, s: Step, t: nat, q: Progress, i: nat)
    requires Booked(plan, p) && i < |p.results| && Backed(plan, turns, p, i) && t < |turns|
    requires TurnShape(plan, p, s, turns[t], q) && q.results[i] == p.results[i]
    requires !(i in Parked(p.buckets, s.id) && Confirmed(q.results[|p.results|]))
    ensures Backed(plan, turns, q, i)
  {
    var n := |p.results|;
    var r := p.results[i];
    forall k | 0 <= k < n
      ensures q.results[k].id == p.results[k].id
      ensures Confirmed(q.results[k]) <==> Confirmed(p.results[k])
    {
      if k in Parked(p.buckets, s.id) {
        assert ParkedChild(plan, p.results, s.id, k);
      }
    }
    if r.status == Subsumed || (r.status == Failed && r.reason in {ChildUnreadable, ChildUnwritable}) {
      var parent := plan.steps[r.id].subsumedBy.value;
      var j :| 0 <= j < n && p.results[j].id == parent && Confirmed(p.results[j]);
      assert q.results[j].id == parent && Confirmed(q.results[j]);
    }
    if r.status == Deferred {
      var a :| i in Parked(p.buckets, a);
      assert ParkedChild(plan, p.results, a, i);
    }
  }

  lemma {:induction false} LoopIsBacked(plan: Plan, store: Store, turns: seq<Turn>, n: nat)
    requires PlanOk(plan) && |turns| == |plan.order| && n <= |turns|
    ensures AllBacked(plan, turns, Loop(plan, store, turns, n))
  {
    hide TakeTurn, Booked, TurnShape, InOrder;
    if n > 0 {
      LoopIsBacked(plan, store, turns, n - 1);
      LoopStep(plan, store, turns, n - 1);
      var p, q := Loop(plan, store, turns, n - 1), Loop(plan, store, turns, n);
      if !p.halted {
        TurnKeepsBacked(plan, turns, p, plan.steps[plan.order[n - 1]], n - 1, q);
      }
    }
  }

  // ----- The sweep ----------------------------------------------------------------------------

  ghost predicate Swept(p: Progress, q: Progress, parent: Id, k: nat)
    requires k < |p.results| == |q.results|
  {
    && q.results[k] == p.results[k].(status := Failed, rc := OPERATOR_ERROR, reason := NotConfirmed(parent))
    && q.results[k].id in q.required
  }

  ghost predicate SameButResults(p: Progress, q: Progress) {
    && q.store == p.store && q.effects == p.effects && q.cancelled == p.cancelled
    && q.optional == p.optional && Keeps(p.required, q.required)
  }

  lemma {:induction false} MembersAreSwept(p: Progress, parent: Id, members: seq<nat>)
    requires forall k :: 0 <= k < |members| ==> members[k] < |p.results|
    ensures var q := SweepMembers(p, parent, members);
            && SameButResults(p, q)
            && (forall k :: 0 <= k < |p.results| && k !in members ==> q.results[k] == p.results[k])
            && (forall k :: 0 <= k < |p.results| && k in members ==> Swept(p, q, parent, k))
  {
    if members != [] {
      var n := |members| - 1;
      MembersAreSwept(p, parent, members[..n]);
      assert members == members[..n] + [members[n]];
    }
  }

  ghost predicate InFirst(p: Progress, n: nat, k: nat)
    requires n <= |p.buckets|
  {
    exists b :: 0 <= b < n && k in p.buckets[b].members
  }

  /** A deferred result sits in one bucket only. */
  lemma OneBucketOf(plan: Plan, p: Progress, b: nat, c: nat, k: nat)
    requires Booked(plan, p) && b < |p.buckets| && c < |p.buckets| && b != c && k in p.buckets[b].members
    ensures k !in p.buckets[c].members
  {
    BucketReads(p.buckets, b);
    BucketReads(p.buckets, c);
    if k in p.buckets[c].members {
      OneBucketEach(plan, p, p.buckets[b].parent, p.buckets[c].parent, k);
    }
  }

  lemma {:induction false} SweepDoes(plan: Plan, p: Progress, n: nat)
    requires Booked(plan, p) && BucketsInRange(p) && n <= |p.buckets|
    ensures var q := Sweep(p, n);
            && SameButResults(p, q)
            && (forall k :: 0 <= k < |p.results| && !InFirst(p, n, k) ==> q.results[k] == p.results[k])
            && (forall k, b :: 0 <= k < |p.results| && 0 <= b < n && k in p.buckets[b].members ==> Swept(p, q, p.buckets[b].parent, k))
  {
    hide Booked, SweepMembers, Parked, DistinctParents;
    if n > 0 {
      SweepDoes(plan, p, n - 1);
      var m := Sweep(p, n - 1);
      var bucket := p.buckets[n - 1];
      MembersAreSwept(m, bucket.parent, bucket.members);
      var q := Sweep(p, n);
      forall k, b | 0 <= k < |p.results| && 0 <= b < n && k in p.buckets[b].members
        ensures Swept(p, q, p.buckets[b].parent, k)
      {
        if b < n - 1 {
          OneBucketOf(plan, p, b, n - 1, k);
          assert q.results[k] == m.results[k];
        } else {
          forall c | 0 <= c < n - 1
            ensures k !in p.buckets[c].members
          {
            OneBucketOf(plan, p, n - 1, c, k);
          }
          assert !InFirst(p, n - 1, k);
        }
      }
      forall k | 0 <= k < |p.results| && !InFirst(p, n, k)
        ensures q.results[k] == p.results[k]
      {
        assert !InFirst(p, n - 1, k) && k !in bucket.members;
      }
    }
  }

  lemma BookedInRange(plan: Plan, p: Progress)
    requires Booked(plan, p)
    ensures BucketsInRange(p)
  {
    forall k, j | 0 <= k < |p.buckets| && 0 <= j < |p.buckets[k].members|
      ensures p.buckets[k].members[j] < |p.results|
    {
      BucketReads(p.buckets, k);
      assert p.buckets[k].members[j] in Parked(p.buckets, p.buckets[k].parent);
      assert ParkedChild(plan, p.results, p.buckets[k].parent, p.buckets[k].members[j]);
    }
  }

  /** The run from its first turn to the end of the sweep. */
  ghost function Run(plan: Plan, store: Store, turns: seq<Turn>): Progress
    requires PlanOk(plan) && |turns| == |plan.order|
  {
    var p := Loop(plan, store, turns, |turns|);
    LoopKeeps(plan, store, turns, |turns|);
    BookedInRange(plan, p);
    Sweep(p, |p.buckets|)
  }

  /** The sweep turns exactly the results still deferred into failures. */
  lemma SweepFailsTheDeferred(plan: Plan, store: Store, turns: seq<Turn>)
    requires PlanOk(plan) && |turns| == |plan.order|
    ensures var p, q := Loop(plan, store, turns, |turns|), Run(plan, store, turns);
            && |q.results| == |p.results| && SameButResults(p, q)
            && forall i :: 0 <= i < |p.results| ==>
                 if p.results[i].status == Deferred
                 then p.results[i].id in plan.steps && plan.steps[p.results[i].id].subsumedBy.Some?
                      && Swept(p, q, plan.steps[p.results[i].id].subsumedBy.value, i)
                 else q.results[i] == p.results[i]
  {
    var p := Loop(plan, store, turns, |turns|);
    LoopKeeps(plan, store, turns, |turns|);
    BookedInRange(plan, p);
    SweepDoes(plan, p, |p.buckets|);
    forall i | 0 <= i < |p.results|
      ensures p.results[i].status != Deferred ==> !InFirst(p, |p.buckets|, i)
      ensures p.results[i].status == Deferred ==> p.results[i].id in plan.steps && plan.steps[p.results[i].id].subsumedBy.Some?
                                                  && Swept(p, Run(plan, store, turns), plan.steps[p.results[i].id].subsumedBy.value, i)
    {
      if InFirst(p, |p.buckets|, i) {
        var b :| 0 <= b < |p.buckets| && i in p.buckets[b].members;
        BucketReads(p.buckets, b);
        assert ParkedChild(plan, p.results, p.buckets[b].parent, i);
      }
      if p.results[i].status == Deferred {
        var parent :| i in Parked(p.buckets, parent);
        assert ParkedChild(plan, p.results, parent, i);
        ReadsFromBucket(p.buckets, parent);
      }
    }
  }
}
