/**
 The state store and the provider behind it.  A run is observed as the sequence of its
 atomic effects; a crash leaves the effects of some prefix of that sequence.
 */
module ModuleState {
  import opened Ordering
  import opened Blueprint

  datatype Command = CmdApply | CmdDeploy | CmdPlan | CmdValidate | CmdDestroy | CmdImport

  /** The `status` field; Blank is a record whose status is empty. */
  datatype Status = Blank | StatusOk | StatusError | Running | Destroyed | Absent | StatusMissing | Other(name: string)

  type Outputs = map<string, string>

  datatype StateRecord = StateRecord(
    status: Status,
    outputs: Outputs,
    active: Option<Command>,
    failed: Option<Command>,
    subsumedUnder: Option<Id>)

  type Store = map<Slot, StateRecord>

  /** `module_state_status`: a slot without a record reads like one with an empty status. */
  function StatusOf(store: Store, slot: Slot): Status {
    if slot in store then store[slot].status else Blank
  }

  /** The same read when the record file may be unreadable: every exception becomes "". */
  function StatusRead(store: Store, slot: Slot, unreadable: set<Slot>): Status {
    if slot in unreadable then Blank else StatusOf(store, slot)
  }

  predicate Gone(s: Status) {
    s == Blank || s == Destroyed || s == Absent
  }

  // ----- Effects ----------------------------------------------------------------------------

  /**
   The resources that may exist at the provider, next to the store.  A slot that is hosted by
   others (a guest on a machine, say) holds resources only while all its hosts do.
   */
  datatype World = World(store: Store, holds: set<Slot>)

  type Hosts = Slot -> set<Slot>

  datatype Effect =
    | Write(slot: Slot, record: StateRecord)
    | DriverStarts(slot: Slot)
    | DriverDestroyed(slot: Slot)

  ghost function Step1(hosts: Hosts, w: World, e: Effect): World {
    match e
    case Write(slot, record) => w.(store := w.store[slot := record])
    case DriverStarts(slot) => if hosts(slot) <= w.holds then w.(holds := w.holds + {slot}) else w
    case DriverDestroyed(slot) => w.(holds := set s | s in w.holds && s != slot && slot !in hosts(s))
  }

  ghost function Replay(hosts: Hosts, w: World, es: seq<Effect>): World {
    if es == [] then w else Step1(hosts, Replay(hosts, w, es[..|es| - 1]), es[|es| - 1])
  }

  lemma {:induction false} ReplayConcat(hosts: Hosts, w: World, es: seq<Effect>, fs: seq<Effect>)
    ensures Replay(hosts, w, es + fs) == Replay(hosts, Replay(hosts, w, es), fs)
  {
    if fs == [] {
      assert es + fs == es;
    } else {
      var n := |fs| - 1;
      assert (es + fs)[..|es| + n] == es + fs[..n];
      ReplayConcat(hosts, w, es, fs[..n]);
    }
  }

  lemma ReplayOne(hosts: Hosts, w: World, e: Effect)
    ensures Replay(hosts, w, [e]) == Step1(hosts, w, e)
  {
    assert [e][..0] == [];
  }

  lemma ReplayNext(hosts: Hosts, w: World, es: seq<Effect>, i: nat)
    requires i < |es|
    ensures Replay(hosts, w, es[..i + 1]) == Step1(hosts, Replay(hosts, w, es[..i]), es[i])
  {
    assert es[..i + 1][..i] == es[..i];
  }

  lemma ReplayNothing(hosts: Hosts, w: World)
    ensures Replay(hosts, w, []) == w
  {
  }

  /** What a sequence of effects leaves in the store, whatever the provider does. */
  ghost function StoreAfter(store: Store, es: seq<Effect>): Store {
    if es == [] then store
    else
      var before := StoreAfter(store, es[..|es| - 1]);
      match es[|es| - 1]
      case Write(slot, record) => before[slot := record]
      case _ => before
  }

  lemma {:induction false} StoreAfterConcat(store: Store, es: seq<Effect>, fs: seq<Effect>)
    ensures StoreAfter(store, es + fs) == StoreAfter(StoreAfter(store, es), fs)
  {
    if fs == [] {
      assert es + fs == es;
    } else {
      var n := |fs| - 1;
      assert (es + fs)[..|es| + n] == es + fs[..n];
      StoreAfterConcat(store, es, fs[..n]);
    }
  }

  lemma {:induction false} StoreAfterReplays(hosts: Hosts, w: World, es: seq<Effect>)
    ensures StoreAfter(w.store, es) == Replay(hosts, w, es).store
  {
    if es != [] {
      StoreAfterReplays(hosts, w, es[..|es| - 1]);
    }
  }

  ghost predicate SameRecord(before: Store, after: Store, slot: Slot) {
    (slot in before <==> slot in after) && (slot in before ==> after[slot] == before[slot])
  }

  lemma SameRecordReadsTheSame()
    ensures forall a: Store, s :: SameRecord(a, a, s)
    ensures forall a: Store, b: Store, s :: SameRecord(a, b, s) ==> StatusOf(a, s) == StatusOf(b, s)
  {
  }

  lemma SameRecordOn(a: Store, b: Store, c: Store, slot: Slot)
    requires SameRecord(a, b, slot) && SameRecord(b, c, slot)
    ensures SameRecord(a, c, slot)
  {
  }

  // ----- Safety -----------------------------------------------------------------------------

  /** Hosting is transitive: what runs on a guest runs on the guest's own hosts too. */
  ghost predicate TransitiveHosts(hosts: Hosts) {
    forall s, p :: p in hosts(s) ==> hosts(p) <= hosts(s)
  }

  /** No slot that may hold resources reads as empty, absent or destroyed. */
  ghost predicate Safe(hosts: Hosts, w: World) {
    && (forall s :: s in w.holds ==> !Gone(StatusOf(w.store, s)))
    && (forall s :: s in w.holds ==> hosts(s) <= w.holds)
  }

  /** Safe now and after every further effect: whatever prefix a crash leaves is safe. */
  ghost predicate SafeThroughout(hosts: Hosts, w: World, es: seq<Effect>) {
    forall k :: 0 <= k <= |es| ==> Safe(hosts, Replay(hosts, w, es[..k]))
  }

  /** An effect that may be taken in a safe world. */
  ghost predicate Harmless(hosts: Hosts, w: World, e: Effect) {
    match e
    case Write(slot, record) => Gone(record.status) ==> slot !in w.holds
    case DriverStarts(slot) => !Gone(StatusOf(w.store, slot))
    case DriverDestroyed(_) => true
  }

  lemma HarmlessKeepsSafe(hosts: Hosts, w: World, e: Effect)
    requires TransitiveHosts(hosts) && Safe(hosts, w) && Harmless(hosts, w, e)
    ensures Safe(hosts, Step1(hosts, w, e))
  {
  }

  lemma SafeEmpty(hosts: Hosts, w: World)
    requires Safe(hosts, w)
    ensures SafeThroughout(hosts, w, [])
  {
  }

  lemma SafeAppend(hosts: Hosts, w: World, es: seq<Effect>, e: Effect)
    requires TransitiveHosts(hosts) && SafeThroughout(hosts, w, es)
    requires Harmless(hosts, Replay(hosts, w, es), e)
    ensures SafeThroughout(hosts, w, es + [e])
  {
    assert es[..|es|] == es;
    HarmlessKeepsSafe(hosts, Replay(hosts, w, es), e);
    var fs := es + [e];
    forall k | 0 <= k <= |fs|
      ensures Safe(hosts, Replay(hosts, w, fs[..k]))
    {
      if k <= |es| {
        assert fs[..k] == es[..k];
      } else {
        assert fs[..k] == fs && fs[..|es|] == es;
      }
    }
  }

  lemma SafeConcat(hosts: Hosts, w: World, es: seq<Effect>, fs: seq<Effect>)
    requires SafeThroughout(hosts, w, es)
    requires SafeThroughout(hosts, Replay(hosts, w, es), fs)
    ensures SafeThroughout(hosts, w, es + fs)
  {
    hide Safe, Replay;
    var all := es + fs;
    forall k | 0 <= k <= |all|
      ensures Safe(hosts, Replay(hosts, w, all[..k]))
    {
      if k <= |es| {
        assert all[..k] == es[..k];
      } else {
        var j := k - |es|;
        assert all[..k] == es + fs[..j];
        ReplayConcat(hosts, w, es, fs[..j]);
      }
    }
  }

  lemma SafePrefix(hosts: Hosts, w: World, es: seq<Effect>, n: nat)
    requires SafeThroughout(hosts, w, es) && n <= |es|
    ensures SafeThroughout(hosts, w, es[..n])
  {
    forall k | 0 <= k <= n
      ensures Safe(hosts, Replay(hosts, w, es[..n][..k]))
    {
      assert es[..n][..k] == es[..k];
    }
  }

  // ----- The store as the code sees it ------------------------------------------------------

  /**
   The state directory together with a ghost account of the provider and of every effect
   since the machine was set up.
   */
  class Machine {
    var store: Store
    ghost var holds: set<Slot>
    ghost var trace: seq<Effect>
    ghost const origin: World
    ghost const hosts: Hosts

    ghost function Now(): World
      reads this
    {
      World(store, holds)
    }

    /** The present state is what the trace makes of the state the machine was set up in. */
    ghost predicate Valid()
      reads this
    {
      Now() == Replay(hosts, origin, trace)
    }

    constructor (store: Store, ghost holds: set<Slot>, ghost hosts: Hosts)
      ensures Valid() && Now() == origin == World(store, holds) && trace == [] && this.hosts == hosts
    {
      this.store := store;
      this.holds := holds;
      this.origin := World(store, holds);
      this.hosts := hosts;
      trace := [];
    }

    /** `write_module_state`: one atomic replacement of the slot's record. */
    method WriteState(slot: Slot, record: StateRecord)
      requires Valid()
      modifies this
      ensures Valid() && Now() == Step1(hosts, old(Now()), Write(slot, record))
      ensures trace == old(trace) + [Write(slot, record)]
    {
      store := store[slot := record];
      trace := trace + [Write(slot, record)];
      assert trace[..|trace| - 1] == old(trace);
    }

    /** Control passes to the provider, which may create resources from here on. */
    ghost method Starts(slot: Slot)
      requires Valid()
      modifies this`holds, this`trace
      ensures Valid() && Now() == Step1(hosts, old(Now()), DriverStarts(slot))
      ensures trace == old(trace) + [DriverStarts(slot)]
    {
      holds := Step1(hosts, Now(), DriverStarts(slot)).holds;
      trace := trace + [DriverStarts(slot)];
      assert trace[..|trace| - 1] == old(trace);
    }

    /** The provider has confirmed that the slot's resources, and what they hosted, are gone. */
    ghost method Confirms(slot: Slot)
      requires Valid()
      modifies this`holds, this`trace
      ensures Valid() && Now() == Step1(hosts, old(Now()), DriverDestroyed(slot))
      ensures trace == old(trace) + [DriverDestroyed(slot)]
    {
      holds := Step1(hosts, Now(), DriverDestroyed(slot)).holds;
      trace := trace + [DriverDestroyed(slot)];
      assert trace[..|trace| - 1] == old(trace);
    }
  }
}
