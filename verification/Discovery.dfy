/** `_merge_discovered_targets`: discovered devices merged into the operator's target file. */
module Discovery {
  import opened Ordering
  import opened Names

  /** A source that is not one of the two discoveries is the operator's; it may be empty. */
  datatype Source = DhcpLease | Inspect | Operator(name: string)

  datatype Identity = Identity(source: Source, value: string)

  /** An entry of the file; `settings` stands for all that the merge never looks at. */
  datatype Target = Target(name: string, host: string, source: Source, mac: string, discovery: string, settings: string)

  datatype Candidate = Candidate(name: string, host: string, source: Source, mac: string, settings: string)

  function Key(c: Candidate): Identity {
    Identity(c.source, if c.source == DhcpLease then c.mac else c.name)
  }

  predicate Named(c: Candidate) {
    Key(c).source != Operator("") && Key(c).value != ""
  }

  /** The identity that decides whether an entry is pruned. */
  function PruneKey(t: Target): Identity {
    Identity(t.source, if t.source == DhcpLease then t.mac else if t.discovery != "" then t.discovery else t.name)
  }

  /** The identity under which an entry can be found again. */
  function IdentityOf(t: Target): Option<Identity> {
    if t.source == DhcpLease && t.mac != "" then Some(Identity(DhcpLease, t.mac))
    else if t.source == Inspect && t.name != "" then Some(Identity(Inspect, if t.discovery != "" then t.discovery else t.name))
    else None
  }

  function Added(c: Candidate, name: string): Target {
    Target(name, c.host, c.source, c.mac, if c.source == Inspect then c.name else "", c.settings)
  }

  // ----- One pass --------------------------------------------------------------------------------

  function Keys(candidates: seq<Candidate>): set<Identity> {
    set c | c in candidates && Named(c) :: Key(c)
  }

  function Sources(candidates: seq<Candidate>): set<Source> {
    set c | c in candidates && Named(c) :: c.source
  }

  /** A discovered entry that its own discovery no longer reports. */
  predicate Withdrawn(t: Target, candidates: seq<Candidate>) {
    t.source in Sources(candidates) && PruneKey(t).value != "" && PruneKey(t) !in Keys(candidates)
  }

  function Retained(targets: seq<Target>, candidates: seq<Candidate>): seq<Target> {
    if targets == [] then []
    else
      var front := Retained(targets[..|targets| - 1], candidates);
      var last := targets[|targets| - 1];
      if Withdrawn(last, candidates) then front else front + [last]
  }

  /** The list under work with the index sets kept beside it. */
  datatype Merge = Merge(
    targets: seq<Target>,
    byIdentity: map<Identity, nat>,
    hosts: set<string>,
    names: set<string>,
    added: seq<string>,
    changed: bool)

  function Index(m: Merge, t: Target): Merge {
    var i := |m.targets|;
    Merge(m.targets + [t],
          if IdentityOf(t).Some? then m.byIdentity[IdentityOf(t).value := i] else m.byIdentity,
          if t.host != "" then m.hosts + {t.host} else m.hosts,
          if t.name != "" then m.names + {t.name} else m.names,
          m.added, m.changed)
  }

  function Indexed(targets: seq<Target>, changed: bool): (m: Merge)
    ensures m.targets == targets
    ensures forall id :: id in m.byIdentity ==> m.byIdentity[id] < |targets|
  {
    if targets == [] then Merge([], map[], {}, {}, [], changed)
    else Index(Indexed(targets[..|targets| - 1], changed), targets[|targets| - 1])
  }

  ghost predicate InRange(m: Merge) {
    forall id :: id in m.byIdentity ==> m.byIdentity[id] < |m.targets|
  }

  /** One candidate. */
  ghost function Offer(m: Merge, c: Candidate): (n: Merge)
    requires InRange(m)
    ensures InRange(n)
  {
    if Key(c) in m.byIdentity then
      var i := m.byIdentity[Key(c)];
      var previous := m.targets[i].host;
      if previous != c.host && c.host !in m.hosts then
        m.(targets := m.targets[i := m.targets[i].(host := c.host)], hosts := m.hosts - {previous} + {c.host}, changed := true)
      else m
    else if c.host in m.hosts then m
    else
      var name := Free(c.name, m.names);
      Merge(m.targets + [Added(c, name)], m.byIdentity[Key(c) := |m.targets|], m.hosts + {c.host}, m.names + {name},
            m.added + [name], true)
  }

  ghost function Offered(m: Merge, candidates: seq<Candidate>, n: nat): (r: Merge)
    requires InRange(m) && n <= |candidates|
    ensures InRange(r)
  {
    if n == 0 then m else Offer(Offered(m, candidates, n - 1), candidates[n - 1])
  }

  ghost function MergePass(targets: seq<Target>, candidates: seq<Candidate>): Merge {
    var kept := Retained(targets, candidates);
    Offered(Indexed(kept, kept != targets), candidates, |candidates|)
  }

  // ----- The merge as the code performs it --------------------------------------------------------

  class Entry {
    const name: string
    const source: Source
    const mac: string
    const discovery: string
    const settings: string
    var host: string

    function Value(): Target
      reads this
    {
      Target(name, host, source, mac, discovery, settings)
    }

    constructor (t: Target)
      ensures Value() == t
    {
      name, host, source, mac, discovery, settings := t.name, t.host, t.source, t.mac, t.discovery, t.settings;
    }
  }

  /** The entries are distinct objects that hold exactly these values. */
  ghost predicate Shows(entries: seq<Entry>, targets: seq<Target>)
    reads entries
  {
    && |entries| == |targets|
    && (forall i :: 0 <= i < |entries| ==> entries[i].Value() == targets[i])
    && (forall i, j :: 0 <= i < j < |entries| ==> entries[i] != entries[j])
  }

  /** The identity index refers to the very objects of the list. */
  ghost predicate Refers(byIdentity: map<Identity, Entry>, entries: seq<Entry>, m: Merge) {
    && byIdentity.Keys == m.byIdentity.Keys
    && forall id :: id in byIdentity ==> m.byIdentity[id] < |entries| && byIdentity[id] == entries[m.byIdentity[id]]
  }

  /** The first loop: entries withdrawn by their discovery are dropped. */
  method Prune(entries: seq<Entry>, candidates: seq<Candidate>, ghost targets: seq<Target>)
    returns (kept: seq<Entry>, changed: bool)
    requires Shows(entries, targets)
    ensures Shows(kept, Retained(targets, candidates)) && (forall e :: e in kept ==> e in entries)
    ensures changed <==> Retained(targets, candidates) != targets
  {
    hide Retained, Keys, Sources;
    var keys, sources := Keys(candidates), Sources(candidates);
    kept, changed := [], false;
    RetainedNone(candidates);
    for i := 0 to |entries|
      invariant Shows(kept, Retained(targets[..i], candidates)) && (forall e :: e in kept ==> e in entries[..i])
      invariant changed <==> Retained(targets[..i], candidates) != targets[..i]
    {
      var entry := entries[i];
      var t := entry.Value();
      assert targets[..i + 1] == targets[..i] + [t];
      RetainedNext(targets[..i], t, candidates);
      if t.source in sources && PruneKey(t).value != "" && PruneKey(t) !in keys {
        changed := true;
        continue;
      }
      assert entry !in entries[..i] && entry !in kept;
      kept := kept + [entry];
    }
    assert targets[..|targets|] == targets;
  }

  lemma RetainedNone(candidates: seq<Candidate>)
    ensures Retained([], candidates) == []
  {
  }

  /** Dropping is decided entry by entry, and a shorter list is another list. */
  lemma RetainedNext(targets: seq<Target>, t: Target, candidates: seq<Candidate>)
    ensures var before, after := Retained(targets, candidates), Retained(targets + [t], candidates);
            && after == (if Withdrawn(t, candidates) then before else before + [t])
            && (after == targets + [t] <==> before == targets && !Withdrawn(t, candidates))
  {
    assert (targets + [t])[..|targets|] == targets;
    RetainedIsShorter(targets, candidates);
    if !Withdrawn(t, candidates) && Retained(targets + [t], candidates) == targets + [t] {
      assert (Retained(targets, candidates) + [t])[..|Retained(targets, candidates)|] == Retained(targets, candidates);
    }
  }

  lemma {:induction false} RetainedIsShorter(targets: seq<Target>, candidates: seq<Candidate>)
    ensures |Retained(targets, candidates)| <= |targets|
    ensures |Retained(targets, candidates)| == |targets| ==> Retained(targets, candidates) == targets
  {
    if targets != [] {
      RetainedIsShorter(targets[..|targets| - 1], candidates);
    }
  }

  /** The second loop: the index sets of what is left. */
  method BuildIndex(entries: seq<Entry>, ghost targets: seq<Target>, ghost changed: bool)
    returns (byIdentity: map<Identity, Entry>, hosts: set<string>, names: set<string>)
    requires Shows(entries, targets)
    ensures Refers(byIdentity, entries, Indexed(targets, changed))
    ensures hosts == Indexed(targets, changed).hosts && names == Indexed(targets, changed).names
  {
    hide Indexed, Refers, IdentityOf;
    byIdentity, hosts, names := map[], {}, {};
    IndexedNone(changed);
    NothingRefers(entries, changed);
    for i := 0 to |entries|
      invariant Refers(byIdentity, entries[..i], Indexed(targets[..i], changed))
      invariant hosts == Indexed(targets[..i], changed).hosts && names == Indexed(targets[..i], changed).names
    {
      var entry := entries[i];
      var t := entry.Value();
      assert targets[..i + 1] == targets[..i] + [t] && entries[..i + 1] == entries[..i] + [entry];
      IndexedNext(targets[..i], t, changed);
      RefersNext(byIdentity, entries[..i], Indexed(targets[..i], changed), entry, t);
      if t.host != "" {
        hosts := hosts + {t.host};
      }
      if t.name != "" {
        names := names + {t.name};
      }
      var identity := IdentityOf(t);
      if identity.Some? {
        byIdentity := byIdentity[identity.value := entry];
      }
    }
    assert targets[..|targets|] == targets && entries[..|entries|] == entries;
  }

  lemma NothingRefers(entries: seq<Entry>, changed: bool)
    ensures Refers(map[], entries[..0], Indexed([], changed))
  {
  }

  /** One more entry at the end of the list, indexed on both sides. */
  lemma RefersNext(byIdentity: map<Identity, Entry>, entries: seq<Entry>, m: Merge, entry: Entry, t: Target)
    requires Refers(byIdentity, entries, m) && |entries| == |m.targets|
    ensures Refers(if IdentityOf(t).Some? then byIdentity[IdentityOf(t).value := entry] else byIdentity, entries + [entry], Index(m, t))
  {
  }

  lemma IndexedNone(changed: bool)
    ensures Indexed([], changed) == Merge([], map[], {}, {}, [], changed)
  {
  }

  lemma IndexedNext(targets: seq<Target>, t: Target, changed: bool)
    ensures Indexed(targets + [t], changed) == Index(Indexed(targets, changed), t)
  {
    assert (targets + [t])[..|targets|] == targets;
  }

  /** An entry already known keeps its place and at most moves to the candidate's free host. */
  method Relocate(c: Candidate, targets: seq<Entry>, byIdentity: map<Identity, Entry>, hosts: set<string>,
        ghost m: Merge)
    returns (moved: bool, occupied: set<string>)
    requires Shows(targets, m.targets) && Refers(byIdentity, targets, m) && hosts == m.hosts
    requires Key(c) in byIdentity
    modifies byIdentity[Key(c)]
    ensures Shows(targets, Offer(m, c).targets) && Refers(byIdentity, targets, Offer(m, c))
    ensures occupied == Offer(m, c).hosts && Offer(m, c).changed == (m.changed || moved)
    ensures Offer(m, c).names == m.names && Offer(m, c).added == m.added
  {
    var existing := byIdentity[Key(c)];
    ghost var i := m.byIdentity[Key(c)];
    assert existing == targets[i] && existing.Value() == m.targets[i];
    var previous := existing.host;
    moved, occupied := false, hosts;
    if previous != c.host && c.host !in hosts {
      existing.host := c.host;
      occupied := hosts - {previous} + {c.host};
      moved := true;
    }
  }

  /** A new device on a free host becomes a new entry under a name of its own. */
  method Enroll(c: Candidate, targets: seq<Entry>, byIdentity: map<Identity, Entry>, hosts: set<string>,
        names: set<string>, ghost m: Merge)
    returns (entry: Entry, name: string)
    requires Shows(targets, m.targets) && Refers(byIdentity, targets, m) && hosts == m.hosts && names == m.names
    requires Key(c) !in byIdentity && c.host !in hosts
    ensures fresh(entry) && Shows(targets + [entry], Offer(m, c).targets)
    ensures Refers(byIdentity[Key(c) := entry], targets + [entry], Offer(m, c))
    ensures hosts + {c.host} == Offer(m, c).hosts && names + {name} == Offer(m, c).names
    ensures Offer(m, c).changed && Offer(m, c).added == m.added + [name]
  {
    hide FirstFree;
    name := UniqueName(c.name, names);
    entry := new Entry(Added(c, name));
  }

  /** The whole merge, on the entries of the file. */
  method MergeDiscovered(entries: seq<Entry>, candidates: seq<Candidate>, ghost file: seq<Target>)
    returns (targets: seq<Entry>, added: seq<string>, changed: bool)
    requires Shows(entries, file)
    modifies entries
    ensures Shows(targets, MergePass(file, candidates).targets)
    ensures added == MergePass(file, candidates).added && changed == MergePass(file, candidates).changed
  {
    hide Shows, Refers, Retained, Indexed, Offer;
    targets, changed := Prune(entries, candidates, file);
    ghost var kept := Retained(file, candidates);
    ghost var start := Indexed(kept, kept != file);
    StartHasNothing(kept, kept != file);
    var byIdentity, hosts, names := BuildIndex(targets, kept, kept != file);
    added := [];
    ghost var m := start;
    for i := 0 to |candidates|
      invariant m == Offered(start, candidates, i)
      invariant Shows(targets, m.targets) && Refers(byIdentity, targets, m)
      invariant forall e :: e in targets ==> e in entries || fresh(e)
      invariant hosts == m.hosts && names == m.names && added == m.added && changed == m.changed
    {
      var c := candidates[i];
      IndexMirrors(byIdentity, targets, m);
      ghost var before := m;
      m := Offer(m, c);
      if Key(c) in byIdentity {
        assert byIdentity[Key(c)] in targets;
        var moved;
        moved, hosts := Relocate(c, targets, byIdentity, hosts, before);
        changed := changed || moved;
        continue;
      }
      if c.host in hosts {
        NothingOffered(before, c);
        continue;
      }
      var entry, name := Enroll(c, targets, byIdentity, hosts, names, before);
      targets, byIdentity := targets + [entry], byIdentity[Key(c) := entry];
      hosts, names := hosts + {c.host}, names + {name};
      added, changed := added + [name], true;
    }
  }

  lemma IndexMirrors(byIdentity: map<Identity, Entry>, entries: seq<Entry>, m: Merge)
    requires Refers(byIdentity, entries, m)
    ensures byIdentity.Keys == m.byIdentity.Keys && forall id :: id in byIdentity ==> byIdentity[id] in entries
  {
  }

  lemma NothingOffered(m: Merge, c: Candidate)
    requires InRange(m) && Key(c) !in m.byIdentity && c.host in m.hosts
    ensures Offer(m, c) == m
  {
  }

  lemma StartHasNothing(targets: seq<Target>, changed: bool)
    ensures Indexed(targets, changed).added == [] && Indexed(targets, changed).changed == changed
  {
    if targets != [] {
      StartHasNothing(targets[..|targets| - 1], changed);
    }
  }
}
