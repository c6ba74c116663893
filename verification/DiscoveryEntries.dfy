/**
 Which entries of the target file a merge keeps, under what it finds them again, and what it
 writes for a new device: said in the fields of entries and candidates.
 */
module DiscoveryEntries {
  import opened Ordering
  import opened Names
  import opened Discovery

  /** What a candidate is known by: a lease by its MAC address, anything else by its name. */
  function ReportedId(c: Candidate): string {
    if c.source == DhcpLease then c.mac else c.name
  }

  /** What an entry is known by: the same, with the name it was discovered under before the one it has. */
  function FiledId(t: Target): string {
    if t.source == DhcpLease then t.mac else if t.discovery == "" then t.name else t.discovery
  }

  predicate SaysSomething(c: Candidate) {
    c.source != Operator("") && ReportedId(c) != ""
  }

  /** Its source has reported devices, and not this one. */
  ghost predicate GivenUp(t: Target, candidates: seq<Candidate>) {
    && FiledId(t) != ""
    && (exists c :: c in candidates && c.source == t.source && SaysSomething(c))
    && forall c :: c in candidates && c.source == t.source ==> ReportedId(c) != FiledId(t)
  }

  /** The entries that are not given up, in their order. */
  ghost function Kept(targets: seq<Target>, candidates: seq<Candidate>): seq<Target> {
    if targets == [] then []
    else
      var n := |targets| - 1;
      Kept(targets[..n], candidates) + if GivenUp(targets[n], candidates) then [] else [targets[n]]
  }

  lemma WithdrawnIffGivenUp(t: Target, candidates: seq<Candidate>)
    ensures Withdrawn(t, candidates) <==> GivenUp(t, candidates)
  {
    assert t.source in Sources(candidates) <==> exists c :: c in candidates && c.source == t.source && SaysSomething(c);
    if c :| c in candidates && c.source == t.source && ReportedId(c) == FiledId(t) && FiledId(t) != "" && t.source != Operator("") {
      assert Named(c) && Key(c) == PruneKey(t);
    }
    if PruneKey(t) in Keys(candidates) {
      var c :| c in candidates && Named(c) && Key(c) == PruneKey(t);
      assert c.source == t.source && ReportedId(c) == FiledId(t);
    }
  }

  /** A merge first drops the entries that their own source has given up, and no others. */
  lemma {:induction false} RetainedIsExact(targets: seq<Target>, candidates: seq<Candidate>)
    ensures Retained(targets, candidates) == Kept(targets, candidates)
  {
    hide Withdrawn, GivenUp;
    if targets != [] {
      RetainedIsExact(targets[..|targets| - 1], candidates);
      WithdrawnIffGivenUp(targets[|targets| - 1], candidates);
    }
  }

  /** An entry of the operator's own, without a source, is never dropped. */
  lemma {:induction false} OperatorsEntryStays(targets: seq<Target>, candidates: seq<Candidate>, t: Target)
    requires t in targets && t.source == Operator("")
    ensures t in Retained(targets, candidates)
  {
    var n := |targets| - 1;
    assert targets == targets[..n] + [targets[n]];
    if t in targets[..n] {
      OperatorsEntryStays(targets[..n], candidates, t);
    } else {
      WithdrawnIffGivenUp(t, candidates);
    }
  }

  // ----- The index --------------------------------------------------------------------------------------

  /** A discovered entry is found again under its MAC address, or under the name of its device. */
  predicate FoundUnder(t: Target, id: Identity) {
    || (t.source == DhcpLease && t.mac != "" && id == Identity(DhcpLease, t.mac))
    || (t.source == Inspect && t.name != "" && id == Identity(Inspect, if t.discovery == "" then t.name else t.discovery))
  }

  ghost predicate LastUnder(targets: seq<Target>, id: Identity, i: nat) {
    i < |targets| && FoundUnder(targets[i], id) && forall j :: i < j < |targets| ==> !FoundUnder(targets[j], id)
  }

  /** The index holds the last entry of each identity, and the hosts and names that are in use. */
  ghost predicate IndexIsExact(m: Merge) {
    && (forall id, i: nat :: (id in m.byIdentity && m.byIdentity[id] == i) <==> LastUnder(m.targets, id, i))
    && (forall host :: host in m.hosts <==> host != "" && exists i :: 0 <= i < |m.targets| && m.targets[i].host == host)
    && (forall name :: name in m.names <==> name != "" && exists i :: 0 <= i < |m.targets| && m.targets[i].name == name)
  }

  lemma IdentityIffFound(t: Target, id: Identity)
    ensures IdentityOf(t) == Some(id) <==> FoundUnder(t, id)
  {
  }

  lemma IndexKeepsExact(m: Merge, t: Target)
    requires IndexIsExact(m)
    ensures IndexIsExact(Index(m, t))
  {
    hide IdentityOf, FoundUnder;
    var n := Index(m, t);
    forall id, i: nat
      ensures (id in n.byIdentity && n.byIdentity[id] == i) <==> LastUnder(n.targets, id, i)
    {
      IdentityIffFound(t, id);
      assert n.targets[|m.targets|] == t && (i < |m.targets| ==> n.targets[i] == m.targets[i]);
      LastUnderGrows(m.targets, t, id, i);
    }
    NamesGrow(m, t);
  }

  lemma LastUnderGrows(targets: seq<Target>, t: Target, id: Identity, i: nat)
    ensures LastUnder(targets + [t], id, i) <==> if FoundUnder(t, id) then i == |targets| else LastUnder(targets, id, i)
  {
    hide FoundUnder;
    var more := targets + [t];
    assert more[|targets|] == t;
    assert forall j :: 0 <= j < |targets| ==> more[j] == targets[j];
  }

  lemma NamesGrow(m: Merge, t: Target)
    requires IndexIsExact(m)
    ensures var n := Index(m, t);
            && (forall host :: host in n.hosts <==> host != "" && exists i :: 0 <= i < |n.targets| && n.targets[i].host == host)
            && (forall name :: name in n.names <==> name != "" && exists i :: 0 <= i < |n.targets| && n.targets[i].name == name)
  {
    hide IdentityOf;
    var n := Index(m, t);
    assert n.targets[|m.targets|] == t;
    forall i | 0 <= i < |m.targets|
      ensures n.targets[i] == m.targets[i]
    {
    }
  }

  lemma {:induction false} IndexedIsExact(targets: seq<Target>, changed: bool)
    ensures IndexIsExact(Indexed(targets, changed))
  {
    hide IndexIsExact, Index;
    if targets == [] {
      NothingIsExact(changed);
    } else {
      IndexedIsExact(targets[..|targets| - 1], changed);
      IndexKeepsExact(Indexed(targets[..|targets| - 1], changed), targets[|targets| - 1]);
    }
  }

  lemma NothingIsExact(changed: bool)
    ensures IndexIsExact(Indexed([], changed))
  {
  }

  // ----- One candidate ----------------------------------------------------------------------------------

  /**
   A device that is known moves to the host it is reported at, if that is free; an unknown one gets
   an entry if its host is free, under a name that is; and nothing else changes.
   */
  lemma OfferOutcome(m: Merge, c: Candidate)
    requires InRange(m)
    ensures var n, id := Offer(m, c), Identity(c.source, ReportedId(c));
            if id in m.byIdentity then
              var i := m.byIdentity[id];
              var was := m.targets[i];
              if was.host != c.host && c.host !in m.hosts then
                n == m.(targets := m.targets[i := Target(was.name, c.host, was.source, was.mac, was.discovery, was.settings)],
                        hosts := (m.hosts - {was.host}) + {c.host}, changed := true)
              else n == m
            else if c.host in m.hosts then n == m
            else
              && |n.targets| == |m.targets| + 1 && n.targets[..|m.targets|] == m.targets
              && n.targets[|m.targets|] == Target(n.targets[|m.targets|].name, c.host, c.source, c.mac,
                                                  if c.source == Inspect then c.name else "", c.settings)
              && FirstFree(c.name, m.names, n.targets[|m.targets|].name)
              && n == Merge(n.targets, m.byIdentity[id := |m.targets|], m.hosts + {c.host},
                            m.names + {n.targets[|m.targets|].name}, m.added + [n.targets[|m.targets|].name], true)
  {
    hide FirstFree;
  }

  /** A new entry will be found again by the next merge, under the identity of its device. */
  lemma NewEntryIsFoundAgain(c: Candidate, name: string)
    requires SaysSomething(c) && (c.source == DhcpLease || c.source == Inspect) && name != ""
    ensures FoundUnder(Added(c, name), Identity(c.source, ReportedId(c))) && FiledId(Added(c, name)) == ReportedId(c)
  {
  }

  // ----- The names of new entries -----------------------------------------------------------------------

  /** The new entries, from `first` on: their names are reported in order, and are their own. */
  ghost predicate NamedApart(m: Merge, first: nat) {
    && first <= |m.targets| && |m.added| == |m.targets| - first
    && (forall i :: first <= i < |m.targets| ==> m.targets[i].name == m.added[i - first])
    && (forall i :: 0 <= i < |m.targets| ==> m.targets[i].name == "" || m.targets[i].name in m.names)
    && (forall i, j :: 0 <= i < j < |m.targets| && first <= j ==> m.targets[j].name == "" || m.targets[i].name != m.targets[j].name)
  }

  lemma OfferKeepsApart(m: Merge, c: Candidate, first: nat)
    requires InRange(m) && NamedApart(m, first)
    ensures NamedApart(Offer(m, c), first)
  {
    hide FirstFree;
    OfferOutcome(m, c);
    FreeIsNew(c.name, m.names);
  }

  lemma FreeIsNew(base: string, names: set<string>)
    ensures forall name :: FirstFree(base, names, name) ==> name !in names
  {
  }

  lemma {:induction false} OffersKeepApart(m: Merge, candidates: seq<Candidate>, n: nat)
    requires InRange(m) && n <= |candidates| && NamedApart(m, |m.targets|)
    ensures NamedApart(Offered(m, candidates, n), |m.targets|)
  {
    hide Offer, NamedApart;
    if n > 0 {
      OffersKeepApart(m, candidates, n - 1);
      OfferKeepsApart(Offered(m, candidates, n - 1), candidates[n - 1], |m.targets|);
    }
  }

  /**
   A merge keeps the entries that are not given up, in their places, and adds new ones behind them:
   it reports their names, and no new name is the name of another entry.
   */
  lemma NewNamesAreTheirOwn(targets: seq<Target>, candidates: seq<Candidate>)
    ensures NamedApart(MergePass(targets, candidates), |Kept(targets, candidates)|)
  {
    hide Indexed, Offer, NamedApart;
    RetainedIsExact(targets, candidates);
    var kept := Retained(targets, candidates);
    var m := Indexed(kept, kept != targets);
    StartHasNothing(kept, kept != targets);
    IndexedIsExact(kept, kept != targets);
    StartIsApart(m);
    OffersKeepApart(m, candidates, |candidates|);
  }

  lemma StartIsApart(m: Merge)
    requires IndexIsExact(m) && m.added == []
    ensures NamedApart(m, |m.targets|)
  {
  }
}
