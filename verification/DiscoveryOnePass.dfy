/** When a single discovery merge is enough: told from the file and the discovery alone. */
module DiscoveryOnePass {
  import opened Ordering
  import opened Names
  import opened Discovery
  import opened DiscoveryTheorems

  /** The entry of a file that a device is found under. */
  function EntryOf(file: seq<Target>, c: Candidate): Option<nat> {
    var index := Indexed(file, false).byIdentity;
    if Key(c) in index then Some(index[Key(c)]) else None
  }

  function OldHost(file: seq<Target>, c: Candidate): Option<string> {
    match EntryOf(file, c)
    case None => None
    case Some(i) => Some(file[i].host)
  }

  /**
   Device j leaves its old host: the one it moves to is free, or given up by a device before it.
   */
  ghost predicate LeavesHost(file: seq<Target>, found: seq<Candidate>, j: nat)
    requires j < |found|
    decreases j, 0
  {
    && OldHost(file, found[j]).Some? && OldHost(file, found[j]).value != found[j].host
    && (!HeldBy(file, found[j].host) || exists k :: 0 <= k < j && Vacates(file, found, k, found[j].host))
  }

  ghost predicate Vacates(file: seq<Target>, found: seq<Candidate>, k: nat, host: string)
    requires k < |found|
    decreases k, 1
  {
    OldHost(file, found[k]) == Some(host) && LeavesHost(file, found, k)
  }

  ghost predicate VacatedBefore(file: seq<Target>, found: seq<Candidate>, n: nat, host: string)
    requires n <= |found|
  {
    exists k :: 0 <= k < n && Vacates(file, found, k, host)
  }

  /** A host that nobody before n was discovered on. */
  ghost predicate Untaken(found: seq<Candidate>, n: nat, host: string)
    requires n <= |found|
  {
    forall k :: 0 <= k < n ==> found[k].host != host
  }

  ghost function At(file: seq<Target>, found: seq<Candidate>, n: nat): (m: Merge)
    requires n <= |found|
    ensures InRange(m)
  {
    Offered(Indexed(file, false), found, n)
  }

  /** The state before offer n, told from the file: later devices are where they were. */
  ghost predicate Foreseen(file: seq<Target>, found: seq<Candidate>, n: nat, m: Merge)
    requires n <= |found|
  {
    && InStep(m)
    && (forall j :: n <= j < |found| ==>
          (Key(found[j]) in m.byIdentity <==> OldHost(file, found[j]).Some?)
          && (Key(found[j]) in m.byIdentity ==> m.targets[m.byIdentity[Key(found[j])]].host == OldHost(file, found[j]).value))
    && (forall h :: h != "" && Untaken(found, n, h) ==> (h in m.hosts <==> HeldBy(file, h) && !VacatedBefore(file, found, n, h)))
  }

  /** The device moves at its offer. */
  predicate MovesAt(m: Merge, c: Candidate)
    requires InRange(m)
  {
    Key(c) in m.byIdentity && m.targets[m.byIdentity[Key(c)]].host != c.host && c.host !in m.hosts
  }

  lemma MovesIffLeaves(file: seq<Target>, found: seq<Candidate>, n: nat, m: Merge)
    requires Distinct(found) && n < |found| && Foreseen(file, found, n, m)
    ensures MovesAt(m, found[n]) <==> LeavesHost(file, found, n)
  {
    assert Proper(found[n]) && Untaken(found, n, found[n].host);
    assert VacatedBefore(file, found, n, found[n].host) <==> exists k :: 0 <= k < n && Vacates(file, found, k, found[n].host);
  }

  lemma VacatedGrows(file: seq<Target>, found: seq<Candidate>, n: nat, host: string)
    requires n < |found|
    ensures VacatedBefore(file, found, n + 1, host) <==> VacatedBefore(file, found, n, host) || Vacates(file, found, n, host)
  {
  }

  /** What an offer does to the hosts and to the devices still to come. */
  lemma OfferKeepsForeseen(file: seq<Target>, found: seq<Candidate>, n: nat, m: Merge)
    requires Distinct(found) && n < |found| && Foreseen(file, found, n, m)
    ensures Foreseen(file, found, n + 1, Offer(m, found[n]))
  {
    hide InStep, Effect, OldHost, HeldBy, VacatedBefore;
    StepIsInRange(m);
    var c := found[n];
    var r := Offer(m, c);
    DistinctAreProper(found, n);
    OfferHasEffect(m, c);
    EffectKeepsStep(m, c, r);
    StepIsInRange(r);
    forall j | n < j < |found|
      ensures Key(found[j]) in r.byIdentity <==> OldHost(file, found[j]).Some?
      ensures Key(found[j]) in r.byIdentity ==> r.targets[r.byIdentity[Key(found[j])]].host == OldHost(file, found[j]).value
    {
      assert Key(found[j]) != Key(c);
      LaterStays(m, c, found[j]);
    }
    forall h | h != "" && Untaken(found, n + 1, h)
      ensures h in r.hosts <==> HeldBy(file, h) && !VacatedBefore(file, found, n + 1, h)
    {
      HostsStayForeseen(file, found, n, m, h);
    }
  }

  lemma HostsStayForeseen(file: seq<Target>, found: seq<Candidate>, n: nat, m: Merge, h: string)
    requires Distinct(found) && n < |found| && Foreseen(file, found, n, m)
    requires h != "" && Untaken(found, n + 1, h)
    ensures h in Offer(m, found[n]).hosts <==> HeldBy(file, h) && !VacatedBefore(file, found, n + 1, h)
  {
    hide InStep, Offer, HeldBy, VacatedBefore, Vacates;
    StepIsInRange(m);
    assert Untaken(found, n, h) && h != found[n].host;
    VacatedGrows(file, found, n, h);
    HostsAfterOffer(m, found[n], h);
    MoverVacates(file, found, n, m, h);
  }

  lemma LaterStays(m: Merge, c: Candidate, d: Candidate)
    requires InStep(m) && Proper(c) && Key(d) != Key(c)
    ensures var r := Offer(m, c);
            && (Key(d) in r.byIdentity <==> Key(d) in m.byIdentity)
            && (Key(d) in m.byIdentity ==> r.byIdentity[Key(d)] < |r.targets| && r.targets[r.byIdentity[Key(d)]] == m.targets[m.byIdentity[Key(d)]])
  {
    OfferHasEffect(m, c);
    if Key(d) in m.byIdentity && Key(c) in m.byIdentity {
      assert IdentityOf(m.targets[m.byIdentity[Key(d)]]) == Some(Key(d));
      assert IdentityOf(m.targets[m.byIdentity[Key(c)]]) == Some(Key(c));
    }
  }

  lemma HostsAfterOffer(m: Merge, c: Candidate, h: string)
    requires InRange(m) && h != c.host
    ensures h in Offer(m, c).hosts <==> h in m.hosts && !(MovesAt(m, c) && m.targets[m.byIdentity[Key(c)]].host == h)
  {
  }

  lemma StartIsForeseen(file: seq<Target>, found: seq<Candidate>)
    requires Tidy(file)
    ensures Foreseen(file, found, 0, Indexed(file, false))
  {
    var m := Indexed(file, false);
    IndexedIsInStep(file, false);
    forall h | h != ""
      ensures h in m.hosts <==> HeldBy(file, h)
    {
      if HeldBy(file, h) {
        var i :| 0 <= i < |file| && file[i].host == h;
        assert file[i] in m.targets;
      }
    }
  }

  lemma {:induction false} EachIsForeseen(file: seq<Target>, found: seq<Candidate>, n: nat)
    requires Tidy(file) && Distinct(found) && n <= |found|
    ensures Foreseen(file, found, n, At(file, found, n))
  {
    hide Foreseen, Tidy, Distinct, Offer, Indexed;
    if n == 0 {
      StartIsForeseen(file, found);
    } else {
      EachIsForeseen(file, found, n - 1);
      OfferKeepsForeseen(file, found, n - 1, At(file, found, n - 1));
    }
  }

  // ----- Hosts over the rest of a pass -----------------------------------------------------------------

  /** A host that device i was refused, and that then became free, is not taken again in this pass. */
  lemma {:induction false} HostStaysFree(file: seq<Target>, found: seq<Candidate>, i: nat, m: nat, n: nat)
    requires Distinct(found) && i < m <= n <= |found|
    requires found[i].host !in At(file, found, m).hosts
    ensures found[i].host !in At(file, found, n).hosts
  {
    hide Indexed, Offer;
    if m < n {
      HostStaysFree(file, found, i, m, n - 1);
      HostsAfterOffer(At(file, found, n - 1), found[n - 1], found[i].host);
    }
  }

  lemma MoverVacates(file: seq<Target>, found: seq<Candidate>, k: nat, m: Merge, host: string)
    requires Distinct(found) && k < |found| && Foreseen(file, found, k, m)
    ensures MovesAt(m, found[k]) && m.targets[m.byIdentity[Key(found[k])]].host == host <==> Vacates(file, found, k, host)
  {
    MovesIffLeaves(file, found, k, m);
  }

  /** A host that device i was refused stays held unless a later device leaves it. */
  lemma {:induction false} HostStaysHeld(file: seq<Target>, found: seq<Candidate>, i: nat, n: nat)
    requires Tidy(file) && Distinct(found) && i < n <= |found|
    requires found[i].host in At(file, found, i).hosts
    requires forall j :: i < j < n ==> !Vacates(file, found, j, found[i].host)
    ensures found[i].host in At(file, found, n).hosts
  {
    hide Indexed, Tidy, Offer, Foreseen, Vacates;
    var k := n - 1;
    var m, c := At(file, found, k), found[k];
    if k == i {
      RefusedIsIdle(m, c);
    } else {
      HostStaysHeld(file, found, i, k);
      EachIsForeseen(file, found, k);
      MoverVacates(file, found, k, m, found[i].host);
      HostsAfterOffer(m, c, found[i].host);
    }
  }

  /** A device that its own offer did not match is not matched by the offers after it. */
  lemma {:induction false} OffersKeepUnmatched(file: seq<Target>, found: seq<Candidate>, i: nat, n: nat)
    requires Tidy(file) && Distinct(found) && i < n <= |found|
    requires !Matched(At(file, found, i + 1).targets, found[i])
    ensures !Matched(At(file, found, n).targets, found[i])
  {
    hide Indexed, Offer, Tidy, Matched;
    if i + 1 < n {
      OffersKeepUnmatched(file, found, i, n - 1);
      EachIsForeseen(file, found, n - 1);
      UnmatchedStays(At(file, found, n - 1), found[n - 1], found[i]);
    }
  }

  lemma UnmatchedStays(m: Merge, c: Candidate, d: Candidate)
    requires InStep(m) && Proper(c) && Key(c) != Key(d) && !Matched(m.targets, d)
    ensures !Matched(Offer(m, c).targets, d)
  {
    OfferHasEffect(m, c);
    var r := Offer(m, c);
    assert Key(c) in m.byIdentity ==> IdentityOf(m.targets[m.byIdentity[Key(c)]]) == Some(Key(c));
    forall i | 0 <= i < |r.targets| && IdentityOf(r.targets[i]) == Some(Key(d))
      ensures r.targets[i].host != d.host
    {
      assert r.targets[i] == m.targets[i];
    }
  }

  // ----- Settled files ------------------------------------------------------------------------------------

  lemma {:induction false} IdleOffers(m: Merge, found: seq<Candidate>, n: nat)
    requires InStep(m) && Distinct(found) && n <= |found|
    requires forall i :: 0 <= i < |found| ==> Matched(m.targets, found[i]) || found[i].host in m.hosts
    ensures Offered(m, found, n) == m
  {
    hide Matched, InStep, IdentityOf;
    StepIsInRange(m);
    if n > 0 {
      IdleOffers(m, found, n - 1);
      MatchedIsIdle(m, found[n - 1]);
    }
  }

  /** Where every device is matched or refused, another pass changes nothing. */
  lemma RefusedEverywhereIsFixed(file: seq<Target>, found: seq<Candidate>)
    requires Tidy(file) && Current(file, found) && Distinct(found)
    requires forall i :: 0 <= i < |found| ==> Matched(file, found[i]) || found[i].host in Indexed(file, false).hosts
    ensures Fixed(file, found)
  {
    NothingWithdrawn(file, found);
    IndexedIsInStep(file, false);
    IdleOffers(Indexed(file, false), found, |found|);
  }

  // ----- Exactly when one pass is enough ----------------------------------------------------------------------

  /** A device wants a host that a device after it gives up. */
  ghost predicate Chained(file: seq<Target>, found: seq<Candidate>, i: nat, j: nat) {
    i < j < |found| && Vacates(file, found, j, found[i].host)
  }

  lemma AtIsInStep(file: seq<Target>, found: seq<Candidate>, n: nat)
    requires Tidy(file) && Distinct(found) && n <= |found|
    ensures InStep(At(file, found, n))
  {
    hide Indexed, Offer, Tidy;
    EachIsForeseen(file, found, n);
  }

  /** At its own offer a device is matched, or finds its host held. */
  lemma OfferedIsMatchedOrRefused(m: Merge, c: Candidate)
    requires InStep(m) && Proper(c)
    ensures Matched(Offer(m, c).targets, c) || (Offer(m, c) == m && c.host in m.hosts)
  {
    OfferHasEffect(m, c);
    EffectIsProgress(m, c, Offer(m, c));
    if Offer(m, c) == m {
      RefusedOrMatched(m, c);
    }
  }

  lemma UnchainedIsSettled(file: seq<Target>, found: seq<Candidate>, i: nat)
    requires Tidy(file) && Distinct(found) && i < |found|
    requires forall j :: !Chained(file, found, i, j)
    ensures Matched(At(file, found, |found|).targets, found[i]) || found[i].host in At(file, found, |found|).hosts
  {
    hide Matched, Tidy, Indexed, Offer, InStep, Vacates;
    AtIsInStep(file, found, i);
    StartInStep(file);
    OfferedIsMatchedOrRefused(At(file, found, i), found[i]);
    if Matched(At(file, found, i + 1).targets, found[i]) {
      OffersKeepMatched(Indexed(file, false), found, i + 1, |found|, i);
    } else {
      forall j | i < j < |found|
        ensures !Vacates(file, found, j, found[i].host)
      {
        assert !Chained(file, found, i, j);
      }
      HostStaysHeld(file, found, i, |found|);
    }
  }

  lemma UnchainedIsFixed(file: seq<Target>, found: seq<Candidate>)
    requires Tidy(file) && Current(file, found) && Distinct(found)
    requires forall i, j :: !Chained(file, found, i, j)
    ensures Fixed(Pass(file, found), found)
  {
    var n := |found|;
    NothingWithdrawn(file, found);
    hide Matched, Tidy, Indexed, Offer, Chained, InStep;
    assert Pass(file, found) == At(file, found, n).targets;
    PassKeepsTidy(file, found);
    AtIsInStep(file, found, n);
    SameHosts(At(file, found, n));
    forall i | 0 <= i < n
      ensures Matched(At(file, found, n).targets, found[i]) || found[i].host in At(file, found, n).hosts
    {
      UnchainedIsSettled(file, found, i);
    }
    RefusedEverywhereIsFixed(Pass(file, found), found);
  }

  lemma StartInStep(file: seq<Target>)
    requires Tidy(file)
    ensures InStep(Indexed(file, false))
  {
    IndexedIsInStep(file, false);
  }

  lemma RefusedOrMatched(m: Merge, c: Candidate)
    requires InStep(m) && Proper(c) && Offer(m, c) == m
    ensures Matched(m.targets, c) || c.host in m.hosts
  {
    if Key(c) in m.byIdentity && m.targets[m.byIdentity[Key(c)]].host == c.host {
      assert IdentityOf(m.targets[m.byIdentity[Key(c)]]) == Some(Key(c));
    }
  }

  /** Indexing the list again gives the hosts that were kept beside it. */
  lemma SameHosts(m: Merge)
    requires InStep(m)
    ensures Indexed(m.targets, false).hosts == m.hosts
  {
    IndexedIsInStep(m.targets, false);
    var again := Indexed(m.targets, false);
    forall h
      ensures h in again.hosts <==> h in m.hosts
    {
      if h in again.hosts {
        var i :| 0 <= i < |m.targets| && m.targets[i].host == h;
        assert m.targets[i] in m.targets;
      }
      if h in m.hosts {
        var i :| 0 <= i < |m.targets| && m.targets[i].host == h;
        assert m.targets[i] in again.targets;
      }
    }
  }

  /** At its offer the earlier device of a chain finds its host held, and stays unmatched. */
  lemma ChainRefuses(file: seq<Target>, found: seq<Candidate>, i: nat, j: nat)
    requires Tidy(file) && Distinct(found) && Chained(file, found, i, j)
    ensures found[i].host in At(file, found, i).hosts && !Matched(At(file, found, i).targets, found[i])
  {
    EachIsForeseen(file, found, i);
    StartInStep(file);
    var m, h := At(file, found, i), found[i].host;
    forall k | 0 <= k < i
      ensures !Vacates(file, found, k, h)
    {
      OneOldHost(file, found[k], found[j], h);
    }
    OldHostIsHeld(file, found[j]);
    assert Proper(found[i]) && Untaken(found, i, h);
    HeldByOne(m, found[i], found[j]);
  }

  /** In a tidy file only one device can have been on a host. */
  lemma OneOldHost(file: seq<Target>, c: Candidate, d: Candidate, host: string)
    requires Tidy(file) && host != ""
    ensures OldHost(file, c) == Some(host) && OldHost(file, d) == Some(host) ==> Key(c) == Key(d)
  {
    hide IdentityOf;
    IndexedIsInStep(file, false);
    var m := Indexed(file, false);
    assert Key(c) in m.byIdentity ==> IdentityOf(file[m.byIdentity[Key(c)]]) == Some(Key(c));
    assert Key(d) in m.byIdentity ==> IdentityOf(file[m.byIdentity[Key(d)]]) == Some(Key(d));
  }

  lemma OldHostIsHeld(file: seq<Target>, c: Candidate)
    requires OldHost(file, c).Some?
    ensures HeldBy(file, OldHost(file, c).value)
  {
  }

  lemma HeldByOne(m: Merge, c: Candidate, d: Candidate)
    requires InStep(m) && Key(d) in m.byIdentity && Key(c) != Key(d)
    requires c.host != "" && m.targets[m.byIdentity[Key(d)]].host == c.host
    ensures !Matched(m.targets, c)
  {
    var at := m.byIdentity[Key(d)];
    assert IdentityOf(m.targets[at]) == Some(Key(d));
    forall x | 0 <= x < |m.targets| && IdentityOf(m.targets[x]) == Some(Key(c))
      ensures m.targets[x].host != c.host
    {
      assert x != at;
    }
  }

  /** The host of a chained device is free at the end, and the device is not on it. */
  lemma ChainedHostIsFreed(file: seq<Target>, found: seq<Candidate>, i: nat, j: nat)
    requires Tidy(file) && Distinct(found) && Chained(file, found, i, j)
    ensures found[i].host !in At(file, found, |found|).hosts
  {
    hide Tidy, Indexed, Offer, Foreseen, Vacates, LeavesHost, InStep, MovesAt;
    ChainIsOrdered(file, found, i, j);
    EachIsForeseen(file, found, j);
    MoverVacates(file, found, j, At(file, found, j), found[i].host);
    HostsAfterOffer(At(file, found, j), found[j], found[i].host);
    HostStaysFree(file, found, i, j + 1, |found|);
  }

  lemma ChainedStaysUnmatched(file: seq<Target>, found: seq<Candidate>, i: nat, j: nat)
    requires Tidy(file) && Distinct(found) && Chained(file, found, i, j)
    ensures !Matched(At(file, found, |found|).targets, found[i])
  {
    hide Matched, Tidy, Indexed, Offer, InStep;
    ChainRefuses(file, found, i, j);
    RefusedIsIdle(At(file, found, i), found[i]);
    OffersKeepUnmatched(file, found, i, |found|);
  }

  lemma ChainedIsNotFixed(file: seq<Target>, found: seq<Candidate>, i: nat, j: nat)
    requires Tidy(file) && Current(file, found) && Distinct(found) && Chained(file, found, i, j)
    ensures !Fixed(Pass(file, found), found)
  {
    NothingWithdrawn(file, found);
    hide Matched, Tidy, Indexed, Offer, InStep;
    assert Pass(file, found) == At(file, found, |found|).targets;
    PassKeepsTidy(file, found);
    ChainedHostIsFreed(file, found, i, j);
    ChainedStaysUnmatched(file, found, i, j);
    AtIsInStep(file, found, |found|);
    HeldIsIndexed(At(file, found, |found|), found[i]);
    if Fixed(Pass(file, found), found) {
      OpenMeansHeld(Pass(file, found), found, i);
    }
  }

  lemma ChainIsOrdered(file: seq<Target>, found: seq<Candidate>, i: nat, j: nat)
    requires Distinct(found) && Chained(file, found, i, j)
    ensures i < j < |found| && found[i].host != found[j].host && Vacates(file, found, j, found[i].host)
  {
  }

  lemma RefusedIsIdle(m: Merge, c: Candidate)
    requires InRange(m) && c.host in m.hosts
    ensures Offer(m, c) == m
  {
  }

  lemma HeldIsIndexed(m: Merge, c: Candidate)
    requires InStep(m) && Proper(c) && c.host !in m.hosts
    ensures !HeldByAnother(m.targets, c)
  {
  }

  /**
   One pass over a current file settles it exactly if no device was discovered on a host that a
   device further down the list gives up.
   */
  lemma OnePassSufficesIff(file: seq<Target>, found: seq<Candidate>)
    requires Tidy(file) && Current(file, found) && Distinct(found)
    ensures Fixed(Pass(file, found), found) <==> forall i, j :: !Chained(file, found, i, j)
  {
    hide Fixed, Chained, Tidy, Current, Distinct;
    if i, j :| Chained(file, found, i, j) {
      ChainedIsNotFixed(file, found, i, j);
    } else {
      UnchainedIsFixed(file, found);
    }
  }
}
