/** Repeated discovery merges: what one pass keeps, that they converge, and what stays open. */
module DiscoveryTheorems {
  import opened Ordering
  import opened Names
  import opened Discovery

  // ----- Tidy files -------------------------------------------------------------------------------

  ghost predicate Tidy(targets: seq<Target>) {
    && (forall i, j :: 0 <= i < j < |targets| && targets[i].host != "" ==> targets[i].host != targets[j].host)
    && (forall i, j :: 0 <= i < j < |targets| && IdentityOf(targets[i]).Some? ==> IdentityOf(targets[i]) != IdentityOf(targets[j]))
  }

  predicate Proper(c: Candidate) {
    Named(c) && c.host != "" && (c.source == DhcpLease || c.source == Inspect)
  }

  /**
   A discovery of distinct devices on distinct hosts.  The parser of inspections sees to distinct
   devices itself; leases are taken as they are listed, so for them this is an assumption.
   */
  ghost predicate Distinct(candidates: seq<Candidate>) {
    && (forall i :: 0 <= i < |candidates| ==> Proper(candidates[i]))
    && (forall i, j :: 0 <= i < j < |candidates| ==>
          Key(candidates[i]) != Key(candidates[j]) && candidates[i].host != candidates[j].host)
  }

  /** The index sets say exactly what the list says. */
  ghost predicate InStep(m: Merge) {
    && InRange(m) && Tidy(m.targets)
    && (forall id :: id in m.byIdentity ==> IdentityOf(m.targets[m.byIdentity[id]]) == Some(id))
    && (forall t :: t in m.targets && IdentityOf(t).Some? ==> IdentityOf(t).value in m.byIdentity)
    && (forall t :: t in m.targets && t.host != "" ==> t.host in m.hosts)
    && (forall h :: h in m.hosts ==> h != "" && HeldBy(m.targets, h))
  }

  ghost predicate HeldBy(targets: seq<Target>, host: string) {
    exists i :: 0 <= i < |targets| && targets[i].host == host
  }

  lemma {:induction false} IndexedIsInStep(targets: seq<Target>, changed: bool)
    requires Tidy(targets)
    ensures InStep(Indexed(targets, changed))
  {
    if targets != [] {
      var n := |targets| - 1;
      IndexedIsInStep(targets[..n], changed);
      var m := Indexed(targets[..n], changed);
      IndexKeepsStep(m, targets[n], targets);
    }
  }

  lemma IndexKeepsStep(m: Merge, t: Target, all: seq<Target>)
    requires InStep(m) && all == m.targets + [t] && Tidy(all)
    ensures InStep(Index(m, t))
  {
    var r := Index(m, t);
    assert all[|m.targets|] == t;
    forall h | h in r.hosts
      ensures h != "" && HeldBy(r.targets, h)
    {
      if h in m.hosts {
        assert HeldBy(m.targets, h);
        var i :| 0 <= i < |m.targets| && m.targets[i].host == h;
        assert r.targets[i].host == h;
      } else {
        assert r.targets[|m.targets|].host == h;
      }
    }
  }

  // ----- One candidate ------------------------------------------------------------------------------

  /** The device is in the file, on the host it was discovered on. */
  ghost predicate Matched(targets: seq<Target>, c: Candidate) {
    exists i :: 0 <= i < |targets| && IdentityOf(targets[i]) == Some(Key(c)) && targets[i].host == c.host
  }

  lemma AddedIsFound(c: Candidate, name: string)
    requires Proper(c) && (name == c.name || exists k: nat :: name == Suffixed(c.name, k))
    ensures IdentityOf(Added(c, name)) == Some(Key(c)) && PruneKey(Added(c, name)) == Key(c)
  {
    if name != c.name {
      var k: nat :| name == Suffixed(c.name, k);
      assert |name| > 0;
    }
  }

  /** The list after a candidate: as it was, with one entry moved, or with one more. */
  ghost predicate Effect(m: Merge, c: Candidate, r: Merge)
    requires InRange(m)
  {
    || r == m
    || (&& Key(c) in m.byIdentity
        && var i := m.byIdentity[Key(c)];
           && m.targets[i].host != c.host && c.host !in m.hosts
           && r.targets == m.targets[i := m.targets[i].(host := c.host)]
           && r.hosts == m.hosts - {m.targets[i].host} + {c.host} && r.byIdentity == m.byIdentity && r.changed)
    || (&& Key(c) !in m.byIdentity && c.host !in m.hosts && r.hosts == m.hosts + {c.host} && r.changed
        && exists t :: r.targets == m.targets + [t] && IdentityOf(t) == Some(Key(c)) && PruneKey(t) == Key(c) && t.host == c.host
                       && r.byIdentity == m.byIdentity[Key(c) := |m.targets|])
  }

  lemma OfferHasEffect(m: Merge, c: Candidate)
    requires InRange(m) && Proper(c)
    ensures Effect(m, c, Offer(m, c))
  {
    if Key(c) !in m.byIdentity && c.host !in m.hosts {
      AddedIsFound(c, Free(c.name, m.names));
      var t := Added(c, Free(c.name, m.names));
      assert Offer(m, c).targets == m.targets + [t];
    }
  }

  lemma HostsStayExact(m: Merge, r: Merge, host: string, k: nat)
    requires InStep(m) && k < |r.targets| && r.targets[k].host == host != ""
    requires |m.targets| <= |r.targets| && forall j :: 0 <= j < |m.targets| && j != k ==> r.targets[j] == m.targets[j]
    requires r.hosts == (if k < |m.targets| then m.hosts - {m.targets[k].host} else m.hosts) + {host}
    ensures forall h :: h in r.hosts ==> h != "" && HeldBy(r.targets, h)
  {
    forall h | h in r.hosts
      ensures h != "" && HeldBy(r.targets, h)
    {
      if h != host {
        assert HeldBy(m.targets, h);
        var j :| 0 <= j < |m.targets| && m.targets[j].host == h;
        assert r.targets[j].host == h;
      }
    }
  }

  lemma MoveKeepsStep(m: Merge, c: Candidate, r: Merge, i: nat)
    requires InStep(m) && c.host != "" && i < |m.targets| && c.host !in m.hosts
    requires r.targets == m.targets[i := m.targets[i].(host := c.host)] && r.byIdentity == m.byIdentity
    requires r.hosts == m.hosts - {m.targets[i].host} + {c.host}
    ensures InStep(r)
  {
    HostsStayExact(m, r, c.host, i);
    forall j | 0 <= j < |m.targets|
      ensures m.targets[j].host != c.host && IdentityOf(r.targets[j]) == IdentityOf(m.targets[j])
    {
      assert m.targets[j] in m.targets;
    }
    forall t | t in r.targets
      ensures IdentityOf(t).Some? ==> IdentityOf(t).value in r.byIdentity
      ensures t.host != "" ==> t.host in r.hosts
    {
      var j :| 0 <= j < |r.targets| && r.targets[j] == t;
      assert m.targets[j] in m.targets;
    }
  }

  lemma AddKeepsStep(m: Merge, c: Candidate, r: Merge, t: Target)
    requires InStep(m) && c.host != "" && c.host !in m.hosts && Key(c) !in m.byIdentity
    requires r.targets == m.targets + [t] && IdentityOf(t) == Some(Key(c)) && t.host == c.host
    requires r.hosts == m.hosts + {c.host} && r.byIdentity == m.byIdentity[Key(c) := |m.targets|]
    ensures InStep(r)
  {
    hide IdentityOf, Tidy, HeldBy;
    HostsStayExact(m, r, c.host, |m.targets|);
    OthersDiffer(m, c);
    StaysTidy(m.targets, t);
  }

  lemma OthersDiffer(m: Merge, c: Candidate)
    requires InStep(m) && c.host != "" && c.host !in m.hosts && Key(c) !in m.byIdentity
    ensures Tidy(m.targets)
    ensures forall j :: 0 <= j < |m.targets| ==> m.targets[j].host != c.host && IdentityOf(m.targets[j]) != Some(Key(c))
  {
    hide IdentityOf, Tidy, HeldBy;
    forall j | 0 <= j < |m.targets|
      ensures m.targets[j].host != c.host && IdentityOf(m.targets[j]) != Some(Key(c))
    {
      assert m.targets[j] in m.targets;
    }
  }

  lemma StaysTidy(targets: seq<Target>, t: Target)
    requires Tidy(targets)
    requires forall j :: 0 <= j < |targets| ==> targets[j].host != t.host && IdentityOf(targets[j]) != IdentityOf(t)
    ensures Tidy(targets + [t])
  {
    hide IdentityOf;
  }

  lemma EffectKeepsStep(m: Merge, c: Candidate, r: Merge)
    requires InStep(m) && Proper(c) && Effect(m, c, r)
    ensures InStep(r)
  {
    hide InStep;
    if r != m {
      assert InRange(m) by {
        StepIsInRange(m);
      }
      if Key(c) in m.byIdentity {
        MoveKeepsStep(m, c, r, m.byIdentity[Key(c)]);
      } else {
        var t :| r.targets == m.targets + [t] && IdentityOf(t) == Some(Key(c)) && PruneKey(t) == Key(c) && t.host == c.host
                 && r.byIdentity == m.byIdentity[Key(c) := |m.targets|];
        AddKeepsStep(m, c, r, t);
      }
    }
  }

  lemma StepIsInRange(m: Merge)
    requires InStep(m)
    ensures InRange(m)
  {
  }

  /** A device that is matched stays matched, whatever other device is offered. */
  lemma EffectKeepsMatched(m: Merge, c: Candidate, r: Merge, d: Candidate)
    requires InStep(m) && Effect(m, c, r) && Matched(m.targets, d) && (Key(c) == Key(d) ==> c == d)
    ensures Matched(r.targets, d)
  {
    var i :| 0 <= i < |m.targets| && IdentityOf(m.targets[i]) == Some(Key(d)) && m.targets[i].host == d.host;
    assert m.targets[i] in m.targets;
    if r != m && Key(c) in m.byIdentity {
      assert m.byIdentity[Key(c)] != i;
    }
    assert r.targets[i] == m.targets[i];
  }

  /** A change is progress; without one the device is matched, or its host is somebody else's. */
  lemma EffectIsProgress(m: Merge, c: Candidate, r: Merge)
    requires InStep(m) && Effect(m, c, r)
    ensures r != m ==> Matched(r.targets, c) && !Matched(m.targets, c) && r.changed
  {
    if r != m {
      if Key(c) in m.byIdentity {
        var i := m.byIdentity[Key(c)];
        assert r.targets[i].host == c.host && IdentityOf(r.targets[i]) == Some(Key(c));
      } else {
        assert IdentityOf(r.targets[|m.targets|]) == Some(Key(c));
      }
    }
    MatchedIsIdle(m, c);
  }

  lemma MatchedIsIdle(m: Merge, c: Candidate)
    requires InStep(m)
    ensures Matched(m.targets, c) ==> Key(c) in m.byIdentity && m.targets[m.byIdentity[Key(c)]].host == c.host
  {
    if j :| 0 <= j < |m.targets| && IdentityOf(m.targets[j]) == Some(Key(c)) && m.targets[j].host == c.host {
      assert m.targets[j] in m.targets;
    }
  }

  ghost predicate HeldByAnother(targets: seq<Target>, c: Candidate) {
    exists i :: 0 <= i < |targets| && targets[i].host == c.host && IdentityOf(targets[i]) != Some(Key(c))
  }

  lemma IdleIsExplained(m: Merge, c: Candidate)
    requires InStep(m) && Proper(c) && Offer(m, c) == m
    ensures Matched(m.targets, c) || HeldByAnother(m.targets, c)
  {
    if Key(c) in m.byIdentity && m.targets[m.byIdentity[Key(c)]].host == c.host {
      assert IdentityOf(m.targets[m.byIdentity[Key(c)]]) == Some(Key(c));
    } else {
      assert c.host in m.hosts;
      var i :| 0 <= i < |m.targets| && m.targets[i].host == c.host;
      assert m.targets[i] in m.targets;
    }
  }

  // ----- One pass ----------------------------------------------------------------------------------

  lemma {:induction false} OffersKeepStep(m: Merge, candidates: seq<Candidate>, n: nat)
    requires InStep(m) && Distinct(candidates) && n <= |candidates|
    ensures InStep(Offered(m, candidates, n))
  {
    hide Offer, InStep, Effect;
    StepIsInRange(m);
    if n > 0 {
      OffersKeepStep(m, candidates, n - 1);
      var before := Offered(m, candidates, n - 1);
      StepIsInRange(before);
      OfferHasEffect(before, candidates[n - 1]);
      EffectKeepsStep(before, candidates[n - 1], Offer(before, candidates[n - 1]));
    }
  }

  /** Between two points of a pass no device is lost. */
  lemma {:induction false} OffersKeepMatched(m: Merge, candidates: seq<Candidate>, k: nat, n: nat, i: nat)
    requires InStep(m) && Distinct(candidates) && k <= n <= |candidates| && i < |candidates|
    requires Matched(Offered(m, candidates, k).targets, candidates[i])
    ensures Matched(Offered(m, candidates, n).targets, candidates[i])
  {
    hide Offer, Effect, Matched, InStep;
    StepIsInRange(m);
    if k < n {
      OffersKeepMatched(m, candidates, k, n - 1, i);
      OffersKeepStep(m, candidates, n - 1);
      var before, c := Offered(m, candidates, n - 1), candidates[n - 1];
      StepIsInRange(before);
      OfferHasEffect(before, c);
      SameKeySameCandidate(candidates, i, n - 1);
      EffectKeepsMatched(before, c, Offer(before, c), candidates[i]);
    }
  }

  lemma SameKeySameCandidate(candidates: seq<Candidate>, i: nat, j: nat)
    requires Distinct(candidates) && i < |candidates| && j < |candidates|
    ensures Key(candidates[i]) == Key(candidates[j]) ==> candidates[i] == candidates[j]
  {
  }

  /** If the offers changed anything, they matched a device that was not matched before. */
  lemma {:induction false} ChangeMatches(m: Merge, candidates: seq<Candidate>, n: nat) returns (k: nat)
    requires InStep(m) && Distinct(candidates) && n <= |candidates| && Offered(m, candidates, n) != m
    ensures k < n && !Matched(m.targets, candidates[k]) && Matched(Offered(m, candidates, n).targets, candidates[k])
    ensures Offered(m, candidates, n).changed
  {
    hide Offer, Effect, Matched, InStep;
    StepIsInRange(m);
    var before, c := Offered(m, candidates, n - 1), candidates[n - 1];
    OffersKeepStep(m, candidates, n - 1);
    StepIsInRange(before);
    OfferHasEffect(before, c);
    EffectIsProgress(before, c, Offer(before, c));
    if before != m {
      k := ChangeMatches(m, candidates, n - 1);
      OffersKeepMatched(m, candidates, n - 1, n, k);
      ChangedStays(before, c);
    } else {
      k := n - 1;
    }
  }

  lemma ChangedStays(m: Merge, c: Candidate)
    requires InRange(m) && m.changed
    ensures Offer(m, c).changed
  {
  }

  // ----- Pruning -----------------------------------------------------------------------------------

  lemma {:induction false} RetainedExact(targets: seq<Target>, candidates: seq<Candidate>, t: Target)
    ensures t in Retained(targets, candidates) <==> t in targets && !Withdrawn(t, candidates)
  {
    if targets != [] {
      var n := |targets| - 1;
      assert targets == targets[..n] + [targets[n]];
      RetainedExact(targets[..n], candidates, t);
    }
  }

  lemma {:induction false} RetainedIsTidy(targets: seq<Target>, candidates: seq<Candidate>)
    requires Tidy(targets)
    ensures Tidy(Retained(targets, candidates))
  {
    hide Withdrawn, IdentityOf;
    if targets != [] {
      var n := |targets| - 1;
      var front, last := targets[..n], targets[n];
      assert Tidy(front);
      RetainedIsTidy(front, candidates);
      forall i | 0 <= i < |Retained(front, candidates)|
        ensures Retained(front, candidates)[i] in front
      {
        RetainedExact(front, candidates, Retained(front, candidates)[i]);
      }
    }
  }

  lemma {:induction false} NothingWithdrawn(targets: seq<Target>, candidates: seq<Candidate>)
    requires forall t :: t in targets ==> !Withdrawn(t, candidates)
    ensures Retained(targets, candidates) == targets
  {
    if targets != [] {
      NothingWithdrawn(targets[..|targets| - 1], candidates);
    }
  }

  lemma PruningKeepsMatched(targets: seq<Target>, candidates: seq<Candidate>, i: nat)
    requires Distinct(candidates) && i < |candidates| && Matched(targets, candidates[i])
    ensures Matched(Retained(targets, candidates), candidates[i])
  {
    var c := candidates[i];
    var j :| 0 <= j < |targets| && IdentityOf(targets[j]) == Some(Key(c)) && targets[j].host == c.host;
    assert c in candidates && Proper(c) && PruneKey(targets[j]) == Key(c);
    RetainedExact(targets, candidates, targets[j]);
  }

  /** After a pass no entry is one that its discovery no longer reports. */
  lemma {:induction false} OffersStayCurrent(m: Merge, candidates: seq<Candidate>, n: nat)
    requires InStep(m) && Distinct(candidates) && n <= |candidates|
    requires forall t :: t in m.targets ==> !Withdrawn(t, candidates)
    ensures forall t :: t in Offered(m, candidates, n).targets ==> !Withdrawn(t, candidates)
  {
    hide Offer, InStep, Effect, Withdrawn, Proper;
    StepIsInRange(m);
    if n > 0 {
      OffersStayCurrent(m, candidates, n - 1);
      OffersKeepStep(m, candidates, n - 1);
      var before, c := Offered(m, candidates, n - 1), candidates[n - 1];
      StepIsInRange(before);
      DistinctAreProper(candidates, n - 1);
      OfferHasEffect(before, c);
      EffectStaysCurrent(before, c, Offer(before, c), candidates);
    }
  }

  lemma DistinctAreProper(candidates: seq<Candidate>, i: nat)
    requires Distinct(candidates) && i < |candidates|
    ensures Proper(candidates[i])
  {
  }

  lemma EffectStaysCurrent(m: Merge, c: Candidate, r: Merge, candidates: seq<Candidate>)
    requires InRange(m) && Effect(m, c, r) && Proper(c) && c in candidates
    requires forall t :: t in m.targets ==> !Withdrawn(t, candidates)
    ensures forall t :: t in r.targets ==> !Withdrawn(t, candidates)
  {
    forall j | 0 <= j < |r.targets|
      ensures !Withdrawn(r.targets[j], candidates)
    {
      if j < |m.targets| {
        assert m.targets[j] in m.targets && PruneKey(r.targets[j]) == PruneKey(m.targets[j]);
      } else {
        assert PruneKey(r.targets[j]) == Key(c);
      }
    }
  }

  // ----- The promises of one pass --------------------------------------------------------------------

  ghost function Pass(targets: seq<Target>, candidates: seq<Candidate>): seq<Target> {
    MergePass(targets, candidates).targets
  }

  ghost predicate Current(targets: seq<Target>, candidates: seq<Candidate>) {
    forall t :: t in targets ==> !Withdrawn(t, candidates)
  }

  lemma PassKeepsTidy(targets: seq<Target>, candidates: seq<Candidate>)
    requires Tidy(targets) && Distinct(candidates)
    ensures Tidy(Pass(targets, candidates)) && Current(Pass(targets, candidates), candidates)
    ensures InStep(MergePass(targets, candidates))
  {
    var kept := Retained(targets, candidates);
    var start := Indexed(kept, kept != targets);
    RetainedIsTidy(targets, candidates);
    IndexedIsInStep(kept, kept != targets);
    OffersKeepStep(start, candidates, |candidates|);
    forall t | t in kept
      ensures !Withdrawn(t, candidates)
    {
      RetainedExact(targets, candidates, t);
    }
    OffersStayCurrent(start, candidates, |candidates|);
  }

  /** A matched device stays matched from one pass to the next. */
  lemma PassKeepsMatched(targets: seq<Target>, candidates: seq<Candidate>, i: nat)
    requires Tidy(targets) && Distinct(candidates) && i < |candidates| && Matched(targets, candidates[i])
    ensures Matched(Pass(targets, candidates), candidates[i])
  {
    hide Matched;
    var kept := Retained(targets, candidates);
    RetainedIsTidy(targets, candidates);
    IndexedIsInStep(kept, kept != targets);
    PruningKeepsMatched(targets, candidates, i);
    OffersKeepMatched(Indexed(kept, kept != targets), candidates, 0, |candidates|, i);
  }

  /** A pass over a current file that changes it matches one device more. */
  lemma PassMatchesMore(targets: seq<Target>, candidates: seq<Candidate>) returns (k: nat)
    requires Tidy(targets) && Current(targets, candidates) && Distinct(candidates) && Pass(targets, candidates) != targets
    ensures k < |candidates| && !Matched(targets, candidates[k]) && Matched(Pass(targets, candidates), candidates[k])
  {
    hide Matched;
    NothingWithdrawn(targets, candidates);
    IndexedIsInStep(targets, false);
    k := ChangeMatches(Indexed(targets, false), candidates, |candidates|);
  }

  /** The file is rewritten exactly when its content changes. */
  lemma WrittenIffChanged(targets: seq<Target>, candidates: seq<Candidate>)
    requires Tidy(targets) && Distinct(candidates)
    ensures MergePass(targets, candidates).changed <==> Pass(targets, candidates) != targets
  {
    var kept := Retained(targets, candidates);
    var start := Indexed(kept, kept != targets);
    RetainedIsTidy(targets, candidates);
    IndexedIsInStep(kept, kept != targets);
    StartHasNothing(kept, kept != targets);
    PassKeepsTidy(targets, candidates);
    if kept != targets {
      if t :| t in targets && Withdrawn(t, candidates) {
        assert t !in Pass(targets, candidates);
      } else {
        NothingWithdrawn(targets, candidates);
      }
    }
    if Offered(start, candidates, |candidates|) != start {
      var k := ChangeMatches(start, candidates, |candidates|);
    }
  }

  // ----- Convergence ---------------------------------------------------------------------------------

  /** The file after n passes over the same discovery. */
  ghost function Passes(targets: seq<Target>, candidates: seq<Candidate>, n: nat): seq<Target> {
    if n == 0 then targets else Pass(Passes(targets, candidates, n - 1), candidates)
  }

  ghost function MatchedSet(targets: seq<Target>, candidates: seq<Candidate>): (s: set<nat>) {
    set i: nat | i < |candidates| && Matched(targets, candidates[i])
  }

  ghost predicate Fixed(targets: seq<Target>, candidates: seq<Candidate>) {
    Pass(targets, candidates) == targets
  }

  lemma {:induction false} PassesAreTidy(targets: seq<Target>, candidates: seq<Candidate>, n: nat)
    requires Tidy(targets) && Distinct(candidates)
    ensures Tidy(Passes(targets, candidates, n))
    ensures n > 0 ==> Current(Passes(targets, candidates, n), candidates)
  {
    hide Tidy, Pass, Current;
    if n > 0 {
      PassesAreTidy(targets, candidates, n - 1);
      PassKeepsTidy(Passes(targets, candidates, n - 1), candidates);
    }
  }

  lemma MatchedSetGrows(targets: seq<Target>, candidates: seq<Candidate>)
    requires Tidy(targets) && Current(targets, candidates) && Distinct(candidates) && !Fixed(targets, candidates)
    ensures |MatchedSet(Pass(targets, candidates), candidates)| > |MatchedSet(targets, candidates)|
  {
    hide Pass, Matched;
    var before, after := MatchedSet(targets, candidates), MatchedSet(Pass(targets, candidates), candidates);
    var k := PassMatchesMore(targets, candidates);
    forall i | i in before
      ensures i in after
    {
      PassKeepsMatched(targets, candidates, i);
    }
    assert k in after && k !in before && before <= after - {k};
    Smaller(before, after - {k});
  }

  lemma {:induction false} Smaller(a: set<nat>, b: set<nat>)
    requires a <= b
    ensures |a| <= |b|
  {
    assert b == a + (b - a);
  }

  lemma MatchedSetIsBounded(targets: seq<Target>, candidates: seq<Candidate>)
    ensures |MatchedSet(targets, candidates)| <= |candidates|
  {
    hide Matched;
    Smaller(MatchedSet(targets, candidates), UpTo(|candidates|));
  }

  function UpTo(n: nat): (s: set<nat>)
    ensures |s| == n && forall i: nat :: i in s <==> i < n
  {
    if n == 0 then {} else UpTo(n - 1) + {n - 1}
  }

  /** Each pass after the first either changes nothing or matches one device more. */
  lemma {:induction false} FixedOrProgress(targets: seq<Target>, candidates: seq<Candidate>, n: nat)
    requires Tidy(targets) && Distinct(candidates)
    ensures var after := Passes(targets, candidates, n + 1);
            Fixed(after, candidates) || |MatchedSet(after, candidates)| >= n
  {
    hide Pass, Tidy, Distinct, MatchedSet;
    if n > 0 {
      var before := Passes(targets, candidates, n);
      FixedOrProgress(targets, candidates, n - 1);
      PassesAreTidy(targets, candidates, n);
      if !Fixed(before, candidates) {
        MatchedSetGrows(before, candidates);
      }
    }
  }

  /**
   At most one pass more than there are devices changes anything: from then on every pass
   leaves the file as it is.
   */
  lemma MergeConverges(targets: seq<Target>, candidates: seq<Candidate>)
    requires Tidy(targets) && Distinct(candidates)
    ensures Fixed(Passes(targets, candidates, |candidates| + 1), candidates)
  {
    hide Pass, Tidy, Distinct, MatchedSet;
    var last := Passes(targets, candidates, |candidates| + 1);
    FixedOrProgress(targets, candidates, |candidates|);
    if !Fixed(last, candidates) {
      PassesAreTidy(targets, candidates, |candidates| + 1);
      MatchedSetGrows(last, candidates);
      MatchedSetIsBounded(Pass(last, candidates), candidates);
    }
  }

  /** What a settled file leaves open: each unmatched device's host is held by another entry. */
  lemma OpenMeansHeld(targets: seq<Target>, candidates: seq<Candidate>, i: nat)
    requires Tidy(targets) && Distinct(candidates) && Fixed(targets, candidates) && i < |candidates|
    ensures Matched(targets, candidates[i]) || HeldByAnother(targets, candidates[i])
  {
    hide Matched;
    PassKeepsTidy(targets, candidates);
    NothingWithdrawn(targets, candidates);
    var start := Indexed(targets, false);
    IndexedIsInStep(targets, false);
    IdleThroughout(start, candidates, i);
    IdleIsExplained(start, candidates[i]);
  }

  lemma IdleThroughout(m: Merge, candidates: seq<Candidate>, i: nat)
    requires InStep(m) && Distinct(candidates) && i < |candidates|
    requires Offered(m, candidates, |candidates|).targets == m.targets
    ensures Offer(m, candidates[i]) == m
  {
    hide Offer, Matched, InStep, Effect, Distinct;
    StepIsInRange(m);
    forall n | 0 <= n <= |candidates|
      ensures Offered(m, candidates, n) == m
    {
      if Offered(m, candidates, n) != m {
        var k := ChangeMatches(m, candidates, n);
        OffersKeepMatched(m, candidates, n, |candidates|, k);
      }
    }
    assert Offered(m, candidates, i + 1) == Offer(Offered(m, candidates, i), candidates[i]);
  }

  // ----- What one pass does not do ---------------------------------------------------------------------

  const LEASE_A := Target("a", "10.0.0.1", DhcpLease, "0a", "", "")
  const LEASE_B := Target("b", "10.0.0.2", DhcpLease, "0b", "", "")

  function Lease(name: string, mac: string, host: string): Candidate {
    Candidate(name, host, DhcpLease, mac, "")
  }

  /** Two known leases: what a pass does with them, one candidate at a time. */
  lemma TwoLeases(a: Target, b: Target, ca: Candidate, cb: Candidate)
    requires a.source == DhcpLease && a.mac == "0a" && b.source == DhcpLease && b.mac == "0b"
    requires ca == Lease("a", "0a", ca.host) && cb == Lease("b", "0b", cb.host)
    requires a.host != "" && b.host != "" && a.host != b.host
    ensures var a' := if ca.host in {a.host, b.host} then a else a.(host := ca.host);
            Pass([a, b], [ca, cb]) == [a', if cb.host in {a'.host, b.host} then b else b.(host := cb.host)]
  {
    var all := [ca, cb];
    TwoAreCurrent(a, b, ca, cb);
    TwoIndexed(a, b);
    hide Indexed, Withdrawn, Retained, IdentityOf;
    var m := Indexed([a, b], false);
    assert Key(ca) == Identity(DhcpLease, "0a") && Key(cb) == Identity(DhcpLease, "0b");
    TwoOffered(m, ca, cb);
    hide Offer;
    assert Offered(m, all, 0) == m && Offered(m, all, 1) == Offer(m, ca) && Offered(m, all, 2) == Offer(Offer(m, ca), cb);
  }

  lemma TwoOffered(m: Merge, ca: Candidate, cb: Candidate)
    requires InRange(m) && |m.targets| == 2 && m.targets[0].host != m.targets[1].host && m.hosts == {m.targets[0].host, m.targets[1].host}
    requires m.byIdentity == map[Key(ca) := 0, Key(cb) := 1] && Key(ca) != Key(cb)
    ensures var a, b := m.targets[0], m.targets[1];
            var a' := if ca.host in {a.host, b.host} then a else a.(host := ca.host);
            Offer(Offer(m, ca), cb).targets == [a', if cb.host in {a'.host, b.host} then b else b.(host := cb.host)]
  {
    hide Free;
    var m1 := Offer(m, ca);
    assert m1.byIdentity == m.byIdentity && m1.targets[1] == m.targets[1];
    assert m1.hosts == {m1.targets[0].host, m1.targets[1].host};
  }

  lemma TwoAreCurrent(a: Target, b: Target, ca: Candidate, cb: Candidate)
    requires a.source == DhcpLease && a.mac == "0a" && b.source == DhcpLease && b.mac == "0b"
    requires ca == Lease("a", "0a", ca.host) && cb == Lease("b", "0b", cb.host)
    ensures Retained([a, b], [ca, cb]) == [a, b]
  {
    var all := [ca, cb];
    assert ca in all && cb in all && PruneKey(a) == Key(ca) && PruneKey(b) == Key(cb);
    NothingWithdrawn([a, b], all);
  }

  lemma TwoIndexed(a: Target, b: Target)
    requires a.source == DhcpLease && a.mac == "0a" && b.source == DhcpLease && b.mac == "0b"
    requires a.host != "" && b.host != ""
    ensures var m := Indexed([a, b], false);
            && m.byIdentity == map[Identity(DhcpLease, "0a") := 0, Identity(DhcpLease, "0b") := 1]
            && m.hosts == {a.host, b.host}
  {
    assert [a, b][..1] == [a] && [a][..0] == [];
    assert Indexed([a], false) == Index(Indexed([], false), a);
    assert Indexed([a, b], false) == Index(Indexed([a], false), b);
  }

  /** A chain of moved leases takes two passes: one pass is not idempotent. */
  lemma OnePassIsNotEnough()
    ensures var file, found := [LEASE_A, LEASE_B], [Lease("a", "0a", "10.0.0.2"), Lease("b", "0b", "10.0.0.3")];
            && Pass(file, found) == [LEASE_A, LEASE_B.(host := "10.0.0.3")]
            && Pass(Pass(file, found), found) == [LEASE_A.(host := "10.0.0.2"), LEASE_B.(host := "10.0.0.3")]
  {
    var found := [Lease("a", "0a", "10.0.0.2"), Lease("b", "0b", "10.0.0.3")];
    TwoLeases(LEASE_A, LEASE_B, found[0], found[1]);
    TwoLeases(LEASE_A, LEASE_B.(host := "10.0.0.3"), found[0], found[1]);
  }

  /** Two leases that swapped their hosts are never brought up to date. */
  lemma SwappedHostsStaySwapped()
    ensures var file, found := [LEASE_A, LEASE_B], [Lease("a", "0a", "10.0.0.2"), Lease("b", "0b", "10.0.0.1")];
            Fixed(file, found) && !Matched(file, found[0]) && !Matched(file, found[1])
  {
    var found := [Lease("a", "0a", "10.0.0.2"), Lease("b", "0b", "10.0.0.1")];
    TwoLeases(LEASE_A, LEASE_B, found[0], found[1]);
  }

  /** The set of held hosts is exactly that of the entries. */
  ghost predicate HostsExact(m: Merge) {
    forall h :: h in m.hosts <==> h != "" && HeldBy(m.targets, h)
  }

  ghost predicate AlsoOn(targets: seq<Target>, i: nat, host: string) {
    exists j :: 0 <= j < |targets| && j != i && targets[j].host == host
  }

  /** A move keeps the set of held hosts exact exactly when nobody else is on the host that is left. */
  lemma MoveKeepsHostsExactIff(m: Merge, c: Candidate)
    requires InRange(m) && HostsExact(m) && Key(c) in m.byIdentity && c.host != ""
    requires m.targets[m.byIdentity[Key(c)]].host != c.host && c.host !in m.hosts
    ensures var i := m.byIdentity[Key(c)];
            HostsExact(Offer(m, c)) <==> m.targets[i].host == "" || !AlsoOn(m.targets, i, m.targets[i].host)
  {
    var i := m.byIdentity[Key(c)];
    var previous, r := m.targets[i].host, Offer(m, c);
    assert forall j :: 0 <= j < |m.targets| && j != i ==> r.targets[j] == m.targets[j];
    assert r.targets[i].host == c.host;
    if previous != "" && AlsoOn(m.targets, i, previous) {
      var j :| 0 <= j < |m.targets| && j != i && m.targets[j].host == previous;
      assert r.targets[j].host == previous && HeldBy(r.targets, previous) && previous !in r.hosts;
    } else {
      forall h
        ensures h in r.hosts <==> h != "" && HeldBy(r.targets, h)
      {
        if h != c.host && HeldBy(m.targets, h) && h != previous {
          var j :| 0 <= j < |m.targets| && m.targets[j].host == h;
          assert r.targets[j].host == h;
        }
        if h != c.host && HeldBy(r.targets, h) {
          var j :| 0 <= j < |r.targets| && r.targets[j].host == h;
          assert j != i && m.targets[j].host == h;
        }
      }
    }
  }

  /** After such a move the host counts as free, and a new device is entered on it beside the old. */
  lemma LeftHostIsReissued(m: Merge, c: Candidate, next: Candidate)
    requires InRange(m) && Key(c) in m.byIdentity && Key(next) !in m.byIdentity
    requires m.targets[m.byIdentity[Key(c)]].host != c.host && c.host !in m.hosts
    requires next.host == m.targets[m.byIdentity[Key(c)]].host && AlsoOn(m.targets, m.byIdentity[Key(c)], next.host)
    ensures var after := Offer(Offer(m, c), next).targets;
            && |after| == |m.targets| + 1 && after[|m.targets|].host == next.host
            && AlsoOn(after, |m.targets|, next.host)
  {
    hide Free, FirstFree;
    var i := m.byIdentity[Key(c)];
    var r := Offer(m, c);
    var j :| 0 <= j < |m.targets| && j != i && m.targets[j].host == next.host;
    assert r.targets[j] == m.targets[j];
    var after := Offer(r, next).targets;
    assert after[j].host == next.host;
  }

  const STATIC := Target("x", "10.0.0.1", Operator(""), "", "", "")

  /**
   Why hosts must be unique to begin with: when one of two entries on a host moves away, the
   set of held hosts forgets the other, and a new device is entered on the same host.
   */
  lemma SharedHostIsForgotten()
    ensures var file, found := [LEASE_A, STATIC], [Lease("a", "0a", "10.0.0.2"), Lease("b", "0b", "10.0.0.1")];
            var after := Pass(file, found);
            |after| == 3 && after[1].host == after[2].host == "10.0.0.1" && IdentityOf(after[2]) == Some(Key(found[1]))
  {
    var file, found := [LEASE_A, STATIC], [Lease("a", "0a", "10.0.0.2"), Lease("b", "0b", "10.0.0.1")];
    SharedIsCurrent(file, found);
    SharedIndexed(file);
    var m := Indexed(file, false);
    SharedOffered(m, found[0], found[1]);
    hide Indexed, Retained, Withdrawn, Offer, IdentityOf;
    var m1 := Offer(m, found[0]);
    assert Offered(m, found, 0) == m && Offered(m, found, 1) == m1 && Offered(m, found, 2) == Offer(m1, found[1]);
  }

  lemma SharedOffered(m: Merge, ca: Candidate, cb: Candidate)
    requires InRange(m) && m.targets == [LEASE_A, STATIC] && m.hosts == {"10.0.0.1"}
    requires m.byIdentity == map[Identity(DhcpLease, "0a") := 0]
    requires ca == Lease("a", "0a", "10.0.0.2") && cb == Lease("b", "0b", "10.0.0.1")
    ensures var after := Offer(Offer(m, ca), cb).targets;
            |after| == 3 && after[1].host == after[2].host == "10.0.0.1" && IdentityOf(after[2]) == Some(Key(cb))
  {
    hide Free, FirstFree;
    var m1 := Offer(m, ca);
    assert m1.hosts == {"10.0.0.2"} && m1.targets[1] == STATIC && m1.byIdentity == m.byIdentity;
    assert Key(cb) !in m1.byIdentity && cb.host !in m1.hosts;
  }

  lemma SharedIsCurrent(file: seq<Target>, found: seq<Candidate>)
    requires file == [LEASE_A, STATIC] && found == [Lease("a", "0a", "10.0.0.2"), Lease("b", "0b", "10.0.0.1")]
    ensures Retained(file, found) == file
  {
    assert found[0] in found && PruneKey(LEASE_A) == Key(found[0]);
    forall c | c in found
      ensures c.source == DhcpLease
    {
    }
    NothingWithdrawn(file, found);
  }

  lemma SharedIndexed(file: seq<Target>)
    requires file == [LEASE_A, STATIC]
    ensures Indexed(file, false).byIdentity == map[Identity(DhcpLease, "0a") := 0] && Indexed(file, false).hosts == {"10.0.0.1"}
  {
    assert file[..1] == [LEASE_A] && [LEASE_A][..0] == [];
    assert Indexed([LEASE_A], false) == Index(Indexed([], false), LEASE_A);
    assert Indexed(file, false) == Index(Indexed([LEASE_A], false), STATIC);
  }
}
