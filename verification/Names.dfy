/** Names made unique by a numeric suffix, as the device discovery makes them. */
module Names {
  import opened Graphs

  /** What is left of a name before its suffix. */
  const STEM := 58

  function Digit(n: nat): char
    requires n < 10
  {
    "0123456789"[n]
  }

  function Decimal(n: nat): (s: string)
    ensures s != []
  {
    if n < 10 then [Digit(n)] else Decimal(n / 10) + [Digit(n % 10)]
  }

  lemma {:induction false} DecimalIsInjective(m: nat, n: nat)
    requires Decimal(m) == Decimal(n)
    ensures m == n
  {
    var s, t := Decimal(m), Decimal(n);
    assert s[|s| - 1] == Digit(m % 10) && t[|t| - 1] == Digit(n % 10);
    assert m % 10 == n % 10;
    if m >= 10 && n >= 10 {
      assert s[..|s| - 1] == Decimal(m / 10) && t[..|t| - 1] == Decimal(n / 10);
      DecimalIsInjective(m / 10, n / 10);
    }
  }

  /** What a row of digits stands for. */
  function Read(digits: string): nat {
    if digits == "" then 0
    else
      var n, c := |digits| - 1, digits[|digits| - 1];
      10 * Read(digits[..n]) + if '0' <= c <= '9' then (c as int) - ('0' as int) else 0
  }

  /** The suffix is the number as it is usually written: it reads back, and has no leading zero. */
  lemma {:induction false} DecimalReadsBack(n: nat)
    ensures Read(Decimal(n)) == n && (n > 0 ==> Decimal(n)[0] != '0')
    ensures forall c :: c in Decimal(n) ==> '0' <= c <= '9'
  {
    DigitReadsBack(n % 10);
    if n >= 10 {
      DecimalReadsBack(n / 10);
      var s := Decimal(n);
      assert s[..|s| - 1] == Decimal(n / 10) && s[|s| - 1] == Digit(n % 10);
    } else {
      assert Decimal(n)[..0] == "";
    }
  }

  lemma DigitReadsBack(n: nat)
    requires n < 10
    ensures '0' <= Digit(n) <= '9' && (Digit(n) as int) - ('0' as int) == n
  {
  }

  function Suffixed(base: string, k: nat): string {
    (if |base| > STEM then base[..STEM] else base) + "-" + Decimal(k)
  }

  /** A suffix follows the name, or its first 58 characters. */
  lemma SuffixFollowsName(base: string, k: nat)
    ensures exists stem :: stem <= base && |stem| == (if |base| < 58 then |base| else 58) && Suffixed(base, k) == stem + "-" + Decimal(k)
  {
    var stem := if |base| > STEM then base[..STEM] else base;
    assert stem <= base && Suffixed(base, k) == stem + "-" + Decimal(k);
  }

  lemma SuffixedIsInjective(base: string, j: nat, k: nat)
    requires Suffixed(base, j) == Suffixed(base, k)
    ensures j == k
  {
    var stem := (if |base| > STEM then base[..STEM] else base) + "-";
    assert Suffixed(base, j)[|stem|..] == Decimal(j) && Suffixed(base, k)[|stem|..] == Decimal(k);
    DecimalIsInjective(j, k);
  }

  ghost predicate AllTaken(base: string, k: nat, occupied: set<string>) {
    forall j :: 2 <= j < k ==> Suffixed(base, j) in occupied
  }

  /** The base if it is free, or else its first free suffix. */
  ghost predicate FirstFree(base: string, occupied: set<string>, name: string) {
    && name !in occupied
    && (name == base || (base in occupied && exists k :: 2 <= k && name == Suffixed(base, k) && AllTaken(base, k, occupied)))
  }

  lemma FirstFreeIsUnique(base: string, occupied: set<string>, a: string, b: string)
    requires FirstFree(base, occupied, a) && FirstFree(base, occupied, b)
    ensures a == b
  {
    if a != base && b != base {
      var j :| j >= 2 && a == Suffixed(base, j) && AllTaken(base, j, occupied);
      var k :| k >= 2 && b == Suffixed(base, k) && AllTaken(base, k, occupied);
      assert j == k;
    }
  }

  ghost function Tried(base: string, k: nat): set<string> {
    set j | 2 <= j < k :: Suffixed(base, j)
  }

  lemma TriedGrows(base: string, k: nat)
    requires k >= 2
    ensures Tried(base, k + 1) == Tried(base, k) + {Suffixed(base, k)}
    ensures Suffixed(base, k) !in Tried(base, k)
  {
    forall j | 2 <= j < k
      ensures Suffixed(base, j) != Suffixed(base, k)
    {
      if Suffixed(base, j) == Suffixed(base, k) {
        SuffixedIsInjective(base, j, k);
      }
    }
    forall x
      ensures x in Tried(base, k + 1) <==> x in Tried(base, k) || x == Suffixed(base, k)
    {
    }
  }

  lemma FewerLeft(base: string, k: nat, occupied: set<string>)
    requires k >= 2 && Suffixed(base, k) in occupied
    ensures |occupied - Tried(base, k + 1)| < |occupied - Tried(base, k)|
  {
    TriedGrows(base, k);
    hide Tried, Suffixed;
    assert occupied - Tried(base, k + 1) == (occupied - Tried(base, k)) - {Suffixed(base, k)};
  }

  /** The name that the loop finds, as a function. */
  ghost function Free(base: string, occupied: set<string>): (name: string)
    ensures FirstFree(base, occupied, name)
  {
    if base !in occupied then base else FirstFrom(base, 2, occupied)
  }

  ghost function FirstFrom(base: string, k: nat, occupied: set<string>): (name: string)
    requires k >= 2 && base in occupied && AllTaken(base, k, occupied)
    ensures FirstFree(base, occupied, name)
    decreases |occupied - Tried(base, k)|
  {
    if Suffixed(base, k) !in occupied then Suffixed(base, k)
    else
      assert |occupied - Tried(base, k + 1)| < |occupied - Tried(base, k)| by {
        FewerLeft(base, k, occupied);
      }
      FirstFrom(base, k + 1, occupied)
  }

  /** The naming loop ends, because no suffix gives the same name twice. */
  method UniqueName(base: string, occupied: set<string>) returns (name: string)
    ensures FirstFree(base, occupied, name) && name == Free(base, occupied)
  {
    name := base;
    var suffix := 2;
    while name in occupied
      invariant suffix >= 2
      invariant if suffix == 2 then name == base else name == Suffixed(base, suffix - 1) && base in occupied
      invariant suffix > 2 ==> AllTaken(base, suffix - 1, occupied)
      decreases |occupied - Tried(base, suffix - 1)| + if suffix == 2 then 1 else 0
    {
      if suffix > 2 {
        TriedGrows(base, suffix - 1);
        assert occupied - Tried(base, suffix) == (occupied - Tried(base, suffix - 1)) - {name};
      }
      name := Suffixed(base, suffix);
      suffix := suffix + 1;
    }
    FirstFreeIsUnique(base, occupied, name, Free(base, occupied));
  }

  function Earlier(names: seq<string>, n: nat): set<string>
    requires n <= |names|
  {
    set j | 0 <= j < n :: names[j]
  }

  lemma EarlierOfPrefix(names: seq<string>, last: string, n: nat)
    requires n <= |names|
    ensures Earlier(names + [last], n) == Earlier(names, n)
  {
    var more := names + [last];
    forall x
      ensures x in Earlier(more, n) <==> x in Earlier(names, n)
    {
      if x in Earlier(names, n) {
        var j :| 0 <= j < n && names[j] == x;
        assert more[j] == x;
      }
    }
  }

  lemma EarlierGrows(names: seq<string>, last: string)
    ensures Earlier(names + [last], |names| + 1) == Earlier(names, |names|) + {last}
  {
    var more := names + [last];
    forall x
      ensures x in Earlier(more, |names| + 1) <==> x in Earlier(names, |names|) || x == last
    {
      if x in Earlier(names, |names|) {
        var j :| 0 <= j < |names| && names[j] == x;
        assert more[j] == x;
      }
      assert more[|names|] == last;
    }
  }

  /** The naming of discovered devices: every base in turn, made unique among those before it. */
  method NameAll(bases: seq<string>) returns (names: seq<string>)
    ensures |names| == |bases| && NoDuplicates(names)
    ensures forall i :: 0 <= i < |bases| ==> FirstFree(bases[i], Earlier(names, i), names[i])
  {
    names := [];
    var used: set<string> := {};
    for i := 0 to |bases|
      invariant |names| == i && used == Earlier(names, i)
      invariant NoDuplicates(names)
      invariant forall k :: 0 <= k < i ==> FirstFree(bases[k], Earlier(names, k), names[k])
    {
      var name := UniqueName(bases[i], used);
      ghost var before := names;
      names := names + [name];
      used := used + {name};
      EarlierGrows(before, name);
      forall k | 0 <= k <= i
        ensures FirstFree(bases[k], Earlier(names, k), names[k])
      {
        EarlierOfPrefix(before, name, k);
      }
    }
  }
}
