/** The member names of an uploaded archive: what is refused, and what the accepted ones denote. */
module Members {
  import opened Ordering
  import opened Segments

  const MAX_MEMBERS := 200_000

  /** The components of a POSIX path; empty ones and "." say nothing. */
  function Meaningful(parts: seq<string>): (r: seq<string>)
    ensures forall i :: 0 <= i < |r| ==> r[i] in parts && r[i] != "" && r[i] != "."
  {
    if parts == [] then []
    else
      var rest := Meaningful(parts[1..]);
      if parts[0] == "" || parts[0] == "." then rest else [parts[0]] + rest
  }

  function Components(name: string): (r: seq<string>)
    ensures forall i :: 0 <= i < |r| ==> '/' !in r[i] && r[i] != "" && r[i] != "."
  {
    Meaningful(Split(name, '/'))
  }

  /** `_normalised_member_name`; None is a refusal. */
  function Normalise(name: string): Option<string> {
    if '\\' in name then None
    else if name != "" && name[0] == '/' then None
    else if ".." in Components(name) then None
    else Some(Join(Components(name), '/'))
  }

  lemma {:induction false} MeaningfulStays(parts: seq<string>)
    requires forall i :: 0 <= i < |parts| ==> parts[i] != "" && parts[i] != "."
    ensures Meaningful(parts) == parts
  {
    if parts != [] {
      MeaningfulStays(parts[1..]);
    }
  }

  /** A joined list of components reads back as the same components. */
  lemma ComponentsOfJoin(parts: seq<string>)
    requires forall i :: 0 <= i < |parts| ==> '/' !in parts[i] && parts[i] != "" && parts[i] != "."
    ensures Components(Join(parts, '/')) == parts
  {
    if parts == [] {
      assert Split("", '/') == [[]];
      assert Meaningful([[]]) == Meaningful([]);
    } else {
      SplitJoin(parts, '/');
      MeaningfulStays(parts);
    }
  }

  lemma {:induction false} JoinBrings(parts: seq<string>, c: char)
    requires c in Join(parts, '/') && c != '/'
    ensures exists i :: 0 <= i < |parts| && c in parts[i]
  {
    if |parts| > 1 {
      if c !in parts[0] {
        JoinBrings(parts[1..], c);
        var i :| 0 <= i < |parts[1..]| && c in parts[1..][i];
        assert c in parts[i + 1];
      }
    }
  }

  lemma {:induction false} SplitKeepsChars(s: string, i: nat, c: char)
    requires i < |Split(s, '/')| && c in Split(s, '/')[i]
    ensures c in s
  {
    if s != [] {
      var rest := Split(s[1..], '/');
      if s[0] == '/' {
        SplitKeepsChars(s[1..], i - 1, c);
      } else if i == 0 {
        if c != s[0] {
          SplitKeepsChars(s[1..], 0, c);
        }
      } else {
        assert Split(s, '/')[i] == rest[i];
        SplitKeepsChars(s[1..], i, c);
      }
    }
  }

  /**
   An accepted name stands for the same components, none of which leads upwards, and is a normal
   form: normalising it again changes nothing.
   */
  lemma AcceptedIsNormal(name: string)
    requires Normalise(name).Some?
    ensures var n := Normalise(name).value;
            && Components(n) == Components(name) && ".." !in Components(n)
            && Normalise(n) == Some(n)
  {
    var parts := Components(name);
    var n := Normalise(name).value;
    ComponentsOfJoin(parts);
    if '\\' in n {
      JoinBrings(parts, '\\');
      var i :| 0 <= i < |parts| && '\\' in parts[i];
      var k :| 0 <= k < |Split(name, '/')| && Split(name, '/')[k] == parts[i];
      SplitKeepsChars(name, k, '\\');
      assert false;
    }
    if parts != [] {
      assert n[0] == parts[0][0];
      assert parts[0][0] in parts[0];
    }
  }

  /** A name is refused exactly for a backslash, a leading slash, or a component that leads upwards. */
  lemma RefusedIff(name: string)
    ensures Normalise(name).None? <==> '\\' in name || "/" <= name || exists i :: 0 <= i < |Components(name)| && Components(name)[i] == ".."
  {
    hide Components;
    assert "/" <= name <==> name != "" && name[0] == '/';
  }

  /** Two accepted names are equal after normalisation exactly when they denote one path. */
  lemma SameNameSamePath(a: string, b: string)
    requires Normalise(a).Some? && Normalise(b).Some?
    ensures Normalise(a) == Normalise(b) <==> Components(a) == Components(b)
  {
    AcceptedIsNormal(a);
    AcceptedIsNormal(b);
  }

  /** Walking the components from some depth below a root; None if the walk leaves the root. */
  function Walked(depth: nat, parts: seq<string>): Option<nat>
    decreases parts
  {
    if parts == [] then Some(depth)
    else if parts[0] == ".." then
      if depth == 0 then None else Walked(depth - 1, parts[1..])
    else Walked(depth + 1, parts[1..])
  }

  /** Extracting an accepted member never leaves the directory it is extracted to. */
  lemma ExtractionStaysInside(name: string, depth: nat)
    requires Normalise(name).Some?
    ensures var parts := Components(Normalise(name).value); Walked(depth, parts) == Some(depth + |parts|)
  {
    hide Normalise, Components;
    AcceptedIsNormal(name);
    AcceptedStaysBelow(depth, Components(Normalise(name).value));
  }

  lemma {:induction false} AcceptedStaysBelow(depth: nat, parts: seq<string>)
    requires ".." !in parts
    ensures Walked(depth, parts) == Some(depth + |parts|)
    decreases parts
  {
    if parts != [] {
      AcceptedStaysBelow(depth + 1, parts[1..]);
    }
  }

  // ----- The member list ----------------------------------------------------------------------------

  datatype MemberKind = RegularFile | Directory | Link | Special

  datatype Member = Member(name: string, kind: MemberKind)

  datatype Checked = Checked(member: Member, name: string)

  ghost predicate Acceptable(m: Member) {
    && Normalise(m.name).Some? && (m.kind == RegularFile || m.kind == Directory)
    && (m.kind == RegularFile ==> Normalise(m.name) != Some(""))
  }

  /** Every member but the root directory itself has a path of its own. */
  ghost predicate Apart(members: seq<Member>) {
    forall i, j :: 0 <= i < j < |members| && Normalise(members[i].name) != Some("") ==>
      Normalise(members[i].name) != Normalise(members[j].name)
  }

  /** `_safe_members` */
  method SafeMembers(members: seq<Member>) returns (checked: Option<seq<Checked>>)
    ensures checked.Some? <==> 0 < |members| <= 200_000 && (forall i :: 0 <= i < |members| ==> Acceptable(members[i])) && Apart(members)
    ensures checked.Some? ==>
              && |checked.value| == |members|
              && forall i :: 0 <= i < |members| ==> checked.value[i] == Checked(members[i], Normalise(members[i].name).value)
  {
    hide Normalise;
    var done: seq<Checked> := [];
    var seen: set<string> := {};
    for i := 0 to |members|
      invariant i <= MAX_MEMBERS && |done| == i
      invariant forall k :: 0 <= k < i ==> Acceptable(members[k]) && done[k] == Checked(members[k], Normalise(members[k].name).value)
      invariant forall n :: n in seen <==> n != "" && exists k :: 0 <= k < i && Normalise(members[k].name) == Some(n)
      invariant Apart(members[..i])
    {
      if i + 1 > MAX_MEMBERS {
        return None;
      }
      var m := members[i];
      var name := Normalise(m.name);
      assert members[..i + 1][i] == m;
      if name.None? {
        return None;
      }
      if m.kind == Link || m.kind == Special {
        return None;
      }
      if m.kind == RegularFile && name.value == "" {
        return None;
      }
      if name.value != "" && name.value in seen {
        assert !Apart(members);
        return None;
      }
      if name.value != "" {
        seen := seen + {name.value};
      }
      done := done + [Checked(m, name.value)];
    }
    assert members[..|members|] == members;
    if done == [] {
      return None;
    }
    checked := Some(done);
  }
}
