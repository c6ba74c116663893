/** Module dependencies: outputs imported into inputs, and dependencies applied before a module. */
module Dependencies {
  import opened Graphs
  import opened Ordering
  import opened Blueprint
  import opened ModuleState
  import opened SingleRun
  import opened Inputs
  import opened Segments

  // ----- Nested inputs -----------------------------------------------------------------------------

  /** The mapping at a key, or an empty one where something else stands. */
  function Below(dst: Fields, key: string): Fields {
    if key in dst && dst[key].Mapping? then dst[key].fields else map[]
  }

  /** `set_nested` */
  function SetNested(dst: Fields, path: seq<string>, value: Value): Fields
    requires path != []
    decreases |path|
  {
    if |path| == 1 then dst[path[0] := value]
    else dst[path[0] := Mapping(SetNested(Below(dst, path[0]), path[1..], value))]
  }

  function Get(dst: Fields, path: seq<string>): Option<Value> {
    At(Mapping(dst), path)
  }

  lemma GetStep(dst: Fields, path: seq<string>)
    requires path != []
    ensures Get(dst, path) ==
            if |path| == 1 then (if path[0] in dst then Some(dst[path[0]]) else None)
            else Get(Below(dst, path[0]), path[1..])
  {
    if path[0] in dst {
      assert Get(dst, path) == At(dst[path[0]], path[1..]);
      if |path| == 1 {
        assert path[1..] == [];
      }
    }
  }

  /** What has been set is read back. */
  lemma {:induction false} SetThenGet(dst: Fields, path: seq<string>, value: Value)
    requires path != []
    ensures Get(SetNested(dst, path, value), path) == Some(value)
    decreases |path|
  {
    GetStep(SetNested(dst, path, value), path);
    if |path| > 1 {
      SetThenGet(Below(dst, path[0]), path[1..], value);
    }
  }

  predicate Comparable(p: seq<string>, q: seq<string>) {
    p <= q || q <= p
  }

  /** Setting one path leaves every path that neither extends nor is extended by it. */
  lemma {:induction false} SetElsewhere(dst: Fields, p: seq<string>, q: seq<string>, value: Value)
    requires p != [] && !Comparable(p, q)
    ensures Get(SetNested(dst, p, value), q) == Get(dst, q)
    decreases |p|
  {
    assert q != [];
    if p[0] == q[0] {
      assert p == [p[0]] + p[1..] && q == [q[0]] + q[1..];
      assert !Comparable(p[1..], q[1..]) && p[1..] != [] && q[1..] != [];
      var below := Below(dst, p[0]);
      SetElsewhere(below, p[1..], q[1..], value);
    }
    GetStep(SetNested(dst, p, value), q);
    GetStep(dst, q);
  }

  /** Setting a path below another, or above it, is seen there. */
  lemma {:induction false} SetNearby(dst: Fields, p: seq<string>, q: seq<string>, value: Value)
    requires p != [] && q != [] && Comparable(p, q) && p != q
    ensures p <= q ==> Get(SetNested(dst, p, value), q) == At(value, q[|p|..])
    ensures q <= p ==> Get(SetNested(dst, p, value), q).Some? && Get(SetNested(dst, p, value), q).value.Mapping?
    decreases |p|
  {
    GetStep(SetNested(dst, p, value), q);
    assert |p| == 1 && p <= q ==> q == p + q[1..];
    if |p| > 1 && |q| > 1 {
      assert Comparable(p[1..], q[1..]) && p[1..] != q[1..];
      assert p <= q ==> p[1..] <= q[1..];
      assert q <= p ==> q[1..] <= p[1..];
      assert p <= q ==> q[1..][|p[1..]|..] == q[|p|..];
      SetNearby(Below(dst, p[0]), p[1..], q[1..], value);
    }
  }

  // ----- Output lookup ------------------------------------------------------------------------------

  /** The non-empty parts between dots. */
  function DotParts(key: string): seq<string> {
    NonEmpty(Split(key, '.'))
  }

  function NonEmpty(parts: seq<string>): seq<string> {
    if parts == [] then [] else (if parts[0] == "" then [] else [parts[0]]) + NonEmpty(parts[1..])
  }

  /** `try_get_nested`: the flat key first, then the dotted path. */
  function TryGetNested(src: Fields, key: string): Option<Value> {
    if key in src then Some(src[key])
    else if '.' !in key then None
    else Get(src, DotParts(key))
  }

  lemma {:induction false} NonEmptyStays(parts: seq<string>)
    requires forall i :: 0 <= i < |parts| ==> parts[i] != ""
    ensures NonEmpty(parts) == parts
  {
    if parts != [] {
      NonEmptyStays(parts[1..]);
    }
  }

  /** A published key is looked up as it is, dots or not; only then do its dots lead into mappings. */
  lemma LookedUpBy(src: Fields, parts: seq<string>)
    requires parts != [] && forall i :: 0 <= i < |parts| ==> parts[i] != "" && '.' !in parts[i]
    ensures var key := Join(parts, '.');
            TryGetNested(src, key) == if key in src.Keys then Some(src[key]) else if |parts| >= 2 then Get(src, parts) else None
    ensures "" !in src ==> TryGetNested(src, "") == None
  {
    SplitJoin(parts, '.');
    NonEmptyStays(parts);
    if |parts| >= 2 {
      assert Join(parts, '.')[|parts[0]|] == '.';
    }
  }

  predicate DotsOnly(key: string) {
    forall i :: 0 <= i < |key| ==> key[i] == '.'
  }

  lemma {:induction false} DotsHaveNoParts(key: string)
    requires DotsOnly(key)
    ensures DotParts(key) == []
  {
    if key == "" {
      assert NonEmpty([""]) == NonEmpty([""][1..]);
    } else {
      DotsHaveNoParts(key[1..]);
      assert Split(key, '.') == [""] + Split(key[1..], '.');
    }
  }

  /** A key of dots only, unless it is published itself, imports every output at once. */
  lemma DotsImportEverything(src: Fields, key: string)
    requires key != "" && DotsOnly(key) && key !in src
    ensures TryGetNested(src, key) == Some(Mapping(src))
  {
    assert key[0] == '.';
    DotsHaveNoParts(key);
  }

  // ----- Imports -------------------------------------------------------------------------------------

  datatype Import = Import(output: string, target: seq<string>)

  /** `outputs` is None where the dependency's state cannot be read. */
  datatype Dependency = Dependency(required: bool, planned: bool, imports: seq<Import>, outputs: Option<Fields>)

  predicate Satisfied(d: Dependency) {
    d.outputs.Some? && forall i :: 0 <= i < |d.imports| ==> TryGetNested(d.outputs.value, d.imports[i].output).Some?
  }

  /** A dependency that stops the resolution if it is not satisfied. */
  predicate Strict(d: Dependency) {
    d.required && !d.planned
  }

  predicate WellFormed(d: Dependency) {
    forall i :: 0 <= i < |d.imports| ==> d.imports[i].target != []
  }

  /** One value on its way to its input. */
  datatype Assignment = Assignment(target: seq<string>, value: Value)

  function Found(imports: seq<Import>, outputs: Fields): seq<Assignment> {
    if imports == [] then []
    else
      var last := imports[|imports| - 1];
      var value := TryGetNested(outputs, last.output);
      Found(imports[..|imports| - 1], outputs) + if value.Some? then [Assignment(last.target, value.value)] else []
  }

  function FoundIn(d: Dependency): seq<Assignment> {
    if d.outputs.Some? then Found(d.imports, d.outputs.value) else []
  }

  /** Every assignment that the dependencies make, in order. */
  function FoundInAll(deps: seq<Dependency>): seq<Assignment> {
    if deps == [] then [] else FoundInAll(deps[..|deps| - 1]) + FoundIn(deps[|deps| - 1])
  }

  predicate Targeted(ws: seq<Assignment>) {
    forall i :: 0 <= i < |ws| ==> ws[i].target != []
  }

  function SetAll(ws: seq<Assignment>): Fields
    requires Targeted(ws)
  {
    if ws == [] then map[]
    else
      var last := ws[|ws| - 1];
      SetNested(SetAll(ws[..|ws| - 1]), last.target, last.value)
  }

  /** No target of an assignment extends another's. */
  ghost predicate Independent(ws: seq<Assignment>) {
    forall i, j :: 0 <= i < j < |ws| ==> !Comparable(ws[i].target, ws[j].target)
  }

  /** With independent targets every value is still in its place when all have been set. */
  lemma {:induction false} IndependentStayReadable(ws: seq<Assignment>, i: nat)
    requires Targeted(ws) && Independent(ws) && i < |ws|
    ensures Get(SetAll(ws), ws[i].target) == Some(ws[i].value)
  {
    var n := |ws| - 1;
    var front := SetAll(ws[..n]);
    if i == n {
      SetThenGet(front, ws[n].target, ws[n].value);
    } else {
      IndependentStayReadable(ws[..n], i);
      SetElsewhere(front, ws[n].target, ws[i].target, ws[n].value);
    }
  }

  lemma {:induction false} FoundIsThere(imports: seq<Import>, outputs: Fields, j: nat)
    requires j < |imports| && TryGetNested(outputs, imports[j].output).Some?
    ensures Assignment(imports[j].target, TryGetNested(outputs, imports[j].output).value) in Found(imports, outputs)
  {
    if j < |imports| - 1 {
      FoundIsThere(imports[..|imports| - 1], outputs, j);
    }
  }

  lemma {:induction false} FoundInAllIsThere(deps: seq<Dependency>, i: nat, w: Assignment)
    requires i < |deps| && w in FoundIn(deps[i])
    ensures w in FoundInAll(deps)
  {
    if i < |deps| - 1 {
      FoundInAllIsThere(deps[..|deps| - 1], i, w);
    }
  }

  /** Every output found is readable at its input, if the targets are independent. */
  lemma ImportsStayReadable(deps: seq<Dependency>, i: nat, j: nat)
    requires Targeted(FoundInAll(deps)) && Independent(FoundInAll(deps))
    requires i < |deps| && deps[i].outputs.Some? && j < |deps[i].imports|
    requires TryGetNested(deps[i].outputs.value, deps[i].imports[j].output).Some?
    ensures Get(SetAll(FoundInAll(deps)), deps[i].imports[j].target) == TryGetNested(deps[i].outputs.value, deps[i].imports[j].output)
  {
    var ws := FoundInAll(deps);
    FoundIsThere(deps[i].imports, deps[i].outputs.value, j);
    var w := Assignment(deps[i].imports[j].target, TryGetNested(deps[i].outputs.value, deps[i].imports[j].output).value);
    FoundInAllIsThere(deps, i, w);
    var k :| 0 <= k < |ws| && ws[k] == w;
    IndependentStayReadable(ws, k);
  }

  /** After this assignment the path reads as this value, whatever was there before. */
  predicate Delivers(w: Assignment, path: seq<string>, value: Value) {
    w.target <= path && At(w.value, path[|w.target|..]) == Some(value)
  }

  /**
   What a path reads as in the end is up to the last assignment whose target lies on the path,
   above it or below: a value other than a mapping is there exactly if that one delivers it.
   */
  lemma {:induction false} ReadableIffLastDelivers(ws: seq<Assignment>, path: seq<string>, value: Value, k: nat)
    requires Targeted(ws) && path != [] && !value.Mapping?
    requires k < |ws| && Comparable(ws[k].target, path)
    requires forall j :: k < j < |ws| ==> !Comparable(ws[j].target, path)
    ensures Get(SetAll(ws), path) == Some(value) <==> Delivers(ws[k], path, value)
  {
    var n := |ws| - 1;
    var front := SetAll(ws[..n]);
    if k < n {
      ReadableIffLastDelivers(ws[..n], path, value, k);
      SetElsewhere(front, ws[n].target, path, ws[n].value);
    } else if ws[n].target == path {
      SetThenGet(front, path, ws[n].value);
      assert path[|path|..] == [];
    } else {
      SetNearby(front, ws[n].target, path, ws[n].value);
    }
  }

  /** A path that no target lies on, above or below, reads as nothing. */
  lemma {:induction false} UntargetedReadsNothing(ws: seq<Assignment>, path: seq<string>)
    requires Targeted(ws) && path != [] && forall j :: 0 <= j < |ws| ==> !Comparable(ws[j].target, path)
    ensures Get(SetAll(ws), path) == None
  {
    if ws == [] {
      GetStep(map[], path);
      NothingBelow(path);
    } else {
      var n := |ws| - 1;
      UntargetedReadsNothing(ws[..n], path);
      SetElsewhere(SetAll(ws[..n]), ws[n].target, path, ws[n].value);
    }
  }

  lemma NothingBelow(path: seq<string>)
    requires path != []
    ensures Get(map[], path) == None
  {
  }

  // ----- Resolution -----------------------------------------------------------------------------------

  datatype Resolution = Resolution(inputs: Fields, resolved: seq<bool>, warned: seq<bool>)

  lemma FoundNext(imports: seq<Import>, outputs: Fields, j: nat)
    requires j < |imports|
    ensures Found(imports[..j + 1], outputs) == Found(imports[..j], outputs)
              + if TryGetNested(outputs, imports[j].output).Some?
                then [Assignment(imports[j].target, TryGetNested(outputs, imports[j].output).value)] else []
  {
    assert imports[..j + 1][..j] == imports[..j];
  }

  lemma SetAllNext(ws: seq<Assignment>, w: Assignment)
    requires Targeted(ws) && w.target != []
    ensures Targeted(ws + [w]) && SetAll(ws + [w]) == SetNested(SetAll(ws), w.target, w.value)
  {
    assert (ws + [w])[..|ws|] == ws;
  }

  lemma FoundInAllNext(deps: seq<Dependency>, i: nat)
    requires i < |deps|
    ensures FoundInAll(deps[..i + 1]) == FoundInAll(deps[..i]) + FoundIn(deps[i])
  {
    assert deps[..i + 1][..i] == deps[..i];
  }

  /** One dependency's imports; what is missing is counted, not skipped silently. */
  method ImportAll(d: Dependency, inputs: Fields, ghost before: seq<Assignment>)
    returns (after: Fields, imported: nat, missing: nat)
    requires d.outputs.Some? && WellFormed(d) && Targeted(before) && inputs == SetAll(before)
    ensures Targeted(before + FoundIn(d)) && after == SetAll(before + FoundIn(d))
    ensures imported == |FoundIn(d)| && imported + missing == |d.imports|
    ensures missing == 0 <==> Satisfied(d)
  {
    hide Found, SetAll, SetNested, TryGetNested, FoundIn;
    after, imported, missing := inputs, 0, 0;
    ghost var ws: seq<Assignment> := [];
    NothingYet(d, before);
    for j := 0 to |d.imports|
      invariant ws == Found(d.imports[..j], d.outputs.value)
      invariant Targeted(before + ws) && after == SetAll(before + ws)
      invariant imported == |ws| && imported + missing == j
      invariant missing == 0 <==> forall k :: 0 <= k < j ==> TryGetNested(d.outputs.value, d.imports[k].output).Some?
    {
      var found := TryGetNested(d.outputs.value, d.imports[j].output);
      FoundNext(d.imports, d.outputs.value, j);
      if found.None? {
        missing := missing + 1;
        continue;
      }
      ghost var w := Assignment(d.imports[j].target, found.value);
      assert before + (ws + [w]) == (before + ws) + [w];
      SetAllNext(before + ws, w);
      ws := ws + [w];
      after := SetNested(after, d.imports[j].target, found.value);
      imported := imported + 1;
    }
    AllImports(d);
  }

  lemma NothingYet(d: Dependency, before: seq<Assignment>)
    requires d.outputs.Some?
    ensures Found(d.imports[..0], d.outputs.value) == [] && before + [] == before
  {
  }

  lemma AllImports(d: Dependency)
    requires d.outputs.Some?
    ensures Found(d.imports[..|d.imports|], d.outputs.value) == FoundIn(d)
  {
    assert d.imports[..|d.imports|] == d.imports;
  }

  lemma NoImports(d: Dependency, before: seq<Assignment>)
    requires d.outputs.None?
    ensures FoundIn(d) == [] && before + FoundIn(d) == before && !Satisfied(d)
  {
  }

  lemma NoDependencies(deps: seq<Dependency>)
    ensures Targeted(FoundInAll(deps[..0])) && SetAll(FoundInAll(deps[..0])) == map[]
  {
  }

  /** `resolve_dependencies`; None stands for the error it raises. */
  method ResolveDependencies(deps: seq<Dependency>) returns (r: Option<Resolution>)
    requires forall i :: 0 <= i < |deps| ==> WellFormed(deps[i])
    ensures r.Some? <==> forall i :: 0 <= i < |deps| && deps[i].required && !deps[i].planned ==> Satisfied(deps[i])
    ensures r.Some? ==> Targeted(FoundInAll(deps)) && r.value.inputs == SetAll(FoundInAll(deps))
    ensures r.Some? ==> |r.value.resolved| == |r.value.warned| == |deps|
    ensures r.Some? ==> forall i :: 0 <= i < |deps| ==>
              (r.value.resolved[i] <==> FoundIn(deps[i]) != []) && (r.value.warned[i] <==> !Satisfied(deps[i]))
  {
    hide FoundInAll, FoundIn, SetAll, Satisfied;
    var inputs: Fields := map[];
    var resolved, warned: seq<bool> := [], [];
    NoDependencies(deps);
    for i := 0 to |deps|
      invariant Targeted(FoundInAll(deps[..i])) && inputs == SetAll(FoundInAll(deps[..i]))
      invariant |resolved| == |warned| == i
      invariant forall k :: 0 <= k < i ==> Strict(deps[k]) ==> Satisfied(deps[k])
      invariant forall k :: 0 <= k < i ==> (resolved[k] <==> FoundIn(deps[k]) != []) && (warned[k] <==> !Satisfied(deps[k]))
    {
      var d := deps[i];
      ghost var before := FoundInAll(deps[..i]);
      FoundInAllNext(deps, i);
      if d.outputs.None? {
        NoImports(d, before);
        if Strict(d) {
          return None;
        }
        resolved, warned := resolved + [false], warned + [true];
        continue;
      }
      var imported, missing;
      inputs, imported, missing := ImportAll(d, inputs, before);
      if missing > 0 {
        if Strict(d) {
          return None;
        }
      }
      resolved, warned := resolved + [imported > 0], warned + [missing > 0];
    }
    assert deps[..|deps|] == deps;
    r := Some(Resolution(inputs, resolved, warned));
  }

  // ----- Required dependencies ---------------------------------------------------------------------------

  /** `required_dependencies`: the required references, each at its first mention. */
  method RequiredDependencies(declared: seq<(Node, bool)>) returns (refs: seq<Node>)
    ensures NoDuplicates(refs)
    ensures forall a :: a in refs <==> (a, true) in declared
    ensures forall i, j :: 0 <= i < j < |refs| ==> exists k :: 0 <= k < |declared| && declared[k] == (refs[i], true) && (refs[j], true) !in declared[..k]
  {
    refs := [];
    for i := 0 to |declared|
      invariant NoDuplicates(refs)
      invariant forall a :: a in refs <==> (a, true) in declared[..i]
      invariant forall p, q :: 0 <= p < q < |refs| ==> exists k :: 0 <= k < i && declared[k] == (refs[p], true) && (refs[q], true) !in declared[..k]
    {
      var (ref, required) := declared[i];
      assert declared[..i + 1] == declared[..i] + [declared[i]];
      if !required {
        continue;
      }
      if ref in refs {
        continue;
      }
      ghost var before := refs;
      forall p | 0 <= p < |before|
        ensures exists k :: 0 <= k < i && declared[k] == (before[p], true) && (ref, true) !in declared[..k]
      {
        assert before[p] in before;
        var k :| 0 <= k < i && declared[k] == (before[p], true);
        assert declared[..k] <= declared[..i];
      }
      refs := refs + [ref];
    }
    assert declared[..|declared|] == declared;
  }

  // ----- Applying dependencies first ----------------------------------------------------------------------

  /** What the world answers at a dependency's turn. */
  datatype DepTurn = DepTurn(unreadable: bool, env: Surroundings)

  /** How far `run` got: which dependencies had their turn, and in what world the root started. */
  datatype Progress = Progress(turns: nat, rootStarted: bool, atRoot: Store)

  /** A dependency whose recorded success `run` relies on. */
  ghost predicate Relied(force: bool, answers: Slot -> DepTurn, store: Store, slot: Slot) {
    !force && !answers(slot).unreadable && StatusOf(store, slot) == StatusOk
  }

  /** The dependency is left as it stands: its record can be read and says ok, and redoing was not asked for. */
  predicate LetStand(force: bool, turn: DepTurn, store: Store, slot: Slot) {
    !force && !turn.unreadable && slot in store && store[slot].status == StatusOk
  }

  ghost function TurnOf(force: bool, turn: DepTurn, store: Store, slot: Slot): Ending {
    if LetStand(force, turn, store, slot) then Ending([], 0) else Single(CmdApply, slot, turn.env, store)
  }

  /** The effects of the first n dependencies, each on the store that those before it have left. */
  ghost function DoneBy(order: seq<Slot>, n: nat, force: bool, answers: Slot -> DepTurn, store: Store): seq<Effect>
    requires n <= |order|
  {
    if n == 0 then []
    else
      var before := DoneBy(order, n - 1, force, answers, store);
      before + TurnOf(force, answers(order[n - 1]), StoreAfter(store, before), order[n - 1]).effects
  }

  ghost function CodeAt(order: seq<Slot>, i: nat, force: bool, answers: Slot -> DepTurn, store: Store): int
    requires i < |order|
  {
    TurnOf(force, answers(order[i]), StoreAfter(store, DoneBy(order, i, force, answers, store)), order[i]).rc
  }

  /**
   The dependencies have their turns in order up to the first that does not return 0, whose code
   ends the run; only if there is none does the command itself run, on the store they have left.
   */
  ghost predicate Went(order: seq<Slot>, cmd: Command, slot: Slot, force: bool, answers: Slot -> DepTurn,
        env: Surroundings, store: Store, es: seq<Effect>, rc: int, p: Progress) {
    && p.turns <= |order| && (forall i :: 0 <= i < p.turns ==> CodeAt(order, i, force, answers, store) == 0)
    && if p.rootStarted then
         && p.turns == |order| && p.atRoot == StoreAfter(store, DoneBy(order, |order|, force, answers, store))
         && rc == Single(cmd, slot, env, p.atRoot).rc
         && es == DoneBy(order, |order|, force, answers, store) + Single(cmd, slot, env, p.atRoot).effects
       else
         && p.turns < |order| && rc == CodeAt(order, p.turns, force, answers, store) != 0
         && es == DoneBy(order, p.turns + 1, force, answers, store)
  }

  lemma DoneNext(order: seq<Slot>, i: nat, force: bool, answers: Slot -> DepTurn, store: Store)
    requires i < |order|
    ensures var before := DoneBy(order, i, force, answers, store);
            var turn := TurnOf(force, answers(order[i]), StoreAfter(store, before), order[i]);
            && DoneBy(order, i + 1, force, answers, store) == before + turn.effects
            && StoreAfter(store, before + turn.effects) == StoreAfter(StoreAfter(store, before), turn.effects)
            && CodeAt(order, i, force, answers, store) == turn.rc
  {
    var before := DoneBy(order, i, force, answers, store);
    StoreAfterConcat(store, before, TurnOf(force, answers(order[i]), StoreAfter(store, before), order[i]).effects);
  }

  lemma NothingDone(order: seq<Slot>, force: bool, answers: Slot -> DepTurn, store: Store)
    ensures DoneBy(order, 0, force, answers, store) == [] && StoreAfter(store, []) == store
  {
  }

  /** The dependency loop of `run`, and the command itself once every dependency is in place. */
  method RunWithDependencies(m: Machine, cmd: Command, slot: Slot, order: seq<Slot>, force: bool,
        answers: Slot -> DepTurn, env: Surroundings)
    returns (rc: int, ghost p: Progress, ghost es: seq<Effect>)
    requires m.Valid() && NoDuplicates(order)
    requires TransitiveHosts(m.hosts) && Safe(m.hosts, m.Now())
    modifies m
    ensures m.Valid() && Safe(m.hosts, m.Now())
    ensures Went(order, cmd, slot, force, answers, env, old(m.store), es, rc, p) && m.trace == old(m.trace) + es
    // the command runs only when every dependency's state is recorded ok, all at the same time
    ensures p.rootStarted ==> p.turns == |order| && forall i :: 0 <= i < |order| ==> StatusOf(p.atRoot, order[i]) == StatusOk
    ensures p.rootStarted ==> rc == Single(cmd, slot, env, p.atRoot).rc
    ensures !p.rootStarted ==> rc != 0 && p.turns < |order|
    // no other record is touched, and that of a dependency that was ok is left alone unless forced
    ensures forall s :: s != slot && (s !in order || Relied(force, answers, old(m.store), s)) ==> SameRecord(old(m.store), m.store, s)
  {
    hide Single, Safe, Replay, TransitiveHosts, SameRecord, StatusOf, Relied, StoreAfter, DoneBy, TurnOf, CodeAt;
    p := Progress(0, false, m.store);
    rc := 0;
    es := [];
    ghost var store := m.store;
    SameRecordReadsTheSame();
    NothingDone(order, force, answers, store);
    for i := 0 to |order|
      invariant m.Valid() && Safe(m.hosts, m.Now())
      invariant p.turns == i && !p.rootStarted
      invariant es == DoneBy(order, i, force, answers, store) && m.store == StoreAfter(store, es) && m.trace == old(m.trace) + es
      invariant forall k :: 0 <= k < i ==> CodeAt(order, k, force, answers, store) == 0
      invariant forall k :: 0 <= k < i ==> StatusOf(m.store, order[k]) == StatusOk
      invariant forall s :: s !in order || Relied(force, answers, store, s) ==> SameRecord(store, m.store, s)
    {
      DoneNext(order, i, force, answers, store);
      LetStandIff(force, answers(order[i]), m.store, order[i]);
      if !force && !answers(order[i]).unreadable && StatusOf(m.store, order[i]) == StatusOk {
        NothingMore(es, m.store);
        p := p.(turns := i + 1);
        continue;
      }
      ghost var before := m.Now();
      DependencyApplies(m.hosts, before, order[i], answers(order[i]).env);
      NotReliedHere(store, m.store, order[i], force, answers);
      rc := RunSingle(m, CmdApply, order[i], answers(order[i]).env);
      ghost var more := Single(CmdApply, order[i], answers(order[i]).env, before.store).effects;
      StoreAfterReplays(m.hosts, before, more);
      es := es + more;
      forall s | s !in order || Relied(force, answers, store, s)
        ensures SameRecord(store, m.store, s)
      {
        assert order[i] in order && s != order[i];
        SameRecordOn(store, before.store, m.store, s);
      }
      if rc != 0 {
        return;
      }
      p := p.(turns := i + 1);
    }
    p := p.(rootStarted := true, atRoot := m.store);
    ghost var before := m.Now();
    CommandStaysHome(m.hosts, before, cmd, slot, env);
    rc := RunSingle(m, cmd, slot, env);
    es := es + Single(cmd, slot, env, before.store).effects;
    forall s | s != slot && (s !in order || Relied(force, answers, store, s))
      ensures SameRecord(store, m.store, s)
    {
      SameRecordOn(store, before.store, m.store, s);
    }
  }

  lemma LetStandIff(force: bool, turn: DepTurn, store: Store, slot: Slot)
    ensures var end := TurnOf(force, turn, store, slot);
            if !force && !turn.unreadable && StatusOf(store, slot) == StatusOk then end == Ending([], 0)
            else end == Single(CmdApply, slot, turn.env, store)
  {
  }

  lemma NothingMore(es: seq<Effect>, store: Store)
    ensures es + [] == es && StoreAfter(store, []) == store
  {
  }

  /** A dependency that is applied was not relied on when the run began. */
  lemma NotReliedHere(store: Store, now: Store, slot: Slot, force: bool, answers: Slot -> DepTurn)
    requires Relied(force, answers, store, slot) ==> SameRecord(store, now, slot)
    requires force || answers(slot).unreadable || StatusOf(now, slot) != StatusOk
    ensures !Relied(force, answers, store, slot)
  {
  }

  /** The root or something that it requires is unknown, or requires itself. */
  ghost predicate Unorderable(g: Graph, root: Node) {
    exists a :: (a == root || Reaches(g, root, a)) && (a !in g || Reaches(g, a, a))
  }

  /** Everything that the root requires, and nothing else, once each and after all it requires itself. */
  ghost predicate InOrderFor(g: Graph, root: Node, order: seq<Node>) {
    && NoDuplicates(order) && (forall a :: a in order <==> Reaches(g, root, a))
    && forall i, b :: 0 <= i < |order| && Reaches(g, order[i], b) ==> b in order[..i]
  }

  /** `run`: the dependencies are ordered and applied first if that was asked for. */
  method RunModule(m: Machine, cmd: Command, g: Graph, root: Node, slot: Slot, withDeps: bool, force: bool,
        answers: Slot -> DepTurn, env: Surroundings)
    returns (rc: int, ghost order: seq<Slot>, ghost p: Progress, ghost es: seq<Effect>)
    requires m.Valid() && TransitiveHosts(m.hosts) && Safe(m.hosts, m.Now())
    modifies m
    ensures m.Valid() && Safe(m.hosts, m.Now()) && m.trace == old(m.trace) + es
    // a cycle or an unknown reference stops the command before anything has happened
    ensures var asked := withDeps && cmd in {CmdApply, CmdDeploy};
            if asked && Unorderable(g, root) then rc == 1 && !p.rootStarted && es == [] && m.store == old(m.store)
            else && (if asked then InOrderFor(g, root, order) else order == [])
                 && Went(order, cmd, slot, force, answers, env, old(m.store), es, rc, p)
    ensures p.rootStarted ==> rc == Single(cmd, slot, env, p.atRoot).rc
    // a record that says ok is redone only if that is forced or it cannot be read
    ensures forall s :: s != slot && Relied(force, answers, old(m.store), s) ==> SameRecord(old(m.store), m.store, s)
    // every module that the root requires, however indirectly, is recorded ok before the root runs
    ensures p.rootStarted && withDeps && (cmd == CmdApply || cmd == CmdDeploy) ==>
              forall a :: Reaches(g, root, a) ==> StatusOf(p.atRoot, a) == StatusOk
  {
    hide Went, Reaches, Single;
    var found: seq<Slot> := [];
    if withDeps && (cmd == CmdApply || cmd == CmdDeploy) {
      var sorted := DependencyOrder(g, root);
      if !sorted.Ordered? {
        UnorderableIs(g, root, sorted);
        return 1, [], Progress(0, false, m.store), [];
      }
      found := sorted.order;
      OrderedIsSane(g, root, found);
    }
    order := found;
    rc, p, es := RunWithDependencies(m, cmd, slot, found, force, answers, env);
  }

  lemma UnorderableIs(g: Graph, root: Node, sorted: Order)
    requires !sorted.Ordered?
    requires sorted.Cyclic? ==> CyclePath(g, sorted.path) && [root] <= sorted.path
    requires sorted.Missing? ==> sorted.ref !in g && (sorted.ref == root || Reaches(g, root, sorted.ref))
    ensures Unorderable(g, root)
  {
    if sorted.Cyclic? {
      var last := sorted.path[|sorted.path| - 1];
      CyclePathMeansCycle(g, sorted.path);
      assert WalkFromTo(g, sorted.path, root, last);
      assert Reaches(g, root, last) && Reaches(g, last, last);
    }
  }

  lemma OrderedIsSane(g: Graph, root: Node, order: seq<Node>)
    requires root in g && (forall a :: a in order <==> Reaches(g, root, a)) && NoDuplicates(order)
    requires forall i, b :: 0 <= i < |order| && Reaches(g, order[i], b) ==> b in order[..i]
    requires forall a :: Reaches(g, root, a) ==> a in g && a != root
    ensures !Unorderable(g, root)
  {
    forall a | a == root || Reaches(g, root, a)
      ensures a in g && !Reaches(g, a, a)
    {
      if a != root {
        var i :| 0 <= i < |order| && order[i] == a;
        assert a !in order[..i];
      }
    }
  }

  lemma DependencyApplies(hosts: Hosts, w: World, slot: Slot, env: Surroundings)
    requires TransitiveHosts(hosts) && Safe(hosts, w)
    ensures var after := SingleRun.After(hosts, w, CmdApply, slot, env);
            && Safe(hosts, after)
            && (Single(CmdApply, slot, env, w.store).rc == 0 ==> StatusOf(after.store, slot) == StatusOk)
            && (forall s :: s != slot ==> SameRecord(w.store, after.store, s))
  {
    CommandStaysHome(hosts, w, CmdApply, slot, env);
    if Single(CmdApply, slot, env, w.store).rc == 0 {
      SuccessIsRecorded(hosts, w, CmdApply, slot, env);
    }
  }

  lemma CommandStaysHome(hosts: Hosts, w: World, cmd: Command, slot: Slot, env: Surroundings)
    requires TransitiveHosts(hosts) && Safe(hosts, w)
    ensures var after := SingleRun.After(hosts, w, cmd, slot, env);
            && Safe(hosts, after)
            && (forall s :: s != slot ==> SameRecord(w.store, after.store, s))
  {
    hide Single;
    var es := Single(cmd, slot, env, w.store).effects;
    SingleIsCrashSafe(hosts, w, cmd, slot, env);
    assert es[..|es|] == es;
    EffectsStayInSlot(cmd, slot, env, w.store);
    forall s | s != slot
      ensures SameRecord(w.store, SingleRun.After(hosts, w, cmd, slot, env).store, s)
    {
      OtherSlotsUntouched(hosts, w, es, slot, s);
    }
  }
}
