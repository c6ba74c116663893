/** Nested inputs: overlaying them, comparing them, and pruning what says nothing. */
module Inputs {
  import opened Ordering

  type Fields = map<string, Value>

  /** A decoded YAML value; mapping keys are strings, and their order says nothing. */
  datatype Value =
    | Null
    | Bool(flag: bool)
    | Number(number: real)
    | Text(text: string)
    | List(items: seq<Value>)
    | Mapping(fields: Fields)

  // ----- Overlay -----------------------------------------------------------------------------------

  /** What a key has after `merge_mappings`. */
  function Overlay(base: Value, over: Value): Value
    decreases over
  {
    if over.Mapping? && base.Mapping? then
      Mapping(map k | k in base.fields.Keys + over.fields.Keys ::
        if k !in over.fields then base.fields[k]
        else if k in base.fields then Overlay(base.fields[k], over.fields[k])
        else over.fields[k])
    else over
  }

  function Merge(base: Fields, over: Fields): Fields {
    Overlay(Mapping(base), Mapping(over)).fields
  }

  lemma MergeAt(base: Fields, over: Fields, k: string)
    requires k in over
    ensures k in Merge(base, over)
    ensures Merge(base, over)[k] == if k in base then Overlay(base[k], over[k]) else over[k]
    ensures k in base && base[k].Mapping? && over[k].Mapping? ==> Merge(base, over)[k] == Mapping(Merge(base[k].fields, over[k].fields))
    ensures !(k in base && base[k].Mapping? && over[k].Mapping?) ==> Merge(base, over)[k] == over[k]
  {
  }

  lemma MergeKeys(base: Fields, over: Fields)
    ensures Merge(base, over).Keys == base.Keys + over.Keys
    ensures forall k :: k in base && k !in over ==> Merge(base, over)[k] == base[k]
  {
  }

  /** `merge_mappings` */
  method MergeMappings(base: Fields, over: Fields) returns (out: Fields)
    ensures out == Merge(base, over)
    decreases Mapping(over)
  {
    hide Merge, Overlay;
    MergeKeys(base, over);
    out := base;
    var keys := over.Keys;
    while keys != {}
      invariant keys <= over.Keys
      invariant out.Keys == base.Keys + (over.Keys - keys)
      invariant forall k :: k in out ==> out[k] == if k in over && k !in keys then Merge(base, over)[k] else base[k]
      decreases keys
    {
      var key :| key in keys;
      keys := keys - {key};
      var value := over[key];
      MergeAt(base, over, key);
      if value.Mapping? && key in out && out[key].Mapping? {
        var inner := MergeMappings(out[key].fields, value.fields);
        out := out[key := Mapping(inner)];
        continue;
      }
      out := out[key := value];
    }
  }

  // ----- Drift -------------------------------------------------------------------------------------

  /** Everything that current says, baseline says too. */
  predicate Covered(current: Value, baseline: Value)
    decreases current
  {
    if current.Mapping? then
      baseline.Mapping? && forall k :: k in current.fields ==> k in baseline.fields && Covered(current.fields[k], baseline.fields[k])
    else current == baseline
  }

  /** What stands at a path of keys, if the path leads anywhere. */
  function At(v: Value, path: seq<string>): Option<Value> {
    if path == [] then Some(v)
    else if v.Mapping? && path[0] in v.fields then At(v.fields[path[0]], path[1..])
    else None
  }

  /** At this path the two really differ, and not merely somewhere below. */
  predicate DiffersAt(current: Value, baseline: Value, path: seq<string>) {
    At(current, path).Some?
    && (At(baseline, path).None? || (At(current, path) != At(baseline, path)
                                     && !(At(current, path).value.Mapping? && At(baseline, path).value.Mapping?)))
  }

  /** `_explicit_input_drift_detail`, with the path as a list of keys; None is the empty detail. */
  method DriftDetail(current: Value, baseline: Value) returns (detail: Option<seq<string>>)
    ensures detail.None? <==> Covered(current, baseline)
    ensures detail.Some? ==> DiffersAt(current, baseline, detail.value)
    decreases current
  {
    if current.Mapping? {
      if !baseline.Mapping? {
        return Some([]);
      }
      var keys := current.fields.Keys;
      while keys != {}
        invariant keys <= current.fields.Keys
        invariant forall k :: k in current.fields && k !in keys ==> k in baseline.fields && Covered(current.fields[k], baseline.fields[k])
        decreases keys
      {
        var key :| key in keys;
        keys := keys - {key};
        if key !in baseline.fields {
          assert At(current, [key]).Some? && At(baseline, [key]).None?;
          return Some([key]);
        }
        var below := DriftDetail(current.fields[key], baseline.fields[key]);
        if below.Some? {
          assert ([key] + below.value)[1..] == below.value;
          return Some([key] + below.value);
        }
      }
      return None;
    }
    if current != baseline {
      return Some([]);
    }
    detail := None;
  }

  // ----- Drift means a no-op overlay -----------------------------------------------------------------

  /** There is no drift exactly when overlaying the current inputs would change nothing. */
  lemma {:induction false} NoDriftIffNoOp(current: Value, baseline: Value)
    ensures Covered(current, baseline) <==> Overlay(baseline, current) == baseline
    decreases current
  {
    if current.Mapping? && baseline.Mapping? {
      var over := Overlay(baseline, current);
      forall k | k in current.fields && k in baseline.fields
        ensures Covered(current.fields[k], baseline.fields[k]) <==> over.fields[k] == baseline.fields[k]
      {
        NoDriftIffNoOp(current.fields[k], baseline.fields[k]);
      }
      if Covered(current, baseline) {
        assert over.fields.Keys == baseline.fields.Keys;
        assert over.fields == baseline.fields;
      } else {
        var k :| k in current.fields && !(k in baseline.fields && Covered(current.fields[k], baseline.fields[k]));
        assert k in over.fields;
      }
    }
  }

  lemma {:induction false} DriftIsReflexive(v: Value)
    ensures Covered(v, v)
    decreases v
  {
    if v.Mapping? {
      forall k | k in v.fields
        ensures Covered(v.fields[k], v.fields[k])
      {
        DriftIsReflexive(v.fields[k]);
      }
    }
  }

  lemma {:induction false} DriftIsTransitive(a: Value, b: Value, c: Value)
    requires Covered(a, b) && Covered(b, c)
    ensures Covered(a, c)
    decreases a
  {
    if a.Mapping? {
      forall k | k in a.fields
        ensures k in c.fields && Covered(a.fields[k], c.fields[k])
      {
        DriftIsTransitive(a.fields[k], b.fields[k], c.fields[k]);
      }
    }
  }

  /** Inputs that cover each other are the same inputs. */
  lemma {:induction false} DriftIsAntisymmetric(a: Value, b: Value)
    requires Covered(a, b) && Covered(b, a)
    ensures a == b
    decreases a
  {
    if a.Mapping? {
      forall k | k in a.fields
        ensures k in b.fields && a.fields[k] == b.fields[k]
      {
        DriftIsAntisymmetric(a.fields[k], b.fields[k]);
      }
      assert a.fields == b.fields;
    }
  }

  /** Inputs never drift from what they have been overlaid on, whatever the defaults were. */
  lemma {:induction false} NoDriftFromOverlay(defaults: Value, current: Value)
    ensures Covered(current, Overlay(defaults, current))
    decreases current
  {
    if current.Mapping? && defaults.Mapping? {
      forall k | k in current.fields
        ensures Covered(current.fields[k], Overlay(defaults, current).fields[k])
      {
        if k in defaults.fields {
          NoDriftFromOverlay(defaults.fields[k], current.fields[k]);
        } else {
          DriftIsReflexive(current.fields[k]);
        }
      }
    } else {
      DriftIsReflexive(current);
    }
  }

  // ----- Overlays do not associate ---------------------------------------------------------------------

  /** The second mapping says something about every key of the first. */
  predicate Shadowed(a: Value, c: Value)
    decreases a
  {
    a.Mapping? && c.Mapping? ==>
      forall k :: k in a.fields ==> k in c.fields && Shadowed(a.fields[k], c.fields[k])
  }

  /** No value other than a mapping stands between two mappings of which the outer would shine through. */
  predicate Unbroken(a: Value, b: Value, c: Value)
    decreases c
  {
    a.Mapping? && c.Mapping? ==>
      if b.Mapping? then
        forall k :: k in a.fields && k in b.fields && k in c.fields ==> Unbroken(a.fields[k], b.fields[k], c.fields[k])
      else Shadowed(a, c)
  }

  lemma {:induction false} ShadowedIffReplaced(a: Value, c: Value)
    ensures Shadowed(a, c) <==> Overlay(a, c) == c
    decreases c
  {
    if a.Mapping? && c.Mapping? {
      var over := Overlay(a, c);
      forall k | k in a.fields && k in c.fields
        ensures Shadowed(a.fields[k], c.fields[k]) <==> over.fields[k] == c.fields[k]
      {
        ShadowedIffReplaced(a.fields[k], c.fields[k]);
      }
      if Shadowed(a, c) {
        assert over.fields.Keys == c.fields.Keys;
        assert over.fields == c.fields;
      } else {
        var k :| k in a.fields && !(k in c.fields && Shadowed(a.fields[k], c.fields[k]));
        assert k in over.fields;
      }
    }
  }

  /** Overlaying associates exactly for unbroken triples of inputs. */
  lemma {:induction false} AssociatesIffUnbroken(a: Value, b: Value, c: Value)
    ensures Overlay(Overlay(a, b), c) == Overlay(a, Overlay(b, c)) <==> Unbroken(a, b, c)
    decreases c
  {
    ShadowedIffReplaced(a, c);
    if a.Mapping? && b.Mapping? && c.Mapping? {
      var left, right := Overlay(Overlay(a, b), c), Overlay(a, Overlay(b, c));
      forall k | k in a.fields && k in b.fields && k in c.fields
        ensures left.fields[k] == right.fields[k] <==> Unbroken(a.fields[k], b.fields[k], c.fields[k])
      {
        AssociatesIffUnbroken(a.fields[k], b.fields[k], c.fields[k]);
        assert left.fields[k] == Overlay(Overlay(a.fields[k], b.fields[k]), c.fields[k]);
        assert right.fields[k] == Overlay(a.fields[k], Overlay(b.fields[k], c.fields[k]));
      }
      assert left.fields.Keys == right.fields.Keys;
      if Unbroken(a, b, c) {
        assert left.fields == right.fields;
      } else {
        var k :| k in a.fields && k in b.fields && k in c.fields && !Unbroken(a.fields[k], b.fields[k], c.fields[k]);
        assert left.fields[k] != right.fields[k];
      }
    }
  }

  /** The smallest broken triple: a number between two mappings. */
  lemma OverlayDoesNotAssociate()
    ensures var a := Mapping(map["k" := Mapping(map["x" := Number(1.0)])]);
            var b := Mapping(map["k" := Number(5.0)]);
            var c := Mapping(map["k" := Mapping(map["y" := Number(2.0)])]);
            !Unbroken(a, b, c) && Overlay(Overlay(a, b), c) != Overlay(a, Overlay(b, c))
  {
    var a := Mapping(map["k" := Mapping(map["x" := Number(1.0)])]);
    var b := Mapping(map["k" := Number(5.0)]);
    var c := Mapping(map["k" := Mapping(map["y" := Number(2.0)])]);
    assert "x" in a.fields["k"].fields && !Shadowed(a.fields["k"], c.fields["k"]);
    assert "k" in a.fields && "k" in b.fields && "k" in c.fields;
    AssociatesIffUnbroken(a, b, c);
  }

  // ----- Pruning -----------------------------------------------------------------------------------------

  predicate Blank(text: string) {
    forall c :: c in text ==> c in {' ', '\t', '\n', '\r'}
  }

  /** Values that say nothing and are dropped from the mapping or list they stand in. */
  predicate Empty(v: Value) {
    match v
    case Null => true
    case Text(text) => Blank(text)
    case List(items) => items == []
    case Mapping(fields) => fields == map[]
    case _ => false
  }

  /** `_prune_empty_explicit_inputs`: a part is dropped if nothing is left of it. */
  function Prune(v: Value): Value {
    match v
    case Mapping(fields) => Mapping(map k | k in fields && !Empty(Prune(fields[k])) :: Prune(fields[k]))
    case List(items) => List(PruneItems(items))
    case _ => v
  }

  function PruneItems(items: seq<Value>): (r: seq<Value>)
    ensures |r| <= |items|
  {
    if items == [] then []
    else
      var head := Prune(items[0]);
      (if Empty(head) then [] else [head]) + PruneItems(items[1..])
  }

  /** Nothing inside would be dropped. */
  predicate Solid(v: Value) {
    match v
    case Mapping(fields) => forall k :: k in fields ==> Solid(fields[k]) && !Empty(fields[k])
    case List(items) => forall i :: 0 <= i < |items| ==> Solid(items[i]) && !Empty(items[i])
    case _ => true
  }

  /** Pruning changes exactly what is not solid. */
  lemma {:induction false} PruneFixesSolid(v: Value)
    ensures Prune(v) == v <==> Solid(v)
    decreases v
  {
    match v
    case Mapping(fields) =>
      forall k | k in fields
        ensures Prune(fields[k]) == fields[k] <==> Solid(fields[k])
      {
        PruneFixesSolid(fields[k]);
      }
      if Solid(v) {
        assert Prune(v).fields == fields;
      } else {
        var k :| k in fields && !(Solid(fields[k]) && !Empty(fields[k]));
        assert k in Prune(v).fields ==> Prune(v).fields[k] != fields[k];
      }
    case List(items) => PruneFixesSolidItems(items);
    case _ =>
  }

  lemma {:induction false} PruneFixesSolidItems(items: seq<Value>)
    ensures PruneItems(items) == items <==> Solid(List(items))
    decreases items
  {
    if items != [] {
      PruneFixesSolid(items[0]);
      PruneFixesSolidItems(items[1..]);
      var rest := items[1..];
      assert items == [items[0]] + rest;
      assert Solid(List(items)) <==> Solid(items[0]) && !Empty(items[0]) && Solid(List(rest)) by {
        assert forall i :: 0 <= i < |rest| ==> rest[i] == items[i + 1];
        assert forall i :: 1 <= i < |items| ==> items[i] == rest[i - 1];
      }
      if !Empty(Prune(items[0])) {
        assert PruneItems(items) == [Prune(items[0])] + PruneItems(rest);
      }
    }
  }

  /** What is left after pruning is solid, so pruning twice is pruning once. */
  lemma {:induction false} PrunedIsSolid(v: Value)
    ensures Solid(Prune(v))
    ensures Prune(Prune(v)) == Prune(v)
    decreases v, 1
  {
    match v {
      case Mapping(fields) =>
        forall k | k in Prune(v).fields
          ensures Solid(Prune(v).fields[k])
        {
          PrunedIsSolid(fields[k]);
        }
      case List(items) => PrunedItemsAreSolid(items);
      case _ =>
    }
    PruneFixesSolid(Prune(v));
  }

  lemma {:induction false} PrunedItemsAreSolid(items: seq<Value>)
    ensures Solid(List(PruneItems(items)))
    decreases items
  {
    if items != [] {
      PrunedIsSolid(items[0]);
      PrunedItemsAreSolid(items[1..]);
    }
  }

  /** Somewhere in the value stands something other than nothing and white space. */
  ghost predicate SaysSomething(v: Value)
    decreases v
  {
    match v
    case Null => false
    case Text(text) => exists i :: 0 <= i < |text| && text[i] != ' ' && text[i] != '\t' && text[i] != '\n' && text[i] != '\r'
    case List(items) => exists i :: 0 <= i < |items| && SaysSomething(items[i])
    case Mapping(fields) => exists k :: k in fields && SaysSomething(fields[k])
    case _ => true
  }

  /** Pruning leaves nothing of a value exactly if it says nothing, however deep. */
  lemma {:induction false} PrunedAwayIff(v: Value)
    ensures Empty(Prune(v)) <==> !SaysSomething(v)
    decreases v
  {
    match v
    case Mapping(fields) =>
      forall k | k in fields
        ensures Empty(Prune(fields[k])) <==> !SaysSomething(fields[k])
      {
        PrunedAwayIff(fields[k]);
      }
      if k :| k in fields && SaysSomething(fields[k]) {
        assert k in Prune(v).fields;
      } else {
        assert Prune(v).fields == map[];
      }
    case List(items) => ItemsPrunedAwayIff(items);
    case Text(text) =>
      assert forall i :: 0 <= i < |text| ==> text[i] in text;
    case _ =>
  }

  lemma {:induction false} ItemsPrunedAwayIff(items: seq<Value>)
    ensures PruneItems(items) == [] <==> !SaysSomething(List(items))
    decreases items
  {
    if items != [] {
      PrunedAwayIff(items[0]);
      ItemsPrunedAwayIff(items[1..]);
      var rest := items[1..];
      if i :| 0 <= i < |items| && SaysSomething(items[i]) {
        assert i > 0 ==> SaysSomething(rest[i - 1]);
      }
      if i :| 0 <= i < |rest| && SaysSomething(rest[i]) {
        assert SaysSomething(items[i + 1]);
      }
    }
  }

  /** A key is kept exactly if its value says something. */
  lemma KeptIffSaysSomething(fields: Fields, k: string)
    ensures k in Prune(Mapping(fields)).fields <==> k in fields && SaysSomething(fields[k])
  {
    if k in fields {
      PrunedAwayIff(fields[k]);
    }
  }

  // ----- Unchanged inputs ----------------------------------------------------------------------------------

  /** Every list that survives pruning survives it unchanged. */
  predicate ListsAreSolid(v: Value) {
    match v
    case Mapping(fields) => forall k :: k in fields && !Empty(Prune(fields[k])) ==> ListsAreSolid(fields[k])
    case List(_) => Solid(v)
    case _ => true
  }

  /**
   Inputs compared with themselves, pruned on one side only, report drift exactly when one of
   their lists holds something that pruning drops.
   */
  lemma {:induction false} SelfDriftIffHollowList(v: Value)
    ensures Covered(Prune(v), v) <==> ListsAreSolid(v)
    decreases v
  {
    match v
    case Mapping(fields) =>
      forall k | k in fields
        ensures Covered(Prune(fields[k]), fields[k]) <==> ListsAreSolid(fields[k])
      {
        SelfDriftIffHollowList(fields[k]);
      }
    case List(items) => PruneFixesSolid(v);
    case _ =>
  }

  /** `explicit_step_inputs_changed`, from the two decoded mappings. */
  method InputsChanged(explicit: Fields, baseline: Fields) returns (changed: bool)
    ensures changed <==> Prune(Mapping(explicit)).fields != map[] && baseline != map[] && !Covered(Prune(Mapping(explicit)), Mapping(baseline))
    ensures changed ==> SaysSomething(Mapping(explicit))
  {
    PrunedAwayIff(Mapping(explicit));
    var current := Prune(Mapping(explicit));
    if current.fields == map[] {
      return false;
    }
    if baseline == map[] {
      return false;
    }
    var detail := DriftDetail(current, Mapping(baseline));
    changed := detail.Some?;
  }
}
