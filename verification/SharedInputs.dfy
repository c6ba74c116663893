/**
 `set_nested` on dictionaries as objects.  Imported mappings are not copied: the inputs refer to
 the very dictionaries of the outputs, and a later target below one of them writes into both.
 */
module SharedInputs {
  import opened Ordering
  import opened Inputs
  import opened Dependencies

  type Ref = nat

  /** What stands at a key: a dictionary object, or any other value. */
  datatype Cell = Leaf(value: Value) | Dict(ref: Ref)

  type Heap = map<Ref, map<string, Cell>>

  datatype Objects = Objects(heap: Heap, next: Ref)

  ghost predicate Allocated(o: Objects) {
    && (forall r :: r in o.heap ==> r < o.next)
    && forall r, k :: r in o.heap && k in o.heap[r] && o.heap[r][k].Dict? ==> o.heap[r][k].ref in o.heap
  }

  /** Follow a path from a cell. */
  function Look(h: Heap, c: Cell, path: seq<string>): Option<Cell>
    decreases |path|
  {
    if path == [] then Some(c)
    else if c.Dict? && c.ref in h && path[0] in h[c.ref] then Look(h, h[c.ref][path[0]], path[1..])
    else None
  }

  // ----- set_nested -----------------------------------------------------------------------------------

  function Created(o: Objects, r: Ref, key: string): Objects
    requires r in o.heap
  {
    Objects(o.heap[r := o.heap[r][key := Dict(o.next)]][o.next := map[]], o.next + 1)
  }

  ghost function Put(o: Objects, r: Ref, path: seq<string>, c: Cell): (after: Objects)
    requires Allocated(o) && r in o.heap && path != [] && (c.Dict? ==> c.ref in o.heap)
    ensures Allocated(after) && after.next >= o.next && forall x :: x in o.heap ==> x in after.heap
    decreases |path|
  {
    var t := o.heap[r];
    if |path| == 1 then o.(heap := o.heap[r := t[path[0] := c]])
    else if path[0] in t && t[path[0]].Dict? then Put(o, t[path[0]].ref, path[1..], c)
    else Put(Created(o, r, path[0]), o.next, path[1..], c)
  }

  /** One more key of the way: the dictionary there, or a new one. */
  lemma PutNext(o: Objects, r: Ref, path: seq<string>, c: Cell)
    requires Allocated(o) && r in o.heap && |path| > 1 && (c.Dict? ==> c.ref in o.heap)
    ensures var there := path[0] in o.heap[r] && o.heap[r][path[0]].Dict?;
            var next := if there then o else Created(o, r, path[0]);
            var q := if there then o.heap[r][path[0]].ref else o.next;
            && Allocated(next) && r in next.heap && path[0] in next.heap[r] && next.heap[r][path[0]] == Dict(q)
            && q in next.heap && (c.Dict? ==> c.ref in next.heap)
            && Put(o, r, path, c) == Put(next, q, path[1..], c)
  {
  }

  lemma PutLast(o: Objects, r: Ref, path: seq<string>, c: Cell)
    requires Allocated(o) && r in o.heap && |path| == 1 && (c.Dict? ==> c.ref in o.heap)
    ensures Put(o, r, path, c) == o.(heap := o.heap[r := o.heap[r][path[0] := c]])
  {
  }

  class DictStore {
    var heap: Heap
    var next: Ref

    ghost function Now(): Objects
      reads this
    {
      Objects(heap, next)
    }

    constructor (heap: Heap, next: Ref)
      ensures Now() == Objects(heap, next)
    {
      this.heap, this.next := heap, next;
    }

    method SetNested(dst: Ref, path: seq<string>, value: Cell)
      requires Allocated(Now()) && dst in heap && path != [] && (value.Dict? ==> value.ref in heap)
      modifies this
      ensures Now() == Put(old(Now()), dst, path, value)
    {
      hide Put, Allocated;
      var cur, i := dst, 0;
      assert path[0..] == path;
      while i < |path| - 1
        invariant 0 <= i < |path| && Allocated(Now()) && cur in heap && (value.Dict? ==> value.ref in heap)
        invariant Put(Now(), cur, path[i..], value) == Put(old(Now()), dst, path, value)
      {
        var key := path[i];
        PutNext(Now(), cur, path[i..], value);
        assert path[i..][1..] == path[i + 1..];
        if key !in heap[cur] || heap[cur][key].Leaf? {
          heap := heap[cur := heap[cur][key := Dict(next)]][next := map[]];
          next := next + 1;
        }
        cur := heap[cur][key].ref;
        i := i + 1;
      }
      PutLast(Now(), cur, path[i..], value);
      heap := heap[cur := heap[cur][path[i] := value]];
    }
  }

  // ----- Whose dictionaries are whose -------------------------------------------------------------------

  /** Where each dictionary of the inputs hangs. */
  type Homes = map<Ref, seq<string>>

  /**
   The dictionaries of the inputs hang in one place each, and the outputs' own dictionaries lead
   nowhere else.
   */
  ghost predicate Homed(h: Heap, home: Homes, outputs: set<Ref>) {
    && (forall x :: x in home ==> x in h && x !in outputs)
    && (forall x, k :: x in home && k in h[x] ==> Hangs(home, outputs, x, k, h[x][k]))
    && (forall f :: f in outputs ==> f in h)
    && (forall f, k :: f in outputs && k in h[f] ==> FromOutputs(h[f][k], outputs))
  }

  /** What stands at key k of dictionary x came from the outputs, or hangs there and nowhere else. */
  predicate Hangs(home: Homes, outputs: set<Ref>, x: Ref, k: string, c: Cell)
    requires x in home
  {
    FromOutputs(c, outputs) || (c.ref in home && home[c.ref] == home[x] + [k])
  }

  /** A cell that may be imported: a plain value, or a dictionary of the outputs. */
  predicate FromOutputs(c: Cell, outputs: set<Ref>) {
    c.Dict? ==> c.ref in outputs
  }

  lemma {:induction false} OutputsLeadToOutputs(h: Heap, home: Homes, outputs: set<Ref>, c: Cell, u: seq<string>)
    requires Homed(h, home, outputs) && FromOutputs(c, outputs)
    ensures Look(h, c, u).Some? ==> FromOutputs(Look(h, c, u).value, outputs)
    decreases |u|
  {
    if u != [] && c.Dict? && c.ref in h && u[0] in h[c.ref] {
      OutputsLeadToOutputs(h, home, outputs, h[c.ref][u[0]], u[1..]);
    }
  }

  /** From a dictionary of the inputs a path leads to the dictionary that hangs at its end, or to outputs. */
  lemma {:induction false} PathsLeadHome(h: Heap, home: Homes, outputs: set<Ref>, r: Ref, u: seq<string>)
    requires Homed(h, home, outputs) && r in home
    ensures var found := Look(h, Dict(r), u);
            found.Some? && found.value.Dict? && found.value.ref !in outputs ==>
              found.value.ref in home && home[found.value.ref] == home[r] + u
    decreases |u|
  {
    if u != [] && u[0] in h[r] {
      var c := h[r][u[0]];
      assert Hangs(home, outputs, r, u[0], c);
      if c.Dict? && c.ref !in outputs {
        PathsLeadHome(h, home, outputs, c.ref, u[1..]);
        assert home[r] + [u[0]] + u[1..] == home[r] + u;
      } else {
        OutputsLeadToOutputs(h, home, outputs, c, u[1..]);
      }
    }
  }

  /** What is looked up does not change if no dictionary on the way does. */
  lemma {:induction false} LookFrame(h: Heap, after: Heap, c: Cell, path: seq<string>)
    requires forall u :: u <= path && Passes(h, c, u) ==> Same(h, after, Look(h, c, u).value.ref)
    ensures Look(after, c, path) == Look(h, c, path)
    decreases |path|
  {
    if path != [] && c.Dict? {
      assert [] <= path && Passes(h, c, []);
      assert Same(h, after, c.ref);
      if c.ref in h && path[0] in h[c.ref] {
        forall u | u <= path[1..] && Passes(h, h[c.ref][path[0]], u)
          ensures Same(h, after, Look(h, h[c.ref][path[0]], u).value.ref)
        {
          var v := [path[0]] + u;
          assert v[1..] == u && v <= path && Look(h, c, v) == Look(h, h[c.ref][path[0]], u);
          assert Passes(h, c, v);
        }
        LookFrame(h, after, h[c.ref][path[0]], path[1..]);
      }
    }
  }

  predicate Passes(h: Heap, c: Cell, u: seq<string>) {
    Look(h, c, u).Some? && Look(h, c, u).value.Dict?
  }

  predicate Same(h: Heap, after: Heap, x: Ref) {
    (x in h <==> x in after) && (x in h ==> after[x] == h[x])
  }

  /** A path below one of the inputs' dictionaries stays clear of the outputs until its last key. */
  ghost predicate Clear(h: Heap, outputs: set<Ref>, r: Ref, p: seq<string>) {
    forall u :: u < p && Passes(h, Dict(r), u) ==> Look(h, Dict(r), u).value.ref !in outputs
  }

  /** Where the dictionaries hang after a `Put`. */
  ghost function HomesAfter(o: Objects, home: Homes, r: Ref, p: seq<string>): Homes
    requires Allocated(o) && r in o.heap && r in home && p != []
    decreases |p|
  {
    var t := o.heap[r];
    if |p| == 1 then home
    else if p[0] in t && t[p[0]].Dict? then
      if t[p[0]].ref in home then HomesAfter(o, home, t[p[0]].ref, p[1..]) else home
    else HomesAfter(Created(o, r, p[0]), home[o.next := home[r] + [p[0]]], o.next, p[1..])
  }

  // ----- What a Put changes ---------------------------------------------------------------------------

  /** Everything that a `Put` relies on. */
  ghost predicate Fit(o: Objects, home: Homes, outputs: set<Ref>, r: Ref, p: seq<string>, c: Cell) {
    && Allocated(o) && Homed(o.heap, home, outputs) && r in home && p != []
    && FromOutputs(c, outputs) && Clear(o.heap, outputs, r, p)
  }

  lemma FitBelow(o: Objects, home: Homes, outputs: set<Ref>, r: Ref, p: seq<string>, c: Cell)
    requires Fit(o, home, outputs, r, p, c) && |p| > 1 && p[0] in o.heap[r] && o.heap[r][p[0]].Dict?
    ensures Fit(o, home, outputs, o.heap[r][p[0]].ref, p[1..], c) && home[o.heap[r][p[0]].ref] == home[r] + [p[0]]
  {
    var child := o.heap[r][p[0]];
    assert Hangs(home, outputs, r, p[0], child);
    assert [p[0]] < p && Look(o.heap, Dict(r), [p[0]]) == Some(child) && Passes(o.heap, Dict(r), [p[0]]);
    forall u | u < p[1..] && Passes(o.heap, child, u)
      ensures Look(o.heap, child, u).value.ref !in outputs
    {
      var v := [p[0]] + u;
      assert v[1..] == u && v < p && Look(o.heap, Dict(r), v) == Look(o.heap, child, u);
      assert Passes(o.heap, Dict(r), v);
    }
  }

  lemma FitCreated(o: Objects, home: Homes, outputs: set<Ref>, r: Ref, p: seq<string>, c: Cell)
    requires Fit(o, home, outputs, r, p, c) && |p| > 1 && (p[0] !in o.heap[r] || o.heap[r][p[0]].Leaf?)
    ensures Fit(Created(o, r, p[0]), home[o.next := home[r] + [p[0]]], outputs, o.next, p[1..], c)
  {
    var after := Created(o, r, p[0]);
    var more := home[o.next := home[r] + [p[0]]];
    assert after.heap[o.next] == map[] && o.next !in home && o.next !in outputs;
    forall x, k | x in more && k in after.heap[x]
      ensures Hangs(more, outputs, x, k, after.heap[x][k])
    {
      if x != r || k != p[0] {
        assert Hangs(home, outputs, x, k, o.heap[x][k]);
      }
    }
    forall f, k | f in outputs && k in after.heap[f]
      ensures FromOutputs(after.heap[f][k], outputs)
    {
      assert after.heap[f] == o.heap[f];
    }
    forall u | u < p[1..] && Passes(after.heap, Dict(o.next), u)
      ensures Look(after.heap, Dict(o.next), u).value.ref !in outputs
    {
      assert u == [];
    }
  }

  /** After a `Put` every dictionary of the inputs still hangs in one place; old ones stay where they were. */
  lemma {:induction false} PutKeepsHomed(o: Objects, home: Homes, outputs: set<Ref>, r: Ref, p: seq<string>, c: Cell)
    requires Fit(o, home, outputs, r, p, c)
    ensures var more := HomesAfter(o, home, r, p);
            && Homed(Put(o, r, p, c).heap, more, outputs)
            && forall x :: x in home ==> x in more && more[x] == home[x]
    decreases |p|
  {
    var t := o.heap[r];
    if |p| == 1 {
      var after := Put(o, r, p, c).heap;
      forall x, k | x in home && k in after[x]
        ensures Hangs(home, outputs, x, k, after[x][k])
      {
        if x != r || k != p[0] {
          assert Hangs(home, outputs, x, k, o.heap[x][k]);
        }
      }
      assert forall f :: f in outputs ==> after[f] == o.heap[f];
    } else if p[0] in t && t[p[0]].Dict? {
      FitBelow(o, home, outputs, r, p, c);
      PutKeepsHomed(o, home, outputs, t[p[0]].ref, p[1..], c);
    } else {
      FitCreated(o, home, outputs, r, p, c);
      PutKeepsHomed(Created(o, r, p[0]), home[o.next := home[r] + [p[0]]], outputs, o.next, p[1..], c);
    }
  }

  /** A `Put` changes only dictionaries that hang on the way. */
  lemma {:induction false} PutFrame(o: Objects, home: Homes, outputs: set<Ref>, r: Ref, p: seq<string>, c: Cell, x: Ref)
    requires Fit(o, home, outputs, r, p, c) && x in o.heap && !(x in home && home[r] <= home[x])
    ensures x in Put(o, r, p, c).heap && Put(o, r, p, c).heap[x] == o.heap[x]
    decreases |p|
  {
    var t := o.heap[r];
    if |p| > 1 {
      if p[0] in t && t[p[0]].Dict? {
        FitBelow(o, home, outputs, r, p, c);
        PutFrame(o, home, outputs, t[p[0]].ref, p[1..], c, x);
      } else {
        FitCreated(o, home, outputs, r, p, c);
        PutFrame(Created(o, r, p[0]), home[o.next := home[r] + [p[0]]], outputs, o.next, p[1..], c, x);
      }
    }
  }

  /** What hangs at another key of the dictionary is spared. */
  lemma PutSpares(o: Objects, home: Homes, outputs: set<Ref>, r: Ref, p: seq<string>, c: Cell, x: Ref, key: string)
    requires Fit(o, home, outputs, r, p, c) && x in home && key != p[0] && home[r] + [key] <= home[x]
    ensures Same(o.heap, Put(o, r, p, c).heap, x)
  {
    var t := o.heap[r];
    assert home[x][|home[r]|] == key && x != r;
    if |p| > 1 {
      if p[0] in t && t[p[0]].Dict? {
        FitBelow(o, home, outputs, r, p, c);
        PutFrame(o, home, outputs, t[p[0]].ref, p[1..], c, x);
      } else {
        FitCreated(o, home, outputs, r, p, c);
        PutFrame(Created(o, r, p[0]), home[o.next := home[r] + [p[0]]], outputs, o.next, p[1..], c, x);
      }
    }
  }

  /** The outputs, and what is found from them, stay as they were. */
  lemma OutputsStay(o: Objects, home: Homes, outputs: set<Ref>, r: Ref, p: seq<string>, c: Cell, d: Cell, u: seq<string>)
    requires Fit(o, home, outputs, r, p, c) && FromOutputs(d, outputs)
    ensures Look(Put(o, r, p, c).heap, d, u) == Look(o.heap, d, u)
  {
    var after := Put(o, r, p, c).heap;
    forall v | v <= u && Passes(o.heap, d, v)
      ensures Same(o.heap, after, Look(o.heap, d, v).value.ref)
    {
      OutputsLeadToOutputs(o.heap, home, outputs, d, v);
      PutFrame(o, home, outputs, r, p, c, Look(o.heap, d, v).value.ref);
    }
    LookFrame(o.heap, after, d, u);
  }

  lemma ElsewhereStays(o: Objects, home: Homes, outputs: set<Ref>, r: Ref, p: seq<string>, c: Cell, q: seq<string>)
    requires Fit(o, home, outputs, r, p, c) && q != [] && q[0] != p[0]
    ensures Look(Put(o, r, p, c).heap, Dict(r), q) == Look(o.heap, Dict(r), q)
  {
    hide Clear;
    var after := Put(o, r, p, c).heap;
    FirstKey(o, home, outputs, r, p, c, q[0]);
    if q[0] in o.heap[r] {
      var d := o.heap[r][q[0]];
      assert Hangs(home, outputs, r, q[0], d);
      if FromOutputs(d, outputs) {
        OutputsStay(o, home, outputs, r, p, c, d, q[1..]);
      } else {
        forall v | v <= q[1..] && Passes(o.heap, d, v)
          ensures Same(o.heap, after, Look(o.heap, d, v).value.ref)
        {
          SparedOnTheWay(o, home, outputs, r, p, c, q[0], v);
        }
        LookFrame(o.heap, after, d, q[1..]);
      }
    }
  }

  lemma SparedOnTheWay(o: Objects, home: Homes, outputs: set<Ref>, r: Ref, p: seq<string>, c: Cell, key: string, v: seq<string>)
    requires Fit(o, home, outputs, r, p, c) && key != p[0] && key in o.heap[r] && !FromOutputs(o.heap[r][key], outputs)
    requires Passes(o.heap, o.heap[r][key], v)
    ensures Same(o.heap, Put(o, r, p, c).heap, Look(o.heap, o.heap[r][key], v).value.ref)
  {
    hide Put, Clear;
    var d := o.heap[r][key];
    var x := Look(o.heap, d, v).value.ref;
    assert Hangs(home, outputs, r, key, d);
    if x in outputs {
      PutFrame(o, home, outputs, r, p, c, x);
    } else {
      PathsLeadHome(o.heap, home, outputs, d.ref, v);
      PutSpares(o, home, outputs, r, p, c, x, key);
    }
  }

  /** At the dictionary itself only the first key of the path changes. */
  lemma FirstKey(o: Objects, home: Homes, outputs: set<Ref>, r: Ref, p: seq<string>, c: Cell, key: string)
    requires Fit(o, home, outputs, r, p, c)
    ensures var before, after := o.heap[r], Put(o, r, p, c).heap;
            && r in after && p[0] in after[r]
            && (key != p[0] ==> (key in before <==> key in after[r]) && (key in before ==> after[r][key] == before[key]))
            && after[r][p[0]] == if |p| == 1 then c
                                 else if p[0] in before && before[p[0]].Dict? then before[p[0]] else Dict(o.next)
  {
    var t := o.heap[r];
    if |p| > 1 {
      if p[0] in t && t[p[0]].Dict? {
        FitBelow(o, home, outputs, r, p, c);
        PutFrame(o, home, outputs, t[p[0]].ref, p[1..], c, r);
      } else {
        FitCreated(o, home, outputs, r, p, c);
        PutFrame(Created(o, r, p[0]), home[o.next := home[r] + [p[0]]], outputs, o.next, p[1..], c, r);
      }
    }
  }

  /**
   What a path reads as after a `Put`: the value put there, or what lies below it; a dictionary
   above it; what it read as before anywhere else.
   */
  lemma {:induction false} PutLooks(o: Objects, home: Homes, outputs: set<Ref>, r: Ref, p: seq<string>, c: Cell, q: seq<string>)
    requires Fit(o, home, outputs, r, p, c)
    ensures var after := Put(o, r, p, c).heap;
            if p <= q then Look(after, Dict(r), q) == Look(o.heap, c, q[|p|..])
            else if q < p then Passes(after, Dict(r), q) && Look(after, Dict(r), q).value.ref !in outputs
            else Look(after, Dict(r), q) == Look(o.heap, Dict(r), q)
    decreases |p|
  {
    hide Clear, Homed;
    RootIsOurs(o, home, outputs, r, p, c);
    if q != [] {
      FirstKey(o, home, outputs, r, p, c, q[0]);
      if q[0] != p[0] {
        ElsewhereStays(o, home, outputs, r, p, c, q);
      } else if |p| == 1 {
        OutputsStay(o, home, outputs, r, p, c, c, q[1..]);
      } else {
        PutLooksBelow(o, home, outputs, r, p, c, q);
      }
    }
  }

  lemma RootIsOurs(o: Objects, home: Homes, outputs: set<Ref>, r: Ref, p: seq<string>, c: Cell)
    requires Fit(o, home, outputs, r, p, c)
    ensures r in o.heap && r !in outputs && Allocated(o) && (c.Dict? ==> c.ref in o.heap)
  {
  }

  lemma PutLooksBelow(o: Objects, home: Homes, outputs: set<Ref>, r: Ref, p: seq<string>, c: Cell, q: seq<string>)
    requires Fit(o, home, outputs, r, p, c) && |p| > 1 && q != [] && q[0] == p[0]
    ensures var after := Put(o, r, p, c).heap;
            if p <= q then Look(after, Dict(r), q) == Look(o.heap, c, q[|p|..])
            else if q < p then Passes(after, Dict(r), q) && Look(after, Dict(r), q).value.ref !in outputs
            else Look(after, Dict(r), q) == Look(o.heap, Dict(r), q)
    decreases |p|, 0
  {
    hide Clear, Homed, Put, Look, Allocated;
    RootIsOurs(o, home, outputs, r, p, c);
    var t, after := o.heap[r], Put(o, r, p, c).heap;
    FirstKey(o, home, outputs, r, p, c, p[0]);
    LookStep(after, r, q);
    LookStep(o.heap, r, q);
    PathStep(p, q);
    PutNext(o, r, p, c);
    if p[0] in t && t[p[0]].Dict? {
      FitBelow(o, home, outputs, r, p, c);
      PutLooks(o, home, outputs, t[p[0]].ref, p[1..], c, q[1..]);
    } else {
      FitCreated(o, home, outputs, r, p, c);
      var made := Created(o, r, p[0]);
      PutLooks(made, home[o.next := home[r] + [p[0]]], outputs, o.next, p[1..], c, q[1..]);
      CreatedKeepsOutputs(o, home, outputs, r, p, c, q);
      NothingInNew(o, r, p[0], q);
    }
  }

  lemma PathStep(p: seq<string>, q: seq<string>)
    requires p != [] && q != [] && p[0] == q[0]
    ensures p <= q <==> p[1..] <= q[1..]
    ensures q < p <==> q[1..] < p[1..]
    ensures p <= q ==> q[1..][|p[1..]|..] == q[|p|..]
  {
    assert q == [p[0]] + q[1..] && p == [p[0]] + p[1..];
  }

  lemma LookStep(h: Heap, r: Ref, q: seq<string>)
    requires q != []
    ensures Look(h, Dict(r), q) == if r in h && q[0] in h[r] then Look(h, h[r][q[0]], q[1..]) else None
  {
  }

  /** A new dictionary says no more than what stood at its key before, which was no dictionary. */
  lemma NothingInNew(o: Objects, r: Ref, key: string, q: seq<string>)
    requires r in o.heap && q != [] && q[0] == key && (key !in o.heap[r] || o.heap[r][key].Leaf?)
    ensures q[1..] != [] ==> Look(Created(o, r, key).heap, Dict(o.next), q[1..]) == None
    ensures q[1..] != [] ==> Look(o.heap, Dict(r), q) == None
  {
  }

  lemma CreatedKeepsOutputs(o: Objects, home: Homes, outputs: set<Ref>, r: Ref, p: seq<string>, c: Cell, q: seq<string>)
    requires Fit(o, home, outputs, r, p, c)
    ensures |p| <= |q| ==> Look(Created(o, r, p[0]).heap, c, q[|p|..]) == Look(o.heap, c, q[|p|..])
  {
    if |p| <= |q| {
      var made := Created(o, r, p[0]).heap;
      forall v | v <= q[|p|..] && Passes(o.heap, c, v)
        ensures Same(o.heap, made, Look(o.heap, c, v).value.ref)
      {
        OutputsLeadToOutputs(o.heap, home, outputs, c, v);
      }
      LookFrame(o.heap, made, c, q[|p|..]);
    }
  }

  // ----- Objects and values ---------------------------------------------------------------------------

  /** The same thing is found: nothing, some dictionary, or the same other value. */
  predicate Alike(found: Option<Cell>, value: Option<Value>) {
    match (found, value)
    case (None, None) => true
    case (Some(Dict(_)), Some(v)) => v.Mapping?
    case (Some(Leaf(x)), Some(v)) => !v.Mapping? && x == v
    case _ => false
  }

  /** Every path reads the same from the objects as from the value. */
  ghost predicate Agrees(h: Heap, c: Cell, value: Value) {
    forall path :: Alike(Look(h, c, path), At(value, path))
  }

  /** An import: the target, the cell that is put there, and the value that it stands for. */
  datatype Hung = Hung(cell: Cell, assignment: Assignment)

  function Assignments(hs: seq<Hung>): (ws: seq<Assignment>)
    ensures |ws| == |hs| && forall i :: 0 <= i < |hs| ==> ws[i] == hs[i].assignment
  {
    seq(|hs|, i requires 0 <= i < |hs| => hs[i].assignment)
  }

  /** No target lies strictly below that of an earlier import that brings a mapping. */
  ghost predicate Unshared(ws: seq<Assignment>) {
    forall i, j :: 0 <= i < j < |ws| ==> !(ws[i].value.Mapping? && ws[i].target < ws[j].target)
  }

  /** The imports can be made: their cells come from the outputs and stand for their values. */
  ghost predicate Imports(h: Heap, outputs: set<Ref>, hs: seq<Hung>) {
    forall i :: 0 <= i < |hs| ==>
      && hs[i].assignment.target != [] && FromOutputs(hs[i].cell, outputs)
      && Agrees(h, hs[i].cell, hs[i].assignment.value)
  }

  /** What the inputs and the outputs are like when some of the imports have been made. */
  ghost predicate Standing(before: Heap, o: Objects, home: Homes, outputs: set<Ref>, inputs: Ref, hs: seq<Hung>) {
    && Allocated(o) && Homed(o.heap, home, outputs) && inputs in home
    && (forall f :: f in outputs ==> f in before && o.heap[f] == before[f])
    && Targeted(Assignments(hs)) && Agrees(o.heap, Dict(inputs), Mapping(SetAll(Assignments(hs))))
    && forall u :: Passes(o.heap, Dict(inputs), u) && Look(o.heap, Dict(inputs), u).value.ref in outputs ==> Brought(hs, u)
  }

  /** The path lies on or below the target of an import that brought a mapping. */
  ghost predicate Brought(hs: seq<Hung>, u: seq<string>) {
    exists i :: 0 <= i < |hs| && hs[i].assignment.value.Mapping? && hs[i].assignment.target <= u
  }

  lemma BroughtBefore(hs: seq<Hung>, h: Hung, u: seq<string>)
    ensures Brought(hs, u) ==> Brought(hs + [h], u)
    ensures h.assignment.value.Mapping? && h.assignment.target <= u ==> Brought(hs + [h], u)
  {
    var more := hs + [h];
    if Brought(hs, u) {
      var i :| 0 <= i < |hs| && hs[i].assignment.value.Mapping? && hs[i].assignment.target <= u;
      assert more[i] == hs[i];
    }
    assert more[|hs|] == h;
  }

  lemma StandsClear(before: Heap, o: Objects, home: Homes, outputs: set<Ref>, inputs: Ref, hs: seq<Hung>, h: Hung)
    requires Standing(before, o, home, outputs, inputs, hs) && Unshared(Assignments(hs + [h]))
    ensures Clear(o.heap, outputs, inputs, h.assignment.target)
  {
    forall u | u < h.assignment.target && Passes(o.heap, Dict(inputs), u)
      ensures Look(o.heap, Dict(inputs), u).value.ref !in outputs
    {
      NotBrought(hs, h, u);
    }
  }

  lemma NotBrought(hs: seq<Hung>, h: Hung, u: seq<string>)
    requires Unshared(Assignments(hs + [h])) && u < h.assignment.target
    ensures !Brought(hs, u)
  {
    var ws := Assignments(hs + [h]);
    forall i | 0 <= i < |hs|
      ensures !(hs[i].assignment.value.Mapping? && hs[i].assignment.target <= u)
    {
      assert ws[i] == hs[i].assignment && ws[|hs|] == h.assignment;
      assert !(ws[i].value.Mapping? && ws[i].target < ws[|hs|].target);
    }
  }

  /** What a path reads as after the same assignment on values. */
  lemma SetReads(dst: Fields, w: Assignment, path: seq<string>)
    requires w.target != []
    ensures var after := Mapping(SetNested(dst, w.target, w.value));
            if w.target <= path then At(after, path) == At(w.value, path[|w.target|..])
            else if path < w.target then At(after, path).Some? && At(after, path).value.Mapping?
            else At(after, path) == At(Mapping(dst), path)
  {
    if path == [] {
    } else if w.target == path {
      SetThenGet(dst, path, w.value);
      assert path[|path|..] == [];
    } else if Comparable(w.target, path) {
      SetNearby(dst, w.target, path, w.value);
    } else {
      SetElsewhere(dst, w.target, path, w.value);
    }
  }

  lemma CellStays(before: Heap, after: Heap, outputs: set<Ref>, home: Homes, c: Cell, value: Value)
    requires Homed(before, home, outputs) && FromOutputs(c, outputs) && Agrees(before, c, value)
    requires forall f :: f in outputs ==> Same(before, after, f)
    ensures Agrees(after, c, value)
  {
    forall path
      ensures Alike(Look(after, c, path), At(value, path))
    {
      forall v | v <= path && Passes(before, c, v)
        ensures Same(before, after, Look(before, c, v).value.ref)
      {
        OutputsLeadToOutputs(before, home, outputs, c, v);
      }
      LookFrame(before, after, c, path);
    }
  }

  lemma OneMoreAgrees(o: Objects, home: Homes, outputs: set<Ref>, inputs: Ref, h: Hung, dst: Fields)
    requires Fit(o, home, outputs, inputs, h.assignment.target, h.cell)
    requires Agrees(o.heap, h.cell, h.assignment.value) && Agrees(o.heap, Dict(inputs), Mapping(dst))
    ensures Agrees(Put(o, inputs, h.assignment.target, h.cell).heap, Dict(inputs),
                   Mapping(SetNested(dst, h.assignment.target, h.assignment.value)))
  {
    var p := h.assignment.target;
    RootIsOurs(o, home, outputs, inputs, p, h.cell);
    var after, value := Put(o, inputs, p, h.cell).heap, Mapping(SetNested(dst, p, h.assignment.value));
    forall path
      ensures Alike(Look(after, Dict(inputs), path), At(value, path))
    {
      hide Put, SetNested, Fit;
      PutLooks(o, home, outputs, inputs, p, h.cell, path);
      SetReads(dst, h.assignment, path);
      if p <= path {
        assert Alike(Look(o.heap, h.cell, path[|p|..]), At(h.assignment.value, path[|p|..]));
      } else if !(path < p) {
        assert Alike(Look(o.heap, Dict(inputs), path), At(Mapping(dst), path));
      }
    }
  }

  // ----- All imports ----------------------------------------------------------------------------------

  ghost function PutAll(o: Objects, inputs: Ref, hs: seq<Hung>): (after: Objects)
    requires Allocated(o) && inputs in o.heap
    requires forall i :: 0 <= i < |hs| ==> hs[i].assignment.target != [] && (hs[i].cell.Dict? ==> hs[i].cell.ref in o.heap)
    ensures Allocated(after) && forall x :: x in o.heap ==> x in after.heap
  {
    if hs == [] then o
    else
      var last := hs[|hs| - 1];
      Put(PutAll(o, inputs, hs[..|hs| - 1]), inputs, last.assignment.target, last.cell)
  }

  lemma ImportsAreAllocated(h: Heap, home: Homes, outputs: set<Ref>, hs: seq<Hung>)
    requires Homed(h, home, outputs) && Imports(h, outputs, hs)
    ensures forall i :: 0 <= i < |hs| ==> hs[i].assignment.target != [] && (hs[i].cell.Dict? ==> hs[i].cell.ref in h)
  {
  }

  lemma OneMoreStands(before: Heap, o: Objects, home: Homes, outputs: set<Ref>, inputs: Ref, hs: seq<Hung>, h: Hung)
    returns (more: Homes)
    requires Standing(before, o, home, outputs, inputs, hs) && Unshared(Assignments(hs + [h])) && Allocated(o)
    requires h.assignment.target != [] && FromOutputs(h.cell, outputs) && Agrees(before, h.cell, h.assignment.value)
    requires Homed(before, map[], outputs) && inputs in o.heap && (h.cell.Dict? ==> h.cell.ref in o.heap)
    ensures Standing(before, Put(o, inputs, h.assignment.target, h.cell), more, outputs, inputs, hs + [h])
  {
    hide Put, Agrees, Homed, Brought, SetAll, Look;
    var p, after := h.assignment.target, Put(o, inputs, h.assignment.target, h.cell);
    StandsClear(before, o, home, outputs, inputs, hs, h);
    OutputsAreThere(before, o.heap, home, outputs);
    CellStays(before, o.heap, outputs, map[], h.cell, h.assignment.value);
    PutKeepsHomed(o, home, outputs, inputs, p, h.cell);
    more := HomesAfter(o, home, inputs, p);
    OneMoreAgrees(o, home, outputs, inputs, h, SetAll(Assignments(hs)));
    assert Assignments(hs + [h]) == Assignments(hs) + [h.assignment];
    SetAllNext(Assignments(hs), h.assignment);
    forall f | f in outputs
      ensures after.heap[f] == before[f]
    {
      OutputUntouched(o, home, outputs, inputs, p, h.cell, f);
    }
    forall u | Passes(after.heap, Dict(inputs), u) && Look(after.heap, Dict(inputs), u).value.ref in outputs
      ensures Brought(hs + [h], u)
    {
      BroughtBefore(hs, h, u);
      PutLooks(o, home, outputs, inputs, p, h.cell, u);
      if p <= u {
        DictsStandForMappings(o.heap, h.cell, h.assignment.value, u[|p|..]);
      }
    }
  }

  lemma OutputsAreThere(before: Heap, after: Heap, home: Homes, outputs: set<Ref>)
    requires Homed(after, home, outputs) && forall f :: f in outputs ==> f in before && after[f] == before[f]
    ensures forall f :: f in outputs ==> Same(before, after, f)
  {
  }

  lemma OutputUntouched(o: Objects, home: Homes, outputs: set<Ref>, r: Ref, p: seq<string>, c: Cell, f: Ref)
    requires Fit(o, home, outputs, r, p, c) && f in outputs
    ensures Allocated(o) && r in o.heap && (c.Dict? ==> c.ref in o.heap)
    ensures f in o.heap && f in Put(o, r, p, c).heap && Put(o, r, p, c).heap[f] == o.heap[f]
  {
    PutFrame(o, home, outputs, r, p, c, f);
  }

  /** A dictionary is found below a cell only if the cell stands for a mapping. */
  lemma DictsStandForMappings(h: Heap, c: Cell, value: Value, u: seq<string>)
    requires Agrees(h, c, value) && Passes(h, c, u)
    ensures value.Mapping?
  {
    assert Alike(Look(h, c, []), At(value, []));
  }

  /**
   Sharing is harmless while no target lies below an imported mapping: after all imports the
   inputs read, along every path, as if every value had been copied, and no output has changed.
   */
  lemma {:induction false} SharingIsHarmless(o: Objects, home: Homes, outputs: set<Ref>, inputs: Ref, hs: seq<Hung>)
    returns (more: Homes)
    requires Allocated(o) && Homed(o.heap, home, outputs) && inputs in home && o.heap[inputs] == map[]
    requires Imports(o.heap, outputs, hs) && Unshared(Assignments(hs))
    ensures inputs in o.heap
    ensures forall i :: 0 <= i < |hs| ==> hs[i].assignment.target != [] && (hs[i].cell.Dict? ==> hs[i].cell.ref in o.heap)
    ensures Standing(o.heap, PutAll(o, inputs, hs), more, outputs, inputs, hs)
  {
    hide Agrees;
    ImportsAreAllocated(o.heap, home, outputs, hs);
    if hs == [] {
      EmptyAgrees(o.heap, inputs);
      more := home;
    } else {
      hide Put, Standing, Homed, Allocated;
      var n := |hs| - 1;
      FewerUnshared(hs);
      more := SharingIsHarmless(o, home, outputs, inputs, hs[..n]);
      assert hs[..n] + [hs[n]] == hs;
      OutputsAlone(o.heap, home, outputs);
      more := OneMoreStands(o.heap, PutAll(o, inputs, hs[..n]), more, outputs, inputs, hs[..n], hs[n]);
    }
  }

  lemma EmptyAgrees(h: Heap, inputs: Ref)
    requires inputs in h && h[inputs] == map[]
    ensures SetAll([]) == map[] && Agrees(h, Dict(inputs), Mapping(map[]))
    ensures forall u :: Passes(h, Dict(inputs), u) ==> u == []
  {
  }

  lemma FewerUnshared(hs: seq<Hung>)
    requires hs != [] && Unshared(Assignments(hs))
    ensures Unshared(Assignments(hs[..|hs| - 1]))
  {
    var ws, front := Assignments(hs), Assignments(hs[..|hs| - 1]);
    forall i, j | 0 <= i < j < |front|
      ensures !(front[i].value.Mapping? && front[i].target < front[j].target)
    {
      assert front[i] == ws[i] && front[j] == ws[j];
    }
  }

  lemma OutputsAlone(h: Heap, home: Homes, outputs: set<Ref>)
    requires Homed(h, home, outputs)
    ensures Homed(h, map[], outputs)
  {
  }

  /**
   So a plain value is read at a path of the shared inputs exactly if the last import whose
   target lies on the path, above it or below, delivers it there.
   */
  lemma SharedReadsIffLastDelivers(o: Objects, home: Homes, outputs: set<Ref>, inputs: Ref, hs: seq<Hung>,
        path: seq<string>, value: Value, k: nat)
    requires Allocated(o) && Homed(o.heap, home, outputs) && inputs in home && o.heap[inputs] == map[]
    requires Imports(o.heap, outputs, hs) && Unshared(Assignments(hs)) && !value.Mapping? && path != []
    requires k < |hs| && Comparable(hs[k].assignment.target, path)
    requires forall j :: k < j < |hs| ==> !Comparable(hs[j].assignment.target, path)
    ensures inputs in o.heap
    ensures forall i :: 0 <= i < |hs| ==> hs[i].assignment.target != [] && (hs[i].cell.Dict? ==> hs[i].cell.ref in o.heap)
    ensures Look(PutAll(o, inputs, hs).heap, Dict(inputs), path) == Some(Leaf(value)) <==> Delivers(hs[k].assignment, path, value)
  {
    hide PutAll, SetAll, Homed, Allocated, Brought, Delivers, Look, At;
    var more := SharingIsHarmless(o, home, outputs, inputs, hs);
    var ws := Assignments(hs);
    ReadableIffLastDelivers(ws, path, value, k);
    assert Alike(Look(PutAll(o, inputs, hs).heap, Dict(inputs), path), At(Mapping(SetAll(ws)), path));
  }

  // ----- Below an imported mapping ------------------------------------------------------------------

  const HOST := Text("h")
  const OTHER := Text("v")
  const NETBOX := Mapping(map["host" := HOST])
  const APPS := Mapping(map["netbox" := NETBOX])

  /** Inputs 0; outputs 1 = {apps: 2, v2: "v"}, 2 = {netbox: 3}, 3 = {host: "h"}. */
  const PUBLISHED := Objects(map[
    0 := map[],
    1 := map["apps" := Dict(2), "v2" := Leaf(OTHER)],
    2 := map["netbox" := Dict(3)],
    3 := map["host" := Leaf(HOST)]], 4)

  const SHARED := [
    Hung(Dict(2), Assignment(["c"], APPS)),
    Hung(Dict(3), Assignment(["a"], NETBOX)),
    Hung(Leaf(OTHER), Assignment(["a", "host"], OTHER))]

  /**
   A target below an imported mapping writes into what another input, and the outputs, share
   with it: with copies the other input would still read "h".
   */
  lemma SharedMappingIsOverwritten()
    ensures Allocated(PUBLISHED) && Targeted(Assignments(SHARED))
    ensures var after := PutAll(PUBLISHED, 0, SHARED);
            && Look(after.heap, Dict(0), ["c", "netbox", "host"]) == Some(Leaf(OTHER))
            && Look(after.heap, Dict(1), ["apps", "netbox", "host"]) == Some(Leaf(OTHER))
    ensures Get(SetAll(Assignments(SHARED)), ["c", "netbox", "host"]) == Some(HOST)
  {
    hide PutAll, SetAll, Get, Allocated;
    PublishedIsAllocated();
    SharedAfter();
    CopyStillReads();
    var h := PutAll(PUBLISHED, 0, SHARED).heap;
    assert Look(h, Dict(3), ["host"]) == Some(Leaf(OTHER));
    assert ["netbox", "host"][1..] == ["host"] && Look(h, Dict(2), ["netbox", "host"]) == Some(Leaf(OTHER));
    assert ["apps", "netbox", "host"][1..] == ["netbox", "host"] == ["c", "netbox", "host"][1..];
  }

  lemma PublishedIsAllocated()
    ensures Allocated(PUBLISHED)
  {
  }

  lemma CopyStillReads()
    ensures Targeted(Assignments(SHARED)) && Get(SetAll(Assignments(SHARED)), ["c", "netbox", "host"]) == Some(HOST)
  {
    hide SetAll, Get;
    var ws := Assignments(SHARED);
    var path := ["c", "netbox", "host"];
    assert At(NETBOX, ["host"]) == Some(HOST) && ["netbox", "host"][1..] == ["host"];
    assert At(APPS, ["netbox", "host"]) == Some(HOST) && path[1..] == ["netbox", "host"];
    forall j | 0 < j < |ws|
      ensures !Comparable(ws[j].target, path)
    {
      assert ws[j].target[0] == "a" && path[0] == "c";
    }
    ReadableIffLastDelivers(ws, path, HOST, 0);
  }

  lemma PutAllNext(o: Objects, inputs: Ref, hs: seq<Hung>, h: Hung)
    requires Allocated(o) && inputs in o.heap
    requires forall i :: 0 <= i < |hs + [h]| ==>
               (hs + [h])[i].assignment.target != [] && ((hs + [h])[i].cell.Dict? ==> (hs + [h])[i].cell.ref in o.heap)
    ensures forall i :: 0 <= i < |hs| ==> hs[i].assignment.target != [] && (hs[i].cell.Dict? ==> hs[i].cell.ref in o.heap)
    ensures h.assignment.target != [] && (h.cell.Dict? ==> h.cell.ref in PutAll(o, inputs, hs).heap)
    ensures PutAll(o, inputs, hs + [h]) == Put(PutAll(o, inputs, hs), inputs, h.assignment.target, h.cell)
  {
    assert (hs + [h])[..|hs|] == hs && (hs + [h])[|hs|] == h;
    forall i | 0 <= i < |hs|
      ensures hs[i].assignment.target != [] && (hs[i].cell.Dict? ==> hs[i].cell.ref in o.heap)
    {
      assert (hs + [h])[i] == hs[i];
    }
  }

  const AFTER_TWO := PUBLISHED.(heap := PUBLISHED.heap[0 := map["c" := Dict(2), "a" := Dict(3)]])

  lemma TwoImports()
    ensures Allocated(PUBLISHED) && PutAll(PUBLISHED, 0, [SHARED[0], SHARED[1]]) == AFTER_TWO
  {
    PublishedIsAllocated();
    hide PutAll, Put, Allocated;
    PutAllNext(PUBLISHED, 0, [], SHARED[0]);
    PutAllNext(PUBLISHED, 0, [SHARED[0]], SHARED[1]);
    assert [] + [SHARED[0]] == [SHARED[0]] && [SHARED[0]] + [SHARED[1]] == [SHARED[0], SHARED[1]];
    NoImportsYet(PUBLISHED, 0);
    PutLast(PUBLISHED, 0, ["c"], Dict(2));
    var o := PUBLISHED.(heap := PUBLISHED.heap[0 := map["c" := Dict(2)]]);
    PutLast(o, 0, ["a"], Dict(3));
  }

  lemma NoImportsYet(o: Objects, inputs: Ref)
    requires Allocated(o) && inputs in o.heap
    ensures PutAll(o, inputs, []) == o
  {
  }

  lemma SharedAfter()
    ensures Allocated(PUBLISHED)
    ensures PutAll(PUBLISHED, 0, SHARED).heap == AFTER_TWO.heap[3 := map["host" := Leaf(OTHER)]]
  {
    hide PutAll, Put, Allocated;
    TwoImports();
    PutAllNext(PUBLISHED, 0, [SHARED[0], SHARED[1]], SHARED[2]);
    assert [SHARED[0], SHARED[1]] + [SHARED[2]] == SHARED;
    PutNext(AFTER_TWO, 0, ["a", "host"], Leaf(OTHER));
    assert ["a", "host"][1..] == ["host"];
    PutLast(AFTER_TWO, 3, ["host"], Leaf(OTHER));
    assert AFTER_TWO.heap[3]["host" := Leaf(OTHER)] == map["host" := Leaf(OTHER)];
  }
}
