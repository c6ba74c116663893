/** The part of a blueprint that ordering, preflight, deployment and teardown look at. */
module Blueprint {
  import opened Graphs
  import opened Ordering

  type Id = Node
  /** A state slot: `module_ref`, or `module_ref#state_instance`. */
  type Slot = string

  datatype Action = Apply | Deploy | PlanOnly | ValidateOnly

  datatype OnUnverifiable = FailUnverified | RecordUnverified

  datatype Step = Step(
    id: Id,
    slot: Slot,
    action: Action,
    needs: seq<Id>,
    optional: bool,
    retain: bool,
    gate: bool,
    subsumedBy: Option<Id>,
    skipIfOk: bool,
    verifyOnSkip: bool,
    requiredOk: seq<Slot>,
    authority: bool,
    observation: Option<OnUnverifiable>)

  predicate Mutates(s: Step) {
    s.action == Apply || s.action == Deploy
  }

  function Ids(steps: seq<Step>): (ids: seq<Id>)
    ensures |ids| == |steps| && forall i :: 0 <= i < |steps| ==> ids[i] == steps[i].id
  {
    seq(|steps|, i requires 0 <= i < |steps| => steps[i].id)
  }

  /** `{s["id"]: s for s in steps}`: a later step replaces an earlier one of the same id. */
  function ById(steps: seq<Step>): (m: map<Id, Step>)
    ensures forall a :: a in m ==> m[a] in steps && m[a].id == a
    ensures forall i :: 0 <= i < |steps| ==> steps[i].id in m
  {
    if steps == [] then map[]
    else
      var last := steps[|steps| - 1];
      ById(steps[..|steps| - 1])[last.id := last]
  }

  function StepGraph(steps: seq<Step>): Graph {
    var m := ById(steps);
    map a | a in m :: m[a].needs
  }

  ghost predicate UniqueIds(steps: seq<Step>) {
    forall i, j :: 0 <= i < j < |steps| ==> steps[i].id != steps[j].id
  }

  lemma {:induction false} ByIdOfUnique(steps: seq<Step>, i: nat)
    requires UniqueIds(steps) && i < |steps|
    ensures steps[i].id in ById(steps) && ById(steps)[steps[i].id] == steps[i]
  {
    var n := |steps| - 1;
    ByIdNext(steps);
    if i < n {
      hide ById;
      var front := steps[..n];
      assert front[i] == steps[i] && UniqueIds(front);
      ByIdOfUnique(front, i);
    }
  }

  lemma ByIdNext(steps: seq<Step>)
    requires steps != []
    ensures ById(steps) == ById(steps[..|steps| - 1])[steps[|steps| - 1].id := steps[|steps| - 1]]
  {
  }

  /** The edges of the graph are the requirements that the steps declare, and its nodes are their ids. */
  lemma EdgesAreRequirements(steps: seq<Step>, a: Id, b: Id)
    requires UniqueIds(steps)
    ensures a in StepGraph(steps) <==> exists s :: s in steps && s.id == a
    ensures Edge(StepGraph(steps), a, b) <==> exists s :: s in steps && s.id == a && b in s.needs
  {
    forall s | s in steps
      ensures s.id in ById(steps) && ById(steps)[s.id] == s
    {
      var i :| 0 <= i < |steps| && steps[i] == s;
      ByIdOfUnique(steps, i);
    }
  }

  // ----- Validation ---------------------------------------------------------------------

  datatype Defect =
    | NoSteps
    | DuplicateId(id: Id)
    | ObservationWithoutAuthority(id: Id)
    | UnknownRequirement(id: Id, ref: Id)
    | GateWithoutRequirement(id: Id)
    | GateOptionalOrRetained(id: Id)
    | UnknownParent(id: Id, parent: Id)
    | ParentNotUpstream(id: Id, parent: Id)
    | SubsumedRetainedOrGate(id: Id)
    | DependencyCycle(path: seq<Id>)

  datatype Verdict = Accepted(order: seq<Id>) | Rejected(defect: Defect)

  /** A defect is reported only where the blueprint really has it. */
  ghost predicate HasDefect(steps: seq<Step>, d: Defect) {
    var g := StepGraph(steps);
    match d
    case NoSteps => steps == []
    case DuplicateId(id) => exists i, j :: 0 <= i < j < |steps| && steps[i].id == steps[j].id == id
    case ObservationWithoutAuthority(id) => exists s :: s in steps && s.id == id && s.observation.Some? && !s.authority
    case UnknownRequirement(id, ref) => exists s :: s in steps && s.id == id && ref in s.needs && ref !in g
    case GateWithoutRequirement(id) => exists s :: s in steps && s.id == id && s.gate && s.needs == []
    case GateOptionalOrRetained(id) => exists s :: s in steps && s.id == id && s.gate && (s.optional || s.retain)
    case UnknownParent(id, parent) => exists s :: s in steps && s.id == id && s.subsumedBy == Some(parent) && parent !in g
    case ParentNotUpstream(id, parent) =>
      exists s :: s in steps && s.id == id && s.subsumedBy == Some(parent) && !Reaches(g, id, parent)
    case SubsumedRetainedOrGate(id) =>
      exists s :: s in steps && s.id == id && s.subsumedBy.Some? && (s.retain || s.gate)
    case DependencyCycle(path) => CyclePath(g, path)
  }

  /** What the loader demands of one step, given the graph of all of them. */
  ghost predicate StepSound(g: Graph, s: Step) {
    && (forall ref :: ref in s.needs ==> ref in g)
    && (s.gate ==> s.needs != [] && !s.optional && !s.retain)
    && (s.subsumedBy.Some? ==>
          && s.subsumedBy.value in g
          && Reaches(g, s.id, s.subsumedBy.value)
          && !s.retain && !s.gate)
  }

  /** An observed authority interval needs an authority to observe. */
  ghost predicate ObservedHaveAuthority(steps: seq<Step>) {
    forall i :: 0 <= i < |steps| && steps[i].observation.Some? ==> steps[i].authority
  }

  ghost predicate Sound(steps: seq<Step>) {
    && steps != []
    && UniqueIds(steps)
    && ObservedHaveAuthority(steps)
    && (forall s :: s in steps ==> StepSound(StepGraph(steps), s))
    && Acyclic(StepGraph(steps))
  }

  /** A validated blueprint together with the order the loader stores in its payload. */
  ghost predicate Payload(steps: seq<Step>, order: seq<Id>) {
    Sound(steps) && ExecutionOrder(StepGraph(steps), Ids(steps), order)
  }

  /**
   `depends_on`: the worklist ends on every graph, cyclic or with unknown references, and
   finds the required id exactly when at least one edge leads to it.
   */
  method DependsOn(g: Graph, start: Id, required: Id) returns (found: bool)
    requires start in g
    ensures found <==> Reaches(g, start, required)
  {
    var pending := g[start];
    var visited: set<Id> := {};
    forall b | b in pending
      ensures Reaches(g, start, b)
    {
      assert Edge(g, start, b);
      ReachesByEdge(g, start, b);
    }
    while pending != []
      invariant visited <= g.Keys && required !in visited
      invariant forall b :: b in pending || b in visited ==> Reaches(g, start, b)
      invariant forall b :: Edge(g, start, b) ==> Seen(g, pending, visited, required, b)
      invariant forall a, b :: a in visited && Edge(g, a, b) ==> Seen(g, pending, visited, required, b)
      decreases |g.Keys - visited|, |pending|
    {
      var candidate := pending[|pending| - 1];
      ghost var before := pending;
      pending := pending[..|pending| - 1];
      assert before == pending + [candidate];
      if candidate == required {
        return true;
      }
      if candidate in visited || candidate !in g {
        continue;
      }
      assert g.Keys - (visited + {candidate}) < g.Keys - visited by {
        assert candidate in g.Keys - visited;
      }
      SmallerSet(g.Keys - (visited + {candidate}), g.Keys - visited);
      visited := visited + {candidate};
      forall b | b in g[candidate]
        ensures Reaches(g, start, b)
      {
        assert Edge(g, candidate, b);
        ReachesByEdge(g, candidate, b);
        ReachesTransitive(g, start, candidate, b);
      }
      pending := pending + g[candidate];
    }
    NothingFound(g, start, required, visited);
    found := false;
  }

  /** Reached already, waiting, or a dead end other than the id looked for. */
  predicate Seen(g: Graph, pending: seq<Id>, visited: set<Id>, required: Id, b: Id) {
    b in visited || b in pending || (b !in g && b != required)
  }

  lemma SmallerSet(s: set<Id>, t: set<Id>)
    requires s < t
    ensures |s| < |t|
  {
    var x :| x in t && x !in s;
    assert t == (t - s) + s && x in t - s;
    assert |t| == |t - s| + |s|;
  }

  lemma NothingFound(g: Graph, start: Id, required: Id, visited: set<Id>)
    requires required !in visited
    requires forall b :: Edge(g, start, b) ==> Seen(g, [], visited, required, b)
    requires forall a, b :: a in visited && Edge(g, a, b) ==> Seen(g, [], visited, required, b)
    ensures !Reaches(g, start, required)
  {
    if Reaches(g, start, required) {
      var p :| WalkFromTo(g, p, start, required);
      ReachesStaysInside(g, p, iset b | Seen(g, [], visited, required, b));
    }
  }

  /** The relation checks of `validate_blueprint`, in the order it makes them. */
  method ValidateRelations(steps: seq<Step>) returns (r: Verdict)
    ensures r.Accepted? <==> Sound(steps)
    ensures r.Accepted? ==> Payload(steps, r.order) && |r.order| == |steps|
    ensures r.Rejected? ==> HasDefect(steps, r.defect)
  {
    if steps == [] {
      return Rejected(NoSteps);
    }
    var malformed := ParseDefect(steps);
    if malformed.Some? {
      return Rejected(malformed.value);
    }
    hide StepSound, HasDefect, Acyclic, ExecutionOrder, CyclePath, UniqueIds, ObservedHaveAuthority;
    var g := StepGraph(steps);
    for i := 0 to |steps|
      invariant forall k :: 0 <= k < i ==> StepSound(g, steps[k])
    {
      var defect := StepDefect(g, steps, i);
      if defect.Some? {
        assert steps[i] in steps;
        return Rejected(defect.value);
      }
    }
    SoundStepsMakeListing(steps);
    var sorted := TopologicalOrder(g, Ids(steps));
    if sorted.Cyclic? {
      CycleIsDefect(steps, sorted.path);
      return Rejected(DependencyCycle(sorted.path));
    }
    r := Accepted(sorted.order);
  }

  lemma CycleIsDefect(steps: seq<Step>, path: seq<Id>)
    requires CyclePath(StepGraph(steps), path)
    ensures HasDefect(steps, DependencyCycle(path))
  {
  }

  /** The checks of the parsing loop: repeated ids, and observation without a binding. */
  method ParseDefect(steps: seq<Step>) returns (r: Option<Defect>)
    ensures r.None? <==> UniqueIds(steps) && ObservedHaveAuthority(steps)
    ensures r.Some? ==> HasDefect(steps, r.value)
  {
    var ids: set<Id> := {};
    for i := 0 to |steps|
      invariant forall a :: a in ids <==> exists k :: 0 <= k < i && steps[k].id == a
      invariant forall j, k :: 0 <= j < k < i ==> steps[j].id != steps[k].id
      invariant forall k :: 0 <= k < i && steps[k].observation.Some? ==> steps[k].authority
    {
      if steps[i].id in ids {
        return Some(DuplicateId(steps[i].id));
      }
      ids := ids + {steps[i].id};
      if steps[i].observation.Some? && !steps[i].authority {
        assert steps[i] in steps;
        return Some(ObservationWithoutAuthority(steps[i].id));
      }
    }
    r := None;
  }

  lemma SoundStepsMakeListing(steps: seq<Step>)
    requires UniqueIds(steps) && forall s :: s in steps ==> StepSound(StepGraph(steps), s)
    ensures Listing(StepGraph(steps), Ids(steps))
  {
    var g := StepGraph(steps);
    forall a
      ensures a in Ids(steps) <==> a in g
    {
      if a in Ids(steps) {
        var i :| 0 <= i < |steps| && steps[i].id == a;
        assert steps[i] in steps;
      }
      if a in g {
        var i :| 0 <= i < |steps| && steps[i] == ById(steps)[a];
        assert Ids(steps)[i] == a;
      }
    }
  }

  /** The checks of one iteration: the first defect of step i, if it has any. */
  method StepDefect(g: Graph, steps: seq<Step>, i: nat) returns (r: Option<Defect>)
    requires i < |steps| && g == StepGraph(steps)
    ensures r.None? <==> StepSound(g, steps[i])
    ensures r.Some? ==> HasDefect(steps, r.value)
  {
    var s := steps[i];
    assert s in steps;
    for k := 0 to |s.needs|
      invariant forall j :: 0 <= j < k ==> s.needs[j] in g
    {
      if s.needs[k] !in g {
        return Some(UnknownRequirement(s.id, s.needs[k]));
      }
    }
    if s.gate {
      if s.needs == [] {
        return Some(GateWithoutRequirement(s.id));
      }
      if s.optional || s.retain {
        return Some(GateOptionalOrRetained(s.id));
      }
    }
    if s.subsumedBy.Some? {
      var parent := s.subsumedBy.value;
      if parent !in g {
        return Some(UnknownParent(s.id, parent));
      }
      var upstream := DependsOn(g, s.id, parent);
      if !upstream {
        return Some(ParentNotUpstream(s.id, parent));
      }
      if s.retain || s.gate {
        return Some(SubsumedRetainedOrGate(s.id));
      }
    }
    r := None;
  }

  // ----- What acceptance gives the runs -----------------------------------------------------

  ghost predicate LaterIn(order: seq<Id>, i: nat, b: Id) {
    exists j :: i < j < |order| && order[j] == b
  }

  /** In the teardown order a subsuming parent comes after its child, a gate before what it guards. */
  lemma TeardownOrder(steps: seq<Step>, order: seq<Id>, i: nat, s: Step)
    requires Payload(steps, order) && i < |order|
    requires s in steps && s.id == Reversed(order)[i]
    ensures s.subsumedBy.Some? ==> LaterIn(Reversed(order), i, s.subsumedBy.value)
    ensures forall b :: b in s.needs ==> LaterIn(Reversed(order), i, b)
  {
    var g := StepGraph(steps);
    var k :| 0 <= k < |steps| && steps[k] == s;
    ByIdOfUnique(steps, k);
    assert StepSound(g, s);
    if s.subsumedBy.Some? {
      NeededIsDestroyedLater(g, Ids(steps), order, i, s.subsumedBy.value);
    }
    forall b | b in s.needs
      ensures LaterIn(Reversed(order), i, b)
    {
      assert Edge(g, s.id, b);
      ReachesByEdge(g, s.id, b);
      NeededIsDestroyedLater(g, Ids(steps), order, i, b);
    }
  }
}
