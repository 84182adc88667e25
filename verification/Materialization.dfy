/** Turning a choice of primitive ids into an exact plan. The digest that names the plan is a
    parameter: nothing but its argument, the sorted ids, is known about it. */
module Materialization {
  import opened Prelude
  import opened Sorting
  import opened Intervals
  import opened Domain
  import opened FeasibilityGraph
  import opened AssignmentMatrix

  /** A selection names at least one primitive and none twice. */
  type Selection = ids: seq<string> | ids != [] && Distinct(ids) witness [""]

  datatype SelectionError = UnknownPrimitives(ids: set<string>) | MissingImmutable(ids: set<string>)

  function SegmentOf(p: Primitive): Segment {
    match p
    case CarePrimitive(id, person, source, window, location, _) =>
      Segment(id, window, person, source, Care, location, None, None, 0.0)
    case TransportPrimitive(id, person, source, transporter, window, location, destination, _, _) =>
      Segment(id, window, person, source, Transport, location, Some(destination), Some(transporter), 0.0)
  }

  /** Segment and primitive are the same work: who, when, from where and to where. */
  predicate SameWork(s: Segment, p: Primitive) {
    && s.window == p.window && s.person == p.person && s.source == p.source && s.location == p.location
    && match p
       case CarePrimitive(_, _, _, _, _, _) => s.kind.Care?
       case TransportPrimitive(_, _, _, transporter, _, _, destination, _, _) =>
         s.kind.Transport? && s.destination == Some(destination) && s.transporter == Some(transporter)
  }

  /** The segment has this id and is the work of the primitive with this id. */
  ghost predicate CameFrom(s: Segment, id: string, all: seq<Primitive>) {
    s.id == id && exists p :: p in all && p.id == id && SameWork(s, p)
  }

  /** By start, end and id. */
  predicate ExactLeq(a: Segment, b: Segment) {
    if a.window != b.window then WindowLeq(a.window, b.window) else TextLeq(a.id, b.id)
  }

  function PrimitivesById(m: Matrix): Dict<string, Primitive> {
    ByKey(m.care + m.transport, (p: Primitive) => p.id)
  }

  function Immutable(m: Matrix): set<string> {
    set p | p in m.care + m.transport && p.immutable :: p.id
  }

  function UnknownIds(ids: seq<string>, m: Matrix): set<string> {
    set id | id in ids && Get(PrimitivesById(m), id).None?
  }

  function MissingIds(ids: seq<string>, m: Matrix): set<string> {
    set id | id in Immutable(m) && id !in ids
  }

  function SelectedSegments(ids: seq<string>, m: Matrix): seq<Segment>
    requires UnknownIds(ids, m) == {}
  {
    seq(|ids|, i requires 0 <= i < |ids| => SelectedSegment(ids, m, i))
  }

  function SelectedSegment(ids: seq<string>, m: Matrix, i: nat): Segment
    requires UnknownIds(ids, m) == {} && i < |ids|
  {
    assert ids[i] !in UnknownIds(ids, m);
    SegmentOf(Get(PrimitivesById(m), ids[i]).value)
  }

  function PlanNamed(ids: seq<string>, segments: seq<Segment>, digest: seq<string> -> string): Plan {
    Plan(Proposed("primitive-selection-" + digest(Sort(TextLeq, ids))),
         Sort(ExactLeq, segments), [], 0.0, [], NotValidated, [])
  }

  function Materialized(ids: Selection, m: Matrix, digest: seq<string> -> string): Result<Plan, SelectionError> {
    if UnknownIds(ids, m) != {} then Err(UnknownPrimitives(UnknownIds(ids, m)))
    else if MissingIds(ids, m) != {} then Err(MissingImmutable(MissingIds(ids, m)))
    else Ok(PlanNamed(ids, SelectedSegments(ids, m), digest))
  }

  method MaterializePrimitiveSelection(ids: Selection, m: Matrix, digest: seq<string> -> string)
    returns (r: Result<Plan, SelectionError>)
    ensures r == Materialized(ids, m, digest)
  {
    var byId := PrimitivesById(m);
    var unknown := UnknownIds(ids, m);
    if unknown != {} {
      return Err(UnknownPrimitives(unknown));
    }
    var missing := MissingIds(ids, m);
    if missing != {} {
      return Err(MissingImmutable(missing));
    }
    var segments: seq<Segment> := [];
    for i := 0 to |ids|
      invariant segments == SelectedSegments(ids, m)[..i]
    {
      assert ids[i] !in UnknownIds(ids, m);
      segments := segments + [SegmentOf(Get(byId, ids[i]).value)];
    }
    assert segments == SelectedSegments(ids, m);
    r := Ok(PlanNamed(ids, segments, digest));
  }

  // ---------------------------------------------------------------- canonical and exact

  lemma TextOrder()
    ensures Preorder(TextLeq)
    ensures forall x, y :: TextLeq(x, y) && TextLeq(y, x) ==> x == y
  {
    forall x, y ensures (TextLeq(x, y) || TextLeq(y, x)) && (TextLeq(x, y) && TextLeq(y, x) ==> x == y) {
      TextTotal(x, y);
    }
    forall x, y, z | TextLeq(x, y) && TextLeq(y, z) ensures TextLeq(x, z) {
      TextTransitive(x, y, z);
    }
  }

  lemma ExactOrder()
    ensures Preorder(ExactLeq)
    ensures forall a, b :: ExactLeq(a, b) && ExactLeq(b, a) ==> a.window == b.window && a.id == b.id
  {
    TextOrder();
    forall x: Segment, y: Segment ensures ExactLeq(x, y) || ExactLeq(y, x) {
      TextTotal(x.id, y.id);
    }
    forall x: Segment, y: Segment, z: Segment | ExactLeq(x, y) && ExactLeq(y, z) ensures ExactLeq(x, z) {
      if x.window == y.window && y.window == z.window {
        TextTransitive(x.id, y.id, z.id);
      }
    }
    forall a: Segment, b: Segment | ExactLeq(a, b) && ExactLeq(b, a) ensures a.window == b.window && a.id == b.id {
      TextTotal(a.id, b.id);
    }
  }

  /** Each selected id becomes exactly one segment, carrying that primitive's material fields. */
  lemma SelectedMeaning(ids: seq<string>, m: Matrix, i: nat)
    requires UnknownIds(ids, m) == {} && i < |ids|
    ensures exists p :: p in m.care + m.transport && p.id == ids[i] && SelectedSegments(ids, m)[i] == SegmentOf(p)
    ensures SelectedSegments(ids, m)[i].id == ids[i]
  {
    assert ids[i] !in UnknownIds(ids, m);
    ByKeyLookup(m.care + m.transport, (p: Primitive) => p.id, ids[i]);
    var p := Get(PrimitivesById(m), ids[i]).value;
    assert p in m.care + m.transport && p.id == ids[i];
  }

  lemma SelectedPermutes(a: seq<string>, b: seq<string>, m: Matrix)
    requires multiset(a) == multiset(b) && UnknownIds(a, m) == {} && UnknownIds(b, m) == {}
    ensures multiset(SelectedSegments(a, m)) == multiset(SelectedSegments(b, m))
  {
    var byId := PrimitivesById(m);
    var f := (id: string) =>
      match Get(byId, id)
      case Some(p) => SegmentOf(p)
      case None => Segment(id, m.required, "", ByParent, Care, "", None, None, 0.0);
    forall ids, i | (ids == a || ids == b) && 0 <= i < |ids| ensures SelectedSegments(ids, m)[i] == f(ids[i]) {
      assert ids[i] !in UnknownIds(ids, m);
    }
    assert SelectedSegments(a, m) == Map(a, f) && SelectedSegments(b, m) == Map(b, f);
    MapPermutes(a, b, f);
  }

  /** Any order of the same selected ids gives the same plan, plan id included, or the same error. */
  lemma MaterializationIgnoresOrder(a: Selection, b: Selection, m: Matrix, digest: seq<string> -> string)
    requires multiset(a) == multiset(b)
    ensures Materialized(a, m, digest) == Materialized(b, m, digest)
  {
    SameElements(a, b);
    assert UnknownIds(a, m) == UnknownIds(b, m);
    assert MissingIds(a, m) == MissingIds(b, m);
    TextOrder();
    SortIsCanonical(TextLeq, a, b);
    if UnknownIds(a, m) == {} {
      SelectedPermutes(a, b, m);
      ExactOrder();
      var s := SelectedSegments(a, m);
      forall x, y | x in s && y in s && ExactLeq(x, y) && ExactLeq(y, x) ensures x == y {
        var i :| 0 <= i < |s| && s[i] == x;
        var j :| 0 <= j < |s| && s[j] == y;
        SelectedMeaning(a, m, i);
        SelectedMeaning(a, m, j);
      }
      SortIsCanonical(ExactLeq, SelectedSegments(a, m), SelectedSegments(b, m));
    }
  }

  /** Success means every id was known and every immutable primitive was chosen; the plan's
      segments are the chosen primitives, each once, and nothing else. */
  lemma MaterializationIsExact(ids: Selection, m: Matrix, digest: seq<string> -> string)
    ensures Materialized(ids, m, digest).Ok? <==>
      && (forall id :: id in ids ==> exists p :: p in m.care + m.transport && p.id == id)
      && (forall p :: p in m.care + m.transport && p.immutable ==> p.id in ids)
    ensures Materialized(ids, m, digest).Ok? ==>
      var plan := Materialized(ids, m, digest).value;
      && UnknownIds(ids, m) == {}
      && multiset(plan.segments) == multiset(SelectedSegments(ids, m))
      && plan.changes == [] && plan.state == NotValidated
      && |plan.segments| == |ids|
      && forall i :: 0 <= i < |ids| ==> CameFrom(SelectedSegments(ids, m)[i], ids[i], m.care + m.transport)
  {
    var all := m.care + m.transport;
    forall id | id in ids
      ensures id in UnknownIds(ids, m) <==> !exists p :: p in all && p.id == id
    {
      ByKeyLookup(all, (p: Primitive) => p.id, id);
    }
    if UnknownIds(ids, m) == {} {
      SortPermutes(ExactLeq, SelectedSegments(ids, m));
      forall i | 0 <= i < |ids| ensures CameFrom(SelectedSegments(ids, m)[i], ids[i], all) {
        SelectedMeaning(ids, m, i);
        var p :| p in all && p.id == ids[i] && SelectedSegments(ids, m)[i] == SegmentOf(p);
        assert SameWork(SelectedSegments(ids, m)[i], p);
      }
      forall id | id in ids ensures exists p :: p in all && p.id == id {
        assert id !in UnknownIds(ids, m);
      }
    } else {
      var id :| id in UnknownIds(ids, m);
    }
    assert MissingIds(ids, m) == {} <==> forall p :: p in all && p.immutable ==> p.id in ids by {
      if MissingIds(ids, m) == {} {
        forall p | p in all && p.immutable ensures p.id in ids {
          assert p.id !in MissingIds(ids, m);
        }
      }
    }
  }

  // ---------------------------------------------------------------- a path as a plan

  function Segments(path: seq<Primitive>): seq<Segment> {
    Map(path, SegmentOf)
  }

  lemma PathIsOrdered(path: seq<Primitive>, origin: State, goal: State)
    requires Chain(path, origin, goal)
    ensures Ordered(ExactLeq, Segments(path))
    ensures Ordered(SegmentLeq, Segments(path))
    ensures forall i, j :: 0 <= i < j < |path| ==> path[i].window.start < path[j].window.start
  {
    ChainSteps(path, origin, goal);
  }

  /** Selecting the ids along a chain of matrix primitives yields the chain, segment by segment. */
  lemma PathMaterializes(path: seq<Primitive>, m: Matrix, origin: State, goal: State,
                         digest: seq<string> -> string)
    requires Distinct(Ids(m.care + m.transport))
    requires Chain(path, origin, goal) && path != []
    requires forall p :: p in path ==> p in m.care + m.transport
    requires forall p :: p in m.care + m.transport && p.immutable ==> p in path
    ensures Distinct(Ids(path)) && Ids(path) != []
    ensures Materialized(Ids(path), m, digest).Ok?
    ensures Materialized(Ids(path), m, digest).value.segments == Segments(path)
    ensures Materialized(Ids(path), m, digest).value.changes == []
  {
    var all, ids := m.care + m.transport, Ids(path);
    PathIsOrdered(path, origin, goal);
    forall i, j | 0 <= i < j < |ids| ensures ids[i] != ids[j] {
      assert path[i] in path && path[j] in path;
      if ids[i] == ids[j] {
        IdsTellApart(all, path[i], path[j]);
      }
    }
    forall p | p in all && p.immutable ensures p.id in ids {
      var i :| 0 <= i < |path| && path[i] == p;
      assert ids[i] == p.id;
    }
    forall id | id in ids ensures exists p :: p in all && p.id == id {
      var i :| 0 <= i < |ids| && ids[i] == id;
      assert path[i] in path;
    }
    MaterializationIsExact(ids, m, digest);
    var s := SelectedSegments(ids, m);
    forall i | 0 <= i < |path| ensures s[i] == SegmentOf(path[i]) {
      SelectedMeaning(ids, m, i);
      var p :| p in all && p.id == ids[i] && s[i] == SegmentOf(p);
      assert path[i] in path;
      IdsTellApart(all, p, path[i]);
    }
    assert s == Segments(path);
    SortFixesOrdered(ExactLeq, s);
  }
}
