/** Care and transport primitives as edges between (moment, place) states: which states a day can
    reach, which primitives lie on a complete day, and the smallest window that would connect one. */
module FeasibilityGraph {
  import opened Prelude
  import opened Intervals
  import opened Domain

  datatype Primitive =
    | CarePrimitive(id: string, person: string, source: Source, window: Window, location: string,
                    immutable: bool)
    | TransportPrimitive(id: string, person: string, source: Source, transporter: string,
                         window: Window, location: string, destination: string,
                         requiredMinutes: int, immutable: bool)

  datatype State = State(moment: int, place: string)

  function Departure(p: Primitive): State {
    State(p.window.start, p.location)
  }

  function Arrival(p: Primitive): State {
    State(p.window.end, if p.TransportPrimitive? then p.destination else p.location)
  }

  predicate Chain(path: seq<Primitive>, origin: State, goal: State) {
    if path == [] then origin == goal
    else Departure(path[0]) == origin && Chain(path[1..], Arrival(path[0]), goal)
  }

  ghost predicate Connects(ps: seq<Primitive>, path: seq<Primitive>, origin: State, goal: State) {
    (forall p :: p in path ==> p in ps) && Chain(path, origin, goal)
  }

  ghost predicate Reaches(ps: seq<Primitive>, origin: State, goal: State) {
    exists path :: Connects(ps, path, origin, goal)
  }

  /** A state at the end of the day that some primitive arrives in. */
  ghost predicate Finish(ps: seq<Primitive>, end: int, goal: State) {
    goal.moment == end && exists p :: p in ps && Arrival(p) == goal
  }

  ghost predicate CanFinish(ps: seq<Primitive>, end: int, origin: State) {
    exists goal :: Finish(ps, end, goal) && Reaches(ps, origin, goal)
  }

  function DayStart(required: Window, home: string): State {
    State(required.start, home)
  }

  /** A complete day: a chain of primitives from home at the start to any place at the end. */
  ghost predicate FullDay(ps: seq<Primitive>, required: Window, home: string, path: seq<Primitive>) {
    exists goal: State :: goal.moment == required.end && Connects(ps, path, DayStart(required, home), goal)
  }

  ghost predicate HasFullDay(ps: seq<Primitive>, required: Window, home: string) {
    exists path :: FullDay(ps, required, home, path)
  }

  ghost predicate OnFullDay(ps: seq<Primitive>, required: Window, home: string, p: Primitive) {
    exists path :: FullDay(ps, required, home, path) && p in path
  }

  // ---------------------------------------------------------------- chains

  lemma {:induction false} ChainJoin(a: seq<Primitive>, b: seq<Primitive>, origin: State, mid: State, goal: State)
    requires Chain(a, origin, mid) && Chain(b, mid, goal)
    ensures Chain(a + b, origin, goal)
  {
    if a == [] {
      assert a + b == b;
    } else {
      ChainJoin(a[1..], b, Arrival(a[0]), mid, goal);
      assert (a + b)[1..] == a[1..] + b;
    }
  }

  lemma {:induction false} ChainSplit(path: seq<Primitive>, origin: State, goal: State, k: nat)
    requires Chain(path, origin, goal) && k < |path|
    ensures Chain(path[..k], origin, Departure(path[k]))
    ensures Chain(path[k+1..], Arrival(path[k]), goal)
  {
    if k > 0 {
      ChainSplit(path[1..], Arrival(path[0]), goal, k - 1);
      assert path[..k][1..] == path[1..][..k-1];
      assert path[1..][k..] == path[k+1..];
    }
  }

  /** A chain visits its primitives in order, back to back. */
  lemma {:induction false} ChainSteps(path: seq<Primitive>, origin: State, goal: State)
    requires Chain(path, origin, goal)
    ensures path == [] ==> origin == goal
    ensures path != [] ==> Departure(path[0]) == origin && Arrival(path[|path|-1]) == goal
    ensures forall i :: 0 <= i < |path| - 1 ==> Arrival(path[i]) == Departure(path[i+1])
    ensures forall i, j :: 0 <= i < j < |path| ==> path[i].window.end <= path[j].window.start
    ensures forall i :: 0 <= i < |path| ==>
      origin.moment <= path[i].window.start && path[i].window.end <= goal.moment
    ensures origin.moment <= goal.moment
  {
    if path != [] {
      ChainSteps(path[1..], Arrival(path[0]), goal);
    }
  }

  lemma {:induction false} ChainCovers(path: seq<Primitive>, origin: State, goal: State, t: int)
    returns (k: nat)
    requires Chain(path, origin, goal) && origin.moment <= t < goal.moment
    ensures k < |path| && Holds(path[k].window, t)
  {
    if t < path[0].window.end {
      k := 0;
    } else {
      var rest := ChainCovers(path[1..], Arrival(path[0]), goal, t);
      k := rest + 1;
    }
  }

  lemma ReachesSelf(ps: seq<Primitive>, s: State)
    ensures Reaches(ps, s, s)
  {
    assert Connects(ps, [], s, s);
  }

  lemma ReachesJoin(ps: seq<Primitive>, origin: State, mid: State, goal: State)
    requires Reaches(ps, origin, mid) && Reaches(ps, mid, goal)
    ensures Reaches(ps, origin, goal)
  {
    var a :| Connects(ps, a, origin, mid);
    var b :| Connects(ps, b, mid, goal);
    ChainJoin(a, b, origin, mid, goal);
    assert Connects(ps, a + b, origin, goal);
  }

  lemma ReachesByOne(ps: seq<Primitive>, p: Primitive)
    requires p in ps
    ensures Reaches(ps, Departure(p), Arrival(p))
  {
    assert Chain([p][1..], Arrival(p), Arrival(p));
    assert Connects(ps, [p], Departure(p), Arrival(p));
  }

  lemma ReachesOneMore(ps: seq<Primitive>, origin: State, p: Primitive)
    requires p in ps && Reaches(ps, origin, Departure(p))
    ensures Reaches(ps, origin, Arrival(p))
  {
    ReachesByOne(ps, p);
    ReachesJoin(ps, origin, Departure(p), Arrival(p));
  }

  lemma FinishesByOneMore(ps: seq<Primitive>, end: int, p: Primitive)
    requires p in ps && CanFinish(ps, end, Arrival(p))
    ensures CanFinish(ps, end, Departure(p))
  {
    var goal :| Finish(ps, end, goal) && Reaches(ps, Arrival(p), goal);
    ReachesByOne(ps, p);
    ReachesJoin(ps, Departure(p), Arrival(p), goal);
  }

  lemma ReachesMore(ps: seq<Primitive>, more: seq<Primitive>, origin: State, goal: State)
    requires Reaches(ps, origin, goal) && forall p :: p in ps ==> p in more
    ensures Reaches(more, origin, goal)
  {
    var path :| Connects(ps, path, origin, goal);
    assert Connects(more, path, origin, goal);
  }

  lemma FullDayIsReached(ps: seq<Primitive>, required: Window, home: string)
    ensures HasFullDay(ps, required, home)
      <==> exists goal: State :: goal.moment == required.end && Reaches(ps, DayStart(required, home), goal)
  {
    if HasFullDay(ps, required, home) {
      var path :| FullDay(ps, required, home, path);
      var goal: State :| goal.moment == required.end && Connects(ps, path, DayStart(required, home), goal);
      assert Reaches(ps, DayStart(required, home), goal);
    }
    if goal: State :| goal.moment == required.end && Reaches(ps, DayStart(required, home), goal) {
      var path :| Connects(ps, path, DayStart(required, home), goal);
      assert FullDay(ps, required, home, path);
    }
  }

  lemma FullDayNonempty(ps: seq<Primitive>, required: Window, home: string, path: seq<Primitive>)
    requires FullDay(ps, required, home, path)
    ensures path != [] && path[0] in ps
    ensures Finish(ps, required.end, Arrival(path[|path|-1]))
    ensures Chain(path, DayStart(required, home), Arrival(path[|path|-1]))
    ensures forall p :: p in path ==> p in ps && Within(p.window, required)
  {
    var goal: State :| goal.moment == required.end && Connects(ps, path, DayStart(required, home), goal);
    ChainSteps(path, DayStart(required, home), goal);
    assert path[0] in path && path[|path|-1] in path;
  }

  lemma OnFullDaySplits(ps: seq<Primitive>, required: Window, home: string, p: Primitive)
    requires OnFullDay(ps, required, home, p)
    ensures Reaches(ps, DayStart(required, home), Departure(p))
    ensures CanFinish(ps, required.end, Arrival(p))
  {
    var start := DayStart(required, home);
    var path :| FullDay(ps, required, home, path) && p in path;
    FullDayNonempty(ps, required, home, path);
    var goal := Arrival(path[|path|-1]);
    var k :| 0 <= k < |path| && path[k] == p;
    ChainSplit(path, start, goal, k);
    assert Connects(ps, path[..k], start, Departure(p));
    assert Connects(ps, path[k+1..], Arrival(p), goal);
  }

  lemma OnFullDayJoins(ps: seq<Primitive>, required: Window, home: string, p: Primitive)
    requires p in ps
    requires Reaches(ps, DayStart(required, home), Departure(p))
    requires CanFinish(ps, required.end, Arrival(p))
    ensures OnFullDay(ps, required, home, p)
  {
    var start := DayStart(required, home);
    var goal :| Finish(ps, required.end, goal) && Reaches(ps, Arrival(p), goal);
    var a :| Connects(ps, a, start, Departure(p));
    var b :| Connects(ps, b, Arrival(p), goal);
    assert ([p] + b)[0] == p && ([p] + b)[1..] == b;
    ChainJoin(a, [p] + b, start, Departure(p), goal);
    assert Connects(ps, a + ([p] + b), start, goal);
    assert FullDay(ps, required, home, a + ([p] + b));
  }

  /** A primitive lies on a complete day exactly when the day can reach where it starts and can be
      finished from where it ends. */
  lemma OnFullDayMeaning(ps: seq<Primitive>, required: Window, home: string, p: Primitive)
    requires p in ps
    ensures OnFullDay(ps, required, home, p) <==>
      Reaches(ps, DayStart(required, home), Departure(p)) && CanFinish(ps, required.end, Arrival(p))
  {
    if OnFullDay(ps, required, home, p) {
      OnFullDaySplits(ps, required, home, p);
    } else if Reaches(ps, DayStart(required, home), Departure(p)) && CanFinish(ps, required.end, Arrival(p)) {
      OnFullDayJoins(ps, required, home, p);
    }
  }

  // ---------------------------------------------------------------- fixpoints

  ghost predicate ClosedForward(ps: seq<Primitive>, states: set<State>) {
    forall p :: p in ps && Departure(p) in states ==> Arrival(p) in states
  }

  ghost predicate ClosedBackward(ps: seq<Primitive>, states: set<State>) {
    forall p :: p in ps && Arrival(p) in states ==> Departure(p) in states
  }

  lemma {:induction false} ForwardHoldsChain(ps: seq<Primitive>, states: set<State>, path: seq<Primitive>,
                                             origin: State, goal: State)
    requires ClosedForward(ps, states) && origin in states && Connects(ps, path, origin, goal)
    ensures goal in states
  {
    if path != [] {
      assert path[0] in ps;
      ForwardHoldsChain(ps, states, path[1..], Arrival(path[0]), goal);
    }
  }

  lemma {:induction false} BackwardHoldsChain(ps: seq<Primitive>, states: set<State>, path: seq<Primitive>,
                                              origin: State, goal: State)
    requires ClosedBackward(ps, states) && goal in states && Connects(ps, path, origin, goal)
    ensures origin in states
  {
    if path != [] {
      assert path[0] in ps;
      BackwardHoldsChain(ps, states, path[1..], Arrival(path[0]), goal);
    }
  }

  /** One sweep over the primitives, adding every arrival whose departure is already there. */
  method SweepForward(ps: seq<Primitive>, states: set<State>, ghost origin: State)
    returns (grown: set<State>, changed: bool)
    requires forall s :: s in states ==> Reaches(ps, origin, s)
    ensures states <= grown <= states + (set p | p in ps :: Arrival(p))
    ensures forall s :: s in grown ==> Reaches(ps, origin, s)
    ensures changed <==> grown != states
    ensures !changed ==> ClosedForward(ps, grown)
  {
    hide Reaches;
    grown, changed := states, false;
    for i := 0 to |ps|
      invariant states <= grown <= states + (set p | p in ps :: Arrival(p))
      invariant forall s :: s in grown ==> Reaches(ps, origin, s)
      invariant changed <==> grown != states
      invariant !changed ==> forall j :: 0 <= j < i && Departure(ps[j]) in grown ==> Arrival(ps[j]) in grown
    {
      var p := ps[i];
      if Departure(p) in grown && Arrival(p) !in grown {
        ReachesOneMore(ps, origin, p);
        grown := grown + {Arrival(p)};
        changed := true;
      }
    }
  }

  /** The first fixpoint: repeat sweeps while anything changed. */
  method GrowForward(ps: seq<Primitive>, origin: State) returns (forward: set<State>)
    ensures forall s :: s in forward <==> Reaches(ps, origin, s)
  {
    forward := {origin};
    ghost var universe := {origin} + set p | p in ps :: Arrival(p);
    var changed := true;
    ReachesSelf(ps, origin);
    while changed
      invariant origin in forward && forward <= universe
      invariant forall s :: s in forward ==> Reaches(ps, origin, s)
      invariant !changed ==> ClosedForward(ps, forward)
      decreases universe - forward, changed
    {
      ghost var before := forward;
      forward, changed := SweepForward(ps, forward, origin);
      if changed {
        ghost var s :| s in forward && s !in before;
        assert s in universe - before && s !in universe - forward;
      }
    }
    forall s | Reaches(ps, origin, s) ensures s in forward {
      var path :| Connects(ps, path, origin, s);
      ForwardHoldsChain(ps, forward, path, origin, s);
    }
  }

  method SweepBackward(ps: seq<Primitive>, states: set<State>, ghost end: int)
    returns (grown: set<State>, changed: bool)
    requires forall s :: s in states ==> CanFinish(ps, end, s)
    ensures states <= grown <= states + (set p | p in ps :: Departure(p))
    ensures forall s :: s in grown ==> CanFinish(ps, end, s)
    ensures changed <==> grown != states
    ensures !changed ==> ClosedBackward(ps, grown)
  {
    hide CanFinish;
    grown, changed := states, false;
    for i := 0 to |ps|
      invariant states <= grown <= states + (set p | p in ps :: Departure(p))
      invariant forall s :: s in grown ==> CanFinish(ps, end, s)
      invariant changed <==> grown != states
      invariant !changed ==> forall j :: 0 <= j < i && Arrival(ps[j]) in grown ==> Departure(ps[j]) in grown
    {
      var p := ps[i];
      if Arrival(p) in grown && Departure(p) !in grown {
        FinishesByOneMore(ps, end, p);
        grown := grown + {Departure(p)};
        changed := true;
      }
    }
  }

  /** The second fixpoint, backwards from every arrival at the end of the day. */
  method GrowBackward(ps: seq<Primitive>, end: int) returns (backward: set<State>)
    ensures forall s :: s in backward <==> CanFinish(ps, end, s)
  {
    backward := set p | p in ps && Arrival(p).moment == end :: Arrival(p);
    forall s | s in backward ensures CanFinish(ps, end, s) {
      ReachesSelf(ps, s);
      assert Finish(ps, end, s);
    }
    ghost var goals := backward;
    ghost var universe := backward + set p | p in ps :: Departure(p);
    var changed := true;
    while changed
      invariant goals <= backward <= universe
      invariant forall s :: s in backward ==> CanFinish(ps, end, s)
      invariant !changed ==> ClosedBackward(ps, backward)
      decreases universe - backward, changed
    {
      ghost var before := backward;
      backward, changed := SweepBackward(ps, backward, end);
      if changed {
        ghost var s :| s in backward && s !in before;
        assert s in universe - before && s !in universe - backward;
      }
    }
    forall s | CanFinish(ps, end, s) ensures s in backward {
      var goal :| Finish(ps, end, goal) && Reaches(ps, s, goal);
      var path :| Connects(ps, path, s, goal);
      BackwardHoldsChain(ps, backward, path, s, goal);
    }
  }

  // ---------------------------------------------------------------- pruning

  /** The id of some primitive that lies on a complete day. */
  ghost predicate Retained(ps: seq<Primitive>, required: Window, home: string, id: string) {
    exists p :: p in ps && p.id == id && OnFullDay(ps, required, home, p)
  }

  ghost function Pruned(items: seq<Primitive>, ps: seq<Primitive>, required: Window, home: string): seq<Primitive> {
    Filter(items, (p: Primitive) => Retained(ps, required, home, p.id))
  }

  method PruneToFullCoveragePaths(
    care: seq<Primitive>, transport: seq<Primitive>, required: Window, home: string)
    returns (keptCare: seq<Primitive>, keptTransport: seq<Primitive>)
    ensures keptCare == Pruned(care, care + transport, required, home)
    ensures keptTransport == Pruned(transport, care + transport, required, home)
  {
    var ps := care + transport;
    var forward := GrowForward(ps, DayStart(required, home));
    var backward := GrowBackward(ps, required.end);
    var retained := set p | p in ps && Departure(p) in forward && Arrival(p) in backward :: p.id;
    forall id ensures id in retained <==> Retained(ps, required, home, id) {
      forall p | p in ps
        ensures OnFullDay(ps, required, home, p) <==> Departure(p) in forward && Arrival(p) in backward
      {
        OnFullDayMeaning(ps, required, home, p);
      }
    }
    keptCare := Filter(care, (p: Primitive) => p.id in retained);
    keptTransport := Filter(transport, (p: Primitive) => p.id in retained);
    FilterAgree(care, (p: Primitive) => p.id in retained, (p: Primitive) => Retained(ps, required, home, p.id));
    FilterAgree(transport, (p: Primitive) => p.id in retained, (p: Primitive) => Retained(ps, required, home, p.id));
  }

  /** Pruning by id is exact whenever the surviving ids are unique: a primitive survives if and
      only if it lies on some complete day, and then it lies inside the required window. */
  lemma PruningIsExact(items: seq<Primitive>, ps: seq<Primitive>, required: Window, home: string,
                       survivors: seq<Primitive>, p: Primitive)
    requires p in items && forall q :: q in items ==> q in ps
    requires forall q :: q in survivors <==> q in ps && Retained(ps, required, home, q.id)
    requires forall q, r :: q in survivors && r in survivors && q.id == r.id ==> q == r
    ensures p in Pruned(items, ps, required, home) <==> OnFullDay(ps, required, home, p)
    ensures p in Pruned(items, ps, required, home) ==> Within(p.window, required)
  {
    FilterMember(items, (q: Primitive) => Retained(ps, required, home, q.id));
    if p in Pruned(items, ps, required, home) {
      var q :| q in ps && q.id == p.id && OnFullDay(ps, required, home, q);
      assert q in survivors && p in survivors;
    }
    if OnFullDay(ps, required, home, p) {
      var path :| FullDay(ps, required, home, path) && p in path;
      FullDayNonempty(ps, required, home, path);
    }
  }

  /** Something survives exactly when a complete day exists. */
  lemma PruningKeepsSomething(care: seq<Primitive>, transport: seq<Primitive>, required: Window, home: string)
    ensures var ps := care + transport;
      (Pruned(care, ps, required, home) + Pruned(transport, ps, required, home) != []) == HasFullDay(ps, required, home)
  {
    var ps := care + transport;
    var keep := (p: Primitive) => Retained(ps, required, home, p.id);
    FilterMember(care, keep);
    FilterMember(transport, keep);
    var kept := Pruned(care, ps, required, home) + Pruned(transport, ps, required, home);
    if kept != [] {
      assert kept[0] in kept;
      assert keep(kept[0]);
      var p :| p in ps && p.id == kept[0].id && OnFullDay(ps, required, home, p);
    }
    if HasFullDay(ps, required, home) {
      var path :| FullDay(ps, required, home, path);
      FullDayNonempty(ps, required, home, path);
      assert path[0] in path && OnFullDay(ps, required, home, path[0]);
      assert keep(path[0]);
      assert path[0] in care || path[0] in transport;
      assert path[0] in kept;
    }
  }

  // ---------------------------------------------------------------- the connecting gap

  ghost predicate BridgeAt(ps: seq<Primitive>, required: Window, home: string, w: Window, place: string) {
    && Reaches(ps, DayStart(required, home), State(w.start, place))
    && CanFinish(ps, required.end, State(w.end, place))
  }

  ghost predicate Bridge(ps: seq<Primitive>, required: Window, home: string, w: Window) {
    exists place :: BridgeAt(ps, required, home, w, place)
  }

  /** Shorter first, then earlier. */
  predicate BridgeLeq(a: Window, b: Window) {
    a.end - a.start < b.end - b.start || (a.end - a.start == b.end - b.start && WindowLeq(a, b))
  }

  /** Nothing when a complete day exists; otherwise the smallest bridge, or the whole window. */
  ghost predicate IsGap(ps: seq<Primitive>, required: Window, home: string, gap: seq<Window>) {
    if HasFullDay(ps, required, home) then gap == []
    else if exists w :: Bridge(ps, required, home, w) then
      |gap| == 1 && Bridge(ps, required, home, gap[0])
      && forall w :: Bridge(ps, required, home, w) ==> BridgeLeq(gap[0], w)
    else gap == [required]
  }

  lemma GapIsUnique(ps: seq<Primitive>, required: Window, home: string, a: seq<Window>, b: seq<Window>)
    requires IsGap(ps, required, home, a) && IsGap(ps, required, home, b)
    ensures a == b
  {
    if !HasFullDay(ps, required, home) && exists w :: Bridge(ps, required, home, w) {
      assert BridgeLeq(a[0], b[0]) && BridgeLeq(b[0], a[0]);
    }
  }

  ghost function GapOf(ps: seq<Primitive>, required: Window, home: string): seq<Window> {
    if gap :| IsGap(ps, required, home, gap) then gap else []
  }

  ghost predicate Meets(forward: set<State>, backward: set<State>, w: Window) {
    exists place :: State(w.start, place) in forward && State(w.end, place) in backward
  }

  /** The nested comprehension over both state sets. */
  method CollectBridges(forward: set<State>, backward: set<State>) returns (bridges: seq<Window>)
    ensures forall w :: w in bridges <==> Meets(forward, backward, w)
  {
    bridges := [];
    var todo := forward;
    while todo != {}
      invariant todo <= forward
      invariant forall w :: w in bridges ==> Meets(forward, backward, w)
      invariant forall w :: Meets(forward - todo, backward, w) ==> w in bridges
      decreases todo
    {
      var f :| f in todo;
      todo := todo - {f};
      ghost var before := bridges;
      var ends := set b | b in backward && b.place == f.place && f.moment < b.moment :: b.moment;
      while ends != {}
        invariant forall e :: e in ends ==> State(e, f.place) in backward && f.moment < e
        invariant forall w :: w in before ==> w in bridges
        invariant forall w :: w in bridges ==> Meets(forward, backward, w)
        invariant forall b :: b in backward && b.place == f.place && f.moment < b.moment ==>
          b.moment in ends || Window(f.moment, b.moment) in bridges
        decreases ends
      {
        var e :| e in ends;
        ends := ends - {e};
        assert State(f.moment, f.place) == f;
        assert Meets(forward, backward, Window(f.moment, e));
        bridges := bridges + [Window(f.moment, e)];
      }
      forall w: Window | Meets(forward - todo, backward, w) ensures w in bridges {
        var place :| State(w.start, place) in forward - todo && State(w.end, place) in backward;
        if State(w.start, place) != f {
          assert Meets(forward - todo - {f}, backward, w);
        } else {
          assert Window(f.moment, w.end) == w;
        }
      }
    }
    assert forward - todo == forward;
  }

  method Smallest(bridges: seq<Window>) returns (best: Window)
    requires bridges != []
    ensures best in bridges && forall w :: w in bridges ==> BridgeLeq(best, w)
  {
    best := bridges[0];
    for i := 1 to |bridges|
      invariant best in bridges
      invariant forall j :: 0 <= j < i ==> BridgeLeq(best, bridges[j])
    {
      if !BridgeLeq(best, bridges[i]) {
        best := bridges[i];
      }
    }
  }

  method ConnectedUncoveredWindows(ps: seq<Primitive>, required: Window, home: string)
    returns (gap: seq<Window>)
    ensures IsGap(ps, required, home, gap)
    ensures gap == GapOf(ps, required, home)
  {
    var start := DayStart(required, home);
    var forward := GrowForward(ps, start);
    FullDayIsReached(ps, required, home);
    if exists s :: s in forward && s.moment == required.end {
      gap := [];
    } else {
      var backward := GrowBackward(ps, required.end);
      var bridges := CollectBridges(forward, backward);
      forall w: Window ensures Meets(forward, backward, w) <==> Bridge(ps, required, home, w) {
        if Meets(forward, backward, w) {
          var place :| State(w.start, place) in forward && State(w.end, place) in backward;
          assert BridgeAt(ps, required, home, w, place);
        }
      }
      if bridges == [] {
        gap := [required];
      } else {
        var best := Smallest(bridges);
        assert Bridge(ps, required, home, best);
        gap := [best];
      }
    }
    GapIsUnique(ps, required, home, gap, GapOf(ps, required, home));
  }

  /** Care for exactly the bridge window at its place would complete the day. */
  lemma BridgeCompletesDay(ps: seq<Primitive>, required: Window, home: string, w: Window, place: string,
                           care: Primitive)
    requires BridgeAt(ps, required, home, w, place)
    requires care.CarePrimitive? && care.window == w && care.location == place
    ensures HasFullDay(ps + [care], required, home)
    ensures Within(w, required)
  {
    var more := ps + [care];
    var start := DayStart(required, home);
    var goal :| Finish(ps, required.end, goal) && Reaches(ps, State(w.end, place), goal);
    ReachesMore(ps, more, start, State(w.start, place));
    ReachesMore(ps, more, State(w.end, place), goal);
    ReachesByOne(more, care);
    ReachesJoin(more, start, State(w.start, place), State(w.end, place));
    ReachesJoin(more, start, State(w.end, place), goal);
    FullDayIsReached(more, required, home);
    var a :| Connects(ps, a, start, State(w.start, place));
    var b :| Connects(ps, b, State(w.end, place), goal);
    ChainSteps(a, start, State(w.start, place));
    ChainSteps(b, State(w.end, place), goal);
  }

  lemma BridgeIsInside(ps: seq<Primitive>, required: Window, home: string, w: Window)
    requires Bridge(ps, required, home, w)
    ensures Within(w, required)
  {
    var place :| BridgeAt(ps, required, home, w, place);
    BridgeCompletesDay(ps, required, home, w, place, CarePrimitive("", "", ByParent, w, place, false));
  }

  lemma {:induction false} SmallestBridge(ps: seq<Primitive>, required: Window, home: string, w: Window)
    returns (best: Window)
    requires Bridge(ps, required, home, w)
    ensures Bridge(ps, required, home, best)
    ensures forall v :: Bridge(ps, required, home, v) ==> BridgeLeq(best, v)
    decreases w.end - w.start, w.start - required.start
  {
    BridgeIsInside(ps, required, home, w);
    if v :| Bridge(ps, required, home, v) && !BridgeLeq(w, v) {
      BridgeIsInside(ps, required, home, v);
      best := SmallestBridge(ps, required, home, v);
    } else {
      best := w;
    }
  }

  lemma GapExists(ps: seq<Primitive>, required: Window, home: string)
    ensures IsGap(ps, required, home, GapOf(ps, required, home))
  {
    if HasFullDay(ps, required, home) {
      assert IsGap(ps, required, home, []);
    } else if w :| Bridge(ps, required, home, w) {
      var best := SmallestBridge(ps, required, home, w);
      assert IsGap(ps, required, home, [best]);
    } else {
      assert IsGap(ps, required, home, [required]);
    }
  }

  /** The reported gap is empty exactly when a complete day exists; otherwise it is one window
      inside the required one, and when it is a bridge, no same-place pair of a reachable state and
      a state the day can be finished from is closer together. */
  lemma GapMeaning(ps: seq<Primitive>, required: Window, home: string, gap: seq<Window>)
    requires IsGap(ps, required, home, gap)
    ensures gap == [] <==> HasFullDay(ps, required, home)
    ensures gap != [] ==> |gap| == 1 && Within(gap[0], required)
    ensures gap != [] && gap != [required] ==> Bridge(ps, required, home, gap[0])
    ensures forall early, late, place ::
      gap != [] && early < late
      && Reaches(ps, DayStart(required, home), State(early, place))
      && CanFinish(ps, required.end, State(late, place))
      ==>
        && gap[0].end - gap[0].start <= late - early
        && (gap[0].end - gap[0].start == late - early && gap != [required] ==> gap[0].start <= early)
  {
    if gap != [] && Bridge(ps, required, home, gap[0]) {
      BridgeIsInside(ps, required, home, gap[0]);
    }
    forall early, late, place |
      gap != [] && early < late
      && Reaches(ps, DayStart(required, home), State(early, place))
      && CanFinish(ps, required.end, State(late, place))
      ensures gap[0].end - gap[0].start <= late - early
      ensures gap[0].end - gap[0].start == late - early && gap != [required] ==> gap[0].start <= early
    {
      assert BridgeAt(ps, required, home, Window(early, late), place);
      assert Bridge(ps, required, home, Window(early, late));
    }
  }
}
