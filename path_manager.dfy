/// The `path-manager` system (scripts/path-manager.js): the set of played
/// node ids, the map of active nodes, spawning of the four root directions
/// and of the successors of a completed node.
module PathManagerSystem {
  import opened Paths

  /** `active`: node id to the sphere spawned for it. */
  type ActiveMap = map<string, Sphere>

  /** The system's state as one value: `played` and `active`. */
  datatype ManagerState = ManagerState(played: set<string>, active: ActiveMap)

  /** Every active sphere is filed under its own id. */
  predicate KeyedById(active: ActiveMap) {
    forall k :: k in active ==> active[k].id == k
  }

  /**
   * `spawnNode`: nothing happens when the id is already active (the played
   * set is not consulted); otherwise the new sphere is filed under its id.
   */
  function Spawn(active: ActiveMap, s: Sphere): (r: ActiveMap)
    ensures s.id in r && r[s.id] == (if s.id in active then active[s.id] else s)
    ensures r - {s.id} == active - {s.id}
    ensures KeyedById(active) ==> KeyedById(r)
  {
    if s.id in active then active else active[s.id := s]
  }

  /** The four roots, in the order `spawnInitialDirections` spawns them; none is given a `next` list. */
  function RootSpheres(): seq<Sphere> {
    [ Sphere("front_1", Forward(1.0), "#ffffff", []),
      Sphere("back_1", Forward(-1.0), "#000000", []),
      Sphere("left_1", Right(-1.0), "#ff0000", []),
      Sphere("right_1", Right(1.0), "#0066ff", []) ]
  }

  /** `active` right after `spawnInitialDirections`: the roots spawned into a cleared map. */
  function RootMap(): (m: ActiveMap)
    ensures m.Keys == {"front_1", "back_1", "left_1", "right_1"}
    ensures m["front_1"].position == Vec3(0.0, 1.0, -1.0)
    ensures m["back_1"].position == Vec3(0.0, 1.0, 1.0)
    ensures m["left_1"].position == Vec3(-1.0, 1.0, 0.0)
    ensures m["right_1"].position == Vec3(1.0, 1.0, 0.0)
    ensures forall k :: k in m ==> m[k].id == k && m[k].next == [] && m[k].position.y == 1.0
  {
    var roots := RootSpheres();
    Spawn(Spawn(Spawn(Spawn(map[], roots[0]), roots[1]), roots[2]), roots[3])
  }

  /** The sphere `completeNode` spawns for a successor id that the graph defines. */
  function Successor(graph: Graph, n: string, origin: Vec3, pose: Pose): Sphere
    requires n in graph
  {
    Sphere(n, ComputePosition(origin, graph[n].offset, pose), graph[n].color, graph[n].next)
  }

  /**
   * The `nextIds.forEach` loop of `completeNode`, taken in list order: ids the
   * graph does not define are skipped, the others are spawned.
   */
  function SpawnSuccessors(active: ActiveMap, graph: Graph, ids: seq<string>, origin: Vec3, pose: Pose): (r: ActiveMap)
    ensures active.Keys <= r.Keys
    ensures KeyedById(active) ==> KeyedById(r)
    decreases |ids|
  {
    if ids == [] then active
    else
      var before := SpawnSuccessors(active, graph, ids[..|ids| - 1], origin, pose);
      var n := ids[|ids| - 1];
      if n in graph then Spawn(before, Successor(graph, n, origin, pose)) else before
  }

  /** `completeNode(id, nextIds, origin)`: record, despawn, spawn successors. */
  function Complete(s: ManagerState, graph: Graph, id: string, nextIds: seq<string>, origin: Vec3, pose: Pose): (r: ManagerState)
    ensures r.played == s.played + {id}
    ensures forall k :: k in s.active && k != id ==> k in r.active
  {
    ManagerState(s.played + {id}, SpawnSuccessors(s.active - {id}, graph, nextIds, origin, pose))
  }

  /**
   * What the successor loop produces: the ids it adds are exactly the listed
   * ones the graph defines; entries already active are kept as they were; each
   * new entry carries its graph colour, its graph `next` list and a position
   * computed from the origin.
   */
  lemma {:induction false} SpawnSuccessorsResult(active: ActiveMap, graph: Graph, ids: seq<string>, origin: Vec3, pose: Pose)
    ensures var r := SpawnSuccessors(active, graph, ids, origin, pose);
      && (forall k :: k in r <==> k in active || (k in ids && k in graph))
      && (forall k :: k in active ==> r[k] == active[k])
      && (forall k :: k in r && k !in active ==> k in graph && r[k] == Successor(graph, k, origin, pose))
    decreases |ids|
  {
    if ids != [] {
      var init, last := ids[..|ids| - 1], ids[|ids| - 1];
      SpawnSuccessorsResult(active, graph, init, origin, pose);
      assert ids == init + [last];
      assert forall k :: k in ids <==> k in init || k == last;
    }
  }

  /**
   * After `completeNode`, the id is played and leaves `active` unless it is its
   * own defined successor; `active` holds the other previously active ids
   * unchanged plus every listed successor the graph defines, the new ones
   * spawned from their graph entries.
   */
  lemma {:induction false} CompleteResult(s: ManagerState, graph: Graph, id: string, nextIds: seq<string>, origin: Vec3, pose: Pose)
    ensures var r := Complete(s, graph, id, nextIds, origin, pose);
      && r.played == s.played + {id}
      && (id in r.active <==> id in nextIds && id in graph)
      && (forall k :: k in r.active <==> (k in s.active && k != id) || (k in nextIds && k in graph))
      && (forall k :: k in s.active && k != id ==> r.active[k] == s.active[k])
      && (forall k :: k in r.active && (k !in s.active || k == id) ==>
            k in graph && r.active[k] == Successor(graph, k, origin, pose))
  {
    SpawnSuccessorsResult(s.active - {id}, graph, nextIds, origin, pose);
  }

  /** Completion keeps every active sphere filed under its own id. */
  lemma {:induction false} CompleteKeepsKeyed(s: ManagerState, graph: Graph, id: string, nextIds: seq<string>, origin: Vec3, pose: Pose)
    requires KeyedById(s.active)
    ensures KeyedById(Complete(s, graph, id, nextIds, origin, pose).active)
  {
    CompleteResult(s, graph, id, nextIds, origin, pose);
  }

  /**
   * There is no already-played guard, yet completing the same node twice in a
   * row with the same arguments ends in the same state as completing it once.
   */
  lemma {:induction false} CompleteTwiceIsCompleteOnce(s: ManagerState, graph: Graph, id: string, nextIds: seq<string>, origin: Vec3, pose: Pose)
    ensures var once := Complete(s, graph, id, nextIds, origin, pose);
      Complete(once, graph, id, nextIds, origin, pose) == once
  {
    var once := Complete(s, graph, id, nextIds, origin, pose);
    var twice := Complete(once, graph, id, nextIds, origin, pose);
    CompleteResult(s, graph, id, nextIds, origin, pose);
    CompleteResult(once, graph, id, nextIds, origin, pose);
    assert twice.active.Keys == once.active.Keys;
    assert forall k :: k in twice.active ==> twice.active[k] == once.active[k];
  }

  /**
   * The played set does not stop a spawn: a node completed with no successors
   * can be spawned again at once.
   */
  lemma CompletedNodeCanRespawn(s: ManagerState, graph: Graph, origin: Vec3, pose: Pose, again: Sphere)
    ensures var done := Complete(s, graph, again.id, [], origin, pose);
      && again.id in done.played
      && again.id !in done.active
      && Spawn(done.active, again)[again.id] == again
  {
  }

  /**
   * Roots carry an empty `next` list, so completing a root spawns nothing,
   * whatever the graph defines for it.
   */
  lemma RootCompletionSpawnsNothing(s: ManagerState, graph: Graph, root: string, origin: Vec3, pose: Pose)
    requires root in RootMap()
    ensures Complete(s, graph, root, RootMap()[root].next, origin, pose)
         == ManagerState(s.played + {root}, s.active - {root})
  {
  }

  class PathManager {
    /** PATH_GRAPH. */
    const graph: Graph
    var played: set<string>
    var active: ActiveMap

    function State(): ManagerState
      reads this
    {
      ManagerState(played, active)
    }

    ghost predicate Valid()
      reads this
    {
      KeyedById(active)
    }

    /** `init`: nothing played, and the four roots spawned. */
    constructor (graph: Graph)
      ensures Valid()
      ensures this.graph == graph && played == {} && active == RootMap()
    {
      this.graph := graph;
      played := {};
      active := map[];
      new;
      SpawnInitialDirections();
    }

    /** Clears `active` and spawns the four roots; `played` is kept. */
    method SpawnInitialDirections()
      modifies this
      ensures Valid()
      ensures played == old(played) && active == RootMap()
    {
      ClearAll();
      SpawnNode("front_1", Forward(1.0), "#ffffff", []);
      SpawnNode("back_1", Forward(-1.0), "#000000", []);
      SpawnNode("left_1", Right(-1.0), "#ff0000", []);
      SpawnNode("right_1", Right(1.0), "#0066ff", []);
    }

    /** Empties `active`; `played` is kept. */
    method ClearAll()
      modifies this
      ensures Valid()
      ensures played == old(played) && active == map[]
    {
      active := map[];
    }

    method SpawnNode(id: string, pos: Vec3, color: string, next: seq<string>)
      requires Valid()
      modifies this
      ensures Valid()
      ensures played == old(played) && active == Spawn(old(active), Sphere(id, pos, color, next))
    {
      if id in active {
        return;
      }
      active := active[id := Sphere(id, pos, color, next)];
    }

    /**
     * `completeNode`. The camera's orientation at the moment of the call,
     * which `computePosition` reads, is the `pose` parameter.
     */
    method CompleteNode(id: string, nextIds: seq<string>, origin: Vec3, pose: Pose)
      requires Valid()
      modifies this
      ensures Valid()
      ensures State() == Complete(old(State()), graph, id, nextIds, origin, pose)
    {
      played := played + {id};
      active := active - {id};
      ghost var start := active;
      var i := 0;
      while i < |nextIds|
        invariant 0 <= i <= |nextIds|
        invariant Valid()
        invariant played == old(played) + {id}
        invariant active == SpawnSuccessors(start, graph, nextIds[..i], origin, pose)
      {
        var n := nextIds[i];
        assert nextIds[..i + 1][..i] == nextIds[..i];
        if n in graph {
          var def := graph[n];
          SpawnNode(n, ComputePosition(origin, def.offset, pose), def.color, def.next);
        }
        i := i + 1;
      }
      assert nextIds[..|nextIds|] == nextIds;
    }
  }
}
