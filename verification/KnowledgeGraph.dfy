/** The in-memory knowledge graph: an edge list, two adjacency maps over the same
    edge objects, a breadth-first shortest path and a hop-bounded subgraph. */
module KnowledgeGraph {
  import opened GoStrings
  import opened Options
  import opened TextLines

  datatype Entity = Entity(id: string, name: string, typ: string, labels: set<string>)

  datatype EntityCandidate = EntityCandidate(name: string, typ: string, labels: set<string>)

  datatype RelCandidate = RelCandidate(from: string, to: string, typ: string, weight: real)

  /** What identifies a relationship for the duplicate check. */
  datatype Key = Key(from: string, to: string, typ: string)

  /** One offer of a weight for a key, in the order AddRelationship saw them. */
  datatype Offer = Offer(key: Key, weight: real)

  /** A persisted line of the graph file, already decoded. */
  datatype Event =
    | EntityEvent(entity: Entity)
    | RelEvent(id: string, key: Key, weight: real)

  /** An edge. Only the weight ever changes; the same object sits in the edge list
      and in both adjacency lists, so an update shows through all three. */
  class Relationship {
    const id: string
    const from: string
    const to: string
    const typ: string
    var weight: real

    constructor (id: string, from: string, to: string, typ: string, weight: real)
      ensures this.id == id && this.from == from && this.to == to && this.typ == typ
      ensures this.weight == weight
    {
      this.id, this.from, this.to, this.typ, this.weight := id, from, to, typ, weight;
    }

    function GetKey(): Key { Key(from, to, typ) }

    function View(): RelView reads this { RelView(id, from, to, typ, weight) }
  }

  // ---- Adjacency lists as subsequences of the edge list ----

  ghost function Outgoing(rs: seq<Relationship>, u: string): seq<Relationship> {
    if rs == [] then []
    else
      var last := rs[|rs| - 1];
      Outgoing(rs[..|rs| - 1], u) + if last.from == u then [last] else []
  }

  lemma {:induction false} OutgoingMembers(rs: seq<Relationship>, u: string)
    ensures forall r :: r in Outgoing(rs, u) <==> r in rs && r.from == u
  {
    if rs != [] {
      OutgoingMembers(rs[..|rs| - 1], u);
      assert rs == rs[..|rs| - 1] + [rs[|rs| - 1]];
    }
  }

  ghost function Incoming(rs: seq<Relationship>, u: string): seq<Relationship> {
    if rs == [] then []
    else
      var last := rs[|rs| - 1];
      Incoming(rs[..|rs| - 1], u) + if last.to == u then [last] else []
  }

  lemma {:induction false} IncomingMembers(rs: seq<Relationship>, u: string)
    ensures forall r :: r in Incoming(rs, u) <==> r in rs && r.to == u
  {
    if rs != [] {
      IncomingMembers(rs[..|rs| - 1], u);
      assert rs == rs[..|rs| - 1] + [rs[|rs| - 1]];
    }
  }

  ghost predicate ListsOut(rs: seq<Relationship>, adjOut: map<string, seq<Relationship>>) {
    forall u :: Lookup(adjOut, u) == Outgoing(rs, u)
  }

  ghost predicate ListsIn(rs: seq<Relationship>, adjIn: map<string, seq<Relationship>>) {
    forall u :: Lookup(adjIn, u) == Incoming(rs, u)
  }

  lemma AppendToOut(rs: seq<Relationship>, adjOut: map<string, seq<Relationship>>, rel: Relationship)
    requires ListsOut(rs, adjOut)
    ensures ListsOut(rs + [rel], adjOut[rel.from := Lookup(adjOut, rel.from) + [rel]])
  {
    forall u ensures Lookup(adjOut[rel.from := Lookup(adjOut, rel.from) + [rel]], u) == Outgoing(rs + [rel], u) {
      assert (rs + [rel])[..|rs|] == rs;
      assert Lookup(adjOut, u) == Outgoing(rs, u);
    }
  }

  lemma AppendToIn(rs: seq<Relationship>, adjIn: map<string, seq<Relationship>>, rel: Relationship)
    requires ListsIn(rs, adjIn)
    ensures ListsIn(rs + [rel], adjIn[rel.to := Lookup(adjIn, rel.to) + [rel]])
  {
    forall u ensures Lookup(adjIn[rel.to := Lookup(adjIn, rel.to) + [rel]], u) == Incoming(rs + [rel], u) {
      assert (rs + [rel])[..|rs|] == rs;
      assert Lookup(adjIn, u) == Incoming(rs, u);
    }
  }

  function Lookup(m: map<string, seq<Relationship>>, u: string): seq<Relationship> {
    if u in m then m[u] else []
  }

  // ---- Undirected walks ----

  /** Some stored edge joins u and v, in either direction. */
  ghost predicate Adjacent(rs: seq<Relationship>, u: string, v: string) {
    exists r :: r in rs && ((r.from == u && r.to == v) || (r.to == u && r.from == v))
  }

  ghost predicate IsWalk(rs: seq<Relationship>, q: seq<string>, source: string, target: string) {
    && |q| > 0 && q[0] == source && q[|q| - 1] == target
    && forall i :: 0 <= i < |q| - 1 ==> Adjacent(rs, q[i], q[i + 1])
  }

  /** One printed hop: the edge's type, with "<" in front when walked backwards. */
  ghost predicate IsHop(rs: seq<Relationship>, u: string, relation: string, v: string) {
    exists r :: r in rs &&
      ((r.from == u && r.to == v && relation == r.typ) ||
       (r.to == u && r.from == v && relation == "<" + r.typ))
  }

  /** The alternating entity, relation, entity, ... list that ShortestPath returns. */
  ghost predicate IsRoute(rs: seq<Relationship>, p: seq<string>, source: string, target: string) {
    && |p| > 0 && p[|p| - 1] == target
    && if |p| == 1 then source == target
       else |p| >= 3 && IsHop(rs, p[|p| - 3], p[|p| - 2], target)
            && IsRoute(rs, p[..|p| - 2], source, p[|p| - 3])
  }

  function Hops(p: seq<string>): nat { |p| / 2 }

  // ---- The layering invariant of breadth-first search ----

  /** dist records the discovered nodes; active lists, in queue order, the discovered
      nodes whose edges have not all been followed. Nodes at depth limit or more are
      never expanded unless the search is unbounded. */
  ghost predicate Layered(rs: seq<Relationship>, source: string, dist: map<string, nat>,
                          active: seq<string>, unbounded: bool, limit: nat)
  {
    && source in dist && dist[source] == 0
    && (forall i :: 0 <= i < |active| ==> active[i] in dist)
    && (forall i, j :: 0 <= i < j < |active| ==> dist[active[i]] <= dist[active[j]])
    && (|active| > 0 ==> forall v :: v in dist ==> dist[v] <= dist[active[0]] + 1)
    && (forall u, v :: u in dist && u !in active && (unbounded || dist[u] < limit) && Adjacent(rs, u, v)
                       ==> v in dist && dist[v] <= dist[u] + 1)
  }

  /** Any walk no longer than the depth of the queue's head ends at a discovered node. */
  lemma {:induction false} WalksAreCovered(rs: seq<Relationship>, source: string, dist: map<string, nat>,
                                           active: seq<string>, unbounded: bool, limit: nat,
                                           q: seq<string>, target: string)
    requires Layered(rs, source, dist, active, unbounded, limit)
    requires IsWalk(rs, q, source, target)
    requires |active| > 0 ==> |q| - 1 <= dist[active[0]]
    requires unbounded || |q| - 1 <= limit
    ensures target in dist && dist[target] <= |q| - 1
  {
    if |q| > 1 {
      var u := q[|q| - 2];
      var shorter := q[..|q| - 1];
      assert Adjacent(rs, q[|q| - 2], q[|q| - 2 + 1]);
      WalksAreCovered(rs, source, dist, active, unbounded, limit, shorter, u);
      assert forall i :: 0 <= i < |active| ==> dist[active[0]] <= dist[active[i]];
    }
  }

  lemma DiscoverKeepsLayers(rs: seq<Relationship>, source: string, dist: map<string, nat>,
                            active: seq<string>, unbounded: bool, limit: nat, v: string)
    requires Layered(rs, source, dist, active, unbounded, limit)
    requires |active| > 0 && v !in dist
    ensures Layered(rs, source, dist[v := dist[active[0]] + 1], active + [v], unbounded, limit)
  {
  }

  lemma AdvanceKeepsLayers(rs: seq<Relationship>, source: string, dist: map<string, nat>,
                           active: seq<string>, unbounded: bool, limit: nat)
    requires Layered(rs, source, dist, active, unbounded, limit)
    requires |active| > 0
    requires unbounded || dist[active[0]] < limit ==>
               forall v :: Adjacent(rs, active[0], v) ==> v in dist
    ensures Layered(rs, source, dist, active[1..], unbounded, limit)
  {
    forall u, v | u in dist && u !in active[1..] && (unbounded || dist[u] < limit) && Adjacent(rs, u, v)
      ensures v in dist && dist[v] <= dist[u] + 1
    {
      assert active == [active[0]] + active[1..];
    }
  }

  lemma NeighboursFromLists(rs: seq<Relationship>, u: string, seen: map<string, nat>)
    requires forall r :: r in Outgoing(rs, u) ==> r.to in seen
    requires forall r :: r in Incoming(rs, u) ==> r.from in seen
    ensures forall v :: Adjacent(rs, u, v) ==> v in seen
  {
    OutgoingMembers(rs, u);
    IncomingMembers(rs, u);
  }

  datatype Node = Node(id: string, path: seq<string>)

  ghost function Ids(queue: seq<Node>): seq<string> {
    seq(|queue|, i requires 0 <= i < |queue| => queue[i].id)
  }

  ghost predicate RoutesRecorded(rs: seq<Relationship>, source: string, dist: map<string, nat>, queue: seq<Node>) {
    forall i :: 0 <= i < |queue| ==>
      && queue[i].id in dist && |queue[i].path| == 2 * dist[queue[i].id] + 1
      && IsRoute(rs, queue[i].path, source, queue[i].id)
  }

  /** The state of ShortestPath between two edges: the queue holds the discovered nodes
      still to expand, its head being the one under expansion, and the target is new. */
  ghost predicate Searching(rs: seq<Relationship>, source: string, target: string,
                            dist: map<string, nat>, queue: seq<Node>)
  {
    && target !in dist
    && Layered(rs, source, dist, Ids(queue), true, 0)
    && RoutesRecorded(rs, source, dist, queue)
  }

  lemma HopExtendsRoute(rs: seq<Relationship>, source: string, node: Node, relation: string, v: string)
    requires IsRoute(rs, node.path, source, node.id) && IsHop(rs, node.id, relation, v)
    ensures IsRoute(rs, node.path + [relation, v], source, v)
    ensures Adjacent(rs, node.id, v)
  {
    var p := node.path + [relation, v];
    assert p[..|p| - 2] == node.path;
  }

  /** The first time the target is seen, the route built is already a shortest one. */
  lemma FirstSightIsOptimal(rs: seq<Relationship>, source: string, target: string,
                            dist: map<string, nat>, queue: seq<Node>)
    requires Searching(rs, source, target, dist, queue)
    ensures |queue| == 0 ==> forall q :: !IsWalk(rs, q, source, target)
    ensures |queue| > 0 ==> forall q :: IsWalk(rs, q, source, target) ==> Hops(queue[0].path) + 1 <= |q| - 1
  {
    forall q | IsWalk(rs, q, source, target)
      ensures |queue| > 0 && Hops(queue[0].path) + 1 <= |q| - 1
    {
      if |queue| == 0 || |q| - 1 <= Hops(queue[0].path) {
        WalksAreCovered(rs, source, dist, Ids(queue), true, 0, q, target);
        assert false;
      }
    }
  }

  lemma PushKeepsSearching(rs: seq<Relationship>, source: string, target: string,
                           dist: map<string, nat>, queue: seq<Node>, relation: string, v: string)
    requires Searching(rs, source, target, dist, queue)
    requires |queue| > 0 && v !in dist && v != target && IsHop(rs, queue[0].id, relation, v)
    ensures Searching(rs, source, target, dist[v := dist[queue[0].id] + 1],
                      queue + [Node(v, queue[0].path + [relation, v])])
  {
    var node := Node(v, queue[0].path + [relation, v]);
    HopExtendsRoute(rs, source, queue[0], relation, v);
    DiscoverKeepsLayers(rs, source, dist, Ids(queue), true, 0, v);
    assert Ids(queue + [node]) == Ids(queue) + [v];
  }

  lemma PopKeepsSearching(rs: seq<Relationship>, source: string, target: string,
                          dist: map<string, nat>, queue: seq<Node>)
    requires Searching(rs, source, target, dist, queue) && |queue| > 0
    requires forall r :: r in Outgoing(rs, queue[0].id) ==> r.to in dist
    requires forall r :: r in Incoming(rs, queue[0].id) ==> r.from in dist
    ensures Searching(rs, source, target, dist, queue[1..])
  {
    NeighboursFromLists(rs, queue[0].id, dist);
    AdvanceKeepsLayers(rs, source, dist, Ids(queue), true, 0);
    assert Ids(queue[1..]) == Ids(queue)[1..];
  }

  /** Every id a search from source can meet. */
  ghost function Universe(rs: seq<Relationship>, source: string): set<string> {
    {source} + (set r | r in rs :: r.from) + (set r | r in rs :: r.to)
  }

  lemma {:induction false} RouteIsWalk(rs: seq<Relationship>, p: seq<string>, source: string, target: string)
    requires IsRoute(rs, p, source, target)
    ensures exists q :: IsWalk(rs, q, source, target) && |q| - 1 == Hops(p)
  {
    if |p| == 1 {
      assert IsWalk(rs, [source], source, target);
    } else {
      RouteIsWalk(rs, p[..|p| - 2], source, p[|p| - 3]);
      var q :| IsWalk(rs, q, source, p[|p| - 3]) && |q| - 1 == Hops(p[..|p| - 2]);
      assert IsWalk(rs, q + [target], source, target);
    }
  }

  ghost predicate IsShortestRoute(rs: seq<Relationship>, p: seq<string>, source: string, target: string) {
    && IsRoute(rs, p, source, target)
    && (exists q :: IsWalk(rs, q, source, target))
    && (forall q :: IsWalk(rs, q, source, target) ==> Hops(p) <= |q| - 1)
  }

  lemma FirstSightIsShortest(rs: seq<Relationship>, source: string, target: string,
                             dist: map<string, nat>, queue: seq<Node>, relation: string)
    requires Searching(rs, source, target, dist, queue) && |queue| > 0
    requires IsHop(rs, queue[0].id, relation, target)
    ensures IsShortestRoute(rs, queue[0].path + [relation, target], source, target)
  {
    HopExtendsRoute(rs, source, queue[0], relation, target);
    FirstSightIsOptimal(rs, source, target, dist, queue);
    RouteIsWalk(rs, queue[0].path + [relation, target], source, target);
  }

  lemma HeadOfSearch(rs: seq<Relationship>, source: string, target: string, dist: map<string, nat>, queue: seq<Node>)
    requires Searching(rs, source, target, dist, queue) && |queue| > 0
    ensures queue[0].id in dist
  {
  }

  /** Follows one edge out of the node under expansion: what the two loops of
      ShortestPath do with the outgoing and the incoming edges alike. */
  method Visit(ghost rs: seq<Relationship>, ghost source: string, target: string, current: Node,
               relation: string, v: string, visited: set<string>, queue: seq<Node>, ghost dist: map<string, nat>)
    returns (route: Option<seq<string>>, visited': set<string>, queue': seq<Node>, ghost dist': map<string, nat>)
    requires dist.Keys == visited && Searching(rs, source, target, dist, [current] + queue)
    requires IsHop(rs, current.id, relation, v)
    ensures route.Some? ==> IsShortestRoute(rs, route.value, source, target)
    ensures route.None? ==> dist'.Keys == visited' == visited + {v}
    ensures route.None? ==> Searching(rs, source, target, dist', [current] + queue')
    ensures route.None? && v in visited ==> queue' == queue
  {
    hide Searching, IsShortestRoute, IsHop;
    route, visited', queue', dist' := None, visited, queue, dist;
    HeadOfSearch(rs, source, target, dist, [current] + queue);
    if v in visited { return; }
    var newPath := current.path + [relation, v];
    if v == target {
      FirstSightIsShortest(rs, source, target, dist, [current] + queue, relation);
      return Some(newPath), visited, queue, dist;
    }
    PushKeepsSearching(rs, source, target, dist, [current] + queue, relation, v);
    visited', queue' := visited + {v}, queue + [Node(v, newPath)];
    dist' := dist[v := dist[current.id] + 1];
    assert [current] + queue' == [current] + queue + [Node(v, newPath)];
  }

  function Near(r: Relationship, forward: bool): string { if forward then r.from else r.to }
  function Far(r: Relationship, forward: bool): string { if forward then r.to else r.from }
  function Label(r: Relationship, forward: bool): string { if forward then r.typ else "<" + r.typ }

  lemma HopAlong(rs: seq<Relationship>, source: string, r: Relationship, forward: bool)
    requires r in rs
    ensures IsHop(rs, Near(r, forward), Label(r, forward), Far(r, forward))
    ensures Far(r, forward) in Universe(rs, source)
  {
  }

  /** One of the two edge loops of ShortestPath: forward over the outgoing edges of the
      node under expansion, backward over its incoming ones. */
  method FollowEdges(ghost rs: seq<Relationship>, ghost source: string, target: string, current: Node,
                     edges: seq<Relationship>, forward: bool,
                     visited0: set<string>, queue0: seq<Node>, ghost dist0: map<string, nat>)
    returns (route: Option<seq<string>>, visited: set<string>, queue: seq<Node>, ghost dist: map<string, nat>)
    requires dist0.Keys == visited0 <= Universe(rs, source)
    requires Searching(rs, source, target, dist0, [current] + queue0)
    requires forall r :: r in edges ==> r in rs && Near(r, forward) == current.id
    ensures route.Some? ==> IsShortestRoute(rs, route.value, source, target)
    ensures route.None? ==> dist.Keys == visited && visited0 <= visited <= Universe(rs, source)
    ensures route.None? ==> Searching(rs, source, target, dist, [current] + queue)
    ensures route.None? && visited == visited0 ==> queue == queue0
    ensures route.None? ==> forall r :: r in edges ==> Far(r, forward) in visited
  {
    hide Searching, IsShortestRoute, IsHop, Universe, Near, Label, Far;
    route, visited, queue, dist := None, visited0, queue0, dist0;
    for i := 0 to |edges|
      invariant route.None?
      invariant dist.Keys == visited && visited0 <= visited <= Universe(rs, source)
      invariant Searching(rs, source, target, dist, [current] + queue)
      invariant visited == visited0 ==> queue == queue0
      invariant forall j :: 0 <= j < i ==> Far(edges[j], forward) in visited
    {
      var r := edges[i];
      assert r in edges;
      HopAlong(rs, source, r, forward);
      route, visited, queue, dist :=
        Visit(rs, source, target, current, Label(r, forward), Far(r, forward), visited, queue, dist);
      if route.Some? { return; }
    }
  }

  // ---- The hop-bounded subgraph ----

  /** A copy of a relationship, as the queries hand them out. */
  datatype RelView = RelView(id: string, from: string, to: string, typ: string, weight: real) {
    function GetKey(): Key { Key(from, to, typ) }
  }

  /** x is at undirected distance at most k from source. */
  ghost predicate Within(rs: seq<Relationship>, source: string, x: string, k: int) {
    exists q :: IsWalk(rs, q, source, x) && |q| - 1 <= k
  }

  /** The variables of Subgraph. */
  datatype Found = Found(visited: map<string, nat>, queue: seq<string>, entities: seq<Entity>,
                         seenRel: set<string>, rels: seq<RelView>)

  ghost predicate WalksKnown(rs: seq<Relationship>, source: string, visited: map<string, nat>, limit: nat) {
    forall v :: v in visited ==> visited[v] <= limit && Within(rs, source, v, visited[v])
  }

  ghost predicate EntitiesListed(all: map<string, Entity>, visited: map<string, nat>, listed: seq<Entity>) {
    && (forall e :: e in listed ==> e.id in visited && e.id in all && all[e.id] == e)
    && (forall v :: v in visited && v in all ==> all[v] in listed)
    && (forall i, j :: 0 <= i < j < |listed| ==> listed[i] != listed[j])
  }

  ghost predicate Expanded(visited: map<string, nat>, limit: nat, u: string) {
    u in visited && visited[u] < limit
  }

  ghost predicate RelsListed(rs: seq<Relationship>, visited: map<string, nat>, limit: nat,
                             seenRel: set<string>, rels: seq<RelView>)
    reads rs
  {
    && (forall x :: x in rels ==> x.id in seenRel)
    && (forall id :: id in seenRel ==> exists x :: x in rels && x.id == id)
    && (forall i, j :: 0 <= i < j < |rels| ==> rels[i].id != rels[j].id)
    && (forall x :: x in rels ==>
          exists r :: r in rs && r.View() == x && (Expanded(visited, limit, r.from) || Expanded(visited, limit, r.to)))
  }

  /** Every edge at an expanded node that left the queue has been recorded. */
  ghost predicate RelsCovered(rs: seq<Relationship>, visited: map<string, nat>, queue: seq<string>, limit: nat,
                              seenRel: set<string>)
  {
    forall u, r :: Expanded(visited, limit, u) && u !in queue && r in rs && (r.from == u || r.to == u)
                   ==> r.id in seenRel
  }

  lemma WithinGrows(rs: seq<Relationship>, source: string, u: string, v: string, k: nat)
    requires Within(rs, source, u, k) && Adjacent(rs, u, v)
    ensures Within(rs, source, v, k + 1)
  {
    var q :| IsWalk(rs, q, source, u) && |q| - 1 <= k;
    assert IsWalk(rs, q + [v], source, v);
  }

  /** Subgraph's addRel: records an edge unless its id was seen before. */
  method AddRel(ghost rs: seq<Relationship>, r: Relationship, ghost visited: map<string, nat>, ghost limit: nat,
                seenRel: set<string>, rels: seq<RelView>)
    returns (seenRel': set<string>, rels': seq<RelView>)
    requires RelsListed(rs, visited, limit, seenRel, rels)
    requires r in rs && (Expanded(visited, limit, r.from) || Expanded(visited, limit, r.to))
    ensures RelsListed(rs, visited, limit, seenRel', rels')
    ensures seenRel' == seenRel + {r.id}
  {
    seenRel', rels' := seenRel, rels;
    if r.id !in seenRel {
      seenRel', rels' := seenRel + {r.id}, rels + [r.View()];
      assert rels'[|rels|] == r.View();
      assert forall x :: x in rels' <==> x in rels || x == r.View();
      forall id | id in seenRel' ensures exists x :: x in rels' && x.id == id {
        if id in seenRel {
          var x :| x in rels && x.id == id;
          assert x in rels';
        }
      }
    }
  }

  lemma VisitKeepsWalks(rs: seq<Relationship>, source: string, visited: map<string, nat>, limit: nat, u: string, v: string)
    requires WalksKnown(rs, source, visited, limit) && Expanded(visited, limit, u) && Adjacent(rs, u, v)
    ensures WalksKnown(rs, source, visited[v := visited[u] + 1], limit)
  {
    WithinGrows(rs, source, u, v, visited[u]);
  }

  lemma VisitKeepsRels(rs: seq<Relationship>, visited: map<string, nat>, limit: nat, seenRel: set<string>,
                       rels: seq<RelView>, v: string, depth: nat)
    requires RelsListed(rs, visited, limit, seenRel, rels) && v !in visited
    ensures RelsListed(rs, visited[v := depth], limit, seenRel, rels)
  {
    var visited' := visited[v := depth];
    forall x | x in rels
      ensures exists r :: r in rs && r.View() == x && (Expanded(visited', limit, r.from) || Expanded(visited', limit, r.to))
    {
      var r :| r in rs && r.View() == x && (Expanded(visited, limit, r.from) || Expanded(visited, limit, r.to));
    }
  }

  lemma VisitKeepsCover(rs: seq<Relationship>, visited: map<string, nat>, queue: seq<string>, limit: nat,
                        seenRel: set<string>, v: string, depth: nat)
    requires RelsCovered(rs, visited, queue, limit, seenRel) && v !in visited
    ensures RelsCovered(rs, visited[v := depth], queue + [v], limit, seenRel)
  {
    forall u, r | Expanded(visited[v := depth], limit, u) && u !in queue + [v] && r in rs && (r.from == u || r.to == u)
      ensures r.id in seenRel
    {
      assert (queue + [v])[|queue|] == v;
      assert u != v && Expanded(visited, limit, u);
    }
  }

  lemma CoverGrows(rs: seq<Relationship>, visited: map<string, nat>, queue: seq<string>, limit: nat,
                   seenRel: set<string>, seenRel': set<string>)
    requires RelsCovered(rs, visited, queue, limit, seenRel) && seenRel <= seenRel'
    ensures RelsCovered(rs, visited, queue, limit, seenRel')
  {
  }

  lemma HeadIsVisited(rs: seq<Relationship>, source: string, visited: map<string, nat>, queue: seq<string>, limit: nat)
    requires Layered(rs, source, visited, queue, false, limit) && |queue| > 0
    ensures queue[0] in visited
  {
  }

  lemma PopKeepsCover(rs: seq<Relationship>, visited: map<string, nat>, queue: seq<string>, limit: nat, seenRel: set<string>)
    requires RelsCovered(rs, visited, queue, limit, seenRel) && |queue| > 0
    requires Expanded(visited, limit, queue[0]) ==>
               (forall r :: r in Outgoing(rs, queue[0]) ==> r.id in seenRel) &&
               (forall r :: r in Incoming(rs, queue[0]) ==> r.id in seenRel)
    ensures RelsCovered(rs, visited, queue[1..], limit, seenRel)
  {
    OutgoingMembers(rs, queue[0]);
    IncomingMembers(rs, queue[0]);
    assert queue == [queue[0]] + queue[1..];
  }

  /** The state of Subgraph between two edges. */
  ghost predicate Collecting(rs: seq<Relationship>, source: string, all: map<string, Entity>, limit: nat,
                             f: Found, queue: seq<string>)
    reads rs
  {
    && Layered(rs, source, f.visited, queue, false, limit)
    && WalksKnown(rs, source, f.visited, limit)
    && EntitiesListed(all, f.visited, f.entities)
    && RelsListed(rs, f.visited, limit, f.seenRel, f.rels)
    && RelsCovered(rs, f.visited, queue, limit, f.seenRel)
  }

  lemma VisitKeepsEntities(all: map<string, Entity>, visited: map<string, nat>, listed: seq<Entity>, v: string, depth: nat)
    requires EntitiesListed(all, visited, listed) && v !in visited
    requires forall k :: k in all ==> all[k].id == k
    ensures EntitiesListed(all, visited[v := depth], if v in all then listed + [all[v]] else listed)
  {
    if v in all {
      assert all[v] !in listed;
      assert (listed + [all[v]])[|listed|] == all[v];
    }
  }

  lemma VisitKeepsCollecting(rs: seq<Relationship>, source: string, all: map<string, Entity>, limit: nat,
                             f: Found, queue: seq<string>, v: string)
    requires Collecting(rs, source, all, limit, f, queue)
    requires |queue| > 0 && Expanded(f.visited, limit, queue[0]) && Adjacent(rs, queue[0], v) && v !in f.visited
    requires forall k :: k in all ==> all[k].id == k
    ensures Collecting(rs, source, all, limit,
                       f.(visited := f.visited[v := f.visited[queue[0]] + 1],
                          entities := if v in all then f.entities + [all[v]] else f.entities),
                       queue + [v])
  {
    hide Layered, WalksKnown, EntitiesListed, RelsListed, RelsCovered;
    var depth := f.visited[queue[0]] + 1;
    DiscoverKeepsLayers(rs, source, f.visited, queue, false, limit, v);
    VisitKeepsWalks(rs, source, f.visited, limit, queue[0], v);
    VisitKeepsEntities(all, f.visited, f.entities, v, depth);
    VisitKeepsRels(rs, f.visited, limit, f.seenRel, f.rels, v, depth);
    VisitKeepsCover(rs, f.visited, queue, limit, f.seenRel, v, depth);
  }

  lemma PopKeepsCollecting(rs: seq<Relationship>, source: string, all: map<string, Entity>, limit: nat,
                           f: Found, queue: seq<string>)
    requires Collecting(rs, source, all, limit, f, queue) && |queue| > 0
    requires Expanded(f.visited, limit, queue[0]) ==>
               (forall r :: r in Outgoing(rs, queue[0]) ==> r.to in f.visited && r.id in f.seenRel) &&
               (forall r :: r in Incoming(rs, queue[0]) ==> r.from in f.visited && r.id in f.seenRel)
    ensures Collecting(rs, source, all, limit, f, queue[1..])
  {
    hide Layered, WalksKnown, EntitiesListed, RelsListed, RelsCovered;
    HeadIsVisited(rs, source, f.visited, queue, limit);
    if Expanded(f.visited, limit, queue[0]) { NeighboursFromLists(rs, queue[0], f.visited); }
    AdvanceKeepsLayers(rs, source, f.visited, queue, false, limit);
    PopKeepsCover(rs, f.visited, queue, limit, f.seenRel);
  }

  lemma HeadOfCollecting(rs: seq<Relationship>, source: string, all: map<string, Entity>, limit: nat,
                         f: Found, queue: seq<string>)
    requires Collecting(rs, source, all, limit, f, queue) && |queue| > 0
    ensures queue[0] in f.visited
  {
  }

  /** Collecting takes the queue as an argument and ignores the field. */
  lemma SameFound(rs: seq<Relationship>, source: string, all: map<string, Entity>, limit: nat,
                  f: Found, f': Found, queue: seq<string>)
    requires Collecting(rs, source, all, limit, f, queue) && f' == f.(queue := f'.queue)
    ensures Collecting(rs, source, all, limit, f', queue)
  {
    hide Layered, WalksKnown, EntitiesListed, RelsListed, RelsCovered;
  }

  /** What one edge at the node under expansion does to Subgraph's variables. */
  method TakeEdge(ghost rs: seq<Relationship>, ghost source: string, all: map<string, Entity>, ghost limit: nat,
                  current: string, depth: nat, r: Relationship, forward: bool, f: Found)
    returns (f': Found)
    requires Collecting(rs, source, all, limit, f, [current] + f.queue)
    requires forall k :: k in all ==> all[k].id == k
    requires r in rs && Near(r, forward) == current && Expanded(f.visited, limit, current) && f.visited[current] == depth
    ensures Collecting(rs, source, all, limit, f', [current] + f'.queue)
    ensures f'.seenRel == f.seenRel + {r.id}
    ensures f'.visited == if Far(r, forward) in f.visited then f.visited else f.visited[Far(r, forward) := depth + 1]
    ensures Far(r, forward) in f.visited ==> f'.queue == f.queue
  {
    hide Layered, WalksKnown, EntitiesListed, RelsListed, RelsCovered;
    ghost var active := [current] + f.queue;
    var seenRel, rels := AddRel(rs, r, f.visited, limit, f.seenRel, f.rels);
    CoverGrows(rs, f.visited, active, limit, f.seenRel, seenRel);
    f' := f.(seenRel := seenRel, rels := rels);
    var v := Far(r, forward);
    if v !in f.visited {
      HopAlong(rs, source, r, forward);
      VisitKeepsCollecting(rs, source, all, limit, f', active, v);
      f' := f'.(visited := f'.visited[v := depth + 1], queue := f'.queue + [v],
                entities := if v in all then f'.entities + [all[v]] else f'.entities);
      assert [current] + f'.queue == active + [v];
    }
  }

  /** One of the two edge loops of Subgraph. */
  method TakeEdges(ghost rs: seq<Relationship>, ghost source: string, all: map<string, Entity>, ghost limit: nat,
                   current: string, depth: nat, edges: seq<Relationship>, forward: bool, f0: Found)
    returns (f: Found)
    requires Collecting(rs, source, all, limit, f0, [current] + f0.queue)
    requires forall k :: k in all ==> all[k].id == k
    requires forall r :: r in edges ==> r in rs && Near(r, forward) == current
    requires Expanded(f0.visited, limit, current) && f0.visited[current] == depth
    requires f0.visited.Keys <= Universe(rs, source)
    ensures Collecting(rs, source, all, limit, f, [current] + f.queue)
    ensures f0.seenRel <= f.seenRel && Extends(rs, source, f0, f) && current in f.visited && f.visited[current] == depth
    ensures forall r :: r in edges ==> Far(r, forward) in f.visited && r.id in f.seenRel
  {
    hide Collecting, Extends, Universe, Near, Far;
    f := f0;
    ExtendsItself(rs, source, f0);
    for i := 0 to |edges|
      invariant Collecting(rs, source, all, limit, f, [current] + f.queue)
      invariant f0.seenRel <= f.seenRel && Extends(rs, source, f0, f)
      invariant current in f.visited && f.visited[current] == depth
      invariant forall j :: 0 <= j < i ==> Far(edges[j], forward) in f.visited && edges[j].id in f.seenRel
    {
      assert edges[i] in edges;
      ghost var before := f;
      f := TakeEdge(rs, source, all, limit, current, depth, edges[i], forward, f);
      HopAlong(rs, source, edges[i], forward);
      TakenExtends(rs, source, f0, before, f, Far(edges[i], forward), depth + 1);
    }
  }

  lemma ExtendsItself(rs: seq<Relationship>, source: string, f: Found)
    requires f.visited.Keys <= Universe(rs, source)
    ensures Extends(rs, source, f, f)
  {
  }

  /** Taking one edge discovers its far end, if that is new, and forgets nothing. */
  lemma TakenExtends(rs: seq<Relationship>, source: string, f0: Found, f: Found, f': Found, v: string, depth: nat)
    requires Extends(rs, source, f0, f) && v in Universe(rs, source)
    requires f'.visited == if v in f.visited then f.visited else f.visited[v := depth]
    requires v in f.visited ==> f'.queue == f.queue
    ensures Extends(rs, source, f0, f') && v in f'.visited
    ensures forall x :: x in f.visited ==> x in f'.visited && f'.visited[x] == f.visited[x]
  {
    hide Universe;
  }

  /** f discovered no fewer nodes than f0, and queued nothing without discovering it. */
  ghost predicate Extends(rs: seq<Relationship>, source: string, f0: Found, f: Found) {
    && f0.visited.Keys <= f.visited.Keys <= Universe(rs, source)
    && (f.visited.Keys == f0.visited.Keys ==> f.queue == f0.queue)
  }

  function Clip(hops: int): nat { if hops < 0 then 0 else hops }

  ghost predicate Touches(rs: seq<Relationship>, source: string, hops: int, r: Relationship) {
    Within(rs, source, r.from, hops - 1) || Within(rs, source, r.to, hops - 1)
  }

  /** Once the queue is empty, recorded depth is true distance. */
  lemma DepthIsDistance(rs: seq<Relationship>, source: string, visited: map<string, nat>, limit: nat, k: int, x: string)
    requires Layered(rs, source, visited, [], false, limit) && WalksKnown(rs, source, visited, limit)
    requires k <= limit
    ensures Within(rs, source, x, k) <==> x in visited && visited[x] <= k
  {
    if Within(rs, source, x, k) {
      var q :| IsWalk(rs, q, source, x) && |q| - 1 <= k;
      WalksAreCovered(rs, source, visited, [], false, limit, q, x);
    }
    if x in visited && visited[x] <= k {
      var q :| IsWalk(rs, q, source, x) && |q| - 1 <= visited[x];
    }
  }

  /** The stored entities at distance at most n, and nothing else, each once. */
  ghost predicate ListsBall(rs: seq<Relationship>, all: map<string, Entity>, source: string, hops: int, listed: seq<Entity>) {
    && (forall e :: e in listed <==> e.id in all && all[e.id] == e && Within(rs, source, e.id, Clip(hops)))
    && (forall i, j :: 0 <= i < j < |listed| ==> listed[i] != listed[j])
  }

  /** The edges with an endpoint at distance less than n, and nothing else, each id once. */
  ghost predicate ListsEdges(rs: seq<Relationship>, source: string, hops: int, rels: seq<RelView>)
    reads rs
  {
    && (forall x :: x in rels ==> Shown(rs, source, hops, x))
    && (forall r :: r in rs && Touches(rs, source, hops, r) ==> exists x :: x in rels && x.id == r.id)
    && (forall i, j :: 0 <= i < j < |rels| ==> rels[i].id != rels[j].id)
  }

  ghost predicate Shown(rs: seq<Relationship>, source: string, hops: int, x: RelView)
    reads rs
  {
    exists r :: r in rs && r.View() == x && Touches(rs, source, hops, r)
  }

  lemma CollectedIsExact(rs: seq<Relationship>, source: string, all: map<string, Entity>, hops: int, f: Found)
    requires Collecting(rs, source, all, Clip(hops), f, [])
    ensures ListsBall(rs, all, source, hops, f.entities)
    ensures ListsEdges(rs, source, hops, f.rels)
  {
    hide Layered, WalksKnown, Within;
    var limit := Clip(hops);
    forall x ensures Within(rs, source, x, limit) <==> x in f.visited && f.visited[x] <= limit {
      DepthIsDistance(rs, source, f.visited, limit, limit, x);
    }
    DepthsAreBounded(rs, source, f.visited, limit);
    forall x ensures Within(rs, source, x, hops - 1) <==> Expanded(f.visited, limit, x) {
      if hops >= 0 {
        DepthIsDistance(rs, source, f.visited, limit, hops - 1, x);
      } else {
        NoNegativeDistance(rs, source, x, hops - 1);
      }
    }
    forall x | x in f.rels ensures Shown(rs, source, hops, x) {
      var r :| r in rs && r.View() == x && (Expanded(f.visited, limit, r.from) || Expanded(f.visited, limit, r.to));
    }
    forall r | r in rs && Touches(rs, source, hops, r) ensures exists x :: x in f.rels && x.id == r.id {
      var u := if Within(rs, source, r.from, hops - 1) then r.from else r.to;
      assert Expanded(f.visited, limit, u);
      RecordedAt(rs, f.visited, limit, f.seenRel, u, r);
    }
  }

  lemma StartCollecting(rs: seq<Relationship>, source: string, all: map<string, Entity>, limit: nat, f: Found)
    requires f == Found(map[source := 0], [source], if source in all then [all[source]] else [], {}, [])
    requires forall k :: k in all ==> all[k].id == k
    ensures Collecting(rs, source, all, limit, f, f.queue)
  {
    assert IsWalk(rs, [source], source, source);
    assert f.queue[0] == source;
  }

  lemma RecordedAt(rs: seq<Relationship>, visited: map<string, nat>, limit: nat, seenRel: set<string>,
                   u: string, r: Relationship)
    requires RelsCovered(rs, visited, [], limit, seenRel) && Expanded(visited, limit, u)
    requires r in rs && (r.from == u || r.to == u)
    ensures r.id in seenRel
  {
    assert u !in [];
  }

  lemma NoNegativeDistance(rs: seq<Relationship>, source: string, x: string, k: int)
    requires k < 0
    ensures !Within(rs, source, x, k)
  {
  }

  lemma DepthsAreBounded(rs: seq<Relationship>, source: string, visited: map<string, nat>, limit: nat)
    requires WalksKnown(rs, source, visited, limit)
    ensures forall v :: v in visited ==> visited[v] <= limit
  {
  }

  // ---- Weights ----

  function Max(a: real, b: real): real { if b > a then b else a }

  /** The largest weight offered for a key so far. */
  ghost function MaxOffered(offers: seq<Offer>, key: Key): Option<real> {
    if offers == [] then None
    else
      var before, last := MaxOffered(offers[..|offers| - 1], key), offers[|offers| - 1];
      if last.key != key then before
      else if before.None? then Some(last.weight)
      else Some(Max(before.value, last.weight))
  }

  /** It is a weight that was offered, and none offered for the key is larger. */
  lemma {:induction false} MaxOfferedIsMaximum(offers: seq<Offer>, key: Key)
    ensures MaxOffered(offers, key).None? <==> forall o :: o in offers ==> o.key != key
    ensures MaxOffered(offers, key).Some? ==> Offer(key, MaxOffered(offers, key).value) in offers
    ensures MaxOffered(offers, key).Some? ==>
              forall o :: o in offers && o.key == key ==> o.weight <= MaxOffered(offers, key).value
  {
    if offers != [] {
      var front := offers[..|offers| - 1];
      MaxOfferedIsMaximum(front, key);
      assert offers == front + [offers[|offers| - 1]];
    }
  }

  /** The position of the first edge with a key, or the length of the list. */
  ghost function FirstWith(views: seq<RelView>, key: Key): (i: nat)
    ensures i <= |views| && (i < |views| ==> views[i].GetKey() == key)
    ensures forall j :: 0 <= j < i ==> views[j].GetKey() != key
  {
    if views == [] || views[0].GetKey() == key then 0 else 1 + FirstWith(views[1..], key)
  }

  /** The edge list after an offer: a known key has its weight raised to the offer when
      that is larger, a new key is appended. */
  ghost function Offered(views: seq<RelView>, o: Offer, freshID: string): seq<RelView> {
    var i := FirstWith(views, o.key);
    if i < |views| then Raised(views, i, o.weight)
    else views + [RelView(freshID, o.key.from, o.key.to, o.key.typ, o.weight)]
  }

  lemma OfferedForms(views: seq<RelView>, o: Offer, freshID: string)
    ensures FirstWith(views, o.key) < |views| ==>
              Offered(views, o, freshID) == Raised(views, FirstWith(views, o.key), o.weight)
    ensures FirstWith(views, o.key) == |views| ==>
              Offered(views, o, freshID) == views + [RelView(freshID, o.key.from, o.key.to, o.key.typ, o.weight)]
  {
  }

  function Raised(views: seq<RelView>, i: nat, weight: real): seq<RelView>
    requires i < |views|
  {
    views[i := views[i].(weight := Max(views[i].weight, weight))]
  }

  ghost predicate Distinct(rs: seq<Relationship>) {
    forall i, j :: 0 <= i < j < |rs| ==> rs[i] != rs[j]
  }

  twostate lemma ViewsUnchanged(rs: seq<Relationship>)
    requires unchanged(rs)
    ensures Views(rs) == old(Views(rs))
  {
  }

  lemma ViewsOfAppend(rs: seq<Relationship>, rel: Relationship)
    ensures Views(rs + [rel]) == Views(rs) + [rel.View()]
  {
  }

  lemma AppendKeepsDistinct(rs: seq<Relationship>, rel: Relationship)
    requires Distinct(rs) && rel !in rs
    ensures Distinct(rs + [rel])
  {
  }

  /** Keys are unique, ends exist, and each weight is the largest offered for its key;
      every offered key is there. */
  ghost predicate Grown(entities: map<string, Entity>, views: seq<RelView>, offers: seq<Offer>) {
    && (forall i :: 0 <= i < |views| ==> views[i].from in entities && views[i].to in entities)
    && (forall i, j :: 0 <= i < j < |views| ==> views[i].GetKey() != views[j].GetKey())
    && (forall i :: 0 <= i < |views| ==> MaxOffered(offers, views[i].GetKey()) == Some(views[i].weight))
    && (forall key :: MaxOffered(offers, key).Some? ==> FirstWith(views, key) < |views|)
  }

  lemma GrownAmongMore(entities: map<string, Entity>, id: string, e: Entity, views: seq<RelView>, offers: seq<Offer>)
    ensures Grown(entities, views, offers) ==> Grown(entities[id := e], views, offers)
  {
  }

  lemma OfferedShape(views: seq<RelView>, o: Offer, freshID: string)
    ensures var at, after := FirstWith(views, o.key), Offered(views, o, freshID);
            && at < |after| && |after| == |views| + (if at < |views| then 0 else 1)
            && (forall i :: 0 <= i < |views| && i != at ==> after[i] == views[i])
            && after[at].GetKey() == o.key && after[at].id == (if at < |views| then views[at].id else freshID)
            && after[at].weight == if at < |views| then Max(views[at].weight, o.weight) else o.weight
  {
    OfferedForms(views, o, freshID);
    hide Offered;
  }

  lemma OneMoreOffered(offers: seq<Offer>, o: Offer, key: Key)
    ensures MaxOffered(offers + [o], key) ==
              if key != o.key then MaxOffered(offers, key)
              else if MaxOffered(offers, key).None? then Some(o.weight)
              else Some(Max(MaxOffered(offers, key).value, o.weight))
  {
    assert (offers + [o])[..|offers|] == offers;
  }

  lemma FoundFirst(views: seq<RelView>, i: nat)
    requires i < |views|
    ensures FirstWith(views, views[i].GetKey()) < |views|
  {
  }

  lemma FoundAgain(views: seq<RelView>, after: seq<RelView>, at: nat, o: Offer, key: Key)
    requires at < |after| && |views| <= |after| && after[at].GetKey() == o.key
    requires forall i :: 0 <= i < |views| && i != at ==> after[i] == views[i]
    requires at < |views| ==> views[at].GetKey() == o.key
    requires key == o.key || FirstWith(views, key) < |views|
    ensures FirstWith(after, key) < |after|
  {
    var i := FirstWith(views, key);
    hide FirstWith;
    if key == o.key { FoundFirst(after, at); } else { FoundFirst(after, i); }
  }

  lemma OfferKeepsGrown(entities: map<string, Entity>, views: seq<RelView>, offers: seq<Offer>, o: Offer, freshID: string)
    requires Grown(entities, views, offers) && o.key.from in entities && o.key.to in entities
    ensures Grown(entities, Offered(views, o, freshID), offers + [o])
  {
    var after := Offered(views, o, freshID);
    var at := FirstWith(views, o.key);
    OfferedShape(views, o, freshID);
    hide Offered, FirstWith, MaxOffered, Max;
    forall key { OneMoreOffered(offers, o, key); }
    if at == |views| {
      assert forall i :: 0 <= i < |views| ==> views[i].GetKey() != o.key;
      assert MaxOffered(offers, o.key).None?;
    }
    forall key | MaxOffered(offers + [o], key).Some? ensures FirstWith(after, key) < |after| {
      FoundAgain(views, after, at, o, key);
    }
  }

  ghost predicate DistinctIds(views: seq<RelView>) {
    forall i, j :: 0 <= i < j < |views| ==> views[i].id != views[j].id
  }

  lemma OfferKeepsIds(rs: seq<Relationship>, o: Offer, freshID: string)
    requires DistinctIds(Views(rs)) && (forall r :: r in rs ==> r.id != freshID)
    ensures DistinctIds(Offered(Views(rs), o, freshID))
  {
    forall i | 0 <= i < |rs| ensures Views(rs)[i].id != freshID {
      assert rs[i] in rs;
    }
  }

  /** Where ids are distinct, an edge list with each id once lists the edges themselves. */
  lemma EdgesById(rs: seq<Relationship>, source: string, hops: int, rels: seq<RelView>)
    requires ListsEdges(rs, source, hops, rels) && DistinctIds(Views(rs))
    ensures forall x :: x in rels <==> Shown(rs, source, hops, x)
  {
    hide Touches;
    forall x | Shown(rs, source, hops, x) ensures x in rels {
      var r :| r in rs && r.View() == x && Touches(rs, source, hops, r);
      var y :| y in rels && y.id == r.id;
      var r' :| r' in rs && r'.View() == y && Touches(rs, source, hops, r');
      var i :| 0 <= i < |rs| && rs[i] == r;
      var j :| 0 <= j < |rs| && rs[j] == r';
      assert Views(rs)[i].id == Views(rs)[j].id;
    }
  }

  // ---- Loading ----

  function LoadEntities(entities: map<string, Entity>, events: seq<Event>): map<string, Entity> {
    if events == [] then entities
    else
      var before, last := LoadEntities(entities, events[..|events| - 1]), events[|events| - 1];
      if last.EntityEvent? then before[last.entity.id := last.entity] else before
  }

  function LoadRels(events: seq<Event>): seq<RelView> {
    if events == [] then []
    else
      var before, last := LoadRels(events[..|events| - 1]), events[|events| - 1];
      if last.RelEvent? then before + [RelView(last.id, last.key.from, last.key.to, last.key.typ, last.weight)] else before
  }

  /** The last event with an entity's id decides what is loaded for it; edges are loaded one by
      one, in order, whether their ends are known or not. */
  lemma {:induction false} LoadsInOrder(entities: map<string, Entity>, a: seq<Event>, b: seq<Event>)
    ensures LoadEntities(entities, a + b) == LoadEntities(LoadEntities(entities, a), b)
    ensures LoadRels(a + b) == LoadRels(a) + LoadRels(b)
  {
    if b == [] {
      assert a + b == a;
    } else {
      var front, last := b[..|b| - 1], b[|b| - 1];
      LoadsInOrder(entities, a, front);
      assert (a + b)[..|a + b| - 1] == a + front;
    }
  }

  lemma LoadsOne(entities: map<string, Entity>, e: Event)
    ensures e.EntityEvent? ==> LoadEntities(entities, [e]) == entities[e.entity.id := e.entity] && LoadRels([e]) == []
    ensures e.RelEvent? ==> LoadEntities(entities, [e]) == entities
                            && LoadRels([e]) == [RelView(e.id, e.key.from, e.key.to, e.key.typ, e.weight)]
  {
    assert [e][..0] == [];
  }

  /** encoding/json on the lines of a graph file; decode gives nothing for a line that is no
      event. */
  datatype LineCodec = LineCodec(encode: Event -> string, decode: string -> Option<Event>)

  /** The line of an event reads back to it, and is a line of its own. */
  ghost predicate ReadsBack(c: LineCodec, e: Event) {
    c.decode(c.encode(e)) == Some(e) && c.encode(e) != "" && Trimmed(c.encode(e)) && OneLineText(c.encode(e))
  }

  /** All that is asked of the codec for one file: no codec reads back every weight there is. */
  ghost predicate ReadsAll(c: LineCodec, events: seq<Event>) {
    forall e :: e in events ==> ReadsBack(c, e)
  }

  /** For the events of any one file there is such a codec. */
  lemma SomeCodecReads(events: seq<Event>) returns (c: LineCodec)
    ensures ReadsAll(c, events)
  {
    c := LineCodec(e => Tally(IndexIn(events, e)), s => if 0 < |s| <= |events| then Some(events[|s| - 1]) else None);
    forall e | e in events ensures ReadsBack(c, e) {
      assert c.encode(e) == Tally(IndexIn(events, e));
    }
  }

  function IndexIn(events: seq<Event>, e: Event): (i: nat)
    ensures i <= |events| && (e in events ==> i < |events| && events[i] == e)
  {
    if events == [] || events[0] == e then 0 else 1 + IndexIn(events[1..], e)
  }

  function Tally(n: nat): (s: string)
    ensures |s| == n + 1 && Trimmed(s) && OneLineText(s)
  {
    seq(n + 1, _ => 'x')
  }

  /** The events read before the scanner gave up, and whether it did not. */
  datatype Decoded = Decoded(events: seq<Event>, ok: bool)

  function DecodeLines(c: LineCodec, lines: seq<string>): Decoded
    decreases |lines|
  {
    if lines == [] then Decoded([], true)
    else if !Fits(lines[0]) then Decoded([], false)
    else
      var line, rest := TrimSpace(lines[0]), DecodeLines(c, lines[1..]);
      var e := if line == "" then None else c.decode(line);
      if e.Some? then Decoded([e.value] + rest.events, rest.ok) else rest
  }

  /** Too short to stop the scanner, and blank or no event. */
  predicate IsNoise(c: LineCodec, line: string) {
    ByteLen(line) < 65536 && (TrimSpace(line) == "" || c.decode(TrimSpace(line)).None?)
  }

  /** A blank line or one that does not decode is skipped, wherever it stands. */
  lemma {:induction false} NoiseIsSkipped(c: LineCodec, before: seq<string>, line: string, rest: seq<string>)
    requires IsNoise(c, line)
    ensures DecodeLines(c, before + [line] + rest) == DecodeLines(c, before + rest)
  {
    hide ByteLen, TrimSpace;
    if before == [] {
      assert before + [line] + rest == [line] + rest && before + rest == rest;
      assert ([line] + rest)[1..] == rest;
    } else {
      var longer, shorter := before + [line] + rest, before + rest;
      assert longer[1..] == before[1..] + [line] + rest && shorter[1..] == before[1..] + rest;
      assert longer[0] == before[0] == shorter[0];
      NoiseIsSkipped(c, before[1..], line, rest);
    }
  }

  /** What is read before the first overlong line does not depend on what follows it, and
      there is an error. */
  lemma {:induction false} OverlongLineStops(c: LineCodec, before: seq<string>, line: string, rest: seq<string>)
    requires (forall i :: 0 <= i < |before| ==> ByteLen(before[i]) < 65536) && ByteLen(line) >= 65536
    ensures DecodeLines(c, before + [line] + rest) == Decoded(DecodeLines(c, before).events, false)
  {
    hide ByteLen, TrimSpace;
    var longer := before + [line] + rest;
    if before == [] {
      assert longer[0] == line;
    } else {
      assert longer[1..] == before[1..] + [line] + rest && longer[0] == before[0];
      OverlongLineStops(c, before[1..], line, rest);
    }
  }

  function DecodeFile(c: LineCodec, data: string): Decoded {
    DecodeLines(c, Split(data, '\n'))
  }

  function Encoded(c: LineCodec, events: seq<Event>): seq<string> {
    if events == [] then [] else [c.encode(events[0])] + Encoded(c, events[1..])
  }

  /** How many events stand before the first one whose line is too long. */
  function LeadingFits(c: LineCodec, events: seq<Event>): (n: nat)
    ensures n <= |events|
    ensures n == |events| <==> forall i :: 0 <= i < |events| ==> Fits(c.encode(events[i]))
  {
    if events == [] || !Fits(c.encode(events[0])) then 0
    else
      assert forall i :: 1 <= i < |events| ==> events[i] == events[1..][i - 1];
      1 + LeadingFits(c, events[1..])
  }

  /** Of a written file the events before the first overlong line are read, and there is an
      error if there is such a line: all come back exactly when all lines fit the scanner. */
  lemma FileRoundTripIff(c: LineCodec, events: seq<Event>)
    requires ReadsAll(c, events)
    ensures var n := LeadingFits(c, events);
            DecodeFile(c, Unlines(Encoded(c, events))) == Decoded(events[..n], n == |events|)
    ensures DecodeFile(c, Unlines(Encoded(c, events))) == Decoded(events, true) <==>
              forall e :: e in events ==> Fits(c.encode(e))
  {
    EncodedAreOneLine(c, events);
    SplitUnlines(Encoded(c, events));
    EncodedDecode(c, events);
    assert events[..|events|] == events;
  }

  lemma {:induction false} EncodedAreOneLine(c: LineCodec, events: seq<Event>)
    requires ReadsAll(c, events)
    ensures forall i :: 0 <= i < |Encoded(c, events)| ==> OneLineText(Encoded(c, events)[i])
  {
    if events != [] {
      assert events[0] in events;
      EncodedAreOneLine(c, events[1..]);
    }
  }

  lemma {:induction false} EncodedDecode(c: LineCodec, events: seq<Event>)
    requires ReadsAll(c, events)
    ensures var n := LeadingFits(c, events);
            DecodeLines(c, Encoded(c, events) + [""]) == Decoded(events[..n], n == |events|)
  {
    var lines := Encoded(c, events) + [""];
    if events == [] {
      assert TrimSpace("") == "" && lines[1..] == [];
    } else {
      var n := LeadingFits(c, events[1..]);
      EncodedDecode(c, events[1..]);
      assert lines[0] == c.encode(events[0]) && lines[1..] == Encoded(c, events[1..]) + [""];
      assert events[0] in events;
      EncodedIsTrimmed(c, events[0]);
      hide Fits, TrimSpace, ReadsBack;
      if Fits(lines[0]) { assert [events[0]] + events[1..][..n] == events[..n + 1]; }
    }
  }

  lemma EncodedIsTrimmed(c: LineCodec, e: Event)
    requires ReadsBack(c, e)
    ensures TrimSpace(c.encode(e)) == c.encode(e) != "" && c.decode(c.encode(e)) == Some(e)
  {
    TrimmedStays(c.encode(e));
  }

  lemma TrimmedStays(s: string)
    requires Trimmed(s)
    ensures TrimSpace(s) == s
  {
  }

  ghost function Views(rs: seq<Relationship>): (views: seq<RelView>)
    reads rs
    ensures |views| == |rs|
  {
    seq(|rs|, i requires 0 <= i < |rs| reads rs => rs[i].View())
  }

  function EventOf(v: RelView): Event {
    RelEvent(v.id, v.GetKey(), v.weight)
  }

  function Behind(done: seq<Event>, rest: Decoded): Decoded {
    Decoded(done + rest.events, rest.ok)
  }

  lemma BehindOneMore(done: seq<Event>, e: Event, rest: Decoded)
    ensures Behind(done, Decoded([e] + rest.events, rest.ok)) == Behind(done + [e], rest)
  {
    assert done + ([e] + rest.events) == (done + [e]) + rest.events;
  }

  lemma NothingLoaded(entities: map<string, Entity>, rs: seq<Relationship>)
    ensures LoadEntities(entities, []) == entities && LoadRels([]) == [] && Views(rs[|rs|..]) == []
  {
  }

  lemma NothingWritten(c: LineCodec)
    ensures Unlines(Encoded(c, [])) == "" && LoadRels([]) == []
    ensures LoadEntities(map[], []) == map[]
  {
  }

  lemma OneMoreEntity(events: seq<Event>, e: Entity)
    ensures LoadEntities(map[], events + [EntityEvent(e)]) == LoadEntities(map[], events)[e.id := e]
    ensures LoadRels(events + [EntityEvent(e)]) == LoadRels(events)
  {
    assert (events + [EntityEvent(e)])[..|events|] == events;
  }

  lemma {:induction false} OneMoreLine(c: LineCodec, events: seq<Event>, e: Event)
    ensures Unlines(Encoded(c, events + [e])) == Unlines(Encoded(c, events)) + (c.encode(e) + "\n")
  {
    if events == [] {
      OneLine(c.encode(e));
      assert [e][1..] == [];
      assert Encoded(c, [e]) == [c.encode(e)];
    } else {
      assert (events + [e])[1..] == events[1..] + [e];
      OneMoreLine(c, events[1..], e);
    }
  }

  class GraphStore {
    const fold: string -> string  // two names match when their folds are equal
    var entities: map<string, Entity>
    var relationships: seq<Relationship>
    var adjOut: map<string, seq<Relationship>>
    var adjIn: map<string, seq<Relationship>>
    ghost var offers: seq<Offer>

    /** Both adjacency maps list, in order, the edge objects of the edge list. */
    ghost predicate Valid()
      reads this
    {
      && ListsOut(relationships, adjOut) && ListsIn(relationships, adjIn)
      && (forall k :: k in entities ==> entities[k].id == k)
      && Distinct(relationships)
    }

    ghost predicate SameEntity(e: Entity, name: string, typ: string)
    {
      fold(e.name) == fold(name) && fold(e.typ) == fold(typ)
    }

    ghost predicate DistinctNames(all: map<string, Entity>)
    {
      forall j, k :: j in all && k in all && SameEntity(all[j], all[k].name, all[k].typ) ==> j == k
    }

    /** What inserts into an empty store maintain. */
    ghost predicate Built()
      reads this, relationships
    {
      && DistinctNames(entities)
      && Grown(entities, Views(relationships), offers)
      && DistinctIds(Views(relationships))
    }

    constructor (fold: string -> string)
      ensures Valid() && Built() && entities == map[] && relationships == [] && offers == []
      ensures this.fold == fold
    {
      this.fold := fold;
      entities, relationships, adjOut, adjIn, offers := map[], [], map[], map[], [];
    }

    /** Adds an entity, or merges the labels into the one with the same folded name and type.
        The fresh id stands for the generated one. */
    method UpsertEntity(e: EntityCandidate, freshID: string) returns (id: string)
      requires Valid() && freshID !in entities
      modifies this`entities
      ensures Valid() && (old(Built()) ==> Built())
      ensures (exists k :: k in old(entities) && SameEntity(old(entities)[k], e.name, e.typ)) ==>
                && id in old(entities) && SameEntity(old(entities)[id], e.name, e.typ)
                && entities == old(entities)[id := old(entities)[id].(labels := old(entities)[id].labels + e.labels)]
      ensures (forall k :: k in old(entities) ==> !SameEntity(old(entities)[k], e.name, e.typ)) ==>
                id == freshID && entities == old(entities)[freshID := Entity(freshID, e.name, e.typ, e.labels)]
    {
      hide Grown, DistinctIds, Views, ListsOut, ListsIn, Distinct;
      var todo := entities.Keys;
      while todo != {}
        invariant todo <= entities.Keys
        invariant forall k :: k in entities && k !in todo ==> !SameEntity(entities[k], e.name, e.typ)
      {
        var k :| k in todo;
        if fold(entities[k].name) == fold(e.name) && fold(entities[k].typ) == fold(e.typ) {
          GrownAmongMore(entities, k, entities[k].(labels := entities[k].labels + e.labels), Views(relationships), offers);
          entities := entities[k := entities[k].(labels := entities[k].labels + e.labels)];
          return k;
        }
        todo := todo - {k};
      }
      GrownAmongMore(entities, freshID, Entity(freshID, e.name, e.typ, e.labels), Views(relationships), offers);
      entities := entities[freshID := Entity(freshID, e.name, e.typ, e.labels)];
      return freshID;
    }

    /** The id of some entity with a matching name, or the empty string. */
    method ResolveName(name: string) returns (id: string)
      ensures id != "" ==> id in entities && fold(entities[id].name) == fold(name)
      ensures id == "" ==> "" in entities || forall k :: k in entities ==> fold(entities[k].name) != fold(name)
    {
      var todo := entities.Keys;
      while todo != {}
        invariant todo <= entities.Keys
        invariant forall k :: k in entities && k !in todo ==> fold(entities[k].name) != fold(name)
      {
        var k :| k in todo;
        if fold(entities[k].name) == fold(name) { return k; }
        todo := todo - {k};
      }
      return "";
    }

    /** Adds an edge between two named entities, or raises the weight of the first edge
        with the same ends and type. Nothing happens when a name does not resolve. */
    method AddRelationship(c: RelCandidate, freshID: string) returns (ghost key: Option<Key>)
      requires Valid()
      modifies this, relationships
      ensures Valid() && entities == old(entities)
      ensures old(Built() && (forall r :: r in relationships ==> r.id != freshID)) ==> Built()
      ensures key.None? ==> Views(relationships) == old(Views(relationships)) && offers == old(offers)
      ensures key.None? ==>
                "" in entities || (forall k :: k in entities ==> fold(entities[k].name) != fold(c.from))
                || (forall k :: k in entities ==> fold(entities[k].name) != fold(c.to))
      ensures key.Some? ==> key.value.typ == c.typ
                            && key.value.from in entities && fold(entities[key.value.from].name) == fold(c.from)
                            && key.value.to in entities && fold(entities[key.value.to].name) == fold(c.to)
                            && offers == old(offers) + [Offer(key.value, c.weight)]
      ensures key.Some? ==>
                Views(relationships) == Offered(old(Views(relationships)), Offer(key.value, c.weight), freshID)
      ensures old(relationships) <= relationships
    {
      hide Grown, ListsOut, ListsIn, DistinctNames, DistinctIds, Offered, Views, Distinct, FirstWith;
      key := None;
      var fromID := ResolveName(c.from);
      var toID := ResolveName(c.to);
      if fromID == "" || toID == "" { return; }
      ghost var o := Offer(Key(fromID, toID, c.typ), c.weight);
      key := Some(o.key);
      if old(Built() && (forall r :: r in relationships ==> r.id != freshID)) {
        OfferKeepsGrown(entities, Views(relationships), offers, o, freshID);
        OfferKeepsIds(relationships, o, freshID);
      }
      InsertOrRaise(fromID, toID, c.typ, c.weight, freshID);
      offers := offers + [o];
    }

    method InsertOrRaise(fromID: string, toID: string, typ: string, weight: real, freshID: string)
      requires Valid()
      modifies this`relationships, this`adjOut, this`adjIn, relationships
      ensures Valid() && old(relationships) <= relationships
      ensures Views(relationships) ==
                Offered(old(Views(relationships)), Offer(Key(fromID, toID, typ), weight), freshID)
    {
      hide ListsOut, ListsIn, FirstWith, Offered, Views, Distinct;
      OfferedForms(Views(relationships), Offer(Key(fromID, toID, typ), weight), freshID);
      var i := FindEdge(fromID, toID, typ);
      if i < |relationships| {
        RaiseWeight(i, weight);
      } else {
        var rel := new Relationship(freshID, fromID, toID, typ, weight);
        ViewsUnchanged(relationships);
        AppendEdge(rel);
      }
    }

    method FindEdge(from: string, to: string, typ: string) returns (i: nat)
      ensures i == FirstWith(Views(relationships), Key(from, to, typ))
    {
      i := 0;
      ghost var views := Views(relationships);
      while i < |relationships|
        invariant i <= |relationships|
        invariant forall j :: 0 <= j < i ==> views[j].GetKey() != Key(from, to, typ)
      {
        var r := relationships[i];
        assert views[i].GetKey() == r.GetKey();
        if r.from == from && r.to == to && r.typ == typ { return; }
        i := i + 1;
      }
    }

    method RaiseWeight(i: nat, weight: real)
      requires Valid() && i < |relationships|
      modifies relationships[i]
      ensures Valid()
      ensures Views(relationships) == Raised(old(Views(relationships)), i, weight)
    {
      hide ListsOut, ListsIn;
      if weight > relationships[i].weight { relationships[i].weight := weight; }
    }

    method AppendEdge(rel: Relationship)
      requires Valid() && rel !in relationships
      modifies this`relationships, this`adjOut, this`adjIn
      ensures Valid() && relationships == old(relationships) + [rel]
      ensures Views(relationships) == old(Views(relationships)) + [rel.View()]
    {
      hide ListsOut, ListsIn, Lookup, Distinct, Views;
      AppendToOut(relationships, adjOut, rel);
      AppendToIn(relationships, adjIn, rel);
      AppendKeepsDistinct(relationships, rel);
      ViewsOfAppend(relationships, rel);
      relationships := relationships + [rel];
      adjOut := adjOut[rel.from := Lookup(adjOut, rel.from) + [rel]];
      adjIn := adjIn[rel.to := Lookup(adjIn, rel.to) + [rel]];
    }

    /** Replays the lines of a graph file into the store, up to one that is too long. Lines
        that are no events are skipped, and nothing is deduplicated. */
    method Load(c: LineCodec, data: string) returns (ok: bool)
      requires Valid()
      modifies this
      ensures ok == DecodeFile(c, data).ok
      ensures Valid() && old(relationships) <= relationships
      ensures entities == LoadEntities(old(entities), DecodeFile(c, data).events)
      ensures Views(relationships[|old(relationships)|..]) == LoadRels(DecodeFile(c, data).events)
    {
      hide ListsOut, ListsIn, Distinct, Fits, TrimSpace, Views, LoadEntities, LoadRels;
      ghost var done := [];
      NothingLoaded(entities, relationships);
      var lines := Split(data, '\n');
      assert lines[0..] == lines;
      for i := 0 to |lines|
        invariant Valid() && old(relationships) <= relationships
        invariant DecodeFile(c, data) == Behind(done, DecodeLines(c, lines[i..]))
        invariant entities == LoadEntities(old(entities), done)
        invariant Views(relationships[|old(relationships)|..]) == LoadRels(done)
      {
        assert lines[i..][1..] == lines[i + 1..];
        assert done + [] == done;
        if !Fits(lines[i]) { return false; }
        var line := TrimSpace(lines[i]);
        if line == "" { continue; }
        var e := c.decode(line);
        if e.Some? {
          BehindOneMore(done, e.value, DecodeLines(c, lines[i + 1..]));
          Replay(e.value, done, old(entities), |old(relationships)|);
          done := done + [e.value];
        }
      }
      return true;
    }

    method Replay(e: Event, ghost done: seq<Event>, ghost entities0: map<string, Entity>, ghost n: nat)
      requires Valid() && n <= |relationships|
      requires entities == LoadEntities(entities0, done) && Views(relationships[n..]) == LoadRels(done)
      modifies this
      ensures Valid() && old(relationships) <= relationships
      ensures entities == LoadEntities(entities0, done + [e]) && Views(relationships[n..]) == LoadRels(done + [e])
    {
      hide ListsOut, ListsIn, Distinct;
      assert (done + [e])[..|done|] == done;
      match e
      case EntityEvent(x) => entities := entities[x.id := x];
      case RelEvent(id, key, weight) =>
        var rel := new Relationship(id, key.from, key.to, key.typ, weight);
        AppendEdge(rel);
        assert relationships[n..] == relationships[n..|relationships| - 1] + [rel];
    }

    /** The event is that of a stored entity or edge. */
    ghost predicate Holds(e: Event)
      reads this, relationships
    {
      match e
      case EntityEvent(x) => x.id in entities && entities[x.id] == x
      case RelEvent(id, key, weight) => exists r :: r in relationships && EventOf(r.View()) == e
    }

    /** What persist writes: the entities in any order, then the edges in order. The file
        loads exactly when no stored entity or edge has a line that is too long. */
    method Save(c: LineCodec) returns (data: string, ghost events: seq<Event>)
      requires Valid()
      ensures data == Unlines(Encoded(c, events))
      ensures LoadEntities(map[], events) == entities && LoadRels(events) == Views(relationships)
      ensures (forall e :: Holds(e) ==> ReadsBack(c, e)) ==>
                (DecodeFile(c, data) == Decoded(events, true) <==> forall e :: Holds(e) ==> Fits(c.encode(e)))
    {
      ghost var head;
      hide Encoded, Unlines, Holds, ReadsBack, ListsOut, ListsIn, Distinct, DecodeFile;
      data, head := SaveEntities(c);
      events := head;
      assert relationships[..0] == [];
      for i := 0 to |relationships|
        invariant data == Unlines(Encoded(c, events))
        invariant LoadEntities(map[], events) == entities
        invariant LoadRels(events) == Views(relationships[..i])
        invariant forall e :: e in events <==> (e in head || exists j :: 0 <= j < i && EventOf(relationships[j].View()) == e)
      {
        var r := relationships[i];
        data := data + (c.encode(EventOf(r.View())) + "\n");
        OneMoreLine(c, events, EventOf(r.View()));
        events := events + [EventOf(r.View())];
        assert relationships[..i + 1] == relationships[..i] + [r];
      }
      assert relationships[..|relationships|] == relationships;
      WrittenIsHeld(head, events);
      if forall e :: Holds(e) ==> ReadsBack(c, e) {
        assert ReadsAll(c, events);
        FileRoundTripIff(c, events);
      }
    }

    lemma WrittenIsHeld(head: seq<Event>, events: seq<Event>)
      requires forall e :: e in head <==> e.EntityEvent? && e.entity.id in entities && entities[e.entity.id] == e.entity
      requires forall e :: e in events <==>
                 (e in head || exists j :: 0 <= j < |relationships| && EventOf(relationships[j].View()) == e)
      ensures forall e :: e in events <==> Holds(e)
    {
      forall e ensures e in events <==> Holds(e) {
        if e in events && e.RelEvent? {
          var j :| 0 <= j < |relationships| && EventOf(relationships[j].View()) == e;
          assert relationships[j] in relationships;
        }
        if e.RelEvent? && Holds(e) {
          var r :| r in relationships && EventOf(r.View()) == e;
          var j :| 0 <= j < |relationships| && relationships[j] == r;
        }
      }
    }

    method SaveEntities(c: LineCodec) returns (data: string, ghost events: seq<Event>)
      requires Valid()
      ensures data == Unlines(Encoded(c, events))
      ensures LoadEntities(map[], events) == entities && LoadRels(events) == []
      ensures forall e :: e in events <==> e.EntityEvent? && e.entity.id in entities && entities[e.entity.id] == e.entity
    {
      data, events := "", [];
      NothingWritten(c);
      hide Encoded, Unlines, LoadEntities, LoadRels, ListsOut, ListsIn, Distinct;
      var todo := entities.Keys;
      while todo != {}
        invariant todo <= entities.Keys
        invariant data == Unlines(Encoded(c, events))
        invariant LoadEntities(map[], events) == map k | k in entities && k !in todo :: entities[k]
        invariant LoadRels(events) == []
        invariant forall e :: e in events <==>
                    e.EntityEvent? && e.entity.id in entities && e.entity.id !in todo && entities[e.entity.id] == e.entity
      {
        var k :| k in todo;
        todo := todo - {k};
        data := data + (c.encode(EntityEvent(entities[k])) + "\n");
        OneMoreLine(c, events, EntityEvent(entities[k]));
        OneMoreEntity(events, entities[k]);
        events := events + [EntityEvent(entities[k])];
      }
    }

    /** One round of ShortestPath: dequeues a node and follows its edges both ways. */
    method ExpandHead(ghost source: string, target: string, visited0: set<string>, queue0: seq<Node>,
                      ghost dist0: map<string, nat>)
      returns (route: Option<seq<string>>, visited: set<string>, queue: seq<Node>, ghost dist: map<string, nat>)
      requires Valid() && |queue0| > 0
      requires dist0.Keys == visited0 <= Universe(relationships, source)
      requires Searching(relationships, source, target, dist0, queue0)
      ensures route.Some? ==> IsShortestRoute(relationships, route.value, source, target)
      ensures route.None? ==> dist.Keys == visited && visited0 <= visited <= Universe(relationships, source)
      ensures route.None? ==> Searching(relationships, source, target, dist, queue)
      ensures route.None? && visited == visited0 ==> |queue| < |queue0|
    {
      ghost var rs := relationships;
      var current := queue0[0];
      queue := queue0[1..];
      assert queue0 == [current] + queue;
      OutgoingMembers(rs, current.id);
      IncomingMembers(rs, current.id);
      hide Searching, IsShortestRoute;
      route, visited, queue, dist :=
        FollowEdges(rs, source, target, current, Lookup(adjOut, current.id), true, visited0, queue, dist0);
      if route.None? {
        route, visited, queue, dist :=
          FollowEdges(rs, source, target, current, Lookup(adjIn, current.id), false, visited, queue, dist);
      }
      if route.None? {
        PopKeepsSearching(rs, source, target, dist, [current] + queue);
        assert ([current] + queue)[1..] == queue;
      }
    }

    /** Breadth-first search over edges taken in both directions. */
    method ShortestPath(fromID: string, toID: string) returns (result: Option<seq<string>>)
      requires Valid()
      ensures result.None? <==> !exists q :: IsWalk(relationships, q, fromID, toID)
      ensures result.Some? ==> IsShortestRoute(relationships, result.value, fromID, toID)
    {
      ghost var rs := relationships;
      if fromID == toID {
        assert IsWalk(rs, [fromID], fromID, toID);
        return Some([fromID]);
      }
      var visited, queue := {fromID}, [Node(fromID, [fromID])];
      ghost var dist: map<string, nat> := map[fromID := 0];
      result := None;
      while |queue| > 0
        invariant result.None?
        invariant dist.Keys == visited <= Universe(rs, fromID)
        invariant Searching(rs, fromID, toID, dist, queue)
        decreases Universe(rs, fromID) - visited, |queue|
      {
        result, visited, queue, dist := ExpandHead(fromID, toID, visited, queue, dist);
        if result.Some? { return; }
      }
      FirstSightIsOptimal(rs, fromID, toID, dist, queue);
    }

    /** One round of Subgraph: dequeues a node and, below the hop limit, takes its edges. */
    method ExpandWithin(ghost source: string, hops: int, f0: Found) returns (f: Found)
      requires Valid() && |f0.queue| > 0
      requires Collecting(relationships, source, entities, Clip(hops), f0, f0.queue)
      requires f0.visited.Keys <= Universe(relationships, source)
      ensures Collecting(relationships, source, entities, Clip(hops), f, f.queue)
      ensures f0.visited.Keys <= f.visited.Keys <= Universe(relationships, source)
      ensures f.visited.Keys == f0.visited.Keys ==> |f.queue| < |f0.queue|
    {
      hide Collecting, Outgoing, Incoming, Universe, Distinct;
      ghost var rs, limit := relationships, Clip(hops);
      HeadOfCollecting(rs, source, entities, limit, f0, f0.queue);
      var current := f0.queue[0];
      var depth := f0.visited[current];
      f := f0.(queue := f0.queue[1..]);
      assert [current] + f.queue == f0.queue;
      SameFound(rs, source, entities, limit, f0, f, f0.queue);
      if depth < hops {
        OutgoingMembers(rs, current);
        IncomingMembers(rs, current);
        f := TakeEdges(rs, source, entities, limit, current, depth, Lookup(adjOut, current), true, f);
        f := TakeEdges(rs, source, entities, limit, current, depth, Lookup(adjIn, current), false, f);
      }
      ghost var active := [current] + f.queue;
      PopKeepsCollecting(rs, source, entities, limit, f, active);
      assert active[1..] == f.queue;
    }

    /** The stored entities within n hops, and the edges met on the way. A negative n
        behaves like zero. */
    method Subgraph(entityID: string, hops: int) returns (listed: seq<Entity>, rels: seq<RelView>)
      requires Valid()
      ensures ListsBall(relationships, entities, entityID, hops, listed)
      ensures ListsEdges(relationships, entityID, hops, rels)
      ensures Built() ==> forall x :: x in rels <==> Shown(relationships, entityID, hops, x)
    {
      hide Collecting, ListsBall, ListsEdges, Shown, Grown, DistinctNames, DistinctIds, Views;
      ghost var rs, limit := relationships, Clip(hops);
      var f := Found(map[entityID := 0], [entityID], [], {}, []);
      if entityID in entities {
        f := f.(entities := [entities[entityID]]);
      }
      StartCollecting(rs, entityID, entities, limit, f);
      while |f.queue| > 0
        invariant Collecting(rs, entityID, entities, limit, f, f.queue)
        invariant f.visited.Keys <= Universe(rs, entityID)
        decreases Universe(rs, entityID) - f.visited.Keys, |f.queue|
      {
        f := ExpandWithin(entityID, hops, f);
      }
      CollectedIsExact(rs, entityID, entities, hops, f);
      if Built() { EdgesById(rs, entityID, hops, f.rels); }
      return f.entities, f.rels;
    }
  }
}
