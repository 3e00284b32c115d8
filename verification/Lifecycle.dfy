/** Lifecycle stages, the transition graph and its validator. */
module Lifecycle {

  /** The declared enumerators of the lifecycle; 0 is the invalid sentinel. */
  type Stage = x: int | 0 <= x <= 10

  const INVALID: Stage := 0
  const CANDIDATE: Stage := 1
  const VERIFIED: Stage := 2
  const QUALIFIED: Stage := 3
  const STAGED: Stage := 4
  const APPROVED: Stage := 5
  const PROMOTED: Stage := 6
  const QUARANTINED: Stage := 7
  const REVOKED: Stage := 8
  const SUPERSEDED: Stage := 9
  const RETIRED: Stage := 10

  const STAGE_COUNT: nat := 11
  const MAX_EDGES: nat := 64

  datatype Edge = Edge(from: Stage, to: Stage)

  predicate Precedes(a: Edge, b: Edge) {
    if a.from != b.from then a.from < b.from else a.to < b.to
  }

  predicate IsTerminal(s: Stage) {
    s == REVOKED || s == RETIRED || s == SUPERSEDED
  }

  /** Sorted, with no two adjacent edges equal. */
  predicate IsCanonical(g: seq<Edge>) {
    forall i :: 0 <= i < |g| - 1 ==> !Precedes(g[i + 1], g[i]) && g[i] != g[i + 1]
  }

  predicate WellFormed(g: seq<Edge>) {
    && 0 < |g| <= MAX_EDGES
    && IsCanonical(g)
    && forall e :: e in g ==> e.from != INVALID && e.to != INVALID && e.from != e.to
  }

  // ----- Paths, reachability and cycles: what validation is meant to decide -----

  ghost predicate IsPath(g: seq<Edge>, p: seq<Stage>) {
    && |p| >= 1
    && forall i :: 0 <= i < |p| - 1 ==> Edge(p[i], p[i + 1]) in g
  }

  ghost predicate Reaches(g: seq<Edge>, a: Stage, b: Stage) {
    exists p :: IsPath(g, p) && p[0] == a && p[|p| - 1] == b
  }

  ghost predicate Appears(g: seq<Edge>, s: Stage) {
    exists e :: e in g && (e.from == s || e.to == s)
  }

  ghost predicate ReachesTerminal(g: seq<Edge>, s: Stage) {
    exists t: Stage :: IsTerminal(t) && Reaches(g, s, t)
  }

  /** A closed walk along at least one edge. */
  ghost predicate IsCycle(g: seq<Edge>, c: seq<Stage>) {
    IsPath(g, c) && |c| >= 2 && c[0] == c[|c| - 1]
  }

  ghost predicate Acyclic(g: seq<Edge>) {
    forall c :: !IsCycle(g, c)
  }

  /** Every stage of the graph is reachable from the entry and can still reach an end of life. */
  ghost predicate Connected(g: seq<Edge>, entry: Stage) {
    forall s: Stage :: Appears(g, s) ==>
      Reaches(g, entry, s) && (IsTerminal(s) || ReachesTerminal(g, s))
  }

  ghost function Elements(q: seq<Stage>): set<Stage> {
    set s: Stage | s in q
  }

  ghost predicate Distinct(q: seq<Stage>) {
    forall i, j :: 0 <= i < j < |q| ==> q[i] != q[j]
  }

  ghost function Preds(g: seq<Edge>, v: Stage): set<Stage> {
    set e | e in g && e.to == v :: e.from
  }

  /** The in-degree the sort starts from: edges leaving the holding stage are not counted. */
  ghost function InDegree(g: seq<Edge>, v: Stage): nat {
    |Preds(g, v) - {QUARANTINED}|
  }

  /** An order in which each stage comes after as many predecessors, the holding
      stage included, as it has predecessors other than the holding stage. */
  ghost predicate ReleaseOrder(g: seq<Edge>, nodes: set<Stage>, order: seq<Stage>) {
    && Distinct(order)
    && Elements(order) == nodes
    && forall i :: 0 <= i < |order| ==>
         InDegree(g, order[i]) <= |Preds(g, order[i]) * Elements(order[..i])|
  }

  ghost function ReachableFrom(g: seq<Edge>, entry: Stage): set<Stage> {
    set s: Stage | 0 <= s <= 10 && Reaches(g, entry, s)
  }

  /** The exact acceptance condition of the validator, for every graph. */
  ghost predicate Accepts(g: seq<Edge>, entry: Stage) {
    && entry != INVALID
    && WellFormed(g)
    && Connected(g, entry)
    && (exists order :: ReleaseOrder(g, ReachableFrom(g, entry), order))
    && (exists e :: e in g && IsTerminal(e.to))
  }

  // ----- Small facts -----

  lemma ReachesRefl(g: seq<Edge>, a: Stage)
    ensures Reaches(g, a, a)
  {
    assert IsPath(g, [a]);
  }

  lemma ReachesStep(g: seq<Edge>, a: Stage, b: Stage, c: Stage)
    requires Reaches(g, a, b) && Edge(b, c) in g
    ensures Reaches(g, a, c)
  {
    var p :| IsPath(g, p) && p[0] == a && p[|p| - 1] == b;
    assert IsPath(g, p + [c]);
    assert (p + [c])[0] == a && (p + [c])[|p + [c]| - 1] == c;
  }

  lemma ReachesBefore(g: seq<Edge>, a: Stage, b: Stage, c: Stage)
    requires Edge(a, b) in g && Reaches(g, b, c)
    ensures Reaches(g, a, c)
  {
    var p :| IsPath(g, p) && p[0] == b && p[|p| - 1] == c;
    var q := [a] + p;
    assert forall i :: 0 <= i < |q| - 1 ==> i == 0 || (q[i] == p[i - 1] && q[i + 1] == p[i]);
    assert IsPath(g, q) && q[0] == a && q[|q| - 1] == c;
  }

  lemma PathTail(g: seq<Edge>, p: seq<Stage>)
    requires IsPath(g, p) && |p| >= 2
    ensures IsPath(g, p[1..])
  {
    var t := p[1..];
    forall i | 0 <= i < |t| - 1 ensures Edge(t[i], t[i + 1]) in g {
      assert t[i] == p[i + 1] && t[i + 1] == p[(i + 1) + 1];
    }
  }

  lemma {:induction false} DistinctCardinality(q: seq<Stage>)
    requires Distinct(q)
    ensures |Elements(q)| == |q|
  {
    if q == [] {
      assert Elements(q) == {};
    } else {
      var last := |q| - 1;
      DistinctCardinality(q[..last]);
      assert q == q[..last] + [q[last]];
      assert Elements(q) == Elements(q[..last]) + {q[last]};
    }
  }

  lemma {:induction false} IntervalCardinality(n: nat, s: set<int>)
    requires forall x :: x in s ==> 0 <= x < n
    ensures |s| <= n
  {
    if n == 0 {
      assert forall x :: x in s ==> false;
    } else {
      IntervalCardinality(n - 1, s - {n - 1});
    }
  }

  /** A queue of distinct stages never outgrows the fixed queue array. */
  lemma QueueBound(q: seq<Stage>)
    requires Distinct(q)
    ensures |q| <= STAGE_COUNT
  {
    DistinctCardinality(q);
    IntervalCardinality(STAGE_COUNT, Elements(q));
  }

  lemma CardinalityMonotone<T>(a: set<T>, b: set<T>)
    requires a <= b
    ensures |a| <= |b|
  {
    assert b == a + (b - a);
  }

  // ----- The validator, as the source runs it: arrays, queues and counters -----

  /** A frontier link table: links[u] lists the stages one step away from u. */
  ghost predicate IsTable(links: seq<seq<Stage>>) {
    |links| == STAGE_COUNT
  }

  ghost function Marked(v: seq<bool>): set<Stage> {
    set s: Stage | 0 <= s <= 10 && s < |v| && v[s]
  }

  ghost predicate Closed(links: seq<seq<Stage>>, s: set<Stage>)
    requires IsTable(links)
  {
    forall u, v :: u in s && v in links[u] ==> v in s
  }

  /** The queue holds distinct stages and, with the earlier marks, exactly the marked ones. */
  ghost predicate Queued(queue: seq<Stage>, visited: seq<bool>, before: set<Stage>) {
    Distinct(queue) && Marked(visited) == before + Elements(queue)
  }

  lemma QueuedMarks(queue: seq<Stage>, visited: seq<bool>, before: set<Stage>)
    requires Queued(queue, visited, before)
    ensures Marked(visited) == before + Elements(queue)
  {
  }

  lemma EnqueueKeepsQueued(queue: seq<Stage>, visited: seq<bool>, before: set<Stage>, next: Stage)
    requires |visited| == STAGE_COUNT && Queued(queue, visited, before) && !visited[next]
    ensures |queue| < STAGE_COUNT
    ensures Queued(queue + [next], visited[next := true], before)
    ensures Elements(queue + [next]) == Elements(queue) + {next}
  {
    assert next !in Marked(visited);
    assert Elements(queue + [next]) == Elements(queue) + {next};
    assert Marked(visited[next := true]) == Marked(visited) + {next};
    assert Distinct(queue + [next]);
    QueueBound(queue + [next]);
  }

  /** Marks and enqueues one stage unless it is already marked. The source's "no room
      left" return is never taken: the queue index is below the queue length. */
  method Visit(next: Stage, frontier: array<Stage>, size: nat, visited: array<bool>, ghost before: set<Stage>)
    returns (tail: nat)
    requires frontier.Length == visited.Length == STAGE_COUNT && size <= STAGE_COUNT
    requires Queued(frontier[..size], visited[..], before)
    modifies frontier, visited
    ensures size <= tail <= STAGE_COUNT
    ensures Queued(frontier[..tail], visited[..], before)
    ensures frontier[..tail] == old(frontier[..size]) + (if old(visited[next]) then [] else [next])
    ensures visited[..] == old(visited[..])[next := true]
  {
    tail := size;
    if !visited[next] {
      EnqueueKeepsQueued(frontier[..size], visited[..], before, next);
      hide Queued;
      visited[next] := true;
      frontier[tail] := next;
      tail := tail + 1;
      assert frontier[..tail] == old(frontier[..size]) + [next];
      assert visited[..] == old(visited[..])[next := true];
    }
  }

  lemma MarkedGrows(marks: seq<bool>, next: Stage)
    requires |marks| == STAGE_COUNT
    ensures Marked(marks[next := true]) == Marked(marks) + {next}
  {
  }

  lemma ElementsAppend(a: seq<Stage>, b: seq<Stage>)
    ensures Elements(a + b) == Elements(a) + Elements(b)
  {
  }

  lemma AppendTail(start: seq<Stage>, more: seq<Stage>, one: seq<Stage>)
    ensures (start + more) + one == start + (more + one)
    ensures Elements(more + one) == Elements(more) + Elements(one)
  {
    ElementsAppend(more, one);
  }

  /** Marks and enqueues the unmarked neighbours of one stage. */
  method Expand(neighbours: seq<Stage>, frontier: array<Stage>, size: nat, visited: array<bool>,
                ghost before: set<Stage>)
    returns (tail: nat, ghost more: seq<Stage>)
    requires frontier.Length == visited.Length == STAGE_COUNT && size <= STAGE_COUNT
    requires Queued(frontier[..size], visited[..], before)
    modifies frontier, visited
    ensures size <= tail <= STAGE_COUNT
    ensures Queued(frontier[..tail], visited[..], before)
    ensures frontier[..tail] == old(frontier[..size]) + more
    ensures Elements(more) <= Elements(neighbours)
    ensures Marked(visited[..]) == Marked(old(visited[..])) + Elements(neighbours)
  {
    hide Queued, Marked;
    tail, more := size, [];
    var j := 0;
    assert neighbours[..0] == [];
    while j < |neighbours|
      invariant 0 <= j <= |neighbours| && size <= tail <= STAGE_COUNT
      invariant Queued(frontier[..tail], visited[..], before)
      invariant frontier[..tail] == old(frontier[..size]) + more
      invariant Elements(more) <= Elements(neighbours[..j])
      invariant Marked(visited[..]) == Marked(old(visited[..])) + Elements(neighbours[..j])
    {
      ElementsTake(neighbours, j);
      MarkedGrows(visited[..], neighbours[j]);
      ghost var one := if visited[neighbours[j]] then [] else [neighbours[j]];
      AppendTail(old(frontier[..size]), more, one);
      tail := Visit(neighbours[j], frontier, tail, visited, before);
      more := more + one;
      j := j + 1;
    }
    TakeAll(neighbours);
  }

  /** Every link of the first `head` queued stages leads to a marked stage. */
  ghost predicate Explored(links: seq<seq<Stage>>, queue: seq<Stage>, head: nat, marks: set<Stage>)
    requires IsTable(links)
  {
    head <= |queue| && forall k :: 0 <= k < head ==> Elements(links[queue[k]]) <= marks
  }

  lemma ExpandKeepsExplored(links: seq<seq<Stage>>, queue: seq<Stage>, head: nat, more: seq<Stage>,
                            marks: set<Stage>, marks': set<Stage>, bound: set<Stage>)
    requires IsTable(links) && Explored(links, queue, head, marks) && head < |queue|
    requires marks + Elements(links[queue[head]]) <= marks'
    requires Elements(more) <= Elements(links[queue[head]])
    requires Closed(links, bound) && Elements(queue) <= bound
    ensures Explored(links, queue + more, head + 1, marks')
    ensures Elements(queue + more) <= bound
  {
    assert queue[head] in Elements(queue);
    assert forall v: Stage :: v in more ==> v in Elements(more) && v in links[queue[head]];
  }

  lemma ExploredIsClosed(links: seq<seq<Stage>>, queue: seq<Stage>, before: set<Stage>, marks: set<Stage>)
    requires IsTable(links) && Explored(links, queue, |queue|, marks)
    requires Closed(links, before) && marks == before + Elements(queue)
    ensures Closed(links, marks)
  {
    forall u, v | u in marks && v in links[u] ensures v in marks {
      if u !in before {
        var k :| 0 <= k < |queue| && queue[k] == u;
        assert v in Elements(links[u]);
      }
    }
  }

  /** Breadth-first marking from one start stage: the marks stay closed under the
      links, and stay inside every closed set that holds the old marks and the start. */
  method Traverse(links: seq<seq<Stage>>, start: Stage, visited: array<bool>, ghost bound: set<Stage>)
    requires IsTable(links) && visited.Length == STAGE_COUNT
    requires Closed(links, Marked(visited[..]))
    requires Closed(links, bound) && Marked(visited[..]) + {start} <= bound
    modifies visited
    ensures Marked(old(visited[..])) + {start} <= Marked(visited[..]) <= bound
    ensures Closed(links, Marked(visited[..]))
  {
    ghost var before := Marked(visited[..]);
    var frontier := new Stage[STAGE_COUNT];
    var head, tail := 0, 1;
    visited[start] := true;
    frontier[0] := start;
    assert frontier[..1] == [start];
    hide Queued, Explored, Marked;
    while head < tail
      invariant 0 <= head <= tail <= STAGE_COUNT
      invariant Queued(frontier[..tail], visited[..], before)
      invariant start in Marked(visited[..])
      invariant Elements(frontier[..tail]) <= bound
      invariant Explored(links, frontier[..tail], head, Marked(visited[..]))
      decreases STAGE_COUNT - head
    {
      ghost var queue, marks, more := frontier[..tail], Marked(visited[..]), [];
      tail, more := Expand(links[frontier[head]], frontier, tail, visited, before);
      ExpandKeepsExplored(links, queue, head, more, marks, Marked(visited[..]), bound);
      head := head + 1;
    }
    QueuedMarks(frontier[..tail], visited[..], before);
    ExploredIsClosed(links, frontier[..tail], before, Marked(visited[..]));
  }

  lemma {:induction false} CanonicalIsSorted(g: seq<Edge>, i: nat, j: nat)
    requires IsCanonical(g) && i < j < |g|
    ensures Precedes(g[i], g[j])
  {
    assert g[j - 1] != g[j] && !Precedes(g[j], g[j - 1]);
    if i < j - 1 {
      CanonicalIsSorted(g, i, j - 1);
    }
  }

  /** The two tables list exactly the edges, each edge once. */
  ghost predicate TablesOf(g: seq<Edge>, adjacency: seq<seq<Stage>>, reverse: seq<seq<Stage>>) {
    && IsTable(adjacency) && IsTable(reverse)
    && (forall u: Stage, v: Stage :: v in adjacency[u] <==> Edge(u, v) in g)
    && (forall u: Stage, v: Stage :: u in reverse[v] <==> Edge(u, v) in g)
    && (forall u: Stage :: Distinct(adjacency[u]))
  }

  lemma TablesExtend(g: seq<Edge>, e: Edge, adjacency: seq<seq<Stage>>, reverse: seq<seq<Stage>>)
    requires TablesOf(g, adjacency, reverse) && e !in g
    ensures TablesOf(g + [e], adjacency[e.from := adjacency[e.from] + [e.to]],
                              reverse[e.to := reverse[e.to] + [e.from]])
  {
    var a, r := adjacency[e.from := adjacency[e.from] + [e.to]], reverse[e.to := reverse[e.to] + [e.from]];
    forall u: Stage, v: Stage ensures v in a[u] <==> Edge(u, v) in g + [e] {
      assert v in a[u] <==> v in adjacency[u] || (u == e.from && v == e.to);
    }
    forall u: Stage, v: Stage ensures u in r[v] <==> Edge(u, v) in g + [e] {
      assert u in r[v] <==> u in reverse[v] || (u == e.from && v == e.to);
    }
    assert e.to !in adjacency[e.from];
  }

  /** Adjacency in canonical edge order, so each list is already sorted. */
  method BuildTables(g: seq<Edge>) returns (adjacency: seq<seq<Stage>>, reverse: seq<seq<Stage>>)
    requires IsCanonical(g)
    ensures TablesOf(g, adjacency, reverse)
  {
    adjacency := seq(STAGE_COUNT, _ => []);
    reverse := seq(STAGE_COUNT, _ => []);
    var i := 0;
    while i < |g|
      invariant 0 <= i <= |g|
      invariant TablesOf(g[..i], adjacency, reverse)
    {
      var e := g[i];
      forall k | 0 <= k < i ensures g[k] != e { CanonicalIsSorted(g, k, i); }
      TablesExtend(g[..i], e, adjacency, reverse);
      assert g[..i + 1] == g[..i] + [e];
      adjacency := adjacency[e.from := adjacency[e.from] + [e.to]];
      reverse := reverse[e.to := reverse[e.to] + [e.from]];
      i := i + 1;
    }
    assert g[..|g|] == g;
  }

  // ----- Forward and backward reachability -----

  lemma {:induction false} ClosedHoldsPath(g: seq<Edge>, links: seq<seq<Stage>>, s: set<Stage>, p: seq<Stage>)
    requires IsTable(links) && Closed(links, s)
    requires forall u: Stage, v: Stage :: Edge(u, v) in g ==> v in links[u]
    requires IsPath(g, p) && p[0] in s
    ensures p[|p| - 1] in s
  {
    if |p| > 1 {
      assert Edge(p[0], p[1]) in g;
      assert IsPath(g, p[1..]) by { PathTail(g, p); }
      ClosedHoldsPath(g, links, s, p[1..]);
    }
  }

  lemma ReachableIsClosed(g: seq<Edge>, links: seq<seq<Stage>>, entry: Stage)
    requires IsTable(links) && forall u: Stage, v: Stage :: v in links[u] ==> Edge(u, v) in g
    ensures Closed(links, ReachableFrom(g, entry)) && entry in ReachableFrom(g, entry)
  {
    ReachesRefl(g, entry);
    forall u, v | u in ReachableFrom(g, entry) && v in links[u] ensures v in ReachableFrom(g, entry) {
      ReachesStep(g, entry, u, v);
    }
  }

  method MarkForward(g: seq<Edge>, adjacency: seq<seq<Stage>>, entry: Stage) returns (forward: array<bool>)
    requires IsTable(adjacency)
    requires forall u: Stage, v: Stage :: v in adjacency[u] <==> Edge(u, v) in g
    ensures fresh(forward) && forward.Length == STAGE_COUNT
    ensures Marked(forward[..]) == ReachableFrom(g, entry)
  {
    forward := new bool[STAGE_COUNT](_ => false);
    ReachableIsClosed(g, adjacency, entry);
    Traverse(adjacency, entry, forward, ReachableFrom(g, entry));
    ghost var marks := Marked(forward[..]);
    forall s | s in ReachableFrom(g, entry) ensures s in marks {
      var p :| IsPath(g, p) && p[0] == entry && p[|p| - 1] == s;
      ClosedHoldsPath(g, adjacency, marks, p);
    }
  }

  /** The stages with a path of at least one edge into a terminal stage. */
  ghost predicate Escapes(g: seq<Edge>, s: Stage) {
    exists e :: e in g && e.from == s && ReachesTerminal(g, e.to)
  }

  ghost function Escaping(g: seq<Edge>): set<Stage> {
    set s: Stage | 0 <= s <= 10 && Escapes(g, s)
  }

  ghost function ExitStages(g: seq<Edge>): set<Stage> {
    set e | e in g && IsTerminal(e.to) :: e.from
  }

  lemma EscapingIsClosed(g: seq<Edge>, reverse: seq<seq<Stage>>)
    requires IsTable(reverse) && forall u: Stage, v: Stage :: u in reverse[v] ==> Edge(u, v) in g
    ensures Closed(reverse, Escaping(g)) && ExitStages(g) <= Escaping(g)
  {
    forall s | s in ExitStages(g) ensures s in Escaping(g) {
      var e :| e in g && e.from == s && IsTerminal(e.to);
      ReachesRefl(g, e.to);
      assert ReachesTerminal(g, e.to);
    }
    forall v, u | v in Escaping(g) && u in reverse[v] ensures u in Escaping(g) {
      var e :| e in g && e.from == v && ReachesTerminal(g, e.to);
      var t: Stage :| IsTerminal(t) && Reaches(g, e.to, t);
      ReachesBefore(g, v, e.to, t);
      assert Edge(u, v) in g && ReachesTerminal(g, v);
    }
  }

  /** A set closed backwards that holds the exits holds every escaping stage. */
  lemma {:induction false} BackwardHoldsPath(g: seq<Edge>, reverse: seq<seq<Stage>>, s: set<Stage>, p: seq<Stage>)
    requires IsTable(reverse) && Closed(reverse, s) && ExitStages(g) <= s
    requires forall u: Stage, v: Stage :: Edge(u, v) in g ==> u in reverse[v]
    requires IsPath(g, p) && |p| >= 2 && IsTerminal(p[|p| - 1])
    ensures p[0] in s
  {
    assert Edge(p[0], p[1]) in g;
    if |p| > 2 {
      assert IsPath(g, p[1..]) by { PathTail(g, p); }
      BackwardHoldsPath(g, reverse, s, p[1..]);
      assert p[0] in reverse[p[1]];
    }
  }

  lemma ExitStage(g: seq<Edge>, adjacency: seq<seq<Stage>>, reverse: seq<seq<Stage>>, s: Stage)
    requires TablesOf(g, adjacency, reverse)
    ensures s in ExitStages(g) <==> exists next :: next in adjacency[s] && IsTerminal(next)
  {
    if next: Stage :| next in adjacency[s] && IsTerminal(next) {
      assert Edge(s, next) in g;
    }
  }

  ghost predicate ExitsMarked(g: seq<Edge>, marks: set<Stage>, n: int) {
    forall s :: s in ExitStages(g) && s < n ==> s in marks
  }

  /** One backward traversal for each stage with an edge into a terminal stage. */
  method MarkBackward(g: seq<Edge>, adjacency: seq<seq<Stage>>, reverse: seq<seq<Stage>>)
    returns (backward: array<bool>)
    requires TablesOf(g, adjacency, reverse)
    ensures fresh(backward) && backward.Length == STAGE_COUNT
    ensures ExitStages(g) <= Marked(backward[..]) <= Escaping(g)
    ensures Closed(reverse, Marked(backward[..]))
  {
    hide Escaping, ExitStages;
    backward := new bool[STAGE_COUNT](_ => false);
    EscapingIsClosed(g, reverse);
    var raw: int := 0;
    assert Marked(backward[..]) == {};
    while raw < STAGE_COUNT
      invariant 0 <= raw <= STAGE_COUNT
      invariant ExitsMarked(g, Marked(backward[..]), raw)
      invariant Marked(backward[..]) <= Escaping(g)
      invariant Closed(reverse, Marked(backward[..]))
    {
      var stage: Stage := raw;
      ExitStage(g, adjacency, reverse, stage);
      if exists next :: next in adjacency[stage] && IsTerminal(next) {
        Traverse(reverse, stage, backward, Escaping(g));
      }
      raw := raw + 1;
    }
  }

  lemma BackwardIsEscaping(g: seq<Edge>, reverse: seq<seq<Stage>>, marks: set<Stage>)
    requires IsTable(reverse) && Closed(reverse, marks) && ExitStages(g) <= marks <= Escaping(g)
    requires forall u: Stage, v: Stage :: Edge(u, v) in g ==> u in reverse[v]
    ensures forall s: Stage :: !IsTerminal(s) ==> (s in marks <==> ReachesTerminal(g, s))
  {
    forall s: Stage | !IsTerminal(s) ensures s in marks <==> ReachesTerminal(g, s) {
      if ReachesTerminal(g, s) {
        var t: Stage :| IsTerminal(t) && Reaches(g, s, t);
        var p :| IsPath(g, p) && p[0] == s && p[|p| - 1] == t;
        BackwardHoldsPath(g, reverse, marks, p);
      }
      if s in marks {
        var e :| e in g && e.from == s && ReachesTerminal(g, e.to);
        var t: Stage :| IsTerminal(t) && Reaches(g, e.to, t);
        ReachesBefore(g, s, e.to, t);
      }
    }
  }

  // ----- The topological count -----

  /** Counts, for each stage, its edges from stages other than the holding stage. */
  method CountInDegrees(g: seq<Edge>, adjacency: seq<seq<Stage>>, forward: array<bool>) returns (degree: array<nat>)
    requires IsTable(adjacency) && forward.Length == STAGE_COUNT
    requires forall u: Stage, v: Stage :: v in adjacency[u] <==> Edge(u, v) in g
    requires forall u: Stage :: Distinct(adjacency[u])
    requires forall e :: e in g ==> forward[e.from]
    ensures fresh(degree) && degree.Length == STAGE_COUNT
    ensures forall v: Stage :: degree[v] == InDegree(g, v)
  {
    degree := new nat[STAGE_COUNT](_ => 0);
    var index: int := 0;
    while index < STAGE_COUNT
      invariant 0 <= index <= STAGE_COUNT
      invariant forall v: Stage :: degree[v] == |CountedBelow(g, v, index)|
    {
      if forward[index] && index != QUARANTINED {
        var row := adjacency[index];
        var j := 0;
        while j < |row|
          invariant 0 <= j <= |row|
          invariant forall v: Stage :: degree[v] == |CountedBelow(g, v, index)| + if v in row[..j] then 1 else 0
        {
          assert row[..j + 1] == row[..j] + [row[j]];
          degree[row[j]] := degree[row[j]] + 1;
          j := j + 1;
        }
        assert row[..|row|] == row;
      }
      forall v: Stage ensures |CountedBelow(g, v, index + 1)| == |CountedBelow(g, v, index)| +
                                if index != QUARANTINED && v in adjacency[index] then 1 else 0
      {
        CountOneMore(g, v, index);
      }
      index := index + 1;
    }
    forall v: Stage ensures degree[v] == InDegree(g, v) {
      assert CountedBelow(g, v, STAGE_COUNT) == Preds(g, v) - {QUARANTINED};
    }
  }

  ghost function CountedBelow(g: seq<Edge>, v: Stage, n: int): set<Stage> {
    set u | u in Preds(g, v) && u != QUARANTINED && u < n
  }

  lemma CountOneMore(g: seq<Edge>, v: Stage, u: Stage)
    ensures |CountedBelow(g, v, u + 1)| == |CountedBelow(g, v, u)| +
              if u != QUARANTINED && Edge(u, v) in g then 1 else 0
  {
    if u != QUARANTINED && Edge(u, v) in g {
      assert Edge(u, v).from in Preds(g, v);
      assert CountedBelow(g, v, u + 1) == CountedBelow(g, v, u) + {u};
    } else {
      assert CountedBelow(g, v, u + 1) == CountedBelow(g, v, u);
    }
  }

  /** Every stage of the queue came after as many predecessors as its in-degree asks for. */
  ghost predicate Released(g: seq<Edge>, queue: seq<Stage>) {
    && Distinct(queue)
    && forall i :: 0 <= i < |queue| ==>
         InDegree(g, queue[i]) <= |Preds(g, queue[i]) * Elements(queue[..i])|
  }

  /** What is left of each counter: zero once queued, otherwise the in-degree less the
      processed predecessors; stages in `touched` have also seen `current` processed. */
  ghost predicate Counters(g: seq<Edge>, nodes: set<Stage>, queue: seq<Stage>, degree: seq<nat>,
                           processed: set<Stage>, current: Stage, touched: set<Stage>)
  {
    && |degree| == STAGE_COUNT
    && Elements(queue) <= nodes
    && forall v :: v in nodes ==>
         if v in queue then degree[v] == 0
         else 0 < degree[v] == InDegree(g, v) - |Preds(g, v) * Seen(processed, current, v in touched)|
  }

  ghost function Seen(processed: set<Stage>, current: Stage, also: bool): set<Stage> {
    if also then processed + {current} else processed
  }

  lemma ReleasedExtends(g: seq<Edge>, queue: seq<Stage>, next: Stage)
    requires Released(g, queue) && next !in queue
    requires InDegree(g, next) <= |Preds(g, next) * Elements(queue)|
    ensures Released(g, queue + [next]) && |queue| < STAGE_COUNT
  {
    hide InDegree, Preds, Elements;
    var longer := queue + [next];
    assert Distinct(longer);
    QueueBound(longer);
    forall i | 0 <= i < |longer| ensures InDegree(g, longer[i]) <= |Preds(g, longer[i]) * Elements(longer[..i])| {
      assert longer[..i] == if i < |queue| then queue[..i] else queue;
    }
  }

  /** Processing one edge raises what its target has seen by exactly one. */
  lemma SeenOneMore(g: seq<Edge>, processed: set<Stage>, current: Stage, next: Stage)
    requires Edge(current, next) in g && current !in processed
    ensures |Preds(g, next) * Seen(processed, current, true)| == |Preds(g, next) * processed| + 1
  {
    assert Edge(current, next).from in Preds(g, next);
    assert Preds(g, next) * Seen(processed, current, true) == Preds(g, next) * processed + {current};
  }

  lemma CountersStep(g: seq<Edge>, nodes: set<Stage>, queue: seq<Stage>, degree: seq<nat>,
                     processed: set<Stage>, current: Stage, touched: set<Stage>, next: Stage)
    requires Counters(g, nodes, queue, degree, processed, current, touched)
    requires next in nodes && next !in touched && Edge(current, next) in g && current !in processed
    ensures degree[next] == 0 ==> Counters(g, nodes, queue, degree, processed, current, touched + {next})
    ensures degree[next] != 0 ==>
              var less := degree[next := degree[next] - 1];
              next !in queue &&
              Counters(g, nodes, if less[next] == 0 then queue + [next] else queue, less,
                       processed, current, touched + {next})
  {
    SeenOneMore(g, processed, current, next);
  }

  /** When its counter reaches zero, a stage has enough predecessors in the queue. */
  lemma ReleaseNext(g: seq<Edge>, nodes: set<Stage>, queue: seq<Stage>, degree: seq<nat>,
                    processed: set<Stage>, current: Stage, touched: set<Stage>, next: Stage)
    requires Released(g, queue) && Counters(g, nodes, queue, degree, processed, current, touched)
    requires next in nodes && next !in touched && Edge(current, next) in g
    requires current !in processed && processed + {current} <= Elements(queue)
    requires degree[next] == 1
    ensures Released(g, queue + [next]) && |queue| < STAGE_COUNT
  {
    SeenOneMore(g, processed, current, next);
    CardinalityMonotone(Preds(g, next) * Seen(processed, current, true), Preds(g, next) * Elements(queue));
    ReleasedExtends(g, queue, next);
  }

  lemma TakeAll(row: seq<Stage>)
    ensures row[..|row|] == row
  {
  }

  lemma ElementsTake(row: seq<Stage>, j: nat)
    requires j < |row|
    ensures Elements(row[..j + 1]) == Elements(row[..j]) + {row[j]}
    ensures Distinct(row) ==> row[j] !in Elements(row[..j])
  {
    assert row[..j + 1] == row[..j] + [row[j]];
  }

  /** The state of the sort: the queue with its counters, part way through one stage's edges. */
  ghost predicate Sorting(g: seq<Edge>, nodes: set<Stage>, queue: seq<Stage>, degree: seq<nat>,
                          processed: set<Stage>, current: Stage, touched: set<Stage>)
  {
    Released(g, queue) && Counters(g, nodes, queue, degree, processed, current, touched)
  }

  ghost function QueueAfter(queue: seq<Stage>, degree: seq<nat>, next: Stage): seq<Stage>
    requires |degree| == STAGE_COUNT
  {
    if degree[next] == 1 then queue + [next] else queue
  }

  ghost function CountsAfter(degree: seq<nat>, next: Stage): seq<nat>
    requires |degree| == STAGE_COUNT
  {
    if degree[next] == 0 then degree else degree[next := degree[next] - 1]
  }

  lemma SortingStep(g: seq<Edge>, nodes: set<Stage>, queue: seq<Stage>, degree: seq<nat>,
                    processed: set<Stage>, current: Stage, row: seq<Stage>, j: nat)
    requires Distinct(row) && j < |row| && row[j] in nodes && Edge(current, row[j]) in g
    requires Sorting(g, nodes, queue, degree, processed, current, Elements(row[..j]))
    requires current !in processed && processed + {current} <= Elements(queue)
    ensures degree[row[j]] == 1 ==> |queue| < STAGE_COUNT
    ensures Sorting(g, nodes, QueueAfter(queue, degree, row[j]), CountsAfter(degree, row[j]),
                    processed, current, Elements(row[..j + 1]))
  {
    ElementsTake(row, j);
    CountersStep(g, nodes, queue, degree, processed, current, Elements(row[..j]), row[j]);
    if degree[row[j]] == 1 {
      ReleaseNext(g, nodes, queue, degree, processed, current, Elements(row[..j]), row[j]);
    }
  }

  lemma PrefixExtends(queue: seq<Stage>, next: Stage, s: set<Stage>)
    requires s <= Elements(queue)
    ensures s <= Elements(queue + [next])
  {
    forall x | x in s ensures x in Elements(queue + [next]) {
      assert x in queue;
    }
  }

  /** Lowers one counter and queues the stage when it reaches zero. */
  method RelaxEdge(next: Stage, forward: seq<bool>, degree: array<nat>, order: array<Stage>, size: nat)
    returns (tail: nat)
    requires |forward| == degree.Length == order.Length == STAGE_COUNT && size <= STAGE_COUNT
    requires forward[next] && (degree[next] == 1 ==> size < STAGE_COUNT)
    requires degree as object != order
    modifies degree, order
    ensures size <= tail <= STAGE_COUNT
    ensures order[..tail] == QueueAfter(old(order[..size]), old(degree[..]), next)
    ensures degree[..] == CountsAfter(old(degree[..]), next)
  {
    tail := size;
    if degree[next] == 0 || !forward[next] {
      return;
    }
    degree[next] := degree[next] - 1;
    if degree[next] == 0 && tail < order.Length {
      order[tail] := next;
      tail := tail + 1;
    }
  }

  /** Lowers the counters along the edges of one processed stage, queueing what reaches zero. */
  method Relax(g: seq<Edge>, row: seq<Stage>, current: Stage, forward: seq<bool>, degree: array<nat>,
               order: array<Stage>, size: nat, ghost nodes: set<Stage>, ghost processed: set<Stage>)
    returns (tail: nat)
    requires |forward| == degree.Length == order.Length == STAGE_COUNT && size <= STAGE_COUNT
    requires Distinct(row) && forall v :: v in row ==> Edge(current, v) in g && v in nodes && forward[v]
    requires current !in processed && processed + {current} <= Elements(order[..size])
    requires Sorting(g, nodes, order[..size], degree[..], processed, current, {})
    requires degree as object != order
    modifies degree, order
    ensures size <= tail <= STAGE_COUNT && old(order[..size]) <= order[..tail]
    ensures Sorting(g, nodes, order[..tail], degree[..], processed, current, Elements(row))
  {
    hide Sorting;
    tail := size;
    ghost var queue := order[..size];
    var j := 0;
    assert Elements(row[..0]) == {};
    while j < |row|
      invariant 0 <= j <= |row| && size <= tail <= STAGE_COUNT
      invariant queue == order[..tail] && old(order[..size]) <= queue
      invariant processed + {current} <= Elements(queue)
      invariant Sorting(g, nodes, queue, degree[..], processed, current, Elements(row[..j]))
    {
      SortingStep(g, nodes, queue, degree[..], processed, current, row, j);
      PrefixExtends(queue, row[j], processed + {current});
      queue := QueueAfter(queue, degree[..], row[j]);
      tail := RelaxEdge(row[j], forward, degree, order, tail);
      j := j + 1;
    }
    TakeAll(row);
  }

  /** What one processed stage adds to what `v` has seen, once all its edges are relaxed. */
  lemma SeenAdvance(g: seq<Edge>, v: Stage, processed: set<Stage>, current: Stage, row: seq<Stage>, next: Stage)
    requires forall u: Stage :: u in row <==> Edge(current, u) in g
    ensures Preds(g, v) * Seen(processed, current, v in Elements(row)) ==
            Preds(g, v) * Seen(processed + {current}, next, v in {})
  {
    assert current in Preds(g, v) ==> Edge(current, v) in g;
  }

  lemma SortingAdvance(g: seq<Edge>, nodes: set<Stage>, queue: seq<Stage>, degree: seq<nat>, head: nat,
                       row: seq<Stage>, next: Stage)
    requires head < |queue| && forall v: Stage :: v in row <==> Edge(queue[head], v) in g
    requires Sorting(g, nodes, queue, degree, Elements(queue[..head]), queue[head], Elements(row))
    ensures Sorting(g, nodes, queue, degree, Elements(queue[..head + 1]), next, {})
  {
    ElementsTake(queue, head);
    forall v | v in nodes && v !in queue
      ensures 0 < degree[v] == InDegree(g, v) - |Preds(g, v) * Seen(Elements(queue[..head + 1]), next, v in {})|
    {
      SeenAdvance(g, v, Elements(queue[..head]), queue[head], row, next);
    }
  }

  method Push(order: array<Stage>, tail: nat, next: Stage)
    requires tail < order.Length
    modifies order
    ensures order[..tail + 1] == old(order[..tail]) + [next]
  {
    order[tail] := next;
  }

  ghost predicate RootsBelow(queue: seq<Stage>, forward: seq<bool>, degree: seq<nat>, n: int)
    requires |forward| == |degree| == STAGE_COUNT
  {
    forall v: Stage :: v in queue <==> v < n && forward[v] && degree[v] == 0
  }

  lemma RootsStart(g: seq<Edge>, queue: seq<Stage>, forward: seq<bool>, degree: seq<nat>)
    requires |forward| == |degree| == STAGE_COUNT && queue == []
    ensures Released(g, queue) && RootsBelow(queue, forward, degree, 0)
  {
  }

  lemma RootSkip(queue: seq<Stage>, forward: seq<bool>, degree: seq<nat>, index: Stage)
    requires |forward| == |degree| == STAGE_COUNT && RootsBelow(queue, forward, degree, index)
    ensures !(forward[index] && degree[index] == 0) ==> RootsBelow(queue, forward, degree, index + 1)
  {
  }

  lemma RootStep(g: seq<Edge>, queue: seq<Stage>, forward: seq<bool>, degree: seq<nat>, index: Stage)
    requires |forward| == |degree| == STAGE_COUNT && RootsBelow(queue, forward, degree, index)
    requires Released(g, queue) && forward[index] && degree[index] == 0 == InDegree(g, index)
    ensures Released(g, queue + [index]) && |queue| < STAGE_COUNT
    ensures RootsBelow(queue + [index], forward, degree, index + 1)
  {
    ReleasedExtends(g, queue, index);
  }

  /** Stages no edge is counted for, in index order. */
  method SeedRoots(forward: seq<bool>, degree: seq<nat>, order: array<Stage>, ghost g: seq<Edge>)
    returns (tail: nat)
    requires |forward| == |degree| == order.Length == STAGE_COUNT
    requires forall v: Stage :: degree[v] == InDegree(g, v)
    modifies order
    ensures tail <= STAGE_COUNT && Released(g, order[..tail])
    ensures RootsBelow(order[..tail], forward, degree, STAGE_COUNT)
  {
    hide Released, RootsBelow, InDegree;
    tail := 0;
    var index: int := 0;
    ghost var queue: seq<Stage> := [];
    RootsStart(g, queue, forward, degree);
    while index < STAGE_COUNT
      invariant 0 <= tail <= index <= STAGE_COUNT
      invariant queue == order[..tail] && Released(g, queue)
      invariant RootsBelow(queue, forward, degree, index)
    {
      assert !(forward[index] && degree[index] == 0) ==> RootsBelow(queue, forward, degree, index + 1) by {
        RootSkip(queue, forward, degree, index);
      }
      if forward[index] && degree[index] == 0 {
        var root: Stage := index;
        RootStep(g, queue, forward, degree, root);
        Push(order, tail, root);
        tail := tail + 1;
        queue := queue + [root];
      }
      index := index + 1;
    }
  }

  lemma SortingStart(g: seq<Edge>, nodes: set<Stage>, queue: seq<Stage>, forward: seq<bool>, degree: seq<nat>,
                     current: Stage)
    requires |forward| == |degree| == STAGE_COUNT && forall v: Stage :: degree[v] == InDegree(g, v)
    requires Released(g, queue) && RootsBelow(queue, forward, degree, STAGE_COUNT)
    requires nodes == Marked(forward)
    ensures Sorting(g, nodes, queue, degree, {}, current, {})
  {
  }

  ghost predicate TableOf(g: seq<Edge>, adjacency: seq<seq<Stage>>) {
    && IsTable(adjacency)
    && (forall u: Stage, v: Stage :: v in adjacency[u] <==> Edge(u, v) in g)
    && (forall u: Stage :: Distinct(adjacency[u]))
  }

  lemma RowFacts(g: seq<Edge>, adjacency: seq<seq<Stage>>, forward: seq<bool>, u: Stage)
    requires TableOf(g, adjacency) && |forward| == STAGE_COUNT
    requires forall e :: e in g ==> forward[e.from] && forward[e.to]
    ensures Distinct(adjacency[u])
    ensures forall v: Stage :: v in adjacency[u] <==> Edge(u, v) in g
    ensures forall v: Stage :: v in adjacency[u] ==> v in Marked(forward) && forward[v]
  {
    forall v: Stage | v in adjacency[u] ensures forward[v] {
      assert forward[Edge(u, v).to];
    }
  }

  /** The first `head` stages of the queue are processed. */
  ghost predicate SortedTo(g: seq<Edge>, nodes: set<Stage>, queue: seq<Stage>, degree: seq<nat>, head: nat) {
    head <= |queue| && Sorting(g, nodes, queue, degree, Elements(queue[..head]), INVALID, {})
  }

  /** One turn of the sort: the stage at the head of the queue is processed. */
  method ProcessHead(g: seq<Edge>, row: seq<Stage>, forward: seq<bool>, degree: array<nat>,
                     order: array<Stage>, head: nat, size: nat, ghost nodes: set<Stage>, ghost queue: seq<Stage>)
    returns (tail: nat, ghost longer: seq<Stage>)
    requires |forward| == degree.Length == order.Length == STAGE_COUNT && head < size <= STAGE_COUNT
    requires Distinct(row) && forall v: Stage :: v in row <==> Edge(order[head], v) in g
    requires forall v :: v in row ==> v in nodes && forward[v]
    requires queue == order[..size] && SortedTo(g, nodes, queue, degree[..], head)
    requires degree as object != order
    modifies degree, order
    ensures head < tail <= STAGE_COUNT && longer == order[..tail]
    ensures SortedTo(g, nodes, longer, degree[..], head + 1)
  {
    hide Sorting;
    RetargetCurrent(g, nodes, queue, degree[..], Elements(queue[..head]), queue[head]);
    ElementsTake(queue, head);
    PrefixElements(queue, head + 1);
    tail := Relax(g, row, order[head], forward, degree, order, size, nodes, Elements(queue[..head]));
    longer := order[..tail];
    PrefixSlice(queue, longer, head);
    SortingAdvance(g, nodes, longer, degree[..], head, row, INVALID);
  }

  /** The number of stages the sort orders; the ghost result lists them. */
  method TopologicalCount(g: seq<Edge>, adjacency: seq<seq<Stage>>, forward: seq<bool>, degree: array<nat>)
    returns (ordered: nat, ghost queue: seq<Stage>)
    requires |adjacency| == |forward| == degree.Length == STAGE_COUNT && TableOf(g, adjacency)
    requires forall e :: e in g ==> forward[e.from] && forward[e.to]
    requires forall v: Stage :: degree[v] == InDegree(g, v)
    modifies degree
    ensures ordered == |queue|
    ensures Sorting(g, Marked(forward), queue, degree[..], Elements(queue), INVALID, {})
  {
    hide Sorting, Released, RootsBelow, Marked, TableOf, InDegree;
    var order := new Stage[STAGE_COUNT];
    var size := SeedRoots(forward, degree[..], order, g);
    SortingStart(g, Marked(forward), order[..size], forward, degree[..], INVALID);
    ordered := 0;
    queue := order[..size];
    assert Elements(queue[..0]) == {};
    while ordered < size
      invariant 0 <= ordered <= size <= STAGE_COUNT && queue == order[..size]
      invariant SortedTo(g, Marked(forward), queue, degree[..], ordered)
      decreases STAGE_COUNT - ordered
    {
      RowFacts(g, adjacency, forward, order[ordered]);
      size, queue := ProcessHead(g, adjacency[order[ordered]], forward, degree, order, ordered, size,
                                 Marked(forward), queue);
      ordered := ordered + 1;
    }
    TakeAll(queue);
  }

  lemma RetargetCurrent(g: seq<Edge>, nodes: set<Stage>, queue: seq<Stage>, degree: seq<nat>,
                        processed: set<Stage>, current: Stage)
    requires Sorting(g, nodes, queue, degree, processed, INVALID, {})
    ensures Sorting(g, nodes, queue, degree, processed, current, {}) && Distinct(queue)
  {
  }

  lemma PrefixElements(queue: seq<Stage>, n: nat)
    requires n <= |queue|
    ensures Elements(queue[..n]) <= Elements(queue)
  {
  }

  lemma PrefixSlice(before: seq<Stage>, after: seq<Stage>, head: nat)
    requires before <= after && head < |before|
    ensures before[..head] == after[..head] && before[head] == after[head]
  {
  }

  // ----- The verdict -----

  lemma {:induction false} SortCovers(g: seq<Edge>, nodes: set<Stage>, queue: seq<Stage>, degree: seq<nat>,
                                      order: seq<Stage>, n: nat)
    requires Sorting(g, nodes, queue, degree, Elements(queue), INVALID, {})
    requires ReleaseOrder(g, nodes, order) && n <= |order|
    ensures Elements(order[..n]) <= Elements(queue)
  {
    hide Sorting, ReleaseOrder;
    if n > 0 {
      SortCovers(g, nodes, queue, degree, order, n - 1);
      ElementsTake(order, n - 1);
      SortCoversNext(g, nodes, queue, degree, order, n - 1);
    }
  }

  /** A stage whose release predecessors were all processed was queued. */
  lemma SortCoversNext(g: seq<Edge>, nodes: set<Stage>, queue: seq<Stage>, degree: seq<nat>,
                       order: seq<Stage>, n: nat)
    requires Sorting(g, nodes, queue, degree, Elements(queue), INVALID, {})
    requires ReleaseOrder(g, nodes, order) && n < |order| && Elements(order[..n]) <= Elements(queue)
    ensures order[n] in Elements(queue)
  {
    var v := order[n];
    assert v in nodes by { assert v in Elements(order); }
    CardinalityMonotone(Preds(g, v) * Elements(order[..n]), Preds(g, v) * Elements(queue));
    hide Distinct;
    assert v !in queue ==> 0 < InDegree(g, v) - |Preds(g, v) * Seen(Elements(queue), INVALID, v in {})|;
  }

  lemma SubsetSameSize(a: set<Stage>, b: set<Stage>)
    requires a <= b && |a| == |b|
    ensures a == b
  {
    assert b == a + (b - a);
  }

  /** The sort orders every reachable stage exactly when a release order exists. */
  lemma SortVerdict(g: seq<Edge>, nodes: set<Stage>, queue: seq<Stage>, degree: seq<nat>)
    requires Sorting(g, nodes, queue, degree, Elements(queue), INVALID, {})
    ensures |queue| == |nodes| <==> exists order :: ReleaseOrder(g, nodes, order)
  {
    DistinctCardinality(queue);
    if |queue| == |nodes| {
      SubsetSameSize(Elements(queue), nodes);
      assert ReleaseOrder(g, nodes, queue);
    }
    if order :| ReleaseOrder(g, nodes, order) {
      SortCovers(g, nodes, queue, degree, order, |order|);
      TakeAll(order);
      assert Elements(queue) == nodes;
    }
  }

  lemma ConnectedByMarks(g: seq<Edge>, entry: Stage, adjacency: seq<seq<Stage>>, reverse: seq<seq<Stage>>,
                         forward: seq<bool>, backward: seq<bool>)
    requires TablesOf(g, adjacency, reverse) && |forward| == |backward| == STAGE_COUNT
    requires Marked(forward) == ReachableFrom(g, entry)
    requires forall s: Stage :: !IsTerminal(s) ==> (s in Marked(backward) <==> ReachesTerminal(g, s))
    ensures Connected(g, entry) <==>
            forall s: Stage :: StageOk(adjacency, reverse, forward, backward, s)
  {
    forall s: Stage
      ensures StageOk(adjacency, reverse, forward, backward, s) <==>
              (Appears(g, s) ==> Reaches(g, entry, s) && (IsTerminal(s) || ReachesTerminal(g, s)))
    {
      AppearsInTables(g, adjacency, reverse, s);
      assert forward[s] <==> s in Marked(forward);
      assert backward[s] <==> s in Marked(backward);
    }
  }

  lemma AppearsInTables(g: seq<Edge>, adjacency: seq<seq<Stage>>, reverse: seq<seq<Stage>>, s: Stage)
    requires TablesOf(g, adjacency, reverse)
    ensures Appears(g, s) <==> adjacency[s] != [] || reverse[s] != []
  {
    if e :| e in g && (e.from == s || e.to == s) {
      assert e.to in adjacency[e.from] && e.from in reverse[e.to];
    }
    if adjacency[s] != [] {
      assert Edge(s, adjacency[s][0]) in g;
    }
    if reverse[s] != [] {
      assert Edge(reverse[s][0], s) in g;
    }
  }

  predicate StageOk(adjacency: seq<seq<Stage>>, reverse: seq<seq<Stage>>, forward: seq<bool>, backward: seq<bool>,
                    s: Stage)
    requires |adjacency| == |reverse| == |forward| == |backward| == STAGE_COUNT
  {
    (adjacency[s] != [] || reverse[s] != []) ==> forward[s] && (backward[s] || IsTerminal(s))
  }

  method CheckStages(adjacency: seq<seq<Stage>>, reverse: seq<seq<Stage>>, forward: seq<bool>, backward: seq<bool>)
    returns (ok: bool)
    requires |adjacency| == |reverse| == |forward| == |backward| == STAGE_COUNT
    requires adjacency[INVALID] == reverse[INVALID] == []
    ensures ok <==> forall s: Stage :: StageOk(adjacency, reverse, forward, backward, s)
  {
    var raw: int := CANDIDATE;
    while raw <= RETIRED
      invariant CANDIDATE <= raw <= RETIRED + 1
      invariant forall s: Stage :: s < raw ==> StageOk(adjacency, reverse, forward, backward, s)
    {
      if !StageOk(adjacency, reverse, forward, backward, raw) {
        return false;
      }
      raw := raw + 1;
    }
    return true;
  }

  method CountMarked(forward: seq<bool>) returns (n: nat)
    requires |forward| == STAGE_COUNT
    ensures n == |Marked(forward)|
  {
    n := 0;
    var index: int := 0;
    while index < STAGE_COUNT
      invariant 0 <= index <= STAGE_COUNT
      invariant n == |set s | s in Marked(forward) && s < index|
    {
      if forward[index] {
        n := n + 1;
        assert (set s | s in Marked(forward) && s < index + 1) == (set s | s in Marked(forward) && s < index) + {index};
      } else {
        assert (set s | s in Marked(forward) && s < index + 1) == (set s | s in Marked(forward) && s < index);
      }
      index := index + 1;
    }
    assert (set s | s in Marked(forward) && s < STAGE_COUNT) == Marked(forward);
  }

  /** Sorts the reachable stages and compares the two counts. */
  method OrdersAll(g: seq<Edge>, adjacency: seq<seq<Stage>>, reverse: seq<seq<Stage>>, forward: array<bool>,
                   ghost nodes: set<Stage>)
    returns (ok: bool)
    requires TablesOf(g, adjacency, reverse) && forward.Length == STAGE_COUNT
    requires forall e :: e in g ==> forward[e.from] && forward[e.to]
    requires nodes == Marked(forward[..])
    ensures ok <==> exists order :: ReleaseOrder(g, nodes, order)
  {
    var degree := CountInDegrees(g, adjacency, forward);
    var reachable := CountMarked(forward[..]);
    var ordered: nat;
    ghost var queue: seq<Stage>;
    ordered, queue := TopologicalCount(g, adjacency, forward[..], degree);
    SortVerdict(g, Marked(forward[..]), queue, degree[..]);
    return ordered == reachable;
  }

  /** Accepts exactly the graphs described by Accepts. */
  method Validate(g: seq<Edge>, entry: Stage) returns (ok: bool)
    ensures ok <==> Accepts(g, entry)
  {
    if entry == INVALID || !WellFormed(g) {
      return false;
    }
    var adjacency, reverse := BuildTables(g);
    var forward := MarkForward(g, adjacency, entry);
    var backward := MarkBackward(g, adjacency, reverse);
    BackwardIsEscaping(g, reverse, Marked(backward[..]));
    ConnectedByMarks(g, entry, adjacency, reverse, forward[..], backward[..]);
    NoInvalidRows(g, adjacency, reverse);
    hide Marked, TablesOf, Closed, ReachableFrom, ReleaseOrder;
    var connected := CheckStages(adjacency, reverse, forward[..], backward[..]);
    if !connected {
      return false;
    }
    ConnectedMarksEdges(g, entry, forward[..]);
    var sorted := OrdersAll(g, adjacency, reverse, forward, ReachableFrom(g, entry));
    if !sorted {
      return false;
    }
    return exists e :: e in g && IsTerminal(e.to);
  }

  lemma NoInvalidRows(g: seq<Edge>, adjacency: seq<seq<Stage>>, reverse: seq<seq<Stage>>)
    requires WellFormed(g) && TablesOf(g, adjacency, reverse)
    ensures adjacency[INVALID] == reverse[INVALID] == []
  {
    if adjacency[INVALID] != [] || reverse[INVALID] != [] {
      AppearsInTables(g, adjacency, reverse, INVALID);
      assert false;
    }
  }

  lemma ConnectedMarksEdges(g: seq<Edge>, entry: Stage, forward: seq<bool>)
    requires Connected(g, entry) && |forward| == STAGE_COUNT && Marked(forward) == ReachableFrom(g, entry)
    ensures forall e :: e in g ==> forward[e.from] && forward[e.to]
  {
    forall e | e in g ensures forward[e.from] && forward[e.to] {
      assert Appears(g, e.from) && Appears(g, e.to);
      assert e.from in Marked(forward) && e.to in Marked(forward);
    }
  }

  // ----- What acceptance guarantees -----

  /** Every stage of an accepted graph is reachable from the entry, and every
      non-terminal one can reach revocation, supersession or retirement. */
  lemma AcceptedIsConnected(g: seq<Edge>, entry: Stage, s: Stage)
    requires Accepts(g, entry) && Appears(g, s)
    ensures Reaches(g, entry, s)
    ensures IsTerminal(s) || exists t: Stage :: IsTerminal(t) && Reaches(g, s, t)
  {
    assert IsTerminal(s) || ReachesTerminal(g, s);
  }

  /** In a release order, a stage that is not a successor of the holding stage comes
      after all its predecessors. */
  lemma PredecessorsFirst(g: seq<Edge>, nodes: set<Stage>, order: seq<Stage>, i: nat, u: Stage)
    requires ReleaseOrder(g, nodes, order) && i < |order|
    requires Edge(u, order[i]) in g && Edge(QUARANTINED, order[i]) !in g
    ensures u in order[..i]
  {
    var all, before := Preds(g, order[i]), Preds(g, order[i]) * Elements(order[..i]);
    assert Edge(u, order[i]).from in all;
    assert all - {QUARANTINED} == all;
    CardinalityMonotone(before, all);
    SubsetSameSize(before, all);
  }

  ghost function Position(order: seq<Stage>, s: Stage): (i: nat)
    requires s in order
    ensures i < |order| && order[i] == s
  {
    var i :| 0 <= i < |order| && order[i] == s;
    i
  }

  lemma CycleStageAppears(g: seq<Edge>, c: seq<Stage>, k: nat)
    requires IsCycle(g, c) && k < |c|
    ensures Appears(g, c[k])
  {
    if k < |c| - 1 {
      assert Edge(c[k], c[k + 1]) in g;
    } else {
      assert Edge(c[k - 1], c[k - 1 + 1]) in g;
    }
  }

  lemma {:induction false} PositionsDescend(g: seq<Edge>, nodes: set<Stage>, order: seq<Stage>, c: seq<Stage>, k: nat)
    requires ReleaseOrder(g, nodes, order) && IsPath(g, c) && k < |c|
    requires forall s :: s in c ==> s in order && s != QUARANTINED && Edge(QUARANTINED, s) !in g
    ensures k > 0 ==> Position(order, c[0]) < Position(order, c[k])
  {
    if k > 0 {
      PositionsDescend(g, nodes, order, c, k - 1);
      assert c[k] in order && c[k - 1] in order && Edge(c[k - 1], c[k - 1 + 1]) in g;
      PredecessorsFirst(g, nodes, order, Position(order, c[k]), c[k - 1]);
    }
  }

  /** Every cycle of an accepted graph contains the holding stage or a direct
      successor of it: the only loops are through a release. */
  lemma CyclesGoThroughRelease(g: seq<Edge>, entry: Stage, c: seq<Stage>)
    requires Accepts(g, entry) && IsCycle(g, c)
    ensures exists s :: s in c && (s == QUARANTINED || Edge(QUARANTINED, s) in g)
  {
    var order :| ReleaseOrder(g, ReachableFrom(g, entry), order);
    CycleIsOrdered(g, entry, order, c);
    hide ReleaseOrder, IsPath;
    if forall s :: s in c ==> s != QUARANTINED && Edge(QUARANTINED, s) !in g {
      PositionsDescend(g, ReachableFrom(g, entry), order, c, |c| - 1);
      assert false;
    }
  }

  lemma CycleIsOrdered(g: seq<Edge>, entry: Stage, order: seq<Stage>, c: seq<Stage>)
    requires Connected(g, entry) && Elements(order) == ReachableFrom(g, entry) && IsCycle(g, c)
    ensures forall s :: s in c ==> s in order
  {
    forall s | s in c ensures s in order {
      var k :| 0 <= k < |c| && c[k] == s;
      CycleStageAppears(g, c, k);
      assert s in Elements(order);
    }
  }

  // ----- The exact verdict when releases lead back to the entry -----

  /** The graph without the edges that leave the holding stage. */
  ghost function Spine(g: seq<Edge>): seq<Edge> {
    if g == [] then [] else (if g[0].from == QUARANTINED then [] else [g[0]]) + Spine(g[1..])
  }

  lemma {:induction false} SpineEdges(g: seq<Edge>, e: Edge)
    ensures e in Spine(g) <==> e in g && e.from != QUARANTINED
  {
    if g != [] {
      SpineEdges(g[1..], e);
      assert g == [g[0]] + g[1..];
    }
  }

  ghost predicate ReleasesToEntry(g: seq<Edge>, entry: Stage) {
    && entry != QUARANTINED
    && forall e :: e in g && e.from == QUARANTINED ==> e.to == entry
  }

  lemma SpinePath(g: seq<Edge>, p: seq<Stage>)
    ensures IsPath(Spine(g), p) <==> IsPath(g, p) && forall i :: 0 <= i < |p| - 1 ==> p[i] != QUARANTINED
  {
    forall i | 0 <= i < |p| - 1
      ensures Edge(p[i], p[i + 1]) in Spine(g) <==> Edge(p[i], p[i + 1]) in g && p[i] != QUARANTINED
    {
      SpineEdges(g, Edge(p[i], p[i + 1]));
    }
    if IsPath(Spine(g), p) {
      forall i | 0 <= i < |p| - 1 ensures p[i] != QUARANTINED {
        assert Edge(p[i], p[i + 1]) in Spine(g);
      }
    }
  }

  /** Under the release condition the order starts at the entry, which no spine edge enters. */
  lemma EntryComesFirst(g: seq<Edge>, entry: Stage, order: seq<Stage>, u: Stage)
    requires ReleasesToEntry(g, entry) && ReleaseOrder(g, ReachableFrom(g, entry), order)
    ensures Edge(u, entry) in g ==> u == QUARANTINED
  {
    ReachesRefl(g, entry);
    assert entry in Elements(order);
    var x := order[0];
    assert Elements(order[..0]) == {} && Preds(g, x) * Elements(order[..0]) == {};
    assert InDegree(g, x) == 0;
    assert forall w: Stage :: Edge(w, x) in g && w != QUARANTINED ==> Edge(w, x).from in Preds(g, x) - {QUARANTINED};
    assert x in Elements(order);
    var p :| IsPath(g, p) && p[0] == entry && p[|p| - 1] == x;
    if |p| > 1 {
      assert Edge(p[|p| - 2], p[|p| - 2 + 1]) in g;
    }
    assert x == entry;
  }

  /** Acceptance rules out every cycle that avoids the release edges. */
  lemma AcceptedSpineIsAcyclic(g: seq<Edge>, entry: Stage, c: seq<Stage>)
    requires Accepts(g, entry) && ReleasesToEntry(g, entry)
    ensures !IsCycle(Spine(g), c)
  {
    if IsCycle(Spine(g), c) {
      SpinePath(g, c);
      var order :| ReleaseOrder(g, ReachableFrom(g, entry), order);
      CycleIsOrdered(g, entry, order, c);
      forall s | s in c ensures s != QUARANTINED && Edge(QUARANTINED, s) !in g {
        SpineCycleStage(g, entry, order, c, s);
      }
      PositionsDescend(g, ReachableFrom(g, entry), order, c, |c| - 1);
      assert false;
    }
  }

  lemma SpineCycleStage(g: seq<Edge>, entry: Stage, order: seq<Stage>, c: seq<Stage>, s: Stage)
    requires ReleasesToEntry(g, entry) && ReleaseOrder(g, ReachableFrom(g, entry), order)
    requires IsCycle(Spine(g), c) && s in c
    ensures s != QUARANTINED && Edge(QUARANTINED, s) !in g
  {
    hide ReleaseOrder;
    var k :| 0 <= k < |c| && c[k] == s;
    var i := if k > 0 then k - 1 else |c| - 2;
    assert Edge(c[i], c[i + 1]) in Spine(g) && c[i + 1] == s;
    SpineEdges(g, Edge(c[i], s));
    EntryComesFirst(g, entry, order, c[i]);
    var o := if k < |c| - 1 then k else 0;
    assert Edge(c[o], c[o + 1]) in Spine(g) && c[o] == s;
    SpineEdges(g, Edge(s, c[o + 1]));
  }

  /** A walk backwards along spine edges that stays inside a set. */
  ghost predicate BackWalk(g: seq<Edge>, rest: set<Stage>, w: seq<Stage>) {
    && (forall i :: 0 <= i < |w| ==> w[i] in rest)
    && (forall i, j :: 0 <= i < |w| - 1 && j == i + 1 ==> Edge(w[j], w[i]) in Spine(g))
  }

  ghost predicate HasSpinePred(g: seq<Edge>, rest: set<Stage>, v: Stage) {
    exists u :: u in rest && Edge(u, v) in Spine(g)
  }

  lemma {:induction false} LongBackWalk(g: seq<Edge>, rest: set<Stage>, start: Stage, n: nat) returns (w: seq<Stage>)
    requires start in rest && forall v :: v in rest ==> HasSpinePred(g, rest, v)
    ensures BackWalk(g, rest, w) && |w| == n + 1
  {
    if n == 0 {
      w := [start];
    } else {
      hide HasSpinePred, Spine;
      w := LongBackWalk(g, rest, start, n - 1);
      w := ExtendBackWalk(g, rest, w);
    }
  }

  lemma ExtendBackWalk(g: seq<Edge>, rest: set<Stage>, w: seq<Stage>) returns (w': seq<Stage>)
    requires BackWalk(g, rest, w) && w != [] && HasSpinePred(g, rest, w[|w| - 1])
    ensures BackWalk(g, rest, w') && |w'| == |w| + 1
  {
    hide Spine;
    var u: Stage :| u in rest && Edge(u, w[|w| - 1]) in Spine(g);
    w' := w + [u];
  }

  lemma BackWalkCycle(g: seq<Edge>, rest: set<Stage>, w: seq<Stage>, i: nat, j: nat) returns (c: seq<Stage>)
    requires BackWalk(g, rest, w) && i < j < |w| && w[i] == w[j]
    ensures IsCycle(Spine(g), c)
  {
    c := seq(j - i + 1, k requires 0 <= k <= j - i => w[j - k]);
    forall k | 0 <= k < |c| - 1 ensures Edge(c[k], c[k + 1]) in Spine(g) {
      assert Edge(w[j - k], w[j - k - 1]) in Spine(g);
    }
  }

  /** In an acyclic spine some stage outside the queue has all its spine predecessors queued. */
  lemma NextRelease(g: seq<Edge>, rest: set<Stage>) returns (v: Stage)
    requires Acyclic(Spine(g)) && rest != {}
    ensures v in rest && !HasSpinePred(g, rest, v)
  {
    if v' :| v' in rest && !HasSpinePred(g, rest, v') {
      v := v';
    } else {
      var start: Stage :| start in rest;
      var w := LongBackWalk(g, rest, start, STAGE_COUNT);
      if Distinct(w) {
        QueueBound(w);
      } else {
        var i, j :| 0 <= i < j < |w| && w[i] == w[j];
        var c := BackWalkCycle(g, rest, w, i, j);
      }
      v := start;
      assert false;
    }
  }

  lemma ReleaseFromSpine(g: seq<Edge>, nodes: set<Stage>, queue: seq<Stage>, v: Stage)
    requires Released(g, queue) && forall e :: e in g ==> e.from in nodes
    requires v in nodes - Elements(queue) && !HasSpinePred(g, nodes - Elements(queue), v)
    ensures Released(g, queue + [v])
  {
    forall u | u in Preds(g, v) - {QUARANTINED} ensures u in Elements(queue) {
      SpineEdges(g, Edge(u, v));
    }
    CardinalityMonotone(Preds(g, v) - {QUARANTINED}, Preds(g, v) * Elements(queue));
    ReleasedExtends(g, queue, v);
  }

  lemma ReleasedIsOrder(g: seq<Edge>, nodes: set<Stage>, queue: seq<Stage>)
    requires Released(g, queue) && Elements(queue) <= nodes && nodes - Elements(queue) == {}
    ensures ReleaseOrder(g, nodes, queue)
  {
    assert forall x :: x in nodes && x !in Elements(queue) ==> x in nodes - Elements(queue);
  }

  lemma RestShrinks(nodes: set<Stage>, queue: seq<Stage>, v: Stage)
    requires v in nodes - Elements(queue)
    ensures |nodes - Elements(queue + [v])| < |nodes - Elements(queue)|
    ensures Elements(queue) <= nodes ==> Elements(queue + [v]) <= nodes
  {
    ElementsAppend(queue, [v]);
    assert nodes - Elements(queue + [v]) == (nodes - Elements(queue)) - {v};
  }

  lemma {:induction false} CompleteOrder(g: seq<Edge>, nodes: set<Stage>, queue: seq<Stage>) returns (order: seq<Stage>)
    requires Acyclic(Spine(g)) && forall e :: e in g ==> e.from in nodes
    requires Released(g, queue) && Elements(queue) <= nodes
    ensures ReleaseOrder(g, nodes, order)
    decreases |nodes - Elements(queue)|
  {
    hide Released, ReleaseOrder, Acyclic, HasSpinePred;
    var rest := nodes - Elements(queue);
    if rest == {} {
      order := queue;
      ReleasedIsOrder(g, nodes, queue);
    } else {
      var v := NextRelease(g, rest);
      ReleaseFromSpine(g, nodes, queue, v);
      RestShrinks(nodes, queue, v);
      order := CompleteOrder(g, nodes, queue + [v]);
    }
  }

  lemma ConnectedHasExit(g: seq<Edge>, entry: Stage)
    requires Connected(g, entry) && g != []
    ensures exists e :: e in g && IsTerminal(e.to)
  {
    var e := g[0];
    if !IsTerminal(e.to) {
      assert Appears(g, e.to);
      var t: Stage :| IsTerminal(t) && Reaches(g, e.to, t);
      var p :| IsPath(g, p) && p[0] == e.to && p[|p| - 1] == t;
      assert Edge(p[|p| - 2], p[|p| - 2 + 1]) in g;
    }
  }

  /** When the holding stage is not the entry and its edges lead only there, the
      validator accepts a well-formed graph exactly when it is connected and the
      graph without the release edges has no cycle. */
  lemma ExactVerdict(g: seq<Edge>, entry: Stage)
    requires entry != INVALID && WellFormed(g) && ReleasesToEntry(g, entry)
    ensures Accepts(g, entry) <==> Connected(g, entry) && Acyclic(Spine(g))
  {
    if Accepts(g, entry) {
      forall c ensures !IsCycle(Spine(g), c) {
        AcceptedSpineIsAcyclic(g, entry, c);
      }
    }
    if Connected(g, entry) && Acyclic(Spine(g)) {
      AcyclicIsAccepted(g, entry);
    }
  }

  /** Every connected graph with an acyclic spine is accepted, wherever its releases lead. */
  lemma AcyclicIsAccepted(g: seq<Edge>, entry: Stage)
    requires entry != INVALID && WellFormed(g) && Connected(g, entry) && Acyclic(Spine(g))
    ensures Accepts(g, entry)
  {
    ConnectedHasExit(g, entry);
    forall e | e in g ensures e.from in ReachableFrom(g, entry) {
      assert Appears(g, e.from);
    }
    var order := CompleteOrder(g, ReachableFrom(g, entry), []);
  }

  // ----- The reference lifecycle, and a graph the header comment does not foresee -----

  const EARLY_EDGES: seq<Edge> := [
    Edge(CANDIDATE, VERIFIED), Edge(CANDIDATE, QUARANTINED),
    Edge(VERIFIED, QUALIFIED), Edge(VERIFIED, QUARANTINED),
    Edge(QUALIFIED, STAGED), Edge(QUALIFIED, QUARANTINED)]
  const LATE_EDGES: seq<Edge> := [
    Edge(STAGED, APPROVED), Edge(STAGED, QUARANTINED), Edge(STAGED, REVOKED), Edge(STAGED, SUPERSEDED),
    Edge(APPROVED, PROMOTED), Edge(APPROVED, QUARANTINED), Edge(APPROVED, REVOKED), Edge(APPROVED, SUPERSEDED)]
  const FINAL_EDGES: seq<Edge> := [
    Edge(PROMOTED, QUARANTINED), Edge(PROMOTED, REVOKED), Edge(PROMOTED, SUPERSEDED), Edge(PROMOTED, RETIRED),
    Edge(QUARANTINED, CANDIDATE), Edge(REVOKED, RETIRED), Edge(SUPERSEDED, RETIRED)]

  /** The reference graph in canonical order. */
  const REFERENCE_EDGES: seq<Edge> := EARLY_EDGES + LATE_EDGES + FINAL_EDGES

  lemma CanonicalJoin(a: seq<Edge>, b: seq<Edge>)
    requires IsCanonical(a) && IsCanonical(b) && a != [] && b != [] && Precedes(a[|a| - 1], b[0])
    ensures IsCanonical(a + b)
  {
    var g := a + b;
    forall i | 0 <= i < |g| - 1 ensures !Precedes(g[i + 1], g[i]) && g[i] != g[i + 1] {
      if i >= |a| {
        assert g[i] == b[i - |a|] && g[i + 1] == b[(i - |a|) + 1];
      }
    }
  }

  lemma {:induction false} IncreasingPath(g: seq<Edge>, p: seq<Stage>)
    requires IsPath(g, p) && forall e :: e in g ==> e.from < e.to
    ensures |p| > 1 ==> p[0] < p[|p| - 1]
  {
    if |p| > 1 {
      PathTail(g, p);
      IncreasingPath(g, p[1..]);
      assert Edge(p[0], p[0 + 1]) in g;
    }
  }

  /** A stage on a path out of the entry that ends in retirement. */
  lemma OnLivePath(g: seq<Edge>, p: seq<Stage>, k: nat)
    requires IsPath(g, p) && k < |p| && p[|p| - 1] == RETIRED
    ensures Reaches(g, p[0], p[k]) && ReachesTerminal(g, p[k])
  {
    var a, b := p[..k + 1], p[k..];
    forall i | 0 <= i < |b| - 1 ensures Edge(b[i], b[i + 1]) in g {
      assert Edge(p[k + i], p[k + i + 1]) in g;
    }
    assert IsPath(g, a) && IsPath(g, b) && b[|b| - 1] == RETIRED;
    assert IsTerminal(RETIRED) && Reaches(g, p[k], RETIRED);
  }

  lemma ReferenceIsWellFormed()
    ensures WellFormed(REFERENCE_EDGES)
  {
    hide IsCanonical;
    RowsAreCanonical();
    CanonicalJoin(EARLY_EDGES, LATE_EDGES);
    CanonicalJoin(EARLY_EDGES + LATE_EDGES, FINAL_EDGES);
  }

  lemma RowsAreCanonical()
    ensures IsCanonical(EARLY_EDGES) && IsCanonical(LATE_EDGES) && IsCanonical(FINAL_EDGES)
  {
  }

  const MAIN_PATH: seq<Stage> :=
    [CANDIDATE, VERIFIED, QUALIFIED, STAGED, APPROVED, PROMOTED, SUPERSEDED, RETIRED]
  const HELD_PATH: seq<Stage> := [CANDIDATE, QUARANTINED, CANDIDATE, VERIFIED, QUALIFIED, STAGED, REVOKED, RETIRED]

  lemma ReferencePaths()
    ensures IsPath(REFERENCE_EDGES, MAIN_PATH) && IsPath(REFERENCE_EDGES, HELD_PATH)
  {
    var g := REFERENCE_EDGES;
    assert g[0] == Edge(CANDIDATE, VERIFIED) && g[2] == Edge(VERIFIED, QUALIFIED) && g[4] == Edge(QUALIFIED, STAGED);
    assert g[6] == Edge(STAGED, APPROVED) && g[10] == Edge(APPROVED, PROMOTED) && g[16] == Edge(PROMOTED, SUPERSEDED);
    assert g[20] == Edge(SUPERSEDED, RETIRED) && g[8] == Edge(STAGED, REVOKED) && g[19] == Edge(REVOKED, RETIRED);
    assert g[1] == Edge(CANDIDATE, QUARANTINED) && g[18] == Edge(QUARANTINED, CANDIDATE);
  }

  lemma ReferenceIsConnected()
    ensures Connected(REFERENCE_EDGES, CANDIDATE)
  {
    hide IsPath;
    ReferencePaths();
    forall s: Stage | Appears(REFERENCE_EDGES, s)
      ensures Reaches(REFERENCE_EDGES, CANDIDATE, s) && (IsTerminal(s) || ReachesTerminal(REFERENCE_EDGES, s))
    {
      ReferenceStage(s);
    }
  }

  lemma ReferenceStage(s: Stage)
    requires Appears(REFERENCE_EDGES, s)
    ensures Reaches(REFERENCE_EDGES, CANDIDATE, s) && ReachesTerminal(REFERENCE_EDGES, s)
  {
    hide IsPath, Reaches, ReachesTerminal;
    ReferencePaths();
    if s == QUARANTINED {
      OnLivePath(REFERENCE_EDGES, HELD_PATH, 1);
    } else if s == REVOKED {
      OnLivePath(REFERENCE_EDGES, HELD_PATH, 6);
    } else if s == RETIRED {
      OnLivePath(REFERENCE_EDGES, MAIN_PATH, 7);
    } else if s == SUPERSEDED {
      OnLivePath(REFERENCE_EDGES, MAIN_PATH, 6);
    } else {
      ReferenceIsWellFormed();
      assert MAIN_PATH[s - 1] == s;
      OnLivePath(REFERENCE_EDGES, MAIN_PATH, s - 1);
    }
  }

  lemma ReferenceSpineClimbs(e: Edge)
    requires e in Spine(REFERENCE_EDGES)
    ensures e.from < e.to
  {
    SpineEdges(REFERENCE_EDGES, e);
    hide Spine;
  }

  /** The lifecycle used when no policy supplies one validates. */
  lemma ReferenceIsAccepted()
    ensures Accepts(REFERENCE_EDGES, CANDIDATE)
  {
    hide Spine, WellFormed, Connected, Accepts;
    ReferenceIsWellFormed();
    ReferenceIsConnected();
    forall c ensures !IsCycle(Spine(REFERENCE_EDGES), c) {
      if IsCycle(Spine(REFERENCE_EDGES), c) {
        forall e | e in Spine(REFERENCE_EDGES) ensures e.from < e.to {
          ReferenceSpineClimbs(e);
        }
        IncreasingPath(Spine(REFERENCE_EDGES), c);
        assert false;
      }
    }
    AcyclicIsAccepted(REFERENCE_EDGES, CANDIDATE);
  }

  // ----- When the documented promise holds -----

  /** The header promises an acyclic promotion spine: no cycle but the return from the holding stage. */
  ghost predicate SpineKept(entry: Stage, target: Stage) {
    forall g :: Accepts(g, entry) && ReleasesOnlyTo(g, target) ==> Acyclic(Spine(g))
  }

  ghost predicate ReleasesOnlyTo(g: seq<Edge>, target: Stage) {
    forall e :: e in g && e.from == QUARANTINED ==> e.to == target
  }

  /** From the entry to the holding stage and on to its target, which loops with `end`. */
  datatype Loop = Loop(entry: Stage, target: Stage, end: Stage) {
    predicate Valid() {
      && entry != INVALID && target != INVALID && target != QUARANTINED && target != entry
      && IsTerminal(end) && end != entry && end != target
    }

    predicate Has(s: Stage) { s == entry || s == QUARANTINED || s == target || s == end }

    function Next(s: Stage): Stage {
      if s == QUARANTINED || s == end then target else if s == target then end else QUARANTINED
    }

    /** The edges that leave stages below `k`, in order. */
    function Edges(k: nat): seq<Edge>
      requires k <= STAGE_COUNT
    {
      if k == 0 then []
      else
        var s: Stage := k - 1;
        Edges(k - 1) + (if Has(s) then [Edge(s, Next(s))] else [])
    }

    function Order(): seq<Stage> {
      (if entry == QUARANTINED then [] else [entry]) + [QUARANTINED, target, end]
    }

    lemma {:induction false} EdgesAre(k: nat)
      requires k <= STAGE_COUNT
      ensures forall e :: e in Edges(k) <==> e.from < k && Has(e.from) && e.to == Next(e.from)
      ensures |Edges(k)| <= k && forall i, j :: 0 <= i < j < |Edges(k)| ==> Edges(k)[i].from < Edges(k)[j].from
    {
      if k > 0 {
        EdgesAre(k - 1);
        var low := Edges(k - 1);
        assert forall i :: 0 <= i < |low| ==> low[i] in low;
      }
    }

    ghost function Graph(): seq<Edge> { Edges(STAGE_COUNT) }

    lemma IsWellFormed()
      requires Valid()
      ensures WellFormed(Graph()) && ReleasesOnlyTo(Graph(), target)
      ensures forall e :: e in Graph() <==> Has(e.from) && e.to == Next(e.from)
    {
      hide Has, Next, Edges;
      EdgesAre(STAGE_COUNT);
      assert Edge(QUARANTINED, Next(QUARANTINED)) in Graph() by { StartsAtHolding(); }
      Steps();
    }

    lemma StartsAtHolding()
      ensures Has(QUARANTINED) && Has(target) && Has(end) && Has(entry)
    {
    }

    lemma Steps()
      requires Valid()
      ensures forall s :: Has(s) ==> s != INVALID && Next(s) != INVALID && Next(s) != s && Has(Next(s))
      ensures Next(QUARANTINED) == target && Next(target) == end && Next(end) == target
      ensures entry != QUARANTINED ==> Next(entry) == QUARANTINED
    {
    }

    lemma ReachableAre()
      requires Valid()
      ensures forall s: Stage :: Reaches(Graph(), entry, s) <==> Has(s)
      ensures forall s: Stage :: Has(s) ==> Reaches(Graph(), s, end)
    {
      var g := Graph();
      hide Has, Next, Edges, Graph;
      IsWellFormed();
      StartsAtHolding();
      Steps();
      ReachesRefl(g, entry);
      ReachesRefl(g, end);
      ReachesBefore(g, target, end, end);
      ReachesBefore(g, QUARANTINED, target, end);
      if entry != QUARANTINED {
        ReachesStep(g, entry, entry, QUARANTINED);
        ReachesBefore(g, entry, QUARANTINED, end);
      }
      ReachesStep(g, entry, QUARANTINED, target);
      ReachesStep(g, entry, target, end);
      forall s: Stage | Reaches(g, entry, s) ensures Has(s) {
        var p :| IsPath(g, p) && p[0] == entry && p[|p| - 1] == s;
        if |p| > 1 {
          assert Edge(p[|p| - 2], p[|p| - 2 + 1]) in g;
        }
      }
      forall s: Stage | Has(s) ensures Reaches(g, entry, s) && Reaches(g, s, end) {
        OnlyFour(s);
      }
    }

    lemma OnlyFour(s: Stage)
      ensures Has(s) <==> s == entry || s == QUARANTINED || s == target || s == end
    {
    }

    lemma PredsAre(v: Stage)
      requires Valid()
      ensures Preds(Graph(), v) ==
              if v == target then {QUARANTINED, end} else if v == end then {target}
              else if v == QUARANTINED && entry != QUARANTINED then {entry} else {}
    {
      var g := Graph();
      hide Edges, Graph;
      IsWellFormed();
      assert forall u: Stage :: u in Preds(g, v) <==> Edge(u, v) in g;
    }

    lemma OrderIsRight()
      requires Valid()
      ensures Distinct(Order()) && Elements(Order()) == ReachableFrom(Graph(), entry)
    {
      hide Graph, Edges, Reaches;
      ReachableAre();
    }

    /** Each stage of the order has at most one counted predecessor, and the one before it is one. */
    lemma Releases(i: nat)
      requires Valid() && i < |Order()|
      ensures InDegree(Graph(), Order()[i]) <= |Preds(Graph(), Order()[i]) * Elements(Order()[..i])|
    {
      hide Graph, Edges, Preds;
      var q := Order();
      PredsAre(q[i]);
      if i == 0 {
        assert Preds(Graph(), q[0]) - {QUARANTINED} == {};
      } else {
        ElementsTake(q, i - 1);
        assert q[i - 1] in Preds(Graph(), q[i]);
        CardinalityMonotone({q[i - 1]}, Preds(Graph(), q[i]) * Elements(q[..i]));
        assert Preds(Graph(), q[i]) - {QUARANTINED} <= {if q[i] == target then end else q[i - 1]};
        CardinalityMonotone(Preds(Graph(), q[i]) - {QUARANTINED}, {if q[i] == target then end else q[i - 1]});
      }
    }

    lemma IsAccepted()
      requires Valid()
      ensures Accepts(Graph(), entry) && ReleasesOnlyTo(Graph(), target)
    {
      var g := Graph();
      hide Graph, Edges, Order, Reaches, InDegree, Elements, Distinct, ReachableFrom, Has, Next;
      IsWellFormed();
      StartsAtHolding();
      Steps();
      ReachableAre();
      OrderIsRight();
      forall i | 0 <= i < |Order()| ensures InDegree(g, Order()[i]) <= |Preds(g, Order()[i]) * Elements(Order()[..i])| {
        Releases(i);
      }
      assert ReleaseOrder(g, ReachableFrom(g, entry), Order());
      assert Edge(target, end) in g;
    }

    lemma HasSpineCycle()
      requires Valid()
      ensures IsCycle(Spine(Graph()), [target, end, target])
    {
      hide Graph, Edges;
      IsWellFormed();
      SpineEdges(Graph(), Edge(target, end));
      SpineEdges(Graph(), Edge(end, target));
    }
  }

  /** The promise is kept by every accepted graph whose releases lead to one stage exactly
      when that stage is the entry; anywhere else some accepted graph has a further cycle. */
  lemma SpineKeptExactly(entry: Stage, target: Stage)
    requires entry != INVALID && target != INVALID && target != QUARANTINED
    ensures SpineKept(entry, target) <==> target == entry
  {
    hide Accepts;
    if target == entry {
      forall g, c | Accepts(g, entry) && ReleasesOnlyTo(g, target) ensures !IsCycle(Spine(g), c) {
        AcceptedSpineIsAcyclic(g, entry, c);
      }
    } else {
      var end: Stage := if REVOKED != entry && REVOKED != target then REVOKED
                        else if SUPERSEDED != entry && SUPERSEDED != target then SUPERSEDED else RETIRED;
      var loop := Loop(entry, target, end);
      loop.IsAccepted();
      loop.HasSpineCycle();
      assert !Acyclic(Spine(loop.Graph()));
    }
  }
}
