/** Accepted graphs made to order. */
module Graphs {
  import opened Lifecycle

  // ----- The canonical list of a set of edges -----

  function Code(e: Edge): nat { e.from * STAGE_COUNT + e.to }

  function EdgeAt(k: nat): Edge
    requires k < STAGE_COUNT * STAGE_COUNT
  {
    Edge(k / STAGE_COUNT, k % STAGE_COUNT)
  }

  lemma CodeOfEdgeAt(k: nat)
    requires k < STAGE_COUNT * STAGE_COUNT
    ensures Code(EdgeAt(k)) == k
  {
  }

  lemma EdgeAtCode(e: Edge)
    ensures Code(e) < STAGE_COUNT * STAGE_COUNT && EdgeAt(Code(e)) == e
  {
  }

  /** The edges of a set with codes below `k`, in order. */
  function Below(edges: set<Edge>, k: nat): seq<Edge>
    requires k <= STAGE_COUNT * STAGE_COUNT
  {
    if k == 0 then []
    else Below(edges, k - 1) + (if EdgeAt(k - 1) in edges then [EdgeAt(k - 1)] else [])
  }

  lemma {:induction false} BelowIs(edges: set<Edge>, k: nat)
    requires k <= STAGE_COUNT * STAGE_COUNT
    ensures forall e :: e in Below(edges, k) <==> e in edges && Code(e) < k
    ensures forall i, j :: 0 <= i < j < |Below(edges, k)| ==> Code(Below(edges, k)[i]) < Code(Below(edges, k)[j])
    ensures |Below(edges, k)| <= k
  {
    hide Code, EdgeAt;
    if k > 0 {
      BelowIs(edges, k - 1);
      CodeOfEdgeAt(k - 1);
      forall e | e in edges && Code(e) < k ensures Code(e) < k - 1 || e == EdgeAt(k - 1) {
        EdgeAtCode(e);
      }
      var low := Below(edges, k - 1);
      assert forall i :: 0 <= i < |low| ==> low[i] in low;
    }
  }

  /** Distinct members of a set are no more than the set has. */
  lemma {:induction false} DistinctBound(edges: set<Edge>, g: seq<Edge>)
    requires forall e :: e in g ==> e in edges
    requires forall i, j :: 0 <= i < j < |g| ==> g[i] != g[j]
    ensures |g| <= |edges|
  {
    if g != [] {
      DistinctBound(edges - {g[0]}, g[1..]);
    }
  }

  function Listed(edges: set<Edge>): seq<Edge> { Below(edges, STAGE_COUNT * STAGE_COUNT) }

  lemma ListedIsWellFormed(edges: set<Edge>)
    requires 0 < |edges| <= MAX_EDGES
    requires forall e :: e in edges ==> e.from != INVALID && e.to != INVALID && e.from != e.to
    ensures WellFormed(Listed(edges)) && forall e :: e in Listed(edges) <==> e in edges
  {
    var g := Listed(edges);
    hide Below;
    BelowIs(edges, STAGE_COUNT * STAGE_COUNT);
    forall e | e in edges ensures e in g {
      EdgeAtCode(e);
    }
    DistinctBound(edges, g);
    var e :| e in edges;
    assert e in g;
  }

  // ----- Graphs with a ranking -----

  lemma {:induction false} RankGrows(g: seq<Edge>, rank: Stage -> nat, p: seq<Stage>, k: nat)
    requires forall e :: e in g ==> rank(e.from) < rank(e.to)
    requires IsPath(g, p) && k < |p|
    ensures k > 0 ==> rank(p[0]) < rank(p[k])
  {
    if k > 0 {
      RankGrows(g, rank, p, k - 1);
      assert Edge(p[k - 1], p[k - 1 + 1]) in g;
    }
  }

  lemma RankedIsAcyclic(g: seq<Edge>, rank: Stage -> nat)
    requires forall e :: e in g ==> rank(e.from) < rank(e.to)
    ensures Acyclic(Spine(g))
  {
    forall c ensures !IsCycle(Spine(g), c) {
      if IsCycle(Spine(g), c) {
        forall e | e in Spine(g) ensures rank(e.from) < rank(e.to) {
          SpineEdges(g, e);
        }
        RankGrows(Spine(g), rank, c, |c| - 1);
      }
    }
  }

  // ----- Three stages and an exit -----

  /** From the entry to the middle and to the top, from the middle to the top, and on to an end of
      life if the top is none. */
  datatype Ladder = Ladder(entry: Stage, middle: Stage, top: Stage) {
    predicate Valid() {
      && entry != INVALID && middle != INVALID && top != INVALID
      && entry != middle && entry != top && middle != top && !IsTerminal(middle)
    }

    function End(): Stage { if entry == RETIRED then REVOKED else RETIRED }

    function Edges(): set<Edge> {
      {Edge(entry, middle), Edge(entry, top), Edge(middle, top)} + (if IsTerminal(top) then {} else {Edge(top, End())})
    }

    function Graph(): seq<Edge> { Listed(Edges()) }

    function Rank(s: Stage): nat { if s == entry then 0 else if s == middle then 1 else if s == top then 2 else 3 }

    lemma IsWellFormed()
      requires Valid()
      ensures WellFormed(Graph()) && forall e :: e in Graph() <==> e in Edges()
    {
      var three := {Edge(entry, middle), Edge(entry, top), Edge(middle, top)};
      assert Edge(entry, middle) in Edges();
      assert |three| <= 3;
      assert |Edges()| <= 4;
      ListedIsWellFormed(Edges());
    }

    lemma ReachesAll(s: Stage)
      requires Valid() && Appears(Graph(), s)
      ensures Reaches(Graph(), entry, s) && (IsTerminal(s) || ReachesTerminal(Graph(), s))
    {
      var g := Graph();
      hide Graph;
      IsWellFormed();
      ReachesRefl(g, entry);
      ReachesStep(g, entry, entry, middle);
      ReachesStep(g, entry, entry, top);
      ReachesRefl(g, top);
      if !IsTerminal(top) {
        ReachesStep(g, entry, top, End());
        ReachesStep(g, top, top, End());
        ReachesBefore(g, middle, top, End());
        ReachesBefore(g, entry, top, End());
      } else {
        ReachesBefore(g, middle, top, top);
        ReachesBefore(g, entry, top, top);
      }
    }

    lemma IsConnected()
      requires Valid()
      ensures Connected(Graph(), entry)
    {
      hide Graph, Reaches;
      forall s: Stage | Appears(Graph(), s)
        ensures Reaches(Graph(), entry, s) && (IsTerminal(s) || ReachesTerminal(Graph(), s))
      {
        ReachesAll(s);
      }
    }

    lemma IsAccepted()
      requires Valid()
      ensures Accepts(Graph(), entry)
    {
      hide Graph, Connected, Acyclic, Spine;
      IsWellFormed();
      IsConnected();
      RankedIsAcyclic(Graph(), s => Rank(s));
      AcyclicIsAccepted(Graph(), entry);
    }
  }
}
