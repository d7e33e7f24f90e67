/** The needs relation of a pipeline as a directed graph: walks, cycles and ranks.
    A node points at the nodes it needs; a node that is not a key needs nothing. */
module NeedsGraph {

  type Graph = map<string, seq<string>>

  function Needs(g: Graph, n: string): seq<string> {
    if n in g then g[n] else []
  }

  ghost predicate Edge(g: Graph, a: string, b: string) {
    b in Needs(g, a)
  }

  /** Every key together with everything a key needs. */
  ghost function Nodes(g: Graph): set<string> {
    g.Keys + (set n, m | n in g.Keys && m in g[n] :: m)
  }

  /** A nonempty sequence of nodes in which each one needs the next. */
  ghost predicate Walk(g: Graph, p: seq<string>) {
    p != [] && (|p| > 1 ==> Edge(g, p[0], p[1]) && Walk(g, p[1..]))
  }

  ghost predicate WalkBetween(g: Graph, p: seq<string>, a: string, b: string) {
    Walk(g, p) && p[0] == a && p[|p| - 1] == b
  }

  ghost predicate OnCycle(g: Graph, n: string) {
    exists p :: WalkBetween(g, p, n, n) && 2 <= |p|
  }

  ghost predicate Acyclic(g: Graph) {
    forall n :: !OnCycle(g, n)
  }

  /** a is reached from n along one or more needs. */
  ghost predicate Ancestor(g: Graph, n: string, a: string) {
    exists p :: WalkBetween(g, p, n, a) && 2 <= |p|
  }

  /** Numbers the nodes so that each need has a smaller number than the node that needs it. */
  ghost predicate IsRank(g: Graph, rank: map<string, nat>) {
    && Nodes(g) <= rank.Keys
    && forall n, m :: n in g && m in g[n] ==> rank[m] < rank[n]
  }

  lemma NeedIsNode(g: Graph, n: string, m: string)
    requires Edge(g, n, m)
    ensures n in g && n in Nodes(g) && m in Nodes(g)
  {
  }

  lemma {:induction false} WalkSnoc(g: Graph, p: seq<string>, m: string)
    requires Walk(g, p) && Edge(g, p[|p| - 1], m)
    ensures Walk(g, p + [m])
  {
    if |p| > 1 {
      WalkSnoc(g, p[1..], m);
      assert (p + [m])[1..] == p[1..] + [m];
    } else {
      assert (p + [m])[1..] == [m];
    }
  }

  lemma {:induction false} WalkSuffix(g: Graph, p: seq<string>, i: nat)
    requires Walk(g, p) && i < |p|
    ensures Walk(g, p[i..])
  {
    if i > 0 {
      WalkSuffix(g, p[1..], i - 1);
      assert p[1..][i - 1..] == p[i..];
    } else {
      assert p[0..] == p;
    }
  }

  lemma {:induction false} WalkPrefix(g: Graph, p: seq<string>, j: nat)
    requires Walk(g, p) && 0 < j <= |p|
    ensures Walk(g, p[..j])
  {
    if j > 1 {
      WalkPrefix(g, p[1..], j - 1);
      assert p[..j][1..] == p[1..][..j - 1];
    }
  }

  /** Numbers strictly fall along a walk. */
  lemma {:induction false} RankFallsAlongWalk(g: Graph, rank: map<string, nat>, p: seq<string>)
    requires IsRank(g, rank) && Walk(g, p) && 2 <= |p|
    ensures p[0] in rank && p[|p| - 1] in rank && rank[p[|p| - 1]] < rank[p[0]]
    decreases |p|
  {
    if |p| > 2 {
      RankFallsAlongWalk(g, rank, p[1..]);
    }
  }

  /** A graph that can be numbered has no cycle. */
  lemma RankImpliesAcyclic(g: Graph, rank: map<string, nat>)
    requires IsRank(g, rank)
    ensures Acyclic(g)
  {
    forall n ensures !OnCycle(g, n) {
      if OnCycle(g, n) {
        var p :| WalkBetween(g, p, n, n) && 2 <= |p|;
        RankFallsAlongWalk(g, rank, p);
      }
    }
  }

  ghost predicate NeedsWithin(g: Graph, s: set<string>, n: string) {
    exists m :: m in s && Edge(g, n, m)
  }

  /** Every element of s has a need inside s. */
  ghost predicate Trapped(g: Graph, s: set<string>) {
    forall n {:trigger NeedsWithin(g, s, n)} :: n in s ==> NeedsWithin(g, s, n)
  }

  lemma {:induction false} LongWalkInside(g: Graph, s: set<string>, start: string, k: nat) returns (p: seq<string>)
    requires Trapped(g, s) && start in s
    ensures Walk(g, p) && |p| == k + 1 && forall i :: 0 <= i < |p| ==> p[i] in s
  {
    if k == 0 {
      return [start];
    }
    var q := LongWalkInside(g, s, start, k - 1);
    var last := q[|q| - 1];
    assert NeedsWithin(g, s, last);
    var m :| m in s && Edge(g, last, m);
    WalkSnoc(g, q, m);
    p := q + [m];
  }

  lemma {:induction false} DistinctFitsInSet(s: set<string>, p: seq<string>)
    requires forall i :: 0 <= i < |p| ==> p[i] in s
    requires forall i, j :: 0 <= i < j < |p| ==> p[i] != p[j]
    ensures |p| <= |s|
    decreases |p|
  {
    if p != [] {
      var k := |p| - 1;
      DistinctFitsInSet(s - {p[k]}, p[..k]);
    }
  }

  /** A nonempty finite set in which everything waits for something else of the set holds a cycle. */
  lemma TrappedMeansCycle(g: Graph, s: set<string>)
    requires s != {} && Trapped(g, s)
    ensures !Acyclic(g)
  {
    var start :| start in s;
    var p := LongWalkInside(g, s, start, |s|);
    if forall i, j :: 0 <= i < j < |p| ==> p[i] != p[j] {
      DistinctFitsInSet(s, p);
    } else {
      var i, j :| 0 <= i < j < |p| && p[i] == p[j];
      WalkPrefix(g, p, j + 1);
      WalkSuffix(g, p[..j + 1], i);
      assert WalkBetween(g, p[..j + 1][i..], p[i], p[i]);
      assert OnCycle(g, p[i]);
    }
  }

  /** So in an acyclic graph every nonempty set has an element that needs nothing of the set. */
  lemma MinimalElement(g: Graph, s: set<string>) returns (n: string)
    requires Acyclic(g) && s != {}
    ensures n in s && forall m :: m in s ==> !Edge(g, n, m)
  {
    if Trapped(g, s) {
      TrappedMeansCycle(g, s);
    }
    n :| n in s && !NeedsWithin(g, s, n);
  }

  /** Numbers a set of nodes from the bottom up, given the nodes already numbered. */
  lemma {:induction false} RankRest(g: Graph, done: map<string, nat>, rest: set<string>, next: nat)
    returns (rank: map<string, nat>)
    requires Acyclic(g) && done.Keys + rest == Nodes(g) && done.Keys !! rest
    requires forall n :: n in done ==> done[n] < next
    requires forall n, m :: n in done && Edge(g, n, m) ==> m in done && done[m] < done[n]
    ensures IsRank(g, rank)
    decreases rest
  {
    if rest == {} {
      rank := done;
      forall n, m | n in g && m in g[n] ensures rank[m] < rank[n] {
        assert Edge(g, n, m);
      }
    } else {
      var x := MinimalElement(g, rest);
      forall m | Edge(g, x, m) ensures m in done {
        NeedIsNode(g, x, m);
      }
      rank := RankRest(g, done[x := next], rest - {x}, next + 1);
    }
  }

  /** Acyclic graphs are exactly the ones that can be numbered. */
  lemma AcyclicHasRank(g: Graph) returns (rank: map<string, nat>)
    requires Acyclic(g)
    ensures IsRank(g, rank)
  {
    rank := RankRest(g, map[], Nodes(g), 0);
  }
}
