/** Pipeline configuration (internal/config/pipeline.go): the checks a pipeline's stages
    pass before a run may use them, above all the three-colour search for a needs cycle. */
module PipelineConfig {
  import opened Wrappers
  import opened NeedsGraph
  import opened Texts

  /** The resolved type of a stage; validation admits no other. */
  datatype Kind = Deploy | Gate | Approval

  datatype Stage = Stage(name: string, kind: Kind, needs: seq<string>)

  /** Why a stage list is refused. */
  datatype Problem =
    | NoStages
    | EmptyName
    | DuplicateStage(name: string)
    | UnknownNeed(name: string, need: string)
    | SelfNeed(name: string)
    | DependencyCycle(name: string)

  function StageNames(stages: seq<Stage>): set<string> {
    set i | 0 <= i < |stages| :: stages[i].name
  }

  /** The needs of each stage by name; of two stages with one name the later counts. */
  function GraphOf(stages: seq<Stage>): Graph {
    if stages == [] then map[]
    else
      var s := stages[|stages| - 1];
      GraphOf(stages[..|stages| - 1])[s.name := s.needs]
  }

  ghost predicate DistinctNames(stages: seq<Stage>) {
    forall i, j :: 0 <= i < j < |stages| ==> stages[i].name != stages[j].name
  }

  ghost predicate NeedsKnown(stages: seq<Stage>) {
    forall i, n :: 0 <= i < |stages| && n in stages[i].needs ==> n in StageNames(stages)
  }

  ghost predicate NoSelfNeed(stages: seq<Stage>) {
    forall i :: 0 <= i < |stages| ==> stages[i].name !in stages[i].needs
  }

  ghost predicate NamesNotBlank(stages: seq<Stage>) {
    forall i :: 0 <= i < |stages| ==> !Blank(stages[i].name)
  }

  /** What a run may rely on. */
  ghost predicate WellFormed(stages: seq<Stage>) {
    && stages != []
    && NamesNotBlank(stages)
    && DistinctNames(stages)
    && NeedsKnown(stages)
    && NoSelfNeed(stages)
    && Acyclic(GraphOf(stages))
  }

  lemma {:induction false} GraphKeys(stages: seq<Stage>)
    ensures GraphOf(stages).Keys == StageNames(stages)
  {
    if stages != [] {
      var k := |stages| - 1;
      GraphKeys(stages[..k]);
      assert forall n :: n in StageNames(stages) <==> n in StageNames(stages[..k]) || n == stages[k].name;
    }
  }

  lemma {:induction false} GraphAt(stages: seq<Stage>, i: nat)
    requires i < |stages| && DistinctNames(stages)
    ensures stages[i].name in GraphOf(stages) && GraphOf(stages)[stages[i].name] == stages[i].needs
  {
    var k := |stages| - 1;
    if i < k {
      GraphAt(stages[..k], i);
    }
  }

  datatype Color = White | Grey | Black

  function ColorOf(color: map<string, Color>, n: string): Color {
    if n in color then color[n] else White
  }

  ghost function Whites(g: Graph, color: map<string, Color>): set<string> {
    Nodes(g) - (set n | n in color.Keys && color[n] != White)
  }

  /** The recursion stack, root first, is grey. A node that is grey besides was given up at its need
      for the empty text, which is grey only on a cycle. */
  ghost predicate GreyStack(g: Graph, color: map<string, Color>, stack: seq<string>) {
    && (stack != [] ==> Walk(g, stack))
    && (forall n :: n in stack ==> ColorOf(color, n) == Grey)
    && (forall n :: ColorOf(color, n) == Grey ==> n in stack || GivenUp(g, n))
  }

  ghost predicate GivenUp(g: Graph, n: string) {
    Misled(g) && Edge(g, n, "")
  }

  /** What an answer other than the empty text may name. */
  ghost predicate Culprit(g: Graph, c: string) {
    OnCycle(g, c) || GivenUp(g, c)
  }

  /** Black nodes are numbered in the order they turned black and need only earlier black nodes. */
  ghost predicate BlackRanked(g: Graph, color: map<string, Color>, rank: map<string, nat>, clock: nat) {
    && (forall n :: ColorOf(color, n) == Black ==> n in rank && rank[n] < clock)
    && (forall n, m :: ColorOf(color, n) == Black && Edge(g, n, m) ==>
          ColorOf(color, m) == Black && m in rank && rank[m] < rank[n])
  }

  ghost predicate KeepsBlack(before: map<string, Color>, after: map<string, Color>) {
    forall n :: ColorOf(before, n) == Black ==> ColorOf(after, n) == Black
  }

  ghost predicate AllBlack(color: map<string, Color>, ms: seq<string>) {
    forall m :: m in ms ==> ColorOf(color, m) == Black
  }

  lemma StaysAllBlack(before: map<string, Color>, after: map<string, Color>, ms: seq<string>, m: string)
    requires AllBlack(before, ms) && KeepsBlack(before, after) && ColorOf(after, m) == Black
    ensures AllBlack(after, ms + [m])
  {
  }

  lemma TakeOneMore(ms: seq<string>, i: nat)
    requires i < |ms|
    ensures ms[..i + 1] == ms[..i] + [ms[i]]
  {
  }

  lemma TakeAll(ms: seq<string>)
    ensures ms[..|ms|] == ms
  {
  }

  lemma EnterStack(g: Graph, color: map<string, Color>, stack: seq<string>, n: string)
    requires GreyStack(g, color, stack) && n in Nodes(g) && ColorOf(color, n) == White
    requires stack != [] ==> Edge(g, stack[|stack| - 1], n)
    ensures GreyStack(g, color[n := Grey], stack + [n])
    ensures Whites(g, color[n := Grey]) < Whites(g, color)
    ensures KeepsBlack(color, color[n := Grey]) && n !in stack
  {
    if stack != [] {
      WalkSnoc(g, stack, n);
    }
    assert n in Whites(g, color) && n !in Whites(g, color[n := Grey]);
  }

  lemma EnterRank(g: Graph, color: map<string, Color>, rank: map<string, nat>, clock: nat, n: string)
    requires ColorOf(color, n) == White
    ensures BlackRanked(g, color, rank, clock) ==> BlackRanked(g, color[n := Grey], rank, clock)
  {
  }

  lemma LeaveStack(g: Graph, color: map<string, Color>, stack: seq<string>, n: string)
    requires GreyStack(g, color, stack + [n]) && n !in stack
    ensures ColorOf(color, n) == Grey
    ensures GreyStack(g, color[n := Black], stack)
    ensures Whites(g, color[n := Black]) <= Whites(g, color) && KeepsBlack(color, color[n := Black])
  {
    StackFront(g, color, stack, n);
  }

  lemma StackFront(g: Graph, color: map<string, Color>, stack: seq<string>, n: string)
    requires GreyStack(g, color, stack + [n])
    ensures stack != [] ==> Walk(g, stack)
    ensures ColorOf(color, n) == Grey && forall m :: m in stack + [n] <==> m in stack || m == n
  {
    assert (stack + [n])[|stack|] == n;
    if stack != [] {
      WalkPrefix(g, stack + [n], |stack|);
      assert (stack + [n])[..|stack|] == stack;
    }
  }

  /** A node given up stays grey. */
  lemma GiveUp(g: Graph, color: map<string, Color>, stack: seq<string>, n: string)
    requires GreyStack(g, color, stack + [n]) && GivenUp(g, n)
    ensures GreyStack(g, color, stack)
  {
    StackFront(g, color, stack, n);
  }

  lemma LeaveRank(g: Graph, color: map<string, Color>, rank: map<string, nat>, clock: nat, n: string)
    requires BlackRanked(g, color, rank, clock) && ColorOf(color, n) == Grey
    requires AllBlack(color, Needs(g, n))
    ensures BlackRanked(g, color[n := Black], rank[n := clock], clock + 1)
  {
  }

  lemma ShrunkSet(a: set<string>, b: set<string>)
    requires a < b
    ensures |a| < |b|
  {
    assert b == a + (b - a);
  }

  /** A need that is grey is on the stack, and closes a cycle, or was given up itself. */
  lemma GreyIsCulprit(g: Graph, color: map<string, Color>, stack: seq<string>, m: string)
    requires GreyStack(g, color, stack) && ColorOf(color, m) == Grey
    requires stack != [] && Edge(g, stack[|stack| - 1], m)
    ensures Culprit(g, m)
    ensures m == "" ==> GivenUp(g, stack[|stack| - 1])
  {
    if m in stack {
      BackEdgeClosesCycle(g, stack, m);
    }
  }

  lemma BackEdgeClosesCycle(g: Graph, stack: seq<string>, m: string)
    requires stack != [] && Walk(g, stack) && m in stack && Edge(g, stack[|stack| - 1], m)
    ensures OnCycle(g, m)
  {
    var i :| 0 <= i < |stack| && stack[i] == m;
    var p := stack[i..] + [m];
    WalkSuffix(g, stack, i);
    WalkSnoc(g, stack[i..], m);
    assert WalkBetween(g, p, m, m);
  }

  /** The empty text stands on a cycle: the answer that names it says that there is none. */
  ghost predicate Misled(g: Graph) {
    OnCycle(g, "")
  }

  // ---- The search as a function of the colours it starts from ----

  /** How a search ends: the colours, the answer, and whether it was given up on the way. */
  datatype Search = Search(color: map<string, Color>, answer: string, stop: bool)

  ghost predicate Known(g: Graph, ms: seq<string>) {
    forall m :: m in ms ==> m in Nodes(g)
  }

  lemma NeedsAreKnown(g: Graph, n: string)
    ensures Known(g, Needs(g, n))
  {
    forall m | m in Needs(g, n) ensures m in Nodes(g) {
      NeedIsNode(g, n, m);
    }
  }

  /** Visits a white node: it turns black unless the search of its needs stops. */
  ghost function SearchNode(g: Graph, color: map<string, Color>, n: string): (r: Search)
    requires n in Nodes(g) && ColorOf(color, n) == White
    ensures Whites(g, r.color) <= Whites(g, color)
    decreases |Whites(g, color)|, 0
  {
    var grey := color[n := Grey];
    assert n in Whites(g, color) && n !in Whites(g, grey);
    ShrunkSet(Whites(g, grey), Whites(g, color));
    NeedsAreKnown(g, n);
    var r := SearchNeeds(g, grey, Needs(g, n));
    if r.stop then r else Search(r.color[n := Black], "", false)
  }

  /** Follows needs in order: a grey one is the answer, whatever its name is; a white one is
      visited, and stops the search if its answer is a name. */
  ghost function SearchNeeds(g: Graph, color: map<string, Color>, ms: seq<string>): (r: Search)
    requires Known(g, ms)
    ensures Whites(g, r.color) <= Whites(g, color)
    decreases |Whites(g, color)|, 1 + |ms|
  {
    if ms == [] then Search(color, "", false)
    else
      assert ms[0] in ms && forall m :: m in ms[1..] ==> m in ms;
      match ColorOf(color, ms[0])
      case Grey => Search(color, ms[0], true)
      case Black => SearchNeeds(g, color, ms[1..])
      case White =>
        var r := SearchNode(g, color, ms[0]);
        SmallerSet(Whites(g, r.color), Whites(g, color));
        if r.answer != "" then Search(r.color, r.answer, true) else SearchNeeds(g, r.color, ms[1..])
  }

  /** The answer for a stage list: the first one that a stage still white gives. */
  ghost function SearchStages(g: Graph, color: map<string, Color>, ns: seq<string>): string
    requires Known(g, ns)
    decreases |ns|
  {
    if ns == [] then ""
    else
      assert ns[0] in ns && forall n :: n in ns[1..] ==> n in ns;
      if ColorOf(color, ns[0]) != White then SearchStages(g, color, ns[1..])
      else
        var r := SearchNode(g, color, ns[0]);
        if r.answer != "" then r.answer else SearchStages(g, r.color, ns[1..])
  }

  /** The depth-first search over one pipeline. The source's nested function changes the
      captured colour map; here the map is a field. */
  class CycleSearch {
    const needs: Graph
    var color: map<string, Color>
    ghost var rank: map<string, nat>
    ghost var clock: nat

    constructor (needs: Graph)
      ensures this.needs == needs && color == map[] && Valid([])
    {
      this.needs := needs;
      color := map[];
      rank := map[];
      clock := 0;
    }

    ghost predicate Valid(stack: seq<string>)
      reads this
    {
      GreyStack(needs, color, stack) && (!Misled(needs) ==> BlackRanked(needs, color, rank, clock))
    }

    method Visit(n: string, ghost stack: seq<string>) returns (c: string)
      requires Valid(stack)
      requires n in Nodes(needs) && ColorOf(color, n) == White
      requires stack != [] ==> Edge(needs, stack[|stack| - 1], n)
      modifies this
      decreases |Whites(needs, color)|, 0
      ensures color == SearchNode(needs, old(color), n).color && c == SearchNode(needs, old(color), n).answer
      ensures c != "" ==> Culprit(needs, c)
      ensures c == "" ==> Valid(stack) && (!Misled(needs) ==> ColorOf(color, n) == Black)
      ensures c == "" ==> Whites(needs, color) <= old(Whites(needs, color)) && KeepsBlack(old(color), color)
    {
      hide BlackRanked, GreyStack, Whites, Misled;
      EnterStack(needs, color, stack, n);
      EnterRank(needs, color, rank, clock, n);
      ShrunkSet(Whites(needs, color[n := Grey]), Whites(needs, color));
      color := color[n := Grey];
      ghost var full := stack + [n];
      NeedsAreKnown(needs, n);
      var stop;
      c, stop := FollowNeeds(n, full);
      if stop {
        if c == "" {
          GiveUp(needs, color, stack, n);
        }
        return;
      }
      LeaveStack(needs, color, stack, n);
      if !Misled(needs) {
        LeaveRank(needs, color, rank, clock, n);
      }
      color := color[n := Black];
      rank, clock := rank[n := clock], clock + 1;
    }

    /** Every need of the node on top of the stack, in the order they are listed; stops at the
        first one that gives an answer. */
    method FollowNeeds(n: string, ghost stack: seq<string>) returns (c: string, stop: bool)
      requires Valid(stack)
      requires stack != [] && stack[|stack| - 1] == n && Known(needs, Needs(needs, n))
      modifies this
      decreases |Whites(needs, color)|, 2
      ensures Search(color, c, stop) == SearchNeeds(needs, old(color), Needs(needs, n))
      ensures c != "" ==> stop && Culprit(needs, c)
      ensures stop && c == "" ==> GivenUp(needs, n)
      ensures c == "" ==> Valid(stack) && (!stop && !Misled(needs) ==> AllBlack(color, Needs(needs, n)))
      ensures c == "" ==> Whites(needs, color) <= old(Whites(needs, color)) && KeepsBlack(old(color), color)
    {
      c, stop := "", false;
      var ms := Needs(needs, n);
      for i := 0 to |ms|
        invariant Valid(stack)
        invariant Whites(needs, color) <= old(Whites(needs, color)) && KeepsBlack(old(color), color)
        invariant c == "" && !stop && (!Misled(needs) ==> AllBlack(color, ms[..i]))
        invariant Known(needs, ms[i..]) && SearchNeeds(needs, old(color), ms) == SearchNeeds(needs, color, ms[i..])
      {
        ghost var before := color;
        NeedIsNode(needs, n, ms[i]);
        SmallerSet(Whites(needs, color), old(Whites(needs, color)));
        assert ms[i..][0] == ms[i] && ms[i..][1..] == ms[i + 1..];
        c, stop := Follow(ms[i], stack);
        if stop {
          return;
        }
        if !Misled(needs) {
          StaysAllBlack(before, color, ms[..i], ms[i]);
        }
        TakeOneMore(ms, i);
      }
      TakeAll(ms);
    }

    /** One need of the node on top of the stack. */
    method Follow(m: string, ghost stack: seq<string>) returns (c: string, stop: bool)
      requires Valid(stack)
      requires m in Nodes(needs) && stack != [] && Edge(needs, stack[|stack| - 1], m)
      modifies this
      decreases |Whites(needs, color)|, 1
      ensures match ColorOf(old(color), m)
              case Grey => c == m && stop && color == old(color)
              case Black => c == "" && !stop && color == old(color)
              case White => stop == (c != "") && c == SearchNode(needs, old(color), m).answer && color == SearchNode(needs, old(color), m).color
      ensures c != "" ==> Culprit(needs, c)
      ensures stop && c == "" ==> GivenUp(needs, stack[|stack| - 1])
      ensures c == "" ==> Valid(stack) && (!stop && !Misled(needs) ==> ColorOf(color, m) == Black)
      ensures c == "" ==> Whites(needs, color) <= old(Whites(needs, color)) && KeepsBlack(old(color), color)
    {
      c, stop := "", false;
      match ColorOf(color, m) {
        case Grey =>
          GreyIsCulprit(needs, color, stack, m);
          c, stop := m, true;
        case White =>
          c := Visit(m, stack);
          stop := c != "";
        case Black =>
      }
    }
  }

  lemma SmallerSet(a: set<string>, b: set<string>)
    requires a <= b
    ensures |a| <= |b|
  {
    if a != b {
      ShrunkSet(a, b);
    }
  }

  /** A finished search that found nothing leaves every stage black, and its numbering
      shows that there is no cycle. */
  lemma AllBlackMeansAcyclic(g: Graph, color: map<string, Color>, rank: map<string, nat>, clock: nat)
    requires BlackRanked(g, color, rank, clock)
    requires forall n :: n in g ==> ColorOf(color, n) == Black
    ensures Acyclic(g)
  {
    var total := map n | n in Nodes(g) :: if n in rank then rank[n] else 0;
    forall n, m | n in g && m in g[n] ensures total[m] < total[n] {
      assert Edge(g, n, m);
    }
    RankImpliesAcyclic(g, total);
  }

  lemma NoGreyLeft(g: Graph, color: map<string, Color>)
    requires GreyStack(g, color, []) && !Misled(g)
    ensures forall n :: ColorOf(color, n) != Grey
  {
  }

  lemma MisledMeansCycle(g: Graph)
    requires Misled(g)
    ensures !Acyclic(g)
  {
  }

  lemma CulpritMeansCycle(g: Graph, c: string)
    requires Culprit(g, c)
    ensures !Acyclic(g) && (Misled(g) || OnCycle(g, c))
  {
  }

  function NamesOf(stages: seq<Stage>): seq<string> {
    seq(|stages|, i requires 0 <= i < |stages| => stages[i].name)
  }

  lemma StagesAreKnown(stages: seq<Stage>)
    ensures Known(GraphOf(stages), NamesOf(stages))
  {
    GraphKeys(stages);
    forall n | n in NamesOf(stages) ensures n in Nodes(GraphOf(stages)) {
      assert n in StageNames(stages);
    }
  }

  /** What the search answers for a stage list. */
  ghost function CycleAnswer(stages: seq<Stage>): string {
    StagesAreKnown(stages);
    SearchStages(GraphOf(stages), map[], NamesOf(stages))
  }

  /** Returns a stage on a needs cycle, or "" when there is none; unless "" itself is on a cycle,
      which callers have refused before. Then the answer "" is wrong, and any other answer is
      right that there is a cycle but may name a stage that only needs "". */
  method PipelineCycle(stages: seq<Stage>) returns (c: string)
    ensures c == CycleAnswer(stages)
    ensures c != "" ==> !Acyclic(GraphOf(stages)) && Culprit(GraphOf(stages), c)
    ensures c == "" ==> (Acyclic(GraphOf(stages)) <==> !Misled(GraphOf(stages)))
    ensures !Misled(GraphOf(stages)) && c != "" ==> OnCycle(GraphOf(stages), c)
  {
    hide BlackRanked, GreyStack, Misled, OnCycle, Whites, Culprit, SearchNode, GraphOf;
    var needs := BuildGraph(stages);
    GraphKeys(stages);
    StagesAreKnown(stages);
    ghost var names := NamesOf(stages);
    var search := new CycleSearch(needs);
    for i := 0 to |stages|
      invariant search.needs == needs && search.Valid([]) && Known(needs, names[i..])
      invariant CycleAnswer(stages) == SearchStages(needs, search.color, names[i..])
      invariant !Misled(needs) ==> forall j :: 0 <= j < i ==> ColorOf(search.color, stages[j].name) == Black
    {
      var n := stages[i].name;
      assert n in needs.Keys;
      assert names[i..][0] == n && names[i..][1..] == names[i + 1..];
      if !Misled(needs) {
        NoGreyLeft(needs, search.color);
      }
      if ColorOf(search.color, n) == White {
        c := search.Visit(n, []);
        if c != "" {
          CulpritMeansCycle(needs, c);
          return c;
        }
      }
    }
    if Misled(needs) {
      MisledMeansCycle(needs);
    } else {
      AllBlackMeansAcyclic(needs, search.color, search.rank, search.clock);
    }
    c := "";
  }

  method BuildGraph(stages: seq<Stage>) returns (needs: Graph)
    ensures needs == GraphOf(stages)
  {
    needs := map[];
    for i := 0 to |stages|
      invariant needs == GraphOf(stages[..i])
    {
      assert stages[..i + 1][..i] == stages[..i];
      needs := needs[stages[i].name := stages[i].needs];
    }
    assert stages[..|stages|] == stages;
  }

  /** Some stage needs what is no stage, or itself. */
  ghost predicate NeedsProblem(stages: seq<Stage>, problem: Problem) {
    match problem
    case UnknownNeed(n, m) => (exists s :: s in stages && s.name == n && m in s.needs) && m !in StageNames(stages)
    case SelfNeed(n) => exists s :: s in stages && s.name == n && n in s.needs
    case _ => false
  }

  ghost predicate NeedsFine(s: Stage, known: set<string>) {
    s.name !in s.needs && forall n :: n in s.needs ==> n in known
  }

  method CheckNeeds(stages: seq<Stage>, known: set<string>) returns (problem: Option<Problem>)
    requires known == StageNames(stages)
    ensures problem == None <==> NeedsKnown(stages) && NoSelfNeed(stages)
    ensures problem.Some? ==> NeedsProblem(stages, problem.value)
  {
    for i := 0 to |stages|
      invariant forall k :: 0 <= k < i ==> NeedsFine(stages[k], known)
    {
      for j := 0 to |stages[i].needs|
        invariant forall n :: n in stages[i].needs[..j] ==> n in known && n != stages[i].name
      {
        var n := stages[i].needs[j];
        assert n in stages[i].needs && stages[i].needs[..j + 1] == stages[i].needs[..j] + [n];
        if n !in known {
          assert stages[i] in stages;
          return Some(UnknownNeed(stages[i].name, n));
        }
        if n == stages[i].name {
          assert stages[i] in stages;
          return Some(SelfNeed(n));
        }
      }
      assert stages[i].needs[..|stages[i].needs|] == stages[i].needs;
    }
    assert forall k :: 0 <= k < |stages| ==> NeedsFine(stages[k], known);
    problem := None;
  }

  lemma NodesAreStages(stages: seq<Stage>)
    requires DistinctNames(stages) && NeedsKnown(stages)
    ensures Nodes(GraphOf(stages)) == StageNames(stages)
  {
    var g := GraphOf(stages);
    GraphKeys(stages);
    forall n, m | n in g.Keys && m in g[n] ensures m in StageNames(stages) {
      var i :| 0 <= i < |stages| && stages[i].name == n;
      GraphAt(stages, i);
    }
  }

  /** A pipeline whose stages are named and whose needs are all stages cannot mislead the search. */
  lemma NamedIsNotMisled(stages: seq<Stage>)
    requires NamesNotBlank(stages) && DistinctNames(stages) && NeedsKnown(stages)
    ensures !Misled(GraphOf(stages))
  {
    NodesAreStages(stages);
    assert Blank("");
    if Misled(GraphOf(stages)) {
      CycleIsOfNodes(GraphOf(stages), "");
      assert false;
    }
  }

  lemma CycleIsOfNodes(g: Graph, n: string)
    requires OnCycle(g, n)
    ensures n in Nodes(g)
  {
    var p :| WalkBetween(g, p, n, n) && 2 <= |p|;
    NeedIsNode(g, p[0], p[1]);
  }

  // ---- What goes wrong when the empty text is on a cycle ----

  /** A node whose only need is grey is given up: the need is the answer and the node stays grey. */
  lemma OneGreyNeed(g: Graph, color: map<string, Color>, n: string, m: string)
    requires n in Nodes(g) && ColorOf(color, n) == White && Needs(g, n) == [m]
    requires m == n || ColorOf(color, m) == Grey
    ensures SearchNode(g, color, n) == Search(color[n := Grey], m, true)
  {
    NeedsAreKnown(g, n);
    assert SearchNeeds(g, color[n := Grey], [m]) == Search(color[n := Grey], m, true);
  }

  lemma NamelessCycle(g: Graph)
    requires Needs(g, "") == [""]
    ensures Misled(g) && !Acyclic(g)
  {
    assert WalkBetween(g, ["", ""], "", "");
  }

  const NAMELESS: seq<Stage> := [Stage("", Deploy, [""])]

  /** What the search answers on a stage without a name that needs itself: that there is no
      cycle. The check of the names that comes before it is what makes it right. */
  lemma EmptyNameHidesCycle()
    ensures CycleAnswer(NAMELESS) == "" && !Acyclic(GraphOf(NAMELESS))
  {
    var g := GraphOf(NAMELESS);
    GraphAt(NAMELESS, 0);
    GraphKeys(NAMELESS);
    NamelessCycle(g);
    StagesAreKnown(NAMELESS);
    assert NamesOf(NAMELESS) == [""];
    OneGreyNeed(g, map[], "", "");
  }

  const BYSTANDER: seq<Stage> := [Stage("", Deploy, [""]), Stage("n", Deploy, [""]), Stage("x", Deploy, ["n"])]

  lemma BystanderGraph() returns (g: Graph)
    ensures g == GraphOf(BYSTANDER) && g.Keys == {"", "n", "x"}
    ensures g[""] == [""] && g["n"] == [""] && g["x"] == ["n"]
  {
    g := GraphOf(BYSTANDER);
    GraphKeys(BYSTANDER);
    GraphAt(BYSTANDER, 0);
    GraphAt(BYSTANDER, 1);
    GraphAt(BYSTANDER, 2);
  }

  lemma {:induction false} NamelessIsLeftByNoWalk(g: Graph, p: seq<string>)
    requires Needs(g, "") == [""] && Walk(g, p) && p[0] == ""
    ensures p[|p| - 1] == ""
    decreases |p|
  {
    if |p| > 1 {
      NamelessIsLeftByNoWalk(g, p[1..]);
    }
  }

  /** And a stage that needs such a one can be named although it is on no cycle itself. */
  lemma NamedNeedNotBeOnCycle()
    ensures CycleAnswer(BYSTANDER) == "n" && !OnCycle(GraphOf(BYSTANDER), "n")
  {
    var g := BystanderGraph();
    StagesAreKnown(BYSTANDER);
    var ns := NamesOf(BYSTANDER);
    assert ns == ["", "n", "x"] && ns[1..] == ["n", "x"] && ns[1..][1..] == ["x"];
    var c1: map<string, Color> := map["" := Grey];
    OneGreyNeed(g, map[], "", "");
    OneGreyNeed(g, c1, "n", "");
    OneGreyNeed(g, c1["n" := Grey], "x", "n");
    assert SearchStages(g, c1["n" := Grey], ["x"]) == "n";
    assert SearchStages(g, c1, ["n", "x"]) == "n";
    if OnCycle(g, "n") {
      var p :| WalkBetween(g, p, "n", "n") && 2 <= |p|;
      NamelessIsLeftByNoWalk(g, p[1..]);
    }
  }
}
