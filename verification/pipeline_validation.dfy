/** The pipelines of a configuration as they are written, and the checks they pass before they are
    used (validatePipelines in internal/config/pipeline.go). */
module PipelineValidation {
  import opened Wrappers
  import opened NeedsGraph
  import opened Texts
  import opened PipelineConfig

  /** An empty type or gate stands for the default. */
  datatype StageText = StageText(name: string, typ: string, apps: seq<string>, needs: seq<string>, gate: string, timeout: int)

  datatype Pipeline = Pipeline(name: string, stages: seq<StageText>)

  datatype Refusal =
    | EmptyPipelineName
    | DuplicatePipeline(name: string)
    | BadStages(problem: Problem)
    | NegativeTimeout(stage: string)
    | NoApps(stage: string)
    | UnknownGate(stage: string, gate: string)
    | AppsNotTaken(stage: string)
    | UnknownType(stage: string, typ: string)
    | UnknownApp(stage: string, app: string)
    | AppTwice(stage: string, app: string)

  function ResolvedType(s: StageText): string {
    if s.typ == "" then "deploy" else s.typ
  }

  function ResolvedGate(s: StageText): string {
    if s.gate == "" then "qa" else s.gate
  }

  /** The stage a run works on; the type is one of the three in every pipeline that is accepted. */
  function Resolved(s: StageText): Stage {
    var typ := ResolvedType(s);
    Stage(s.name, if typ == "approval" then Approval else if typ == "gate" then Gate else Deploy, s.needs)
  }

  function ResolvedAll(stages: seq<StageText>): seq<Stage> {
    if stages == [] then [] else ResolvedAll(stages[..|stages| - 1]) + [Resolved(stages[|stages| - 1])]
  }

  /** What is wrong with a stage's type: deploys, which are the default, need applications,
      approvals take none, and gates are QA gates, which is the default, or security gates. */
  ghost function TypeProblem(s: StageText): Option<Refusal> {
    if s.typ in {"", "deploy"} then if s.apps == [] then Some(NoApps(s.name)) else None
    else if s.typ == "gate" then if s.gate in {"", "qa", "security"} then None else Some(UnknownGate(s.name, s.gate))
    else if s.typ == "approval" then if s.apps != [] then Some(AppsNotTaken(s.name)) else None
    else Some(UnknownType(s.name, s.typ))
  }

  ghost predicate TypeFine(s: StageText) {
    TypeProblem(s) == None
  }

  /** The stage that a run works on has the type that was written, or is a deploy. */
  lemma ResolvedKinds(s: StageText)
    requires TypeFine(s)
    ensures Resolved(s).name == s.name && Resolved(s).needs == s.needs
    ensures Resolved(s).kind == if s.typ == "gate" then Gate else if s.typ == "approval" then Approval else Deploy
  {
  }

  ghost predicate AppsFine(apps: seq<string>, known: set<string>) {
    (forall a :: a in apps ==> a in known) && forall i, j :: 0 <= i < j < |apps| ==> apps[i] != apps[j]
  }

  ghost predicate StageFine(s: StageText, known: set<string>) {
    s.timeout >= 0 && TypeFine(s) && AppsFine(s.apps, known)
  }

  ghost predicate StagesFine(stages: seq<StageText>, known: set<string>) {
    forall s :: s in stages ==> StageFine(s, known)
  }

  ghost predicate PipelineFine(p: Pipeline, known: set<string>) {
    !Blank(p.name) && StagesFine(p.stages, known) && WellFormed(ResolvedAll(p.stages))
  }

  ghost predicate AllFine(ps: seq<Pipeline>, known: set<string>) {
    && (forall p :: p in ps ==> PipelineFine(p, known))
    && (forall i, j :: 0 <= i < j < |ps| ==> ps[i].name != ps[j].name)
  }

  lemma {:induction false} ResolvedAt(stages: seq<StageText>, i: nat)
    requires i <= |stages|
    ensures |ResolvedAll(stages)| == |stages| && ResolvedAll(stages)[..i] == ResolvedAll(stages[..i])
    ensures i < |stages| ==> ResolvedAll(stages)[i] == Resolved(stages[i])
    decreases |stages|
  {
    if i < |stages| {
      var k := |stages| - 1;
      ResolvedAt(stages[..k], i);
      assert stages[..k][..i] == stages[..i];
    } else {
      assert stages[..i] == stages;
      if stages != [] {
        ResolvedAt(stages[..i - 1], i - 1);
      }
    }
  }

  /** The first thing wrong with a stage by itself. */
  method CheckStage(s: StageText, known: set<string>) returns (refusal: Option<Refusal>)
    ensures refusal == None <==> StageFine(s, known)
    ensures refusal.Some? ==> StageRefusal(s, known, refusal.value)
  {
    if s.timeout < 0 {
      return Some(NegativeTimeout(s.name));
    }
    var typ := ResolvedType(s);
    if typ == "deploy" {
      if |s.apps| == 0 {
        return Some(NoApps(s.name));
      }
    } else if typ == "gate" {
      if ResolvedGate(s) != "qa" && ResolvedGate(s) != "security" {
        return Some(UnknownGate(s.name, s.gate));
      }
    } else if typ == "approval" {
      if |s.apps| > 0 {
        return Some(AppsNotTaken(s.name));
      }
    } else {
      return Some(UnknownType(s.name, s.typ));
    }
    refusal := CheckApps(s.name, s.apps, known);
  }

  method CheckApps(stage: string, apps: seq<string>, known: set<string>) returns (refusal: Option<Refusal>)
    ensures refusal == None <==> AppsFine(apps, known)
    ensures refusal.Some? ==>
              exists i :: 0 <= i < |apps| && AppsFine(apps[..i], known) && !AppsFine(apps[..i + 1], known)
                && refusal.value == if apps[i] in known then AppTwice(stage, apps[i]) else UnknownApp(stage, apps[i])
  {
    var seen: set<string> := {};
    for i := 0 to |apps|
      invariant AppsFine(apps[..i], known) && forall a :: a in seen <==> a in apps[..i]
    {
      var a := apps[i];
      assert a in apps && a == apps[..i + 1][i];
      if a !in known {
        assert a in apps[..i + 1];
        return Some(UnknownApp(stage, a));
      }
      if a in seen {
        var j :| 0 <= j < i && apps[..i][j] == a;
        assert apps[..i + 1][j] == a;
        return Some(AppTwice(stage, a));
      }
      assert apps[..i + 1] == apps[..i] + [a];
      seen := seen + {a};
    }
    assert apps[..|apps|] == apps;
    refusal := None;
  }

  lemma {:induction false} BlankIsRefused(stages: seq<StageText>, i: nat)
    requires i < |stages| && Blank(stages[i].name)
    ensures !NamesNotBlank(ResolvedAll(stages))
  {
    ResolvedAt(stages, i);
    assert Blank(ResolvedAll(stages)[i].name);
  }

  lemma {:induction false} SecondIsRefused(stages: seq<StageText>, i: nat)
    requires i < |stages| && stages[i].name in StageNames(ResolvedAll(stages[..i]))
    ensures !DistinctNames(ResolvedAll(stages))
    ensures exists j, k :: 0 <= j < k < |stages| && stages[j].name == stages[k].name == stages[i].name
  {
    ResolvedAt(stages, i);
    var all := ResolvedAll(stages);
    var j :| 0 <= j < |all[..i]| && all[..i][j].name == stages[i].name;
    ResolvedAt(stages, j);
    assert all[j].name == all[i].name && stages[j].name == stages[i].name;
  }

  /** The stages seen so far are named, differ in their names and are fine by themselves. */
  ghost predicate StartFine(stages: seq<StageText>, known: set<string>) {
    NamesNotBlank(ResolvedAll(stages)) && DistinctNames(ResolvedAll(stages)) && StagesFine(stages, known)
  }

  lemma OneMoreStage(stages: seq<StageText>, i: nat, known: set<string>)
    requires i < |stages| && StartFine(stages[..i], known) && StageFine(stages[i], known)
    requires !Blank(stages[i].name) && stages[i].name !in StageNames(ResolvedAll(stages[..i]))
    ensures StartFine(stages[..i + 1], known)
    ensures ResolvedAll(stages[..i + 1]) == ResolvedAll(stages[..i]) + [Resolved(stages[i])]
  {
    var front, s, more := ResolvedAll(stages[..i]), stages[i], stages[..i + 1];
    assert more[..i] == stages[..i] && more == stages[..i] + [s];
    assert ResolvedAll(more) == front + [Resolved(s)];
    forall j | 0 <= j < |front| ensures front[j].name != s.name {
      assert front[j].name in StageNames(front);
    }
  }

  ghost predicate StageNamed(stages: seq<StageText>, n: string) {
    exists i :: 0 <= i < |stages| && stages[i].name == n
  }

  /** What a refusal says is so. */
  ghost predicate SaysTrue(stages: seq<StageText>, known: set<string>, refusal: Refusal) {
    match refusal
    case BadStages(problem) =>
      (match problem
       case NoStages => stages == []
       case EmptyName => exists s :: s in stages && Blank(s.name)
       case DuplicateStage(n) => exists i, j :: 0 <= i < j < |stages| && stages[i].name == stages[j].name == n
       case UnknownNeed(n, m) => (exists s :: s in stages && s.name == n && m in s.needs) && !StageNamed(stages, m)
       case SelfNeed(n) => exists s :: s in stages && s.name == n && n in s.needs
       case DependencyCycle(n) => OnCycle(GraphOf(ResolvedAll(stages)), n))
    case EmptyPipelineName => false
    case DuplicatePipeline(_) => false
    case NegativeTimeout(n) => exists s :: s in stages && s.name == n && s.timeout < 0
    case UnknownApp(n, a) => exists s :: s in stages && s.name == n && a in s.apps && a !in known
    case AppTwice(n, a) => exists s, i, j :: s in stages && s.name == n && 0 <= i < j < |s.apps| && s.apps[i] == s.apps[j] == a
    case _ => exists s :: s in stages && TypeProblem(s) == Some(refusal)
  }

  /** The checks of one pipeline's stages, in the order the source makes them. */
  method ValidateStages(stages: seq<StageText>, known: set<string>) returns (refusal: Option<Refusal>)
    ensures refusal == None <==> StagesFine(stages, known) && WellFormed(ResolvedAll(stages))
    ensures refusal.Some? ==> SaysTrue(stages, known, refusal.value)
  {
    hide Resolved, NeedsKnown, NoSelfNeed, Acyclic, OnCycle, StageFine, Blank, StageRefusal, GraphProblem;
    if |stages| == 0 {
      return Some(BadStages(NoStages));
    }
    var resolved := [];
    var names: set<string> := {};
    assert stages[..0] == [];
    for i := 0 to |stages|
      invariant resolved == ResolvedAll(stages[..i]) && names == StageNames(resolved) && StartFine(stages[..i], known)
    {
      var s := stages[i];
      if Blank(s.name) {
        BlankIsRefused(stages, i);
        assert s in stages;
        return Some(BadStages(EmptyName));
      }
      if s.name in names {
        SecondIsRefused(stages, i);
        return Some(BadStages(DuplicateStage(s.name)));
      }
      refusal := CheckStage(s, known);
      if refusal.Some? {
        assert s in stages;
        StageRefusalIsTrue(stages, s, known, refusal.value);
        return;
      }
      OneMoreStage(stages, i, known);
      NameIsKept(s);
      OneMoreName(resolved, Resolved(s));
      resolved := resolved + [Resolved(s)];
      names := names + {s.name};
    }
    assert stages[..|stages|] == stages;
    ResolvedAt(stages, |stages|);
    var problem := CheckGraph(resolved, names);
    if problem.Some? {
      GraphRefusalIsTrue(stages, known, problem.value);
    }
    refusal := if problem.Some? then Some(BadStages(problem.value)) else None;
  }

  lemma NameIsKept(s: StageText)
    ensures Resolved(s).name == s.name
  {
  }

  lemma OneMoreName(stages: seq<Stage>, s: Stage)
    ensures StageNames(stages + [s]) == StageNames(stages) + {s.name}
  {
    var all := stages + [s];
    forall n | n in StageNames(stages) + {s.name} ensures n in StageNames(all) {
      if n == s.name {
        assert all[|stages|].name == n;
      } else {
        var i :| 0 <= i < |stages| && stages[i].name == n;
        assert all[i].name == n;
      }
    }
  }

  /** Some stage's needs are wrong, or lie on a cycle. */
  ghost predicate GraphProblem(stages: seq<Stage>, problem: Problem) {
    NeedsProblem(stages, problem) || (problem.DependencyCycle? && OnCycle(GraphOf(stages), problem.name))
  }

  /** What CheckStage promises of its refusal. */
  ghost predicate StageRefusal(s: StageText, known: set<string>, refusal: Refusal) {
    if s.timeout < 0 then refusal == NegativeTimeout(s.name)
    else if TypeProblem(s).Some? then Some(refusal) == TypeProblem(s)
    else exists i :: 0 <= i < |s.apps| && AppsFine(s.apps[..i], known) && !AppsFine(s.apps[..i + 1], known)
           && refusal == if s.apps[i] in known then AppTwice(s.name, s.apps[i]) else UnknownApp(s.name, s.apps[i])
  }

  lemma AppIsRepeated(apps: seq<string>, known: set<string>, i: nat) returns (j: nat)
    requires i < |apps| && AppsFine(apps[..i], known) && !AppsFine(apps[..i + 1], known) && apps[i] in known
    ensures j < i && apps[j] == apps[i]
  {
    var front, more := apps[..i], apps[..i + 1];
    assert more == front + [apps[i]];
    forall a | a in more ensures a in known {
      assert a in front || a == apps[i];
    }
    assert forall x :: 0 <= x < i ==> front[x] == more[x];
    var k, l :| 0 <= k < l < |more| && more[k] == more[l];
    j := k;
  }

  lemma StageRefusalIsTrue(stages: seq<StageText>, s: StageText, known: set<string>, refusal: Refusal)
    requires s in stages && StageRefusal(s, known, refusal)
    ensures SaysTrue(stages, known, refusal)
  {
    hide AppsFine;
    if s.timeout >= 0 && TypeProblem(s) == None {
      var i :| 0 <= i < |s.apps| && AppsFine(s.apps[..i], known) && !AppsFine(s.apps[..i + 1], known)
               && refusal == if s.apps[i] in known then AppTwice(s.name, s.apps[i]) else UnknownApp(s.name, s.apps[i]);
      assert s.apps[i] in s.apps;
      if s.apps[i] in known {
        var j := AppIsRepeated(s.apps, known, i);
      }
    }
  }

  lemma GraphRefusalIsTrue(stages: seq<StageText>, known: set<string>, problem: Problem)
    requires GraphProblem(ResolvedAll(stages), problem)
    ensures SaysTrue(stages, known, BadStages(problem))
  {
    var all := ResolvedAll(stages);
    ResolvedAt(stages, |stages|);
    forall i | 0 <= i < |stages| ensures all[i] == Resolved(stages[i]) {
      ResolvedAt(stages, i);
    }
    if NeedsProblem(all, problem) {
      var s :| s in all && s.name == problem.name && (if problem.UnknownNeed? then problem.need else problem.name) in s.needs;
      var i :| 0 <= i < |all| && all[i] == s;
      assert stages[i] in stages && stages[i].name == s.name && stages[i].needs == s.needs;
      forall k | 0 <= k < |stages| ensures stages[k].name in StageNames(all) {
        assert all[k].name == stages[k].name;
      }
    }
  }

  /** What the stages say about each other, once each of them is named. */
  method CheckGraph(stages: seq<Stage>, names: set<string>) returns (problem: Option<Problem>)
    requires stages != [] && NamesNotBlank(stages) && DistinctNames(stages) && names == StageNames(stages)
    ensures problem == None <==> WellFormed(stages)
    ensures problem.Some? ==> GraphProblem(stages, problem.value)
  {
    problem := CheckNeeds(stages, names);
    if problem != None {
      return;
    }
    NamedIsNotMisled(stages);
    var c := PipelineCycle(stages);
    if c != "" {
      return Some(DependencyCycle(c));
    }
    problem := None;
  }

  /** What a refusal says is so of some pipeline. */
  ghost predicate PipelineRefusal(ps: seq<Pipeline>, apps: set<string>, refusal: Refusal) {
    match refusal
    case EmptyPipelineName => exists p :: p in ps && Blank(p.name)
    case DuplicatePipeline(n) => exists i, j :: 0 <= i < j < |ps| && ps[i].name == ps[j].name == n
    case _ => exists p :: p in ps && SaysTrue(p.stages, apps, refusal)
  }

  /** A configuration's pipelines are accepted exactly when every one is fine and no two share a name. */
  method ValidatePipelines(ps: seq<Pipeline>, apps: set<string>) returns (refusal: Option<Refusal>)
    ensures refusal == None <==> AllFine(ps, apps)
    ensures refusal.Some? ==> PipelineRefusal(ps, apps, refusal.value)
  {
    var seen: set<string> := {};
    for i := 0 to |ps|
      invariant AllFine(ps[..i], apps) && seen == set p | p in ps[..i] :: p.name
    {
      var p := ps[i];
      assert p in ps && ps[..i + 1] == ps[..i] + [p];
      if Blank(p.name) {
        return Some(EmptyPipelineName);
      }
      if p.name in seen {
        var j :| 0 <= j < i && ps[..i][j].name == p.name;
        assert ps[j].name == ps[i].name;
        return Some(DuplicatePipeline(p.name));
      }
      refusal := ValidateStages(p.stages, apps);
      if refusal.Some? {
        return;
      }
      seen := seen + {p.name};
    }
    assert ps[..|ps|] == ps;
    refusal := None;
  }
}
