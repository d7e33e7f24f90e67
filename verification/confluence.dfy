/** The result of an uncancelled run does not depend on the interleaving: it is a function of
    the pipeline, the stages reused and how the steps of the run told each stage to end. */
module Confluence {
  import opened Wrappers
  import opened NeedsGraph
  import opened PipelineConfig
  import opened SchedulePass
  import opened Scheduler
  import opened SchedulerInvariant
  import opened SchedulerTheorems
  import opened Outcomes

  /** The status a stage must end with, read off the graph from the bottom up. */
  ghost function Eval(g: Graph, rank: map<string, nat>, reused: set<string>, ok: set<string>, n: string): Status
    requires IsRank(g, rank)
    decreases if n in rank then rank[n] + 1 else 0
  {
    if n in reused then Reused
    else if exists m :: m in Needs(g, n) && Eval(g, rank, reused, ok, m) in {Failed, Skipped} then Skipped
    else if n in ok then Success
    else Failed
  }

  predicate Executed(st: Status) {
    st.Success? || st.Failed?
  }

  /** ok holds, of the stages that were executed, exactly those that succeeded. */
  ghost predicate OutcomesAre(s: State, ok: set<string>) {
    forall n :: n in s.status && Executed(s.status[n]) ==> (n in ok <==> s.status[n].Success?)
  }

  ghost predicate ReusedIs(s: State, reused: set<string>) {
    forall n {:trigger At(s.status, n)} :: n in s.status ==> (At(s.status, n).Reused? <==> n in reused)
  }

  ghost predicate Complete(g: Graph, s: State) {
    Sound(g, s) && s.finished && !s.cancelled && Nodes(g) <= s.status.Keys
  }

  lemma CompleteStage(g: Graph, s: State, n: string)
    requires Complete(g, s) && n in s.status
    ensures At(s.status, n).Reused? || Executed(At(s.status, n)) || At(s.status, n).Skipped?
    ensures NeedsRight(g, s, n)
  {
    assert StageRight(g, s, n);
    assert s.status[n].Settled();
  }

  lemma {:induction false} StatusIsEval(g: Graph, rank: map<string, nat>, reused: set<string>, ok: set<string>, s: State, n: string)
    requires IsRank(g, rank) && Complete(g, s) && ReusedIs(s, reused) && OutcomesAre(s, ok) && n in s.status
    ensures At(s.status, n) == Eval(g, rank, reused, ok, n)
    decreases if n in rank then rank[n] + 1 else 0
  {
    CompleteStage(g, s, n);
    forall m | m in Needs(g, n) ensures m in s.status && At(s.status, m) == Eval(g, rank, reused, ok, m) {
      NeedIsNode(g, n, m);
      StatusIsEval(g, rank, reused, ok, s, m);
    }
    if n !in reused {
      if At(s.status, n).Skipped? {
        var b :| b in Needs(g, n) && At(s.status, b).Bad();
        assert Eval(g, rank, reused, ok, b) in {Failed, Skipped} by { CompleteStage(g, s, b); }
      } else {
        assert AllGood(s.status, Needs(g, n));
        forall m | m in Needs(g, n) ensures Eval(g, rank, reused, ok, m) !in {Failed, Skipped} {
          assert At(s.status, m).Good();
        }
      }
    }
  }

  // ---- The reused stages are the ones the run started with ----

  lemma StepForward(cfg: seq<Stage>, g: Graph, s: State, step: Step)
    requires Sound(g, s) && Enabled(s, step) && DistinctNames(cfg) && s.status.Keys == StageNames(cfg)
    ensures var s' := Do(cfg, s, step); Forward(s.status, s'.status) && s'.status.Keys == s.status.Keys
  {
    if step.Scan? {
      PassIsRight(cfg, s.cancelled, s.status, s.wake);
    } else if step.Close? || step.Hold? || step.OpenApproval? || step.Expire? || step.SeeCancel? || step.Settle? {
      UpdateForward(cfg, g, s, step);
    }
  }

  lemma UpdateForward(cfg: seq<Stage>, g: Graph, s: State, step: Step)
    requires Sound(g, s) && Enabled(s, step)
    requires step.Close? || step.Hold? || step.OpenApproval? || step.Expire? || step.SeeCancel? || step.Settle?
    ensures var s' := Do(cfg, s, step); Forward(s.status, s'.status) && s'.status.Keys == s.status.Keys
  {
    assert StageRight(g, s, step.n);
  }

  lemma {:induction false} ReusedStays(cfg: seq<Stage>, s: State, steps: seq<Step>, reused: set<string>)
    requires WellFormed(cfg) && Inv(cfg, s) && ReusedIs(s, reused) && Exec(cfg, s, steps).Some?
    ensures ReusedIs(Exec(cfg, s, steps).value, reused)
    decreases |steps|
  {
    if steps != [] {
      StepForward(cfg, GraphOf(cfg), s, steps[0]);
      StepKeeps(cfg, s, steps[0]);
      ReusedStays(cfg, Do(cfg, s, steps[0]), steps[1..], reused);
    }
  }

  /** The steps of a finished, uncancelled run that started with the given stages reused. */
  ghost predicate FinishedRun(cfg: seq<Stage>, reused: set<string>, steps: seq<Step>) {
    && Exec(cfg, Init(cfg, reused), steps).Some?
    && Exec(cfg, Init(cfg, reused), steps).value.finished && !Exec(cfg, Init(cfg, reused), steps).value.cancelled
  }

  /** The statuses it ends with. */
  ghost function Result(cfg: seq<Stage>, reused: set<string>, steps: seq<Step>): Statuses
    requires FinishedRun(cfg, reused, steps)
  {
    Exec(cfg, Init(cfg, reused), steps).value.status
  }

  /** The stages that the steps told to succeed: by their work, or by a decision to approve. */
  ghost function ToldToSucceed(cfg: seq<Stage>, steps: seq<Step>): set<string> {
    set n | n in StageNames(cfg) && Told(steps, n) == Some(Success)
  }

  lemma FinishedRunComplete(cfg: seq<Stage>, reused: set<string>, steps: seq<Step>) returns (s: State)
    requires WellFormed(cfg) && NeedsClosed(cfg, reused) && FinishedRun(cfg, reused, steps)
    ensures Exec(cfg, Init(cfg, reused), steps) == Some(s) && s.status == Result(cfg, reused, steps)
    ensures Complete(GraphOf(cfg), s) && ReusedIs(s, reused) && s.status.Keys == StageNames(cfg)
    ensures forall n :: n in s.status && Executed(s.status[n]) ==> Told(steps, n) == Some(s.status[n])
    ensures forall n :: n in s.status && Told(steps, n).Some? ==> Told(steps, n) == Some(s.status[n])
  {
    InitRight(cfg, reused);
    s := Exec(cfg, Init(cfg, reused), steps).value;
    ExecKeeps(cfg, Init(cfg, reused), steps);
    ReusedStays(cfg, Init(cfg, reused), steps, reused);
    NodesAreStages(cfg);
    forall n | n in s.status
      ensures (Executed(s.status[n]) ==> Told(steps, n) == Some(s.status[n])) && (Told(steps, n).Some? ==> Told(steps, n) == Some(s.status[n]))
    {
      StagesEndAsTold(cfg, reused, steps, n);
    }
  }

  /** Every stage of a finished, uncancelled run has the status the recursive evaluation gives it,
      with the outcomes that the steps of the run told. */
  lemma RunComputesEval(cfg: seq<Stage>, rank: map<string, nat>, reused: set<string>, steps: seq<Step>, n: string)
    requires WellFormed(cfg) && IsRank(GraphOf(cfg), rank)
    requires NeedsClosed(cfg, reused) && FinishedRun(cfg, reused, steps) && n in StageNames(cfg)
    ensures var result := Result(cfg, reused, steps);
            n in result && result[n] == Eval(GraphOf(cfg), rank, reused, ToldToSucceed(cfg, steps), n)
  {
    hide WellFormed, FinishedRun, Told;
    var s := FinishedRunComplete(cfg, reused, steps);
    StatusIsEval(GraphOf(cfg), rank, reused, ToldToSucceed(cfg, steps), s, n);
  }

  /** Two finished, uncancelled runs of one pipeline that start with the same stages reused, and
      whose steps tell the same to every stage that both execute, end the same in every stage. */
  lemma SameOutcomesSameResult(cfg: seq<Stage>, reused: set<string>, a: seq<Step>, b: seq<Step>)
    requires WellFormed(cfg) && NeedsClosed(cfg, reused)
    requires FinishedRun(cfg, reused, a) && FinishedRun(cfg, reused, b)
    requires forall n :: n in StageNames(cfg) && Told(a, n).Some? && Told(b, n).Some? ==> Told(a, n) == Told(b, n)
    ensures Result(cfg, reused, a) == Result(cfg, reused, b)
  {
    hide WellFormed, FinishedRun, Told, Complete;
    var s := FinishedRunComplete(cfg, reused, a);
    var t := FinishedRunComplete(cfg, reused, b);
    AcceptedIsAcyclic(cfg);
    var rank := AcyclicHasRank(GraphOf(cfg));
    AgreeingRunsMeet(GraphOf(cfg), rank, reused, s, t);
  }

  lemma WalkEndsInStage(cfg: seq<Stage>, p: seq<string>)
    requires WellFormed(cfg) && Walk(GraphOf(cfg), p) && 2 <= |p|
    ensures p[|p| - 1] in StageNames(cfg)
  {
    var k := |p| - 2;
    WalkSuffix(GraphOf(cfg), p, k);
    NeedIsNode(GraphOf(cfg), p[k..][0], p[k..][1]);
    NodesAreStages(cfg);
  }

  lemma AcceptedIsAcyclic(cfg: seq<Stage>)
    requires WellFormed(cfg)
    ensures Acyclic(GraphOf(cfg))
  {
  }

  lemma AgreeingRunsMeet(g: Graph, rank: map<string, nat>, reused: set<string>, s: State, t: State)
    requires IsRank(g, rank) && Complete(g, s) && Complete(g, t) && ReusedIs(s, reused) && ReusedIs(t, reused)
    requires s.status.Keys == t.status.Keys
    requires forall n :: n in s.status && n in t.status && Executed(s.status[n]) && Executed(t.status[n]) ==> s.status[n] == t.status[n]
    ensures s.status == t.status
  {
    var ok := (set n | n in s.status && s.status[n].Success?) + (set n | n in t.status && t.status[n].Success?);
    forall n | n in s.status ensures s.status[n] == t.status[n] {
      StatusIsEval(g, rank, reused, ok, s, n);
      StatusIsEval(g, rank, reused, ok, t, n);
    }
  }

  // ---- Skipped exactly behind a failure ----

  lemma {:induction false} SkippedHasFailedAncestor(g: Graph, rank: map<string, nat>, s: State, n: string) returns (p: seq<string>)
    requires IsRank(g, rank) && Complete(g, s) && n in s.status && At(s.status, n).Skipped?
    ensures Walk(g, p) && 2 <= |p| && p[0] == n && At(s.status, p[|p| - 1]).Failed?
    decreases if n in rank then rank[n] + 1 else 0
  {
    CompleteStage(g, s, n);
    var m :| m in Needs(g, n) && At(s.status, m).Bad();
    NeedIsNode(g, n, m);
    CompleteStage(g, s, m);
    if At(s.status, m).Failed? {
      assert Walk(g, [n, m][1..]);
      p := [n, m];
    } else {
      var q := SkippedHasFailedAncestor(g, rank, s, m);
      p := [n] + q;
      assert p[1..] == q;
    }
  }

  lemma {:induction false} FailedAncestorSkips(g: Graph, s: State, p: seq<string>)
    requires Complete(g, s) && Walk(g, p) && 2 <= |p| && At(s.status, p[|p| - 1]).Failed?
    ensures p[0] in s.status && At(s.status, p[0]).Skipped?
    decreases |p|
  {
    NeedIsNode(g, p[0], p[1]);
    CompleteStage(g, s, p[0]);
    if |p| > 2 {
      FailedAncestorSkips(g, s, p[1..]);
    }
    assert At(s.status, p[1]).Bad();
  }

  lemma SkippedBehindFailure(cfg: seq<Stage>, reused: set<string>, steps: seq<Step>, n: string) returns (a: string)
    requires WellFormed(cfg) && NeedsClosed(cfg, reused) && FinishedRun(cfg, reused, steps) && n in StageNames(cfg)
    requires At(Result(cfg, reused, steps), n).Skipped?
    ensures Ancestor(GraphOf(cfg), n, a) && Told(steps, a) == Some(Failed)
  {
    hide WellFormed, FinishedRun, Told, Complete;
    var g := GraphOf(cfg);
    var s := FinishedRunComplete(cfg, reused, steps);
    AcceptedIsAcyclic(cfg);
    var rank := AcyclicHasRank(g);
    var p := SkippedHasFailedAncestor(g, rank, s, n);
    a := p[|p| - 1];
    assert WalkBetween(g, p, n, a);
  }

  lemma FailureSkips(cfg: seq<Stage>, reused: set<string>, steps: seq<Step>, n: string, a: string)
    requires WellFormed(cfg) && NeedsClosed(cfg, reused) && FinishedRun(cfg, reused, steps)
    requires Ancestor(GraphOf(cfg), n, a) && Told(steps, a) == Some(Failed)
    ensures At(Result(cfg, reused, steps), n).Skipped?
  {
    hide WellFormed, FinishedRun, Told, Complete;
    var g := GraphOf(cfg);
    var s := FinishedRunComplete(cfg, reused, steps);
    var p :| WalkBetween(g, p, n, a) && 2 <= |p|;
    WalkEndsInStage(cfg, p);
    FailedAncestorSkips(g, s, p);
  }

  /** A stage of a finished, uncancelled run was skipped exactly when something it needs,
      directly or through other stages, was told to fail. */
  lemma SkippedExactlyBehindFailure(cfg: seq<Stage>, reused: set<string>, steps: seq<Step>, n: string)
    requires WellFormed(cfg) && NeedsClosed(cfg, reused) && FinishedRun(cfg, reused, steps) && n in StageNames(cfg)
    ensures At(Result(cfg, reused, steps), n).Skipped? <==> exists a :: Ancestor(GraphOf(cfg), n, a) && Told(steps, a) == Some(Failed)
  {
    hide WellFormed, FinishedRun, Result, Told, Ancestor;
    if At(Result(cfg, reused, steps), n).Skipped? {
      var a := SkippedBehindFailure(cfg, reused, steps, n);
    }
    forall a | Ancestor(GraphOf(cfg), n, a) && Told(steps, a) == Some(Failed) ensures At(Result(cfg, reused, steps), n).Skipped? {
      FailureSkips(cfg, reused, steps, n, a);
    }
  }
}
