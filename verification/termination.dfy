/** How long a pipeline run can go on: every step but another poll, another item report or
    another cancel call uses up a part of a budget fixed by the number of stages. */
module Termination {
  import opened NeedsGraph
  import opened PipelineConfig
  import opened SchedulePass
  import opened Scheduler
  import opened SchedulerInvariant
  import opened SchedulerTheorems

  function StatusWeight(st: Status, pc: Pc): nat {
    if st.Queued? then 40
    else if st.Settled() then 0
    else match pc
      case Idle => 30
      case Working => 24
      case Selecting => 14
      case Withdrawing(_) => 8
      case Taken(_) => 6
      case Leaving(_) => 6
      case Ended => 0
  }

  function Weight(s: State, n: string): nat {
    StatusWeight(At(s.status, n), LocalAt(s, n).pc) + (if n in s.decisions then 2 else 0) + |LocalAt(s, n).sending|
  }

  function Total(cfg: seq<Stage>, s: State): nat {
    if cfg == [] then 0 else Total(cfg[..|cfg| - 1], s) + Weight(s, cfg[|cfg| - 1].name)
  }

  function SchedWeight(sched: Sched): nat {
    match sched
    case Scanning => 3
    case Launching(_) => 2
    case Parked => 1
    case Draining => 1
    case Returned => 0
  }

  function LoopWeight(s: State): nat {
    SchedWeight(s.sched) + (if s.wake then 4 else 0) + 5 * s.owed + 6 * s.cancelling
  }

  function Budget(cfg: seq<Stage>, s: State): nat {
    Total(cfg, s) + LoopWeight(s)
  }

  /** A step from outside, or another round of something that may go on. */
  predicate Outside(step: Step) {
    step.Poll? || step.Report? || step.MarkCancelled?
  }

  function CountOutside(steps: seq<Step>): nat {
    if steps == [] then 0 else (if Outside(steps[0]) then 1 else 0) + CountOutside(steps[1..])
  }

  lemma {:induction false} TotalSame(cfg: seq<Stage>, s: State, t: State)
    requires forall i :: 0 <= i < |cfg| ==> Weight(s, cfg[i].name) == Weight(t, cfg[i].name)
    ensures Total(cfg, s) == Total(cfg, t)
    decreases |cfg|
  {
    if cfg != [] {
      TotalSame(cfg[..|cfg| - 1], s, t);
    }
  }

  /** When only stage x changes, the total changes by x's weight. */
  lemma {:induction false} TotalOneChange(cfg: seq<Stage>, s: State, t: State, x: string)
    requires DistinctNames(cfg) && x in StageNames(cfg)
    requires forall n :: n != x ==> Weight(s, n) == Weight(t, n)
    ensures Total(cfg, t) - Total(cfg, s) == Weight(t, x) - Weight(s, x)
    decreases |cfg|
  {
    var k := |cfg| - 1;
    if cfg[k].name == x {
      TotalSame(cfg[..k], s, t);
    } else {
      var i :| 0 <= i < |cfg| && cfg[i].name == x;
      assert cfg[..k][i].name == x;
      TotalOneChange(cfg[..k], s, t, x);
    }
  }

  function WithPass(s: State, p: Pass): State {
    s.(status := p.status, wake := p.wake)
  }

  function ScanBudget(cfg: seq<Stage>, s: State): nat {
    Total(cfg, s) + if s.wake then 4 else 0
  }

  lemma VisitSpends(cfg: seq<Stage>, s: State, x: Stage, p: Pass)
    requires DistinctNames(cfg) && x.name in StageNames(cfg)
    requires LocalAt(s, x.name).pc.Idle? || !At(p.status, x.name).Queued?
    ensures ScanBudget(cfg, WithPass(s, VisitStage(x, s.cancelled, p))) <= ScanBudget(cfg, WithPass(s, p))
  {
    var t, t' := WithPass(s, p), WithPass(s, VisitStage(x, s.cancelled, p));
    forall n | n != x.name ensures Weight(t, n) == Weight(t', n) {
    }
    TotalOneChange(cfg, t, t', x.name);
  }

  lemma {:induction false} PassSpends(cfg: seq<Stage>, stages: seq<Stage>, s: State)
    requires DistinctNames(cfg) && StageNames(stages) <= StageNames(cfg) && DistinctNames(stages)
    requires StageNames(cfg) <= s.status.Keys
    requires forall n :: n in StageNames(cfg) && At(s.status, n).Queued? ==> LocalAt(s, n).pc.Idle?
    ensures ScanBudget(cfg, WithPass(s, PassOver(stages, s.cancelled, s.status, s.wake))) <= ScanBudget(cfg, s)
    decreases |stages|
  {
    if stages == [] {
      assert WithPass(s, PassOver([], s.cancelled, s.status, s.wake)) == s;
    } else {
      var k := |stages| - 1;
      assert StageNames(stages[..k]) <= StageNames(stages);
      PassSpends(cfg, stages[..k], s);
      var p := PassOver(stages[..k], s.cancelled, s.status, s.wake);
      PassIsRight(stages[..k], s.cancelled, s.status, s.wake);
      assert stages[k].name in StageNames(stages);
      assert At(p.status, stages[k].name) == At(p.status, stages[k].name);
      VisitSpends(cfg, s, stages[k], p);
    }
  }

  lemma ScanSpends(cfg: seq<Stage>, g: Graph, s: State)
    requires Sound(g, s) && s.sched.Scanning? && DistinctNames(cfg) && s.status.Keys == StageNames(cfg)
    ensures Budget(cfg, AfterScan(cfg, s)) < Budget(cfg, s)
  {
    forall n | n in StageNames(cfg) && At(s.status, n).Queued? ensures LocalAt(s, n).pc.Idle? {
      assert StageRight(g, s, n);
    }
    PassSpends(cfg, cfg, s);
    TotalSame(cfg, AfterScan(cfg, s), WithPass(s, PassOver(cfg, s.cancelled, s.status, s.wake)));
  }

  predicate StageStep(step: Step) {
    step.Close? || step.Hold? || step.Poll? || step.OpenApproval? || step.Expire? || step.SeeCancel?
    || step.Receive? || step.Forget? || step.Settle? || step.Decide? || step.Send?
  }

  /** Stage x's share of the budget and the loop's, before and after. */
  ghost predicate Spends(s: State, t: State, x: string, allowance: nat) {
    && (forall n :: n != x ==> Weight(s, n) == Weight(t, n))
    && Weight(t, x) + LoopWeight(t) < Weight(s, x) + LoopWeight(s) + allowance
  }

  lemma FinishSpends(cfg: seq<Stage>, g: Graph, s: State, step: Step)
    requires (step.Close? || step.Settle?) && Enabled(s, step) && StageRight(g, s, step.n)
    ensures Spends(s, Do(cfg, s, step), step.n, 0)
  {
  }

  lemma WaitSpends(cfg: seq<Stage>, g: Graph, s: State, step: Step)
    requires (step.Hold? || step.OpenApproval?) && Enabled(s, step) && StageRight(g, s, step.n)
    ensures Spends(s, Do(cfg, s, step), step.n, 0)
  {
  }

  /** Only stage n's weight changes when its goroutine moves on. */
  lemma MoveWeighs(s: State, n: string, pc: Pc)
    requires n in s.local
    ensures var t := Move(s, n, pc);
            && (forall m :: m != n ==> Weight(s, m) == Weight(t, m)) && LoopWeight(t) == LoopWeight(s)
            && Weight(t, n) - Weight(s, n) == StatusWeight(At(s.status, n), pc) - StatusWeight(At(s.status, n), LocalAt(s, n).pc)
  {
  }

  lemma UpdateWeighs(s: State, n: string, to: Status, pc: Pc)
    requires n in s.local && n in s.status
    ensures var t := Update(s, n, to, pc);
            && (forall m :: m != n ==> Weight(s, m) == Weight(t, m)) && LoopWeight(t) == LoopWeight(s) + 5
            && Weight(t, n) - Weight(s, n) == StatusWeight(to, pc) - StatusWeight(At(s.status, n), LocalAt(s, n).pc)
  {
  }

  lemma LeavingSpends(s: State, n: string, to: Status)
    requires PcIs(s, n, Selecting) && PcRight(s, n) && (to.Failed? || to.Cancelled?)
    ensures Spends(s, LeaveSelect(s, n, to), n, 0)
  {
    MoveWeighs(s, n, Withdrawing(to));
    UpdateWeighs(s, n, to, Ended);
    hide Weight, LoopWeight, Move, Update;
  }

  lemma ExpireSpends(cfg: seq<Stage>, s: State, n: string)
    requires Enabled(s, Expire(n)) && PcRight(s, n)
    ensures Spends(s, Do(cfg, s, Expire(n)), n, 0)
  {
    hide Spends, LeaveSelect;
    LeavingSpends(s, n, Failed);
  }

  lemma SeeCancelSpends(cfg: seq<Stage>, s: State, n: string)
    requires Enabled(s, SeeCancel(n)) && PcRight(s, n)
    ensures Spends(s, Do(cfg, s, SeeCancel(n)), n, 0)
  {
    hide Spends, LeaveSelect;
    LeavingSpends(s, n, Cancelled);
  }

  lemma TakeSpends(cfg: seq<Stage>, g: Graph, s: State, step: Step)
    requires (step.Receive? || step.Forget?) && Enabled(s, step) && StageRight(g, s, step.n)
    ensures Spends(s, Do(cfg, s, step), step.n, 0)
  {
  }

  lemma MailSpends(cfg: seq<Stage>, g: Graph, s: State, step: Step)
    requires (step.Decide? || step.Send?) && Enabled(s, step) && StageRight(g, s, step.n)
    ensures Spends(s, Do(cfg, s, step), step.n, 0)
  {
  }

  lemma PollSpends(cfg: seq<Stage>, g: Graph, s: State, n: string)
    requires Enabled(s, Poll(n)) && StageRight(g, s, n)
    ensures Spends(s, Do(cfg, s, Poll(n)), n, 11)
  {
  }

  lemma StageStepSpends(cfg: seq<Stage>, g: Graph, s: State, step: Step)
    requires Enabled(s, step) && StageStep(step) && StageRight(g, s, step.n)
    ensures Spends(s, Do(cfg, s, step), step.n, if Outside(step) then 11 else 0)
  {
    match step
    case Close(_, _) => FinishSpends(cfg, g, s, step);
    case Settle(_) => FinishSpends(cfg, g, s, step);
    case Hold(_) => WaitSpends(cfg, g, s, step);
    case OpenApproval(_) => WaitSpends(cfg, g, s, step);
    case Expire(n) => ExpireSpends(cfg, s, n);
    case SeeCancel(n) => SeeCancelSpends(cfg, s, n);
    case Receive(_) => TakeSpends(cfg, g, s, step);
    case Forget(_) => TakeSpends(cfg, g, s, step);
    case Poll(n) => PollSpends(cfg, g, s, n);
    case _ => MailSpends(cfg, g, s, step);
  }

  lemma LaunchSpends(cfg: seq<Stage>, g: Graph, s: State)
    requires Enabled(s, Launch) && ReadyList(s)
    ensures Spends(s, Do(cfg, s, Launch), s.sched.ready[0], 0)
  {
  }

  lemma LoopStepSpends(cfg: seq<Stage>, s: State, step: Step)
    requires Enabled(s, step) && LoopStep(step)
    ensures Budget(cfg, Do(cfg, s, step)) < Budget(cfg, s) + (if Outside(step) then 11 else 0)
  {
    TotalSame(cfg, s, Do(cfg, s, step));
  }

  /** One step spends at least one unit, and a step from outside adds fewer than eleven. */
  lemma StepSpends(cfg: seq<Stage>, g: Graph, s: State, step: Step)
    requires Sound(g, s) && Enabled(s, step) && DistinctNames(cfg) && s.status.Keys == StageNames(cfg)
    ensures Budget(cfg, Do(cfg, s, step)) < Budget(cfg, s) + (if Outside(step) then 11 else 0)
  {
    if step.Scan? {
      ScanSpends(cfg, g, s);
    } else if StageStep(step) {
      assert StageRight(g, s, step.n);
      StageStepSpends(cfg, g, s, step);
      TotalOneChange(cfg, s, Do(cfg, s, step), step.n);
    } else if step.Launch? {
      LaunchSpends(cfg, g, s);
      TotalOneChange(cfg, s, Do(cfg, s, step), s.sched.ready[0]);
    } else {
      LoopStepSpends(cfg, s, step);
    }
  }

  lemma {:induction false} ExecSpends(cfg: seq<Stage>, s: State, steps: seq<Step>)
    requires WellFormed(cfg) && Inv(cfg, s) && Exec(cfg, s, steps).Some?
    ensures |steps| <= Budget(cfg, s) + 11 * CountOutside(steps)
    decreases |steps|
  {
    if steps != [] {
      StepSpends(cfg, GraphOf(cfg), s, steps[0]);
      StepKeeps(cfg, s, steps[0]);
      ExecSpends(cfg, Do(cfg, s, steps[0]), steps[1..]);
    }
  }

  lemma {:induction false} InitBudget(cfg: seq<Stage>, stages: seq<Stage>, reused: set<string>)
    ensures Total(stages, Init(cfg, reused)) <= 40 * |stages|
    decreases |stages|
  {
    if stages != [] {
      InitBudget(cfg, stages[..|stages| - 1], reused);
    }
  }

  /** A run takes at most forty steps per stage, plus eleven for each poll, item report and
      cancel call: with NeverDeadlocked, a run with finitely many of those comes to its end. */
  lemma RunsAreBounded(cfg: seq<Stage>, reused: set<string>, steps: seq<Step>)
    requires WellFormed(cfg) && NeedsClosed(cfg, reused) && Exec(cfg, Init(cfg, reused), steps).Some?
    ensures |steps| <= 40 * |cfg| + 3 + 11 * CountOutside(steps)
  {
    InitRight(cfg, reused);
    InitBudget(cfg, cfg, reused);
    ExecSpends(cfg, Init(cfg, reused), steps);
  }

  /** From every state of every run the run can still be brought to its end, by steps its own
      threads take. */
  lemma {:induction false} CanAlwaysReturn(cfg: seq<Stage>, s: State) returns (steps: seq<Step>)
    requires WellFormed(cfg) && Inv(cfg, s)
    ensures Exec(cfg, s, steps).Some? && Exec(cfg, s, steps).value.sched.Returned?
    ensures forall i :: 0 <= i < |steps| ==> Progress(steps[i])
    decreases Budget(cfg, s)
  {
    if s.sched.Returned? {
      steps := [];
    } else {
      var step := SoundCanStep(GraphOf(cfg), s);
      StepSpends(cfg, GraphOf(cfg), s, step);
      StepKeeps(cfg, s, step);
      var rest := CanAlwaysReturn(cfg, Do(cfg, s, step));
      steps := [step] + rest;
      assert steps[1..] == rest;
    }
  }

  lemma EveryRunCanReturn(cfg: seq<Stage>, generation: nat, s: State) returns (steps: seq<Step>)
    requires WellFormed(cfg) && Reachable(cfg, generation, s)
    ensures Exec(cfg, s, steps).Some? && Exec(cfg, s, steps).value.sched.Returned?
    ensures forall i :: 0 <= i < |steps| ==> Progress(steps[i])
  {
    ReachableRight(cfg, generation, s);
    steps := CanAlwaysReturn(cfg, s);
  }
}
