/** What the steps of a run say about how each stage ended, and that the stage's status says the
    same. */
module Outcomes {
  import opened Wrappers
  import opened NeedsGraph
  import opened PipelineConfig
  import opened SchedulePass
  import opened Scheduler
  import opened SchedulerInvariant

  /** The decisions accepted for a stage, in order. */
  function Decisions(steps: seq<Step>, n: string): seq<bool> {
    if steps == [] then []
    else
      var front, last := Decisions(steps[..|steps| - 1], n), steps[|steps| - 1];
      if last.Decide? && last.n == n then front + [last.approve] else front
  }

  /** How a stage was told to end by the last step that told it: its own work, its deadline, the
      cancelled context, or the decision it took. */
  function Told(steps: seq<Step>, n: string): Option<Status> {
    if steps == [] then None
    else
      var front, last := steps[..|steps| - 1], steps[|steps| - 1];
      match last
      case Close(m, ok) => if m == n then Some(if ok then Success else Failed) else Told(front, n)
      case Expire(m) => if m == n then Some(Failed) else Told(front, n)
      case SeeCancel(m) => if m == n then Some(Cancelled) else Told(front, n)
      case Receive(m) =>
        if m == n then Some(if Decisions(front, n) == [true] then Success else Failed) else Told(front, n)
      case _ => Told(front, n)
  }

  /** Where a stage's goroutine may be, by what it was told and the decisions accepted for it. */
  predicate Tuned(pc: Pc, accepted: seq<bool>, st: Status, told: Option<Status>, decisions: seq<bool>) {
    && accepted == decisions
    && match pc
       case Idle => told == None
       case Working => told == None
       case Selecting => told == None
       case Taken(approve) => told == Some(if approve then Success else Failed)
       case Withdrawing(to) => told == Some(to)
       case Leaving(to) => told == Some(to)
       case Ended => told == Some(st)
  }

  /** The stage is where the steps so far have told it to be. */
  ghost predicate InTune(s: State, n: string, past: seq<Step>) {
    Tuned(LocalAt(s, n).pc, LocalAt(s, n).accepted, At(s.status, n), Told(past, n), Decisions(past, n))
  }

  predicate ActsOn(step: Step, n: string) {
    match step
    case Close(m, _) => m == n
    case Expire(m) => m == n
    case SeeCancel(m) => m == n
    case Receive(m) => m == n
    case Decide(m, _) => m == n
    case Hold(m) => m == n
    case Poll(m) => m == n
    case OpenApproval(m) => m == n
    case Forget(m) => m == n
    case Settle(m) => m == n
    case _ => false
  }

  lemma OneMoreStep(past: seq<Step>, step: Step, n: string)
    ensures Decisions(past + [step], n) == Decisions(past, n) + if step.Decide? && step.n == n then [step.approve] else []
    ensures !ActsOn(step, n) ==> Told(past + [step], n) == Told(past, n)
    ensures step == Close(n, true) ==> Told(past + [step], n) == Some(Success)
    ensures step == Close(n, false) ==> Told(past + [step], n) == Some(Failed)
    ensures step == Expire(n) ==> Told(past + [step], n) == Some(Failed)
    ensures step == SeeCancel(n) ==> Told(past + [step], n) == Some(Cancelled)
    ensures step == Receive(n) ==> Told(past + [step], n) == Some(if Decisions(past, n) == [true] then Success else Failed)
    ensures ActsOn(step, n) && !step.Close? && !step.Expire? && !step.SeeCancel? && !step.Receive? ==> Told(past + [step], n) == Told(past, n)
  {
    assert (past + [step])[..|past|] == past;
  }

  /** What a step of another stage or of the scheduler may do to a stage's goroutine: start it. */
  ghost predicate LeftAlone(s: State, t: State, n: string) {
    && LocalAt(t, n).accepted == LocalAt(s, n).accepted
    && (LocalAt(t, n).pc == LocalAt(s, n).pc || (LocalAt(s, n).pc.Idle? && LocalAt(t, n).pc.Working?))
    && (LocalAt(s, n).pc.Ended? ==> At(t.status, n) == At(s.status, n))
  }

  lemma EndedIsSettled(cfg: seq<Stage>, s: State, n: string)
    requires Inv(cfg, s)
    ensures LocalAt(s, n).pc.Ended? ==> At(s.status, n).Settled()
  {
    if n in s.status {
      assert StageRight(GraphOf(cfg), s, n);
    }
  }

  lemma ScanLeavesAlone(cfg: seq<Stage>, s: State, n: string)
    requires WellFormed(cfg) && Inv(cfg, s)
    ensures LeftAlone(s, AfterScan(cfg, s), n)
  {
    EndedIsSettled(cfg, s, n);
    PassIsRight(cfg, s.cancelled, s.status, s.wake);
    hide PassOver;
    var p := PassOver(cfg, s.cancelled, s.status, s.wake);
    assert At(p.status, n) == At(s.status, n) || At(s.status, n).Queued?;
  }

  /** The steps of the scheduler loop and of Cancel. */
  lemma LoopLeavesAlone(cfg: seq<Stage>, s: State, step: Step, n: string)
    requires Enabled(s, step)
    requires step.Launch? || step.Park? || step.WakeUp? || step.Return? || step.Nudge? || step.Report? || step.MarkCancelled? || step.CancelContext?
    ensures LeftAlone(s, Do(cfg, s, step), n)
  {
    hide AfterScan;
  }

  lemma OthersLeaveAlone(cfg: seq<Stage>, s: State, step: Step, n: string)
    requires Enabled(s, step) && !ActsOn(step, n) && !step.Scan?
    ensures LeftAlone(s, Do(cfg, s, step), n)
  {
    hide AfterScan;
    if step.Launch? || step.Park? || step.WakeUp? || step.Return? || step.Nudge? || step.Report? || step.MarkCancelled? || step.CancelContext? {
      hide Do, Enabled;
      LoopLeavesAlone(cfg, s, step, n);
    }
  }

  lemma OtherStepStaysInTune(cfg: seq<Stage>, s: State, step: Step, n: string, past: seq<Step>)
    requires WellFormed(cfg) && Inv(cfg, s) && Enabled(s, step) && InTune(s, n, past) && !ActsOn(step, n)
    ensures InTune(Do(cfg, s, step), n, past + [step])
  {
    OneMoreStep(past, step, n);
    hide Told, Decisions, WellFormed, Inv;
    if step.Scan? {
      ScanLeavesAlone(cfg, s, n);
    } else {
      OthersLeaveAlone(cfg, s, step, n);
      hide Do;
    }
    hide AfterScan;
    assert Decisions(past + [step], n) + [] == Decisions(past, n);
  }

  /** The steps that tell a stage how to end. */
  lemma EndingStepStaysInTune(cfg: seq<Stage>, s: State, step: Step, n: string, past: seq<Step>)
    requires Inv(cfg, s) && Enabled(s, step) && InTune(s, n, past) && n in s.status
    requires step == Close(n, true) || step == Close(n, false) || step == Expire(n) || step == SeeCancel(n)
    ensures InTune(Do(cfg, s, step), n, past + [step])
  {
    OneMoreStep(past, step, n);
    hide Told, Decisions, Inv, AfterScan;
    assert Decisions(past, n) + [] == Decisions(past, n);
  }

  lemma MailIsRight(cfg: seq<Stage>, s: State, n: string)
    requires Inv(cfg, s) && n in s.status
    ensures MailRight(s, n)
  {
    assert StageRight(GraphOf(cfg), s, n);
  }

  lemma ReceiveStaysInTune(cfg: seq<Stage>, s: State, n: string, past: seq<Step>)
    requires Inv(cfg, s) && Enabled(s, Receive(n)) && InTune(s, n, past) && n in s.status
    ensures InTune(Do(cfg, s, Receive(n)), n, past + [Receive(n)])
  {
    MailIsRight(cfg, s, n);
    OneMoreStep(past, Receive(n), n);
    hide Told, Decisions, Inv, AfterScan;
    var l := s.local[n];
    assert l.accepted == l.sending + l.inbox && |l.accepted| <= 1 && l.accepted == [l.inbox[0]];
    assert Decisions(past, n) + [] == Decisions(past, n);
  }

  /** A stage that starts to wait, polls again, or is sent a decision has been told nothing. */
  lemma WaitStaysInTune(cfg: seq<Stage>, s: State, step: Step, n: string, past: seq<Step>)
    requires Enabled(s, step) && InTune(s, n, past) && ActsOn(step, n) && n in s.status
    requires step.Hold? || step.Poll? || step.OpenApproval?
    ensures InTune(Do(cfg, s, step), n, past + [step])
  {
    OneMoreStep(past, step, n);
    hide Told, Decisions, AfterScan;
    assert Decisions(past, n) + [] == Decisions(past, n);
  }

  /** An approval on its way out ends as it was told. */
  lemma LeavingStaysInTune(cfg: seq<Stage>, s: State, step: Step, n: string, past: seq<Step>)
    requires Enabled(s, step) && InTune(s, n, past) && ActsOn(step, n) && n in s.status
    requires step.Forget? || step.Settle?
    ensures InTune(Do(cfg, s, step), n, past + [step])
  {
    OneMoreStep(past, step, n);
    hide Told, Decisions, AfterScan;
    assert Decisions(past, n) + [] == Decisions(past, n);
  }

  lemma DecideStaysInTune(cfg: seq<Stage>, s: State, n: string, approve: bool, past: seq<Step>)
    requires Enabled(s, Decide(n, approve)) && InTune(s, n, past) && n in s.status
    requires MailRight(s, n)
    ensures InTune(Do(cfg, s, Decide(n, approve)), n, past + [Decide(n, approve)])
  {
    OneMoreStep(past, Decide(n, approve), n);
    hide Told, Decisions, AfterScan;
  }

  /** The stage's own step. */
  lemma OwnStepStaysInTune(cfg: seq<Stage>, s: State, step: Step, n: string, past: seq<Step>)
    requires Inv(cfg, s) && Enabled(s, step) && InTune(s, n, past) && ActsOn(step, n) && n in s.status
    ensures InTune(Do(cfg, s, step), n, past + [step])
  {
    hide Inv, Do, InTune;
    match step {
      case Close(_, ok) =>
        assert step == Close(n, true) || step == Close(n, false);
        EndingStepStaysInTune(cfg, s, step, n, past);
      case Expire(_) => EndingStepStaysInTune(cfg, s, step, n, past);
      case SeeCancel(_) => EndingStepStaysInTune(cfg, s, step, n, past);
      case Receive(_) => ReceiveStaysInTune(cfg, s, n, past);
      case Decide(_, approve) =>
        assert MailRight(s, n) by { MailIsRight(cfg, s, n); }
        DecideStaysInTune(cfg, s, n, approve, past);
      case Forget(_) => LeavingStaysInTune(cfg, s, step, n, past);
      case Settle(_) => LeavingStaysInTune(cfg, s, step, n, past);
      case _ => WaitStaysInTune(cfg, s, step, n, past);
    }
  }

  lemma {:induction false} RunStaysInTune(cfg: seq<Stage>, s: State, steps: seq<Step>, n: string, past: seq<Step>)
    requires WellFormed(cfg) && Inv(cfg, s) && Exec(cfg, s, steps).Some? && InTune(s, n, past) && n in s.status
    ensures InTune(Exec(cfg, s, steps).value, n, past + steps)
    decreases |steps|
  {
    hide WellFormed, Inv, Do, InTune;
    if steps == [] {
      assert past + steps == past;
    } else {
      var step := steps[0];
      if ActsOn(step, n) {
        OwnStepStaysInTune(cfg, s, step, n, past);
      } else {
        OtherStepStaysInTune(cfg, s, step, n, past);
      }
      StepKeeps(cfg, s, step);
      StagesStay(cfg, s, Do(cfg, s, step), n);
      RunStaysInTune(cfg, Do(cfg, s, step), steps[1..], n, past + [step]);
      assert past + steps == past + [step] + steps[1..];
    }
  }

  lemma StagesStay(cfg: seq<Stage>, s: State, t: State, n: string)
    requires Inv(cfg, s) && Inv(cfg, t) && n in s.status
    ensures n in t.status
  {
  }

  lemma InitIsInTune(cfg: seq<Stage>, reused: set<string>, n: string)
    ensures InTune(Init(cfg, reused), n, [])
  {
  }

  lemma ExecHead(cfg: seq<Stage>, s: State, step: Step, rest: seq<Step>)
    requires Enabled(s, step)
    ensures Exec(cfg, s, [step] + rest) == Exec(cfg, Do(cfg, s, step), rest)
  {
    assert ([step] + rest)[1..] == rest;
    hide Do, Enabled;
  }

  lemma ExecStarts(cfg: seq<Stage>, s: State, steps: seq<Step>)
    requires Exec(cfg, s, steps).Some?
    ensures steps == [] ==> Exec(cfg, s, steps) == Some(s)
    ensures steps != [] ==> Enabled(s, steps[0]) && Exec(cfg, s, steps) == Exec(cfg, Do(cfg, s, steps[0]), steps[1..])
  {
    hide Do, Enabled;
  }

  lemma {:induction false} ExecSplits(cfg: seq<Stage>, s: State, steps: seq<Step>, k: nat)
    requires k <= |steps| && Exec(cfg, s, steps).Some?
    ensures Exec(cfg, s, steps[..k]).Some? && Exec(cfg, Exec(cfg, s, steps[..k]).value, steps[k..]) == Exec(cfg, s, steps)
    decreases k
  {
    if k == 0 {
      assert steps[..0] == [] && steps[0..] == steps;
    } else {
      hide Do, Enabled, Exec;
      ExecStarts(cfg, s, steps);
      ExecSplits(cfg, Do(cfg, s, steps[0]), steps[1..], k - 1);
      ExecHead(cfg, s, steps[0], steps[1..][..k - 1]);
      assert steps[..k] == [steps[0]] + steps[1..][..k - 1] && steps[1..][k - 1..] == steps[k..];
    }
  }

  /** The steps that tell stage n how to end. */
  predicate Tells(step: Step, n: string) {
    (step.Close? || step.Expire? || step.SeeCancel? || step.Receive?) && step.n == n
  }

  lemma ToldCannotBeTold(cfg: seq<Stage>, s: State, step: Step, n: string, past: seq<Step>)
    requires Inv(cfg, s) && Enabled(s, step) && InTune(s, n, past) && Told(past, n).Some?
    ensures !Tells(step, n) && Told(past + [step], n) == Told(past, n)
  {
    OneMoreStep(past, step, n);
    hide Told, Decisions, Inv;
  }

  /** A stage is told how to end once. */
  lemma {:induction false} ToldOnce(cfg: seq<Stage>, s: State, steps: seq<Step>, n: string, past: seq<Step>)
    requires WellFormed(cfg) && Inv(cfg, s) && Exec(cfg, s, steps).Some? && InTune(s, n, past) && n in s.status
    requires Told(past, n).Some?
    ensures Told(past + steps, n) == Told(past, n) && forall step :: step in steps ==> !Tells(step, n)
    decreases |steps|
  {
    hide WellFormed, Inv, Do, InTune, Told;
    if steps == [] {
      assert past + steps == past;
    } else {
      var step := steps[0];
      ToldCannotBeTold(cfg, s, step, n, past);
      if ActsOn(step, n) {
        OwnStepStaysInTune(cfg, s, step, n, past);
      } else {
        OtherStepStaysInTune(cfg, s, step, n, past);
      }
      StepKeeps(cfg, s, step);
      StagesStay(cfg, s, Do(cfg, s, step), n);
      ToldOnce(cfg, Do(cfg, s, step), steps[1..], n, past + [step]);
      assert past + steps == past + [step] + steps[1..];
      assert forall x :: x in steps <==> x == step || x in steps[1..];
    }
  }

  lemma WhereATunedStageIs(cfg: seq<Stage>, s: State, n: string, past: seq<Step>)
    requires Inv(cfg, s) && InTune(s, n, past) && n in s.status
    ensures s.status[n].Success? || s.status[n].Failed? ==> Told(past, n) == Some(s.status[n])
    ensures Told(past, n).Some? ==> Some(s.status[n]) == Told(past, n) || (s.local[n].kind.Approval? && s.local[n].pc.Live())
    ensures s.finished && Told(past, n).Some? ==> Told(past, n) == Some(s.status[n])
  {
    assert StageRight(GraphOf(cfg), s, n);
  }

  /** At every moment of a run: a stage that succeeded or failed was told to by a step of the run,
      and what a stage was told is its status, once the run has finished or, but for an approval
      that is still leaving, at once. */
  lemma StagesEndAsTold(cfg: seq<Stage>, reused: set<string>, steps: seq<Step>, n: string)
    requires WellFormed(cfg) && NeedsClosed(cfg, reused) && Exec(cfg, Init(cfg, reused), steps).Some? && n in StageNames(cfg)
    ensures var s, told := Exec(cfg, Init(cfg, reused), steps).value, Told(steps, n);
            && n in s.status && n in s.local
            && (s.status[n].Success? || s.status[n].Failed? ==> told == Some(s.status[n]))
            && (told.Some? ==> told == Some(s.status[n]) || (s.local[n].kind.Approval? && s.local[n].pc.Live()))
            && (told.Some? && s.finished ==> told == Some(s.status[n]))
  {
    var init := Init(cfg, reused);
    InitRight(cfg, reused);
    InitIsInTune(cfg, reused, n);
    ExecKeeps(cfg, init, steps);
    RunStaysInTune(cfg, init, steps, n, []);
    assert [] + steps == steps;
    hide Init, WellFormed, NeedsClosed, Told, InTune, StagesRight, Global;
    WhereATunedStageIs(cfg, Exec(cfg, init, steps).value, n, steps);
  }

  /** The moment after a step that tells stage n how to end. */
  lemma ToldMoment(cfg: seq<Stage>, reused: set<string>, steps: seq<Step>, i: nat, n: string) returns (mid: State)
    requires WellFormed(cfg) && NeedsClosed(cfg, reused) && Exec(cfg, Init(cfg, reused), steps).Some? && n in StageNames(cfg)
    requires i < |steps| && Tells(steps[i], n)
    ensures Inv(cfg, mid) && InTune(mid, n, steps[..i + 1]) && n in mid.status && Told(steps[..i + 1], n).Some?
    ensures Exec(cfg, mid, steps[i + 1..]) == Exec(cfg, Init(cfg, reused), steps)
  {
    hide WellFormed, NeedsClosed, Told, InTune, StagesRight, Global, Init, Exec;
    var init, front := Init(cfg, reused), steps[..i + 1];
    InitRight(cfg, reused);
    InitIsInTune(cfg, reused, n);
    ExecSplits(cfg, init, steps, i + 1);
    mid := Exec(cfg, init, front).value;
    ExecKeeps(cfg, init, front);
    RunStaysInTune(cfg, init, front, n, []);
    assert [] + front == front && front == steps[..i] + [steps[i]];
    OneMoreStep(steps[..i], steps[i], n);
    if steps[i].Close? {
      assert steps[i] == Close(n, true) || steps[i] == Close(n, false);
    }
  }

  /** Whatever tells a stage how to end is the only step of the run that does. */
  lemma EndingIsFinal(cfg: seq<Stage>, reused: set<string>, steps: seq<Step>, i: nat, n: string)
    requires WellFormed(cfg) && NeedsClosed(cfg, reused) && Exec(cfg, Init(cfg, reused), steps).Some? && n in StageNames(cfg)
    requires i < |steps| && Tells(steps[i], n)
    ensures Told(steps[..i + 1], n).Some? && Told(steps, n) == Told(steps[..i + 1], n)
    ensures forall j :: 0 <= j < |steps| && Tells(steps[j], n) ==> j <= i
  {
    hide WellFormed, NeedsClosed, Told, InTune, Inv, Init, Exec;
    var mid := ToldMoment(cfg, reused, steps, i, n);
    var front, rest := steps[..i + 1], steps[i + 1..];
    ToldOnce(cfg, mid, rest, n, front);
    assert front + rest == steps;
    assert forall j :: i < j < |steps| ==> steps[j] == rest[j - i - 1] && rest[j - i - 1] in rest;
  }

  lemma EndedStaysEnded(cfg: seq<Stage>, s: State, step: Step, n: string)
    requires WellFormed(cfg) && Inv(cfg, s) && Enabled(s, step) && n in s.status && s.local[n].pc.Ended?
    ensures var t := Do(cfg, s, step); LocalAt(t, n).pc.Ended? && At(t.status, n) == At(s.status, n)
  {
    assert StageRight(GraphOf(cfg), s, n);
    assert !ActsOn(step, n);
    if step.Scan? {
      ScanLeavesAlone(cfg, s, n);
    } else {
      OthersLeaveAlone(cfg, s, step, n);
    }
    hide Do, AfterScan;
  }

  lemma {:induction false} EndedForGood(cfg: seq<Stage>, s: State, steps: seq<Step>, n: string)
    requires WellFormed(cfg) && Inv(cfg, s) && Exec(cfg, s, steps).Some? && n in s.status && s.local[n].pc.Ended?
    ensures var t := Exec(cfg, s, steps).value; At(t.status, n) == At(s.status, n)
    decreases |steps|
  {
    hide WellFormed, Do, StagesRight, Global;
    if steps != [] {
      EndedStaysEnded(cfg, s, steps[0], n);
      StepKeeps(cfg, s, steps[0]);
      EndedForGood(cfg, Do(cfg, s, steps[0]), steps[1..], n);
    }
  }

  /** What ends a stage at once: its own work, or for a gate its deadline or the cancelled context. */
  ghost predicate EndsAtOnce(cfg: seq<Stage>, step: Step, n: string, to: Status) {
    || (step == Close(n, true) && to.Success?)
    || (step == Close(n, false) && to.Failed?)
    || (step == Expire(n) && to.Failed? && KindOf(cfg, n) == Gate)
    || (step == SeeCancel(n) && to.Cancelled? && KindOf(cfg, n) == Gate)
  }

  /** The kind of a stage, the last one of that name. */
  function KindOf(cfg: seq<Stage>, n: string): Kind {
    if cfg == [] then Deploy else if cfg[|cfg| - 1].name == n then cfg[|cfg| - 1].kind else KindOf(cfg[..|cfg| - 1], n)
  }

  ghost predicate KindsRight(cfg: seq<Stage>, s: State) {
    forall n :: n in s.local ==> s.local[n].kind == KindOf(cfg, n)
  }

  lemma {:induction false} InitKinds(cfg: seq<Stage>, reused: set<string>)
    ensures forall n :: n in InitLocals(cfg) ==> InitLocals(cfg)[n].kind == KindOf(cfg, n)
  {
    if cfg != [] {
      InitKinds(cfg[..|cfg| - 1], reused);
    }
  }

  lemma ScanLeavesLocals(cfg: seq<Stage>, s: State)
    ensures AfterScan(cfg, s).local == s.local
  {
    hide PassOver;
  }

  lemma OneLocalsKind(cfg: seq<Stage>, s: State, t: State, n: string)
    requires KindsRight(cfg, s) && n in s.local && n in t.local && t.local == s.local[n := t.local[n]] && t.local[n].kind == s.local[n].kind
    ensures KindsRight(cfg, t)
  {
  }

  lemma KindsStay(cfg: seq<Stage>, s: State, step: Step)
    requires KindsRight(cfg, s) && Enabled(s, step)
    ensures KindsRight(cfg, Do(cfg, s, step))
  {
    var t := Do(cfg, s, step);
    if step.Scan? {
      ScanLeavesLocals(cfg, s);
    } else if step.Launch? {
      OneLocalsKind(cfg, s, t, s.sched.ready[0]);
    } else if step.Close? || step.Hold? || step.Poll? || step.OpenApproval? || step.Expire? || step.SeeCancel?
      || step.Receive? || step.Forget? || step.Settle? || step.Decide? || step.Send? {
      hide KindsRight, AfterScan;
      OneLocalsKind(cfg, s, t, step.n);
    }
    hide AfterScan;
  }

  lemma {:induction false} RunKeepsKinds(cfg: seq<Stage>, s: State, steps: seq<Step>)
    requires KindsRight(cfg, s) && Exec(cfg, s, steps).Some?
    ensures KindsRight(cfg, Exec(cfg, s, steps).value)
    decreases |steps|
  {
    hide Do, KindsRight, Enabled;
    if steps != [] {
      KindsStay(cfg, s, steps[0]);
      RunKeepsKinds(cfg, Do(cfg, s, steps[0]), steps[1..]);
    }
  }

  lemma StepEnds(cfg: seq<Stage>, s: State, step: Step, n: string, to: Status)
    requires Enabled(s, step) && EndsAtOnce(cfg, step, n, to) && KindsRight(cfg, s)
    ensures var t := Do(cfg, s, step); n in t.status && n in t.local && t.local[n].pc.Ended? && t.status[n] == to
  {
  }

  /** So a deploy or gate stage that finished its work ends as its work did, and a gate whose
      deadline fired or that saw the cancelled context ends failed or cancelled: at once and for
      good. */
  lemma WorkDecides(cfg: seq<Stage>, reused: set<string>, steps: seq<Step>, i: nat, n: string, to: Status)
    requires WellFormed(cfg) && NeedsClosed(cfg, reused) && Exec(cfg, Init(cfg, reused), steps).Some?
    requires i < |steps| && EndsAtOnce(cfg, steps[i], n, to)
    ensures At(Exec(cfg, Init(cfg, reused), steps).value.status, n) == to
  {
    var init := Init(cfg, reused);
    InitKinds(cfg, reused);
    assert KindsRight(cfg, init);
    InitRight(cfg, reused);
    hide WellFormed, NeedsClosed, Init, Inv, KindsRight, Do, Enabled, EndsAtOnce, KindOf, Exec;
    ExecSplits(cfg, init, steps, i);
    var before := Exec(cfg, init, steps[..i]).value;
    ExecKeeps(cfg, init, steps[..i]);
    RunKeepsKinds(cfg, init, steps[..i]);
    ExecStarts(cfg, before, steps[i..]);
    StepEnds(cfg, before, steps[i], n, to);
    StepKeeps(cfg, before, steps[i]);
    EndedForGood(cfg, Do(cfg, before, steps[i]), steps[i..][1..], n);
  }

  // ---- Cancellation ----

  lemma StepCancels(cfg: seq<Stage>, s: State, step: Step)
    requires Enabled(s, step)
    ensures Do(cfg, s, step).cancelled <==> s.cancelled || step.MarkCancelled?
  {
    hide PassOver;
  }

  lemma {:induction false} RunCancels(cfg: seq<Stage>, s: State, steps: seq<Step>)
    requires Exec(cfg, s, steps).Some?
    ensures Exec(cfg, s, steps).value.cancelled <==> s.cancelled || MarkCancelled in steps
    decreases |steps|
  {
    hide Do, Enabled;
    if steps != [] {
      ExecStarts(cfg, s, steps);
      StepCancels(cfg, s, steps[0]);
      RunCancels(cfg, Do(cfg, s, steps[0]), steps[1..]);
      assert forall x :: x in steps <==> x == steps[0] || x in steps[1..];
    }
  }

  /** A run is cancelled exactly when a cancel was accepted, and stays so. */
  lemma CancelledWhenAsked(cfg: seq<Stage>, reused: set<string>, steps: seq<Step>)
    requires Exec(cfg, Init(cfg, reused), steps).Some?
    ensures Exec(cfg, Init(cfg, reused), steps).value.cancelled <==> MarkCancelled in steps
  {
    RunCancels(cfg, Init(cfg, reused), steps);
  }
}
