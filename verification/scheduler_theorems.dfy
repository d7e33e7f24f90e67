/** What holds of every run of a validated pipeline, whatever the interleaving and however
    long the chain of reruns it belongs to. */
module SchedulerTheorems {
  import opened NeedsGraph
  import opened PipelineConfig
  import opened SchedulePass
  import opened Scheduler
  import opened SchedulerInvariant

  /** The invariant without the configuration it came from. */
  ghost predicate Sound(g: Graph, s: State) {
    s.status.Keys == s.local.Keys && StagesRight(g, s) && Global(g, s)
  }

  lemma ReachableIsSound(cfg: seq<Stage>, generation: nat, s: State)
    requires WellFormed(cfg) && Reachable(cfg, generation, s)
    ensures Sound(GraphOf(cfg), s)
  {
    ReachableRight(cfg, generation, s);
  }

  lemma SettledSuccess(g: Graph, s: State)
    requires Sound(g, s) && s.finished
    ensures forall n :: n in s.status ==> !s.status[n].Queued? && !s.status[n].Running? && !s.status[n].Waiting?
    ensures StatusOf(s) == RunSuccess <==> !s.cancelled && forall n :: n in s.status ==> s.status[n].Good()
  {
    if StatusOf(s) == RunSuccess {
      forall n | n in s.status ensures s.status[n].Good() {
        assert s.status[n] == Failed ==> Any(s.status, Failed);
        assert s.status[n] == Skipped ==> Any(s.status, Skipped);
        assert s.status[n] == Cancelled ==> Any(s.status, Cancelled);
      }
    }
  }

  /** When FinishedAt is set no stage is queued, running or waiting, and the run is a success
      exactly when it was not cancelled and every stage was done here or reused. */
  lemma FinishedRunIsSettled(cfg: seq<Stage>, generation: nat, s: State)
    requires WellFormed(cfg) && Reachable(cfg, generation, s) && s.finished
    ensures forall n :: n in s.status ==> !s.status[n].Queued? && !s.status[n].Running? && !s.status[n].Waiting?
    ensures StatusOf(s) == RunSuccess <==> !s.cancelled && forall n :: n in s.status ==> s.status[n].Good()
  {
    ReachableIsSound(cfg, generation, s);
    SettledSuccess(GraphOf(cfg), s);
  }

  lemma LiveWhenActive(g: Graph, s: State, n: string)
    requires Sound(g, s) && n in s.status && s.status[n].Active() && !s.sched.Launching?
    ensures s.local[n].pc.Live()
  {
    assert StageRight(g, s, n);
  }

  lemma StuckMeansNotStartable(g: Graph, st: Statuses, n: string)
    requires Stuck(g, st, n)
    ensures !SomeBad(st, Needs(g, n)) && !AllGood(st, Needs(g, n))
  {
    var m :| m in Needs(g, n) && !At(st, m).Settled();
    assert !At(st, m).Good();
  }

  /** A parked scheduler that no nudge is on its way to has been told everything: a live
      goroutine is still at work, and no queued stage could be started or skipped. */
  lemma NoLostWakeup(cfg: seq<Stage>, generation: nat, s: State) returns (worker: string)
    requires WellFormed(cfg) && Reachable(cfg, generation, s)
    requires s.sched.Parked? && !s.wake && s.owed == 0 && s.cancelling == 0
    ensures worker in s.local && At(s.status, worker).Active() && s.local[worker].pc.Live()
    ensures forall n :: n in s.status && s.status[n].Queued? ==>
              !s.cancelled && !SomeBad(s.status, Needs(GraphOf(cfg), n)) && !AllGood(s.status, Needs(GraphOf(cfg), n))
  {
    ReachableIsSound(cfg, generation, s);
    worker := QuietHasWorker(GraphOf(cfg), s);
  }

  lemma QuietHasWorker(g: Graph, s: State) returns (worker: string)
    requires Sound(g, s) && Quiet(s) && s.sched.Parked?
    ensures worker in s.local && At(s.status, worker).Active() && s.local[worker].pc.Live()
    ensures forall n :: n in s.status && s.status[n].Queued? ==>
              !s.cancelled && !SomeBad(s.status, Needs(g, n)) && !AllGood(s.status, Needs(g, n))
  {
    worker :| worker in s.status && s.status[worker].Active();
    LiveWhenActive(g, s, worker);
    forall n | n in s.status && s.status[n].Queued?
      ensures !s.cancelled && !SomeBad(s.status, Needs(g, n)) && !AllGood(s.status, Needs(g, n)) {
      StuckMeansNotStartable(g, s.status, n);
    }
  }

  /** A step a live goroutine can take without waiting for anyone. */
  function NextOf(s: State, n: string): Step
    requires n in s.local
  {
    match s.local[n].pc
    case Working => if s.local[n].kind.Approval? then OpenApproval(n) else Close(n, true)
    case Selecting => Expire(n)
    case Withdrawing(_) => Forget(n)
    case _ => Settle(n)
  }

  lemma FinishedHasNoWorker(g: Graph, s: State)
    requires Sound(g, s) && s.finished
    ensures forall n :: n in s.local ==> !s.local[n].pc.Live()
  {
    forall n | n in s.local ensures !s.local[n].pc.Live() {
      assert StageRight(g, s, n);
    }
  }

  /** A step that some thread of the run takes by itself, and that is not merely another round
      of polling or another item update. */
  predicate Progress(step: Step) {
    !step.Poll? && !step.Report? && !step.Decide? && !step.MarkCancelled?
  }

  /** A run that has not returned is never deadlocked. */
  lemma NeverDeadlocked(cfg: seq<Stage>, generation: nat, s: State) returns (step: Step)
    requires WellFormed(cfg) && Reachable(cfg, generation, s) && !s.sched.Returned?
    ensures Enabled(s, step) && Progress(step)
  {
    ReachableIsSound(cfg, generation, s);
    step := SoundCanStep(GraphOf(cfg), s);
  }

  lemma SoundCanStep(g: Graph, s: State) returns (step: Step)
    requires Sound(g, s) && !s.sched.Returned?
    ensures Enabled(s, step) && Progress(step)
  {
    match s.sched {
      case Scanning => step := Scan;
      case Launching(ready) =>
        step := if ready == [] then Park else Launch;
      case Draining =>
        FinishedHasNoWorker(g, s);
        step := Return;
      case Parked =>
        if s.wake {
          step := WakeUp;
        } else if s.owed > 0 {
          step := Nudge;
        } else if s.cancelling > 0 {
          step := CancelContext;
        } else {
          var n := QuietHasWorker(g, s);
          step := NextOf(s, n);
        }
    }
  }

  lemma StepAfterFinish(cfg: seq<Stage>, s: State, step: Step)
    requires s.finished && (s.sched.Draining? || s.sched.Returned?) && Enabled(s, step)
    requires forall n :: n in s.local ==> !s.local[n].pc.Live()
    ensures var t := Do(cfg, s, step); t.finished && t.status == s.status && t.cancelled == s.cancelled
  {
  }

  /** Once FinishedAt is set nothing changes a stage or the outcome any more. */
  lemma FinishedIsFinal(cfg: seq<Stage>, generation: nat, s: State, steps: seq<Step>)
    requires WellFormed(cfg) && Reachable(cfg, generation, s) && s.finished && Exec(cfg, s, steps).Some?
    ensures var t := Exec(cfg, s, steps).value; t.finished && t.status == s.status && t.cancelled == s.cancelled
  {
    ReachableRight(cfg, generation, s);
    FinishedStays(cfg, s, steps);
  }

  lemma {:induction false} FinishedStays(cfg: seq<Stage>, s: State, steps: seq<Step>)
    requires WellFormed(cfg) && Inv(cfg, s) && s.finished && Exec(cfg, s, steps).Some?
    ensures var t := Exec(cfg, s, steps).value; t.finished && t.status == s.status && t.cancelled == s.cancelled
    decreases |steps|
  {
    if steps != [] {
      FinishedHasNoWorker(GraphOf(cfg), s);
      StepAfterFinish(cfg, s, steps[0]);
      StepKeeps(cfg, s, steps[0]);
      FinishedStays(cfg, Do(cfg, s, steps[0]), steps[1..]);
    }
  }

  // ---- Needs ----

  lemma StartedNeedDone(g: Graph, s: State, n: string, m: string)
    requires Sound(g, s) && n in s.local && (s.local[n].pc != Idle || s.status[n].Good()) && Edge(g, n, m)
    requires m in s.status
    ensures m in Done(s)
  {
    assert StageRight(g, s, n);
    assert At(s.status, m).Good();
  }

  /** Every stage that was started or reused has everything it needs done, so what a rerun
      reuses is closed under needs. */
  lemma StartedStagesHaveTheirNeeds(cfg: seq<Stage>, generation: nat, s: State, n: string, m: string)
    requires WellFormed(cfg) && Reachable(cfg, generation, s)
    requires n in s.local && (s.local[n].pc != Idle || At(s.status, n).Good()) && Edge(GraphOf(cfg), n, m)
    ensures m in Done(s)
  {
    ReachableRight(cfg, generation, s);
    NodesAreStages(cfg);
    StartedNeedDone(GraphOf(cfg), s, n, m);
  }
}
