/** The invariant every reachable state of a pipeline run satisfies. */
module SchedulerInvariant {
  import opened Wrappers
  import opened NeedsGraph
  import opened PipelineConfig
  import opened SchedulePass
  import opened Scheduler

  /** A stage that was started has everything it needs done; one that was skipped has not. */
  ghost predicate NeedsRight(g: Graph, s: State, n: string) {
    var st, needs := At(s.status, n), Needs(g, n);
    && (st.Active() || st.Success? || st.Failed? || LocalAt(s, n).pc != Idle ==> AllGood(s.status, needs))
    && (st.Reused? ==> AllReused(s.status, needs))
    && (st.Skipped? ==> SomeBad(s.status, needs))
    && (st.Cancelled? ==> s.cancelled)
  }

  predicate GivesUpRight(to: Status, cancelled: bool) {
    to.Failed? || (to.Cancelled? && cancelled)
  }

  /** The goroutine's position agrees with the stage's status. */
  ghost predicate PcRight(s: State, n: string) {
    var st, l := At(s.status, n), LocalAt(s, n);
    match l.pc
    case Idle =>
      st.Queued? || st.Skipped? || st.Cancelled? || st.Reused?
      || (st.Running? && s.sched.Launching? && n in s.sched.ready)
    case Working => st.Running? || (st.Waiting? && l.kind.Gate?)
    case Selecting => st.Waiting? && !l.kind.Deploy?
    case Taken(_) => st.Waiting? && l.kind.Approval?
    case Withdrawing(to) => st.Waiting? && l.kind.Approval? && GivesUpRight(to, s.cancelled)
    case Leaving(to) => st.Waiting? && l.kind.Approval? && GivesUpRight(to, s.cancelled)
    case Ended => st.Success? || st.Failed? || st.Cancelled?
  }

  /** Decisions on their way to an approval: at most one is ever accepted, it is in one place,
      and none can be accepted unless the stage is selecting or about to withdraw. */
  ghost predicate MailRight(s: State, n: string) {
    var l := LocalAt(s, n);
    var mail := l.sending + l.inbox;
    && |l.accepted| <= 1
    && (mail == [] || mail == l.accepted)
    && (n in s.decisions ==> l.accepted == [] && l.kind.Approval? && (l.pc.Selecting? || l.pc.Withdrawing?))
    && (l.accepted != [] ==> l.kind.Approval?)
    && (l.pc.Idle? || l.pc.Working? ==> l.accepted == [])
    && (l.pc.Selecting? && l.kind.Approval? ==> n in s.decisions || (mail == l.accepted && mail != []))
    && (l.pc.Taken? ==> l.accepted == [l.pc.approve] && mail == [])
    && (l.pc.Withdrawing? || l.pc.Leaving? ==> mail == l.accepted)
    && (l.pc.Ended? && l.kind.Approval? ==> (At(s.status, n).Success? <==> l.accepted == [true] && mail == []))
  }

  ghost predicate StageRight(g: Graph, s: State, n: string) {
    NeedsRight(g, s, n) && PcRight(s, n) && MailRight(s, n)
  }

  ghost predicate ReadyList(s: State) {
    s.sched.Launching? ==>
      && (forall n :: n in s.sched.ready ==> n in s.local && s.local[n].pc.Idle? && At(s.status, n).Running?)
      && (forall i, j :: 0 <= i < j < |s.sched.ready| ==> s.sched.ready[i] != s.sched.ready[j])
  }

  /** A queued stage that can neither start nor be skipped. */
  ghost predicate Stuck(g: Graph, st: Statuses, n: string) {
    SomePending(st, Needs(g, n)) && !SomeBad(st, Needs(g, n))
  }

  /** Nothing is left for the scheduler to do until some stage changes. */
  ghost predicate Calm(g: Graph, s: State) {
    && (exists n :: n in s.status && s.status[n].Active())
    && (forall n :: n in s.status && s.status[n].Queued? ==> !s.cancelled && Stuck(g, s.status, n))
  }

  /** The scheduler has been told of everything that changed since its last pass. */
  ghost predicate Quiet(s: State) {
    (s.sched.Parked? || s.sched.Launching?) && !s.wake && s.owed == 0 && s.cancelling == 0
  }

  ghost predicate AllSettled(st: Statuses) {
    forall n :: n in st ==> st[n].Settled()
  }

  ghost predicate Shape(cfg: seq<Stage>, s: State) {
    s.status.Keys == s.local.Keys == StageNames(cfg) && s.decisions <= s.status.Keys
  }

  ghost predicate Global(g: Graph, s: State) {
    && (s.ctxDone ==> s.cancelled || s.sched.Returned?)
    && (s.cancelling > 0 ==> s.cancelled)
    && (s.finished <==> s.sched.Draining? || s.sched.Returned?)
    && (s.finished ==> AllSettled(s.status))
    && ReadyList(s)
    && (Quiet(s) ==> Calm(g, s))
  }

  ghost predicate StagesRight(g: Graph, s: State) {
    forall n {:trigger StageRight(g, s, n)} :: n in s.status ==> StageRight(g, s, n)
  }

  ghost predicate Inv(cfg: seq<Stage>, s: State) {
    Shape(cfg, s) && StagesRight(GraphOf(cfg), s) && Global(GraphOf(cfg), s)
  }

  /** Settled statuses never change; a queued stage becomes running, skipped or cancelled. */
  ghost predicate Forward(st: Statuses, st': Statuses) {
    forall n {:trigger At(st', n)} {:trigger At(st, n)} ::
      (At(st, n).Settled() ==> At(st', n) == At(st, n)) && (At(st', n).Reused? ==> At(st, n).Reused?)
  }

  lemma NeedsStayRight(g: Graph, s: State, s': State, n: string)
    requires NeedsRight(g, s, n) && Forward(s.status, s'.status)
    requires s.cancelled ==> s'.cancelled
    requires At(s'.status, n) == At(s.status, n)
    requires LocalAt(s', n).pc != Idle ==> LocalAt(s, n).pc != Idle || At(s.status, n).Running?
    ensures NeedsRight(g, s', n)
  {
    if At(s.status, n).Skipped? {
      var b :| b in Needs(g, n) && At(s.status, b).Bad();
      assert At(s'.status, b).Bad();
    }
  }

  /** A step leaves every stage right that it does not touch. */
  lemma OthersStayRight(g: Graph, s: State, s': State, x: string)
    requires StagesRight(g, s) && Forward(s.status, s'.status) && (s.cancelled ==> s'.cancelled)
    requires s'.status.Keys == s.status.Keys
    requires forall n :: n != x ==> At(s'.status, n) == At(s.status, n) && LocalAt(s', n) == LocalAt(s, n)
    requires forall n :: n != x ==> (n in s'.decisions <==> n in s.decisions)
    requires s.sched.Launching? ==> s'.sched.Launching? && forall n :: n != x && n in s.sched.ready ==> n in s'.sched.ready
    requires x in s.status ==> StageRight(g, s', x)
    ensures StagesRight(g, s')
  {
    forall n | n in s'.status ensures StageRight(g, s', n) {
      if n != x {
        assert StageRight(g, s, n);
        NeedsStayRight(g, s, s', n);
      }
    }
  }

  lemma InitRight(cfg: seq<Stage>, reused: set<string>)
    requires WellFormed(cfg) && NeedsClosed(cfg, reused)
    ensures Inv(cfg, Init(cfg, reused))
  {
    var s, g := Init(cfg, reused), GraphOf(cfg);
    forall n | n in s.status ensures StageRight(g, s, n) {
      if n in reused {
        forall m | m in Needs(g, n) ensures At(s.status, m).Reused? {
          assert Edge(g, n, m);
          NodesAreStages(cfg);
        }
      }
    }
  }

  /** With a stage, a set of stages holds everything the stage needs. */
  ghost predicate NeedsClosed(cfg: seq<Stage>, done: set<string>) {
    forall n, m :: n in done && Edge(GraphOf(cfg), n, m) ==> m in done
  }

  // ---- Preservation, one kind of step at a time ----

  lemma PassVisited(cfg: seq<Stage>, s: State, n: string) returns (x: Stage)
    requires WellFormed(cfg) && Shape(cfg, s) && n in s.status
    ensures x in cfg && x.name == n && x.needs == Needs(GraphOf(cfg), n)
    ensures var p := PassOver(cfg, s.cancelled, s.status, s.wake);
            && VisitedRight(s.cancelled, s.status, p, x)
            && OnlyQueuedMove(s.cancelled, s.status, p.status) && ReadyRight(s.status, p) && ActiveRight(p)
  {
    var i :| 0 <= i < |cfg| && cfg[i].name == n;
    GraphAt(cfg, i);
    PassIsRight(cfg, s.cancelled, s.status, s.wake);
    x := cfg[i];
    assert x in cfg;
    assert VisitedRight(s.cancelled, s.status, PassOver(cfg, s.cancelled, s.status, s.wake), x);
  }

  lemma ScannedStage(g: Graph, s: State, s': State, p: Pass, x: Stage)
    requires StageRight(g, s, x.name) && x.needs == Needs(g, x.name)
    requires OnlyQueuedMove(s.cancelled, s.status, p.status) && VisitedRight(s.cancelled, s.status, p, x)
    requires s'.status == p.status && s'.local == s.local && s'.decisions == s.decisions && s'.cancelled == s.cancelled
    requires s.sched.Scanning? && (s'.sched == Launching(p.ready) || p.ready == [])
    ensures StageRight(g, s', x.name)
  {
    assert At(s'.status, x.name) == At(p.status, x.name);
    if At(s'.status, x.name) == At(s.status, x.name) {
      NeedsStayRight(g, s, s', x.name);
    }
  }

  lemma ScanStageRight(cfg: seq<Stage>, s: State, n: string)
    requires WellFormed(cfg) && Inv(cfg, s) && s.sched.Scanning? && n in s.status
    ensures StageRight(GraphOf(cfg), AfterScan(cfg, s), n)
  {
    var x := PassVisited(cfg, s, n);
    assert StageRight(GraphOf(cfg), s, n);
    ScannedStage(GraphOf(cfg), s, AfterScan(cfg, s), PassOver(cfg, s.cancelled, s.status, s.wake), x);
  }

  lemma ScanReady(cfg: seq<Stage>, s: State)
    requires WellFormed(cfg) && Inv(cfg, s) && s.sched.Scanning?
    ensures ReadyList(AfterScan(cfg, s))
  {
    var p := PassOver(cfg, s.cancelled, s.status, s.wake);
    PassIsRight(cfg, s.cancelled, s.status, s.wake);
    forall n | n in p.ready ensures n in s.local && s.local[n].pc.Idle? && At(p.status, n).Running? {
      assert At(s.status, n).Queued? && n in p.status;
      assert StageRight(GraphOf(cfg), s, n);
    }
  }

  lemma ScanCalm(cfg: seq<Stage>, s: State)
    requires WellFormed(cfg) && Inv(cfg, s) && s.sched.Scanning? && Quiet(AfterScan(cfg, s))
    ensures Calm(GraphOf(cfg), AfterScan(cfg, s))
  {
    var s' := AfterScan(cfg, s);
    forall n | n in s'.status && s'.status[n].Queued? ensures !s'.cancelled && Stuck(GraphOf(cfg), s'.status, n) {
      PassIsRight(cfg, s.cancelled, s.status, s.wake);
      var x := PassVisited(cfg, s, n);
    }
    PassIsRight(cfg, s.cancelled, s.status, s.wake);
  }

  lemma ScanSettles(cfg: seq<Stage>, s: State)
    requires WellFormed(cfg) && Inv(cfg, s) && Enabled(s, Scan) && AfterScan(cfg, s).finished
    ensures AllSettled(AfterScan(cfg, s).status)
  {
    var s' := AfterScan(cfg, s);
    PassIsRight(cfg, s.cancelled, s.status, s.wake);
    IdlePassSettlesAll(cfg, s.cancelled, s.status, s.wake);
    forall n | n in s'.status ensures s'.status[n].Settled() {
      assert At(s'.status, n).Settled();
    }
  }

  lemma ScanStagesRight(cfg: seq<Stage>, s: State)
    requires WellFormed(cfg) && Inv(cfg, s) && Enabled(s, Scan)
    ensures Shape(cfg, AfterScan(cfg, s)) && StagesRight(GraphOf(cfg), AfterScan(cfg, s))
  {
    var s' := AfterScan(cfg, s);
    PassIsRight(cfg, s.cancelled, s.status, s.wake);
    hide StageRight;
    forall n {:trigger StageRight(GraphOf(cfg), s', n)} | n in s'.status ensures StageRight(GraphOf(cfg), s', n) {
      ScanStageRight(cfg, s, n);
    }
  }

  lemma ScanGlobal(cfg: seq<Stage>, s: State)
    requires WellFormed(cfg) && Inv(cfg, s) && Enabled(s, Scan)
    ensures Global(GraphOf(cfg), AfterScan(cfg, s))
  {
    hide WellFormed, Shape, StagesRight, ReadyList, Calm, AllSettled, PassOver;
    var s' := AfterScan(cfg, s);
    ScanReady(cfg, s);
    if s'.finished {
      ScanSettles(cfg, s);
    } else if Quiet(s') {
      ScanCalm(cfg, s);
    }
  }

  lemma ScanKeeps(cfg: seq<Stage>, s: State)
    requires WellFormed(cfg) && Inv(cfg, s) && Enabled(s, Scan)
    ensures Inv(cfg, Do(cfg, s, Scan))
  {
    hide WellFormed, Shape, StagesRight, Global, AfterScan;
    ScanStagesRight(cfg, s);
    ScanGlobal(cfg, s);
  }

  /** Everything outside stage x's own status, goroutine and mail is as before. */
  ghost predicate OnlyStage(s: State, s': State, x: string) {
    && s'.status.Keys == s.status.Keys && s'.local.Keys == s.local.Keys
    && (forall n :: n != x ==> At(s'.status, n) == At(s.status, n) && LocalAt(s', n) == LocalAt(s, n))
    && (forall n :: n != x ==> (n in s'.decisions <==> n in s.decisions))
    && s'.decisions <= s.decisions + {x}
    && s'.cancelled == s.cancelled && s'.finished == s.finished && s'.wake == s.wake
    && s'.cancelling == s.cancelling && s'.ctxDone == s.ctxDone && s'.sched == s.sched
  }

  /** A started goroutine's step: either it changes its status and owes a nudge, or it leaves
      every status alone. */
  lemma StageStepKeeps(cfg: seq<Stage>, s: State, s': State, x: string)
    requires WellFormed(cfg) && Inv(cfg, s) && x in s.status && OnlyStage(s, s', x)
    requires s.local[x].pc != Idle && s'.local[x].pc != Idle
    requires (s'.status == s.status && s'.owed == s.owed) || (s.local[x].pc.Live() && s'.owed > 0 && Forward(s.status, s'.status))
    requires StageRight(GraphOf(cfg), s', x)
    ensures Inv(cfg, s')
  {
    hide WellFormed, Global;
    var g := GraphOf(cfg);
    assert StageRight(g, s, x);
    OthersStayRight(g, s, s', x);
    StageStepGlobal(g, s, s', x);
  }

  lemma StageStepGlobal(g: Graph, s: State, s': State, x: string)
    requires Global(g, s) && x in s.status && x in s.local && OnlyStage(s, s', x)
    requires PcRight(s, x) && s.local[x].pc != Idle && s.local.Keys == s.status.Keys
    requires (s'.status == s.status && s'.owed == s.owed) || (s.local[x].pc.Live() && s'.owed > 0)
    ensures Global(g, s')
  {
    if s.finished {
      assert At(s.status, x).Settled();
    }
    if s.sched.Launching? {
      forall n | n in s.sched.ready ensures n in s'.local && s'.local[n].pc.Idle? && At(s'.status, n).Running? {
        assert n != x && LocalAt(s', n) == LocalAt(s, n);
        assert At(s'.status, n) == At(s.status, n);
      }
    }
  }

  lemma CloseKeeps(cfg: seq<Stage>, s: State, n: string, ok: bool)
    requires WellFormed(cfg) && Inv(cfg, s) && Enabled(s, Close(n, ok))
    ensures Inv(cfg, Do(cfg, s, Close(n, ok)))
  {
    hide WellFormed, Global;
    var s' := Do(cfg, s, Close(n, ok));
    assert StageRight(GraphOf(cfg), s, n);
    FinishKeeps(cfg, s, s', n, if ok then Success else Failed);
  }

  /** A live stage's status moves on to another started status. */
  lemma FinishKeeps(cfg: seq<Stage>, s: State, s': State, n: string, to: Status)
    requires WellFormed(cfg) && Inv(cfg, s) && n in s.status && s.local[n].pc.Live()
    requires OnlyStage(s, s', n) && s'.owed > 0
    requires s'.status == s.status[n := to] && !to.Queued? && !to.Skipped? && !to.Reused? && (to.Cancelled? ==> s.cancelled)
    requires s'.local[n].pc != Idle && PcRight(s', n) && MailRight(s', n)
    ensures Inv(cfg, s')
  {
    hide WellFormed, Global;
    var g := GraphOf(cfg);
    assert StageRight(g, s, n);
    StartedHasNeeds(g, s, s', n, to);
    StartedMovesForward(s, s', n, to);
    StageStepKeeps(cfg, s, s', n);
  }

  lemma StartedMovesForward(s: State, s': State, n: string, to: Status)
    requires n in s.status && PcRight(s, n) && LocalAt(s, n).pc.Live() && s'.status == s.status[n := to] && !to.Reused?
    ensures Forward(s.status, s'.status)
  {
  }

  lemma StartedHasNeeds(g: Graph, s: State, s': State, n: string, to: Status)
    requires n in s.status && StageRight(g, s, n) && LocalAt(s, n).pc.Live()
    requires s'.status == s.status[n := to] && s'.cancelled == s.cancelled
    requires !to.Queued? && !to.Skipped? && !to.Reused? && (to.Cancelled? ==> s.cancelled)
    ensures NeedsRight(g, s', n)
  {
    assert AllGood(s.status, Needs(g, n));
    forall m | m in Needs(g, n) ensures At(s'.status, m).Good() {
      assert At(s.status, m).Good() && m != n;
    }
  }

  lemma HoldKeeps(cfg: seq<Stage>, s: State, n: string)
    requires WellFormed(cfg) && Inv(cfg, s) && Enabled(s, Hold(n))
    ensures Inv(cfg, Do(cfg, s, Hold(n)))
  {
    assert StageRight(GraphOf(cfg), s, n);
    HeldStage(cfg, GraphOf(cfg), s, Hold(n));
    FinishKeeps(cfg, s, Do(cfg, s, Hold(n)), n, Waiting);
  }

  lemma PollKeeps(cfg: seq<Stage>, s: State, n: string)
    requires WellFormed(cfg) && Inv(cfg, s) && Enabled(s, Poll(n))
    ensures Inv(cfg, Do(cfg, s, Poll(n)))
  {
    hide WellFormed, Global;
    var g, s' := GraphOf(cfg), Do(cfg, s, Poll(n));
    assert StageRight(g, s, n);
    NeedsStayRight(g, s, s', n);
    StageStepKeeps(cfg, s, s', n);
  }

  lemma HeldStage(cfg: seq<Stage>, g: Graph, s: State, step: Step)
    requires (step.Hold? || step.OpenApproval?) && Enabled(s, step) && StageRight(g, s, step.n)
    ensures var s' := Do(cfg, s, step); OnlyStage(s, s', step.n) && PcRight(s', step.n) && MailRight(s', step.n)
  {
    hide NeedsRight;
  }

  lemma OpenApprovalKeeps(cfg: seq<Stage>, s: State, n: string)
    requires WellFormed(cfg) && Inv(cfg, s) && Enabled(s, OpenApproval(n))
    ensures Inv(cfg, Do(cfg, s, OpenApproval(n)))
  {
    assert StageRight(GraphOf(cfg), s, n);
    HeldStage(cfg, GraphOf(cfg), s, OpenApproval(n));
    FinishKeeps(cfg, s, Do(cfg, s, OpenApproval(n)), n, Waiting);
  }

  lemma WithdrawStage(s: State, n: string, to: Status)
    requires PcIs(s, n, Selecting) && s.local[n].kind.Approval? && MailRight(s, n) && PcRight(s, n)
    requires GivesUpRight(to, s.cancelled)
    ensures var s' := Move(s, n, Withdrawing(to)); OnlyStage(s, s', n) && PcRight(s', n) && MailRight(s', n)
  {
  }

  lemma GateGivesUpStage(s: State, n: string, to: Status)
    requires PcIs(s, n, Selecting) && s.local[n].kind.Gate? && MailRight(s, n) && GivesUpRight(to, s.cancelled)
    ensures var s' := Update(s, n, to, Ended); OnlyStage(s, s', n) && PcRight(s', n) && MailRight(s', n)
  {
  }

  lemma LeaveSelectKeeps(cfg: seq<Stage>, s: State, step: Step)
    requires WellFormed(cfg) && Inv(cfg, s) && Enabled(s, step) && (step.Expire? || step.SeeCancel?)
    ensures Inv(cfg, Do(cfg, s, step))
  {
    var g, n := GraphOf(cfg), step.n;
    var to := if step.Expire? then Failed else Cancelled;
    assert StageRight(g, s, n);
    assert Do(cfg, s, step) == LeaveSelect(s, n, to);
    assert GivesUpRight(to, s.cancelled);
    if s.local[n].kind.Approval? {
      WithdrawKeeps(cfg, s, n, to);
    } else {
      GateGivesUpStage(s, n, to);
      FinishKeeps(cfg, s, LeaveSelect(s, n, to), n, to);
    }
  }

  lemma WithdrawKeeps(cfg: seq<Stage>, s: State, n: string, to: Status)
    requires WellFormed(cfg) && Inv(cfg, s) && PcIs(s, n, Selecting) && s.local[n].kind.Approval?
    requires GivesUpRight(to, s.cancelled)
    ensures Inv(cfg, Move(s, n, Withdrawing(to)))
  {
    var s' := Move(s, n, Withdrawing(to));
    assert StageRight(GraphOf(cfg), s, n);
    WithdrawStage(s, n, to);
    NeedsStayRight(GraphOf(cfg), s, s', n);
    StageStepKeeps(cfg, s, s', n);
  }

  lemma SettleStage(cfg: seq<Stage>, g: Graph, s: State, n: string)
    requires Enabled(s, Settle(n)) && StageRight(g, s, n)
    ensures var s' := Do(cfg, s, Settle(n));
            && OnlyStage(s, s', n) && PcRight(s', n) && MailRight(s', n)
            && s'.owed > 0 && s'.local[n].pc == Ended
            && s'.status == s.status[n := s'.status[n]]
            && (s'.status[n].Success? || GivesUpRight(s'.status[n], s.cancelled))
  {
  }

  lemma SettleKeeps(cfg: seq<Stage>, s: State, n: string)
    requires WellFormed(cfg) && Inv(cfg, s) && Enabled(s, Settle(n))
    ensures Inv(cfg, Do(cfg, s, Settle(n)))
  {
    hide WellFormed, Global;
    var s' := Do(cfg, s, Settle(n));
    assert StageRight(GraphOf(cfg), s, n);
    SettleStage(cfg, GraphOf(cfg), s, n);
    FinishKeeps(cfg, s, s', n, s'.status[n]);
  }

  lemma ReceiveStage(cfg: seq<Stage>, g: Graph, s: State, n: string)
    requires Enabled(s, Receive(n)) && StageRight(g, s, n)
    ensures var s' := Do(cfg, s, Receive(n)); OnlyStage(s, s', n) && PcRight(s', n) && MailRight(s', n)
  {
    var l := s.local[n];
    assert (l.sending + l.inbox)[|l.sending|..] == l.inbox;
  }

  lemma ForgetStage(cfg: seq<Stage>, g: Graph, s: State, n: string)
    requires Enabled(s, Forget(n)) && StageRight(g, s, n)
    ensures var s' := Do(cfg, s, Forget(n)); OnlyStage(s, s', n) && PcRight(s', n) && MailRight(s', n)
  {
  }

  lemma DecideStage(cfg: seq<Stage>, g: Graph, s: State, n: string, approve: bool)
    requires Enabled(s, Decide(n, approve)) && StageRight(g, s, n) && n in s.status
    ensures var s' := Do(cfg, s, Decide(n, approve)); OnlyStage(s, s', n) && PcRight(s', n) && MailRight(s', n)
  {
    var l := s.local[n];
    assert l.accepted == [] && l.sending + l.inbox == [];
    assert l.sending == [] && l.inbox == [];
  }

  lemma SendStage(cfg: seq<Stage>, g: Graph, s: State, n: string)
    requires Enabled(s, Send(n)) && StageRight(g, s, n) && n in s.status
    ensures var s' := Do(cfg, s, Send(n)); OnlyStage(s, s', n) && PcRight(s', n) && MailRight(s', n)
  {
    var l := s.local[n];
    assert l.sending[1..] + (l.inbox + [l.sending[0]]) == l.sending + l.inbox;
  }

  lemma MailStage(cfg: seq<Stage>, g: Graph, s: State, step: Step)
    requires Enabled(s, step) && (step.Receive? || step.Forget? || step.Decide? || step.Send?)
    requires StageRight(g, s, step.n) && step.n in s.status
    ensures var s', n := Do(cfg, s, step), step.n;
            && OnlyStage(s, s', n) && PcRight(s', n) && MailRight(s', n)
            && s'.status == s.status && s'.owed == s.owed && s'.local[n].pc != Idle && s.local[n].pc != Idle
  {
    match step {
      case Receive(n) => ReceiveStage(cfg, g, s, n);
      case Forget(n) => ForgetStage(cfg, g, s, n);
      case Decide(n, approve) => DecideStage(cfg, g, s, n, approve);
      case Send(n) => SendStage(cfg, g, s, n);
    }
  }

  lemma MailKeeps(cfg: seq<Stage>, s: State, step: Step)
    requires WellFormed(cfg) && Inv(cfg, s) && Enabled(s, step)
    requires step.Receive? || step.Forget? || step.Decide? || step.Send?
    ensures Inv(cfg, Do(cfg, s, step))
  {
    hide WellFormed, Global;
    var g, s' := GraphOf(cfg), Do(cfg, s, step);
    assert StageRight(g, s, step.n);
    MailStage(cfg, g, s, step);
    NeedsStayRight(g, s, s', step.n);
    StageStepKeeps(cfg, s, s', step.n);
  }

  lemma LaunchStage(cfg: seq<Stage>, g: Graph, s: State)
    requires Enabled(s, Launch) && ReadyList(s) && s.local.Keys == s.status.Keys
    requires StageRight(g, s, s.sched.ready[0])
    ensures var s', x := Do(cfg, s, Launch), s.sched.ready[0];
            StageRight(g, s', x) && ReadyList(s') && forall n :: n != x && n in s.sched.ready ==> n in s'.sched.ready
  {
    var s', x := Do(cfg, s, Launch), s.sched.ready[0];
    NeedsStayRight(g, s, s', x);
    assert s.sched.ready == [x] + s'.sched.ready;
    assert x !in s'.sched.ready;
  }

  lemma LaunchKeeps(cfg: seq<Stage>, s: State)
    requires WellFormed(cfg) && Inv(cfg, s) && Enabled(s, Launch)
    ensures Inv(cfg, Do(cfg, s, Launch))
  {
    var g, s', x := GraphOf(cfg), Do(cfg, s, Launch), s.sched.ready[0];
    assert StageRight(g, s, x);
    LaunchStage(cfg, g, s);
    OthersStayRight(g, s, s', x);
  }

  /** Steps of the scheduler loop and of Cancel that touch no stage. */
  predicate LoopStep(step: Step) {
    step.Park? || step.WakeUp? || step.Return? || step.Nudge? || step.Report? || step.MarkCancelled? || step.CancelContext?
  }

  lemma LoopStage(cfg: seq<Stage>, g: Graph, s: State, step: Step, n: string)
    requires Enabled(s, step) && LoopStep(step) && StageRight(g, s, n)
    ensures StageRight(g, Do(cfg, s, step), n)
  {
    NeedsStayRight(g, s, Do(cfg, s, step), n);
  }

  lemma LoopGlobal(cfg: seq<Stage>, g: Graph, s: State, step: Step)
    requires Enabled(s, step) && LoopStep(step) && Global(g, s)
    ensures Global(g, Do(cfg, s, step))
  {
  }

  lemma LoopStepKeeps(cfg: seq<Stage>, s: State, step: Step)
    requires WellFormed(cfg) && Inv(cfg, s) && Enabled(s, step) && LoopStep(step)
    ensures Inv(cfg, Do(cfg, s, step))
  {
    var g, s' := GraphOf(cfg), Do(cfg, s, step);
    forall n | n in s'.status ensures StageRight(g, s', n) {
      assert StageRight(g, s, n);
      LoopStage(cfg, g, s, step, n);
    }
    LoopGlobal(cfg, g, s, step);
  }

  lemma StepKeeps(cfg: seq<Stage>, s: State, step: Step)
    requires WellFormed(cfg) && Inv(cfg, s) && Enabled(s, step)
    ensures Inv(cfg, Do(cfg, s, step))
  {
    hide WellFormed, Inv, Do;
    match step
    case Scan => ScanKeeps(cfg, s);
    case Launch => LaunchKeeps(cfg, s);
    case Close(n, ok) => CloseKeeps(cfg, s, n, ok);
    case Hold(n) => HoldKeeps(cfg, s, n);
    case Poll(n) => PollKeeps(cfg, s, n);
    case OpenApproval(n) => OpenApprovalKeeps(cfg, s, n);
    case Expire(_) => LeaveSelectKeeps(cfg, s, step);
    case SeeCancel(_) => LeaveSelectKeeps(cfg, s, step);
    case Settle(n) => SettleKeeps(cfg, s, n);
    case Receive(_) => MailKeeps(cfg, s, step);
    case Forget(_) => MailKeeps(cfg, s, step);
    case Decide(_, _) => MailKeeps(cfg, s, step);
    case Send(_) => MailKeeps(cfg, s, step);
    case _ => LoopStepKeeps(cfg, s, step);
  }

  lemma {:induction false} ExecKeeps(cfg: seq<Stage>, s: State, steps: seq<Step>)
    requires WellFormed(cfg) && Inv(cfg, s) && Exec(cfg, s, steps).Some?
    ensures Inv(cfg, Exec(cfg, s, steps).value)
    decreases |steps|
  {
    if steps != [] {
      StepKeeps(cfg, s, steps[0]);
      ExecKeeps(cfg, Do(cfg, s, steps[0]), steps[1..]);
    }
  }

  /** What a run has done is closed under needs at every moment. */
  lemma DoneIsClosed(cfg: seq<Stage>, s: State)
    requires WellFormed(cfg) && Inv(cfg, s)
    ensures NeedsClosed(cfg, Done(s))
  {
    var g := GraphOf(cfg);
    forall n, m | n in Done(s) && Edge(g, n, m) ensures m in Done(s) {
      assert StageRight(g, s, n);
      NodesAreStages(cfg);
    }
  }

  /** Every state of every run in every chain of reruns satisfies the invariant. */
  lemma {:induction false} ReachableRight(cfg: seq<Stage>, generation: nat, s: State)
    requires WellFormed(cfg) && Reachable(cfg, generation, s)
    ensures Inv(cfg, s)
  {
    var reused: set<string> := {};
    if generation > 0 {
      var source :| Reachable(cfg, generation - 1, source) && ReachableFrom(cfg, Init(cfg, Done(source)), s);
      ReachableRight(cfg, generation - 1, source);
      DoneIsClosed(cfg, source);
      reused := Done(source);
    }
    InitRight(cfg, reused);
    var steps :| Exec(cfg, Init(cfg, reused), steps) == Some(s);
    ExecKeeps(cfg, Init(cfg, reused), steps);
  }
}
