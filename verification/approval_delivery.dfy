/** Delivery of approval decisions (internal/pipeline/pipeline.go, Decide, runApproval, forget). */
module ApprovalDelivery {
  import opened Wrappers
  import opened NeedsGraph
  import opened PipelineConfig
  import opened SchedulePass
  import opened Scheduler
  import opened SchedulerInvariant
  import opened SchedulerTheorems

  /** At most one decision is ever accepted for a stage. A decisions entry exists only while the
      stage is waiting and nothing was accepted. A send finds the one-slot channel empty. An
      approval ends in success exactly when an approve was accepted and the stage took it. */
  lemma DecisionsAreDelivered(cfg: seq<Stage>, generation: nat, s: State, n: string)
    requires WellFormed(cfg) && Reachable(cfg, generation, s) && n in s.local
    ensures |s.local[n].accepted| <= 1
    ensures n in s.decisions ==> At(s.status, n).Waiting? && s.local[n].kind.Approval? && s.local[n].accepted == []
    ensures s.local[n].sending != [] ==> |s.local[n].sending| == 1 && s.local[n].inbox == []
    ensures s.local[n].kind.Approval? && s.local[n].pc.Ended? ==>
              (At(s.status, n).Success? <==> s.local[n].accepted == [true] && s.local[n].sending + s.local[n].inbox == [])
  {
    ReachableIsSound(cfg, generation, s);
    StageMail(GraphOf(cfg), s, n);
  }

  lemma StageMail(g: Graph, s: State, n: string)
    requires Sound(g, s) && n in s.local
    ensures |s.local[n].accepted| <= 1
    ensures n in s.decisions ==> At(s.status, n).Waiting? && s.local[n].kind.Approval? && s.local[n].accepted == []
    ensures s.local[n].sending != [] ==> |s.local[n].sending| == 1 && s.local[n].inbox == []
    ensures s.local[n].kind.Approval? && s.local[n].pc.Ended? ==>
              (At(s.status, n).Success? <==> s.local[n].accepted == [true] && s.local[n].sending + s.local[n].inbox == [])
  {
    assert StageRight(g, s, n);
    var l := s.local[n];
    if l.sending != [] {
      assert |l.sending + l.inbox| == |l.sending| + |l.inbox|;
    }
  }

  lemma SelectingMail(g: Graph, s: State, n: string)
    requires Sound(g, s) && n in s.local && s.local[n].kind.Approval? && s.local[n].pc.Selecting?
    ensures n in s.decisions ==> forall approve :: Enabled(s, Decide(n, approve))
    ensures n !in s.decisions ==> Enabled(s, Send(n)) || Enabled(s, Receive(n))
  {
    assert StageRight(g, s, n);
    var l := s.local[n];
    if n !in s.decisions && l.inbox == [] {
      assert l.sending + l.inbox == l.sending;
    }
  }

  /** An approval that blocks in its select either can still be decided, or its decision is
      already on its way. */
  lemma WaitingApprovalCanBeDecided(cfg: seq<Stage>, generation: nat, s: State, n: string)
    requires WellFormed(cfg) && Reachable(cfg, generation, s)
    requires n in s.local && s.local[n].kind.Approval? && s.local[n].pc.Selecting?
    ensures n in s.decisions ==> forall approve :: Enabled(s, Decide(n, approve))
    ensures n !in s.decisions ==> Enabled(s, Send(n)) || Enabled(s, Receive(n))
  {
    ReachableIsSound(cfg, generation, s);
    SelectingMail(GraphOf(cfg), s, n);
  }

  // ---- When an accepted decision takes effect ----

  /** The stage stops waiting for a decision. */
  predicate GivesUp(step: Step, n: string) {
    step == Expire(n) || step == SeeCancel(n)
  }

  function Asked(approve: bool): Status {
    if approve then Success else Failed
  }

  /** The approval has not given up, and if it has ended it ended as its decision asked. */
  ghost predicate Honours(s: State, n: string) {
    && n in s.local && s.local[n].kind.Approval? && !s.local[n].pc.Withdrawing? && !s.local[n].pc.Leaving?
    && (s.local[n].pc.Ended? ==> s.local[n].accepted != [] && At(s.status, n) == Asked(s.local[n].accepted[0]))
  }

  /** The stage has stopped waiting: it ends failed or cancelled. */
  ghost predicate HasGivenUp(s: State, n: string) {
    && n in s.local && s.local[n].kind.Approval?
    && (s.local[n].pc.Withdrawing? || s.local[n].pc.Leaving? || (s.local[n].pc.Ended? && !At(s.status, n).Success?))
  }

  lemma OwnStepHonours(cfg: seq<Stage>, g: Graph, s: State, step: Step, n: string)
    requires Enabled(s, step) && StageRight(g, s, n) && Honours(s, n) && !GivesUp(step, n)
    requires step.Receive? || step.Settle? || step.Send? || step.Decide?
    ensures Honours(Do(cfg, s, step), n)
  {
    hide NeedsRight, AfterScan;
  }

  lemma ScanLeavesStarted(cfg: seq<Stage>, s: State, n: string)
    requires DistinctNames(cfg) && s.status.Keys == StageNames(cfg) && s.sched.Scanning? && !At(s.status, n).Queued?
    ensures At(AfterScan(cfg, s).status, n) == At(s.status, n) && AfterScan(cfg, s).local == s.local
  {
    hide PassOver;
    PassIsRight(cfg, s.cancelled, s.status, s.wake);
    assert At(PassOver(cfg, s.cancelled, s.status, s.wake).status, n) == At(s.status, n);
  }

  lemma OtherStepHonours(cfg: seq<Stage>, g: Graph, s: State, step: Step, n: string)
    requires StageRight(g, s, n) && Enabled(s, step) && Honours(s, n) && !GivesUp(step, n)
    requires !step.Receive? && !step.Settle? && !step.Send? && !step.Decide? && !step.Scan?
    ensures Honours(Do(cfg, s, step), n)
  {
    hide NeedsRight, MailRight, AfterScan;
  }

  lemma StepHonours(cfg: seq<Stage>, s: State, step: Step, n: string)
    requires WellFormed(cfg) && Inv(cfg, s) && Enabled(s, step) && Honours(s, n)
    ensures if GivesUp(step, n) then HasGivenUp(Do(cfg, s, step), n) else Honours(Do(cfg, s, step), n)
  {
    var g := GraphOf(cfg);
    assert StageRight(g, s, n);
    hide Global, Acyclic;
    if step.Scan? {
      if s.local[n].pc.Ended? {
        ScanLeavesStarted(cfg, s, n);
      }
    } else if GivesUp(step, n) {
      assert Do(cfg, s, step) == LeaveSelect(s, n, if step.Expire? then Failed else Cancelled);
    } else {
      hide Do;
      if step.Receive? || step.Settle? || step.Send? || step.Decide? {
        OwnStepHonours(cfg, g, s, step, n);
      } else {
        OtherStepHonours(cfg, g, s, step, n);
      }
    }
  }

  lemma OtherStepStaysGivenUp(cfg: seq<Stage>, g: Graph, s: State, step: Step, n: string)
    requires StageRight(g, s, n) && Enabled(s, step) && HasGivenUp(s, n) && !step.Scan?
    ensures HasGivenUp(Do(cfg, s, step), n)
  {
    hide NeedsRight, MailRight, AfterScan;
  }

  lemma StepStaysGivenUp(cfg: seq<Stage>, s: State, step: Step, n: string)
    requires WellFormed(cfg) && Inv(cfg, s) && Enabled(s, step) && HasGivenUp(s, n)
    ensures HasGivenUp(Do(cfg, s, step), n)
  {
    var g := GraphOf(cfg);
    assert StageRight(g, s, n);
    hide Global, Acyclic;
    if step.Scan? {
      ScanLeavesStarted(cfg, s, n);
    } else {
      OtherStepStaysGivenUp(cfg, g, s, step, n);
    }
  }

  lemma {:induction false} StaysGivenUp(cfg: seq<Stage>, s: State, steps: seq<Step>, n: string)
    requires WellFormed(cfg) && Inv(cfg, s) && Exec(cfg, s, steps).Some? && HasGivenUp(s, n)
    ensures HasGivenUp(Exec(cfg, s, steps).value, n)
    decreases |steps|
  {
    if steps != [] {
      hide WellFormed, Inv, Do, HasGivenUp;
      StepStaysGivenUp(cfg, s, steps[0], n);
      StepKeeps(cfg, s, steps[0]);
      StaysGivenUp(cfg, Do(cfg, s, steps[0]), steps[1..], n);
    }
  }

  ghost predicate GivenUpIn(steps: seq<Step>, n: string) {
    exists i :: 0 <= i < |steps| && GivesUp(steps[i], n)
  }

  lemma GivenUpFirstOrLater(steps: seq<Step>, n: string)
    requires steps != []
    ensures GivenUpIn(steps, n) <==> GivesUp(steps[0], n) || GivenUpIn(steps[1..], n)
  {
    if i :| 0 <= i < |steps| && GivesUp(steps[i], n) {
      assert i > 0 ==> steps[1..][i - 1] == steps[i];
    }
    if i :| 0 <= i < |steps[1..]| && GivesUp(steps[1..][i], n) {
      assert steps[i + 1] == steps[1..][i];
    }
  }

  lemma {:induction false} HonouredOrGivenUp(cfg: seq<Stage>, s: State, steps: seq<Step>, n: string)
    requires WellFormed(cfg) && Inv(cfg, s) && Exec(cfg, s, steps).Some? && Honours(s, n)
    ensures var t := Exec(cfg, s, steps).value; if GivenUpIn(steps, n) then HasGivenUp(t, n) else Honours(t, n)
    decreases |steps|
  {
    if steps != [] {
      hide WellFormed, Inv, Do, Honours, HasGivenUp, GivesUp, GivenUpIn;
      var s', rest := Do(cfg, s, steps[0]), steps[1..];
      GivenUpFirstOrLater(steps, n);
      StepKeeps(cfg, s, steps[0]);
      StepHonours(cfg, s, steps[0], n);
      if GivesUp(steps[0], n) {
        StaysGivenUp(cfg, s', rest, n);
      } else {
        HonouredOrGivenUp(cfg, s', rest, n);
      }
    }
  }

  /** What became of an accepted decision once its approval has ended: without a deadline or a
      cancel that made the stage give up it ended as asked, and an approve ended in success in no
      other case. */
  ghost predicate TookEffect(t: State, steps: seq<Step>, n: string, approve: bool) {
    n in t.local && t.local[n].pc.Ended? && t.local[n].accepted == [approve] ==>
      && (!GivenUpIn(steps, n) ==> At(t.status, n) == Asked(approve))
      && (approve ==> (At(t.status, n).Success? <==> !GivenUpIn(steps, n)))
  }

  /** From any moment at which the approval has not given up, whether its decision was accepted
      before, is accepted later, or is accepted in the gap between giving up and withdrawing the
      entry: it takes effect exactly when the stage does not give up, whatever else happens. */
  lemma AcceptedDecisionTakesEffect(cfg: seq<Stage>, generation: nat, s: State, steps: seq<Step>, n: string, approve: bool)
    requires WellFormed(cfg) && Reachable(cfg, generation, s) && Exec(cfg, s, steps).Some? && Honours(s, n)
    ensures TookEffect(Exec(cfg, s, steps).value, steps, n, approve)
  {
    ReachableRight(cfg, generation, s);
    hide WellFormed, Inv, Reachable, Exec, GivenUpIn;
    HonouredOrGivenUp(cfg, s, steps, n);
  }

  /** So for every decision ever accepted in a run, from its start on. */
  lemma DecisionsOfARunTakeEffect(cfg: seq<Stage>, reused: set<string>, steps: seq<Step>, n: string, approve: bool)
    requires WellFormed(cfg) && NeedsClosed(cfg, reused) && Exec(cfg, Init(cfg, reused), steps).Some?
    requires n in Init(cfg, reused).local && Init(cfg, reused).local[n].kind.Approval?
    ensures TookEffect(Exec(cfg, Init(cfg, reused), steps).value, steps, n, approve)
  {
    InitRight(cfg, reused);
    assert Honours(Init(cfg, reused), n);
    hide WellFormed, Inv, Exec, GivenUpIn, Init, NeedsClosed;
    HonouredOrGivenUp(cfg, Init(cfg, reused), steps, n);
  }

  // ---- What an accepted decision does not guarantee ----

  const SIGN_OFF := "sign-off"
  const GATED: seq<Stage> := [Stage(SIGN_OFF, Approval, [])]

  /** The one-stage pipeline's state, with its goroutine and mail. */
  function GatedState(st: Status, l: Local, decisions: set<string>, owed: nat, sched: Sched): State {
    State(map[SIGN_OFF := st], map[SIGN_OFF := l], decisions, false, false, false, owed, 0, false, sched)
  }

  predicate Leads(s: State, step: Step, t: State) {
    Enabled(s, step) && Do(GATED, s, step) == t
  }

  lemma GatedStart()
    ensures Init(GATED, {}) == GatedState(Queued, Local(Approval, Idle, [], [], []), {}, 0, Scanning)
  {
    assert GATED[..0] == [];
    assert InitLocals(GATED).Keys == {SIGN_OFF} == InitStatuses(GATED, {}).Keys;
    assert InitLocals(GATED)[SIGN_OFF] == Local(Approval, Idle, [], [], []);
  }

  lemma GatedPass()
    ensures PassOver(GATED, false, map[SIGN_OFF := Queued], false) == Pass(map[SIGN_OFF := Running], false, true, [SIGN_OFF])
  {
    assert GATED[..0] == [];
    var p := PassOver(GATED[..0], false, map[SIGN_OFF := Queued], false);
    assert p == Pass(map[SIGN_OFF := Queued], false, false, []);
    assert !SomeBad(p.status, []) && !SomePending(p.status, []);
    assert GATED[|GATED| - 1] == GATED[0];
  }

  lemma ExecFirst(s: State, step: Step, t: State, rest: seq<Step>)
    requires Leads(s, step, t)
    ensures Exec(GATED, s, [step] + rest) == Exec(GATED, t, rest)
  {
    assert ([step] + rest)[1..] == rest;
  }

  lemma TakeThree(a: State, x: Step, b: State, y: Step, c: State, z: Step, d: State) returns (steps: seq<Step>)
    requires Leads(a, x, b) && Leads(b, y, c) && Leads(c, z, d)
    ensures Exec(GATED, a, steps) == Some(d)
  {
    ExecFirst(c, z, d, []);
    ExecFirst(b, y, c, [z] + []);
    steps := [x] + ([y] + ([z] + []));
    ExecFirst(a, x, b, [y] + ([z] + []));
  }

  /** The stage with an accepted approval that was not yet sent. */
  function Unsent(st: Status, pc: Pc, owed: nat): State {
    GatedState(st, Local(Approval, pc, [true], [], [true]), {}, owed, Parked)
  }

  lemma DeadlineFires()
    ensures Leads(Unsent(Waiting, Selecting, 1), Expire(SIGN_OFF), Unsent(Waiting, Withdrawing(Failed), 1))
  {
  }

  lemma EntryForgotten()
    ensures Leads(Unsent(Waiting, Withdrawing(Failed), 1), Forget(SIGN_OFF), Unsent(Waiting, Leaving(Failed), 1))
  {
    assert {} - {SIGN_OFF} == {};
  }

  lemma StageFails()
    ensures Leads(Unsent(Waiting, Leaving(Failed), 1), Settle(SIGN_OFF), Unsent(Failed, Ended, 2))
  {
  }

  /** The stage opens and its approval is accepted. */
  lemma OpenAndApprove(rest: seq<Step>) returns (steps: seq<Step>)
    ensures Exec(GATED, GatedState(Running, Local(Approval, Working, [], [], []), {}, 0, Parked), steps)
         == Exec(GATED, Unsent(Waiting, Selecting, 1), rest)
  {
    var s3 := GatedState(Running, Local(Approval, Working, [], [], []), {}, 0, Parked);
    var s4 := GatedState(Waiting, Local(Approval, Selecting, [], [], []), {SIGN_OFF}, 1, Parked);
    var s5 := Unsent(Waiting, Selecting, 1);
    assert Leads(s4, Decide(SIGN_OFF, true), s5) by {
      assert [] + [true] == [true] && {SIGN_OFF} - {SIGN_OFF} == {};
    }
    ExecFirst(s4, Decide(SIGN_OFF, true), s5, rest);
    ExecFirst(s3, OpenApproval(SIGN_OFF), s4, [Decide(SIGN_OFF, true)] + rest);
    steps := [OpenApproval(SIGN_OFF)] + ([Decide(SIGN_OFF, true)] + rest);
  }

  /** The first pass starts the stage. */
  lemma StartStage(rest: seq<Step>) returns (steps: seq<Step>)
    ensures Exec(GATED, Init(GATED, {}), steps)
         == Exec(GATED, GatedState(Running, Local(Approval, Working, [], [], []), {}, 0, Parked), rest)
  {
    var s0 := GatedState(Queued, Local(Approval, Idle, [], [], []), {}, 0, Scanning);
    var s1 := GatedState(Running, Local(Approval, Idle, [], [], []), {}, 0, Launching([SIGN_OFF]));
    var s2 := GatedState(Running, Local(Approval, Working, [], [], []), {}, 0, Launching([]));
    var s3 := GatedState(Running, Local(Approval, Working, [], [], []), {}, 0, Parked);
    GatedStart();
    GatedPass();
    ExecFirst(s2, Park, s3, rest);
    assert [SIGN_OFF][1..] == [];
    ExecFirst(s1, Launch, s2, [Park] + rest);
    ExecFirst(s0, Scan, s1, [Launch] + ([Park] + rest));
    steps := [Scan] + ([Launch] + ([Park] + rest));
  }

  /** Decide reports success as soon as it has removed the entry, but the stage may still take
      its deadline: then an accepted approval ends as a failed stage. */
  lemma AcceptedApprovalCanBeLost() returns (s: State)
    ensures Reachable(GATED, 0, s)
    ensures SIGN_OFF in s.local && s.local[SIGN_OFF].accepted == [true] && At(s.status, SIGN_OFF).Failed?
  {
    DeadlineFires();
    EntryForgotten();
    StageFails();
    s := Unsent(Failed, Ended, 2);
    var end := TakeThree(Unsent(Waiting, Selecting, 1), Expire(SIGN_OFF), Unsent(Waiting, Withdrawing(Failed), 1),
                         Forget(SIGN_OFF), Unsent(Waiting, Leaving(Failed), 1), Settle(SIGN_OFF), s);
    var middle := OpenAndApprove(end);
    var steps := StartStage(middle);
    assert Exec(GATED, Init(GATED, {}), steps) == Some(s);
    assert ReachableFrom(GATED, Init(GATED, {}), s);
  }
}
