/** The fields of a live pipeline run and the critical sections that change them
    (internal/pipeline/pipeline.go): each method does in place what one Step of the
    transition system says. */
module LiveRun {
  import opened Wrappers
  import opened PipelineConfig
  import opened SchedulePass
  import opened Scheduler

  datatype RequestError = StageNotFound | NotWaiting | RunFinished

  /** What a gate's check says of one application; SaysNothing is any other answer, or none. */
  datatype AppVerdict = SaysGo | SaysNoGo | SaysNothing

  /** What a rerun reuses of its source run: nothing without one. */
  ghost function ReusedFrom(source: Option<Statuses>): set<string> {
    if source == None then {} else set n | n in source.value && source.value[n].Good()
  }

  /** A run that reruns r's pipeline starts where the transition system lets a rerun start. */
  method Rerun(r: Run) returns (rerun: Run)
    ensures rerun.cfg == r.cfg && rerun.View() == Init(r.cfg, Done(r.View()))
  {
    rerun := new Run(r.cfg, Some(r.status));
    assert ReusedFrom(Some(r.status)) == Done(r.View());
  }

  class Run {
    const cfg: seq<Stage>
    var status: Statuses
    var decisions: set<string>
    var cancelled: bool
    var finished: bool
    var wake: bool
    ghost var local: map<string, Local>
    ghost var owed: nat
    ghost var cancelling: nat
    ghost var ctxDone: bool
    ghost var sched: Sched

    ghost function View(): State
      reads this
    {
      State(status, local, decisions, cancelled, finished, wake, owed, cancelling, ctxDone, sched)
    }

    /** Start: a rerun looks each stage up in its source run. */
    constructor (cfg: seq<Stage>, source: Option<Statuses>)
      ensures this.cfg == cfg && View() == Init(cfg, ReusedFrom(source))
      ensures forall n :: n in StageNames(cfg) ==>
                n in status && status[n] == if source.Some? && n in source.value && source.value[n] in {Success, Reused} then Reused else Queued
    {
      var st: Statuses := map[];
      ghost var reused := ReusedFrom(source);
      for i := 0 to |cfg|
        invariant st.Keys == StageNames(cfg[..i])
        invariant forall n :: n in st ==> st[n] == if n in reused then Reused else Queued
      {
        var n := cfg[i].name;
        assert forall m :: m in StageNames(cfg[..i + 1]) <==> m in StageNames(cfg[..i]) || m == n;
        st := st[n := if source.Some? && n in source.value && source.value[n].Good() then Reused else Queued];
      }
      assert cfg[..|cfg|] == cfg;
      assert st == InitStatuses(cfg, reused);
      this.cfg := cfg;
      status := st;
      decisions, cancelled, finished, wake := {}, false, false, false;
      local, owed, cancelling, ctxDone, sched := InitLocals(cfg), 0, 0, false, Scanning;
    }

    method ReadNeeds(needs: seq<string>) returns (blocked: bool, pending: bool)
      ensures blocked == SomeBad(status, needs) && pending == SomePending(status, needs)
    {
      blocked, pending := false, false;
      for i := 0 to |needs|
        invariant blocked <==> exists k :: 0 <= k < i && At(status, needs[k]).Bad()
        invariant pending <==> exists k :: 0 <= k < i && !At(status, needs[k]).Settled()
      {
        var st := At(status, needs[i]);
        if st.Bad() {
          blocked := true;
        } else if !st.Good() {
          pending := true;
        }
      }
    }

    /** The locked part of one round of the scheduler loop; ready are the stages to launch. */
    method SchedulePass() returns (ready: seq<string>)
      requires sched.Scanning?
      modifies this
      ensures View() == Do(cfg, old(View()), Scan)
      ensures sched.Launching? ==> ready == sched.ready
    {
      ready := [];
      var active := false;
      for i := 0 to |cfg|
        invariant unchanged(`decisions, `cancelled, `finished, `local, `owed, `cancelling, `ctxDone, `sched)
        invariant PassOver(cfg[..i], cancelled, old(status), old(wake)) == Pass(status, wake, active, ready)
      {
        assert cfg[..i + 1][..i] == cfg[..i];
        var s := cfg[i];
        match At(status, s.name) {
          case Running => active := true;
          case Waiting => active := true;
          case Queued =>
            if cancelled {
              status := status[s.name := Cancelled];
            } else {
              var blocked, pending := ReadNeeds(s.needs);
              if blocked {
                status := status[s.name := Skipped];
                wake := true;
              } else if !pending {
                status := status[s.name := Running];
                ready := ready + [s.name];
                active := true;
              }
            }
          case _ =>
        }
      }
      assert cfg[..|cfg|] == cfg;
      if !active && |ready| == 0 && !wake {
        finished := true;
        sched := Draining;
      } else {
        sched := Launching(ready);
      }
    }

    /** statusLocked. */
    method RunStatus() returns (r: RunStatus)
      requires status.Keys == StageNames(cfg)
      ensures r == StatusOf(View())
    {
      var running, waiting, failed, stopped, moved := false, false, false, false, false;
      for i := 0 to |cfg|
        invariant running <==> exists k :: 0 <= k < i && At(status, cfg[k].name).Running?
        invariant waiting <==> exists k :: 0 <= k < i && At(status, cfg[k].name).Waiting?
        invariant failed <==> exists k :: 0 <= k < i && At(status, cfg[k].name).Failed?
        invariant stopped <==> exists k :: 0 <= k < i && (At(status, cfg[k].name).Skipped? || At(status, cfg[k].name).Cancelled?)
        invariant moved <==> exists k :: 0 <= k < i && !At(status, cfg[k].name).Queued?
      {
        var st := At(status, cfg[i].name);
        running, waiting, failed := running || st.Running?, waiting || st.Waiting?, failed || st.Failed?;
        stopped, moved := stopped || st.Skipped? || st.Cancelled?, moved || !st.Queued?;
      }
      NamedStatuses();
      if running {
        r := RunRunning;
      } else if waiting {
        r := RunWaiting;
      } else if !finished {
        r := if cancelled || moved then RunRunning else RunQueued;
      } else if cancelled {
        r := RunCancelled;
      } else {
        r := if failed || stopped then RunFailed else RunSuccess;
      }
    }

    /** Looking a status up by stage position or by name finds the same ones. */
    lemma NamedStatuses()
      requires status.Keys == StageNames(cfg)
      ensures forall to :: Any(status, to) <==> exists k :: 0 <= k < |cfg| && At(status, cfg[k].name) == to
      ensures (exists n :: n in status && status[n] != Queued) <==> exists k :: 0 <= k < |cfg| && At(status, cfg[k].name) != Queued
    {
      forall to ensures Any(status, to) <==> exists k :: 0 <= k < |cfg| && At(status, cfg[k].name) == to {
        if Any(status, to) {
          var n :| n in status && status[n] == to;
          var k :| 0 <= k < |cfg| && cfg[k].name == n;
        }
        if k :| 0 <= k < |cfg| && At(status, cfg[k].name) == to {
          assert cfg[k].name in status;
        }
      }
      if n :| n in status && status[n] != Queued {
        var k :| 0 <= k < |cfg| && cfg[k].name == n;
      }
      if k :| 0 <= k < |cfg| && At(status, cfg[k].name) != Queued {
        assert cfg[k].name in status;
      }
    }

    /** A change of stage n's status under the lock; the nudge that follows it is owed. */
    method SetStatus(n: string, to: Status, ghost pc: Pc)
      requires n in status && n in local
      modifies this
      ensures View() == Update(old(View()), n, to, pc)
      ensures status == old(status)[n := to]
    {
      status := status[n := to];
      local, owed := local[n := local[n].(pc := pc)], owed + 1;
    }

    method WakeScheduler()
      requires owed > 0
      modifies this
      ensures View() == Do(cfg, old(View()), Nudge)
      ensures wake && status == old(status)
    {
      wake := true;
      owed := owed - 1;
    }

    /** A deploy stage whose applications have all been waited for: it is a success exactly when
        every one of them is. */
    method FinishDeploy(n: string, results: seq<bool>)
      requires Enabled(View(), Step.Close(n, true))
      modifies this
      ensures var ok := forall i :: 0 <= i < |results| ==> results[i];
              View() == Do(cfg, old(View()), Step.Close(n, ok)) && status == old(status)[n := if ok then Success else Failed]
    {
      for i := 0 to |results|
        invariant forall j :: 0 <= j < i ==> results[j]
        invariant unchanged(this)
      {
        if !results[i] {
          SetStatus(n, Failed, Ended);
          return;
        }
      }
      SetStatus(n, Success, Ended);
    }

    /** One round of a gate stage over its applications: a no-go fails it, nothing but go passes it,
        anything else makes it wait for the next round. */
    method PollGate(n: string, verdicts: seq<AppVerdict>)
      requires Enabled(View(), Step.Hold(n))
      modifies this
      ensures SaysNoGo in verdicts ==>
                View() == Do(cfg, old(View()), Step.Close(n, false)) && status == old(status)[n := Failed]
      ensures SaysNoGo !in verdicts && SaysNothing !in verdicts ==>
                View() == Do(cfg, old(View()), Step.Close(n, true)) && status == old(status)[n := Success]
      ensures SaysNoGo !in verdicts && SaysNothing in verdicts ==>
                View() == Do(cfg, old(View()), Step.Hold(n)) && status == old(status)[n := Waiting]
    {
      var pending := 0;
      for i := 0 to |verdicts|
        invariant SaysNoGo !in verdicts[..i] && pending >= 0 && (pending == 0 <==> SaysNothing !in verdicts[..i])
        invariant unchanged(this)
      {
        assert verdicts[..i + 1] == verdicts[..i] + [verdicts[i]];
        match verdicts[i] {
          case SaysGo =>
          case SaysNoGo =>
            SetStatus(n, Failed, Ended);
            return;
          case SaysNothing => pending := pending + 1;
        }
      }
      assert verdicts[..|verdicts|] == verdicts;
      if pending == 0 {
        SetStatus(n, Success, Ended);
      } else {
        SetStatus(n, Waiting, Selecting);
      }
    }

    method OpenDecision(n: string)
      requires Enabled(View(), Step.OpenApproval(n))
      modifies this
      ensures View() == Do(cfg, old(View()), Step.OpenApproval(n))
      ensures decisions == old(decisions) + {n} && status == old(status)[n := Waiting]
    {
      decisions := decisions + {n};
      SetStatus(n, Waiting, Selecting);
    }

    method ForgetDecision(n: string)
      requires Enabled(View(), Step.Forget(n))
      modifies this
      ensures View() == Do(cfg, old(View()), Step.Forget(n))
      ensures decisions == old(decisions) - {n} && status == old(status)
    {
      decisions := decisions - {n};
      local := local[n := local[n].(pc := Leaving(local[n].pc.to))];
    }

    /** Accepts a decision for a waiting approval, or says why not and changes nothing. */
    method AcceptDecision(n: string, approve: bool) returns (err: Option<RequestError>)
      requires status.Keys == local.Keys
      modifies this
      ensures err == (if n !in old(status) then Some(StageNotFound)
                      else if Enabled(old(View()), Step.Decide(n, approve)) then None
                      else Some(NotWaiting))
      ensures View() == if err == None then Do(cfg, old(View()), Step.Decide(n, approve)) else old(View())
      ensures err == None <==> n in old(status) && n in old(decisions) && old(status)[n].Waiting?
      ensures decisions == if err == None then old(decisions) - {n} else old(decisions)
    {
      if n !in status {
        return Some(StageNotFound);
      }
      if n !in decisions || !status[n].Waiting? {
        return Some(NotWaiting);
      }
      decisions := decisions - {n};
      local := local[n := local[n].(sending := local[n].sending + [approve], accepted := local[n].accepted + [approve])];
      err := None;
    }

    /** Marks the run cancelled unless it has finished. */
    method RequestCancel() returns (err: Option<RequestError>)
      modifies this
      ensures err == if old(finished) then Some(RunFinished) else None
      ensures View() == if err == None then Do(cfg, old(View()), MarkCancelled) else old(View())
      ensures cancelled == (old(cancelled) || !old(finished)) && status == old(status)
    {
      if finished {
        return Some(RunFinished);
      }
      cancelled := true;
      cancelling := cancelling + 1;
      err := None;
    }
  }
}
