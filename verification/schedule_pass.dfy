/** One locked pass of the pipeline scheduler (internal/pipeline/pipeline.go, schedule):
    what it does to the stage statuses, and why a pass that moves nothing leaves nothing
    queued on an acyclic pipeline. */
module SchedulePass {
  import opened NeedsGraph
  import opened PipelineConfig

  datatype Status = Queued | Running | Waiting | Success | Failed | Skipped | Cancelled | Reused
  {
    predicate Good() { Success? || Reused? }
    predicate Bad() { Failed? || Skipped? || Cancelled? }
    predicate Active() { Running? || Waiting? }
    predicate Settled() { Good() || Bad() }
  }

  type Statuses = map<string, Status>

  function At(st: Statuses, n: string): Status {
    if n in st then st[n] else Queued
  }

  ghost predicate AllGood(st: Statuses, needs: seq<string>) {
    forall n :: n in needs ==> At(st, n).Good()
  }

  ghost predicate AllReused(st: Statuses, needs: seq<string>) {
    forall n :: n in needs ==> At(st, n).Reused?
  }

  predicate SomeBad(st: Statuses, needs: seq<string>) {
    exists n :: n in needs && At(st, n).Bad()
  }

  predicate SomePending(st: Statuses, needs: seq<string>) {
    exists n :: n in needs && !At(st, n).Settled()
  }

  /** The pass so far: statuses, the wake slot, whether a stage is active, the stages started. */
  datatype Pass = Pass(status: Statuses, wake: bool, active: bool, ready: seq<string>)

  function VisitStage(s: Stage, cancelled: bool, p: Pass): Pass {
    match At(p.status, s.name)
    case Running => p.(active := true)
    case Waiting => p.(active := true)
    case Queued =>
      if cancelled then p.(status := p.status[s.name := Cancelled])
      else if SomeBad(p.status, s.needs) then p.(status := p.status[s.name := Skipped], wake := true)
      else if SomePending(p.status, s.needs) then p
      else p.(status := p.status[s.name := Running], active := true, ready := p.ready + [s.name])
    case _ => p
  }

  function PassOver(stages: seq<Stage>, cancelled: bool, st: Statuses, wake: bool): Pass {
    if stages == [] then Pass(st, wake, false, [])
    else VisitStage(stages[|stages| - 1], cancelled, PassOver(stages[..|stages| - 1], cancelled, st, wake))
  }

  /** Statuses that are settled stay, and only queued stages are touched by a pass. */
  ghost predicate OnlyQueuedMove(cancelled: bool, st: Statuses, st': Statuses) {
    && st'.Keys == st.Keys
    && forall n {:trigger At(st', n)} ::
         At(st', n) == At(st, n)
         || (At(st, n).Queued? && if cancelled then At(st', n).Cancelled? else At(st', n).Skipped? || At(st', n).Running?)
  }

  /** What holds of a queued-before stage s after a pass that has visited it. */
  ghost predicate VisitedRight(cancelled: bool, st: Statuses, p: Pass, s: Stage) {
    var was, now := At(st, s.name), At(p.status, s.name);
    && (was.Queued? && now.Running? ==> s.name in p.ready && AllGood(p.status, s.needs))
    && (was.Queued? && now.Skipped? ==> p.wake && SomeBad(p.status, s.needs))
    && (now.Queued? ==> !cancelled && SomePending(st, s.needs) && !SomeBad(st, s.needs))
    && (now.Queued? && !p.wake ==> SomePending(p.status, s.needs) && !SomeBad(p.status, s.needs))
    && (now.Active() ==> p.active)
  }

  ghost predicate ReadyRight(st: Statuses, p: Pass) {
    && (forall n :: n in p.ready ==> At(st, n).Queued? && At(p.status, n).Running?)
    && (forall i, j :: 0 <= i < j < |p.ready| ==> p.ready[i] != p.ready[j])
    && (p.ready != [] ==> p.active)
  }

  ghost predicate ActiveRight(p: Pass) {
    p.active ==> exists n :: n in p.status && p.status[n].Active()
  }

  ghost predicate PassRight(stages: seq<Stage>, cancelled: bool, st: Statuses, wake: bool, p: Pass) {
    && OnlyQueuedMove(cancelled, st, p.status)
    && (wake ==> p.wake)
    && ReadyRight(st, p) && ActiveRight(p)
    && (forall s {:trigger VisitedRight(cancelled, st, p, s)} :: s in stages ==> VisitedRight(cancelled, st, p, s))
    && (forall n :: n in st && n !in StageNames(stages) ==> p.status[n] == st[n])
  }

  /** A visited stage stays right while a later stage x is visited. */
  lemma StaysRight(cancelled: bool, st: Statuses, p: Pass, p': Pass, s: Stage, x: string)
    requires VisitedRight(cancelled, st, p, s) && s.name != x
    requires p.wake ==> p'.wake
    requires p.active ==> p'.active
    requires forall n :: n in p.ready ==> n in p'.ready
    requires p'.status == p.status || (At(p.status, x).Queued? && exists to :: p'.status == p.status[x := to] && (to.Running? || (to.Bad() && (p'.wake || cancelled))))
    ensures VisitedRight(cancelled, st, p', s)
  {
    if p'.status != p.status {
      var now := At(p.status, s.name);
      if now.Skipped? && At(st, s.name).Queued? {
        var b :| b in s.needs && At(p.status, b).Bad();
        assert At(p'.status, b).Bad();
      }
      if now.Queued? && !p'.wake {
        var b :| b in s.needs && !At(p.status, b).Settled();
        assert !At(p'.status, b).Settled();
        assert !SomeBad(p'.status, s.needs);
      }
    }
  }

  lemma {:induction false} PassIsRight(stages: seq<Stage>, cancelled: bool, st: Statuses, wake: bool)
    requires DistinctNames(stages) && StageNames(stages) <= st.Keys
    ensures PassRight(stages, cancelled, st, wake, PassOver(stages, cancelled, st, wake))
    decreases |stages|
  {
    if stages != [] {
      var k := |stages| - 1;
      var s, before := stages[k], PassOver(stages[..k], cancelled, st, wake);
      PassIsRight(stages[..k], cancelled, st, wake);
      var after := VisitStage(s, cancelled, before);
      assert s.name !in StageNames(stages[..k]);
      assert before.status[s.name] == st[s.name];
      VisitKeepsFrame(s, cancelled, st, before);
      VisitIsRight(s, cancelled, st, before);
      forall t | t in stages ensures VisitedRight(cancelled, st, after, t) {
        if t != s {
          var i :| 0 <= i < |stages| && stages[i] == t;
          assert stages[..k][i] == t;
          StaysRight(cancelled, st, before, after, t, s.name);
        }
      }
      forall n | n in st && n !in StageNames(stages) ensures after.status[n] == st[n] {
        assert n !in StageNames(stages[..k]);
      }
    }
  }

  lemma VisitKeepsFrame(s: Stage, cancelled: bool, st: Statuses, p: Pass)
    requires s.name in p.status && OnlyQueuedMove(cancelled, st, p.status)
    requires p.status[s.name] == st[s.name]
    requires ReadyRight(st, p) && ActiveRight(p)
    ensures var p' := VisitStage(s, cancelled, p);
            OnlyQueuedMove(cancelled, st, p'.status) && ReadyRight(st, p') && ActiveRight(p')
  {
    var p' := VisitStage(s, cancelled, p);
    assert p'.active && At(p'.status, s.name).Active() ==> p'.status[s.name].Active();
    if p.active {
      var n :| n in p.status && p.status[n].Active();
      assert p'.status[n].Active();
    }
    forall n ensures At(p'.status, n) == At(st, n)
        || (At(st, n).Queued? && if cancelled then At(p'.status, n).Cancelled? else At(p'.status, n).Skipped? || At(p'.status, n).Running?) {
      assert At(p.status, n) == At(p.status, n);
    }
  }

  lemma VisitIsRight(s: Stage, cancelled: bool, st: Statuses, p: Pass)
    requires s.name in p.status && s.name in st && p.status[s.name] == st[s.name]
    requires OnlyQueuedMove(cancelled, st, p.status)
    ensures VisitedRight(cancelled, st, VisitStage(s, cancelled, p), s)
  {
    var p' := VisitStage(s, cancelled, p);
    if p.status[s.name].Queued? && !cancelled {
      if SomeBad(p.status, s.needs) {
        var b :| b in s.needs && At(p.status, b).Bad();
        assert b != s.name && At(p'.status, b).Bad();
      } else if SomePending(p.status, s.needs) {
        var b :| b in s.needs && !At(p.status, b).Settled();
        assert At(p.status, b) == At(st, b) || At(st, b).Queued?;
        forall m | m in s.needs ensures !At(st, m).Bad() {
          assert At(p.status, m) == At(st, m) || At(st, m).Queued?;
        }
      } else {
        forall n | n in s.needs ensures At(p'.status, n).Good() {
          assert At(p.status, n).Settled() && !At(p.status, n).Bad();
        }
      }
    }
  }

  /** What a pass does to a queued stage: a cancelled run's is cancelled, one whose needs are all
      done is started, and one with a need that went wrong is skipped. */
  lemma PassDecides(stages: seq<Stage>, cancelled: bool, st: Statuses, wake: bool, s: Stage)
    requires DistinctNames(stages) && StageNames(stages) <= st.Keys && s in stages && At(st, s.name).Queued?
    ensures var p := PassOver(stages, cancelled, st, wake);
            && (cancelled ==> At(p.status, s.name).Cancelled?)
            && (!cancelled && (forall m :: m in s.needs ==> At(st, m) in {Success, Reused}) ==>
                  At(p.status, s.name).Running? && s.name in p.ready)
            && (!cancelled && (exists m :: m in s.needs && At(st, m) in {Failed, Skipped, Cancelled}) ==>
                  At(p.status, s.name).Skipped? && p.wake)
  {
    PassIsRight(stages, cancelled, st, wake);
    var p := PassOver(stages, cancelled, st, wake);
    assert VisitedRight(cancelled, st, p, s);
    forall m | m in s.needs && At(st, m).Settled() ensures At(p.status, m) == At(st, m) {
      assert At(p.status, m) == At(st, m) || At(st, m).Queued?;
    }
    assert At(p.status, s.name) == At(st, s.name) || At(st, s.name).Queued?;
  }

  /** On an acyclic pipeline a pass that ends with no active stage and an empty wake slot
      leaves no stage queued. */
  lemma IdlePassSettlesAll(stages: seq<Stage>, cancelled: bool, st: Statuses, wake: bool)
    requires WellFormed(stages) && st.Keys == StageNames(stages)
    requires var p := PassOver(stages, cancelled, st, wake); !p.active && !p.wake
    ensures forall n :: n in st ==> At(PassOver(stages, cancelled, st, wake).status, n).Settled()
  {
    var p := PassOver(stages, cancelled, st, wake);
    var g := GraphOf(stages);
    PassIsRight(stages, cancelled, st, wake);
    var stuck := set n | n in st && !At(p.status, n).Settled();
    forall n | n in stuck ensures NeedsWithin(g, stuck, n) {
      var i :| 0 <= i < |stages| && stages[i].name == n;
      GraphAt(stages, i);
      assert VisitedRight(cancelled, st, p, stages[i]);
      var m :| m in stages[i].needs && !At(p.status, m).Settled();
      assert m in StageNames(stages);
      assert Edge(g, n, m);
    }
    if stuck != {} {
      TrappedMeansCycle(g, stuck);
    }
    forall n | n in st ensures At(p.status, n).Settled() {
      assert n !in stuck;
    }
  }
}
