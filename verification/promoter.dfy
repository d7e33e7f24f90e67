/** Seed, promote, auto-promote, rollback and restart (internal/promoter/promoter.go), and the
    recovery of an interrupted operation (internal/promoter/recovery.go), step by step over
    the in-memory store. What the outside world answers is arbitrary, and it keeps the answers. */
module Promoter {
  import opened Wrappers
  import opened Rings
  import opened PromoterWorld
  import opened PromoterEffects
  import opened PromoterOps
  import opened PromoterTalk
  import G = Gates

  /** The part of the in-memory store the promoter uses. */
  class Memory {
    var states: map<Key, RingState>
    var history: seq<Outcome>
    var pending: map<nat, PendingOp>
    var nextOp: nat

    constructor Left(states: map<Key, RingState>, history: seq<Outcome>, pending: map<nat, PendingOp>, nextOp: nat)
      ensures this.states == states && this.history == history && this.pending == pending && this.nextOp == nextOp
    {
      this.states, this.history, this.pending, this.nextOp := states, history, pending, nextOp;
    }

    /** Creates or replaces the deploy state; the auto-promote setting is never touched. */
    method UpsertRingState(k: Key, prev: string, cur: string, healthy: bool)
      modifies this`states
      ensures states == Upsert(old(states), k, prev, cur, healthy)
      ensures forall x :: AutoPromote(states, x) == AutoPromote(old(states), x)
    {
      var s := RingState(cur, prev, healthy, false);
      if k in states {
        s := s.(autoPromote := states[k].autoPromote);
      }
      states := states[k := s];
    }

    method SetAutoPromote(k: Key, enabled: bool)
      modifies this`states
      ensures states == Toggled(old(states), k, enabled)
      ensures forall x :: AutoPromote(states, x) == if x == k then enabled else AutoPromote(old(states), x)
      ensures forall x :: Current(states, x) == Current(old(states), x)
    {
      var s := if k in states then states[k] else RingState("", "", false, false);
      states := states[k := s.(autoPromote := enabled)];
    }

    method AddHistory(o: Outcome)
      modifies this`history
      ensures history == old(history) + [o]
    {
      history := history + [o];
    }

    method CreatePendingOp(op: PendingOp) returns (id: nat)
      modifies this`pending, this`nextOp
      ensures id == old(nextOp) && nextOp == old(nextOp) + 1 && pending == old(pending)[id := op]
    {
      id := nextOp;
      nextOp := nextOp + 1;
      pending := pending[id := op];
    }

    method DeletePendingOp(id: nat)
      modifies this`pending
      ensures pending == old(pending) - {id}
    {
      pending := pending - {id};
    }
  }

  /** The outside world: what the rings run, and the answers it gives. A failed deploy leaves its
      ring as it was; what a pinned ring ships is decided by its pipeline. */
  class Cluster {
    var running: map<Key, string>
    var adrift: map<Key, set<string>>  // the versions of deploys that outlived their process
    var patience: nat                  // how many waits the operation's context still allows
    ghost var heard: seq<Answer>       // every answer so far

    constructor Left(running: map<Key, string>, adrift: map<Key, set<string>>)
      ensures this.running == running && this.adrift == adrift && heard == []
    {
      this.running, this.adrift, heard := running, adrift, [];
      patience := *;
    }

    /** An operation begins: how long its context lasts is not up to it. */
    method BeginContext()
      modifies this`patience
    {
      patience := *;
    }

    method Deploy(k: Key, version: string, pinned: bool) returns (ok: bool, shipped: string)
      modifies this`running, this`heard
      ensures heard == old(heard) + [Deployed(k, version, ok)]
      ensures !ok ==> running == old(running)
      ensures ok ==> running == old(running)[k := shipped]
      ensures !pinned ==> shipped == version
    {
      ok := *;
      shipped := *;
      if !pinned {
        shipped := version;
      }
      if ok {
        running := running[k := shipped];
      }
      heard := heard + [Deployed(k, version, ok)];
    }

    /** A deploy cut off by an earlier crash lands, if there is one that brings this version. */
    method LandLate(k: Key, version: string, pinned: bool) returns (landed: bool)
      modifies this`running
      ensures landed <==> k in adrift && (pinned || version in adrift[k])
      ensures running == if landed then old(running)[k := version] else old(running)
    {
      landed := k in adrift && (pinned || version in adrift[k]);
      if landed {
        running := running[k := version];
      }
    }

    /** The last deploy of a ring that outlived its process has ended. */
    method EndLate(k: Key)
      modifies this`adrift
      ensures adrift == old(adrift) - {k}
    {
      adrift := adrift - {k};
    }

    /** One health check. Where the ring reports its version, success proves the wanted one runs. */
    method Check(k: Key, rc: RingConfig, want: string) returns (ok: bool)
      modifies this`heard
      ensures heard == old(heard) + [Health(k, want, ok)]
      ensures ok && rc.reportsVersion && want != "" ==> RunningOn(running, k) == want
    {
      ok := *;
      if rc.reportsVersion && want != "" && RunningOn(running, k) != want {
        ok := false;
      }
      heard := heard + [Health(k, want, ok)];
    }

    /** Waits before the next check, unless the context ends first. */
    method Wait() returns (ended: bool)
      modifies this`heard, this`patience
      ensures heard == old(heard) + [Waited(ended)]
      ensures ended <==> old(patience) == 0
      ensures !ended ==> patience < old(patience)
    {
      ended := patience == 0;
      if !ended {
        patience := patience - 1;
      }
      heard := heard + [Waited(ended)];
    }

    method ReportedVersion(k: Key, rc: RingConfig) returns (v: Option<string>)
      modifies this`heard
      ensures heard == old(heard) + [Reported(k, v)]
      ensures v.Some? ==> rc.reportsVersion && v.value == RunningOn(running, k)
    {
      var answered: bool := *;
      v := if answered && rc.reportsVersion then Some(RunningOn(running, k)) else None;
      heard := heard + [Reported(k, v)];
    }

    /** Whether the application's source knows the version. */
    method KnowsVersion(app: string, version: string) returns (known: bool)
      modifies this`heard
      ensures heard == old(heard) + [VersionKnown(app, version, known)]
    {
      known := *;
      heard := heard + [VersionKnown(app, version, known)];
    }

    /** What the gates of a ring get to see. */
    method ShowGates(k: Key, version: string) returns (env: G.Environment)
      modifies this`heard
      ensures heard == old(heard) + [GatesSeen(k, version, env)]
    {
      env := *;
      heard := heard + [GatesSeen(k, version, env)];
    }

    /** Whether the store takes a journal row. */
    method TakesRow() returns (written: bool)
      modifies this`heard
      ensures heard == old(heard) + [RowWritten(written)]
    {
      written := *;
      heard := heard + [RowWritten(written)];
    }

    method AllowsRestart(k: Key, version: string) returns (allowed: bool)
      modifies this`heard
      ensures heard == old(heard) + [RestartAllowed(k, version, allowed)]
    {
      allowed := *;
      heard := heard + [RestartAllowed(k, version, allowed)];
    }

    method Restart(k: Key, version: string) returns (done: bool)
      modifies this`heard
      ensures heard == old(heard) + [RestartDone(k, version, done)]
    {
      done := *;
      heard := heard + [RestartDone(k, version, done)];
    }
  }

  datatype OpResult = OpResult(key: Key, action: Action, fromRing: string, version: string, success: bool, rolledBack: bool)

  datatype Reply = Refused(error: OpError) | Done(res: OpResult)

  function HopResult(src: Key, dst: Key, target: string, end: HopEnd): OpResult {
    OpResult(dst, Promote, src.ring, if end.Shipped? then end.version else target, end.Shipped?,
             end.WentBack? && end.back.Restored?)
  }

  /** What a hop does after its deploy has landed and was stored. */
  ghost function HopTail(recorded: nat, dst: Key, target: string, prev: string, id: nat, end: HopEnd): seq<Effect> {
    var failed := [Log(Outcome(dst, Promote, prev, target, false))];
    match end
    case Shipped(version, _) => [Save(dst, prev, version, true), Log(Outcome(dst, Promote, prev, version, true))]
    case NoWayBack(_) => failed + [Save(dst, prev, target, false)]
    case WentBack(_, back) => failed + RollbackCore(recorded + 1, dst, target, prev, id, true, back)
    case _ => []
  }

  lemma HopParts(w: World, dst: Key, target: string, id: nat, end: HopEnd)
    requires end.Shipped? || end.NoWayBack? || end.WentBack?
    ensures var prev := Current(w.states, dst);
            ShipCore(w, dst, target, id, end)
            == [IssueDeploy(Issue(dst, target, prev, id, false, |w.history|)), Land(dst, end.ran), Save(dst, prev, target, false)]
               + HopTail(|w.history|, dst, target, prev, id, end)
  {
  }

  lemma Joined(a: seq<Effect>, b: seq<Effect>, c: seq<Effect>)
    ensures a + b + c == a + (b + c)
  {
  }

  class Promoter {
    const cfg: Config
    const store: Memory
    const cluster: Cluster
    const keeper: G.GateKeeper
    const policies: map<string, G.Policy>
    const retryCount: int
    ghost const origin: World
    ghost var issued: Option<Issue>
    ghost var doubted: set<Key>
    ghost var log: seq<Effect>  // every effect since the origin, in order
    ghost var ops: seq<Op>      // every finished operation since the origin

    /** A process started on what an earlier one left in the store and on the rings. */
    constructor Reboot(cfg: Config, policies: map<string, G.Policy>, retryCount: int, w: World)
      requires Safe(cfg, w) && w.issued == None && Distinct(cfg.rings)
      ensures fresh(store) && fresh(cluster) && fresh(keeper)
      ensures this.cfg == cfg && this.policies == policies && this.retryCount == retryCount
      ensures Idle() && Now() == w && cluster.heard == []
    {
      this.cfg, this.policies, this.retryCount := cfg, policies, retryCount;
      keeper := new G.GateKeeper();
      store := new Memory.Left(w.states, w.history, w.pending, w.nextOp);
      cluster := new Cluster.Left(w.running, w.adrift);
      issued, doubted, log, ops := None, w.doubted, [], [];
      origin := w;
    }

    ghost function Now(): World
      reads this, store, cluster
    {
      World(store.states, store.history, store.pending, store.nextOp, cluster.running, issued, doubted, cluster.adrift)
    }

    /** What this promoter judges an operation's answers by. */
    ghost function RulesFor(inputs: GateInputs): Rules {
      Rules(cfg, policies, inputs, Attempts())
    }

    ghost predicate Consistent()
      reads this, store, cluster
    {
      Now() == Play(origin, log)
    }

    // ---- The atomic steps: each adds one effect to the log ----

    /** Writes the journal row; a failure is swallowed and answered with id 0. */
    method JournalStart(op: PendingOp) returns (id: nat)
      requires Consistent() && 0 < store.nextOp
      modifies this`log, store`pending, store`nextOp, cluster`heard
      ensures Consistent() && log == old(log) + Row(id, op) && (id == 0 || id == old(store.nextOp))
      ensures id == 0 ==> Now() == old(Now())
      ensures cluster.heard == old(cluster.heard) + [RowWritten(id != 0)]
    {
      var written := cluster.TakesRow();
      id := 0;
      if written {
        id := store.CreatePendingOp(op);
        PlayOne(origin, log, AddRow(id, op));
        log := log + [AddRow(id, op)];
      } else {
        assert log + [] == log;
      }
    }

    method JournalEnd(id: nat)
      requires Consistent()
      modifies this`log, store`pending
      ensures Consistent() && log == old(log) + Unrow(id)
    {
      if id == 0 {
        assert log + [] == log;
        return;
      }
      store.DeletePendingOp(id);
      PlayOne(origin, log, DropRow(id));
      log := log + [DropRow(id)];
    }

    method Deploy(k: Key, version: string, pinned: bool, ghost prev: string, ghost journal: nat, ghost auto: bool)
      returns (ok: bool, ghost ran: string)
      requires Consistent()
      modifies this`log, this`issued, cluster`running, cluster`heard
      ensures Consistent() && cluster.heard == old(cluster.heard) + [Deployed(k, version, ok)]
      ensures log == old(log) + [IssueDeploy(Issue(k, version, prev, journal, auto, |store.history|))]
                     + if ok then [Land(k, ran)] else []
      ensures ok ==> RunningOn(cluster.running, k) == ran && (!pinned ==> ran == version)
    {
      ghost var issue := Issue(k, version, prev, journal, auto, |store.history|);
      issued := Some(issue);
      PlayOne(origin, log, IssueDeploy(issue));
      log := log + [IssueDeploy(issue)];
      var shipped;
      ok, shipped := cluster.Deploy(k, version, pinned);
      ran := shipped;
      if ok {
        PlayOne(origin, log, Land(k, ran));
        log := log + [Land(k, ran)];
      } else {
        assert log + [] == log;
      }
    }

    method SaveState(k: Key, prev: string, cur: string, healthy: bool)
      requires Consistent()
      modifies this`log, this`doubted, store`states
      ensures Consistent() && log == old(log) + [Save(k, prev, cur, healthy)]
      ensures store.states == Upsert(old(store.states), k, prev, cur, healthy)
    {
      store.UpsertRingState(k, prev, cur, healthy);
      if cur == RunningOn(cluster.running, k) && k !in cluster.adrift {
        doubted := doubted - {k};
      }
      PlayOne(origin, log, Save(k, prev, cur, healthy));
      log := log + [Save(k, prev, cur, healthy)];
    }

    method Record(o: Outcome)
      requires Consistent()
      modifies this`log, this`issued, store`history
      ensures Consistent() && log == old(log) + [Log(o)] && |store.history| == |old(store.history)| + 1
    {
      store.AddHistory(o);
      issued := None;
      PlayOne(origin, log, Log(o));
      log := log + [Log(o)];
    }

    // ---- Asking the outside world ----

    /** Up to retryCount + 1 checks, until one succeeds or the operation's context ends. */
    method CheckWithRetries(k: Key, rc: RingConfig, want: string) returns (ok: bool, ghost said: seq<Answer>)
      modifies cluster`heard, cluster`patience
      ensures cluster.heard == old(cluster.heard) + said
      ensures Checked(k, rc, want, Attempts(), said, ok)
      ensures ok && rc.hasHealthUrl && rc.reportsVersion && want != "" ==> RunningOn(cluster.running, k) == want
    {
      ok, said := true, [];
      if !rc.hasHealthUrl {
        return;
      }
      ok := false;
      for i := 0 to Attempts()
        invariant !ok && Undecided(k, want, said) && |said| == if i == 0 then 0 else 2 * i - 1
        invariant cluster.heard == old(cluster.heard) + said
      {
        if i > 0 {
          var ended := cluster.Wait();
          said := said + [Waited(ended)];
          if ended {
            return;
          }
        }
        ok := cluster.Check(k, rc, want);
        said := said + [Health(k, want, ok)];
        if ok {
          return;
        }
      }
    }

    function Attempts(): (n: nat)
      ensures retryCount >= 0 ==> n == retryCount + 1
      ensures retryCount < 0 ==> n == 1
    {
      if retryCount + 1 < 1 then 1 else retryCount + 1
    }

    /** What a pinned ring reports to be running, or the pin when it cannot say. */
    method RunningVersion(k: Key, rc: RingConfig, pin: string) returns (version: string, ghost said: Answer)
      modifies cluster`heard
      ensures cluster.heard == old(cluster.heard) + [said] && said.Reported? && said.key == k
      ensures version == if said.answer.Some? && said.answer.value != "" then said.answer.value else pin
    {
      var v := cluster.ReportedVersion(k, rc);
      said := Reported(k, v);
      version := if v.Some? && v.value != "" then v.value else pin;
    }

    /** The health check after a landed deploy, and what a healthy pinned ring says it runs. */
    method Confirm(k: Key, rc: RingConfig, to: string) returns (healthy: bool, version: string, ghost said: seq<Answer>)
      modifies cluster`heard, cluster`patience
      ensures cluster.heard == old(cluster.heard) + said
      ensures Confirmed(k, rc, to, Attempts(), said, healthy, version)
      ensures (!rc.hasHealthUrl ==> healthy) && (!healthy || !rc.Pinned() ==> version == to)
    {
      hide Checked;
      var want := if rc.Pinned() then "" else to;
      version := to;
      healthy, said := CheckWithRetries(k, rc, want);
      NotAskedIsHealthy(k, rc, want, Attempts(), said, healthy);
      if healthy && rc.Pinned() {
        ghost var asked;
        version, asked := RunningVersion(k, rc, to);
        said := said + [asked];
      }
    }

    /** The promotion gates of a ring, asked about the version that is to be deployed. */
    method EvaluateGates(k: Key, version: string, inputs: GateInputs) returns (error: Option<OpError>, ghost said: seq<Answer>)
      modifies cluster`heard, keeper
      ensures cluster.heard == old(cluster.heard) + said && |said| == 1
      ensures error == None ==> GatesPass(RulesFor(inputs), k, version, said[0])
      ensures error.Some? ==> GatesRefuse(RulesFor(inputs), k, version, error.value, said)
    {
      var env := cluster.ShowGates(k, version);
      said := [GatesSeen(k, version, env)];
      var policy := if k.app in policies then Some(policies[k.app]) else None;
      var request := G.Request(k.ring, version, inputs.changeCode, inputs.serviceCode, inputs.overrides, inputs.reason);
      var refused := keeper.EvaluateGates(policy, request, env, false);
      error := if refused == None then None else Some(GateClosed(refused.value));
    }

    // ---- Operations ----

    /** Deploys `to` on a ring that shows `from`, checks it and records a rollback. */
    method RollbackTo(k: Key, rc: RingConfig, from: string, to: string, ghost journal: nat, ghost auto: bool)
      returns (ok: bool, healthy: bool, ghost end: RollbackEnd, ghost said: seq<Answer>)
      requires Consistent()
      modifies this`log, this`issued, this`doubted, cluster`running, cluster`heard, cluster`patience, store`states, store`history
      ensures Consistent()
      ensures cluster.heard == old(cluster.heard) + said && RollbackSaid(k, rc, to, Attempts(), said, end)
      ensures log == old(log) + RollbackCore(|old(store.history)|, k, from, to, journal, auto, end)
      ensures RollbackEndRight(rc, to, end)
      ensures ok == end.Restored? && healthy == (end.Restored? && end.healthy)
    {
      hide Play, SafeRun, Safe, Track, Confirmed;
      ghost var ran;
      ok, ran := Deploy(k, to, rc.Pinned(), from, journal, auto);
      said := [Deployed(k, to, ok)];
      if !ok {
        Record(Outcome(k, Rollback, from, to, false));
        return false, false, NotDeployed, said;
      }
      var version;
      ghost var checks;
      healthy, version, checks := Confirm(k, rc, to);
      said := said + checks;
      assert said[1..] == checks;
      SaveState(k, from, version, healthy);
      Record(Outcome(k, Rollback, from, version, healthy));
      end := Restored(version, ran, healthy);
    }

    /** Deploys a promoted version and checks it; on failure goes back to the version before. */
    method ShipUnderRow(src: Key, dst: Key, rc: RingConfig, target: string, prev: string, ghost id: nat)
      returns (res: OpResult, ghost end: HopEnd, ghost said: seq<Answer>)
      requires Consistent() && prev == Current(store.states, dst)
      modifies this`log, this`issued, this`doubted, cluster`running, cluster`heard, cluster`patience, store`states, store`history
      ensures Consistent() && log == old(log) + ShipCore(old(Now()), dst, target, id, end)
      ensures cluster.heard == old(cluster.heard) + said && ShipSaid(dst, rc, target, prev, Attempts(), said, end)
      ensures HopEndRight(rc, target, prev, end) && !end.SourceUnhealthy?
      ensures res == HopResult(src, dst, target, end)
    {
      hide Play, SafeRun, Safe, Track, CheckSaid;
      ghost var before, recorded := log, |store.history|;
      var ok;
      ghost var ran;
      ok, ran := Deploy(dst, target, rc.Pinned(), prev, id, false);
      said := [Deployed(dst, target, ok)];
      if !ok {
        Record(Outcome(dst, Promote, prev, target, false));
        return OpResult(dst, Promote, src.ring, target, false, false), DeployFailed, said;
      }
      SaveState(dst, prev, target, false);
      ghost var head := [IssueDeploy(Issue(dst, target, prev, id, false, recorded)), Land(dst, ran), Save(dst, prev, target, false)];
      assert log == before + head;
      var version, healthy, undone;
      ghost var checks;
      version, healthy, undone, end, checks := CheckHop(dst, rc, target, prev, id, ran);
      said := said + checks;
      assert said[1..] == checks;
      Joined(before, head, HopTail(recorded, dst, target, prev, id, end));
      HopParts(old(Now()), dst, target, id, end);
      res := OpResult(dst, Promote, src.ring, version, healthy, undone);
    }

    /** From the health check of a landed hop on. */
    method CheckHop(dst: Key, rc: RingConfig, target: string, prev: string, ghost id: nat, ghost ran: string)
      returns (version: string, healthy: bool, undone: bool, ghost end: HopEnd, ghost said: seq<Answer>)
      requires Consistent() && (!rc.Pinned() ==> ran == target)
      modifies this`log, this`issued, this`doubted, cluster`running, cluster`heard, cluster`patience, store`states, store`history
      ensures Consistent() && log == old(log) + HopTail(|old(store.history)|, dst, target, prev, id, end)
      ensures cluster.heard == old(cluster.heard) + said && CheckSaid(dst, rc, target, prev, Attempts(), said, end)
      ensures HopEndRight(rc, target, prev, end) && !end.SourceUnhealthy? && !end.DeployFailed? && end.ran == ran
      ensures version == (if end.Shipped? then end.version else target)
      ensures healthy == end.Shipped? && undone == (end.WentBack? && end.back.Restored?)
    {
      hide Play, SafeRun, Safe, Track, Checked, RollbackSaid;
      undone := false;
      healthy, version, said := Confirm(dst, rc, target);
      if healthy {
        SaveState(dst, prev, version, true);
        Record(Outcome(dst, Promote, prev, version, true));
        return version, true, false, Shipped(version, ran), said;
      }
      ghost var before := log;
      Record(Outcome(dst, Promote, prev, target, false));
      ghost var checks, back := said, [];
      UnhealthyHasUrl(dst, rc, target, Attempts(), said);
      undone, end, back := GoBack(dst, rc, target, prev, id, ran);
      said := checks + back;
      assert said[..|checks|] == checks && said[|checks|..] == back;
      assert back == [] ==> said == checks;
      Joined(before, [Log(Outcome(dst, Promote, prev, target, false))],
             if end.NoWayBack? then [Save(dst, prev, target, false)]
             else RollbackCore(|old(store.history)| + 1, dst, target, prev, id, true, end.back));
    }

    /** After a failed health check: the automatic rollback, when there is a version to go back to. */
    method GoBack(dst: Key, rc: RingConfig, version: string, prev: string, ghost id: nat, ghost ran: string)
      returns (undone: bool, ghost end: HopEnd, ghost said: seq<Answer>)
      requires Consistent() && (!rc.Pinned() ==> ran == version) && rc.hasHealthUrl
      modifies this`log, this`issued, this`doubted, cluster`running, cluster`heard, cluster`patience, store`states, store`history
      ensures Consistent() && HopEndRight(rc, version, prev, end)
      ensures cluster.heard == old(cluster.heard) + said
      ensures if prev == "" then end.NoWayBack? && said == []
              else end.WentBack? && RollbackSaid(dst, rc, prev, Attempts(), said, end.back)
      ensures end.ran == ran && undone == (end.WentBack? && end.back.Restored?)
      ensures log == old(log) + if end.NoWayBack? then [Save(dst, prev, version, false)]
                                else RollbackCore(|old(store.history)|, dst, version, prev, id, true, end.back)
    {
      hide Play, SafeRun, Safe, Track;
      if prev == "" {
        SaveState(dst, prev, version, false);
        return false, NoWayBack(ran), [];
      }
      var healthy;
      ghost var back;
      undone, healthy, back, said := RollbackTo(dst, rc, version, prev, id, true);
      end := WentBack(ran, back);
    }

    /** The part of a hop from the journal row on. */
    method ShipHop(src: Key, dst: Key, rc: RingConfig, target: string)
      returns (res: OpResult, ghost id: nat, ghost end: HopEnd, ghost said: seq<Answer>)
      requires Consistent() && 0 < store.nextOp && src in store.states
      modifies this`log, this`issued, this`doubted, cluster`running, cluster`heard, cluster`patience, store
      ensures Consistent() && log == old(log) + HopEffects(old(Now()), src, dst, target, id, end)
      ensures id == 0 || id == old(store.nextOp)
      ensures cluster.heard == old(cluster.heard) + said
      ensures RowThenShip(dst, rc, target, Current(old(store.states), dst), Attempts(), said, end) && said[0] == RowWritten(id != 0)
      ensures HopEndRight(rc, target, Current(old(store.states), dst), end) && !end.SourceUnhealthy?
      ensures res == HopResult(src, dst, target, end)
    {
      hide Play, SafeRun, Safe, Track, ShipCore, AfterShip, HopResult, HopEndRight, ShipSaid;
      ghost var w := Now();
      var prev := Current(store.states, dst);
      var row := JournalStart(PendingOp(dst, Promote, src.ring, target, prev));
      id := row;
      ghost var v := Now();
      ghost var shipped;
      res, end, shipped := ShipUnderRow(src, dst, rc, target, prev, id);
      said := [RowWritten(id != 0)] + shipped;
      assert said[1..] == shipped;
      ShipBesideJournal(w, v, dst, target, id, end);
      JournalEnd(row);
    }

    /** Between operations: no outcome is outstanding, and everything since the origin is a
        sequence of whole operations. */
    ghost predicate Idle()
      reads this, store, cluster
    {
      Consistent() && Track(cfg, origin, ops, log, Now()) && issued == None && Distinct(cfg.rings)
    }

    lemma IdleIsSafe()
      requires Idle()
      ensures Rested(cfg, Now()) && 0 < store.nextOp && SafeRun(cfg, origin, log)
    {
      TrackIsSafe(cfg, origin, ops, log, Now());
    }

    /** The source failed its live check: it is marked unhealthy, and nothing is deployed. */
    method AbortHop(src: Key, dst: Key, ghost target: string) returns (res: OpResult, ghost end: HopEnd)
      requires Consistent() && src in store.states
      modifies this`log, this`issued, this`doubted, store`states, store`history
      ensures Consistent() && log == old(log) + HopEffects(old(Now()), src, dst, target, 0, end)
      ensures end == SourceUnhealthy && res == OpResult(dst, Promote, src.ring, Current(old(store.states), src), false, false)
    {
      hide Play, SafeRun, Safe, Track;
      var st := store.states[src];
      SaveState(src, st.previous, st.current, false);
      Record(Outcome(dst, Promote, "", st.current, false));
      end, res := SourceUnhealthy, OpResult(dst, Promote, src.ring, st.current, false, false);
    }

    /** From the live check of the source ring on. */
    method CheckedHop(src: Key, dst: Key, srcRc: RingConfig, dstRc: RingConfig, version: string)
      returns (res: OpResult, ghost end: HopEnd, ghost said: seq<Answer>)
      requires Idle() && src in store.states && version == store.states[src].current && version != ""
      requires RingConfigOf(cfg, src) == Found(srcRc) && RingConfigOf(cfg, dst) == Found(dstRc)
      requires src.app == dst.app && Next(cfg.rings, src.ring) == Some(dst.ring)
      modifies this`log, this`ops, this`issued, this`doubted, cluster`running, cluster`heard, cluster`patience, store
      ensures Idle() && old(log) <= log
      ensures HopDone(cfg, old(Now()), Now(), src.app, src.ring, res, end)
      ensures cluster.heard == old(cluster.heard) + said
      ensures LiveSaid(src, srcRc, version, dst, dstRc, DeployVersion(dstRc, version), Current(old(store.states), dst), Attempts(), said, end)
    {
      hide Play, SafeRun, Safe, Track, HopEffects, AfterHop, HopResult, RowThenShip;
      ghost var w, before := Now(), log;
      IdleIsSafe();
      var target := DeployVersion(dstRc, version);
      ghost var id := 0;
      var sourceHealthy := true;
      said := [];
      if srcRc.hasHealthUrl {
        sourceHealthy := cluster.Check(src, srcRc, version);
        said := [Health(src, version, sourceHealthy)];
      }
      if !sourceHealthy {
        res, end := AbortHop(src, dst, target);
      } else {
        ghost var live, shipped := said, [];
        res, id, end, shipped := ShipHop(src, dst, dstRc, target);
        said := live + shipped;
        assert if srcRc.hasHealthUrl then said[1..] == shipped else said == shipped;
      }
      ops := HopJoins(cfg, origin, ops, before, w, src, dst, dstRc, target, id, end);
    }

    /** One promotion from a ring to the next; the caller holds the application's lock. */
    method PromoteHop(app: string, fromRing: string, inputs: GateInputs) returns (r: Reply, ghost end: HopEnd, ghost said: seq<Answer>)
      requires Idle()
      modifies this`log, this`ops, this`issued, this`doubted, cluster`running, cluster`heard, cluster`patience, keeper, store
      ensures Idle() && old(log) <= log && cluster.heard == old(cluster.heard) + said
      ensures r.Refused? ==> Now() == old(Now()) && HopRefused(RulesFor(inputs), old(Now()), app, fromRing, r.error, said)
      ensures r.Done? ==> HopDone(cfg, old(Now()), Now(), app, fromRing, r.res, end)
      ensures r.Done? ==> HopSaid(RulesFor(inputs), old(Now()), app, fromRing, said, end)
    {
      hide Play, SafeRun, Safe, Track, LiveSaid, GatesPass, GatesRefuse;
      end, said := DeployFailed, [];
      var src := Key(app, fromRing);
      var srcLookup := RingConfigOf(cfg, src);
      if srcLookup.Missing? {
        return Refused(srcLookup.error), end, said;
      }
      var next := Next(cfg.rings, fromRing);
      if next == None {
        return Refused(NoNextRing), end, said;
      }
      var dst := Key(app, next.value);
      var dstLookup := RingConfigOf(cfg, dst);
      if dstLookup.Missing? {
        return Refused(dstLookup.error), end, said;
      }
      var version := Current(store.states, src);
      if version == "" {
        return Refused(NothingToPromote), end, said;
      }
      var closed;
      closed, said := EvaluateGates(dst, version, inputs);
      if closed.Some? {
        return Refused(closed.value), end, said;
      }
      var res;
      ghost var gates, rest := said, [];
      res, end, rest := CheckedHop(src, dst, srcLookup.rc, dstLookup.rc, version);
      said := gates + rest;
      assert said[1..] == rest;
      r := Done(res);
    }

    /** Goes on promoting while the ring just reached has auto-promote on, a next ring is
        configured, and every hop succeeds. */
    method AutoChain(app: string, start: OpResult, inputs: GateInputs)
      returns (res: OpResult, ghost hops: seq<Hop>, ghost refused: Option<OpError>, ghost tail: seq<Answer>)
      requires Idle() && start.key.app == app
      modifies this`log, this`ops, this`issued, this`doubted, cluster`running, cluster`heard, cluster`patience, keeper, store
      ensures Idle() && old(log) <= log && cluster.heard == old(cluster.heard) + AllSaid(hops) + tail
      ensures ChainDone(cfg, app, start, old(Now()), Now(), hops, res) && ChainSaid(RulesFor(inputs), app, start, hops)
      ensures StopsRightly(RulesFor(inputs), Now(), res, refused, tail)
    {
      hide HopSaid, HopRefused, HopDone, Track, Play, ChainDone, ChainSaid, AllSaid, StopsRightly, GoesOn, RingConfigOf, AutoPromote, Next;
      ghost var rules, w := RulesFor(inputs), Now();
      res, hops, refused, tail := start, [], None, [];
      ChainStarts(rules, app, start, w);
      assert cluster.heard + [] + [] == cluster.heard;
      while res.success
        invariant Idle() && old(log) <= log && refused == None && tail == []
        invariant cluster.heard == old(cluster.heard) + AllSaid(hops)
        invariant ChainDone(cfg, app, start, w, Now(), hops, res) && ChainSaid(rules, app, start, hops)
        invariant res.key.app == app && res == (if hops == [] then start else hops[|hops| - 1].res)
        decreases |cfg.rings| - Index(cfg.rings, res.key.ring), res.success
      {
        GoesOnMeans(cfg, Now(), res.key);
        if !AutoPromote(store.states, res.key) {
          StopsHere(rules, Now(), res);
          return;
        }
        var next := Next(cfg.rings, res.key.ring);
        if next == None || RingConfigOf(cfg, Key(app, next.value)).Missing? {
          StopsHere(rules, Now(), res);
          return;
        }
        ghost var before := Now();
        ghost var end, said;
        var reply;
        reply, end, said := PromoteHop(app, res.key.ring, inputs);
        if reply.Refused? {
          StopsRefused(rules, Now(), res, reply.error, said);
          refused, tail := Some(reply.error), said;
          return;
        }
        ghost var h := Hop(before, reply.res, end, said);
        ChainSaidGrows(rules, app, start, hops, res, h);
        hops := ChainGrows(cfg, app, start, w, hops, res, h, Now());
        res := reply.res;
      }
      StopsHere(rules, Now(), res);
    }

    /** One hop from the ring, then on through the rings that have auto-promote on. */
    method PromoteRing(app: string, fromRing: string, inputs: GateInputs)
      returns (r: Reply, ghost first: Hop, ghost mid: World, ghost hops: seq<Hop>, ghost refused: Option<OpError>, ghost tail: seq<Answer>)
      requires Idle()
      modifies this`log, this`ops, this`issued, this`doubted, cluster`running, cluster`heard, cluster`patience, keeper, store
      ensures Idle() && old(log) <= log
      ensures r.Refused? ==> Now() == old(Now()) && HopRefused(RulesFor(inputs), old(Now()), app, fromRing, r.error, first.said) && hops == [] && tail == []
      ensures r.Done? ==> HopDone(cfg, old(Now()), mid, app, fromRing, first.res, first.end)
      ensures r.Done? ==> HopSaid(RulesFor(inputs), old(Now()), app, fromRing, first.said, first.end)
      ensures r.Done? ==> ChainDone(cfg, app, first.res, mid, Now(), hops, r.res) && ChainSaid(RulesFor(inputs), app, first.res, hops)
      ensures r.Done? ==> StopsRightly(RulesFor(inputs), Now(), r.res, refused, tail)
      ensures cluster.heard == old(cluster.heard) + first.said + AllSaid(hops) + tail
    {
      hide HopSaid, HopRefused, HopDone, StopsRightly, Track, Play;
      ghost var end, said;
      ghost var before := Now();
      r, end, said := PromoteHop(app, fromRing, inputs);
      mid, hops, refused, tail := Now(), [], None, [];
      first := Hop(before, OpResult(Key(app, fromRing), Promote, fromRing, "", false, false), end, said);
      assert said + AllSaid(hops) + tail == said;
      if r.Refused? {
        return;
      }
      first := first.(res := r.res);
      HopIsOfApp(cfg, before, mid, app, fromRing, r.res, end);
      var res := r.res;
      if res.success {
        res, hops, refused, tail := AutoChain(app, res, inputs);
      } else {
        StopsHere(RulesFor(inputs), Now(), res);
      }
      r := Done(res);
    }

    /** Seeding up to the clearing of its journal row, before the chain goes on. */
    method SeedRing(k: Key, requested: string, inputs: GateInputs) returns (r: Reply, ghost end: SeedEnd, ghost said: seq<Answer>)
      requires Idle()
      modifies this`log, this`ops, this`issued, this`doubted, cluster`running, cluster`heard, cluster`patience, keeper, store
      ensures Idle() && old(log) <= log && cluster.heard == old(cluster.heard) + said
      ensures r.Refused? ==> Now() == old(Now()) && SeedRefused(RulesFor(inputs), k, requested, r.error, said)
      ensures r.Done? ==> SeedDone(cfg, old(Now()), Now(), k, requested, r.res, end)
      ensures r.Done? ==> WholeSeedSaid(RulesFor(inputs), k, requested, said, end)
    {
      hide Play, SafeRun, Safe, Track, SeedSaid, GatesPass, GatesRefuse, AfterSeed, SeedEffects, SeedResult;
      end, said := SeedDeployFailed, [];
      if requested == "" {
        return Refused(EmptyVersion), end, said;
      }
      var lookup := RingConfigOf(cfg, k);
      if lookup.Missing? {
        return Refused(lookup.error), end, said;
      }
      var rc := lookup.rc;
      var version := DeployVersion(rc, requested);
      var known := cluster.KnowsVersion(k.app, version);
      said := [VersionKnown(k.app, version, known)];
      if !known {
        return Refused(VersionRejected), end, said;
      }
      var closed;
      ghost var gates;
      closed, gates := EvaluateGates(k, version, inputs);
      said := said + gates;
      assert said[1..] == gates;
      if closed.Some? {
        return Refused(closed.value), end, said;
      }
      ghost var w, before := Now(), log;
      IdleIsSafe();
      var res;
      ghost var row, rest;
      res, row, end, rest := SeedJournaled(k, rc, version);
      ops := SeedJoins(cfg, origin, ops, before, w, k, rc, version, row, end);
      said := said + rest;
      assert said[2..] == rest;
      r := Done(res);
    }

    method SeedJournaled(k: Key, rc: RingConfig, target: string)
      returns (res: OpResult, ghost id: nat, ghost end: SeedEnd, ghost said: seq<Answer>)
      requires Consistent() && 0 < store.nextOp
      modifies this`log, this`issued, this`doubted, cluster`running, cluster`heard, cluster`patience, store
      ensures Consistent() && log == old(log) + SeedEffects(old(Now()), k, target, id, end)
      ensures id == 0 || id == old(store.nextOp)
      ensures SeedEndRight(rc, target, end) && res == SeedResult(k, target, end)
      ensures cluster.heard == old(cluster.heard) + said && said != [] && said[0] == RowWritten(id != 0)
      ensures SeedSaid(k, rc, target, Attempts(), said[1..], end)
    {
      hide Play, SafeRun, Safe, Track, SeedSaid;
      var prev := Current(store.states, k);
      var row := JournalStart(PendingOp(k, Seed, "", target, prev));
      id := row;
      ghost var rest;
      res, end, rest := SeedUnderRow(k, rc, target, prev, id);
      said := [RowWritten(id != 0)] + rest;
      assert said[1..] == rest;
      JournalEnd(row);
    }

    method SeedUnderRow(k: Key, rc: RingConfig, target: string, prev: string, ghost id: nat)
      returns (res: OpResult, ghost end: SeedEnd, ghost said: seq<Answer>)
      requires Consistent() && prev == Current(store.states, k)
      modifies this`log, this`issued, this`doubted, cluster`running, cluster`heard, cluster`patience, store`states, store`history
      ensures Consistent() && log == old(log) + SeedCore(old(Now()), k, target, id, end)
      ensures SeedEndRight(rc, target, end) && res == SeedResult(k, target, end)
      ensures cluster.heard == old(cluster.heard) + said && SeedSaid(k, rc, target, Attempts(), said, end)
    {
      hide Play, SafeRun, Safe, Track, Confirmed;
      var ok;
      ghost var ran;
      ok, ran := Deploy(k, target, rc.Pinned(), prev, id, false);
      said := [Deployed(k, target, ok)];
      if !ok {
        Record(Outcome(k, Seed, prev, target, false));
        return OpResult(k, Seed, "", target, false, false), SeedDeployFailed, said;
      }
      var healthy, version;
      ghost var checks;
      healthy, version, checks := Confirm(k, rc, target);
      said := said + checks;
      assert said[1..] == checks;
      SaveState(k, prev, version, healthy);
      Record(Outcome(k, Seed, prev, version, healthy));
      res, end := OpResult(k, Seed, "", version, healthy, false), Seeded(version, ran, healthy);
    }

    /** Seeds a ring and, when it ends healthy, goes on through the auto-promote chain. */
    method SeedAndChain(k: Key, requested: string, inputs: GateInputs)
      returns (r: Reply, ghost end: SeedEnd, ghost said: seq<Answer>, ghost seeded: OpResult, ghost mid: World,
               ghost hops: seq<Hop>, ghost refused: Option<OpError>, ghost tail: seq<Answer>)
      requires Idle()
      modifies this`log, this`ops, this`issued, this`doubted, cluster`running, cluster`heard, cluster`patience, keeper, store
      ensures Idle() && old(log) <= log
      ensures r.Refused? ==> Now() == old(Now()) && SeedRefused(RulesFor(inputs), k, requested, r.error, said) && hops == [] && tail == []
      ensures r.Done? ==> SeedDone(cfg, old(Now()), mid, k, requested, seeded, end)
      ensures r.Done? ==> WholeSeedSaid(RulesFor(inputs), k, requested, said, end)
      ensures r.Done? ==> ChainDone(cfg, k.app, seeded, mid, Now(), hops, r.res) && ChainSaid(RulesFor(inputs), k.app, seeded, hops)
      ensures r.Done? ==> StopsRightly(RulesFor(inputs), Now(), r.res, refused, tail)
      ensures cluster.heard == old(cluster.heard) + said + AllSaid(hops) + tail
    {
      hide SeedRefused, WholeSeedSaid, SeedDone, StopsRightly, Track, Play;
      r, end, said := SeedRing(k, requested, inputs);
      mid, hops, refused, tail := Now(), [], None, [];
      seeded := OpResult(k, Seed, "", requested, false, false);
      assert said + AllSaid(hops) + tail == said;
      if r.Refused? {
        return;
      }
      seeded := r.res;
      SeededKey(cfg, mid, k, requested, seeded, end);
      var res := r.res;
      if res.success {
        res, hops, refused, tail := AutoChain(k.app, res, inputs);
      } else {
        StopsHere(RulesFor(inputs), Now(), res);
      }
      r := Done(res);
    }

    method RollbackJournaled(k: Key, rc: RingConfig, from: string, to: string)
      returns (ok: bool, healthy: bool, ghost id: nat, ghost end: RollbackEnd, ghost said: seq<Answer>)
      requires Consistent() && 0 < store.nextOp
      requires k in store.states && from == store.states[k].current && to == store.states[k].previous
      modifies this`log, this`issued, this`doubted, cluster`running, cluster`heard, cluster`patience, store
      ensures Consistent() && log == old(log) + RollbackEffects(old(Now()), k, id, end)
      ensures id == 0 || id == old(store.nextOp)
      ensures RollbackEndRight(rc, to, end)
      ensures ok == end.Restored? && healthy == (end.Restored? && end.healthy)
      ensures cluster.heard == old(cluster.heard) + said && said != [] && said[0] == RowWritten(id != 0)
      ensures RollbackSaid(k, rc, to, Attempts(), said[1..], end)
    {
      hide Play, SafeRun, Safe, Track, RollbackSaid;
      var row := JournalStart(PendingOp(k, Rollback, "", to, from));
      id := row;
      ghost var rest;
      ok, healthy, end, rest := RollbackTo(k, rc, from, to, id, false);
      said := [RowWritten(id != 0)] + rest;
      assert said[1..] == rest;
      JournalEnd(row);
    }

    /** Returns a ring to its previous version. */
    method RollbackRing(k: Key) returns (r: Reply, ghost end: RollbackEnd, ghost said: seq<Answer>)
      requires Idle()
      modifies this`log, this`ops, this`issued, this`doubted, cluster`running, cluster`heard, cluster`patience, store
      ensures Idle() && old(log) <= log && cluster.heard == old(cluster.heard) + said
      ensures r.Refused? ==> Now() == old(Now()) && RollbackError(cfg, old(store.states), k) == Some(r.error) && said == []
      ensures r.Done? ==> RollbackDone(cfg, old(Now()), Now(), k, r.res, end)
      ensures r.Done? ==> said != [] && said[0].RowWritten?
      ensures r.Done? ==> RollbackSaid(k, RingConfigOf(cfg, k).rc, old(store.states)[k].previous, Attempts(), said[1..], end)
    {
      hide Play, SafeRun, Safe, Track, RollbackSaid;
      end, said := NotDeployed, [];
      var lookup := RingConfigOf(cfg, k);
      if lookup.Missing? {
        return Refused(lookup.error), end, said;
      }
      if k !in store.states || store.states[k].previous == "" {
        return Refused(NothingToRollback), end, said;
      }
      ghost var w, before := Now(), log;
      IdleIsSafe();
      var st := store.states[k];
      var ok, healthy;
      ghost var row;
      ok, healthy, row, end, said := RollbackJournaled(k, lookup.rc, st.current, st.previous);
      ops := RollbackJoins(cfg, origin, ops, before, w, k, lookup.rc, row, end);
      r := Done(OpResult(k, Rollback, "", st.previous, healthy, ok));
    }

    /** Restarts a ring on the version it has: only its health may change. */
    method RestartRing(k: Key) returns (r: Reply, ghost end: RestartEnd, ghost said: seq<Answer>)
      requires Idle()
      modifies this`log, this`ops, this`issued, this`doubted, cluster`heard, cluster`patience, store
      ensures Idle() && old(log) <= log && cluster.heard == old(cluster.heard) + said
      ensures r.Refused? ==> Now() == old(Now()) && RestartRefused(cfg, old(store.states), k, r.error, said)
      ensures r.Done? ==> RestartError(cfg, old(store.states), k) == None
      ensures r.Done? ==> k in old(store.states) && Now() == AfterRestart(old(Now()), k, end)
      ensures r.Done? ==> RestartSaid(k, RingConfigOf(cfg, k).rc, old(store.states)[k].current, Attempts(), said, end)
      ensures r.Done? ==> r.res == OpResult(k, Restart, "", Current(old(store.states), k), end == Restarted(true), false)
    {
      hide Play, SafeRun, Safe, Track, Checked, AfterRestart, RestartEffects;
      end, said := RestartFailed, [];
      var lookup := RingConfigOf(cfg, k);
      if lookup.Missing? {
        return Refused(lookup.error), end, said;
      }
      var version := Current(store.states, k);
      if version == "" {
        return Refused(NothingToRestart), end, said;
      }
      var allowed := cluster.AllowsRestart(k, version);
      said := [RestartAllowed(k, version, allowed)];
      if !allowed {
        return Refused(RestartRejected), end, said;
      }
      ghost var w, before, asked := Now(), log, said;
      IdleIsSafe();
      var healthy;
      ghost var rest;
      healthy, end, rest := RestartAndCheck(k, lookup.rc, version);
      said := asked + rest;
      assert said[1] == rest[0] && said[2..] == rest[1..];
      ops := RestartJoins(cfg, origin, ops, before, w, k, end);
      r := Done(OpResult(k, Restart, "", version, healthy, false));
    }

    method RestartAndCheck(k: Key, rc: RingConfig, version: string) returns (healthy: bool, ghost end: RestartEnd, ghost said: seq<Answer>)
      requires Consistent() && k in store.states && version == store.states[k].current
      modifies this`log, this`issued, this`doubted, cluster`heard, cluster`patience, store`states, store`history
      ensures Consistent() && log == old(log) + RestartEffects(old(Now()), k, end)
      ensures cluster.heard == old(cluster.heard) + said && said != [] && said[0] == RestartDone(k, version, end.Restarted?)
      ensures if end.Restarted? then Checked(k, rc, Wanted(rc, version), Attempts(), said[1..], end.healthy) else |said| == 1
      ensures healthy == (end == Restarted(true))
    {
      hide Play, SafeRun, Safe, Track, Checked;
      var restarted := cluster.Restart(k, version);
      said := [RestartDone(k, version, restarted)];
      if !restarted {
        Record(Outcome(k, Restart, "", version, false));
        return false, RestartFailed, said;
      }
      ghost var checks;
      healthy, checks := CheckWithRetries(k, rc, if rc.Pinned() then "" else version);
      said := said + checks;
      assert said[1..] == checks;
      SaveState(k, store.states[k].previous, version, healthy);
      Record(Outcome(k, Restart, "", version, healthy));
      end := Restarted(healthy);
    }

    method StoreToggle(k: Key, enabled: bool)
      requires Idle()
      modifies this`log, this`ops, store`states
      ensures Idle() && old(log) <= log && Now() == old(Now()).(states := Toggled(old(store.states), k, enabled))
    {
      hide Play, SafeRun, Safe, Track, Toggled;
      ghost var w, before := Now(), log;
      store.SetAutoPromote(k, enabled);
      PlayOne(origin, log, Toggle(k, enabled));
      log := log + [Toggle(k, enabled)];
      ops := EffectJoins(cfg, origin, ops, before, w, ToggleRun(k, enabled));
    }

    /** The auto-promote switch of one ring, for a ring whose setting the configuration leaves
        open; switching on needs a ring to go on to. */
    method SetAutoPromote(k: Key, enabled: bool) returns (error: Option<OpError>)
      requires Idle()
      modifies this`log, this`ops, store`states
      ensures Idle() && old(log) <= log
      ensures error == ToggleError(cfg, k, enabled)
      ensures Now() == if error.Some? then old(Now()) else old(Now()).(states := Toggled(old(store.states), k, enabled))
      ensures error == None && enabled ==> GoesOn(cfg, Now(), k)
    {
      var lookup := RingConfigOf(cfg, k);
      if lookup.Missing? {
        return Some(lookup.error);
      }
      if lookup.rc.ownsAutoPromote {
        return Some(OwnedByConfig);
      }
      if enabled {
        var next := Next(cfg.rings, k.ring);
        if next == None {
          return Some(NoNextRing);
        }
        var dst := RingConfigOf(cfg, Key(k.app, next.value));
        if dst.Missing? {
          return Some(dst.error);
        }
      }
      StoreToggle(k, enabled);
      return None;
    }

    // ---- Deploys that outlived an earlier process ----

    /** One of them lands, while nothing is under way here. */
    method LandLate(k: Key, version: string) returns (landed: bool)
      requires Idle()
      modifies this`log, this`ops, cluster`running
      ensures Idle() && old(log) <= log && Now() == old(Now()).(running := cluster.running)
      ensures cluster.running == if landed then old(cluster.running)[k := version] else old(cluster.running)
      ensures landed <==> k in cluster.adrift && (Unpinned(cfg, k) ==> version in cluster.adrift[k])
    {
      hide Play, SafeRun, Safe, Track;
      ghost var w, before := Now(), log;
      var lookup := RingConfigOf(cfg, k);
      landed := cluster.LandLate(k, version, lookup.Missing? || lookup.rc.Pinned());
      if landed {
        PlayOne(origin, log, Effect.LandLate(k, version));
        log := log + [Effect.LandLate(k, version)];
        ops := EffectJoins(cfg, origin, ops, before, w, LateRun(k, version));
      }
    }

    /** The last of them on a ring has ended: what is stored is not overtaken any more. */
    method EndLate(k: Key)
      requires Idle()
      modifies this`log, this`ops, this`doubted, cluster`adrift
      ensures Idle() && old(log) <= log
      ensures cluster.adrift == old(cluster.adrift) - {k}
      ensures Now() == old(Now()).(adrift := cluster.adrift, doubted := doubted)
      ensures doubted == if Current(store.states, k) == RunningOn(cluster.running, k) then old(doubted) - {k} else old(doubted)
    {
      hide Play, SafeRun, Safe, Track;
      ghost var w, before := Now(), log;
      cluster.EndLate(k);
      if Current(store.states, k) == RunningOn(cluster.running, k) {
        doubted := doubted - {k};
      }
      PlayOne(origin, log, Effect.EndLate(k));
      log := log + [Effect.EndLate(k)];
      ops := EffectJoins(cfg, origin, ops, before, w, EndRun(k));
    }

    // ---- Recovery ----

    /** Polls until the ring reports the version healthy, or the operation's context ends. */
    method AwaitVersion(k: Key, rc: RingConfig, version: string) returns (reported: bool, ghost said: seq<Answer>)
      modifies cluster`heard, cluster`patience
      ensures cluster.heard == old(cluster.heard) + said
      ensures Tried(k, version, None, said, reported)
      ensures reported && rc.reportsVersion && version != "" ==> RunningOn(cluster.running, k) == version
    {
      said := [];
      while true
        invariant Undecided(k, version, said) && |said| % 2 == 0 && cluster.heard == old(cluster.heard) + said
        decreases cluster.patience
      {
        reported := cluster.Check(k, rc, version);
        said := said + [Health(k, version, reported)];
        if reported {
          return;
        }
        var ended := cluster.Wait();
        said := said + [Waited(ended)];
        if ended {
          return;
        }
      }
    }

    /** Settles an interrupted operation whose row is still there, up to its history entry. */
    method RecoverOutcome(op: PendingOp, rc: RingConfig) returns (proven: bool, ghost said: seq<Answer>)
      requires Idle() && RingConfigOf(cfg, op.key) == Found(rc) && op.version != ""
      modifies this`log, this`ops, this`issued, this`doubted, cluster`heard, cluster`patience, store`states, store`history
      ensures Idle() && old(log) <= log && cluster.heard == old(cluster.heard) + said
      ensures Now() == AfterRecovery(old(Now()), op, proven)
      ensures proven ==> RunningOn(cluster.running, op.key) == op.version
      ensures RecoverySaid(rc, op, said, proven)
    {
      hide Play, SafeRun, Safe, Track, Tried;
      ghost var w, before := Now(), log;
      IdleIsSafe();
      proven, said := false, [];
      if rc.Provable() {
        proven, said := AwaitVersion(op.key, rc, op.version);
      }
      if proven {
        SaveState(op.key, op.prevVersion, op.version, true);
      }
      Record(Outcome(op.key, op.action, op.prevVersion, op.version, proven));
      assert log == before + RecoveryEffects(op, proven);
      ops := RecoveryJoins(cfg, origin, ops, before, w, op, proven);
    }

    /** Resolves one journal row that was listed as op at start-up. The row goes at the very
        end, after the chain that a recovered seed or promotion continues with. */
    method ResumePendingOp(id: nat, op: PendingOp)
      returns (r: Reply, ghost proven: bool, ghost said: seq<Answer>, ghost last: World, ghost hops: seq<Hop>,
               ghost refused: Option<OpError>, ghost tail: seq<Answer>)
      requires Idle() && (id in store.pending ==> store.pending[id] == op)
      modifies this`log, this`ops, this`issued, this`doubted, cluster`running, cluster`heard, cluster`patience, keeper, store
      ensures Idle() && old(log) <= log && cluster.heard == old(cluster.heard) + said + AllSaid(hops) + tail
      ensures r.Refused? <==> RingConfigOf(cfg, op.key).Missing?
      ensures r.Refused? ==> Now() == old(Now()).(pending := old(store.pending) - {id}) && r.error == RingConfigOf(cfg, op.key).error
      ensures r.Done? && id !in old(store.pending) ==> Now() == old(Now()) && r.res == Recovered(op, true)
      ensures (r.Done? ==> id !in old(store.pending)) ==> said + AllSaid(hops) + tail == []
      ensures r.Done? && id in old(store.pending) ==> RecoveryChain(cfg, old(Now()), last, op, proven, hops, r.res)
      ensures r.Done? && id in old(store.pending) ==> Now() == last.(pending := last.pending - {id})
      ensures r.Done? && id in old(store.pending) ==> RecoverySaid(RingConfigOf(cfg, op.key).rc, op, said, proven)
      ensures r.Done? && id in old(store.pending) && op.action != Rollback ==>
                && ChainSaid(RulesFor(NO_INPUTS), op.key.app, Recovered(op, proven), hops)
                && StopsRightly(RulesFor(NO_INPUTS), last, r.res, refused, tail)
    {
      hide RecoverySaid, StopsRightly, Track, Play;
      proven, said, hops, last, refused, tail := false, [], [], Now(), None, [];
      assert said + AllSaid(hops) + tail == [];
      ghost var w := Now();
      var lookup := RingConfigOf(cfg, op.key);
      if lookup.Missing? {
        ClearRow(id);
        r := Refused(lookup.error);
        return;
      }
      if id !in store.pending {
        r := Done(OpResult(op.key, op.action, op.fromRing, op.version, true, false));
        return;
      }
      RowNamesVersion(id);
      var res;
      res, proven, said, hops, refused, tail := RecoverAndChain(op, lookup.rc);
      last := Now();
      ClearRow(id);
      r := Done(res);
    }

    /** The outcome of an interrupted operation, and for a proven seed or promotion its chain. */
    method RecoverAndChain(op: PendingOp, rc: RingConfig)
      returns (res: OpResult, ghost proven: bool, ghost said: seq<Answer>, ghost hops: seq<Hop>,
               ghost refused: Option<OpError>, ghost tail: seq<Answer>)
      requires Idle() && RingConfigOf(cfg, op.key) == Found(rc) && op.version != ""
      modifies this`log, this`ops, this`issued, this`doubted, cluster`running, cluster`heard, cluster`patience, keeper, store
      ensures Idle() && old(log) <= log && cluster.heard == old(cluster.heard) + said + AllSaid(hops) + tail
      ensures RecoveryChain(cfg, old(Now()), Now(), op, proven, hops, res) && RecoverySaid(rc, op, said, proven)
      ensures op.action != Rollback ==>
                && ChainSaid(RulesFor(NO_INPUTS), op.key.app, Recovered(op, proven), hops)
                && StopsRightly(RulesFor(NO_INPUTS), Now(), res, refused, tail)
    {
      hide RecoverySaid, StopsRightly, Track, Play, AfterRecovery, ChainDone, ChainSaid, AllSaid;
      ghost var w := Now();
      var ok;
      ok, said := RecoverOutcome(op, rc);
      proven, hops, refused, tail := ok, [], None, [];
      res := OpResult(op.key, op.action, op.fromRing, op.version, ok, false);
      ghost var rules, mid := RulesFor(NO_INPUTS), Now();
      ChainStarts(rules, op.key.app, res, mid);
      assert said + [] + [] == said;
      ProvenIsProvable(rc, op, said, proven);
      if ok && op.action != Rollback {
        res, hops, refused, tail := AutoChain(op.key.app, res, NO_INPUTS);
      } else if !ok {
        StopsHere(rules, mid, res);
      }
    }

    lemma RowNamesVersion(id: nat)
      requires Idle() && id in store.pending
      ensures store.pending[id].version != ""
    {
      IdleIsSafe();
    }

    /** Deletes a journal row; clearing a row twice is no error. */
    method ClearRow(id: nat)
      requires Idle()
      modifies this`log, this`ops, store`pending
      ensures Idle() && old(log) <= log && Now() == old(Now()).(pending := old(store.pending) - {id})
    {
      ghost var w, before := Now(), log;
      IdleIsSafe();
      if id == 0 {
        assert store.pending - {0} == store.pending;
        return;
      }
      JournalEnd(id);
      ops := EffectJoins(cfg, origin, ops, before, w, ClearRun(id));
    }
  }

  /** One hop of a chain: the world it started in, its result, how it ended and what was said. */
  datatype Hop = Hop(before: World, res: OpResult, end: HopEnd, said: seq<Answer>)

  /** Everything said in a chain of hops. */
  function AllSaid(hops: seq<Hop>): seq<Answer> {
    if hops == [] then [] else AllSaid(hops[..|hops| - 1]) + hops[|hops| - 1].said
  }

  /** The result the last hop of a chain started from. */
  ghost function Prior(start: OpResult, hops: seq<Hop>): OpResult
    requires hops != []
  {
    if |hops| == 1 then start else hops[|hops| - 2].res
  }

  /** The chain would enter another ring from here. */
  ghost predicate GoesOn(cfg: Config, w: World, k: Key) {
    && AutoPromote(w.states, k) && Next(cfg.rings, k.ring).Some?
    && RingConfigOf(cfg, Key(k.app, Next(cfg.rings, k.ring).value)).Found?
  }

  /** A chain stops after a failure, where it would not go on, or where the next hop is refused;
      tail is what that hop was told. */
  ghost predicate StopsRightly(rules: Rules, w: World, res: OpResult, refused: Option<OpError>, tail: seq<Answer>) {
    if refused == None then (res.success ==> !GoesOn(rules.cfg, w, res.key)) && tail == []
    else res.success && GoesOn(rules.cfg, w, res.key) && HopRefused(rules, w, res.key.app, res.key.ring, refused.value, tail)
  }

  lemma StopsHere(rules: Rules, w: World, res: OpResult)
    requires !res.success || !GoesOn(rules.cfg, w, res.key)
    ensures StopsRightly(rules, w, res, None, [])
  {
  }

  lemma GoesOnMeans(cfg: Config, w: World, k: Key)
    ensures GoesOn(cfg, w, k) <==>
              && AutoPromote(w.states, k) && Next(cfg.rings, k.ring).Some?
              && RingConfigOf(cfg, Key(k.app, Next(cfg.rings, k.ring).value)).Found?
  {
  }

  lemma StopsRefused(rules: Rules, w: World, res: OpResult, error: OpError, said: seq<Answer>)
    requires res.success && GoesOn(rules.cfg, w, res.key) && HopRefused(rules, w, res.key.app, res.key.ring, error, said)
    ensures StopsRightly(rules, w, res, Some(error), said)
  {
  }

  lemma ChainStarts(rules: Rules, app: string, start: OpResult, w: World)
    ensures ChainDone(rules.cfg, app, start, w, w, [], start) && ChainSaid(rules, app, start, []) && AllSaid([]) == []
  {
  }

  /** What was said in each hop decided how it ended. */
  ghost predicate ChainSaid(rules: Rules, app: string, start: OpResult, hops: seq<Hop>) {
    forall j {:trigger hops[j]} :: 0 <= j < |hops| ==>
      HopSaid(rules, hops[j].before, app, (if j == 0 then start else hops[j - 1].res).key.ring, hops[j].said, hops[j].end)
  }

  lemma ChainSaidGrows(rules: Rules, app: string, start: OpResult, hops: seq<Hop>, prior: OpResult, h: Hop)
    requires ChainSaid(rules, app, start, hops) && prior == (if hops == [] then start else hops[|hops| - 1].res)
    requires HopSaid(rules, h.before, app, prior.key.ring, h.said, h.end)
    ensures ChainSaid(rules, app, start, hops + [h]) && AllSaid(hops + [h]) == AllSaid(hops) + h.said
  {
    hide HopSaid;
    var more := hops + [h];
    assert more[..|more| - 1] == hops;
    forall j | 0 <= j < |more|
      ensures HopSaid(rules, more[j].before, app, (if j == 0 then start else more[j - 1].res).key.ring, more[j].said, more[j].end)
    {
      if j < |hops| {
        assert more[j] == hops[j] && (j > 0 ==> more[j - 1] == hops[j - 1]);
      } else if j > 0 {
        assert more[j - 1] == hops[|hops| - 1];
      }
    }
  }

  /** The hops lead from w to w': each one starts from the ring the one before reached
      successfully, and that ring has auto-promote on. */
  ghost predicate ChainDone(cfg: Config, app: string, start: OpResult, w: World, w': World, hops: seq<Hop>, final: OpResult)
    decreases |hops|
  {
    if hops == [] then w' == w && final == start
    else
      var h, prior := hops[|hops| - 1], Prior(start, hops);
      && prior.success && prior.key.app == app && AutoPromote(h.before.states, prior.key)
      && HopDone(cfg, h.before, w', app, prior.key.ring, h.res, h.end) && final == h.res
      && ChainDone(cfg, app, start, w, h.before, hops[..|hops| - 1], prior)
  }

  lemma ChainGrows(cfg: Config, app: string, start: OpResult, w: World, hops: seq<Hop>, prior: OpResult, h: Hop, now: World)
    returns (grown: seq<Hop>)
    requires Distinct(cfg.rings) && ChainDone(cfg, app, start, w, h.before, hops, prior)
    requires prior.success && prior.key.app == app && AutoPromote(h.before.states, prior.key)
    requires HopDone(cfg, h.before, now, app, prior.key.ring, h.res, h.end)
    ensures grown == hops + [h] && ChainDone(cfg, app, start, w, now, grown, h.res)
    ensures h.res.key.app == app && Index(cfg.rings, h.res.key.ring) == Index(cfg.rings, prior.key.ring) + 1
  {
    grown := hops + [h];
    assert grown[..|grown| - 1] == hops;
    assert prior == Prior(start, grown);
    NextAndPrevAreInverse(cfg.rings, prior.key.ring, h.res.key.ring);
  }

  // ---- What an operation refuses before it changes anything ----

  function HopError(cfg: Config, states: map<Key, RingState>, app: string, fromRing: string): Option<OpError> {
    var src, next := Key(app, fromRing), Next(cfg.rings, fromRing);
    if RingConfigOf(cfg, src).Missing? then Some(RingConfigOf(cfg, src).error)
    else if next == None then Some(NoNextRing)
    else if RingConfigOf(cfg, Key(app, next.value)).Missing? then Some(RingConfigOf(cfg, Key(app, next.value)).error)
    else if Current(states, src) == "" then Some(NothingToPromote)
    else None
  }

  function SeedError(cfg: Config, k: Key, requested: string): Option<OpError> {
    if requested == "" then Some(EmptyVersion)
    else if RingConfigOf(cfg, k).Missing? then Some(RingConfigOf(cfg, k).error)
    else None
  }

  function RollbackError(cfg: Config, states: map<Key, RingState>, k: Key): Option<OpError> {
    if RingConfigOf(cfg, k).Missing? then Some(RingConfigOf(cfg, k).error)
    else if k !in states || states[k].previous == "" then Some(NothingToRollback)
    else None
  }

  function RestartError(cfg: Config, states: map<Key, RingState>, k: Key): Option<OpError> {
    if RingConfigOf(cfg, k).Missing? then Some(RingConfigOf(cfg, k).error)
    else if Current(states, k) == "" then Some(NothingToRestart)
    else None
  }

  function ToggleError(cfg: Config, k: Key, enabled: bool): Option<OpError> {
    if RingConfigOf(cfg, k).Missing? then Some(RingConfigOf(cfg, k).error)
    else if RingConfigOf(cfg, k).rc.ownsAutoPromote then Some(OwnedByConfig)
    else if !enabled then None
    else if Next(cfg.rings, k.ring) == None then Some(NoNextRing)
    else
      var dst := RingConfigOf(cfg, Key(k.app, Next(cfg.rings, k.ring).value));
      if dst.Missing? then Some(dst.error) else None
  }

  // ---- What was said, for each operation ----

  /** A hop is refused for its own reasons, before anyone is asked, or by the target's gates. */
  ghost predicate HopRefused(rules: Rules, w: World, app: string, fromRing: string, error: OpError, said: seq<Answer>) {
    var own := HopError(rules.cfg, w.states, app, fromRing);
    if own.Some? then error == own.value && said == []
    else GatesRefuse(rules, Key(app, Next(rules.cfg.rings, fromRing).value), Current(w.states, Key(app, fromRing)), error, said)
  }

  /** A hop that is not refused: the gates of its target let the source's version through, and what
      was said from the source's live check on decides how it ends. */
  ghost predicate HopSaid(rules: Rules, w: World, app: string, fromRing: string, said: seq<Answer>, end: HopEnd) {
    var src := Key(app, fromRing);
    && HopError(rules.cfg, w.states, app, fromRing) == None && said != []
    && var dst, version := Key(app, Next(rules.cfg.rings, fromRing).value), Current(w.states, src);
    && var srcRc, rc := RingConfigOf(rules.cfg, src).rc, RingConfigOf(rules.cfg, dst).rc;
    && GatesPass(rules, dst, version, said[0])
    && LiveSaid(src, srcRc, version, dst, rc, if rc.ref != "" then rc.ref else version, Current(w.states, dst),
                rules.attempts, said[1..], end)
  }

  /** A seed is refused for its own reasons, then for a version that is not known, then by the gates. */
  ghost predicate SeedRefused(rules: Rules, k: Key, requested: string, error: OpError, said: seq<Answer>) {
    var own := SeedError(rules.cfg, k, requested);
    if own.Some? then error == own.value && said == []
    else
      && var rc := RingConfigOf(rules.cfg, k).rc;
      && var target := if rc.ref != "" then rc.ref else requested;
      && said != [] && said[0].VersionKnown?
      && said[0] == VersionKnown(k.app, target, said[0].known)
      && if said[0].known then GatesRefuse(rules, k, target, error, said[1..]) else error == VersionRejected && |said| == 1
  }

  /** A seed that is not refused: the version is known and the ring's gates let it through. */
  ghost predicate WholeSeedSaid(rules: Rules, k: Key, requested: string, said: seq<Answer>, end: SeedEnd) {
    && SeedError(rules.cfg, k, requested) == None && |said| >= 3
    && var rc := RingConfigOf(rules.cfg, k).rc;
    && var target := if rc.ref != "" then rc.ref else requested;
    && said[0] == VersionKnown(k.app, target, true) && GatesPass(rules, k, target, said[1]) && said[2].RowWritten?
    && SeedSaid(k, rc, target, rules.attempts, said[3..], end)
  }

  ghost predicate RestartRefused(cfg: Config, states: map<Key, RingState>, k: Key, error: OpError, said: seq<Answer>) {
    var own := RestartError(cfg, states, k);
    if own.Some? then error == own.value && said == []
    else error == RestartRejected && said == [RestartAllowed(k, Current(states, k), false)]
  }

  ghost predicate RestartSaid(k: Key, rc: RingConfig, version: string, attempts: nat, said: seq<Answer>, end: RestartEnd) {
    && |said| >= 2 && said[0] == RestartAllowed(k, version, true) && said[1] == RestartDone(k, version, end.Restarted?)
    && if end.Restarted? then Checked(k, rc, Wanted(rc, version), attempts, said[2..], end.healthy) else |said| == 2
  }

  /** Recovery asks only a ring that can prove it, and gives up only at the end of its context. */
  ghost predicate RecoverySaid(rc: RingConfig, op: PendingOp, said: seq<Answer>, proven: bool) {
    if rc.hasHealthUrl && rc.reportsVersion && rc.ref == "" then Tried(op.key, op.version, None, said, proven)
    else !proven && said == []
  }

  function Recovered(op: PendingOp, proven: bool): OpResult {
    OpResult(op.key, op.action, op.fromRing, op.version, proven, false)
  }

  lemma SeededKey(cfg: Config, w: World, k: Key, requested: string, res: OpResult, end: SeedEnd)
    requires exists v :: SeedDone(cfg, v, w, k, requested, res, end)
    ensures res.key == k
  {
  }

  lemma NotAskedIsHealthy(k: Key, rc: RingConfig, want: string, attempts: nat, said: seq<Answer>, ok: bool)
    requires Checked(k, rc, want, attempts, said, ok)
    ensures !rc.hasHealthUrl ==> ok
  {
  }

  lemma HopIsOfApp(cfg: Config, w: World, w': World, app: string, fromRing: string, res: OpResult, end: HopEnd)
    requires HopDone(cfg, w, w', app, fromRing, res, end)
    ensures res.key.app == app
  {
  }

  lemma ProvenIsProvable(rc: RingConfig, op: PendingOp, said: seq<Answer>, proven: bool)
    requires RecoverySaid(rc, op, said, proven)
    ensures proven ==> rc.Provable()
  {
  }

  /** Only a ring that was asked can be unhealthy. */
  lemma UnhealthyHasUrl(k: Key, rc: RingConfig, to: string, attempts: nat, said: seq<Answer>)
    requires Confirmed(k, rc, to, attempts, said, false, to)
    ensures rc.hasHealthUrl && Checked(k, rc, Wanted(rc, to), attempts, said, false)
  {
  }

  function SeedResult(k: Key, target: string, end: SeedEnd): OpResult {
    match end
    case SeedDeployFailed => OpResult(k, Seed, "", target, false, false)
    case Seeded(version, _, healthy) => OpResult(k, Seed, "", version, healthy, false)
  }

  ghost predicate SeedDone(cfg: Config, w: World, w': World, k: Key, requested: string, res: OpResult, end: SeedEnd) {
    && requested != "" && RingConfigOf(cfg, k).Found?
    && var rc := RingConfigOf(cfg, k).rc;
    && var target := DeployVersion(rc, requested);
    && SeedEndRight(rc, target, end)
    && w' == AfterSeed(w, k, target, end).(nextOp := w'.nextOp) && w.nextOp <= w'.nextOp
    && res == SeedResult(k, target, end)
  }

  ghost predicate RollbackDone(cfg: Config, w: World, w': World, k: Key, res: OpResult, end: RollbackEnd) {
    && RingConfigOf(cfg, k).Found? && k in w.states && w.states[k].previous != ""
    && var st := w.states[k];
    && RollbackEndRight(RingConfigOf(cfg, k).rc, st.previous, end)
    && w' == AfterRollback(w, k, st.current, st.previous, end).(nextOp := w'.nextOp) && w.nextOp <= w'.nextOp
    && res == OpResult(k, Rollback, "", st.previous, end.Restored? && end.healthy, end.Restored?)
  }

  /** Recovery, then for a proven seed or promotion the chain. */
  ghost predicate RecoveryChain(cfg: Config, w: World, w': World, op: PendingOp, proven: bool, hops: seq<Hop>, final: OpResult) {
    && (proven ==> RunningOn(w.running, op.key) == op.version && RingConfigOf(cfg, op.key).Found? && RingConfigOf(cfg, op.key).rc.Provable())
    && (hops != [] ==> proven && op.action != Rollback)
    && ChainDone(cfg, op.key.app, OpResult(op.key, op.action, op.fromRing, op.version, proven, false),
                 AfterRecovery(w, op, proven), w', hops, final)
  }

  /** A hop that was not refused took the current version of its source to the ring after it; a
      source that reports its version really ran it. */
  ghost predicate HopDone(cfg: Config, w: World, w': World, app: string, fromRing: string, res: OpResult, end: HopEnd) {
    var src, next := Key(app, fromRing), Next(cfg.rings, fromRing);
    && next.Some? && src in w.states && RingConfigOf(cfg, src).Found?
    && var dst, version := Key(app, next.value), w.states[src].current;
    && RingConfigOf(cfg, dst).Found? && version != ""
    && var rc := RingConfigOf(cfg, dst).rc;
    && var target := DeployVersion(rc, version);
    && var srcRc := RingConfigOf(cfg, src).rc;
    && (if end.SourceUnhealthy? then srcRc.hasHealthUrl
        else srcRc.hasHealthUrl && srcRc.reportsVersion ==> RunningOn(w.running, src) == version)
    && HopEndRight(rc, target, Current(w.states, dst), end)
    && w' == AfterHop(w, src, dst, target, end).(nextOp := w'.nextOp) && w.nextOp <= w'.nextOp
    && res == if end.SourceUnhealthy? then OpResult(dst, Promote, fromRing, version, false, false)
              else HopResult(src, dst, target, end)
  }
}
