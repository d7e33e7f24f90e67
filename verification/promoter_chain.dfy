/** What a whole promotion, chain and all, does to the rings (internal/promoter/promoter.go). */
module PromoterChain {
  import opened Wrappers
  import opened Rings
  import opened PromoterWorld
  import opened PromoterEffects
  import opened Promoter

  /** All that a hop leaves as it was. */
  ghost predicate HopFrame(w: World, w': World, dst: Key) {
    && (forall x :: AutoPromote(w'.states, x) == AutoPromote(w.states, x))
    && (forall x :: x != dst ==> Current(w'.states, x) == Current(w.states, x) && RunningOn(w'.running, x) == RunningOn(w.running, x))
    && w'.pending == w.pending && w'.issued == w.issued && w'.doubted <= w.doubted && w'.adrift == w.adrift && w.history <= w'.history
  }

  lemma FailedFrame(w: World, dst: Key, target: string, ran: string)
    ensures HopFrame(w, AfterFailedHop(w, dst, target, ran), dst)
  {
  }

  lemma RollbackFrame(w: World, k: Key, from: string, to: string, end: RollbackEnd)
    ensures HopFrame(w, AfterRollback(w, k, from, to, end), k)
  {
  }

  lemma ShipFrame(w: World, dst: Key, target: string, end: HopEnd)
    ensures HopFrame(w, AfterShip(w, dst, target, end), dst)
  {
    match end {
      case NoWayBack(ran) =>
        FailedFrame(w, dst, target, ran);
      case WentBack(ran, back) =>
        var v := AfterFailedHop(w, dst, target, ran);
        FailedFrame(w, dst, target, ran);
        RollbackFrame(v, dst, target, Current(w.states, dst), back);
      case _ =>
    }
  }

  /** A hop lands on the very next ring and touches the version of no other. */
  lemma HopLandsNext(cfg: Config, w: World, w': World, app: string, fromRing: string, res: OpResult, end: HopEnd)
    requires Distinct(cfg.rings) && HopDone(cfg, w, w', app, fromRing, res, end)
    ensures fromRing in cfg.rings && Index(cfg.rings, fromRing) + 1 < |cfg.rings|
    ensures res.key == Key(app, cfg.rings[Index(cfg.rings, fromRing) + 1]) && res.fromRing == fromRing
    ensures HopFrame(w, w', res.key)
  {
    var src, dst := Key(app, fromRing), Key(app, Next(cfg.rings, fromRing).value);
    NextAndPrevAreInverse(cfg.rings, fromRing, dst.ring);
    var version := w.states[src].current;
    var target := DeployVersion(RingConfigOf(cfg, dst).rc, version);
    if !end.SourceUnhealthy? {
      ShipFrame(w, dst, target, end);
    }
  }

  /** How a hop onto an unpinned ring ends. Success stores and runs the source's version, healthy,
      with the version before it to go back to. Otherwise the ring keeps what it had, or was
      taken back to it, unless there was nothing to go back to or going back failed as well: then
      it is stored unhealthy on the new version, which is what it runs. */
  lemma HowAHopEnds(cfg: Config, w: World, w': World, app: string, fromRing: string, res: OpResult, end: HopEnd)
    requires HopDone(cfg, w, w', app, fromRing, res, end) && Unpinned(cfg, res.key)
    requires Distinct(cfg.rings)
    ensures var k, v, prev := res.key, Current(w.states, Key(app, fromRing)), Current(w.states, res.key);
            && res.version == v
            && (!end.SourceUnhealthy? && !end.DeployFailed? && k !in w.adrift ==> k !in w'.doubted)
            && (res.success ==> k in w'.states && w'.states[k] == RingState(v, prev, true, AutoPromote(w.states, k))
                                && RunningOn(w'.running, k) == v)
            && (!res.success && !res.rolledBack && (end.SourceUnhealthy? || end.DeployFailed?) ==>
                  Current(w'.states, k) == prev && RunningOn(w'.running, k) == RunningOn(w.running, k))
            && (!res.success && !res.rolledBack && !end.SourceUnhealthy? && !end.DeployFailed? ==>
                  k in w'.states && w'.states[k] == RingState(v, prev, false, AutoPromote(w.states, k))
                  && RunningOn(w'.running, k) == v)
            && (res.rolledBack ==> prev != "" && k in w'.states && w'.states[k].current == prev && w'.states[k].previous == v
                                   && RunningOn(w'.running, k) == prev && !res.success)
  {
    HopLandsNext(cfg, w, w', app, fromRing, res, end);
  }

  /** The ring a chain stands on after j of its hops. */
  ghost function Standing(start: OpResult, hops: seq<Hop>, j: nat): OpResult
    requires j <= |hops|
  {
    if j == 0 then start else hops[j - 1].res
  }

  ghost predicate ChainKeys(cfg: Config, app: string, start: OpResult, hops: seq<Hop>) {
    && |hops| < |cfg.rings| - Index(cfg.rings, start.key.ring)
    && forall j :: 0 <= j < |hops| ==>
         hops[j].res.key == Key(app, cfg.rings[Index(cfg.rings, start.key.ring) + 1 + j])
  }

  /** Each ring was entered only because the ring before it had just been reached healthy and
      has auto-promote on. */
  ghost predicate EnteredRightly(w: World, start: OpResult, hops: seq<Hop>) {
    forall j :: 0 <= j < |hops| ==> Standing(start, hops, j).success && AutoPromote(w.states, Standing(start, hops, j).key)
  }

  ghost predicate SameSettings(w: World, w': World) {
    forall x :: AutoPromote(w'.states, x) == AutoPromote(w.states, x)
  }

  /** One more hop: its own facts, and those of the chain before it. */
  lemma ChainStep(cfg: Config, app: string, start: OpResult, w: World, w': World, hops: seq<Hop>, final: OpResult)
    returns (front: seq<Hop>, h: Hop, prior: OpResult)
    requires Distinct(cfg.rings) && hops != [] && ChainDone(cfg, app, start, w, w', hops, final)
    ensures hops == front + [h] && prior == Standing(start, front, |front|) && final == h.res
    ensures ChainDone(cfg, app, start, w, h.before, front, prior)
    ensures prior.success && prior.key.app == app && AutoPromote(h.before.states, prior.key)
    ensures HopDone(cfg, h.before, w', app, prior.key.ring, h.res, h.end)
    ensures prior.key.ring in cfg.rings && Index(cfg.rings, prior.key.ring) + 1 < |cfg.rings|
    ensures h.res.key == Key(app, cfg.rings[Index(cfg.rings, prior.key.ring) + 1])
    ensures HopFrame(h.before, w', h.res.key)
  {
    hide HopDone, HopFrame;
    var n := |hops| - 1;
    front, h, prior := hops[..n], hops[n], Prior(start, hops);
    HopLandsNext(cfg, h.before, w', app, prior.key.ring, h.res, h.end);
  }

  lemma OneMoreRing(cfg: Config, app: string, start: OpResult, front: seq<Hop>, h: Hop)
    requires Distinct(cfg.rings) && start.key.app == app && start.key.ring in cfg.rings && ChainKeys(cfg, app, start, front)
    requires var at := Index(cfg.rings, Standing(start, front, |front|).key.ring);
             at + 1 < |cfg.rings| && h.res.key == Key(app, cfg.rings[at + 1])
    ensures ChainKeys(cfg, app, start, front + [h])
  {
    var first, n := Index(cfg.rings, start.key.ring), |front|;
    assert Standing(start, front, n).key.ring == cfg.rings[first + n];
    IndexAt(cfg.rings, first + n);
    forall j | 0 <= j < n + 1 ensures (front + [h])[j].res.key == Key(app, cfg.rings[first + 1 + j]) {
    }
  }

  lemma OneMoreEntered(w: World, start: OpResult, front: seq<Hop>, h: Hop)
    requires EnteredRightly(w, start, front)
    requires Standing(start, front, |front|).success && AutoPromote(w.states, Standing(start, front, |front|).key)
    ensures EnteredRightly(w, start, front + [h])
  {
    var hops := front + [h];
    forall j | 0 <= j < |hops| ensures Standing(start, hops, j).success && AutoPromote(w.states, Standing(start, hops, j).key) {
      assert Standing(start, hops, j) == Standing(start, front, j);
    }
  }

  /** The chain enters one ring after the other, without a gap, each for good reason; so it ends. */
  lemma {:induction false} ChainNeverSkips(cfg: Config, app: string, start: OpResult, w: World, w': World, hops: seq<Hop>, final: OpResult)
    requires Distinct(cfg.rings) && start.key.app == app && start.key.ring in cfg.rings
    requires ChainDone(cfg, app, start, w, w', hops, final)
    ensures ChainKeys(cfg, app, start, hops) && EnteredRightly(w, start, hops)
    ensures final == Standing(start, hops, |hops|) && SameSettings(w, w')
    decreases |hops|
  {
    if hops != [] {
      hide HopDone, ChainKeys, EnteredRightly;
      var front, h, prior := ChainStep(cfg, app, start, w, w', hops, final);
      ChainNeverSkips(cfg, app, start, w, h.before, front, prior);
      OneMoreRing(cfg, app, start, front, h);
      assert AutoPromote(w.states, prior.key) == AutoPromote(h.before.states, prior.key);
      OneMoreEntered(w, start, front, h);
    }
  }

  /** No ring but those the chain enters changes its stored version or what it runs; what was
      pending stays pending, and the history only grows. */
  lemma {:induction false} ChainTouchesOnlyItsRings(cfg: Config, app: string, start: OpResult, w: World, w': World, hops: seq<Hop>, final: OpResult, x: Key)
    requires Distinct(cfg.rings) && ChainDone(cfg, app, start, w, w', hops, final)
    requires forall h :: h in hops ==> h.res.key != x
    ensures Current(w'.states, x) == Current(w.states, x) && RunningOn(w'.running, x) == RunningOn(w.running, x)
    ensures w'.pending == w.pending && w'.issued == w.issued && w'.doubted <= w.doubted && w'.adrift == w.adrift && w.history <= w'.history
    decreases |hops|
  {
    if hops != [] {
      hide HopDone;
      var front, h, prior := ChainStep(cfg, app, start, w, w', hops, final);
      assert h in hops;
      ChainTouchesOnlyItsRings(cfg, app, start, w, h.before, front, prior, x);
    }
  }

  ghost predicate Carries(w: World, k: Key, version: string) {
    Current(w.states, k) == version && RunningOn(w.running, k) == version
  }

  /** Every ring the chain has reached healthy stores and runs the version. */
  ghost predicate AllCarry(w: World, start: OpResult, hops: seq<Hop>, version: string) {
    forall j {:trigger Standing(start, hops, j)} ::
      0 <= j <= |hops| && Standing(start, hops, j).success ==> Carries(w, Standing(start, hops, j).key, version)
  }

  /** Over unpinned rings one version is carried all the way: each ring the chain reached healthy
      ends up with the version it started from, stored and running. */
  lemma {:induction false} ChainCarriesOneVersion(cfg: Config, app: string, start: OpResult, w: World, w': World, hops: seq<Hop>, final: OpResult)
    requires Distinct(cfg.rings) && start.key.app == app && start.key.ring in cfg.rings
    requires ChainDone(cfg, app, start, w, w', hops, final)
    requires start.success ==> Carries(w, start.key, start.version)
    requires forall h :: h in hops ==> Unpinned(cfg, h.res.key)
    ensures AllCarry(w', start, hops, start.version)
    ensures forall h :: h in hops ==> h.res.version == start.version
    decreases |hops|
  {
    hide HopDone;
    if hops != [] {
      var front, h, prior := ChainStep(cfg, app, start, w, w', hops, final);
      assert h in hops;
      ChainCarriesOneVersion(cfg, app, start, w, h.before, front, prior);
      ChainNeverSkips(cfg, app, start, w, w', hops, final);
      HowAHopEnds(cfg, h.before, w', app, prior.key.ring, h.res, h.end);
      assert Standing(start, front, |front|) == prior;
      assert Key(app, prior.key.ring) == prior.key;
      OneMoreCarries(cfg, app, start, h.before, w', front, h);
    }
  }

  lemma OneMoreCarries(cfg: Config, app: string, start: OpResult, w: World, w': World, front: seq<Hop>, h: Hop)
    requires Distinct(cfg.rings) && start.key.ring in cfg.rings && ChainKeys(cfg, app, start, front + [h])
    requires AllCarry(w, start, front, start.version) && HopFrame(w, w', h.res.key)
    requires h.res.success ==> Carries(w', h.res.key, start.version)
    ensures AllCarry(w', start, front + [h], start.version)
  {
    var hops := front + [h];
    forall j | 0 <= j <= |hops| && Standing(start, hops, j).success
      ensures Carries(w', Standing(start, hops, j).key, start.version)
    {
      if j < |hops| {
        assert Standing(start, hops, j) == Standing(start, front, j);
        ChainRingsDiffer(cfg, app, start, hops, j);
      }
    }
  }

  /** No ring is entered twice. */
  lemma ChainRingsDiffer(cfg: Config, app: string, start: OpResult, hops: seq<Hop>, j: nat)
    requires Distinct(cfg.rings) && start.key.ring in cfg.rings && ChainKeys(cfg, app, start, hops) && j < |hops|
    ensures Standing(start, hops, j).key != hops[|hops| - 1].res.key
  {
    var i := Index(cfg.rings, start.key.ring);
    assert Standing(start, hops, j).key.ring == cfg.rings[i + j];
  }

  // ---- What no operation takes back ----

  /** The journal is as it was and the history goes on. */
  ghost predicate RowsKept(w: World, w': World) {
    w'.pending == w.pending && w.history <= w'.history
  }

  /** A ring that shows what it runs still does, whether a crash had left it in doubt or not. */
  ghost predicate AgreementKept(cfg: Config, w: World, w': World) {
    forall k :: Unpinned(cfg, k) && Agrees(w, k) ==> Agrees(w', k)
  }

  lemma HopAdvances(cfg: Config, w: World, w': World, app: string, fromRing: string, res: OpResult, end: HopEnd)
    requires Distinct(cfg.rings) && HopDone(cfg, w, w', app, fromRing, res, end)
    ensures RowsKept(w, w') && AgreementKept(cfg, w, w')
  {
    HopLandsNext(cfg, w, w', app, fromRing, res, end);
    if Unpinned(cfg, res.key) {
      HowAHopEnds(cfg, w, w', app, fromRing, res, end);
    }
    hide HopDone;
    forall k | Unpinned(cfg, k) && Agrees(w, k) ensures Agrees(w', k) {
      if k != res.key {
        assert Current(w'.states, k) == Current(w.states, k) && RunningOn(w'.running, k) == RunningOn(w.running, k);
      }
    }
  }

  lemma {:induction false} ChainAdvances(cfg: Config, app: string, start: OpResult, w: World, w': World, hops: seq<Hop>, final: OpResult)
    requires Distinct(cfg.rings) && ChainDone(cfg, app, start, w, w', hops, final)
    ensures RowsKept(w, w') && AgreementKept(cfg, w, w')
    decreases |hops|
  {
    if hops != [] {
      hide HopDone, RowsKept, AgreementKept;
      var front, h, prior := ChainStep(cfg, app, start, w, w', hops, final);
      ChainAdvances(cfg, app, start, w, h.before, front, prior);
      HopAdvances(cfg, h.before, w', app, prior.key.ring, h.res, h.end);
      AdvancesOn(cfg, w, h.before, w');
    }
  }

  lemma SeedAdvances(cfg: Config, w: World, w': World, k: Key, requested: string, res: OpResult, end: SeedEnd)
    requires SeedDone(cfg, w, w', k, requested, res, end)
    ensures RowsKept(w, w') && AgreementKept(cfg, w, w')
  {
  }

  lemma RollbackAdvances(cfg: Config, w: World, w': World, k: Key, res: OpResult, end: RollbackEnd)
    requires RollbackDone(cfg, w, w', k, res, end)
    ensures RowsKept(w, w') && AgreementKept(cfg, w, w')
  {
  }

  lemma RestartAdvances(cfg: Config, w: World, k: Key, end: RestartEnd)
    requires k in w.states
    ensures RowsKept(w, AfterRestart(w, k, end)) && AgreementKept(cfg, w, AfterRestart(w, k, end))
  {
  }

  lemma ToggleAdvances(cfg: Config, w: World, k: Key, enabled: bool)
    ensures var w' := w.(states := Toggled(w.states, k, enabled)); RowsKept(w, w') && AgreementKept(cfg, w, w')
  {
  }

  lemma AdvancesOn(cfg: Config, w: World, v: World, w': World)
    requires RowsKept(w, v) && AgreementKept(cfg, w, v) && RowsKept(v, w') && AgreementKept(cfg, v, w')
    ensures RowsKept(w, w') && AgreementKept(cfg, w, w')
  {
    forall k | Unpinned(cfg, k) && Agrees(w, k) ensures Agrees(w', k) {
      assert Agrees(v, k);
    }
  }

  // ---- What is refused ----

  /** A ring is known exactly when its application is configured and configures the ring. */
  lemma ConfiguredMeans(cfg: Config, k: Key)
    ensures RingConfigOf(cfg, k) == Missing(AppNotFound) <==> k.app !in cfg.apps
    ensures RingConfigOf(cfg, k) == Missing(RingNotConfigured) <==> k.app in cfg.apps && (k.ring !in cfg.rings || k.ring !in cfg.apps[k.app])
    ensures RingConfigOf(cfg, k).Found? ==> k.app in cfg.apps && k.ring in cfg.apps[k.app] && RingConfigOf(cfg, k).rc == cfg.apps[k.app][k.ring]
  {
  }

  /** A promotion from the ring at place i has these reasons to be refused, in this order. */
  lemma HopRefusals(cfg: Config, states: map<Key, RingState>, app: string, i: nat)
    requires Distinct(cfg.rings) && i < |cfg.rings|
    ensures var error, k := HopError(cfg, states, app, cfg.rings[i]), Key(app, cfg.rings[i]);
            if app !in cfg.apps then error == Some(AppNotFound)
            else if cfg.rings[i] !in cfg.apps[app] then error == Some(RingNotConfigured)
            else if i + 1 == |cfg.rings| then error == Some(NoNextRing)
            else if cfg.rings[i + 1] !in cfg.apps[app] then error == Some(RingNotConfigured)
            else if k !in states || states[k].current == "" then error == Some(NothingToPromote)
            else error == None && Next(cfg.rings, cfg.rings[i]) == Some(cfg.rings[i + 1])
  {
    IndexAt(cfg.rings, i);
  }

  /** The switch of the ring at place i is refused where the configuration owns it, and for switching
      on where there is no configured ring to go on to. */
  lemma SwitchRefusals(cfg: Config, app: string, i: nat, enabled: bool)
    requires Distinct(cfg.rings) && i < |cfg.rings|
    ensures var error, ring := ToggleError(cfg, Key(app, cfg.rings[i]), enabled), cfg.rings[i];
            if app !in cfg.apps then error == Some(AppNotFound)
            else if ring !in cfg.apps[app] then error == Some(RingNotConfigured)
            else if cfg.apps[app][ring].ownsAutoPromote then error == Some(OwnedByConfig)
            else if enabled && i + 1 == |cfg.rings| then error == Some(NoNextRing)
            else if enabled && cfg.rings[i + 1] !in cfg.apps[app] then error == Some(RingNotConfigured)
            else error == None
  {
    IndexAt(cfg.rings, i);
  }

  /** A seed, a rollback and a restart, likewise; a ring that is no ring is refused by all. */
  lemma OtherRefusals(cfg: Config, states: map<Key, RingState>, k: Key, requested: string)
    ensures var known := k.app in cfg.apps && k.ring in cfg.rings && k.ring in cfg.apps[k.app];
            && (SeedError(cfg, k, requested) == None <==> requested != "" && known)
            && (RollbackError(cfg, states, k) == None <==> known && k in states && states[k].previous != "")
            && (RestartError(cfg, states, k) == None <==> known && k in states && states[k].current != "")
    ensures requested == "" ==> SeedError(cfg, k, requested) == Some(EmptyVersion)
    ensures requested != "" && k.app !in cfg.apps ==> SeedError(cfg, k, requested) == Some(AppNotFound)
    ensures RingConfigOf(cfg, k).Found? && (k !in states || states[k].previous == "") ==> RollbackError(cfg, states, k) == Some(NothingToRollback)
    ensures RingConfigOf(cfg, k).Found? && (k !in states || states[k].current == "") ==> RestartError(cfg, states, k) == Some(NothingToRestart)
  {
  }
}
