/** What each operation of the promoter does, as the list of its effects for every way it can
    end; why the list is safe to be cut anywhere; and what world it leaves. */
module PromoterEffects {
  import opened Wrappers
  import opened PromoterWorld

  /** How a rollback's deploy ended: the version recorded, the version that runs, its health. */
  datatype RollbackEnd =
    | NotDeployed
    | Restored(version: string, ran: string, healthy: bool)

  datatype HopEnd =
    | SourceUnhealthy
    | DeployFailed
    | Shipped(version: string, ran: string)
    | NoWayBack(ran: string)                     // unhealthy, and no previous version
    | WentBack(ran: string, back: RollbackEnd)   // unhealthy, automatic rollback

  datatype SeedEnd =
    | SeedDeployFailed
    | Seeded(version: string, ran: string, healthy: bool)

  datatype RestartEnd = RestartFailed | Restarted(healthy: bool)

  function DeployVersion(rc: RingConfig, version: string): string {
    if rc.Pinned() then rc.ref else version
  }

  /** An unpinned ring runs, and records, exactly what was deployed; without a health URL the
      deploy itself is the health signal. */
  predicate RollbackEndRight(rc: RingConfig, to: string, end: RollbackEnd) {
    end.Restored? ==> (!rc.Pinned() ==> end.version == end.ran == to) && (!rc.hasHealthUrl ==> end.healthy)
  }

  predicate HopEndRight(rc: RingConfig, target: string, prev: string, end: HopEnd) {
    match end
    case SourceUnhealthy => true
    case DeployFailed => true
    case Shipped(version, ran) => !rc.Pinned() ==> version == ran == target
    case NoWayBack(ran) => rc.hasHealthUrl && prev == "" && (!rc.Pinned() ==> ran == target)
    case WentBack(ran, back) => rc.hasHealthUrl && prev != "" && (!rc.Pinned() ==> ran == target) && RollbackEndRight(rc, prev, back)
  }

  predicate SeedEndRight(rc: RingConfig, target: string, end: SeedEnd) {
    end.Seeded? ==> (!rc.Pinned() ==> end.version == end.ran == target) && (!rc.hasHealthUrl ==> end.healthy)
  }

  /** The journal row is skipped when it could not be written (id 0). */
  function Row(id: nat, op: PendingOp): seq<Effect> {
    if id == 0 then [] else [AddRow(id, op)]
  }

  function Unrow(id: nat): seq<Effect> {
    if id == 0 then [] else [DropRow(id)]
  }

  /** The deploy of an operation over what the ring has now. */
  function ForwardIssue(w: World, k: Key, version: string, journal: nat): Issue {
    Issue(k, version, Current(w.states, k), journal, false, |w.history|)
  }

  /** The deploy may be issued: nothing is outstanding and its journal row, if any, is there. */
  ghost predicate CanIssue(cfg: Config, w: World, i: Issue, rc: RingConfig) {
    && Safe(cfg, w) && w.issued == None && RingConfigOf(cfg, i.key) == Found(rc)
    && i.prev == Current(w.states, i.key) && Journaled(w.(issued := Some(i)))
  }

  function RollbackCore(recorded: nat, k: Key, from: string, to: string, journal: nat, auto: bool, end: RollbackEnd): seq<Effect> {
    var issue := IssueDeploy(Issue(k, to, from, journal, auto, recorded));
    match end
    case NotDeployed => [issue, Log(Outcome(k, Rollback, from, to, false))]
    case Restored(version, ran, healthy) =>
      [issue, Land(k, ran), Save(k, from, version, healthy), Log(Outcome(k, Rollback, from, version, healthy))]
  }

  function RollbackOp(w: World, k: Key): PendingOp
    requires k in w.states
  {
    PendingOp(k, Rollback, "", w.states[k].previous, w.states[k].current)
  }

  function RollbackEffects(w: World, k: Key, id: nat, end: RollbackEnd): seq<Effect>
    requires k in w.states
  {
    Row(id, RollbackOp(w, k))
    + RollbackCore(|w.history|, k, w.states[k].current, w.states[k].previous, id, false, end)
    + Unrow(id)
  }

  function ShipOp(w: World, src: Key, dst: Key, target: string): PendingOp {
    PendingOp(dst, Promote, src.ring, target, Current(w.states, dst))
  }

  /** The deploy landed, but the ring failed its health check. */
  function FailedHop(w: World, dst: Key, target: string, id: nat, ran: string): seq<Effect> {
    var prev := Current(w.states, dst);
    [IssueDeploy(ForwardIssue(w, dst, target, id)), Land(dst, ran), Save(dst, prev, target, false),
     Log(Outcome(dst, Promote, prev, target, false))]
  }

  function ShipCore(w: World, dst: Key, target: string, id: nat, end: HopEnd): seq<Effect> {
    var prev := Current(w.states, dst);
    var issue := IssueDeploy(ForwardIssue(w, dst, target, id));
    var failed := Log(Outcome(dst, Promote, prev, target, false));
    match end
    case SourceUnhealthy => []
    case DeployFailed => [issue, failed]
    case Shipped(version, ran) =>
      [issue, Land(dst, ran), Save(dst, prev, target, false), Save(dst, prev, version, true),
       Log(Outcome(dst, Promote, prev, version, true))]
    case NoWayBack(ran) =>
      FailedHop(w, dst, target, id, ran) + [Save(dst, prev, target, false)]
    case WentBack(ran, back) =>
      FailedHop(w, dst, target, id, ran)
      + RollbackCore(|w.history| + 1, dst, target, prev, id, true, back)
  }

  function ShipEffects(w: World, src: Key, dst: Key, target: string, id: nat, end: HopEnd): seq<Effect> {
    Row(id, ShipOp(w, src, dst, target)) + ShipCore(w, dst, target, id, end) + Unrow(id)
  }

  /** A hop whose source fails its live check only marks the source unhealthy. */
  function HopEffects(w: World, src: Key, dst: Key, target: string, id: nat, end: HopEnd): seq<Effect>
    requires src in w.states
  {
    if end.SourceUnhealthy? then
      [Save(src, w.states[src].previous, w.states[src].current, false),
       Log(Outcome(dst, Promote, "", w.states[src].current, false))]
    else ShipEffects(w, src, dst, target, id, end)
  }

  function SeedOp(w: World, k: Key, target: string): PendingOp {
    PendingOp(k, Seed, "", target, Current(w.states, k))
  }

  function SeedCore(w: World, k: Key, target: string, id: nat, end: SeedEnd): seq<Effect> {
    var prev := Current(w.states, k);
    var issue := IssueDeploy(ForwardIssue(w, k, target, id));
    match end
    case SeedDeployFailed => [issue, Log(Outcome(k, Seed, prev, target, false))]
    case Seeded(version, ran, healthy) =>
      [issue, Land(k, ran), Save(k, prev, version, healthy), Log(Outcome(k, Seed, prev, version, healthy))]
  }

  function SeedEffects(w: World, k: Key, target: string, id: nat, end: SeedEnd): seq<Effect> {
    Row(id, SeedOp(w, k, target)) + SeedCore(w, k, target, id, end) + Unrow(id)
  }

  function RestartEffects(w: World, k: Key, end: RestartEnd): seq<Effect>
    requires k in w.states
  {
    var version := w.states[k].current;
    match end
    case RestartFailed => [Log(Outcome(k, Restart, "", version, false))]
    case Restarted(healthy) =>
      [Save(k, w.states[k].previous, version, healthy), Log(Outcome(k, Restart, "", version, healthy))]
  }

  // ---- The worlds they leave ----

  function AfterRollback(w: World, k: Key, from: string, to: string, end: RollbackEnd): World {
    match end
    case NotDeployed => w.(history := w.history + [Outcome(k, Rollback, from, to, false)])
    case Restored(version, ran, healthy) =>
      Stored(w.(running := w.running[k := ran]), k, from, version, healthy).(
        history := w.history + [Outcome(k, Rollback, from, version, healthy)])
  }

  function AfterFailedHop(w: World, dst: Key, target: string, ran: string): World {
    var prev := Current(w.states, dst);
    Stored(w.(running := w.running[dst := ran]), dst, prev, target, false).(
      history := w.history + [Outcome(dst, Promote, prev, target, false)])
  }

  function AfterShip(w: World, dst: Key, target: string, end: HopEnd): World {
    var prev := Current(w.states, dst);
    var failed := Outcome(dst, Promote, prev, target, false);
    match end
    case SourceUnhealthy => w
    case DeployFailed => w.(history := w.history + [failed])
    case Shipped(version, ran) =>
      Stored(Stored(w.(running := w.running[dst := ran]), dst, prev, target, false), dst, prev, version, true).(
        history := w.history + [Outcome(dst, Promote, prev, version, true)])
    case NoWayBack(ran) => AfterFailedHop(w, dst, target, ran)
    case WentBack(ran, back) => AfterRollback(AfterFailedHop(w, dst, target, ran), dst, target, prev, back)
  }

  function AfterHop(w: World, src: Key, dst: Key, target: string, end: HopEnd): World
    requires src in w.states
  {
    if end.SourceUnhealthy? then
      Stored(w, src, w.states[src].previous, w.states[src].current, false).(
        history := w.history + [Outcome(dst, Promote, "", w.states[src].current, false)])
    else AfterShip(w, dst, target, end)
  }

  function AfterSeed(w: World, k: Key, target: string, end: SeedEnd): World {
    var prev := Current(w.states, k);
    match end
    case SeedDeployFailed => w.(history := w.history + [Outcome(k, Seed, prev, target, false)])
    case Seeded(version, ran, healthy) =>
      Stored(w.(running := w.running[k := ran]), k, prev, version, healthy).(
        history := w.history + [Outcome(k, Seed, prev, version, healthy)])
  }

  function AfterRestart(w: World, k: Key, end: RestartEnd): World
    requires k in w.states
  {
    var version := w.states[k].current;
    match end
    case RestartFailed => w.(history := w.history + [Outcome(k, Restart, "", version, false)])
    case Restarted(healthy) =>
      Stored(w, k, w.states[k].previous, version, healthy).(
        history := w.history + [Outcome(k, Restart, "", version, healthy)])
  }

  /** The ids used up by an operation that wrote its row under id. */
  function NextOp(w: World, id: nat): nat {
    if id == 0 then w.nextOp else id + 1
  }

  // ---- Safe to be cut anywhere ----

  /** Storing the same row again changes nothing. */
  lemma StoredAgain(w: World, k: Key, prev: string, cur: string, healthy: bool)
    ensures Stored(Stored(w, k, prev, cur, healthy), k, prev, cur, healthy) == Stored(w, k, prev, cur, healthy)
  {
  }

  /** Issuing the deploy is safe, and until it lands the ring still shows what it runs. */
  lemma IssueFirst(cfg: Config, w: World, i: Issue, rc: RingConfig) returns (es: seq<Effect>, now: World)
    requires CanIssue(cfg, w, i, rc)
    ensures es == [IssueDeploy(i)] && now == w.(issued := Some(i)) == Play(w, es) && SafeRun(cfg, w, es)
    ensures MayFollow(cfg, now, Log(Outcome(i.key, Seed, "", "", false)))
  {
    StartSafe(cfg, w);
    IdleAgrees(cfg, w, i.key);
    es, now := Extend(cfg, w, [], w, IssueDeploy(i));
    assert Agrees(w, i.key) ==> Agrees(now, i.key);
  }

  /** A deploy that landed and was stored. */
  lemma StoredSafe(cfg: Config, w: World, i: Issue, rc: RingConfig, version: string, healthy: bool, ran: string)
    returns (es: seq<Effect>, now: World)
    requires CanIssue(cfg, w, i, rc) && (!rc.Pinned() ==> version == ran == i.version)
    ensures es == [IssueDeploy(i), Land(i.key, ran), Save(i.key, i.prev, version, healthy)]
    ensures now == Play(w, es) && SafeRun(cfg, w, es)
    ensures now == Stored(w.(running := w.running[i.key := ran]), i.key, i.prev, version, healthy).(issued := Some(i))
  {
    hide Play, SafeRun, Safe;
    es, now := IssueFirst(cfg, w, i, rc);
    es, now := Extend(cfg, w, es, now, Land(i.key, ran));
    es, now := Extend(cfg, w, es, now, Save(i.key, i.prev, version, healthy));
  }

  /** And then recorded. */
  lemma LandedSafe(cfg: Config, w: World, i: Issue, rc: RingConfig, version: string, healthy: bool, ran: string, o: Outcome)
    returns (es: seq<Effect>, now: World)
    requires CanIssue(cfg, w, i, rc) && (!rc.Pinned() ==> version == ran == i.version)
    ensures es == [IssueDeploy(i), Land(i.key, ran), Save(i.key, i.prev, version, healthy), Log(o)]
    ensures now == Play(w, es) && SafeRun(cfg, w, es)
    ensures now == Stored(w.(running := w.running[i.key := ran]), i.key, i.prev, version, healthy).(history := w.history + [o])
  {
    hide Play, SafeRun, Safe;
    es, now := StoredSafe(cfg, w, i, rc, version, healthy, ran);
    es, now := Extend(cfg, w, es, now, Log(o));
  }

  lemma RollbackCoreSafe(cfg: Config, w: World, k: Key, rc: RingConfig, from: string, to: string, journal: nat, auto: bool, end: RollbackEnd)
    requires CanIssue(cfg, w, Issue(k, to, from, journal, auto, |w.history|), rc) && RollbackEndRight(rc, to, end)
    ensures var es := RollbackCore(|w.history|, k, from, to, journal, auto, end);
            SafeRun(cfg, w, es) && Play(w, es) == AfterRollback(w, k, from, to, end)
  {
    hide Play, SafeRun, Safe;
    var i := Issue(k, to, from, journal, auto, |w.history|);
    match end {
      case NotDeployed =>
        var es, now := IssueFirst(cfg, w, i, rc);
        es, now := Extend(cfg, w, es, now, Log(Outcome(k, Rollback, from, to, false)));
        assert es == RollbackCore(|w.history|, k, from, to, journal, auto, end);
      case Restored(version, ran, healthy) =>
        var es, now := LandedSafe(cfg, w, i, rc, version, healthy, ran, Outcome(k, Rollback, from, version, healthy));
        assert es == RollbackCore(|w.history|, k, from, to, journal, auto, end);
    }
  }

  /** Wraps a safe run in the writing and clearing of its journal row. */
  lemma InRow(cfg: Config, w: World, id: nat, op: PendingOp, core: seq<Effect>, end: World)
    requires Safe(cfg, w) && w.issued == None && (id == 0 || w.nextOp <= id) && op.version != ""
    requires var v := Play(w, Row(id, op)); SafeRun(cfg, v, core) && Play(v, core) == end
    requires end.issued == None
    ensures var es := Row(id, op) + core + Unrow(id);
            && SafeRun(cfg, w, es)
            && Play(w, es) == if id == 0 then end else end.(pending := end.pending - {id})
  {
    StartSafe(cfg, w);
    if id == 0 {
      assert Row(id, op) + core + Unrow(id) == core;
    } else {
      var head, v := Extend(cfg, w, [], w, AddRow(id, op));
      assert head == Row(id, op);
      SafeRunConcat(cfg, w, head, core);
      PlayConcat(w, head, core);
      var all, last := Extend(cfg, w, head + core, end, DropRow(id));
      assert all == Row(id, op) + core + Unrow(id);
    }
  }

  /** The world with the operation's row in the journal. */
  lemma WithRow(cfg: Config, w: World, id: nat, op: PendingOp)
    requires Safe(cfg, w) && w.issued == None && (id == 0 || w.nextOp <= id) && op.version != ""
    ensures var v := Play(w, Row(id, op));
            && Safe(cfg, v) && v == w.(pending := v.pending, nextOp := NextOp(w, id))
            && (id == 0 ==> v.pending == w.pending)
            && (id != 0 ==> id in v.pending && v.pending[id] == op)
            && v.pending - {id} == w.pending
  {
    if id == 0 {
      assert w.pending - {0} == w.pending;
    } else {
      EffectKeepsSafe(cfg, w, AddRow(id, op));
      hide Safe;
      PlayOne(w, [], AddRow(id, op));
      assert Row(id, op) == [] + [AddRow(id, op)];
    }
  }

  /** The first four effects of a hop whose health check fails. */
  lemma FailedHopHead(cfg: Config, w: World, dst: Key, rc: RingConfig, target: string, id: nat, ran: string)
    returns (es: seq<Effect>, now: World)
    requires CanIssue(cfg, w, ForwardIssue(w, dst, target, id), rc)
    requires !rc.Pinned() ==> ran == target
    ensures es == FailedHop(w, dst, target, id, ran) && now == Play(w, es) && SafeRun(cfg, w, es)
    ensures now == AfterFailedHop(w, dst, target, ran)
  {
    hide Play, SafeRun, Safe;
    var o := Outcome(dst, Promote, Current(w.states, dst), target, false);
    es, now := LandedSafe(cfg, w, ForwardIssue(w, dst, target, id), rc, target, false, ran, o);
  }

  lemma HealthyHopSafe(cfg: Config, w: World, dst: Key, rc: RingConfig, target: string, id: nat, version: string, ran: string)
    requires CanIssue(cfg, w, ForwardIssue(w, dst, target, id), rc)
    requires !rc.Pinned() ==> version == ran == target
    ensures var es := ShipCore(w, dst, target, id, Shipped(version, ran));
            SafeRun(cfg, w, es) && Play(w, es) == AfterShip(w, dst, target, Shipped(version, ran))
  {
    hide Play, SafeRun, Safe;
    var prev := Current(w.states, dst);
    var es, now := StoredSafe(cfg, w, ForwardIssue(w, dst, target, id), rc, target, false, ran);
    es, now := Extend(cfg, w, es, now, Save(dst, prev, version, true));
    es, now := Extend(cfg, w, es, now, Log(Outcome(dst, Promote, prev, version, true)));
    assert es == ShipCore(w, dst, target, id, Shipped(version, ran));
  }

  lemma DeployFailedSafe(cfg: Config, w: World, dst: Key, rc: RingConfig, target: string, id: nat)
    requires CanIssue(cfg, w, ForwardIssue(w, dst, target, id), rc)
    ensures var es := ShipCore(w, dst, target, id, DeployFailed);
            SafeRun(cfg, w, es) && Play(w, es) == AfterShip(w, dst, target, DeployFailed)
  {
    hide Play, SafeRun, Safe;
    var prev := Current(w.states, dst);
    var es, now := IssueFirst(cfg, w, ForwardIssue(w, dst, target, id), rc);
    es, now := Extend(cfg, w, es, now, Log(Outcome(dst, Promote, prev, target, false)));
    assert es == ShipCore(w, dst, target, id, DeployFailed);
  }

  lemma NoWayBackSafe(cfg: Config, w: World, dst: Key, rc: RingConfig, target: string, id: nat, ran: string)
    requires CanIssue(cfg, w, ForwardIssue(w, dst, target, id), rc)
    requires HopEndRight(rc, target, Current(w.states, dst), NoWayBack(ran))
    ensures var es := ShipCore(w, dst, target, id, NoWayBack(ran));
            SafeRun(cfg, w, es) && Play(w, es) == AfterShip(w, dst, target, NoWayBack(ran))
  {
    hide Play, SafeRun, Safe;
    var prev := Current(w.states, dst);
    var es, now := FailedHopHead(cfg, w, dst, rc, target, id, ran);
    es, now := Extend(cfg, w, es, now, Save(dst, prev, target, false));
    StoredAgain(w.(running := w.running[dst := ran]), dst, prev, target, false);
    assert es == ShipCore(w, dst, target, id, NoWayBack(ran));
  }

  /** The promotion's row covers its automatic rollback, with the two versions exchanged. */
  lemma RowCoversAutoRollback(cfg: Config, w: World, now: World, dst: Key, rc: RingConfig, target: string, id: nat)
    requires CanIssue(cfg, w, ForwardIssue(w, dst, target, id), rc)
    requires Safe(cfg, now) && now.issued == None && now.pending == w.pending && Current(now.states, dst) == target
    ensures CanIssue(cfg, now, Issue(dst, Current(w.states, dst), target, id, true, |now.history|), rc)
  {
  }

  lemma FailedHopCanGoBack(cfg: Config, w: World, dst: Key, rc: RingConfig, target: string, id: nat, ran: string)
    returns (es: seq<Effect>, now: World)
    requires CanIssue(cfg, w, ForwardIssue(w, dst, target, id), rc)
    requires !rc.Pinned() ==> ran == target
    ensures es == FailedHop(w, dst, target, id, ran) && now == Play(w, es) && SafeRun(cfg, w, es)
    ensures now == AfterFailedHop(w, dst, target, ran)
    ensures CanIssue(cfg, now, Issue(dst, Current(w.states, dst), target, id, true, |now.history|), rc)
  {
    hide Play, SafeRun, Safe;
    es, now := FailedHopHead(cfg, w, dst, rc, target, id, ran);
    SafeRunEnds(cfg, w, es);
    RowCoversAutoRollback(cfg, w, now, dst, rc, target, id);
  }

  lemma WentBackSafe(cfg: Config, w: World, dst: Key, rc: RingConfig, target: string, id: nat, ran: string, back: RollbackEnd)
    requires CanIssue(cfg, w, ForwardIssue(w, dst, target, id), rc)
    requires HopEndRight(rc, target, Current(w.states, dst), WentBack(ran, back))
    ensures var es := ShipCore(w, dst, target, id, WentBack(ran, back));
            SafeRun(cfg, w, es) && Play(w, es) == AfterShip(w, dst, target, WentBack(ran, back))
  {
    hide Play, SafeRun, Safe;
    var es, now := FailedHopCanGoBack(cfg, w, dst, rc, target, id, ran);
    var all := ThenRollback(cfg, w, es, now, dst, rc, target, Current(w.states, dst), id, back);
    assert all == ShipCore(w, dst, target, id, WentBack(ran, back));
  }

  lemma ThenRollback(cfg: Config, w: World, es: seq<Effect>, now: World, k: Key, rc: RingConfig, from: string, to: string, id: nat, back: RollbackEnd)
    returns (all: seq<Effect>)
    requires SafeRun(cfg, w, es) && now == Play(w, es) && RollbackEndRight(rc, to, back)
    requires CanIssue(cfg, now, Issue(k, to, from, id, true, |now.history|), rc)
    ensures all == es + RollbackCore(|now.history|, k, from, to, id, true, back)
    ensures SafeRun(cfg, w, all) && Play(w, all) == AfterRollback(now, k, from, to, back)
  {
    hide Play, SafeRun, Safe;
    RollbackCoreSafe(cfg, now, k, rc, from, to, id, true, back);
    var rest := RollbackCore(|now.history|, k, from, to, id, true, back);
    SafeRunConcat(cfg, w, es, rest);
    PlayConcat(w, es, rest);
    all := es + rest;
  }

  lemma ShipCoreSafe(cfg: Config, w: World, dst: Key, rc: RingConfig, target: string, id: nat, end: HopEnd)
    requires CanIssue(cfg, w, ForwardIssue(w, dst, target, id), rc)
    requires HopEndRight(rc, target, Current(w.states, dst), end)
    ensures var es := ShipCore(w, dst, target, id, end);
            SafeRun(cfg, w, es) && Play(w, es) == AfterShip(w, dst, target, end)
  {
    hide Play, SafeRun, Safe;
    match end {
      case SourceUnhealthy => StartSafe(cfg, w);
      case DeployFailed => DeployFailedSafe(cfg, w, dst, rc, target, id);
      case Shipped(version, ran) => HealthyHopSafe(cfg, w, dst, rc, target, id, version, ran);
      case NoWayBack(ran) => NoWayBackSafe(cfg, w, dst, rc, target, id, ran);
      case WentBack(ran, back) => WentBackSafe(cfg, w, dst, rc, target, id, ran, back);
    }
  }

  lemma RollbackBesideJournal(w: World, v: World, k: Key, from: string, to: string, end: RollbackEnd)
    requires v == w.(pending := v.pending, nextOp := v.nextOp)
    ensures AfterRollback(v, k, from, to, end) == AfterRollback(w, k, from, to, end).(pending := v.pending, nextOp := v.nextOp)
  {
  }

  lemma FailedBesideJournal(w: World, v: World, dst: Key, target: string, ran: string)
    requires v == w.(pending := v.pending, nextOp := v.nextOp)
    ensures AfterFailedHop(v, dst, target, ran) == AfterFailedHop(w, dst, target, ran).(pending := v.pending, nextOp := v.nextOp)
  {
  }

  /** The journal plays no part in what a promotion does to the rest of the world. */
  lemma ShipBesideJournal(w: World, v: World, dst: Key, target: string, id: nat, end: HopEnd)
    requires v == w.(pending := v.pending, nextOp := v.nextOp)
    ensures AfterShip(v, dst, target, end) == AfterShip(w, dst, target, end).(pending := v.pending, nextOp := v.nextOp)
    ensures ShipCore(v, dst, target, id, end) == ShipCore(w, dst, target, id, end)
  {
    match end {
      case SourceUnhealthy =>
      case DeployFailed =>
      case Shipped(_, _) =>
      case NoWayBack(ran) =>
        hide AfterFailedHop;
        FailedBesideJournal(w, v, dst, target, ran);
      case WentBack(ran, back) =>
        hide AfterFailedHop, AfterRollback;
        FailedBesideJournal(w, v, dst, target, ran);
        RollbackBesideJournal(AfterFailedHop(w, dst, target, ran), AfterFailedHop(v, dst, target, ran), dst, target, Current(w.states, dst), back);
    }
  }

  /** A promotion may be cut off between any two effects, and this is what it leaves when it is not. */
  lemma ShipSafe(cfg: Config, w: World, src: Key, dst: Key, rc: RingConfig, target: string, id: nat, end: HopEnd)
    requires Safe(cfg, w) && w.issued == None && RingConfigOf(cfg, dst) == Found(rc)
    requires HopEndRight(rc, target, Current(w.states, dst), end) && (id == 0 || w.nextOp <= id) && target != ""
    ensures var es := ShipEffects(w, src, dst, target, id, end);
            SafeRun(cfg, w, es) && Play(w, es) == AfterShip(w, dst, target, end).(nextOp := NextOp(w, id))
  {
    var op := ShipOp(w, src, dst, target);
    WithRow(cfg, w, id, op);
    var v := Play(w, Row(id, op));
    ShipBesideJournal(w, v, dst, target, id, end);
    ShipCoreSafe(cfg, v, dst, rc, target, id, end);
    InRow(cfg, w, id, op, ShipCore(w, dst, target, id, end), AfterShip(v, dst, target, end));
  }

  lemma HopSafe(cfg: Config, w: World, src: Key, dst: Key, rc: RingConfig, target: string, id: nat, end: HopEnd)
    requires Safe(cfg, w) && w.issued == None && RingConfigOf(cfg, dst) == Found(rc) && src in w.states
    requires HopEndRight(rc, target, Current(w.states, dst), end) && (id == 0 || w.nextOp <= id) && target != ""
    requires end.SourceUnhealthy? ==> id == 0
    ensures var es := HopEffects(w, src, dst, target, id, end);
            SafeRun(cfg, w, es) && Play(w, es) == AfterHop(w, src, dst, target, end).(nextOp := NextOp(w, id))
  {
    if end.SourceUnhealthy? {
      StartSafe(cfg, w);
      var es, now := Extend(cfg, w, [], w, Save(src, w.states[src].previous, w.states[src].current, false));
      es, now := Extend(cfg, w, es, now, Log(Outcome(dst, Promote, "", w.states[src].current, false)));
      assert es == HopEffects(w, src, dst, target, id, end);
    } else {
      ShipSafe(cfg, w, src, dst, rc, target, id, end);
    }
  }

  lemma SeededSafe(cfg: Config, w: World, k: Key, rc: RingConfig, target: string, id: nat, version: string, ran: string, healthy: bool)
    requires CanIssue(cfg, w, ForwardIssue(w, k, target, id), rc)
    requires SeedEndRight(rc, target, Seeded(version, ran, healthy))
    ensures var end := Seeded(version, ran, healthy);
            var es := SeedCore(w, k, target, id, end);
            SafeRun(cfg, w, es) && Play(w, es) == AfterSeed(w, k, target, end)
  {
    hide Play, SafeRun, Safe;
    var o := Outcome(k, Seed, Current(w.states, k), version, healthy);
    var es, now := LandedSafe(cfg, w, ForwardIssue(w, k, target, id), rc, version, healthy, ran, o);
    assert es == SeedCore(w, k, target, id, Seeded(version, ran, healthy));
  }

  lemma SeedFailedSafe(cfg: Config, w: World, k: Key, rc: RingConfig, target: string, id: nat)
    requires CanIssue(cfg, w, ForwardIssue(w, k, target, id), rc)
    ensures var es := SeedCore(w, k, target, id, SeedDeployFailed);
            SafeRun(cfg, w, es) && Play(w, es) == AfterSeed(w, k, target, SeedDeployFailed)
  {
    hide Play, SafeRun, Safe;
    var prev := Current(w.states, k);
    var es, now := IssueFirst(cfg, w, ForwardIssue(w, k, target, id), rc);
    es, now := Extend(cfg, w, es, now, Log(Outcome(k, Seed, prev, target, false)));
    assert es == SeedCore(w, k, target, id, SeedDeployFailed);
  }

  lemma SeedCoreSafe(cfg: Config, w: World, k: Key, rc: RingConfig, target: string, id: nat, end: SeedEnd)
    requires CanIssue(cfg, w, ForwardIssue(w, k, target, id), rc) && SeedEndRight(rc, target, end)
    ensures var es := SeedCore(w, k, target, id, end);
            SafeRun(cfg, w, es) && Play(w, es) == AfterSeed(w, k, target, end)
  {
    hide Play, SafeRun, Safe;
    match end {
      case SeedDeployFailed =>
        SeedFailedSafe(cfg, w, k, rc, target, id);
      case Seeded(version, ran, healthy) =>
        SeededSafe(cfg, w, k, rc, target, id, version, ran, healthy);
    }
  }

  lemma SeedSafe(cfg: Config, w: World, k: Key, rc: RingConfig, target: string, id: nat, end: SeedEnd)
    requires Safe(cfg, w) && w.issued == None && RingConfigOf(cfg, k) == Found(rc)
    requires SeedEndRight(rc, target, end) && (id == 0 || w.nextOp <= id) && target != ""
    ensures var es := SeedEffects(w, k, target, id, end);
            SafeRun(cfg, w, es) && Play(w, es) == AfterSeed(w, k, target, end).(nextOp := NextOp(w, id))
  {
    var op := SeedOp(w, k, target);
    WithRow(cfg, w, id, op);
    var v := Play(w, Row(id, op));
    SeedCoreSafe(cfg, v, k, rc, target, id, end);
    InRow(cfg, w, id, op, SeedCore(w, k, target, id, end), AfterSeed(v, k, target, end));
  }

  lemma RollbackSafe(cfg: Config, w: World, k: Key, rc: RingConfig, id: nat, end: RollbackEnd)
    requires Safe(cfg, w) && w.issued == None && RingConfigOf(cfg, k) == Found(rc) && k in w.states
    requires RollbackEndRight(rc, w.states[k].previous, end) && (id == 0 || w.nextOp <= id) && w.states[k].previous != ""
    ensures var es := RollbackEffects(w, k, id, end);
            && SafeRun(cfg, w, es)
            && Play(w, es) == AfterRollback(w, k, w.states[k].current, w.states[k].previous, end).(nextOp := NextOp(w, id))
  {
    var op, from, to := RollbackOp(w, k), w.states[k].current, w.states[k].previous;
    WithRow(cfg, w, id, op);
    var v := Play(w, Row(id, op));
    RollbackCoreSafe(cfg, v, k, rc, from, to, id, false, end);
    InRow(cfg, w, id, op, RollbackCore(|w.history|, k, from, to, id, false, end), AfterRollback(v, k, from, to, end));
  }

  lemma RestartSafe(cfg: Config, w: World, k: Key, end: RestartEnd)
    requires Safe(cfg, w) && w.issued == None && k in w.states
    ensures var es := RestartEffects(w, k, end);
            SafeRun(cfg, w, es) && Play(w, es) == AfterRestart(w, k, end)
  {
    hide Play, SafeRun, Safe;
    StartSafe(cfg, w);
    var version := w.states[k].current;
    match end {
      case RestartFailed =>
        var es, now := Extend(cfg, w, [], w, Log(Outcome(k, Restart, "", version, false)));
        assert es == RestartEffects(w, k, end);
      case Restarted(healthy) =>
        var es, now := Extend(cfg, w, [], w, Save(k, w.states[k].previous, version, healthy));
        es, now := Extend(cfg, w, es, now, Log(Outcome(k, Restart, "", version, healthy)));
        assert es == RestartEffects(w, k, end);
    }
  }

  // ---- Recovery ----

  /** What recovery records for an interrupted operation; proven says that the ring reported
      the operation's version healthy. */
  function RecoveryEffects(op: PendingOp, proven: bool): seq<Effect> {
    var outcome := Log(Outcome(op.key, op.action, op.prevVersion, op.version, proven));
    if proven then [Save(op.key, op.prevVersion, op.version, true), outcome] else [outcome]
  }

  function AfterRecovery(w: World, op: PendingOp, proven: bool): World {
    var h := w.history + [Outcome(op.key, op.action, op.prevVersion, op.version, proven)];
    if proven then Stored(w, op.key, op.prevVersion, op.version, true).(history := h) else w.(history := h)
  }

  lemma RecoverySafe(cfg: Config, w: World, op: PendingOp, proven: bool)
    requires Safe(cfg, w) && w.issued == None
    requires proven ==> RunningOn(w.running, op.key) == op.version
    ensures SafeRun(cfg, w, RecoveryEffects(op, proven))
    ensures Play(w, RecoveryEffects(op, proven)) == AfterRecovery(w, op, proven)
  {
    StartSafe(cfg, w);
    hide Play, SafeRun, Safe;
    var outcome := Log(Outcome(op.key, op.action, op.prevVersion, op.version, proven));
    if proven {
      var es, now := Extend(cfg, w, [], w, Save(op.key, op.prevVersion, op.version, true));
      es, now := Extend(cfg, w, es, now, outcome);
      assert es == RecoveryEffects(op, proven);
    } else {
      var es, now := Extend(cfg, w, [], w, outcome);
      assert es == RecoveryEffects(op, proven);
    }
  }
}
