/** What a promotion reads and writes: the stored ring states, the history, the write-ahead
    journal (internal/store/memory.go), and what each ring really runs. A World is one moment
    at which the process could be cut off. */
module PromoterWorld {
  import opened Wrappers
  import G = Gates

  datatype Key = Key(app: string, ring: string)

  datatype RingState = RingState(current: string, previous: string, healthy: bool, autoPromote: bool)

  datatype Action = Seed | Promote | Rollback | Restart

  /** A history entry without its texts. */
  datatype Outcome = Outcome(key: Key, action: Action, from: string, to: string, success: bool)

  datatype PendingOp = PendingOp(key: Key, action: Action, fromRing: string, version: string, prevVersion: string)

  /** A deploy that was issued and whose outcome is not in the history yet. journal is the id of
      its operation's journal row, 0 when writing that row failed; auto marks the automatic
      rollback inside a promotion, which runs under the promotion's row. */
  datatype Issue = Issue(key: Key, version: string, prev: string, journal: nat, auto: bool, recorded: nat)

  datatype World = World(
    states: map<Key, RingState>,
    history: seq<Outcome>,
    pending: map<nat, PendingOp>,
    nextOp: nat,
    running: map<Key, string>,
    issued: Option<Issue>,
    doubted: set<Key>,  // rings whose stored version an earlier crash may have left behind
    adrift: map<Key, set<string>>)  // what deploys cut off by a crash may still bring, until they have ended

  /** ownsAutoPromote: the configuration decides the ring's auto-promote setting. */
  datatype RingConfig = RingConfig(hasHealthUrl: bool, reportsVersion: bool, ref: string, ownsAutoPromote: bool)
  {
    predicate Pinned() { ref != "" }
    /** Recovery can prove that a deploy landed. */
    predicate Provable() { hasHealthUrl && reportsVersion && !Pinned() }
  }

  datatype Config = Config(rings: seq<string>, apps: map<string, map<string, RingConfig>>)

  datatype OpError =
    | EmptyVersion
    | AppNotFound
    | RingNotConfigured
    | NoNextRing
    | NothingToPromote
    | NothingToRollback
    | NothingToRestart
    | VersionRejected
    | GateClosed(gate: G.GateError)
    | RestartRejected
    | OwnedByConfig

  datatype Lookup = Found(rc: RingConfig) | Missing(error: OpError)

  function RingConfigOf(cfg: Config, k: Key): Lookup {
    if k.app !in cfg.apps then Missing(AppNotFound)
    else if k.ring !in cfg.rings || k.ring !in cfg.apps[k.app] then Missing(RingNotConfigured)
    else Found(cfg.apps[k.app][k.ring])
  }

  predicate Unpinned(cfg: Config, k: Key) {
    RingConfigOf(cfg, k).Found? && !RingConfigOf(cfg, k).rc.Pinned()
  }

  function Current(states: map<Key, RingState>, k: Key): string {
    if k in states then states[k].current else ""
  }

  function AutoPromote(states: map<Key, RingState>, k: Key): bool {
    k in states && states[k].autoPromote
  }

  function RunningOn(running: map<Key, string>, k: Key): string {
    if k in running then running[k] else ""
  }

  /** Upsert: the auto-promote setting of an existing row is kept. */
  function Upsert(states: map<Key, RingState>, k: Key, prev: string, cur: string, healthy: bool): map<Key, RingState> {
    states[k := RingState(cur, prev, healthy, AutoPromote(states, k))]
  }

  /** Storing what the ring runs settles any doubt about it, unless a deploy that a crash cut off
      may still land there. */
  function Stored(w: World, k: Key, prev: string, cur: string, healthy: bool): World {
    w.(states := Upsert(w.states, k, prev, cur, healthy),
       doubted := if cur == RunningOn(w.running, k) && k !in w.adrift then w.doubted - {k} else w.doubted)
  }

  /** SetAutoPromote: a ring without a row gets one with nothing deployed. */
  function Toggled(states: map<Key, RingState>, k: Key, enabled: bool): map<Key, RingState> {
    states[k := if k in states then states[k].(autoPromote := enabled) else RingState("", "", false, enabled)]
  }

  ghost predicate Agrees(w: World, k: Key) {
    Current(w.states, k) == RunningOn(w.running, k)
  }

  /** The issued deploy has landed on k but the state still shows the version before it. */
  ghost predicate Landed(w: World, k: Key) {
    && w.issued.Some? && w.issued.value.key == k
    && RunningOn(w.running, k) == w.issued.value.version
    && Current(w.states, k) == w.issued.value.prev
  }

  /** The stored version of every unpinned ring is what it runs, or a deploy has just landed
      there and its outcome is still to be written. */
  ghost predicate Truthful(cfg: Config, w: World) {
    forall k {:trigger Agrees(w, k)} :: Unpinned(cfg, k) && k !in w.doubted ==> Agrees(w, k) || Landed(w, k)
  }

  /** A deploy whose outcome is not in the history has its journal row, if the row was written:
      with its own version and previous version, or for an automatic rollback with the
      promotion's, which are the same two the other way round. */
  ghost predicate Journaled(w: World) {
    w.issued.Some? ==>
      var i := w.issued.value;
      && |w.history| == i.recorded
      && (i.journal != 0 ==>
            && i.journal in w.pending && w.pending[i.journal].key == i.key
            && (if i.auto then w.pending[i.journal].version == i.prev && w.pending[i.journal].prevVersion == i.version
                else w.pending[i.journal].version == i.version && w.pending[i.journal].prevVersion == i.prev))
  }

  /** Journal ids are never reused, and every row names a version. */
  ghost predicate FreshIds(w: World) {
    0 < w.nextOp && forall id :: id in w.pending ==> 0 < id < w.nextOp && w.pending[id].version != ""
  }

  /** A ring whose deploy is outstanding shows the version before it or the version it brings. */
  ghost predicate Between(cfg: Config, w: World) {
    w.issued.Some? && Unpinned(cfg, w.issued.value.key) && w.issued.value.key !in w.doubted ==>
      Current(w.states, w.issued.value.key) in {w.issued.value.prev, w.issued.value.version}
  }

  /** What holds at every moment the process can be cut off. */
  ghost predicate Safe(cfg: Config, w: World) {
    Truthful(cfg, w) && Between(cfg, w) && Journaled(w) && FreshIds(w) && w.adrift.Keys <= w.doubted
  }

  // ---- The atomic effects ----

  /** One change that outlives the process. A crash falls between two effects. */
  datatype Effect =
    | AddRow(id: nat, op: PendingOp)
    | DropRow(id: nat)
    | IssueDeploy(issue: Issue)
    | Land(key: Key, ran: string)
    | Save(key: Key, prev: string, cur: string, healthy: bool)
    | Log(outcome: Outcome)
    | Toggle(key: Key, enabled: bool)
    | LandLate(key: Key, ran: string)  // by a deploy that an earlier crash cut off
    | EndLate(key: Key)                // no such deploy of the ring is left

  function Apply(w: World, e: Effect): World {
    match e
    case AddRow(id, op) => w.(pending := w.pending[id := op], nextOp := id + 1)
    case DropRow(id) => w.(pending := w.pending - {id})
    case IssueDeploy(issue) => w.(issued := Some(issue))
    case Land(k, ran) => w.(running := w.running[k := ran])
    case Save(k, prev, cur, healthy) => Stored(w, k, prev, cur, healthy)
    case Log(o) => w.(history := w.history + [o], issued := None)
    case Toggle(k, enabled) => w.(states := Toggled(w.states, k, enabled))
    case LandLate(k, ran) => w.(running := w.running[k := ran])
    case EndLate(k) =>
      w.(adrift := w.adrift - {k},
         doubted := if Current(w.states, k) == RunningOn(w.running, k) then w.doubted - {k} else w.doubted)
  }

  /** The world after a sequence of effects. */
  function Play(w: World, es: seq<Effect>): World {
    if es == [] then w else Apply(Play(w, es[..|es| - 1]), es[|es| - 1])
  }

  lemma {:induction false} PlayConcat(w: World, a: seq<Effect>, b: seq<Effect>)
    ensures Play(w, a + b) == Play(Play(w, a), b)
    decreases |b|
  {
    if b == [] {
      assert a + b == a;
    } else {
      var k := |b| - 1;
      assert (a + b)[..|a + b| - 1] == a + b[..k];
      PlayConcat(w, a, b[..k]);
    }
  }

  lemma PlayOne(w: World, es: seq<Effect>, e: Effect)
    ensures Play(w, es + [e]) == Apply(Play(w, es), e)
  {
    assert (es + [e])[..|es + [e]| - 1] == es;
  }

  ghost predicate SafeAt(cfg: Config, w: World, es: seq<Effect>, n: nat)
    requires n <= |es|
  {
    Safe(cfg, Play(w, es[..n]))
  }

  /** However far the effects get before a crash, the world is safe. */
  ghost predicate SafeRun(cfg: Config, w: World, es: seq<Effect>) {
    forall n: nat {:trigger SafeAt(cfg, w, es, n)} :: n <= |es| ==> SafeAt(cfg, w, es, n)
  }

  lemma SafeRunPrefix(cfg: Config, w: World, es: seq<Effect>, n: nat)
    requires SafeRun(cfg, w, es) && n <= |es|
    ensures Safe(cfg, Play(w, es[..n])) && SafeRun(cfg, w, es[..n])
  {
    hide Safe, Play;
    assert SafeAt(cfg, w, es, n);
    forall m: nat | m <= n ensures SafeAt(cfg, w, es[..n], m) {
      assert SafeAt(cfg, w, es, m);
      assert es[..n][..m] == es[..m];
    }
  }

  lemma SafeRunEnds(cfg: Config, w: World, es: seq<Effect>)
    requires SafeRun(cfg, w, es)
    ensures Safe(cfg, w) && Safe(cfg, Play(w, es))
  {
    SafeRunPrefix(cfg, w, es, 0);
    SafeRunPrefix(cfg, w, es, |es|);
    assert es[..|es|] == es;
  }

  lemma SafeRunConcat(cfg: Config, w: World, a: seq<Effect>, b: seq<Effect>)
    requires SafeRun(cfg, w, a) && SafeRun(cfg, Play(w, a), b)
    ensures SafeRun(cfg, w, a + b)
  {
    hide Safe, Play;
    forall n: nat | n <= |a + b| ensures SafeAt(cfg, w, a + b, n) {
      if n <= |a| {
        assert SafeAt(cfg, w, a, n);
        assert (a + b)[..n] == a[..n];
      } else {
        assert SafeAt(cfg, Play(w, a), b, n - |a|);
        assert (a + b)[..n] == a + b[..n - |a|];
        PlayConcat(w, a, b[..n - |a|]);
      }
    }
  }

  lemma OneEffectDoubts(w: World, e: Effect)
    ensures Apply(w, e).doubted <= w.doubted
  {
  }

  /** No effect puts a ring in doubt: only a crash does. */
  lemma {:induction false} DoubtOnlyFalls(w: World, es: seq<Effect>)
    ensures Play(w, es).doubted <= w.doubted
    decreases |es|
  {
    hide Apply;
    if es != [] {
      DoubtOnlyFalls(w, es[..|es| - 1]);
      OneEffectDoubts(Play(w, es[..|es| - 1]), es[|es| - 1]);
    }
  }

  /** When an effect may follow. */
  ghost predicate MayFollow(cfg: Config, w: World, e: Effect) {
    match e
    case AddRow(id, op) => w.nextOp <= id && op.version != ""
    case DropRow(id) => w.issued == None
    case IssueDeploy(i) => w.issued == None && i.prev == Current(w.states, i.key) && Journaled(w.(issued := Some(i)))
    case Land(k, ran) =>
      w.issued.Some? && w.issued.value.key == k && Current(w.states, k) == w.issued.value.prev
      && (Unpinned(cfg, k) ==> ran == w.issued.value.version)
    case Save(k, prev, cur, _) =>
      Unpinned(cfg, k) ==>
        && (k !in w.doubted ==> cur == RunningOn(w.running, k) || cur == Current(w.states, k))
        && (w.issued.Some? && w.issued.value.key == k ==> cur in {w.issued.value.prev, w.issued.value.version})
    case Log(_) =>
      w.issued.Some? && Unpinned(cfg, w.issued.value.key) && w.issued.value.key !in w.doubted ==> Agrees(w, w.issued.value.key)
    case Toggle(_, _) => true
    case LandLate(k, ran) => k in w.adrift && (Unpinned(cfg, k) ==> ran in w.adrift[k])
    case EndLate(_) => w.issued == None
  }

  lemma EffectKeepsTruth(cfg: Config, w: World, e: Effect)
    requires Safe(cfg, w) && MayFollow(cfg, w, e)
    ensures Truthful(cfg, Apply(w, e))
  {
    var w' := Apply(w, e);
    forall x | Unpinned(cfg, x) && x !in w'.doubted ensures Agrees(w', x) || Landed(w', x) {
      assert Agrees(w, x) || Landed(w, x) || x in w.doubted;
    }
  }

  lemma EffectKeepsSafe(cfg: Config, w: World, e: Effect)
    requires Safe(cfg, w) && MayFollow(cfg, w, e)
    ensures Safe(cfg, Apply(w, e))
  {
    EffectKeepsTruth(cfg, w, e);
    if w.issued.Some? {
      assert Agrees(w, w.issued.value.key) || Landed(w, w.issued.value.key) || !Agrees(w, w.issued.value.key);
    }
  }

  /** Lengthens a safe run by one effect. */
  lemma Extend(cfg: Config, w: World, es: seq<Effect>, now: World, e: Effect) returns (es': seq<Effect>, after: World)
    requires SafeRun(cfg, w, es) && now == Play(w, es) && MayFollow(cfg, now, e)
    ensures es' == es + [e] && after == Apply(now, e) == Play(w, es') && SafeRun(cfg, w, es')
  {
    es', after := es + [e], Apply(now, e);
    PlayOne(w, es, e);
    SafeRunEnds(cfg, w, es);
    EffectKeepsSafe(cfg, now, e);
    hide Safe, Play, MayFollow;
    forall n: nat | n <= |es'| ensures SafeAt(cfg, w, es', n) {
      if n <= |es| {
        assert SafeAt(cfg, w, es, n);
        assert es'[..n] == es[..n];
      } else {
        assert es'[..n] == es';
      }
    }
  }

  lemma StartSafe(cfg: Config, w: World)
    requires Safe(cfg, w)
    ensures SafeRun(cfg, w, []) && Play(w, []) == w
  {
  }

  /** With no outcome outstanding, stored and running versions agree. */
  lemma IdleAgrees(cfg: Config, w: World, k: Key)
    requires Truthful(cfg, w) && w.issued == None
    ensures Unpinned(cfg, k) && k !in w.doubted ==> Agrees(w, k)
  {
    assert Agrees(w, k) || !Agrees(w, k);
  }
}
