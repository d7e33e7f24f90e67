/** Requests served by a promoter: any sequence of them, with any outcomes, in one process. */
module PromoterRuns {
  import opened Wrappers
  import opened Rings
  import opened PromoterWorld
  import opened PromoterEffects
  import opened PromoterOps
  import opened PromoterTalk
  import G = Gates
  import opened PromoterCrash
  import opened PromoterLives
  import opened Promoter
  import opened PromoterChain

  datatype Request =
    | SeedRequest(key: Key, version: string, inputs: GateInputs)
    | PromoteRequest(app: string, fromRing: string, inputs: GateInputs)
    | RollbackRequest(key: Key)
    | RestartRequest(key: Key)
    | AutoPromoteRequest(key: Key, enabled: bool)
    | RecoverRequest(id: nat)
    | LateRequest(key: Key, version: string)  // not asked for: a deploy cut off by a crash lands
    | EndRequest(key: Key)                    // nor this: the last such deploy has ended

  // ---- What came of a request ----

  /** How a request was carried out, beside what it answered. */
  datatype Account =
    | SeedAccount(seedEnd: SeedEnd, said: seq<Answer>, seeded: OpResult, mid: World, hops: seq<Hop>, refused: Option<OpError>, tail: seq<Answer>)
    | PromoteAccount(first: Hop, mid: World, hops: seq<Hop>, refused: Option<OpError>, tail: seq<Answer>)
    | RollbackAccount(back: RollbackEnd, said: seq<Answer>)
    | RestartAccount(restartEnd: RestartEnd, said: seq<Answer>)
    | RecoverAccount(proven: bool, said: seq<Answer>, last: World, hops: seq<Hop>, refused: Option<OpError>, tail: seq<Answer>)
    | NoAccount

  /** Everything the outside world said meanwhile. */
  function SaidIn(a: Account): seq<Answer> {
    match a
    case SeedAccount(_, said, _, _, hops, _, tail) => said + AllSaid(hops) + tail
    case PromoteAccount(first, _, hops, _, tail) => first.said + AllSaid(hops) + tail
    case RollbackAccount(_, said) => said
    case RestartAccount(_, said) => said
    case RecoverAccount(_, said, _, hops, _, tail) => said + AllSaid(hops) + tail
    case NoAccount => []
  }

  ghost predicate SeedHandled(rules: Rules, w: World, w': World, k: Key, version: string, r: Reply, a: Account) {
    && a.SeedAccount?
    && match r
       case Refused(e) => w' == w && SeedRefused(rules, k, version, e, a.said) && a.hops == [] && a.tail == []
       case Done(res) =>
         && SeedDone(rules.cfg, w, a.mid, k, version, a.seeded, a.seedEnd) && WholeSeedSaid(rules, k, version, a.said, a.seedEnd)
         && ChainDone(rules.cfg, k.app, a.seeded, a.mid, w', a.hops, res) && ChainSaid(rules, k.app, a.seeded, a.hops)
         && StopsRightly(rules, w', res, a.refused, a.tail)
  }

  ghost predicate PromoteHandled(rules: Rules, w: World, w': World, app: string, fromRing: string, r: Reply, a: Account) {
    && a.PromoteAccount?
    && match r
       case Refused(e) => w' == w && HopRefused(rules, w, app, fromRing, e, a.first.said) && a.hops == [] && a.tail == []
       case Done(res) =>
         && HopDone(rules.cfg, w, a.mid, app, fromRing, a.first.res, a.first.end)
         && HopSaid(rules, w, app, fromRing, a.first.said, a.first.end)
         && ChainDone(rules.cfg, app, a.first.res, a.mid, w', a.hops, res) && ChainSaid(rules, app, a.first.res, a.hops)
         && StopsRightly(rules, w', res, a.refused, a.tail)
  }

  ghost predicate RollbackHandled(rules: Rules, w: World, w': World, k: Key, r: Reply, a: Account) {
    && a.RollbackAccount?
    && match r
       case Refused(e) => w' == w && RollbackError(rules.cfg, w.states, k) == Some(e) && a.said == []
       case Done(res) =>
         && RollbackDone(rules.cfg, w, w', k, res, a.back) && a.said != [] && a.said[0].RowWritten?
         && RollbackSaid(k, RingConfigOf(rules.cfg, k).rc, w.states[k].previous, rules.attempts, a.said[1..], a.back)
  }

  ghost predicate RestartHandled(rules: Rules, w: World, w': World, k: Key, r: Reply, a: Account) {
    && a.RestartAccount?
    && match r
       case Refused(e) => w' == w && RestartRefused(rules.cfg, w.states, k, e, a.said)
       case Done(res) =>
         && RestartError(rules.cfg, w.states, k) == None && k in w.states && w' == AfterRestart(w, k, a.restartEnd)
         && RestartSaid(k, RingConfigOf(rules.cfg, k).rc, w.states[k].current, rules.attempts, a.said, a.restartEnd)
         && res == OpResult(k, Restart, "", w.states[k].current, a.restartEnd == Restarted(true), false)
  }

  /** A row that is still there is resolved and dropped. */
  ghost predicate RecoverHandled(rules: Rules, w: World, w': World, id: nat, r: Reply, a: Account)
    requires id in w.pending
  {
    var op := w.pending[id];
    && a.RecoverAccount?
    && match r
       case Refused(e) => RingConfigOf(rules.cfg, op.key) == Missing(e) && w' == w.(pending := w.pending - {id})
       case Done(res) =>
         && RingConfigOf(rules.cfg, op.key).Found? && RecoverySaid(RingConfigOf(rules.cfg, op.key).rc, op, a.said, a.proven)
         && RecoveryChain(rules.cfg, w, a.last, op, a.proven, a.hops, res) && w' == a.last.(pending := a.last.pending - {id})
         && (op.action != Rollback ==>
               ChainSaid(rules, op.key.app, Recovered(op, a.proven), a.hops) && StopsRightly(rules, a.last, res, a.refused, a.tail))
  }

  ghost predicate MayLandLate(cfg: Config, w: World, k: Key, version: string) {
    k in w.adrift && (Unpinned(cfg, k) ==> version in w.adrift[k])
  }

  /** The request has been carried out: this reply, and this world after it. */
  ghost predicate Handled(rules: Rules, request: Request, w: World, w': World, r: Option<Reply>, a: Account) {
    match request
    case SeedRequest(k, version, inputs) => r.Some? && SeedHandled(rules.(inputs := inputs), w, w', k, version, r.value, a)
    case PromoteRequest(app, fromRing, inputs) => r.Some? && PromoteHandled(rules.(inputs := inputs), w, w', app, fromRing, r.value, a)
    case RollbackRequest(k) => r.Some? && RollbackHandled(rules, w, w', k, r.value, a)
    case RestartRequest(k) => r.Some? && RestartHandled(rules, w, w', k, r.value, a)
    case AutoPromoteRequest(k, enabled) =>
      var error := ToggleError(rules.cfg, k, enabled);
      r == (if error.Some? then Some(Refused(error.value)) else None)
      && w' == if error.Some? then w else w.(states := Toggled(w.states, k, enabled))
    case RecoverRequest(id) =>
      if id in w.pending then r.Some? && RecoverHandled(rules.(inputs := NO_INPUTS), w, w', id, r.value, a) else r == None && w' == w
    case LateRequest(k, version) =>
      r == None && w' == if MayLandLate(rules.cfg, w, k, version) then w.(running := w.running[k := version]) else w
    case EndRequest(k) => r == None && w' == Apply(w, EndLate(k))
  }

  ghost predicate NoRecovery(requests: seq<Request>) {
    forall r :: r in requests ==> !r.RecoverRequest?
  }

  ghost predicate NoneLate(requests: seq<Request>) {
    forall r :: r in requests ==> !r.LateRequest?
  }

  /** Nothing stored, nothing running: where the first process starts. */
  const FIRST_WORLD := World(map[], [], map[], 1, map[], None, {}, map[])

  lemma FirstWorldIsSafe(cfg: Config)
    ensures Rested(cfg, FIRST_WORLD)
  {
    forall k | Unpinned(cfg, k) ensures Agrees(FIRST_WORLD, k) {
    }
  }

  /** A longer log leaves no more rings in doubt. */
  lemma DoubtFellSince(p: Promoter, log: seq<Effect>)
    requires p.Consistent() && log <= p.log
    ensures p.doubted <= Play(p.origin, log).doubted
  {
    var rest := p.log[|log|..];
    assert p.log == log + rest;
    PlayConcat(p.origin, log, rest);
    DoubtOnlyFalls(Play(p.origin, log), rest);
  }

  lemma IdleIsTrue(p: Promoter)
    requires p.Idle()
    ensures StatesAreTrue(p.cfg, p.Now())
  {
    p.IdleIsSafe();
    RestedIsTrue(p.cfg, p.Now());
  }

  method HandleSeed(p: Promoter, k: Key, version: string, inputs: GateInputs) returns (r: Reply, ghost account: Account)
    requires p.Idle()
    modifies p`log, p`ops, p`issued, p`doubted, p.store, p.cluster`running, p.cluster`heard, p.cluster`patience, p.keeper
    ensures p.Idle() && old(p.log) <= p.log && p.cluster.heard == old(p.cluster.heard) + SaidIn(account)
    ensures SeedHandled(p.RulesFor(inputs), old(p.Now()), p.Now(), k, version, r, account)
  {
    hide SeedDone, ChainDone, ChainSaid, StopsRightly, SeedRefused, WholeSeedSaid, AllSaid, Track, Play, Distinct;
    ghost var end, said, seeded, mid, hops, refused, tail;
    r, end, said, seeded, mid, hops, refused, tail := p.SeedAndChain(k, version, inputs);
    account := SeedAccount(end, said, seeded, mid, hops, refused, tail);
  }

  method HandlePromote(p: Promoter, app: string, fromRing: string, inputs: GateInputs) returns (r: Reply, ghost account: Account)
    requires p.Idle()
    modifies p`log, p`ops, p`issued, p`doubted, p.store, p.cluster`running, p.cluster`heard, p.cluster`patience, p.keeper
    ensures p.Idle() && old(p.log) <= p.log && p.cluster.heard == old(p.cluster.heard) + SaidIn(account)
    ensures PromoteHandled(p.RulesFor(inputs), old(p.Now()), p.Now(), app, fromRing, r, account)
  {
    hide HopDone, ChainDone, ChainSaid, StopsRightly, HopRefused, HopSaid, AllSaid, Track, Play, Distinct;
    ghost var first, mid, hops, refused, tail;
    r, first, mid, hops, refused, tail := p.PromoteRing(app, fromRing, inputs);
    account := PromoteAccount(first, mid, hops, refused, tail);
  }

  method HandleRollback(p: Promoter, k: Key) returns (r: Reply, ghost account: Account)
    requires p.Idle()
    modifies p`log, p`ops, p`issued, p`doubted, p.store, p.cluster`running, p.cluster`heard, p.cluster`patience, p.keeper
    ensures p.Idle() && old(p.log) <= p.log && p.cluster.heard == old(p.cluster.heard) + SaidIn(account)
    ensures RollbackHandled(p.RulesFor(NO_INPUTS), old(p.Now()), p.Now(), k, r, account)
  {
    hide RollbackDone, RollbackSaid;
    ghost var end, said;
    r, end, said := p.RollbackRing(k);
    account := RollbackAccount(end, said);
  }

  method HandleRestart(p: Promoter, k: Key) returns (r: Reply, ghost account: Account)
    requires p.Idle()
    modifies p`log, p`ops, p`issued, p`doubted, p.store, p.cluster`running, p.cluster`heard, p.cluster`patience, p.keeper
    ensures p.Idle() && old(p.log) <= p.log && p.cluster.heard == old(p.cluster.heard) + SaidIn(account)
    ensures RestartHandled(p.RulesFor(NO_INPUTS), old(p.Now()), p.Now(), k, r, account)
  {
    hide RestartSaid, RestartRefused, AfterRestart;
    ghost var end, said;
    r, end, said := p.RestartRing(k);
    account := RestartAccount(end, said);
  }

  method HandleRecovery(p: Promoter, id: nat) returns (r: Reply, ghost account: Account)
    requires p.Idle() && id in p.store.pending
    modifies p`log, p`ops, p`issued, p`doubted, p.store, p.cluster`running, p.cluster`heard, p.cluster`patience, p.keeper
    ensures p.Idle() && old(p.log) <= p.log && p.cluster.heard == old(p.cluster.heard) + SaidIn(account)
    ensures RecoverHandled(p.RulesFor(NO_INPUTS), old(p.Now()), p.Now(), id, r, account)
  {
    hide RecoverySaid, RecoveryChain, ChainSaid, StopsRightly, AllSaid;
    ghost var proven, said, last, hops, refused, tail;
    r, proven, said, last, hops, refused, tail := p.ResumePendingOp(id, p.store.pending[id]);
    account := RecoverAccount(proven, said, last, hops, refused, tail);
  }

  method Dispatch(p: Promoter, request: Request) returns (reply: Option<Reply>, ghost account: Account)
    requires p.Idle()
    modifies p`log, p`ops, p`issued, p`doubted, p.store, p.cluster, p.keeper
    ensures p.Idle() && old(p.log) <= p.log && p.cluster.heard == old(p.cluster.heard) + SaidIn(account)
    ensures Handled(p.RulesFor(NO_INPUTS), request, old(p.Now()), p.Now(), reply, account)
  {
    hide SeedHandled, PromoteHandled, RollbackHandled, RestartHandled, RecoverHandled, Toggled, ToggleError, AllSaid, Track, Play;
    p.cluster.BeginContext();
    reply, account := None, NoAccount;
    assert p.cluster.heard + [] == p.cluster.heard;
    match request {
      case SeedRequest(k, version, inputs) =>
        var r;
        r, account := HandleSeed(p, k, version, inputs);
        reply := Some(r);
      case PromoteRequest(app, fromRing, inputs) =>
        var r;
        r, account := HandlePromote(p, app, fromRing, inputs);
        reply := Some(r);
      case RollbackRequest(k) =>
        var r;
        r, account := HandleRollback(p, k);
        reply := Some(r);
      case RestartRequest(k) =>
        var r;
        r, account := HandleRestart(p, k);
        reply := Some(r);
      case AutoPromoteRequest(k, enabled) =>
        var error := p.SetAutoPromote(k, enabled);
        reply := if error.Some? then Some(Refused(error.value)) else None;
      case RecoverRequest(id) =>
        if id in p.store.pending {
          var r;
          r, account := HandleRecovery(p, id);
          reply := Some(r);
        }
      case LateRequest(k, version) =>
        var landed := p.LandLate(k, version);
      case EndRequest(k) =>
        p.EndLate(k);
    }
  }

  /** What no request but a recovery does is to touch the leftover rows, and only a late landing
      makes a ring run what it does not show. */
  lemma HandledKeeps(rules: Rules, request: Request, w: World, w': World, r: Option<Reply>, a: Account)
    requires Distinct(rules.cfg.rings) && Handled(rules, request, w, w', r, a)
    ensures !request.RecoverRequest? ==> RowsKept(w, w')
    ensures !request.RecoverRequest? && !request.LateRequest? ==> AgreementKept(rules.cfg, w, w')
  {
    hide SeedDone, HopDone, RollbackDone, ChainDone, ChainSaid, StopsRightly, SeedRefused, HopRefused, WholeSeedSaid, HopSaid;
    hide RecoverHandled, RestartSaid, RestartRefused, RollbackSaid, AfterRestart, Toggled;
    match request {
      case SeedRequest(k, version, _) =>
        if r.value.Done? {
          SeedAdvances(rules.cfg, w, a.mid, k, version, a.seeded, a.seedEnd);
          ChainAdvances(rules.cfg, k.app, a.seeded, a.mid, w', a.hops, r.value.res);
          AdvancesOn(rules.cfg, w, a.mid, w');
        }
      case PromoteRequest(app, fromRing, _) =>
        if r.value.Done? {
          HopAdvances(rules.cfg, w, a.mid, app, fromRing, a.first.res, a.first.end);
          ChainAdvances(rules.cfg, app, a.first.res, a.mid, w', a.hops, r.value.res);
          AdvancesOn(rules.cfg, w, a.mid, w');
        }
      case RollbackRequest(k) =>
        if r.value.Done? {
          RollbackAdvances(rules.cfg, w, w', k, r.value.res, a.back);
        }
      case RestartRequest(k) =>
        if r.value.Done? {
          RestartAdvances(rules.cfg, w, k, a.restartEnd);
        }
      case AutoPromoteRequest(k, enabled) => ToggleAdvances(rules.cfg, w, k, enabled);
      case _ =>
    }
  }

  /** Serves one request under its application's lock: no ring falls into doubt by it. */
  method Serve(p: Promoter, request: Request) returns (reply: Option<Reply>, ghost account: Account)
    requires p.Idle()
    modifies p`log, p`ops, p`issued, p`doubted, p.store, p.cluster, p.keeper
    ensures p.Idle() && old(p.log) <= p.log && p.doubted <= old(p.doubted)
    ensures Handled(p.RulesFor(NO_INPUTS), request, old(p.Now()), p.Now(), reply, account)
    ensures p.cluster.heard == old(p.cluster.heard) + SaidIn(account)
  {
    hide Handled;
    ghost var before := p.log;
    reply, account := Dispatch(p, request);
    DoubtFellSince(p, before);
  }

  /** One after the other the requests were handled: from each world to the next. */
  ghost predicate HandledAll(rules: Rules, requests: seq<Request>, worlds: seq<World>, replies: seq<Option<Reply>>, accounts: seq<Account>) {
    && |worlds| == |requests| + 1 && |replies| == |accounts| == |requests|
    && forall i {:trigger requests[i]} :: 0 <= i < |requests| ==>
         Handled(rules, requests[i], worlds[i], worlds[i + 1], replies[i], accounts[i])
  }

  lemma OneMoreHandled(rules: Rules, requests: seq<Request>, worlds: seq<World>, replies: seq<Option<Reply>>, accounts: seq<Account>,
                       request: Request, w: World, r: Option<Reply>, a: Account)
    requires HandledAll(rules, requests, worlds, replies, accounts) && Handled(rules, request, worlds[|requests|], w, r, a)
    ensures HandledAll(rules, requests + [request], worlds + [w], replies + [r], accounts + [a])
    ensures |worlds| == |requests| + 1 && |replies| == |accounts| == |requests|
  {
    hide Handled;
  }

  lemma NoneHandled(rules: Rules, w: World)
    ensures HandledAll(rules, [], [w], [], []) && RowsKept(w, w) && AgreementKept(rules.cfg, w, w)
  {
  }

  lemma KeptOn(cfg: Config, w: World, v: World, w': World, rows: bool, agreement: bool)
    requires rows ==> RowsKept(w, v) && RowsKept(v, w')
    requires agreement ==> AgreementKept(cfg, w, v) && AgreementKept(cfg, v, w')
    ensures (rows ==> RowsKept(w, w')) && (agreement ==> AgreementKept(cfg, w, w'))
  {
    forall k | agreement && Unpinned(cfg, k) && Agrees(w, k) ensures Agrees(w', k) {
      assert Agrees(v, k);
    }
  }

  ghost predicate AllTrue(cfg: Config, worlds: seq<World>) {
    forall i :: 0 <= i < |worlds| ==> StatesAreTrue(cfg, worlds[i])
  }

  lemma OneMoreTrue(cfg: Config, worlds: seq<World>, w: World)
    requires AllTrue(cfg, worlds) && StatesAreTrue(cfg, w)
    ensures AllTrue(cfg, worlds + [w])
  {
    hide StatesAreTrue;
  }

  lemma OneTrue(cfg: Config, w: World)
    requires StatesAreTrue(cfg, w)
    ensures AllTrue(cfg, [w])
  {
  }

  lemma AsAllAre(requests: seq<Request>, i: nat)
    requires i < |requests|
    ensures NoRecovery(requests) ==> !requests[i].RecoverRequest?
    ensures NoneLate(requests) ==> !requests[i].LateRequest?
  {
    assert requests[i] in requests;
  }

  /** Whatever is asked, in whatever order and with whatever outcomes: every request is handled, and
      after each of them every unpinned ring that was in no doubt shows the version it runs. */
  method ServeAll(p: Promoter, requests: seq<Request>) returns (replies: seq<Option<Reply>>, ghost worlds: seq<World>, ghost accounts: seq<Account>)
    requires p.Idle()
    modifies p`log, p`ops, p`issued, p`doubted, p.store, p.cluster, p.keeper
    ensures p.Idle() && old(p.log) <= p.log && p.doubted <= old(p.doubted)
    ensures HandledAll(p.RulesFor(NO_INPUTS), requests, worlds, replies, accounts)
    ensures worlds[0] == old(p.Now()) && worlds[|requests|] == p.Now()
    ensures AllTrue(p.cfg, worlds)
    ensures old(p.cluster.heard) <= p.cluster.heard
    ensures NoRecovery(requests) ==> RowsKept(old(p.Now()), p.Now())
    ensures NoRecovery(requests) && NoneLate(requests) ==> AgreementKept(p.cfg, old(p.Now()), p.Now())
  {
    hide Handled, HandledAll, StatesAreTrue, AllTrue, RowsKept, AgreementKept, NoRecovery, NoneLate, Track, Play, SaidIn;
    ghost var rules, w := p.RulesFor(NO_INPUTS), p.Now();
    replies, worlds, accounts := [], [w], [];
    NoneHandled(rules, w);
    IdleIsTrue(p);
    OneTrue(p.cfg, w);
    assert requests[..0] == [];
    for i := 0 to |requests|
      invariant p.Idle() && old(p.log) <= p.log && p.doubted <= old(p.doubted)
      invariant HandledAll(rules, requests[..i], worlds, replies, accounts) && |worlds| == i + 1
      invariant worlds[0] == old(p.Now()) && worlds[i] == p.Now()
      invariant AllTrue(p.cfg, worlds)
      invariant old(p.cluster.heard) <= p.cluster.heard
      invariant NoRecovery(requests) ==> RowsKept(old(p.Now()), p.Now())
      invariant NoRecovery(requests) && NoneLate(requests) ==> AgreementKept(p.cfg, old(p.Now()), p.Now())
    {
      ghost var now := p.Now();
      var reply;
      ghost var account;
      reply, account := Serve(p, requests[i]);
      AsAllAre(requests, i);
      HandledKeeps(rules, requests[i], now, p.Now(), reply, account);
      KeptOn(p.cfg, w, now, p.Now(), NoRecovery(requests), NoRecovery(requests) && NoneLate(requests));
      OneMoreHandled(rules, requests[..i], worlds, replies, accounts, requests[i], p.Now(), reply, account);
      assert requests[..i + 1] == requests[..i] + [requests[i]];
      IdleIsTrue(p);
      OneMoreTrue(p.cfg, worlds, p.Now());
      replies, worlds, accounts := replies + [reply], worlds + [p.Now()], accounts + [account];
    }
    assert requests[..|requests|] == requests;
  }

  /** Without a crash there is no doubt at all: from the first start on, every unpinned ring shows
      the version it runs. */
  method ServeFromFirst(cfg: Config, policies: map<string, G.Policy>, retryCount: int, requests: seq<Request>)
    returns (p: Promoter, replies: seq<Option<Reply>>)
    requires Distinct(cfg.rings)
    ensures p.Idle() && p.cfg == cfg && |replies| == |requests|
    ensures forall k :: Unpinned(cfg, k) ==> Agrees(p.Now(), k)
  {
    FirstWorldIsSafe(cfg);
    p := new Promoter.Reboot(cfg, policies, retryCount, FIRST_WORLD);
    ghost var worlds, accounts;
    replies, worlds, accounts := ServeAll(p, requests);
    forall k | Unpinned(cfg, k) ensures Agrees(p.Now(), k) {
      assert k !in p.Now().doubted && StatesAreTrue(cfg, worlds[|requests|]);
    }
  }

  /** What a promoter has served is a life, wherever it is cut off; and the next promoter can start
      on what it leaves. */
  lemma CutAnywhere(p: Promoter, n: nat, ran: Option<string>)
    requires p.Idle() && n <= |p.log| && MayLand(p.cfg, Play(p.origin, p.log[..n]), ran)
    ensures var life := Life(p.ops, n, ran);
            && LifeRight(p.cfg, p.origin, life) && CutOf(p.origin, life) == Play(p.origin, p.log[..n])
            && Rested(p.cfg, AfterCrash(CutOf(p.origin, life), ran)) && Distinct(p.cfg.rings)
  {
    OneLife(p.cfg, p.origin, Life(p.ops, n, ran));
  }

  /** Seeding a ring again settles what a crash left in doubt: if its deploy succeeds the ring
      shows what it runs, healthy or not. */
  lemma SeedSettlesDoubt(cfg: Config, w: World, w': World, k: Key, requested: string, res: OpResult, end: SeedEnd)
    requires SeedDone(cfg, w, w', k, requested, res, end) && Unpinned(cfg, k)
    ensures end.Seeded? ==> Agrees(w', k) && (k !in w.adrift ==> k !in w'.doubted) && Current(w'.states, k) == requested == res.version
                            && k in w'.states && w'.states[k].previous == Current(w.states, k) && w'.states[k].healthy == res.success
    ensures !end.Seeded? ==> w'.states == w.states && w'.running == w.running && w'.doubted == w.doubted && !res.success
    ensures forall x :: x != k ==> Current(w'.states, x) == Current(w.states, x) && RunningOn(w'.running, x) == RunningOn(w.running, x)
    ensures w'.pending == w.pending && w'.history == w.history + [Outcome(k, Seed, Current(w.states, k), requested, res.success)]
  {
  }

  /** Rolling back twice returns a ring to the version it had, with the same way back. */
  lemma RollbackTwice(cfg: Config, w: World, w1: World, w2: World, k: Key, r1: OpResult, r2: OpResult, e1: RollbackEnd, e2: RollbackEnd)
    requires RollbackDone(cfg, w, w1, k, r1, e1) && RollbackDone(cfg, w1, w2, k, r2, e2) && Unpinned(cfg, k)
    requires e1.Restored? && e2.Restored?
    ensures k in w1.states && w1.states[k].current == w.states[k].previous && w1.states[k].previous == w.states[k].current
    ensures k in w2.states && w2.states[k] == w.states[k].(healthy := e2.healthy)
    ensures RunningOn(w2.running, k) == w.states[k].current && (k !in w.adrift ==> k !in w1.doubted && k !in w2.doubted)
  {
  }
}
