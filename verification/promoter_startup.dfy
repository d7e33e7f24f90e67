/** The start of a process on the journal that an earlier one left (internal/api/api.go,
    internal/promoter/recovery.go): every leftover row is resolved, whatever is served meanwhile. */
module PromoterStartup {
  import opened Rings
  import opened PromoterWorld
  import opened PromoterEffects
  import opened PromoterTalk
  import G = Gates
  import opened Promoter
  import opened PromoterChain
  import opened PromoterLives
  import opened PromoterOps
  import opened PromoterShared
  import opened PromoterRuns

  // ---- Recovery ----

  /** The history entry that resolving a row leaves. */
  function Verdict(op: PendingOp, proven: bool): Outcome {
    Outcome(op.key, op.action, op.prevVersion, op.version, proven)
  }

  /** A resolved row is in the history, and a ring that proved its version shows what it runs. */
  lemma RecoveryAdvances(cfg: Config, w: World, w': World, op: PendingOp, proven: bool, hops: seq<Hop>, final: OpResult)
    requires Distinct(cfg.rings) && RecoveryChain(cfg, w, w', op, proven, hops, final)
    ensures RowsKept(w, w') && AgreementKept(cfg, w, w')
    ensures proven ==> Agrees(w', op.key)
    ensures Verdict(op, proven) in w'.history[|w.history|..]
  {
    var mid := AfterRecovery(w, op, proven);
    assert RowsKept(w, mid) && AgreementKept(cfg, w, mid);
    assert mid.history[|w.history|] == Verdict(op, proven);
    ChainAdvances(cfg, op.key.app, OpResult(op.key, op.action, op.fromRing, op.version, proven, false), mid, w', hops, final);
    assert w'.history[|w.history|] == mid.history[|w.history|];
    if proven {
      assert Unpinned(cfg, op.key) && Agrees(mid, op.key);
    }
  }

  // ---- The start ----

  /** The row's outcome has been written since the history was that long, if its ring is still
      configured. */
  ghost predicate Resolved(cfg: Config, w: World, since: nat, op: PendingOp, proven: bool)
    requires since <= |w.history|
  {
    RingConfigOf(cfg, op.key).Found? ==> Verdict(op, proven) in w.history[since..]
  }

  lemma StaysResolved(cfg: Config, w: World, w': World, since: nat, op: PendingOp, proven: bool)
    requires since <= |w.history| && w.history <= w'.history && Resolved(cfg, w, since, op, proven)
    ensures Resolved(cfg, w', since, op, proven)
  {
    assert w'.history[since..] == w.history[since..] + w'.history[|w.history|..];
  }

  predicate ProvableKey(cfg: Config, k: Key) {
    RingConfigOf(cfg, k).Found? && RingConfigOf(cfg, k).rc.Provable()
  }

  /** What resolving one row does to the world. */
  ghost predicate RowDone(cfg: Config, w: World, w': World, id: nat, op: PendingOp, proven: bool) {
    && w'.pending == w.pending - {id} && w.history <= w'.history && AgreementKept(cfg, w, w')
    && Resolved(cfg, w', |w.history|, op, proven)
    && (proven ==> ProvableKey(cfg, op.key) && Agrees(w', op.key))
  }

  lemma RecoveredRow(cfg: Config, w: World, v: World, w': World, id: nat, op: PendingOp, proven: bool, hops: seq<Hop>, final: OpResult)
    requires Distinct(cfg.rings) && RecoveryChain(cfg, w, v, op, proven, hops, final) && w' == v.(pending := v.pending - {id})
    ensures RowDone(cfg, w, w', id, op, proven)
  {
    RecoveryAdvances(cfg, w, v, op, proven, hops, final);
    forall k | Unpinned(cfg, k) && Agrees(w, k) ensures Agrees(w', k) {
      assert Agrees(v, k);
    }
  }

  lemma DroppedRow(cfg: Config, w: World, w': World, id: nat, op: PendingOp)
    requires RingConfigOf(cfg, op.key).Missing? && w' == w.(pending := w.pending - {id})
    ensures RowDone(cfg, w, w', id, op, false)
  {
  }

  /** The answers stand together in what has been heard since some moment. */
  ghost predicate HeardSince(before: seq<Answer>, now: seq<Answer>, polls: seq<Answer>) {
    exists i :: |before| <= i <= |now| && polls <= now[i..]
  }

  lemma HeardStays(before: seq<Answer>, now: seq<Answer>, later: seq<Answer>, polls: seq<Answer>)
    requires HeardSince(before, now, polls) && now <= later
    ensures HeardSince(before, later, polls)
  {
    var i :| |before| <= i <= |now| && polls <= now[i..];
    assert later[i..] == now[i..] + later[|now|..];
  }

  lemma HeardFirst(before: seq<Answer>, now: seq<Answer>, polls: seq<Answer>, rest: seq<Answer>)
    requires now == before + (polls + rest)
    ensures HeardSince(before, now, polls)
  {
    assert now[|before|..] == polls + rest;
  }

  /** A row whose ring is configured was polled as recovery should, if its ring can be. */
  ghost predicate Polled(cfg: Config, op: PendingOp, polls: seq<Answer>, proven: bool) {
    RingConfigOf(cfg, op.key).Found? ==> RecoverySaid(RingConfigOf(cfg, op.key).rc, op, polls, proven)
  }

  method ResumeRow(p: Promoter, id: nat, op: PendingOp) returns (ghost proven: bool, ghost polls: seq<Answer>)
    requires p.Idle() && id in p.store.pending && p.store.pending[id] == op
    modifies p`log, p`ops, p`issued, p`doubted, p.store, p.cluster`running, p.cluster`heard, p.cluster`patience, p.keeper
    ensures p.Idle() && old(p.log) <= p.log && p.doubted <= old(p.doubted)
    ensures RowDone(p.cfg, old(p.Now()), p.Now(), id, op, proven)
    ensures Polled(p.cfg, op, polls, proven) && HeardSince(old(p.cluster.heard), p.cluster.heard, polls)
    ensures old(p.cluster.heard) <= p.cluster.heard
  {
    hide RecoverHandled, RowDone, Polled, HeardSince, AllSaid;
    ghost var w, before, heard := p.Now(), p.log, p.cluster.heard;
    p.cluster.BeginContext();
    var r;
    ghost var account;
    r, account := HandleRecovery(p, id);
    DoubtFellSince(p, before);
    proven, polls := HandledRow(p.RulesFor(NO_INPUTS), w, p.Now(), id, r, account);
    HeardFirst(heard, p.cluster.heard, polls, SaidIn(account)[|polls|..]);
  }

  /** A row that was handled is done. */
  lemma HandledRow(rules: Rules, w: World, w': World, id: nat, r: Reply, a: Account) returns (proven: bool, polls: seq<Answer>)
    requires id in w.pending && Distinct(rules.cfg.rings) && RecoverHandled(rules, w, w', id, r, a)
    ensures RowDone(rules.cfg, w, w', id, w.pending[id], proven) && Polled(rules.cfg, w.pending[id], polls, proven)
    ensures |polls| <= |SaidIn(a)| && SaidIn(a) == polls + SaidIn(a)[|polls|..]
  {
    hide RowDone, RecoverySaid, RecoveryChain, ChainSaid, StopsRightly, AllSaid;
    var op := w.pending[id];
    polls := a.said;
    assert SaidIn(a) == a.said + (AllSaid(a.hops) + a.tail);
    if r.Refused? {
      proven := false;
      DroppedRow(rules.cfg, w, w', id, op);
    } else {
      proven := a.proven;
      RecoveredRow(rules.cfg, w, a.last, w', id, op, a.proven, a.hops, r.res);
    }
  }

  /** How far the start has come: the rows in left are still to be resolved. */
  ghost predicate Resuming(cfg: Config, w: World, now: World, left: set<nat>, proven: set<nat>, quiet: bool) {
    && left <= w.pending.Keys && now.pending == (map id | id in left :: w.pending[id]) && w.history <= now.history
    && proven <= w.pending.Keys - left
    && (forall id :: id in w.pending && id !in left ==> Resolved(cfg, now, |w.history|, w.pending[id], id in proven))
    && (forall id :: id in proven ==> ProvableKey(cfg, w.pending[id].key))
    && (quiet ==> AgreementKept(cfg, w, now) && forall id :: id in proven ==> Agrees(now, w.pending[id].key))
  }

  lemma ResumeStarts(cfg: Config, w: World, quiet: bool)
    ensures Resuming(cfg, w, w, w.pending.Keys, {}, quiet)
  {
  }

  lemma RowIsLeft(cfg: Config, w: World, now: World, left: set<nat>, proven: set<nat>, quiet: bool)
    requires Resuming(cfg, w, now, left, proven, quiet)
    ensures now.pending.Keys == left <= w.pending.Keys && forall id :: id in left ==> now.pending[id] == w.pending[id]
  {
  }

  lemma ProvableIsUnpinned(cfg: Config, k: Key)
    requires ProvableKey(cfg, k)
    ensures Unpinned(cfg, k)
  {
  }

  lemma ServedMeanwhile(cfg: Config, w: World, now: World, now': World, left: set<nat>, proven: set<nat>, quiet: bool)
    requires Resuming(cfg, w, now, left, proven, quiet) && RowsKept(now, now') && (quiet ==> AgreementKept(cfg, now, now'))
    ensures Resuming(cfg, w, now', left, proven, quiet)
  {
    hide Resolved, ProvableKey;
    forall id | id in w.pending && id !in left ensures Resolved(cfg, now', |w.history|, w.pending[id], id in proven) {
      StaysResolved(cfg, now, now', |w.history|, w.pending[id], id in proven);
    }
    forall id | id in proven && quiet ensures Agrees(now', w.pending[id].key) {
      ProvableIsUnpinned(cfg, w.pending[id].key);
    }
  }

  lemma OneRowLess(cfg: Config, w: World, now: World, now': World, left: set<nat>, proven: set<nat>, quiet: bool, id: nat, ok: bool)
    requires Resuming(cfg, w, now, left, proven, quiet) && id in left && RowDone(cfg, now, now', id, w.pending[id], ok)
    ensures Resuming(cfg, w, now', left - {id}, if ok then proven + {id} else proven, quiet)
  {
    hide Resolved, ProvableKey;
    var proven' := if ok then proven + {id} else proven;
    forall x | x in w.pending && x !in left - {id} ensures Resolved(cfg, now', |w.history|, w.pending[x], x in proven') {
      if x == id {
        ResolvedSinceEarlier(cfg, now', |w.history|, |now.history|, w.pending[x], ok);
      } else {
        StaysResolved(cfg, now, now', |w.history|, w.pending[x], x in proven);
      }
    }
    forall x | x in proven' && quiet ensures Agrees(now', w.pending[x].key) {
      if x != id {
        ProvableIsUnpinned(cfg, w.pending[x].key);
      }
    }
  }

  lemma ResolvedSinceEarlier(cfg: Config, w: World, since: nat, later: nat, op: PendingOp, proven: bool)
    requires since <= later <= |w.history| && Resolved(cfg, w, later, op, proven)
    ensures Resolved(cfg, w, since, op, proven)
  {
    assert w.history[since..] == w.history[since..later] + w.history[later..];
  }

  /** Each row that is resolved has been polled in the meantime. */
  ghost predicate AllPolled(cfg: Config, rows: map<nat, PendingOp>, left: set<nat>, proven: set<nat>,
                            polls: map<nat, seq<Answer>>, before: seq<Answer>, now: seq<Answer>)
  {
    forall id :: id in rows && id !in left ==>
      id in polls && Polled(cfg, rows[id], polls[id], id in proven) && HeardSince(before, now, polls[id])
  }

  lemma OneMorePolled(cfg: Config, rows: map<nat, PendingOp>, left: set<nat>, proven: set<nat>, polls: map<nat, seq<Answer>>,
                      before: seq<Answer>, mid: seq<Answer>, now: seq<Answer>, id: nat, ok: bool, said: seq<Answer>)
    requires AllPolled(cfg, rows, left, proven, polls, before, mid) && id in left && id in rows && mid <= now && before <= mid
    requires id !in proven && Polled(cfg, rows[id], said, ok) && HeardSince(mid, now, said)
    ensures AllPolled(cfg, rows, left - {id}, if ok then proven + {id} else proven, polls[id := said], before, now)
  {
    hide Polled;
    var i :| |mid| <= i <= |now| && said <= now[i..];
    assert HeardSince(before, now, said);
    forall x | x in rows && x !in left ensures HeardSince(before, now, polls[x]) {
      HeardStays(before, mid, now, polls[x]);
    }
  }

  lemma PolledStays(cfg: Config, rows: map<nat, PendingOp>, left: set<nat>, proven: set<nat>, polls: map<nat, seq<Answer>>,
                    before: seq<Answer>, mid: seq<Answer>, now: seq<Answer>)
    requires AllPolled(cfg, rows, left, proven, polls, before, mid) && mid <= now
    ensures AllPolled(cfg, rows, left, proven, polls, before, now)
  {
    hide Polled, HeardSince;
    forall x | x in rows && x !in left ensures HeardSince(before, now, polls[x]) {
      HeardStays(before, mid, now, polls[x]);
    }
  }

  /** Resolves every row that an earlier process left, in whatever order their jobs get the lock
      and whatever is served in between: afterwards the journal is empty, every one of the
      operations is in the history, as a success only where the ring reported its version and as a
      failure only where it cannot or had not by the end of the context; and a ring that did shows
      what it runs unless a deploy of an earlier process landed in between. */
  method ResumePendingOps(p: Promoter, between: seq<seq<Request>>, ghost quiet: bool)
    returns (ghost proven: set<nat>, ghost polls: map<nat, seq<Answer>>)
    requires p.Idle() && forall requests :: requests in between ==> NoRecovery(requests) && (quiet ==> NoneLate(requests))
    modifies p`log, p`ops, p`issued, p`doubted, p.store, p.cluster, p.keeper
    ensures p.Idle() && old(p.log) <= p.log && p.doubted <= old(p.doubted) && StatesAreTrue(p.cfg, p.Now())
    ensures p.store.pending == map[] && old(p.store.history) <= p.store.history
    ensures forall id :: id in old(p.store.pending) ==>
              Resolved(p.cfg, p.Now(), |old(p.store.history)|, old(p.store.pending)[id], id in proven)
    ensures AllPolled(p.cfg, old(p.store.pending), {}, proven, polls, old(p.cluster.heard), p.cluster.heard)
    ensures forall id :: id in proven ==> id in old(p.store.pending) && ProvableKey(p.cfg, old(p.store.pending)[id].key)
    ensures quiet ==> AgreementKept(p.cfg, old(p.Now()), p.Now())
    ensures quiet ==> forall id :: id in proven ==> Agrees(p.Now(), old(p.store.pending)[id].key)
  {
    hide RowDone, RowsKept, AgreementKept, HandledAll, AllPolled, Polled, HeardSince;
    ghost var w, heard := p.Now(), p.cluster.heard;
    proven, polls := {}, map[];
    ResumeStarts(p.cfg, w, quiet);
    var rows := p.store.pending;
    NonePolled(p.cfg, rows, heard);
    var left, i := rows.Keys, 0;
    while left != {}
      invariant p.Idle() && old(p.log) <= p.log && p.doubted <= old(p.doubted) && 0 <= i
      invariant Resuming(p.cfg, w, p.Now(), left, proven, quiet)
      invariant heard <= p.cluster.heard && AllPolled(p.cfg, rows, left, proven, polls, heard, p.cluster.heard)
      decreases |left|
    {
      if i < |between| {
        ghost var now, said := p.Now(), p.cluster.heard;
        var replies;
        ghost var worlds, accounts;
        replies, worlds, accounts := ServeAll(p, between[i]);
        ServedMeanwhile(p.cfg, w, now, p.Now(), left, proven, quiet);
        PolledStays(p.cfg, rows, left, proven, polls, heard, said, p.cluster.heard);
      }
      ghost var mid, told := p.Now(), p.cluster.heard;
      var id :| id in left;
      RowIsLeft(p.cfg, w, mid, left, proven, quiet);
      ghost var ok, said;
      ok, said := ResumeRow(p, id, rows[id]);
      OneRowLess(p.cfg, w, mid, p.Now(), left, proven, quiet, id, ok);
      OneMorePolled(p.cfg, rows, left, proven, polls, heard, told, p.cluster.heard, id, ok, said);
      left, i := left - {id}, i + 1;
      proven, polls := if ok then proven + {id} else proven, polls[id := said];
    }
    IdleIsTrue(p);
  }

  lemma NonePolled(cfg: Config, rows: map<nat, PendingOp>, heard: seq<Answer>)
    ensures AllPolled(cfg, rows, rows.Keys, {}, map[], heard, heard)
  {
  }

  /** A process starts on what was left by one that died with deploys of several applications under
      way: it resolves them all. Every unpinned ring that no crash had cut a deploy off on, or whose
      version was proven, shows what it runs. */
  method StartAgain(cfg: Config, policies: map<string, G.Policy>, retryCount: int, s: Shared, between: seq<seq<Request>>, ghost quiet: bool)
    returns (p: Promoter, ghost proven: set<nat>, ghost polls: map<nat, seq<Answer>>)
    requires AllRested(cfg, s) && Distinct(cfg.rings)
    requires forall requests :: requests in between ==> NoRecovery(requests) && (quiet ==> NoneLate(requests))
    ensures p.Idle() && p.cfg == cfg && p.store.pending == map[] && s.history <= p.store.history && p.doubted <= s.doubted
    ensures forall id :: id in s.pending ==> Resolved(cfg, p.Now(), |s.history|, s.pending[id], id in proven)
    ensures AllPolled(cfg, s.pending, {}, proven, polls, [], p.cluster.heard)
    ensures forall id :: id in proven ==> id in s.pending && ProvableKey(cfg, s.pending[id].key)
    ensures quiet ==> forall k :: Unpinned(cfg, k) && k !in s.doubted ==> Agrees(p.Now(), k)
    ensures quiet ==> forall id :: id in proven ==> Agrees(p.Now(), s.pending[id].key)
  {
    WholeIsRested(cfg, s);
    RestedIsTrue(cfg, Whole(s));
    hide AllRested, Resolved, AllPolled;
    p := new Promoter.Reboot(cfg, policies, retryCount, Whole(s));
    proven, polls := ResumePendingOps(p, between, quiet);
    forall k | quiet && Unpinned(cfg, k) && k !in s.doubted ensures Agrees(p.Now(), k) {
      assert Agrees(Whole(s), k);
    }
  }
}
