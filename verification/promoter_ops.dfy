/** Whole operations as data: what each one may do in a world, its effects, and why a sequence of
    operations can be cut off anywhere. */
module PromoterOps {
  import opened Wrappers
  import opened PromoterWorld
  import opened PromoterEffects

  /** One operation and how it ended; a hop is one promotion from ring to ring. */
  datatype Op =
    | SeedRun(key: Key, target: string, id: nat, seedEnd: SeedEnd)
    | HopRun(src: Key, dst: Key, target: string, id: nat, hopEnd: HopEnd)
    | RollbackRun(key: Key, id: nat, back: RollbackEnd)
    | RestartRun(key: Key, restartEnd: RestartEnd)
    | RecoveryRun(op: PendingOp, proven: bool)
    | ClearRun(id: nat)
    | ToggleRun(key: Key, enabled: bool)
    | LateRun(key: Key, ran: string)
    | EndRun(key: Key)

  function EffectsOf(w: World, o: Op): seq<Effect> {
    match o
    case SeedRun(k, target, id, end) => SeedEffects(w, k, target, id, end)
    case HopRun(src, dst, target, id, end) => if src in w.states then HopEffects(w, src, dst, target, id, end) else []
    case RollbackRun(k, id, end) => if k in w.states then RollbackEffects(w, k, id, end) else []
    case RestartRun(k, end) => if k in w.states then RestartEffects(w, k, end) else []
    case RecoveryRun(op, proven) => RecoveryEffects(op, proven)
    case ClearRun(id) => [DropRow(id)]
    case ToggleRun(k, enabled) => [Toggle(k, enabled)]
    case LateRun(k, ran) => [LandLate(k, ran)]
    case EndRun(k) => [EndLate(k)]
  }

  /** The operation can happen, and end this way, in this world. */
  ghost predicate Allowed(cfg: Config, w: World, o: Op) {
    match o
    case SeedRun(k, target, id, end) =>
      RingConfigOf(cfg, k).Found? && SeedEndRight(RingConfigOf(cfg, k).rc, target, end)
      && (id == 0 || w.nextOp <= id) && target != ""
    case HopRun(src, dst, target, id, end) =>
      RingConfigOf(cfg, dst).Found? && src in w.states && HopEndRight(RingConfigOf(cfg, dst).rc, target, Current(w.states, dst), end)
      && (id == 0 || w.nextOp <= id) && target != "" && (end.SourceUnhealthy? ==> id == 0)
    case RollbackRun(k, id, end) =>
      RingConfigOf(cfg, k).Found? && k in w.states && RollbackEndRight(RingConfigOf(cfg, k).rc, w.states[k].previous, end)
      && (id == 0 || w.nextOp <= id) && w.states[k].previous != ""
    case RestartRun(k, _) => k in w.states
    case RecoveryRun(op, proven) => proven ==> RunningOn(w.running, op.key) == op.version
    case ClearRun(_) => true
    case ToggleRun(_, _) => true
    case LateRun(k, ran) => k in w.adrift && (Unpinned(cfg, k) ==> ran in w.adrift[k])
    case EndRun(_) => true
  }

  /** The operations of a single effect. */
  predicate IsSingle(o: Op) {
    o.ClearRun? || o.ToggleRun? || o.LateRun? || o.EndRun?
  }

  function SingleEffect(o: Op): Effect
    requires IsSingle(o)
  {
    match o
    case ClearRun(id) => DropRow(id)
    case ToggleRun(k, enabled) => Toggle(k, enabled)
    case LateRun(k, ran) => LandLate(k, ran)
    case EndRun(k) => EndLate(k)
  }

  ghost predicate Rested(cfg: Config, w: World) {
    Safe(cfg, w) && w.issued == None
  }

  lemma OneEffectSafe(cfg: Config, w: World, e: Effect)
    requires Rested(cfg, w) && MayFollow(cfg, w, e)
    ensures SafeRun(cfg, w, [e]) && Play(w, [e]) == Apply(w, e)
  {
    StartSafe(cfg, w);
    var es, now := Extend(cfg, w, [], w, e);
    assert es == [e];
  }

  lemma OpSafe(cfg: Config, w: World, o: Op)
    requires Rested(cfg, w) && Allowed(cfg, w, o)
    ensures SafeRun(cfg, w, EffectsOf(w, o)) && Rested(cfg, Play(w, EffectsOf(w, o)))
  {
    hide Play, SafeRun, Safe, SeedEffects, HopEffects, RollbackEffects, RestartEffects, RecoveryEffects, MayFollow;
    match o {
      case SeedRun(k, target, id, end) => SeedSafe(cfg, w, k, RingConfigOf(cfg, k).rc, target, id, end);
      case HopRun(src, dst, target, id, end) => HopSafe(cfg, w, src, dst, RingConfigOf(cfg, dst).rc, target, id, end);
      case RollbackRun(k, id, end) => RollbackSafe(cfg, w, k, RingConfigOf(cfg, k).rc, id, end);
      case RestartRun(k, end) => RestartSafe(cfg, w, k, end);
      case RecoveryRun(op, proven) => RecoverySafe(cfg, w, op, proven);
      case _ =>
        SingleMayFollow(cfg, w, o);
        OneEffectSafe(cfg, w, SingleEffect(o));
    }
    SafeRunEnds(cfg, w, EffectsOf(w, o));
  }

  lemma SingleMayFollow(cfg: Config, w: World, o: Op)
    requires w.issued == None && IsSingle(o) && Allowed(cfg, w, o)
    ensures MayFollow(cfg, w, SingleEffect(o)) && EffectsOf(w, o) == [SingleEffect(o)]
  {
  }

  // ---- Sequences of operations ----

  /** The effects of operations that follow one another. */
  function LogOf(w: World, ops: seq<Op>): seq<Effect> {
    if ops == [] then []
    else
      var front := LogOf(w, ops[..|ops| - 1]);
      front + EffectsOf(Play(w, front), ops[|ops| - 1])
  }

  ghost predicate StepAllowed(cfg: Config, w: World, ops: seq<Op>, n: nat)
    requires n < |ops|
  {
    Allowed(cfg, Play(w, LogOf(w, ops[..n])), ops[n])
  }

  /** Each operation could happen where the ones before it had led. */
  ghost predicate Ran(cfg: Config, w: World, ops: seq<Op>) {
    forall n: nat {:trigger StepAllowed(cfg, w, ops, n)} :: n < |ops| ==> StepAllowed(cfg, w, ops, n)
  }

  lemma RanFront(cfg: Config, w: World, ops: seq<Op>)
    requires ops != [] && Ran(cfg, w, ops)
    ensures var k := |ops| - 1; Ran(cfg, w, ops[..k]) && Allowed(cfg, Play(w, LogOf(w, ops[..k])), ops[k])
  {
    hide Allowed, Play, LogOf;
    var k := |ops| - 1;
    forall n: nat | n < k ensures StepAllowed(cfg, w, ops[..k], n) {
      assert StepAllowed(cfg, w, ops, n);
      assert ops[..k][..n] == ops[..n];
    }
    assert StepAllowed(cfg, w, ops, k);
  }

  lemma RanMore(cfg: Config, w: World, ops: seq<Op>, o: Op)
    requires Ran(cfg, w, ops) && Allowed(cfg, Play(w, LogOf(w, ops)), o)
    ensures Ran(cfg, w, ops + [o])
  {
    hide Allowed, Play, LogOf;
    var all := ops + [o];
    forall n: nat | n < |all| ensures StepAllowed(cfg, w, all, n) {
      if n < |ops| {
        assert StepAllowed(cfg, w, ops, n);
        assert all[..n] == ops[..n];
      } else {
        assert all[..n] == ops;
      }
    }
  }

  /** However many operations, with whatever endings: they can be cut off anywhere. */
  lemma {:induction false} RunIsSafe(cfg: Config, w: World, ops: seq<Op>)
    requires Rested(cfg, w) && Ran(cfg, w, ops)
    ensures SafeRun(cfg, w, LogOf(w, ops)) && Rested(cfg, Play(w, LogOf(w, ops)))
    decreases |ops|
  {
    if ops == [] {
      StartSafe(cfg, w);
    } else {
      var k := |ops| - 1;
      var front, o := LogOf(w, ops[..k]), ops[k];
      RanFront(cfg, w, ops);
      RunIsSafe(cfg, w, ops[..k]);
      hide Play, SafeRun, Safe, EffectsOf, Allowed;
      OpSafe(cfg, Play(w, front), o);
      SafeRunConcat(cfg, w, front, EffectsOf(Play(w, front), o));
      PlayConcat(w, front, EffectsOf(Play(w, front), o));
    }
  }

  /** One operation more. */
  lemma RunGrows(cfg: Config, w: World, ops: seq<Op>, log: seq<Effect>, now: World, o: Op)
    requires Rested(cfg, w) && Ran(cfg, w, ops) && log == LogOf(w, ops) && now == Play(w, log) && Allowed(cfg, now, o)
    ensures Ran(cfg, w, ops + [o]) && LogOf(w, ops + [o]) == log + EffectsOf(now, o)
    ensures Play(w, log + EffectsOf(now, o)) == Play(now, EffectsOf(now, o))
  {
    hide Play, EffectsOf, Allowed;
    assert (ops + [o])[..|ops|] == ops;
    RanMore(cfg, w, ops, o);
    PlayConcat(w, log, EffectsOf(now, o));
  }

  /** A log of whole operations, and the world it leads to. */
  ghost predicate Track(cfg: Config, w: World, ops: seq<Op>, log: seq<Effect>, now: World) {
    Rested(cfg, w) && Ran(cfg, w, ops) && log == LogOf(w, ops) && now == Play(w, log)
  }

  lemma TrackIsSafe(cfg: Config, w: World, ops: seq<Op>, log: seq<Effect>, now: World)
    requires Track(cfg, w, ops, log, now)
    ensures SafeRun(cfg, w, log) && Rested(cfg, now)
  {
    RunIsSafe(cfg, w, ops);
  }

  lemma TrackGrows(cfg: Config, w: World, ops: seq<Op>, log: seq<Effect>, now: World, o: Op)
    requires Track(cfg, w, ops, log, now) && Allowed(cfg, now, o)
    ensures var after := Play(now, EffectsOf(now, o));
            && Track(cfg, w, ops + [o], log + EffectsOf(now, o), after) && Play(w, log + EffectsOf(now, o)) == after
            && after.issued == None
  {
    RunGrows(cfg, w, ops, log, now, o);
    TrackIsSafe(cfg, w, ops + [o], log + EffectsOf(now, o), Play(now, EffectsOf(now, o)));
  }

  lemma HopJoins(cfg: Config, w: World, ops: seq<Op>, log: seq<Effect>, now: World,
                 src: Key, dst: Key, rc: RingConfig, target: string, id: nat, end: HopEnd)
    returns (joined: seq<Op>)
    requires Track(cfg, w, ops, log, now) && RingConfigOf(cfg, dst) == Found(rc) && src in now.states
    requires HopEndRight(rc, target, Current(now.states, dst), end) && (id == 0 || now.nextOp <= id) && target != ""
    requires end.SourceUnhealthy? ==> id == 0
    ensures var all, after := log + HopEffects(now, src, dst, target, id, end), AfterHop(now, src, dst, target, end).(nextOp := NextOp(now, id));
            && Track(cfg, w, joined, all, after) && Play(w, all) == after && joined == ops + [HopRun(src, dst, target, id, end)]
            && after.issued == None
  {
    TrackIsSafe(cfg, w, ops, log, now);
    hide Track, Safe, Play, SafeRun, HopEffects, AfterHop, HopEndRight;
    HopSafe(cfg, now, src, dst, rc, target, id, end);
    TrackGrows(cfg, w, ops, log, now, HopRun(src, dst, target, id, end));
    joined := ops + [HopRun(src, dst, target, id, end)];
  }

  lemma SeedJoins(cfg: Config, w: World, ops: seq<Op>, log: seq<Effect>, now: World,
                  k: Key, rc: RingConfig, target: string, id: nat, end: SeedEnd)
    returns (joined: seq<Op>)
    requires Track(cfg, w, ops, log, now) && RingConfigOf(cfg, k) == Found(rc)
    requires SeedEndRight(rc, target, end) && (id == 0 || now.nextOp <= id) && target != ""
    ensures var all, after := log + SeedEffects(now, k, target, id, end), AfterSeed(now, k, target, end).(nextOp := NextOp(now, id));
            Track(cfg, w, joined, all, after) && Play(w, all) == after && joined == ops + [SeedRun(k, target, id, end)] && after.issued == None
  {
    TrackIsSafe(cfg, w, ops, log, now);
    hide Track, Safe, Play, SafeRun, SeedEffects, AfterSeed, SeedEndRight;
    SeedSafe(cfg, now, k, rc, target, id, end);
    TrackGrows(cfg, w, ops, log, now, SeedRun(k, target, id, end));
    joined := ops + [SeedRun(k, target, id, end)];
  }

  lemma RollbackJoins(cfg: Config, w: World, ops: seq<Op>, log: seq<Effect>, now: World,
                      k: Key, rc: RingConfig, id: nat, end: RollbackEnd)
    returns (joined: seq<Op>)
    requires Track(cfg, w, ops, log, now) && RingConfigOf(cfg, k) == Found(rc) && k in now.states
    requires RollbackEndRight(rc, now.states[k].previous, end) && (id == 0 || now.nextOp <= id) && now.states[k].previous != ""
    ensures var all := log + RollbackEffects(now, k, id, end);
            var after := AfterRollback(now, k, now.states[k].current, now.states[k].previous, end).(nextOp := NextOp(now, id));
            Track(cfg, w, joined, all, after) && Play(w, all) == after && joined == ops + [RollbackRun(k, id, end)] && after.issued == None
  {
    TrackIsSafe(cfg, w, ops, log, now);
    hide Track, Safe, Play, SafeRun, RollbackEffects, AfterRollback, RollbackEndRight;
    RollbackSafe(cfg, now, k, rc, id, end);
    TrackGrows(cfg, w, ops, log, now, RollbackRun(k, id, end));
    joined := ops + [RollbackRun(k, id, end)];
  }

  lemma RestartJoins(cfg: Config, w: World, ops: seq<Op>, log: seq<Effect>, now: World, k: Key, end: RestartEnd)
    returns (joined: seq<Op>)
    requires Track(cfg, w, ops, log, now) && k in now.states
    ensures var all, after := log + RestartEffects(now, k, end), AfterRestart(now, k, end);
            Track(cfg, w, joined, all, after) && Play(w, all) == after && joined == ops + [RestartRun(k, end)] && after.issued == None
  {
    TrackIsSafe(cfg, w, ops, log, now);
    hide Track, Safe, Play, SafeRun, RestartEffects, AfterRestart;
    RestartSafe(cfg, now, k, end);
    TrackGrows(cfg, w, ops, log, now, RestartRun(k, end));
    joined := ops + [RestartRun(k, end)];
  }

  lemma RecoveryJoins(cfg: Config, w: World, ops: seq<Op>, log: seq<Effect>, now: World, op: PendingOp, proven: bool)
    returns (joined: seq<Op>)
    requires Track(cfg, w, ops, log, now) && (proven ==> RunningOn(now.running, op.key) == op.version)
    ensures var all, after := log + RecoveryEffects(op, proven), AfterRecovery(now, op, proven);
            Track(cfg, w, joined, all, after) && Play(w, all) == after && joined == ops + [RecoveryRun(op, proven)] && after.issued == None
  {
    TrackIsSafe(cfg, w, ops, log, now);
    hide Track, Safe, Play, SafeRun, RecoveryEffects, AfterRecovery;
    RecoverySafe(cfg, now, op, proven);
    TrackGrows(cfg, w, ops, log, now, RecoveryRun(op, proven));
    joined := ops + [RecoveryRun(op, proven)];
  }

  lemma EffectJoins(cfg: Config, w: World, ops: seq<Op>, log: seq<Effect>, now: World, o: Op)
    returns (joined: seq<Op>)
    requires Track(cfg, w, ops, log, now) && IsSingle(o) && Allowed(cfg, now, o)
    ensures var e := SingleEffect(o);
            Track(cfg, w, joined, log + [e], Apply(now, e)) && Play(w, log + [e]) == Apply(now, e) && joined == ops + [o]
  {
    hide Track, Play, Allowed;
    TrackGrows(cfg, w, ops, log, now, o);
    PlaySingle(now, SingleEffect(o));
    joined := ops + [o];
  }

  lemma PlaySingle(w: World, e: Effect)
    ensures Play(w, [e]) == Apply(w, e)
  {
    PlayOne(w, [], e);
    assert [] + [e] == [e];
  }
}
