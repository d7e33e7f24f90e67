/** A crash in the middle of a seed, promotion or rollback, and what recovery can do about it
    (internal/promoter/recovery.go). */
module PromoterCrash {
  import opened Wrappers
  import opened PromoterWorld
  import opened PromoterEffects

  /** What a deploy that was under way at the crash may still put on its ring. */
  ghost predicate MayLand(cfg: Config, w: World, ran: Option<string>) {
    ran.Some? ==> w.issued.Some? && (Unpinned(cfg, w.issued.value.key) ==> ran.value == w.issued.value.version)
  }

  /** What the next process finds: the journal and the stored states as they were, and on the
      ring whose deploy was under way either what ran there or what that deploy brought. It may
      still land later, or once more, until it has ended. */
  function AfterCrash(w: World, ran: Option<string>): World {
    if w.issued == None then w
    else
      var k := w.issued.value.key;
      w.(issued := None, doubted := w.doubted + {k},
         adrift := w.adrift[k := {w.issued.value.version} + if k in w.adrift then w.adrift[k] else {}],
         running := if ran.Some? then w.running[k := ran.value] else w.running)
  }

  /** Rings without a deploy under way come through a crash with their stored version true. */
  lemma CrashIsSafe(cfg: Config, w: World, ran: Option<string>)
    requires Safe(cfg, w) && MayLand(cfg, w, ran)
    ensures Safe(cfg, AfterCrash(w, ran)) && AfterCrash(w, ran).issued == None
  {
    var c := AfterCrash(w, ran);
    forall x | Unpinned(cfg, x) && x !in c.doubted ensures Agrees(c, x) || Landed(c, x) {
      assert Agrees(w, x) || Landed(w, x);
    }
  }

  /** A crash at any moment of any run leaves the journal row of the deploy it cut off: with the
      version and the one before, which for an automatic rollback stand exchanged, because the
      row is its promotion's. */
  lemma CutDeployIsJournaled(cfg: Config, w: World, es: seq<Effect>, n: nat, ran: Option<string>)
    requires SafeRun(cfg, w, es) && n <= |es|
    requires var cut := Play(w, es[..n]); cut.issued.Some? && cut.issued.value.journal != 0
    ensures var cut := Play(w, es[..n]);
            var i, rows := cut.issued.value, AfterCrash(cut, ran).pending;
            && i.journal in rows && rows[i.journal].key == i.key
            && rows[i.journal].version == (if i.auto then i.prev else i.version)
            && rows[i.journal].prevVersion == (if i.auto then i.version else i.prev)
  {
    SafeRunPrefix(cfg, w, es, n);
  }

  /** Recovery may find the ring on the version its row names. */
  ghost predicate CanProve(cfg: Config, c: World, op: PendingOp) {
    RingConfigOf(cfg, op.key).Found? && RingConfigOf(cfg, op.key).rc.Provable() && RunningOn(c.running, op.key) == op.version
  }

  /** What the next process finds of a journaled deploy that was cut off. */
  ghost predicate CutOff(cfg: Config, w: World, ran: Option<string>) {
    && Safe(cfg, w) && MayLand(cfg, w, ran) && w.issued.Some? && w.issued.value.journal != 0
    && RingConfigOf(cfg, w.issued.value.key).Found? && RingConfigOf(cfg, w.issued.value.key).rc.Provable()
  }

  /** For a seed, a promotion or a rollback that was cut off on a ring that reports its version:
      the ring shows what it runs or runs what recovery waits for, unless an earlier crash had
      left it in doubt already. After recovery stored and running version agree exactly when they
      did before or recovery proved the deploy. */
  lemma RecoveryRestoresAgreement(cfg: Config, w: World, ran: Option<string>, proven: bool)
    requires CutOff(cfg, w, ran) && !w.issued.value.auto
    requires var c := AfterCrash(w, ran); proven ==> CanProve(cfg, c, c.pending[w.issued.value.journal])
    ensures var c, k := AfterCrash(w, ran), w.issued.value.key;
            var op := c.pending[w.issued.value.journal];
            && (k !in w.doubted ==> Agrees(c, k) || CanProve(cfg, c, op))
            && (Agrees(AfterRecovery(c, op, proven), k) <==> Agrees(c, k) || proven)
  {
    var k := w.issued.value.key;
    assert Unpinned(cfg, k);
    assert k in w.doubted || Agrees(w, k) || Landed(w, k);
  }

  /** Some answer of recovery leaves the ring showing what it runs. */
  ghost predicate Recoverable(cfg: Config, c: World, op: PendingOp) {
    exists proven :: (proven ==> CanProve(cfg, c, op)) && Agrees(AfterRecovery(c, op, proven), op.key)
  }

  lemma RecoverableMeans(cfg: Config, c: World, op: PendingOp)
    ensures Recoverable(cfg, c, op) <==> Agrees(c, op.key) || CanProve(cfg, c, op)
  {
    if Agrees(c, op.key) {
      assert (false ==> CanProve(cfg, c, op)) && Agrees(AfterRecovery(c, op, false), op.key);
    } else if CanProve(cfg, c, op) {
      assert (true ==> CanProve(cfg, c, op)) && Agrees(AfterRecovery(c, op, true), op.key);
    } else {
      assert !Agrees(AfterRecovery(c, op, false), op.key);
    }
  }

  /** An automatic rollback runs under its promotion's row, which names the version it is
      leaving. When it was cut off after landing and before its state was stored, recovery waits
      for the wrong version: the ring's stored version stays wrong whatever recovery finds. On a
      ring that was in no doubt before, this is the only cut that recovery cannot make good. */
  lemma OnlyLandedAutoRollbackIsBeyondRecovery(cfg: Config, w: World, ran: Option<string>)
    requires CutOff(cfg, w, ran)
    ensures var c, i := AfterCrash(w, ran), w.issued.value;
            var op := c.pending[i.journal];
            && (Recoverable(cfg, c, op) <==> Agrees(c, i.key) || CanProve(cfg, c, op))
            && (i.key !in w.doubted ==>
                  (Recoverable(cfg, c, op) <==>
                    !(i.auto && i.version != i.prev && RunningOn(c.running, i.key) == i.version && Current(c.states, i.key) == i.prev)))
  {
    var c, i := AfterCrash(w, ran), w.issued.value;
    RecoverableMeans(cfg, c, c.pending[i.journal]);
    hide Recoverable;
    assert Unpinned(cfg, i.key);
    assert i.key in w.doubted || Agrees(w, i.key) || Landed(w, i.key);
  }

  lemma PlayUpTo(w: World, es: seq<Effect>, n: nat)
    requires n < |es|
    ensures Play(w, es[..n + 1]) == Apply(Play(w, es[..n]), es[n])
  {
    assert es[..n + 1] == es[..n] + [es[n]];
    PlayOne(w, es[..n], es[n]);
  }

  /** Where a promotion that goes back stands once its second deploy has landed. */
  lemma SecondLanding(w: World, es: seq<Effect>, i: Issue, o: Outcome, target: string)
    requires |es| > 7 && es[3] == Save(i.key, i.version, target, false) && es[4] == Log(o)
    requires es[5] == IssueDeploy(i) && es[6] == Land(i.key, i.version)
    ensures var cut := Play(w, es[..7]);
            && cut.issued == Some(i) && RunningOn(cut.running, i.key) == i.version
            && Current(cut.states, i.key) == target
  {
    hide Play;
    PlayUpTo(w, es, 3);
    PlayUpTo(w, es, 4);
    PlayUpTo(w, es, 5);
    PlayUpTo(w, es, 6);
  }

  /** That cut does happen: in every promotion that goes back to another version. */
  lemma AutoRollbackCutIsReached(w: World, src: Key, dst: Key, target: string, id: nat, healthy: bool)
    requires id != 0
    ensures var prev := Current(w.states, dst);
            var es := ShipEffects(w, src, dst, target, id, WentBack(target, Restored(prev, prev, healthy)));
            |es| > 7 && var cut := Play(w, es[..7]);
            && cut.issued == Some(Issue(dst, prev, target, id, true, |w.history| + 1))
            && RunningOn(cut.running, dst) == prev && Current(cut.states, dst) == target
  {
    hide Play;
    var prev := Current(w.states, dst);
    var es := ShipEffects(w, src, dst, target, id, WentBack(target, Restored(prev, prev, healthy)));
    SecondLanding(w, es, Issue(dst, prev, target, id, true, |w.history| + 1), Outcome(dst, Promote, prev, target, false), target);
  }

  /** There recovery is lost, whatever it finds: every safe promotion on a ring that reports its
      version passes through a cut after which the stored version stays wrong. */
  lemma AutoRollbackCutIsBeyondRecovery(cfg: Config, w: World, src: Key, dst: Key, rc: RingConfig, target: string, id: nat, healthy: bool)
    requires Safe(cfg, w) && w.issued == None && RingConfigOf(cfg, dst) == Found(rc) && rc.Provable() && src in w.states
    requires id != 0 && id == w.nextOp && target != "" && Current(w.states, dst) != "" && Current(w.states, dst) != target
    ensures var prev := Current(w.states, dst);
            var es := ShipEffects(w, src, dst, target, id, WentBack(target, Restored(prev, prev, healthy)));
            |es| > 7 && SafeRun(cfg, w, es) && var c := AfterCrash(Play(w, es[..7]), None);
            id in c.pending && c.pending[id].key == dst && !Recoverable(cfg, c, c.pending[id])
  {
    var prev := Current(w.states, dst);
    var end := WentBack(target, Restored(prev, prev, healthy));
    var es := ShipEffects(w, src, dst, target, id, end);
    hide Play, SafeRun, ShipEffects;
    AutoRollbackCutIsReached(w, src, dst, target, id, healthy);
    ShipSafe(cfg, w, src, dst, rc, target, id, end);
    SafeRunPrefix(cfg, w, es, 7);
    var c := AfterCrash(Play(w, es[..7]), None);
    RecoverableMeans(cfg, c, c.pending[id]);
  }

  // ---- Recovery finishes what was interrupted ----

  /** The effects store states of no other ring, and leave the auto-promote settings alone. */
  ghost predicate StoresOnly(es: seq<Effect>, k: Key) {
    forall e :: e in es ==> (e.Save? ==> e.key == k) && !e.Toggle?
  }

  lemma StoresOne(w: World, e: Effect, k: Key)
    requires (e.Save? ==> e.key == k) && !e.Toggle?
    ensures var w' := Apply(w, e);
            && (forall x :: x != k ==> (x in w'.states <==> x in w.states) && (x in w.states ==> w'.states[x] == w.states[x]))
            && AutoPromote(w'.states, k) == AutoPromote(w.states, k)
  {
  }

  lemma {:induction false} PlayStoresOnly(w: World, es: seq<Effect>, k: Key)
    requires StoresOnly(es, k)
    ensures var w' := Play(w, es);
            && (forall x :: x != k ==> (x in w'.states <==> x in w.states) && (x in w.states ==> w'.states[x] == w.states[x]))
            && AutoPromote(w'.states, k) == AutoPromote(w.states, k)
    decreases |es|
  {
    hide Apply;
    if es != [] {
      var front := es[..|es| - 1];
      assert forall e :: e in front ==> e in es;
      PlayStoresOnly(w, front, k);
      assert es[|es| - 1] in es;
      StoresOne(Play(w, front), es[|es| - 1], k);
    }
  }

  /** Whatever was already stored for the ring is overwritten. */
  lemma UpsertAfter(w: World, es: seq<Effect>, n: nat, k: Key, prev: string, cur: string, healthy: bool)
    requires StoresOnly(es, k) && n <= |es|
    ensures Upsert(Play(w, es[..n]).states, k, prev, cur, healthy) == Upsert(w.states, k, prev, cur, healthy)
  {
    assert forall e :: e in es[..n] ==> e in es;
    PlayStoresOnly(w, es[..n], k);
    var a, b := Upsert(Play(w, es[..n]).states, k, prev, cur, healthy), Upsert(w.states, k, prev, cur, healthy);
    assert forall x :: x in a <==> x in b;
    assert forall x :: x in a ==> a[x] == b[x];
  }

  /** Wherever a seed was cut off, a proven recovery stores for every ring exactly what the seed
      would have stored on success, and adds the same history entry. */
  lemma RecoveryFinishesSeed(w: World, k: Key, target: string, id: nat, end: SeedEnd, n: nat, ran: Option<string>)
    requires id != 0 && n <= |SeedEffects(w, k, target, id, end)|
    ensures var c := AfterCrash(Play(w, SeedEffects(w, k, target, id, end)[..n]), ran);
            var done, seeded := AfterRecovery(c, SeedOp(w, k, target), true), AfterSeed(w, k, target, Seeded(target, target, true));
            done.states == seeded.states && done.history[|done.history| - 1] == seeded.history[|seeded.history| - 1]
  {
    UpsertAfter(w, SeedEffects(w, k, target, id, end), n, k, Current(w.states, k), target, true);
  }

  lemma ShipStoresOnly(w: World, src: Key, dst: Key, target: string, id: nat, end: HopEnd)
    ensures StoresOnly(ShipEffects(w, src, dst, target, id, end), dst)
  {
    var core := ShipCore(w, dst, target, id, end);
    assert forall e :: e in core ==> (e.Save? ==> e.key == dst) && !e.Toggle?;
  }

  lemma RecoveryFinishesHop(w: World, src: Key, dst: Key, target: string, id: nat, end: HopEnd, n: nat, ran: Option<string>)
    requires id != 0 && n <= |ShipEffects(w, src, dst, target, id, end)|
    ensures var c := AfterCrash(Play(w, ShipEffects(w, src, dst, target, id, end)[..n]), ran);
            var done, shipped := AfterRecovery(c, ShipOp(w, src, dst, target), true), AfterShip(w, dst, target, Shipped(target, target));
            done.states == shipped.states && done.history[|done.history| - 1] == shipped.history[|shipped.history| - 1]
  {
    ShipStoresOnly(w, src, dst, target, id, end);
    UpsertAfter(w, ShipEffects(w, src, dst, target, id, end), n, dst, Current(w.states, dst), target, true);
  }

  lemma RecoveryFinishesRollback(w: World, k: Key, id: nat, end: RollbackEnd, n: nat, ran: Option<string>)
    requires id != 0 && k in w.states && n <= |RollbackEffects(w, k, id, end)|
    ensures var c := AfterCrash(Play(w, RollbackEffects(w, k, id, end)[..n]), ran);
            var from, to := w.states[k].current, w.states[k].previous;
            var done, back := AfterRecovery(c, RollbackOp(w, k), true), AfterRollback(w, k, from, to, Restored(to, to, true));
            done.states == back.states && done.history[|done.history| - 1] == back.history[|back.history| - 1]
  {
    UpsertAfter(w, RollbackEffects(w, k, id, end), n, k, w.states[k].current, w.states[k].previous, true);
  }
}
