/** One process after another: each starts on what the one before it left when it was cut off. */
module PromoterLives {
  import opened Wrappers
  import opened PromoterWorld
  import opened PromoterOps
  import opened PromoterEffects
  import opened PromoterCrash

  /** The operations a process finished or was in the middle of, how many of their effects took
      place before it was cut off, and what its last deploy brought afterwards. */
  datatype Life = Life(ops: seq<Op>, cut: nat, landed: Option<string>)

  /** Every unpinned ring that no crash has left in doubt shows the version it runs. */
  ghost predicate StatesAreTrue(cfg: Config, w: World) {
    forall k {:trigger Agrees(w, k)} :: Unpinned(cfg, k) && k !in w.doubted ==> Agrees(w, k)
  }

  /** The moment a life is cut off. */
  function CutOf(w: World, life: Life): World
    requires life.cut <= |LogOf(w, life.ops)|
  {
    Play(w, LogOf(w, life.ops)[..life.cut])
  }

  ghost predicate LifeRight(cfg: Config, w: World, life: Life) {
    Ran(cfg, w, life.ops) && life.cut <= |LogOf(w, life.ops)| && MayLand(cfg, CutOf(w, life), life.landed)
  }

  /** The world after a list of lives; a life that does not fit leaves it alone. */
  function AfterLives(w: World, lives: seq<Life>): World {
    if lives == [] then w
    else
      var before, last := AfterLives(w, lives[..|lives| - 1]), lives[|lives| - 1];
      if last.cut <= |LogOf(before, last.ops)| then AfterCrash(CutOf(before, last), last.landed) else before
  }

  ghost predicate LifeStep(cfg: Config, w: World, lives: seq<Life>, n: nat)
    requires n < |lives|
  {
    LifeRight(cfg, AfterLives(w, lives[..n]), lives[n])
  }

  /** Each life fits the world that the lives before it left. */
  ghost predicate LivesRight(cfg: Config, w: World, lives: seq<Life>) {
    forall n: nat {:trigger LifeStep(cfg, w, lives, n)} :: n < |lives| ==> LifeStep(cfg, w, lives, n)
  }

  lemma LivesFront(cfg: Config, w: World, lives: seq<Life>)
    requires lives != [] && LivesRight(cfg, w, lives)
    ensures var k := |lives| - 1; LivesRight(cfg, w, lives[..k]) && LifeRight(cfg, AfterLives(w, lives[..k]), lives[k])
  {
    hide LifeRight, AfterLives;
    var k := |lives| - 1;
    forall n: nat | n < k ensures LifeStep(cfg, w, lives[..k], n) {
      assert LifeStep(cfg, w, lives, n);
      assert lives[..k][..n] == lives[..n];
    }
    assert LifeStep(cfg, w, lives, k);
  }

  /** The rings on which some crash cut a deploy off. */
  function CutRings(w: World, lives: seq<Life>): set<Key> {
    if lives == [] then {}
    else
      var before, last := AfterLives(w, lives[..|lives| - 1]), lives[|lives| - 1];
      CutRings(w, lives[..|lives| - 1])
      + if last.cut <= |LogOf(before, last.ops)| && CutOf(before, last).issued.Some? then {CutOf(before, last).issued.value.key} else {}
  }

  lemma RestedIsTrue(cfg: Config, w: World)
    requires Rested(cfg, w)
    ensures StatesAreTrue(cfg, w)
  {
    forall k | Unpinned(cfg, k) && k !in w.doubted ensures Agrees(w, k) {
      IdleAgrees(cfg, w, k);
    }
  }

  lemma OneLife(cfg: Config, w: World, life: Life)
    requires Rested(cfg, w) && LifeRight(cfg, w, life)
    ensures Safe(cfg, CutOf(w, life)) && CutOf(w, life).doubted <= w.doubted
    ensures Rested(cfg, AfterCrash(CutOf(w, life), life.landed))
  {
    var log := LogOf(w, life.ops);
    RunIsSafe(cfg, w, life.ops);
    SafeRunPrefix(cfg, w, log, life.cut);
    DoubtOnlyFalls(w, log[..life.cut]);
    hide Play, Safe, SafeRun, LogOf, Ran;
    CrashIsSafe(cfg, CutOf(w, life), life.landed);
  }

  /** After any number of processes, each cut off anywhere: the next one starts on a safe world in
      which every unpinned ring shows the version it runs, but for those on which a crash cut a
      deploy off and nothing has settled the doubt since. */
  lemma {:induction false} LivesAreSafe(cfg: Config, w: World, lives: seq<Life>)
    requires Rested(cfg, w) && LivesRight(cfg, w, lives)
    ensures Rested(cfg, AfterLives(w, lives)) && StatesAreTrue(cfg, AfterLives(w, lives))
    ensures AfterLives(w, lives).doubted <= w.doubted + CutRings(w, lives)
    decreases |lives|
  {
    if lives != [] {
      var front, last := lives[..|lives| - 1], lives[|lives| - 1];
      LivesFront(cfg, w, lives);
      LivesAreSafe(cfg, w, front);
      OneLife(cfg, AfterLives(w, front), last);
    }
    hide Rested;
    RestedIsTrue(cfg, AfterLives(w, lives));
  }

  /** And so is every moment of the last life, at which it is cut: whatever was issued and is not
      in the history yet has its journal row, and a ring that no crash had cut a deploy off on
      before shows what it runs, or the version before the deploy that has just landed on it. */
  lemma AnyMomentOfAnyLife(cfg: Config, w: World, lives: seq<Life>, k: Key)
    requires Rested(cfg, w) && lives != [] && LivesRight(cfg, w, lives)
    ensures var front, last := lives[..|lives| - 1], lives[|lives| - 1];
            last.cut <= |LogOf(AfterLives(w, front), last.ops)| && var now := CutOf(AfterLives(w, front), last);
            && Safe(cfg, now)
            && (Unpinned(cfg, k) && k !in w.doubted + CutRings(w, front) ==> Agrees(now, k) || Landed(now, k))
  {
    var front, last := lives[..|lives| - 1], lives[|lives| - 1];
    LivesFront(cfg, w, lives);
    LivesAreSafe(cfg, w, front);
    OneLife(cfg, AfterLives(w, front), last);
    hide Rested, LivesRight, LifeRight, AfterLives, CutOf;
    var now := CutOf(AfterLives(w, front), last);
    assert Agrees(now, k) || !Agrees(now, k);
  }

  // ---- Toggles need no lock ----

  /** The same but for the auto-promote settings. */
  ghost predicate SameButSettings(w: World, v: World) {
    && v == w.(states := v.states)
    && forall k :: Current(v.states, k) == Current(w.states, k)
  }

  lemma SettingsAreHarmless(cfg: Config, w: World, v: World)
    requires SameButSettings(w, v) && Safe(cfg, w)
    ensures Safe(cfg, v)
  {
    forall k | Unpinned(cfg, k) && k !in v.doubted ensures Agrees(v, k) || Landed(v, k) {
      assert Agrees(w, k) || Landed(w, k);
    }
  }

  lemma SettingsStayApart(w: World, v: World, e: Effect)
    requires SameButSettings(w, v)
    ensures SameButSettings(Apply(w, e), Apply(v, e))
  {
    var w', v' := Apply(w, e), Apply(v, e);
    forall k ensures Current(v'.states, k) == Current(w'.states, k) {
      assert Current(v.states, k) == Current(w.states, k);
      if e.Toggle? {
        assert Current(v.states, e.key) == Current(w.states, e.key);
      }
    }
    assert v' == w'.(states := v'.states);
  }

  lemma {:induction false} PlaySettings(w: World, v: World, es: seq<Effect>)
    requires SameButSettings(w, v)
    ensures SameButSettings(Play(w, es), Play(v, es))
    decreases |es|
  {
    if es != [] {
      hide SameButSettings, Apply;
      PlaySettings(w, v, es[..|es| - 1]);
      SettingsStayApart(Play(w, es[..|es| - 1]), Play(v, es[..|es| - 1]), es[|es| - 1]);
    }
  }

  lemma SafeSettings(cfg: Config, w: World, v: World, es: seq<Effect>)
    requires SameButSettings(w, v) && SafeRun(cfg, w, es)
    ensures SafeRun(cfg, v, es)
  {
    hide SameButSettings, Safe, Play;
    forall n: nat | n <= |es| ensures SafeAt(cfg, v, es, n) {
      assert SafeAt(cfg, w, es, n);
      PlaySettings(w, v, es[..n]);
      SettingsAreHarmless(cfg, Play(w, es[..n]), Play(v, es[..n]));
    }
  }

  /** The switch is set without the application's lock: wherever a toggle falls inside other
      operations, every crash point stays safe. */
  lemma ToggleAnywhere(cfg: Config, w: World, a: seq<Effect>, b: seq<Effect>, k: Key, enabled: bool)
    requires SafeRun(cfg, w, a) && SafeRun(cfg, Play(w, a), b)
    ensures SafeRun(cfg, w, a + [Toggle(k, enabled)] + b)
  {
    var now := Play(w, a);
    var v := Apply(now, Toggle(k, enabled));
    SafeRunEnds(cfg, w, a);
    assert SameButSettings(now, v);
    hide Safe, Play, SafeRun;
    var es, after := Extend(cfg, w, a, now, Toggle(k, enabled));
    SafeSettings(cfg, now, v, b);
    SafeRunConcat(cfg, w, es, b);
  }

  // ---- Late landings ----

  /** The same but for what one ring runs on which cut-off deploys may still land. */
  ghost predicate SameButRing(w: World, v: World, k: Key) {
    && v == w.(running := v.running) && k in w.adrift
    && forall x :: x != k ==> RunningOn(v.running, x) == RunningOn(w.running, x)
  }

  lemma DoubtedRingIsFree(cfg: Config, w: World, v: World, k: Key)
    requires SameButRing(w, v, k) && Safe(cfg, w)
    ensures Safe(cfg, v)
  {
    forall x | Unpinned(cfg, x) && x !in v.doubted ensures Agrees(v, x) || Landed(v, x) {
      assert Agrees(w, x) || Landed(w, x);
    }
  }

  lemma RingStaysApart(w: World, v: World, k: Key, e: Effect)
    requires SameButRing(w, v, k) && e != EndLate(k)
    ensures SameButRing(Apply(w, e), Apply(v, e), k)
  {
    forall x | x != k ensures RunningOn(Apply(v, e).running, x) == RunningOn(Apply(w, e).running, x) {
      assert RunningOn(v.running, x) == RunningOn(w.running, x);
    }
    if e.Save? || e.EndLate? {
      assert e.key == k || RunningOn(v.running, e.key) == RunningOn(w.running, e.key);
    }
  }

  lemma {:induction false} PlayRing(w: World, v: World, k: Key, es: seq<Effect>)
    requires SameButRing(w, v, k) && EndLate(k) !in es
    ensures SameButRing(Play(w, es), Play(v, es), k)
    decreases |es|
  {
    if es != [] {
      hide SameButRing, Apply;
      var n := |es| - 1;
      assert es[n] in es && forall e :: e in es[..n] ==> e in es;
      PlayRing(w, v, k, es[..n]);
      RingStaysApart(Play(w, es[..n]), Play(v, es[..n]), k, es[n]);
    }
  }

  lemma SafeRing(cfg: Config, w: World, v: World, k: Key, es: seq<Effect>)
    requires SameButRing(w, v, k) && SafeRun(cfg, w, es) && EndLate(k) !in es
    ensures SafeRun(cfg, v, es)
  {
    hide SameButRing, Safe, Play;
    forall n: nat | n <= |es| ensures SafeAt(cfg, v, es, n) {
      assert SafeAt(cfg, w, es, n);
      assert forall e :: e in es[..n] ==> e in es;
      PlayRing(w, v, k, es[..n]);
      DoubtedRingIsFree(cfg, Play(w, es[..n]), Play(v, es[..n]), k);
    }
  }

  /** A deploy that outlived its process asks nobody: wherever it lands in the middle of other
      operations, before it has ended, every crash point stays safe. */
  lemma LateLandingAnywhere(cfg: Config, w: World, a: seq<Effect>, b: seq<Effect>, k: Key, ran: string)
    requires SafeRun(cfg, w, a) && SafeRun(cfg, Play(w, a), b)
    requires k in Play(w, a).adrift && (Unpinned(cfg, k) ==> ran in Play(w, a).adrift[k]) && EndLate(k) !in b
    ensures SafeRun(cfg, w, a + [LandLate(k, ran)] + b)
  {
    var now := Play(w, a);
    var v := Apply(now, LandLate(k, ran));
    assert SameButRing(now, v, k);
    hide Safe, Play, SafeRun;
    var es, after := Extend(cfg, w, a, now, LandLate(k, ran));
    SafeRing(cfg, now, v, k, b);
    SafeRunConcat(cfg, w, es, b);
  }

  ghost predicate LandingsOn(w: World, k: Key, es: seq<Effect>) {
    k in w.adrift && forall e :: e in es ==> e.LandLate? && e.key == k && e.ran in w.adrift[k]
  }

  /** Whatever lands late on the ring, it shows what it runs. */
  ghost predicate Spared(w: World, k: Key) {
    forall es {:trigger Play(w, es)} :: LandingsOn(w, k, es) ==> Agrees(Play(w, es), k)
  }

  lemma {:induction false} LandingsBringOneOf(w: World, k: Key, es: seq<Effect>)
    requires LandingsOn(w, k, es)
    ensures Play(w, es) == w.(running := Play(w, es).running)
    ensures RunningOn(Play(w, es).running, k) in w.adrift[k] + {RunningOn(w.running, k)}
    decreases |es|
  {
    if es != [] {
      var n := |es| - 1;
      assert es[n] in es && forall e :: e in es[..n] ==> e in es;
      LandingsBringOneOf(w, k, es[..n]);
    }
  }

  lemma OneLanding(w: World, k: Key, version: string)
    requires k in w.adrift && version in w.adrift[k] && Spared(w, k)
    ensures version == Current(w.states, k)
  {
    var es := [] + [LandLate(k, version)];
    PlayOne(w, [], LandLate(k, version));
    assert Play(w, []) == w;
    hide Play;
    assert LandingsOn(w, k, es);
    assert Agrees(Play(w, es), k);
  }

  /** Late landings leave a ring's stored version true exactly when it is true now and nothing but
      that version may still land. */
  lemma SparedMeans(w: World, k: Key)
    requires k in w.adrift
    ensures Spared(w, k) <==> Agrees(w, k) && w.adrift[k] <= {Current(w.states, k)}
  {
    if Spared(w, k) {
      assert Play(w, []) == w && LandingsOn(w, k, []);
      forall version | version in w.adrift[k] ensures version == Current(w.states, k) {
        OneLanding(w, k, version);
      }
    }
    if Agrees(w, k) && w.adrift[k] <= {Current(w.states, k)} {
      hide Play;
      forall es | LandingsOn(w, k, es) ensures Agrees(Play(w, es), k) {
        LandingsBringOneOf(w, k, es);
      }
    }
  }

  /** So what a proven recovery stores stays true, even if the deploy it waited for lands once
      more: if the ring was waiting for no other. */
  lemma RecoveredIsSpared(cfg: Config, w: World, ran: Option<string>)
    requires CutOff(cfg, w, ran) && !w.issued.value.auto && w.issued.value.key !in w.adrift
    requires var c := AfterCrash(w, ran); CanProve(cfg, c, c.pending[w.issued.value.journal])
    ensures var c, k := AfterCrash(w, ran), w.issued.value.key;
            Spared(AfterRecovery(c, c.pending[w.issued.value.journal], true), k)
  {
    var c, k := AfterCrash(w, ran), w.issued.value.key;
    SparedMeans(AfterRecovery(c, c.pending[w.issued.value.journal], true), k);
  }
}
