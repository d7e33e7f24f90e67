/** Operations of different applications at the same time: one store and one cluster, an operation
    at a time for each application (the lock of internal/promoter/promoter.go), their effects
    interleaved in any order. */
module PromoterShared {
  import opened Wrappers
  import opened PromoterWorld
  import opened PromoterOps
  import opened PromoterCrash

  /** One moment of the whole process: like a World, with a deploy outstanding for each application. */
  datatype Shared = Shared(
    states: map<Key, RingState>,
    history: seq<Outcome>,
    pending: map<nat, PendingOp>,
    nextOp: nat,
    running: map<Key, string>,
    issued: map<string, Issue>,
    doubted: set<Key>,
    adrift: map<Key, set<string>>)

  /** An effect of an operation on one application. */
  datatype Step = Step(app: string, effect: Effect)

  function ApplyShared(s: Shared, step: Step): Shared {
    match step.effect
    case AddRow(id, op) => s.(pending := s.pending[id := op], nextOp := id + 1)
    case DropRow(id) => s.(pending := s.pending - {id})
    case IssueDeploy(issue) => s.(issued := s.issued[step.app := issue])
    case Land(k, ran) => s.(running := s.running[k := ran])
    case Save(k, prev, cur, healthy) =>
      s.(states := Upsert(s.states, k, prev, cur, healthy),
         doubted := if cur == RunningOn(s.running, k) && k !in s.adrift then s.doubted - {k} else s.doubted)
    case Log(o) => s.(history := s.history + [o], issued := s.issued - {step.app})
    case Toggle(k, enabled) => s.(states := Toggled(s.states, k, enabled))
    case LandLate(k, ran) => s.(running := s.running[k := ran])
    case EndLate(k) =>
      s.(adrift := s.adrift - {k},
         doubted := if Current(s.states, k) == RunningOn(s.running, k) then s.doubted - {k} else s.doubted)
  }

  /** The effect is one of that application's, and a new row gets the next id of the one journal. */
  ghost predicate Fits(s: Shared, step: Step) {
    match step.effect
    case AddRow(id, op) => id == s.nextOp && op.key.app == step.app
    case DropRow(id) => id in s.pending ==> s.pending[id].key.app == step.app
    case IssueDeploy(i) => i.key.app == step.app
    case Land(k, _) => k.app == step.app
    case Save(k, _, _, _) => k.app == step.app
    case Log(o) => o.key.app == step.app
    case Toggle(k, _) => k.app == step.app
    case LandLate(k, _) => k.app == step.app
    case EndLate(k) => k.app == step.app
  }

  function PlayShared(s: Shared, steps: seq<Step>): Shared {
    if steps == [] then s else ApplyShared(PlayShared(s, steps[..|steps| - 1]), steps[|steps| - 1])
  }

  ghost predicate StepFits(s: Shared, steps: seq<Step>, n: nat)
    requires n < |steps|
  {
    Fits(PlayShared(s, steps[..n]), steps[n])
  }

  ghost predicate FitAll(s: Shared, steps: seq<Step>) {
    forall n: nat {:trigger StepFits(s, steps, n)} :: n < |steps| ==> StepFits(s, steps, n)
  }

  // ---- What one application sees ----

  function OfApp<V>(m: map<Key, V>, app: string): map<Key, V> {
    map k | k in m && k.app == app :: m[k]
  }

  function RowsOf(m: map<nat, PendingOp>, app: string): map<nat, PendingOp> {
    map id | id in m && m[id].key.app == app :: m[id]
  }

  function KeysOf(ks: set<Key>, app: string): set<Key> {
    set k | k in ks && k.app == app
  }

  function HistoryOf(h: seq<Outcome>, app: string): seq<Outcome> {
    if h == [] then []
    else HistoryOf(h[..|h| - 1], app) + if h[|h| - 1].key.app == app then [h[|h| - 1]] else []
  }

  /** The world of one application. */
  function View(s: Shared, app: string): World {
    World(OfApp(s.states, app), HistoryOf(s.history, app), RowsOf(s.pending, app), s.nextOp, OfApp(s.running, app),
          if app in s.issued then Some(s.issued[app]) else None,
          KeysOf(s.doubted, app), OfApp(s.adrift, app))
  }

  function Mine(steps: seq<Step>, app: string): seq<Effect> {
    if steps == [] then []
    else Mine(steps[..|steps| - 1], app) + if steps[|steps| - 1].app == app then [steps[|steps| - 1].effect] else []
  }

  /** The same, but for journal ids that others have used up. */
  ghost predicate Like(w: World, v: World) {
    v == w.(nextOp := v.nextOp) && v.nextOp <= w.nextOp
  }

  lemma OfAppPut<V>(m: map<Key, V>, app: string, k: Key, v: V)
    ensures OfApp(m[k := v], app) == if k.app == app then OfApp(m, app)[k := v] else OfApp(m, app)
  {
  }

  lemma OfAppCut<V>(m: map<Key, V>, app: string, k: Key)
    ensures OfApp(m - {k}, app) == OfApp(m, app) - {k}
    ensures k.app != app ==> OfApp(m - {k}, app) == OfApp(m, app)
  {
  }

  lemma KeysOfCut(ks: set<Key>, app: string, k: Key)
    ensures KeysOf(ks - {k}, app) == KeysOf(ks, app) - {k}
    ensures k.app != app ==> KeysOf(ks - {k}, app) == KeysOf(ks, app)
  {
  }

  lemma RowsOfPut(m: map<nat, PendingOp>, app: string, id: nat, op: PendingOp)
    requires op.key.app == app || id !in m
    ensures RowsOf(m[id := op], app) == if op.key.app == app then RowsOf(m, app)[id := op] else RowsOf(m, app)
  {
  }

  lemma RowsOfCut(m: map<nat, PendingOp>, app: string, id: nat)
    ensures RowsOf(m - {id}, app) == RowsOf(m, app) - {id}
    ensures (id in m ==> m[id].key.app != app) ==> RowsOf(m - {id}, app) == RowsOf(m, app)
  {
  }

  lemma HistoryOfOneMore(h: seq<Outcome>, o: Outcome, app: string)
    ensures HistoryOf(h + [o], app) == HistoryOf(h, app) + if o.key.app == app then [o] else []
  {
    assert (h + [o])[..|h|] == h;
  }

  lemma SeenAlike(s: Shared, k: Key)
    ensures Current(OfApp(s.states, k.app), k) == Current(s.states, k)
    ensures AutoPromote(OfApp(s.states, k.app), k) == AutoPromote(s.states, k)
    ensures k in OfApp(s.states, k.app) <==> k in s.states
    ensures k in s.states ==> OfApp(s.states, k.app)[k] == s.states[k]
    ensures RunningOn(OfApp(s.running, k.app), k) == RunningOn(s.running, k)
    ensures k in OfApp(s.adrift, k.app) <==> k in s.adrift
  {
  }

  lemma OwnSave(s: Shared, k: Key, prev: string, cur: string, healthy: bool)
    ensures var e := Save(k, prev, cur, healthy); View(ApplyShared(s, Step(k.app, e)), k.app) == Apply(View(s, k.app), e)
  {
    hide OfApp, RowsOf, KeysOf, HistoryOf;
    SeenAlike(s, k);
    OfAppPut(s.states, k.app, k, RingState(cur, prev, healthy, AutoPromote(s.states, k)));
    KeysOfCut(s.doubted, k.app, k);
  }

  lemma OwnToggle(s: Shared, k: Key, enabled: bool)
    ensures var e := Toggle(k, enabled); View(ApplyShared(s, Step(k.app, e)), k.app) == Apply(View(s, k.app), e)
  {
    hide OfApp, RowsOf, KeysOf, HistoryOf;
    SeenAlike(s, k);
    OfAppPut(s.states, k.app, k, Toggled(s.states, k, enabled)[k]);
  }

  lemma OwnEnd(s: Shared, k: Key)
    ensures var e := EndLate(k); View(ApplyShared(s, Step(k.app, e)), k.app) == Apply(View(s, k.app), e)
  {
    hide OfApp, RowsOf, KeysOf, HistoryOf;
    SeenAlike(s, k);
    OfAppCut(s.adrift, k.app, k);
    KeysOfCut(s.doubted, k.app, k);
  }

  /** The effects that change neither states nor doubts. */
  lemma OwnRest(s: Shared, step: Step)
    requires Fits(s, step) && !step.effect.Save? && !step.effect.Toggle? && !step.effect.EndLate?
    ensures View(ApplyShared(s, step), step.app) == Apply(View(s, step.app), step.effect)
  {
    hide OfApp, RowsOf, KeysOf, HistoryOf, Stored, Toggled, Upsert;
    match step.effect {
      case AddRow(id, op) => RowsOfPut(s.pending, step.app, id, op);
      case DropRow(id) => RowsOfCut(s.pending, step.app, id);
      case Land(k, ran) => OfAppPut(s.running, step.app, k, ran);
      case LandLate(k, ran) => OfAppPut(s.running, step.app, k, ran);
      case Log(o) => HistoryOfOneMore(s.history, o, step.app);
      case IssueDeploy(_) =>
    }
  }

  /** An application's own effect does to its world what it does there alone. */
  lemma OwnStep(s: Shared, step: Step)
    requires Fits(s, step)
    ensures View(ApplyShared(s, step), step.app) == Apply(View(s, step.app), step.effect)
  {
    hide View, ApplyShared, Apply;
    match step.effect {
      case Save(k, prev, cur, healthy) => OwnSave(s, k, prev, cur, healthy);
      case Toggle(k, enabled) => OwnToggle(s, k, enabled);
      case EndLate(k) => OwnEnd(s, k);
      case _ => OwnRest(s, step);
    }
  }

  lemma OthersRest(s: Shared, step: Step, app: string)
    requires Fits(s, step) && app != step.app && s.nextOp !in s.pending
    requires !step.effect.Save? && !step.effect.Toggle? && !step.effect.EndLate?
    ensures var s' := ApplyShared(s, step);
            View(s', app) == View(s, app).(nextOp := s'.nextOp) && View(s, app).nextOp == s.nextOp <= s'.nextOp
  {
    hide OfApp, RowsOf, KeysOf, HistoryOf, Current, RunningOn, AutoPromote, Toggled, Upsert;
    match step.effect {
      case AddRow(id, op) => RowsOfPut(s.pending, app, id, op);
      case DropRow(id) => RowsOfCut(s.pending, app, id);
      case Land(k, ran) => OfAppPut(s.running, app, k, ran);
      case LandLate(k, ran) => OfAppPut(s.running, app, k, ran);
      case Log(o) => HistoryOfOneMore(s.history, o, app);
      case IssueDeploy(_) =>
    }
  }

  lemma OthersState(s: Shared, step: Step, app: string)
    requires Fits(s, step) && app != step.app && (step.effect.Save? || step.effect.Toggle? || step.effect.EndLate?)
    ensures var s' := ApplyShared(s, step);
            View(s', app) == View(s, app).(nextOp := s'.nextOp) && View(s, app).nextOp == s.nextOp <= s'.nextOp
  {
    hide OfApp, RowsOf, KeysOf, HistoryOf, Current, RunningOn;
    match step.effect {
      case Save(k, prev, cur, healthy) =>
        OfAppPut(s.states, app, k, RingState(cur, prev, healthy, AutoPromote(s.states, k)));
        KeysOfCut(s.doubted, app, k);
      case Toggle(k, enabled) => OfAppPut(s.states, app, k, Toggled(s.states, k, enabled)[k]);
      case EndLate(k) =>
        OfAppCut(s.adrift, app, k);
        KeysOfCut(s.doubted, app, k);
    }
  }

  /** And nothing to the world of another, but for the journal ids it uses up. */
  lemma OthersStep(s: Shared, step: Step, app: string)
    requires Fits(s, step) && app != step.app && s.nextOp !in s.pending
    ensures var s' := ApplyShared(s, step);
            View(s', app) == View(s, app).(nextOp := s'.nextOp) && View(s, app).nextOp == s.nextOp <= s'.nextOp
  {
    hide View;
    if step.effect.Save? || step.effect.Toggle? || step.effect.EndLate? {
      OthersState(s, step, app);
    } else {
      OthersRest(s, step, app);
    }
  }

  lemma LikeSteps(w: World, v: World, e: Effect)
    requires Like(w, v)
    ensures Like(Apply(w, e), Apply(v, e))
  {
  }

  lemma LikeIsSafe(cfg: Config, w: World, v: World)
    requires Like(w, v) && Safe(cfg, v)
    ensures Safe(cfg, w)
  {
    forall k | Unpinned(cfg, k) && k !in w.doubted ensures Agrees(w, k) || Landed(w, k) {
      assert Agrees(v, k) || Landed(v, k);
    }
  }

  // ---- Interleavings ----

  /** Every id in the journal has been given out. */
  ghost predicate IdsUsed(s: Shared) {
    forall id :: id in s.pending ==> id < s.nextOp
  }

  lemma FitFront(s: Shared, steps: seq<Step>, n: nat)
    requires FitAll(s, steps) && n <= |steps|
    ensures FitAll(s, steps[..n])
  {
    hide Fits, PlayShared;
    forall m: nat | m < n ensures StepFits(s, steps[..n], m) {
      assert StepFits(s, steps, m);
      assert steps[..n][..m] == steps[..m];
    }
  }

  lemma LastFits(s: Shared, steps: seq<Step>)
    requires steps != [] && FitAll(s, steps)
    ensures var k := |steps| - 1; FitAll(s, steps[..k]) && Fits(PlayShared(s, steps[..k]), steps[k])
  {
    FitFront(s, steps, |steps| - 1);
    assert StepFits(s, steps, |steps| - 1);
  }

  lemma IdsStayUsed(s: Shared, step: Step)
    requires IdsUsed(s) && Fits(s, step)
    ensures IdsUsed(ApplyShared(s, step))
  {
  }

  lemma OneStepOn(s: Shared, step: Step, app: string, v: World)
    requires IdsUsed(s) && Fits(s, step) && Like(View(s, app), v)
    ensures Like(View(ApplyShared(s, step), app), if step.app == app then Apply(v, step.effect) else v)
    ensures IdsUsed(ApplyShared(s, step))
  {
    hide View, Apply, ApplyShared, Fits;
    IdsStayUsed(s, step);
    if step.app == app {
      OwnStep(s, step);
      LikeSteps(View(s, app), v, step.effect);
    } else {
      OthersStep(s, step, app);
    }
  }

  /** However the operations of several applications are interleaved, what one of them sees is
      what its own effects alone lead to. */
  lemma {:induction false} ViewsArePlayed(s: Shared, steps: seq<Step>, app: string)
    requires IdsUsed(s) && FitAll(s, steps)
    ensures Like(View(PlayShared(s, steps), app), Play(View(s, app), Mine(steps, app))) && IdsUsed(PlayShared(s, steps))
    decreases |steps|
  {
    hide View, Apply, ApplyShared, Fits, FitAll, Play, IdsUsed;
    var w := View(s, app);
    if steps == [] {
      assert Play(w, []) == w by { PlayNothing(w); }
    } else {
      var front, step := steps[..|steps| - 1], steps[|steps| - 1];
      LastFits(s, steps);
      ViewsArePlayed(s, front, app);
      PlayOne(w, Mine(front, app), step.effect);
      OneStepOn(PlayShared(s, front), step, app, Play(w, Mine(front, app)));
      assert Mine(front, app) + [] == Mine(front, app);
    }
  }

  lemma PlayNothing(w: World)
    ensures Play(w, []) == w
  {
  }

  lemma {:induction false} MineOfFront(steps: seq<Step>, n: nat, app: string)
    requires n <= |steps|
    ensures |Mine(steps[..n], app)| <= |Mine(steps, app)| && Mine(steps[..n], app) == Mine(steps, app)[..|Mine(steps[..n], app)|]
    decreases |steps|
  {
    if n < |steps| {
      MineOfFront(steps[..|steps| - 1], n, app);
      assert steps[..|steps| - 1][..n] == steps[..n];
    } else {
      assert steps[..n] == steps;
    }
  }

  /** Every application's operations are safe to be cut anywhere by themselves. */
  ghost predicate EachSafe(cfg: Config, s: Shared, steps: seq<Step>) {
    forall app {:trigger View(s, app)} :: SafeRun(cfg, View(s, app), Mine(steps, app))
  }

  /** Then so is any interleaving of them: at every moment every application's world is safe. */
  lemma InterleavedIsSafe(cfg: Config, s: Shared, steps: seq<Step>, n: nat, app: string)
    requires IdsUsed(s) && FitAll(s, steps) && EachSafe(cfg, s, steps) && n <= |steps|
    ensures Safe(cfg, View(PlayShared(s, steps[..n]), app))
  {
    var w, es := View(s, app), Mine(steps, app);
    assert SafeRun(cfg, w, es);
    MineOfFront(steps, n, app);
    hide View, Safe, SafeRun, Play, Mine;
    SafeRunPrefix(cfg, w, es, |Mine(steps[..n], app)|);
    FitFront(s, steps, n);
    ViewsArePlayed(s, steps[..n], app);
    LikeIsSafe(cfg, View(PlayShared(s, steps[..n]), app), Play(w, Mine(steps[..n], app)));
  }

  /** The steps of one application are whole operations, the last of them perhaps cut off. */
  ghost predicate RunsOne(cfg: Config, w: World, es: seq<Effect>, ops: seq<Op>) {
    Rested(cfg, w) && Ran(cfg, w, ops) && es <= LogOf(w, ops)
  }

  lemma OneRunIsSafe(cfg: Config, w: World, es: seq<Effect>, ops: seq<Op>)
    requires RunsOne(cfg, w, es, ops)
    ensures SafeRun(cfg, w, es)
  {
    var all := LogOf(w, ops);
    RunIsSafe(cfg, w, ops);
    hide Ran, Rested, Safe, Play, SafeRun, LogOf;
    SafeRunPrefix(cfg, w, all, |es|);
    assert all[..|es|] == es;
  }

  /** So are those of each: plan names the operations of an application that has any. */
  ghost predicate Runs(cfg: Config, s: Shared, steps: seq<Step>, plan: map<string, seq<Op>>) {
    forall app {:trigger View(s, app)} ::
      RunsOne(cfg, View(s, app), Mine(steps, app), if app in plan then plan[app] else [])
  }

  lemma RunsAreSafe(cfg: Config, s: Shared, steps: seq<Step>, plan: map<string, seq<Op>>)
    requires Runs(cfg, s, steps, plan)
    ensures EachSafe(cfg, s, steps)
  {
    hide View, RunsOne, SafeRun, Mine;
    forall app {:trigger View(s, app)} ensures SafeRun(cfg, View(s, app), Mine(steps, app)) {
      OneRunIsSafe(cfg, View(s, app), Mine(steps, app), if app in plan then plan[app] else []);
    }
  }

  // ---- A crash with several deploys under way ----

  /** The rings whose deploys a crash at this moment cuts off. */
  function CutKeys(s: Shared): set<Key> {
    set app | app in s.issued && s.issued[app].key.app == app :: s.issued[app].key
  }

  function LandedOf(landed: map<string, string>, app: string): Option<string> {
    if app in landed then Some(landed[app]) else None
  }

  function AdriftAfter(s: Shared): map<Key, set<string>> {
    var cut := CutKeys(s);
    map k | k in s.adrift.Keys + cut ::
      if k in cut then {s.issued[k.app].version} + if k in s.adrift then s.adrift[k] else {} else s.adrift[k]
  }

  function RunningAfter(s: Shared, landed: map<string, string>): map<Key, string> {
    var there := set k | k in CutKeys(s) && k.app in landed;
    map k | k in s.running.Keys + there :: if k in there then landed[k.app] else s.running[k]
  }

  /** What the next process finds; landed says which of the deploys had landed by then. */
  function AfterSharedCrash(s: Shared, landed: map<string, string>): Shared {
    s.(issued := map[], doubted := s.doubted + CutKeys(s), adrift := AdriftAfter(s), running := RunningAfter(s, landed))
  }

  ghost predicate IssuedRight(s: Shared) {
    forall app :: app in s.issued ==> s.issued[app].key.app == app
  }

  lemma IssuedStaysRight(s: Shared, step: Step)
    requires IssuedRight(s) && Fits(s, step)
    ensures IssuedRight(ApplyShared(s, step))
  {
  }

  lemma {:induction false} IssuedIsRight(s: Shared, steps: seq<Step>)
    requires IssuedRight(s) && FitAll(s, steps)
    ensures IssuedRight(PlayShared(s, steps))
    decreases |steps|
  {
    if steps != [] {
      hide Fits, FitAll, IssuedRight, ApplyShared;
      LastFits(s, steps);
      IssuedIsRight(s, steps[..|steps| - 1]);
      IssuedStaysRight(PlayShared(s, steps[..|steps| - 1]), steps[|steps| - 1]);
    }
  }

  lemma CutSeen(s: Shared, app: string)
    requires IssuedRight(s)
    ensures forall k :: k in CutKeys(s) && k.app == app <==> app in s.issued && k == s.issued[app].key
  {
  }

  lemma AdriftSeen(s: Shared, app: string)
    requires IssuedRight(s)
    ensures OfApp(AdriftAfter(s), app) == AfterCrash(View(s, app), None).adrift
  {
    CutSeen(s, app);
    hide CutKeys, IssuedRight, RowsOf, HistoryOf, KeysOf;
    if app in s.issued {
      var k, own := s.issued[app].key, OfApp(s.adrift, app);
      assert OfApp(AdriftAfter(s), app) == own[k := {s.issued[app].version} + if k in own then own[k] else {}];
    } else {
      assert OfApp(AdriftAfter(s), app) == OfApp(s.adrift, app);
    }
  }

  lemma RunningSeen(s: Shared, landed: map<string, string>, app: string)
    requires IssuedRight(s)
    ensures OfApp(RunningAfter(s, landed), app)
            == if app in s.issued && app in landed then OfApp(s.running, app)[s.issued[app].key := landed[app]]
               else OfApp(s.running, app)
  {
    CutSeen(s, app);
    hide CutKeys, IssuedRight;
  }

  /** The crash cuts every application off as it would alone. */
  lemma CrashSeen(s: Shared, landed: map<string, string>, app: string)
    requires IssuedRight(s)
    ensures View(AfterSharedCrash(s, landed), app) == AfterCrash(View(s, app), LandedOf(landed, app))
  {
    CutSeen(s, app);
    AdriftSeen(s, app);
    RunningSeen(s, landed, app);
    hide CutKeys, IssuedRight, OfApp, RowsOf, HistoryOf, AdriftAfter, RunningAfter;
    var c, d := AfterSharedCrash(s, landed), AfterCrash(View(s, app), LandedOf(landed, app));
    assert KeysOf(c.doubted, app) == d.doubted;
  }

  /** Nothing is outstanding anywhere. */
  ghost predicate AllRested(cfg: Config, s: Shared) {
    s.issued == map[] && forall app {:trigger View(s, app)} :: Rested(cfg, View(s, app))
  }

  ghost predicate MayAllLand(cfg: Config, s: Shared, landed: map<string, string>) {
    forall app {:trigger View(s, app)} :: MayLand(cfg, View(s, app), LandedOf(landed, app))
  }

  /** A crash at any moment of any interleaving, with a deploy of every application under way:
      every application's world is at rest and safe, no ring falls into doubt but those whose
      deploys were cut off, and each of these has its row if the row was written. */
  lemma SharedCrashIsSafe(cfg: Config, s: Shared, steps: seq<Step>, n: nat, landed: map<string, string>)
    requires IdsUsed(s) && IssuedRight(s) && FitAll(s, steps) && EachSafe(cfg, s, steps) && n <= |steps|
    requires MayAllLand(cfg, PlayShared(s, steps[..n]), landed)
    ensures var cut := PlayShared(s, steps[..n]);
            var c := AfterSharedCrash(cut, landed);
            && AllRested(cfg, c) && c.doubted == cut.doubted + CutKeys(cut)
            && forall app :: app in cut.issued && cut.issued[app].journal != 0 ==>
                 cut.issued[app].journal in c.pending && c.pending[cut.issued[app].journal].key == cut.issued[app].key
  {
    var cut := PlayShared(s, steps[..n]);
    var c := AfterSharedCrash(cut, landed);
    FitFront(s, steps, n);
    IssuedIsRight(s, steps[..n]);
    forall app ensures Rested(cfg, View(c, app)) && Journaled(View(cut, app)) {
      InterleavedIsSafe(cfg, s, steps, n, app);
      assert MayLand(cfg, View(cut, app), LandedOf(landed, app));
      assert Journaled(View(cut, app));
      hide View, Safe, MayLand;
      CrashIsSafe(cfg, View(cut, app), LandedOf(landed, app));
      CrashSeen(cut, landed, app);
    }
    forall app | app in cut.issued && cut.issued[app].journal != 0
      ensures cut.issued[app].journal in c.pending && c.pending[cut.issued[app].journal].key == cut.issued[app].key
    {
      assert Journaled(View(cut, app));
    }
  }

  /** The one world that the next process starts on. */
  function Whole(s: Shared): World {
    World(s.states, s.history, s.pending, s.nextOp, s.running, None, s.doubted, s.adrift)
  }

  lemma WholeIsRested(cfg: Config, s: Shared)
    requires AllRested(cfg, s)
    ensures Rested(cfg, Whole(s))
  {
    var w := Whole(s);
    assert Rested(cfg, View(s, ""));
    forall k | Unpinned(cfg, k) && k !in w.doubted ensures Agrees(w, k) {
      assert Rested(cfg, View(s, k.app));
      IdleAgrees(cfg, View(s, k.app), k);
      SeenAlike(s, k);
    }
    forall id | id in w.pending ensures 0 < id < w.nextOp && w.pending[id].version != "" {
      assert Rested(cfg, View(s, w.pending[id].key.app)) && id in View(s, w.pending[id].key.app).pending;
    }
    forall k | k in w.adrift ensures k in w.doubted {
      assert Rested(cfg, View(s, k.app)) && k in View(s, k.app).adrift;
    }
  }
}
