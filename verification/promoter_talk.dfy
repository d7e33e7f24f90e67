/** What an operation of the promoter asks the outside world, in which order, and what its ending
    has to do with the answers. */
module PromoterTalk {
  import opened Wrappers
  import opened PromoterWorld
  import opened PromoterEffects
  import G = Gates

  /** The answers, in the order in which they are given. */
  datatype Answer =
    | VersionKnown(app: string, version: string, known: bool)
    | GatesSeen(key: Key, version: string, env: G.Environment)
    | RowWritten(written: bool)
    | Deployed(key: Key, version: string, landed: bool)
    | Health(key: Key, want: string, good: bool)
    | Waited(ended: bool)  // between two checks; ended says that the operation's context is over
    | Reported(key: Key, answer: Option<string>)
    | RestartAllowed(key: Key, version: string, allowed: bool)
    | RestartDone(key: Key, version: string, done: bool)

  /** What the caller of an operation sends along for the gates. */
  datatype GateInputs = GateInputs(changeCode: string, serviceCode: string, overrides: bool, reason: string)

  const NO_INPUTS := GateInputs("", "", false, "")

  /** What the answers are judged by. */
  datatype Rules = Rules(cfg: Config, policies: map<string, G.Policy>, inputs: GateInputs, attempts: nat)

  // ---- Health ----

  /** Checks and waits take turns, beginning with a check. */
  ghost predicate InTurns(k: Key, want: string, said: seq<Answer>) {
    forall i {:trigger said[i]} :: 0 <= i < |said| ==>
      if i % 2 == 0 then said[i].Health? && said[i].key == k && said[i].want == want else said[i].Waited?
  }

  /** The answer ends the checking: the ring is healthy, or the context is over. */
  predicate Decides(a: Answer) {
    (a.Health? && a.good) || (a.Waited? && a.ended)
  }

  /** A ring is checked until it is healthy, the context ends, or the checks are used up, if there
      is a limit to them; ok says that it was healthy. */
  ghost predicate Tried(k: Key, want: string, limit: Option<nat>, said: seq<Answer>, ok: bool) {
    && said != [] && InTurns(k, want, said)
    && (forall i :: 0 <= i < |said| - 1 ==> !Decides(said[i]))
    && (limit.Some? ==> |said| <= 2 * limit.value - 1)
    && (Decides(said[|said| - 1]) || (limit.Some? && |said| == 2 * limit.value - 1))
    && (ok <==> said[|said| - 1].Health? && said[|said| - 1].good)
  }

  /** A ring without a health URL is not asked and counts as healthy. */
  ghost predicate Checked(k: Key, rc: RingConfig, want: string, attempts: nat, said: seq<Answer>, ok: bool) {
    if rc.hasHealthUrl then Tried(k, want, Some(attempts), said, ok) else ok && said == []
  }

  /** A pinned ring is not asked for a version: its pipeline decides what it runs. */
  function Wanted(rc: RingConfig, version: string): string {
    if rc.ref != "" then "" else version
  }

  /** What is said once a deploy of `to` has landed: the checks, and on a healthy pinned ring the
      question which version it runs. */
  ghost predicate Confirmed(k: Key, rc: RingConfig, to: string, attempts: nat, said: seq<Answer>, healthy: bool, version: string) {
    if healthy && rc.ref != "" then
      && said != []
      && Checked(k, rc, "", attempts, said[..|said| - 1], true)
      && var a := said[|said| - 1];
      && a.Reported? && a.key == k
      && version == if a.answer.Some? && a.answer.value != "" then a.answer.value else to
    else Checked(k, rc, Wanted(rc, to), attempts, said, healthy) && version == to
  }

  /** The deploy of a seed or a rollback and what follows it. */
  ghost predicate DeploySaid(k: Key, rc: RingConfig, to: string, attempts: nat, said: seq<Answer>, landed: bool, healthy: bool, version: string) {
    && said != [] && said[0] == Deployed(k, to, landed)
    && if landed then Confirmed(k, rc, to, attempts, said[1..], healthy, version) else |said| == 1
  }

  ghost predicate RollbackSaid(k: Key, rc: RingConfig, to: string, attempts: nat, said: seq<Answer>, end: RollbackEnd) {
    match end
    case NotDeployed => DeploySaid(k, rc, to, attempts, said, false, false, to)
    case Restored(version, _, healthy) => DeploySaid(k, rc, to, attempts, said, true, healthy, version)
  }

  ghost predicate SeedSaid(k: Key, rc: RingConfig, to: string, attempts: nat, said: seq<Answer>, end: SeedEnd) {
    match end
    case SeedDeployFailed => DeploySaid(k, rc, to, attempts, said, false, false, to)
    case Seeded(version, _, healthy) => DeploySaid(k, rc, to, attempts, said, true, healthy, version)
  }

  /** After a landed hop: healthy, or unhealthy and then back, if there is a version to go back to. */
  ghost predicate CheckSaid(dst: Key, rc: RingConfig, target: string, prev: string, attempts: nat, said: seq<Answer>, end: HopEnd) {
    match end
    case Shipped(version, _) => Confirmed(dst, rc, target, attempts, said, true, version)
    case NoWayBack(_) => prev == "" && Checked(dst, rc, Wanted(rc, target), attempts, said, false)
    case WentBack(_, back) =>
      && prev != ""
      && exists n: nat ::
           n <= |said| && Checked(dst, rc, Wanted(rc, target), attempts, said[..n], false)
           && RollbackSaid(dst, rc, prev, attempts, said[n..], back)
    case _ => false
  }

  ghost predicate ShipSaid(dst: Key, rc: RingConfig, target: string, prev: string, attempts: nat, said: seq<Answer>, end: HopEnd) {
    && said != [] && said[0] == Deployed(dst, target, !end.DeployFailed?)
    && if end.DeployFailed? then |said| == 1 else CheckSaid(dst, rc, target, prev, attempts, said[1..], end)
  }

  /** The source's live check decides whether there is a deploy at all; then the journal is tried. */
  ghost predicate LiveSaid(src: Key, srcRc: RingConfig, version: string, dst: Key, rc: RingConfig, target: string, prev: string,
                           attempts: nat, said: seq<Answer>, end: HopEnd)
  {
    if srcRc.hasHealthUrl then
      && said != [] && said[0] == Health(src, version, !end.SourceUnhealthy?)
      && if end.SourceUnhealthy? then |said| == 1 else RowThenShip(dst, rc, target, prev, attempts, said[1..], end)
    else !end.SourceUnhealthy? && RowThenShip(dst, rc, target, prev, attempts, said, end)
  }

  ghost predicate RowThenShip(dst: Key, rc: RingConfig, target: string, prev: string, attempts: nat, said: seq<Answer>, end: HopEnd) {
    said != [] && said[0].RowWritten? && ShipSaid(dst, rc, target, prev, attempts, said[1..], end)
  }

  // ---- Gates ----

  /** What the gates of a ring say of a version, in what they see of the outside world. */
  ghost function GateAnswer(rules: Rules, k: Key, version: string, env: G.Environment): Option<G.GateError> {
    var policy := if k.app in rules.policies then Some(rules.policies[k.app]) else None;
    var i := rules.inputs;
    if G.Ungated(policy, env) then None
    else G.FirstError(G.PROMOTION_GATES, G.EffectivePolicy(policy),
                      G.Request(k.ring, version, i.changeCode, i.serviceCode, i.overrides, i.reason), env)
  }

  /** The gates of the ring were asked about this version and let it through. */
  ghost predicate GatesPass(rules: Rules, k: Key, version: string, a: Answer) {
    a.GatesSeen? && a.key == k && a.version == version && GateAnswer(rules, k, version, a.env) == None
  }

  /** They were asked and refused with this error, and that is all that was said. */
  ghost predicate GatesRefuse(rules: Rules, k: Key, version: string, error: OpError, said: seq<Answer>) {
    && |said| == 1 && said[0].GatesSeen? && said[0].key == k && said[0].version == version
    && GateAnswer(rules, k, version, said[0].env).Some?
    && error == GateClosed(GateAnswer(rules, k, version, said[0].env).value)
  }

  // ---- What it comes to ----

  /** A ring with a health URL counts as healthy exactly when its last check was good; it is given
      up only after as many checks as there may be, or at the end of the context. */
  lemma HealthyMeans(k: Key, rc: RingConfig, want: string, attempts: nat, said: seq<Answer>, ok: bool)
    requires Checked(k, rc, want, attempts, said, ok) && rc.hasHealthUrl
    ensures ok <==> exists i :: 0 <= i < |said| && said[i] == Health(k, want, true)
    ensures !ok ==> said[|said| - 1] == Waited(true) || |said| == 2 * attempts - 1
    ensures !ok ==> forall i :: 0 <= i < |said| && said[i].Health? ==> said[i] == Health(k, want, false)
  {
    var last := said[|said| - 1];
    if ok {
      assert last == Health(k, want, true);
    }
    forall i | 0 <= i < |said| && said[i].Health? && said[i].good ensures i == |said| - 1 {
      assert Decides(said[i]);
    }
  }

  /** Without a limit only the end of the context gives up. */
  lemma GivenUpMeans(k: Key, want: string, said: seq<Answer>)
    requires Tried(k, want, None, said, false)
    ensures said[|said| - 1] == Waited(true) && forall i :: 0 <= i < |said| - 1 ==> said[i] == Health(k, want, false) || said[i] == Waited(false)
  {
    forall i | 0 <= i < |said| - 1 ensures said[i] == Health(k, want, false) || said[i] == Waited(false) {
      assert !Decides(said[i]);
    }
  }

  /** One more round of checking without an answer that decides. */
  ghost predicate Undecided(k: Key, want: string, said: seq<Answer>) {
    InTurns(k, want, said) && forall i :: 0 <= i < |said| ==> !Decides(said[i])
  }

  // ---- The answers decide the ending ----

  /** Only one beginning of what is said is a finished round of checks. */
  lemma TriedOnce(k: Key, want: string, limit: Option<nat>, said: seq<Answer>, n: nat, m: nat, a: bool, b: bool)
    requires n <= m <= |said| && Tried(k, want, limit, said[..n], a) && Tried(k, want, limit, said[..m], b)
    ensures n == m && a == b
  {
    assert n >= 1 && said[..m][n - 1] == said[..n][n - 1];
  }

  lemma CheckedOnce(k: Key, rc: RingConfig, want: string, attempts: nat, said: seq<Answer>, n: nat, m: nat, a: bool, b: bool)
    requires n <= |said| && m <= |said| && Checked(k, rc, want, attempts, said[..n], a) && Checked(k, rc, want, attempts, said[..m], b)
    ensures n == m && a == b
  {
    if rc.hasHealthUrl {
      if n <= m {
        TriedOnce(k, want, Some(attempts), said, n, m, a, b);
      } else {
        TriedOnce(k, want, Some(attempts), said, m, n, b, a);
      }
    }
  }

  /** How many of the answers are those of the checks. */
  ghost predicate ChecksEnd(k: Key, rc: RingConfig, to: string, attempts: nat, said: seq<Answer>, n: nat, ok: bool) {
    n <= |said| && Checked(k, rc, Wanted(rc, to), attempts, said[..n], ok)
  }

  lemma ConfirmedChecks(k: Key, rc: RingConfig, to: string, attempts: nat, said: seq<Answer>, healthy: bool, version: string)
    requires Confirmed(k, rc, to, attempts, said, healthy, version)
    ensures ChecksEnd(k, rc, to, attempts, said, if healthy && rc.ref != "" then |said| - 1 else |said|, healthy)
  {
    assert said[..|said|] == said;
  }

  lemma ConfirmedOnce(k: Key, rc: RingConfig, to: string, attempts: nat, said: seq<Answer>, a: bool, v: string, b: bool, w: string)
    requires Confirmed(k, rc, to, attempts, said, a, v) && Confirmed(k, rc, to, attempts, said, b, w)
    ensures a == b && v == w
  {
    ConfirmedChecks(k, rc, to, attempts, said, a, v);
    ConfirmedChecks(k, rc, to, attempts, said, b, w);
    CheckedOnce(k, rc, Wanted(rc, to), attempts, said, if a && rc.ref != "" then |said| - 1 else |said|,
                if b && rc.ref != "" then |said| - 1 else |said|, a, b);
  }

  predicate SameRollback(a: RollbackEnd, b: RollbackEnd) {
    (a.NotDeployed? && b.NotDeployed?) || (a.Restored? && b.Restored? && a.version == b.version && a.healthy == b.healthy)
  }

  predicate SameHop(a: HopEnd, b: HopEnd) {
    || (a.SourceUnhealthy? && b.SourceUnhealthy?) || (a.DeployFailed? && b.DeployFailed?)
    || (a.Shipped? && b.Shipped? && a.version == b.version) || (a.NoWayBack? && b.NoWayBack?)
    || (a.WentBack? && b.WentBack? && SameRollback(a.back, b.back))
  }

  predicate SameSeed(a: SeedEnd, b: SeedEnd) {
    (a.SeedDeployFailed? && b.SeedDeployFailed?) || (a.Seeded? && b.Seeded? && a.version == b.version && a.healthy == b.healthy)
  }

  /** A rollback ends as the answers to its deploy, its checks and its question say. */
  lemma AnswersDecideRollback(k: Key, rc: RingConfig, to: string, attempts: nat, said: seq<Answer>, a: RollbackEnd, b: RollbackEnd)
    requires RollbackSaid(k, rc, to, attempts, said, a) && RollbackSaid(k, rc, to, attempts, said, b)
    ensures SameRollback(a, b)
  {
    if a.Restored? && b.Restored? {
      ConfirmedOnce(k, rc, to, attempts, said[1..], a.healthy, a.version, b.healthy, b.version);
    }
  }

  lemma AnswersDecideSeed(k: Key, rc: RingConfig, to: string, attempts: nat, said: seq<Answer>, a: SeedEnd, b: SeedEnd)
    requires SeedSaid(k, rc, to, attempts, said, a) && SeedSaid(k, rc, to, attempts, said, b)
    ensures SameSeed(a, b)
  {
    if a.Seeded? && b.Seeded? {
      ConfirmedOnce(k, rc, to, attempts, said[1..], a.healthy, a.version, b.healthy, b.version);
    }
  }

  /** Where the checks of a landed hop end, and with what. */
  lemma CheckSaidEnds(dst: Key, rc: RingConfig, target: string, prev: string, attempts: nat, said: seq<Answer>, end: HopEnd) returns (n: nat)
    requires CheckSaid(dst, rc, target, prev, attempts, said, end)
    ensures ChecksEnd(dst, rc, target, attempts, said, n, end.Shipped?)
    ensures end.NoWayBack? ==> prev == ""
    ensures end.WentBack? ==> prev != "" && RollbackSaid(dst, rc, prev, attempts, said[n..], end.back)
  {
    assert said[..|said|] == said;
    match end {
      case Shipped(version, _) =>
        ConfirmedChecks(dst, rc, target, attempts, said, true, version);
        n := if rc.ref != "" then |said| - 1 else |said|;
      case NoWayBack(_) => n := |said|;
      case WentBack(_, back) =>
        n :| n <= |said| && Checked(dst, rc, Wanted(rc, target), attempts, said[..n], false)
             && RollbackSaid(dst, rc, prev, attempts, said[n..], back);
    }
  }

  /** A landed hop is shipped exactly when its checks end healthy; it goes back only when they have
      not, and then exactly if there is a version to go back to. */
  lemma AnswersDecideHop(dst: Key, rc: RingConfig, target: string, prev: string, attempts: nat, said: seq<Answer>, a: HopEnd, b: HopEnd)
    requires ShipSaid(dst, rc, target, prev, attempts, said, a) && ShipSaid(dst, rc, target, prev, attempts, said, b)
    ensures SameHop(a, b)
  {
    if !a.DeployFailed? {
      var rest := said[1..];
      hide Checked, RollbackSaid, Confirmed;
      var n := CheckSaidEnds(dst, rc, target, prev, attempts, rest, a);
      var m := CheckSaidEnds(dst, rc, target, prev, attempts, rest, b);
      CheckedOnce(dst, rc, Wanted(rc, target), attempts, rest, n, m, a.Shipped?, b.Shipped?);
      if a.Shipped? {
        ConfirmedOnce(dst, rc, target, attempts, rest, true, a.version, true, b.version);
      } else if a.WentBack? {
        AnswersDecideRollback(dst, rc, prev, attempts, rest[n..], a.back, b.back);
      }
    }
  }
}
