/** When each promotion gate refuses, is overridden or is skipped, and which refusal a caller gets:
    told by the policy, the request and what the outside world answers. */
module GateLaws {
  import opened Wrappers
  import opened Texts
  import S = SecurityVerdict
  import opened Windows
  import opened Gates
  import opened GateTheorems

  /** A gate that lists no rings guards acceptance and production. */
  predicate Listed(rings: seq<string>, ring: string) {
    if rings == [] then ring == "acc" || ring == "prod" else ring in rings
  }

  predicate ListedIn(rings: Option<seq<string>>, ring: string) {
    rings.Some? && Listed(rings.value, ring)
  }

  predicate InMaintenance(pol: Policy, ring: string) {
    pol.maintenance.Some? && Listed(pol.maintenance.value.rings, ring)
  }

  /** A letter with its case taken off, as far as it can occur in the demo code. */
  function Fold(c: char): char {
    if c == 'T' then 't' else if c == 'E' then 'e' else if c == 'S' || c == '\U{017F}' then 's' else c
  }

  function FoldAll(s: string): string {
    if s == "" then "" else [Fold(s[0])] + FoldAll(s[1..])
  }

  /** The code is accepted without asking anyone exactly when it folds to "test". */
  lemma DemoCodeIsTest(s: string)
    ensures IsDemoCode(s) <==> FoldAll(s) == "test"
  {
    FoldLength(s);
    if |s| == 4 {
      assert FoldAll(s[4..]) == "" && s[3..][1..] == s[4..] && s[2..][1..] == s[3..] && s[1..][1..] == s[2..];
      assert FoldAll(s[3..]) == [Fold(s[3])] + FoldAll(s[4..]);
      assert FoldAll(s[2..]) == [Fold(s[2])] + FoldAll(s[3..]);
      assert FoldAll(s[1..]) == [Fold(s[1])] + FoldAll(s[2..]);
      assert FoldAll(s) == [Fold(s[0]), Fold(s[1]), Fold(s[2]), Fold(s[3])];
    }
  }

  lemma {:induction false} FoldLength(s: string)
    ensures |FoldAll(s)| == |s|
  {
    if s != "" {
      FoldLength(s[1..]);
    }
  }

  predicate CustomSays(g: CustomGate, r: Request, env: Environment, answer: CustomAnswer) {
    Listed(g.rings, r.ring) && env.custom(g, r.ring, r.version, r.changeCode, r.serviceCode) == answer
  }

  /** What has to be the case for a caller to be refused with this error, as far as its own gate goes. */
  ghost predicate Refuses(e: GateError, pol: Policy, r: Request, env: Environment) {
    match e
    case WindowsUnreadable => InMaintenance(pol, r.ring) && !WindowOpen(pol.maintenance.value, env, r.ring) && env.adHoc == None
    case MaintenanceWindowClosed => InMaintenance(pol, r.ring) && !WindowOpen(pol.maintenance.value, env, r.ring) && env.adHoc.Some?
    case SignoffRequired => ListedIn(pol.signoff, r.ring) && env.signoffs(r.ring, r.version) == NoSignoff
    case SignoffUnreadable => ListedIn(pol.signoff, r.ring) && env.signoffs(r.ring, r.version) == SignoffError
    case SignoffNoGo => ListedIn(pol.signoff, r.ring) && env.signoffs(r.ring, r.version) == Decided(false)
    case ChangeRequestRequired => ListedIn(pol.changeRequest, r.ring) && Blank(r.changeCode)
    case ChangeRequestInvalid => AsksForCode(pol, r) && env.codes(r.ring, Trim(r.changeCode)) == Rejected
    case ChangeRequestUnreachable => AsksForCode(pol, r) && env.codes(r.ring, Trim(r.changeCode)) == Unreachable
    case GrafanaOverrideReason => ListedIn(pol.grafana, r.ring) && env.grafanaBlocks(r.ring) && r.overrides && Blank(r.reason)
    case GrafanaNoGo => ListedIn(pol.grafana, r.ring) && env.grafanaBlocks(r.ring) && !r.overrides
    case SecurityUnreadable => SecurityGuards(r, env) && env.security.value.1 == None
    case SecurityScanMissing => SecurityGuards(r, env) && env.security.value.1 == Some(S.Pending)
    case SecurityNoGo => SecurityGuards(r, env) && env.security.value.1 in {Some(S.NoGo), Some(S.NoVersion)}
    case CustomRefused(name) =>
      CustomRefuses(pol.custom, r, env, name)
  }

  /** The change-request gate has a code to look up. */
  ghost predicate AsksForCode(pol: Policy, r: Request) {
    ListedIn(pol.changeRequest, r.ring) && !Blank(r.changeCode) && FoldAll(Trim(r.changeCode)) != "test"
  }

  predicate SecurityGuards(r: Request, env: Environment) {
    env.security.Some? && Listed(env.security.value.0, r.ring)
  }

  /** The gate that gives an error, by its place in the order of the gates. */
  function Place(e: GateError): nat {
    match e
    case WindowsUnreadable => 0
    case MaintenanceWindowClosed => 0
    case SignoffRequired => 1
    case SignoffUnreadable => 1
    case SignoffNoGo => 1
    case ChangeRequestRequired => 2
    case ChangeRequestInvalid => 2
    case ChangeRequestUnreachable => 2
    case GrafanaOverrideReason => 3
    case GrafanaNoGo => 3
    case SecurityUnreadable => 4
    case SecurityScanMissing => 4
    case SecurityNoGo => 4
    case CustomRefused(_) => 5
  }

  /** The first custom gate that refuses is the one at i. */
  ghost predicate FirstRefusal(gs: seq<CustomGate>, r: Request, env: Environment, i: nat) {
    i < |gs| && CustomSays(gs[i], r, env, Refused) && forall j :: 0 <= j < i ==> !CustomSays(gs[j], r, env, Refused)
  }

  /** The first custom gate that refuses has this name. */
  ghost predicate CustomRefuses(gs: seq<CustomGate>, r: Request, env: Environment, name: string) {
    exists i: nat :: FirstRefusal(gs, r, env, i) && gs[i].name == name
  }

  lemma ShiftRefusal(gs: seq<CustomGate>, r: Request, env: Environment, i: nat)
    requires gs != [] && !CustomSays(gs[0], r, env, Refused)
    ensures FirstRefusal(gs, r, env, i + 1) <==> FirstRefusal(gs[1..], r, env, i)
  {
    hide CustomSays;
    if FirstRefusal(gs, r, env, i + 1) {
      assert forall j :: 0 <= j < i ==> gs[1..][j] == gs[j + 1];
    }
    if FirstRefusal(gs[1..], r, env, i) {
      assert forall j :: 0 < j < i + 1 ==> gs[j] == gs[1..][j - 1];
    }
  }

  lemma {:induction false} CustomRefusals(gs: seq<CustomGate>, r: Request, env: Environment, name: string)
    ensures JudgeCustom(gs, r, env) == Failed(CustomRefused(name)) <==> CustomRefuses(gs, r, env, name)
    ensures JudgeCustom(gs, r, env).Failed? ==> JudgeCustom(gs, r, env).error.CustomRefused?
  {
    if gs != [] {
      var rest := gs[1..];
      CustomRefusals(rest, r, env, name);
      GuardsAreListed(gs[0].rings, r.ring);
      assert CustomSays(gs[0], r, env, Refused) <==> AnswerOf(gs[0], r, env).Refused?;
      hide CustomSays, AnswerOf;
      if CustomSays(gs[0], r, env, Refused) {
        assert FirstRefusal(gs, r, env, 0);
      } else {
        if i: nat :| FirstRefusal(gs, r, env, i) && gs[i].name == name {
          ShiftRefusal(gs, r, env, i - 1);
        }
        if i: nat :| FirstRefusal(rest, r, env, i) && rest[i].name == name {
          ShiftRefusal(gs, r, env, i);
        }
      }
    }
  }

  lemma GuardsAreListed(rings: seq<string>, ring: string)
    ensures Guards(rings, ring) <==> Listed(rings, ring)
  {
    assert ring in ["acc", "prod"] <==> ring == "acc" || ring == "prod";
  }

  lemma MaintenanceFails(pol: Policy, r: Request, env: Environment, e: GateError)
    ensures JudgeMaintenance(pol, r, env) == Failed(e) <==> Refuses(e, pol, r, env) && Place(e) == 0
  {
    if pol.maintenance.Some? { GuardsAreListed(pol.maintenance.value.rings, r.ring); }
    hide Guards, Listed, WindowOpen, CustomRefuses, Blank;
  }

  lemma SignoffFails(pol: Policy, r: Request, env: Environment, e: GateError)
    ensures JudgeSignoff(pol, r, env) == Failed(e) <==> Refuses(e, pol, r, env) && Place(e) == 1
  {
    if pol.signoff.Some? { GuardsAreListed(pol.signoff.value, r.ring); }
    hide Guards, Listed, WindowOpen, CustomRefuses, Blank;
  }

  lemma ChangeRequestFails(pol: Policy, r: Request, env: Environment, e: GateError)
    ensures JudgeChangeRequest(pol, r, env) == Failed(e) <==> Refuses(e, pol, r, env) && Place(e) == 2
  {
    NothingLeft(r.changeCode);
    DemoCodeIsTest(Trim(r.changeCode));
    if pol.changeRequest.Some? { GuardsAreListed(pol.changeRequest.value, r.ring); }
    hide Trim, Blank, IsDemoCode, FoldAll, Guards, Listed, WindowOpen, CustomRefuses;
  }

  lemma GrafanaFails(pol: Policy, r: Request, env: Environment, e: GateError)
    ensures JudgeGrafana(pol, r, env) == Failed(e) <==> Refuses(e, pol, r, env) && Place(e) == 3
  {
    NothingLeft(r.reason);
    if pol.grafana.Some? { GuardsAreListed(pol.grafana.value, r.ring); }
    hide Trim, Blank, Guards, Listed, WindowOpen, CustomRefuses;
  }

  lemma SecurityFails(pol: Policy, r: Request, env: Environment, e: GateError)
    ensures JudgeSecurity(r, env) == Failed(e) <==> Refuses(e, pol, r, env) && Place(e) == 4
  {
    if env.security.Some? { GuardsAreListed(env.security.value.0, r.ring); }
    hide Blank, Guards, Listed, WindowOpen, CustomRefuses;
  }

  lemma CustomFails(pol: Policy, r: Request, env: Environment, e: GateError)
    ensures JudgeCustom(pol.custom, r, env) == Failed(e) <==> Refuses(e, pol, r, env) && Place(e) == 5
  {
    CustomRefusals(pol.custom, r, env, if e.CustomRefused? then e.name else "");
    hide Blank, Listed, WindowOpen, JudgeCustom, CustomRefuses, CustomSays;
  }

  /** A gate fails with exactly the errors that are its own and whose conditions hold. */
  lemma FailsWhenItRefuses(g: Gate, pol: Policy, r: Request, env: Environment, e: GateError)
    ensures Judge(g, pol, r, env) == Failed(e) <==> Refuses(e, pol, r, env) && PROMOTION_GATES[Place(e)] == g
  {
    hide JudgeMaintenance, JudgeSignoff, JudgeChangeRequest, JudgeGrafana, JudgeSecurity, JudgeCustom, Refuses;
    match g {
      case Maintenance => MaintenanceFails(pol, r, env, e);
      case QaSignoff => SignoffFails(pol, r, env, e);
      case ChangeRequest => ChangeRequestFails(pol, r, env, e);
      case Grafana => GrafanaFails(pol, r, env, e);
      case AppSec => SecurityFails(pol, r, env, e);
      case Custom => CustomFails(pol, r, env, e);
    }
  }

  /** Every gate stands in the order once. */
  lemma DistinctGates(j: nat)
    requires j < |PROMOTION_GATES|
    ensures forall e :: PROMOTION_GATES[Place(e)] == PROMOTION_GATES[j] ==> Place(e) == j
  {
  }

  /** A caller gets an error exactly when its gate refuses with it and no gate before that one
      refuses with any. */
  lemma FirstRefusalWins(pol: Policy, r: Request, env: Environment, e: GateError)
    ensures FirstError(PROMOTION_GATES, pol, r, env) == Some(e) <==>
              Refuses(e, pol, r, env) && forall d :: Place(d) < Place(e) ==> !Refuses(d, pol, r, env)
  {
    var p := PROMOTION_GATES;
    hide Judge, Refuses, FirstError;
    FirstFailureWins(p, pol, r, env, e);
    forall g, d ensures Judge(g, pol, r, env) == Failed(d) <==> Refuses(d, pol, r, env) && p[Place(d)] == g {
      FailsWhenItRefuses(g, pol, r, env, d);
    }
    if i: nat :| FirstAt(p, pol, r, env, e, i) {
      assert p[Place(e)] == p[i] && i == Place(e);
      forall d | Place(d) < Place(e) ensures !Refuses(d, pol, r, env) {
        assert Open(p[Place(d)], pol, r, env);
      }
    }
    if Refuses(e, pol, r, env) && forall d :: Place(d) < Place(e) ==> !Refuses(d, pol, r, env) {
      forall j | 0 <= j < Place(e) ensures Open(p[j], pol, r, env) {
        DistinctGates(j);
      }
      assert FirstAt(p, pol, r, env, e, Place(e));
    }
  }

  /** What makes a gate skip: it is not configured or does not guard the ring. */
  ghost predicate Idle(g: Gate, pol: Policy, r: Request, env: Environment) {
    match g
    case Maintenance => !InMaintenance(pol, r.ring)
    case QaSignoff => !ListedIn(pol.signoff, r.ring)
    case ChangeRequest => !ListedIn(pol.changeRequest, r.ring)
    case Grafana => !ListedIn(pol.grafana, r.ring)
    case AppSec => !SecurityGuards(r, env)
    case Custom => forall c :: c in pol.custom ==> !Listed(c.rings, r.ring) || CustomSays(c, r, env, NotApplicable)
  }

  /** A gate leaves no trace exactly when it is idle, and is overridden exactly when it is the
      dashboard's, which blocks, and the caller gives a reason. */
  lemma SkippedOrOverridden(g: Gate, pol: Policy, r: Request, env: Environment)
    ensures Judge(g, pol, r, env) == Skipped <==> Idle(g, pol, r, env)
    ensures Judge(g, pol, r, env) == Overridden <==>
              g == Grafana && ListedIn(pol.grafana, r.ring) && env.grafanaBlocks(r.ring) && r.overrides && !Blank(r.reason)
  {
    NothingLeft(r.reason);
    if pol.maintenance.Some? { GuardsAreListed(pol.maintenance.value.rings, r.ring); }
    if pol.signoff.Some? { GuardsAreListed(pol.signoff.value, r.ring); }
    if pol.changeRequest.Some? { GuardsAreListed(pol.changeRequest.value, r.ring); }
    if pol.grafana.Some? { GuardsAreListed(pol.grafana.value, r.ring); }
    if env.security.Some? { GuardsAreListed(env.security.value.0, r.ring); }
    forall c | c in pol.custom
      ensures AnswerOf(c, r, env).NotApplicable? <==> !Listed(c.rings, r.ring) || CustomSays(c, r, env, NotApplicable)
    {
      GuardsAreListed(c.rings, r.ring);
    }
    hide Trim, Blank, IsDemoCode, Guards, Listed, WindowOpen;
  }
}
