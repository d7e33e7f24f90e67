/** The promotion gates (internal/promoter/gates.go, gate.go): an ordered list, the first failure
    wins, one gate can be overridden, and every verdict reached goes into the audit ledger. What
    the outside world answers is an Environment, the same for two evaluations that are compared. */
module Gates {
  import opened Wrappers
  import opened Texts
  import S = SecurityVerdict
  import opened Windows

  datatype Gate = Maintenance | QaSignoff | ChangeRequest | Grafana | AppSec | Custom

  const PROMOTION_GATES: seq<Gate> := [Maintenance, QaSignoff, ChangeRequest, Grafana, AppSec, Custom]

  datatype GateError =
    | WindowsUnreadable
    | MaintenanceWindowClosed
    | SignoffRequired
    | SignoffUnreadable
    | SignoffNoGo
    | ChangeRequestRequired
    | ChangeRequestInvalid
    | ChangeRequestUnreachable
    | GrafanaOverrideReason
    | GrafanaNoGo
    | SecurityUnreadable
    | SecurityScanMissing
    | SecurityNoGo
    | CustomRefused(name: string)

  datatype GateVerdict = Skipped | Passed | Overridden | Failed(error: GateError)

  /** A gate that is not configured is None; one that lists no rings guards the default ones. */
  datatype Policy = Policy(
    maintenance: Option<MaintenancePolicy>,
    signoff: Option<seq<string>>,
    changeRequest: Option<seq<string>>,
    grafana: Option<seq<string>>,
    custom: seq<CustomGate>)

  datatype MaintenancePolicy = MaintenancePolicy(rings: seq<string>, recurring: seq<Recurring>)

  datatype CustomGate = CustomGate(name: string, rings: seq<string>)

  const NO_GATES := Policy(None, None, None, None, [])

  datatype Request = Request(ring: string, version: string, changeCode: string, serviceCode: string,
                             overrides: bool, reason: string)

  datatype Signoff = NoSignoff | SignoffError | Decided(go: bool)

  datatype CodeAnswer = Accepted | Rejected | Unreachable

  datatype CustomAnswer = NotApplicable | Satisfied | Refused

  /** security is the effective security policy's rings and the verdict on the version, if there
      is a policy; a verdict of None is an evaluation that failed. */
  datatype Environment = Environment(
    now: int,
    adHoc: Option<seq<AdHoc>>,
    signoffs: (string, string) -> Signoff,
    codes: (string, string) -> CodeAnswer,
    grafanaBlocks: string -> bool,
    security: Option<(seq<string>, Option<S.Verdict>)>,
    custom: (CustomGate, string, string, string, string) -> CustomAnswer)

  /** What the ledger gets: a gate's verdict, or the override that came before it. A custom
      refusal is filed under that custom gate's own name. */
  datatype Event = GateEvent(gate: Gate, verdict: GateVerdict) | OverrideEvent(reason: string)

  // ---- Texts ----

  /** The demo code in any case; the long s folds to s. */
  predicate IsDemoCode(s: string) {
    |s| == 4 && s[0] in {'t', 'T'} && s[1] in {'e', 'E'} && s[2] in {'s', 'S', '\U{017F}'} && s[3] in {'t', 'T'}
  }

  predicate Guards(rings: seq<string>, ring: string) {
    ring in if rings == [] then ["acc", "prod"] else rings
  }

  // ---- One gate ----

  ghost predicate WindowOpen(m: MaintenancePolicy, env: Environment, ring: string) {
    || (exists w :: w in m.recurring && w.Active(env.now))
    || (env.adHoc.Some? && exists w :: w in env.adHoc.value && (w.ring == "" || w.ring == ring) && w.startsAt <= env.now < w.endsAt)
  }

  ghost function JudgeMaintenance(pol: Policy, r: Request, env: Environment): GateVerdict {
    if pol.maintenance == None || !Guards(pol.maintenance.value.rings, r.ring) then Skipped
    else if WindowOpen(pol.maintenance.value, env, r.ring) then Passed
    else if env.adHoc == None then Failed(WindowsUnreadable)
    else Failed(MaintenanceWindowClosed)
  }

  function JudgeSignoff(pol: Policy, r: Request, env: Environment): GateVerdict {
    if pol.signoff == None || !Guards(pol.signoff.value, r.ring) then Skipped
    else
      match env.signoffs(r.ring, r.version)
      case NoSignoff => Failed(SignoffRequired)
      case SignoffError => Failed(SignoffUnreadable)
      case Decided(go) => if go then Passed else Failed(SignoffNoGo)
  }

  function JudgeChangeRequest(pol: Policy, r: Request, env: Environment): GateVerdict {
    if pol.changeRequest == None || !Guards(pol.changeRequest.value, r.ring) then Skipped
    else
      var code := Trim(r.changeCode);
      if code == "" then Failed(ChangeRequestRequired)
      else if IsDemoCode(code) then Passed
      else
        match env.codes(r.ring, code)
        case Accepted => Passed
        case Rejected => Failed(ChangeRequestInvalid)
        case Unreachable => Failed(ChangeRequestUnreachable)
  }

  function JudgeGrafana(pol: Policy, r: Request, env: Environment): GateVerdict {
    if pol.grafana == None || !Guards(pol.grafana.value, r.ring) then Skipped
    else if !env.grafanaBlocks(r.ring) then Passed
    else if !r.overrides then Failed(GrafanaNoGo)
    else if Trim(r.reason) == "" then Failed(GrafanaOverrideReason)
    else Overridden
  }

  function JudgeSecurity(r: Request, env: Environment): GateVerdict {
    if env.security == None || !Guards(env.security.value.0, r.ring) then Skipped
    else
      match env.security.value.1
      case None => Failed(SecurityUnreadable)
      case Some(v) =>
        match v
        case Go => Passed
        case Pending => Failed(SecurityScanMissing)
        case _ => Failed(SecurityNoGo)
  }

  function AnswerOf(g: CustomGate, r: Request, env: Environment): CustomAnswer {
    if Guards(g.rings, r.ring) then env.custom(g, r.ring, r.version, r.changeCode, r.serviceCode) else NotApplicable
  }

  /** The custom gates count as one: the first refusal decides, and it is skipped when none of
      them applies. */
  ghost function JudgeCustom(gs: seq<CustomGate>, r: Request, env: Environment): (v: GateVerdict)
    ensures !v.Overridden?
    ensures v.Failed? <==> exists g :: g in gs && AnswerOf(g, r, env).Refused?
    ensures v.Skipped? <==> forall g :: g in gs ==> AnswerOf(g, r, env).NotApplicable?
  {
    if gs == [] then Skipped
    else
      match AnswerOf(gs[0], r, env)
      case Refused => Failed(CustomRefused(gs[0].name))
      case Satisfied => var rest := JudgeCustom(gs[1..], r, env); if rest.Failed? then rest else Passed
      case NotApplicable => JudgeCustom(gs[1..], r, env)
  }

  ghost function Judge(g: Gate, pol: Policy, r: Request, env: Environment): GateVerdict {
    match g
    case Maintenance => JudgeMaintenance(pol, r, env)
    case QaSignoff => JudgeSignoff(pol, r, env)
    case ChangeRequest => JudgeChangeRequest(pol, r, env)
    case Grafana => JudgeGrafana(pol, r, env)
    case AppSec => JudgeSecurity(r, env)
    case Custom => JudgeCustom(pol.custom, r, env)
  }

  function OverrideEvents(v: GateVerdict, r: Request): seq<Event> {
    if v.Overridden? then [OverrideEvent(Trim(r.reason))] else []
  }

  /** What one gate adds to the ledger. */
  function EventsOf(g: Gate, v: GateVerdict, r: Request): seq<Event> {
    if v.Skipped? then [] else OverrideEvents(v, r) + [GateEvent(g, v)]
  }

  // ---- The list of gates ----

  ghost function FirstError(gates: seq<Gate>, pol: Policy, r: Request, env: Environment): Option<GateError> {
    if gates == [] then None
    else if Judge(gates[0], pol, r, env).Failed? then Some(Judge(gates[0], pol, r, env).error)
    else FirstError(gates[1..], pol, r, env)
  }

  ghost function EventsUntilError(gates: seq<Gate>, pol: Policy, r: Request, env: Environment): seq<Event> {
    if gates == [] then []
    else
      var v := Judge(gates[0], pol, r, env);
      EventsOf(gates[0], v, r) + if v.Failed? then [] else EventsUntilError(gates[1..], pol, r, env)
  }

  /** An app without a policy of its own is gated by the effective security policy alone. */
  ghost predicate Ungated(pol: Option<Policy>, env: Environment) {
    pol == None && env.security == None
  }

  function EffectivePolicy(pol: Option<Policy>): Policy {
    if pol.Some? then pol.value else NO_GATES
  }

  class GateKeeper {
    var ledger: seq<Event>

    constructor ()
      ensures ledger == []
    {
      ledger := [];
    }

    method MaintenanceOpenAt(m: MaintenancePolicy, env: Environment, ring: string) returns (open: Option<bool>)
      ensures open == Some(true) <==> WindowOpen(m, env, ring)
      ensures open == None <==> !WindowOpen(m, env, ring) && env.adHoc == None
    {
      var recurring := OpenAt(m.recurring, env.now);
      if recurring {
        return Some(true);
      }
      if env.adHoc == None {
        return None;
      }
      var wins := env.adHoc.value;
      for i := 0 to |wins|
        invariant forall w :: w in wins[..i] ==> !((w.ring == "" || w.ring == ring) && w.startsAt <= env.now < w.endsAt)
      {
        assert wins[i] in wins && wins[..i + 1] == wins[..i] + [wins[i]];
        if wins[i].Covers(ring) && wins[i].Active(env.now) {
          return Some(true);
        }
      }
      assert wins[..|wins|] == wins;
      open := Some(false);
    }

    method EvaluateCustom(gs: seq<CustomGate>, r: Request, env: Environment) returns (v: GateVerdict)
      ensures v == JudgeCustom(gs, r, env)
    {
      var passed := 0;
      for i := 0 to |gs|
        invariant passed >= 0
        invariant JudgeCustom(gs, r, env)
                  == if passed > 0 && !JudgeCustom(gs[i..], r, env).Failed? then Passed else JudgeCustom(gs[i..], r, env)
      {
        if !Guards(gs[i].rings, r.ring) {
          continue;
        }
        match env.custom(gs[i], r.ring, r.version, r.changeCode, r.serviceCode) {
          case NotApplicable =>
          case Refused => return Failed(CustomRefused(gs[i].name));
          case Satisfied => passed := passed + 1;
        }
      }
      v := if passed == 0 then Skipped else Passed;
    }

    /** One gate; an accepted override is filed before the verdict, unless this is a pre-check. */
    method Evaluate(g: Gate, pol: Policy, r: Request, env: Environment, validateOnly: bool) returns (v: GateVerdict)
      modifies this
      ensures v == Judge(g, pol, r, env)
      ensures ledger == old(ledger) + if validateOnly then [] else OverrideEvents(v, r)
    {
      match g {
        case Maintenance =>
          if pol.maintenance == None || !Guards(pol.maintenance.value.rings, r.ring) {
            v := Skipped;
          } else {
            var open := MaintenanceOpenAt(pol.maintenance.value, env, r.ring);
            v := if open == None then Failed(WindowsUnreadable)
                 else if open.value then Passed else Failed(MaintenanceWindowClosed);
          }
        case QaSignoff => v := JudgeSignoff(pol, r, env);
        case ChangeRequest => v := JudgeChangeRequest(pol, r, env);
        case Grafana =>
          v := JudgeGrafana(pol, r, env);
          if v.Overridden? && !validateOnly {
            ledger := ledger + [OverrideEvent(Trim(r.reason))];
          }
        case AppSec => v := JudgeSecurity(r, env);
        case Custom => v := EvaluateCustom(pol.custom, r, env);
      }
      assert old(ledger) + [] == old(ledger);
    }

    /** Walks the gates in order and stops at the first that fails. */
    method WalkGates(gates: seq<Gate>, pol: Policy, r: Request, env: Environment, validateOnly: bool) returns (error: Option<GateError>)
      modifies this
      ensures error == FirstError(gates, pol, r, env)
      ensures ledger == old(ledger) + if validateOnly then [] else EventsUntilError(gates, pol, r, env)
    {
      hide Judge, FirstError, EventsUntilError, EventsOf, OverrideEvents;
      ghost var filed: seq<Event> := [];
      assert gates[0..] == gates;
      for i := 0 to |gates|
        invariant FirstError(gates, pol, r, env) == FirstError(gates[i..], pol, r, env)
        invariant EventsUntilError(gates, pol, r, env) == filed + EventsUntilError(gates[i..], pol, r, env)
        invariant ledger == old(ledger) + if validateOnly then [] else filed
      {
        ghost var before := ledger;
        var v := Evaluate(gates[i], pol, r, env, validateOnly);
        GateStep(gates, i, pol, r, env);
        EventsInOrder(gates[i], v, r);
        filed := filed + EventsOf(gates[i], v, r);
        if v.Skipped? {
          continue;
        }
        if !validateOnly {
          ledger := ledger + [GateEvent(gates[i], v)];
        }
        if v.Failed? {
          return Some(v.error);
        }
      }
      NoMoreGates(gates[|gates|..], pol, r, env);
      error := None;
    }

    method EvaluateGates(policy: Option<Policy>, r: Request, env: Environment, validateOnly: bool) returns (error: Option<GateError>)
      modifies this
      ensures Ungated(policy, env) ==> error == None && ledger == old(ledger)
      ensures !Ungated(policy, env) ==> error == FirstError(PROMOTION_GATES, EffectivePolicy(policy), r, env)
      ensures !Ungated(policy, env) ==>
                ledger == old(ledger) + if validateOnly then [] else EventsUntilError(PROMOTION_GATES, EffectivePolicy(policy), r, env)
    {
      hide FirstError, EventsUntilError;
      if policy == None && env.security == None {
        return None;
      }
      error := WalkGates(PROMOTION_GATES, EffectivePolicy(policy), r, env, validateOnly);
    }
  }

  lemma NoMoreGates(gates: seq<Gate>, pol: Policy, r: Request, env: Environment)
    requires gates == []
    ensures FirstError(gates, pol, r, env) == None && EventsUntilError(gates, pol, r, env) == []
  {
  }

  lemma EventsInOrder(g: Gate, v: GateVerdict, r: Request)
    ensures v.Skipped? ==> EventsOf(g, v, r) == [] && OverrideEvents(v, r) == []
    ensures !v.Skipped? ==> EventsOf(g, v, r) == OverrideEvents(v, r) + [GateEvent(g, v)]
  {
  }

  lemma GateStep(gates: seq<Gate>, i: nat, pol: Policy, r: Request, env: Environment)
    requires i < |gates|
    ensures var v := Judge(gates[i], pol, r, env);
            && FirstError(gates[i..], pol, r, env) == (if v.Failed? then Some(v.error) else FirstError(gates[i + 1..], pol, r, env))
            && EventsUntilError(gates[i..], pol, r, env)
               == EventsOf(gates[i], v, r) + if v.Failed? then [] else EventsUntilError(gates[i + 1..], pol, r, env)
  {
    hide Judge;
    assert gates[i..][1..] == gates[i + 1..];
  }
}
