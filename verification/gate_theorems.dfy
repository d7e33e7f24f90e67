/** What the ordered gates promise: which error wins, what an override can and cannot do, and
    what the ledger shows. */
module GateTheorems {
  import opened Wrappers
  import opened Texts
  import opened Gates

  ghost predicate Open(g: Gate, pol: Policy, r: Request, env: Environment) {
    !Judge(g, pol, r, env).Failed?
  }

  ghost predicate FirstAt(gates: seq<Gate>, pol: Policy, r: Request, env: Environment, e: GateError, i: nat) {
    i < |gates| && Judge(gates[i], pol, r, env) == Failed(e) && forall j :: 0 <= j < i ==> Open(gates[j], pol, r, env)
  }

  // ---- Which error wins ----

  lemma ShiftFirst(gates: seq<Gate>, pol: Policy, r: Request, env: Environment, e: GateError)
    requires gates != [] && Open(gates[0], pol, r, env)
    ensures (exists i: nat :: FirstAt(gates, pol, r, env, e, i)) <==> exists i: nat :: FirstAt(gates[1..], pol, r, env, e, i)
  {
    hide Judge;
    if i: nat :| FirstAt(gates, pol, r, env, e, i) {
      assert FirstAt(gates[1..], pol, r, env, e, i - 1);
    }
    if i: nat :| FirstAt(gates[1..], pol, r, env, e, i) {
      assert FirstAt(gates, pol, r, env, e, i + 1);
    }
  }

  /** The error is that of a failing gate all of whose predecessors let the version through. */
  lemma {:induction false} FirstFailureWins(gates: seq<Gate>, pol: Policy, r: Request, env: Environment, e: GateError)
    ensures FirstError(gates, pol, r, env) == Some(e) <==> exists i: nat :: FirstAt(gates, pol, r, env, e, i)
  {
    hide Judge;
    if gates != [] {
      FirstFailureWins(gates[1..], pol, r, env, e);
      if Open(gates[0], pol, r, env) {
        ShiftFirst(gates, pol, r, env, e);
      } else if Judge(gates[0], pol, r, env) == Failed(e) {
        assert FirstAt(gates, pol, r, env, e, 0);
      }
    }
  }

  /** The version passes exactly when no gate fails, in whatever order they stand. */
  lemma {:induction false} PassesWhenAllAreOpen(gates: seq<Gate>, pol: Policy, r: Request, env: Environment)
    ensures FirstError(gates, pol, r, env) == None <==> forall g :: g in gates ==> Open(g, pol, r, env)
  {
    hide Judge;
    if gates != [] {
      PassesWhenAllAreOpen(gates[1..], pol, r, env);
      assert forall g :: g in gates <==> g == gates[0] || g in gates[1..];
      assert gates[0] in gates;
      if Open(gates[0], pol, r, env) {
        assert FirstError(gates, pol, r, env) == FirstError(gates[1..], pol, r, env);
      }
    }
  }

  /** The caller overrides the dashboard and says why. */
  ghost predicate Explained(r: Request) {
    r.overrides && !Blank(r.reason)
  }

  ghost predicate Guarded(rings: Option<seq<string>>, ring: string) {
    rings.Some? && Guards(rings.value, ring)
  }

  /** What it takes to enter a ring, gate by gate, for exactly the gates that guard it. */
  lemma WhatAPassMeans(pol: Policy, r: Request, env: Environment)
    ensures FirstError(PROMOTION_GATES, pol, r, env) == None <==>
              && (pol.maintenance.Some? && Guards(pol.maintenance.value.rings, r.ring) ==> WindowOpen(pol.maintenance.value, env, r.ring))
              && (Guarded(pol.signoff, r.ring) ==> env.signoffs(r.ring, r.version) == Decided(true))
              && (Guarded(pol.changeRequest, r.ring) ==>
                    IsDemoCode(Trim(r.changeCode)) || (!Blank(r.changeCode) && env.codes(r.ring, Trim(r.changeCode)) == Accepted))
              && (Guarded(pol.grafana, r.ring) && env.grafanaBlocks(r.ring) ==> Explained(r))
              && (env.security.Some? && Guards(env.security.value.0, r.ring) ==> env.security.value.1 == Some(S.Go))
              && (forall g :: g in pol.custom ==> !AnswerOf(g, r, env).Refused?)
  {
    NothingLeft(r.reason);
    NothingLeft(r.changeCode);
    hide FirstError, Trim, Blank, Guards, WindowOpen, AnswerOf;
    var p := PROMOTION_GATES;
    PassesWhenAllAreOpen(p, pol, r, env);
    assert p[0] == Maintenance && p[1] == QaSignoff && p[2] == ChangeRequest && p[3] == Grafana && p[4] == AppSec && p[5] == Custom;
    forall g: Gate ensures g in p {
      match g {
        case Maintenance => assert p[0] in p;
        case QaSignoff => assert p[1] in p;
        case ChangeRequest => assert p[2] in p;
        case Grafana => assert p[3] in p;
        case AppSec => assert p[4] in p;
        case Custom => assert p[5] in p;
      }
    }
    assert FirstError(p, pol, r, env) == None <==>
      && Open(Maintenance, pol, r, env) && Open(QaSignoff, pol, r, env) && Open(ChangeRequest, pol, r, env)
      && Open(Grafana, pol, r, env) && Open(AppSec, pol, r, env) && Open(Custom, pol, r, env);
  }

  // ---- The override ----

  ghost predicate SameButOverride(r: Request, r': Request) {
    r' == r.(overrides := r'.overrides, reason := r'.reason)
  }

  lemma {:induction false} CustomIgnoresOverride(gs: seq<CustomGate>, r: Request, r': Request, env: Environment)
    requires SameButOverride(r, r')
    ensures JudgeCustom(gs, r, env) == JudgeCustom(gs, r', env)
  {
    if gs != [] {
      assert AnswerOf(gs[0], r, env) == AnswerOf(gs[0], r', env);
      CustomIgnoresOverride(gs[1..], r, r', env);
    }
  }

  /** An override reaches the Grafana gate only. */
  lemma OverrideIsolation(g: Gate, pol: Policy, r: Request, r': Request, env: Environment)
    requires SameButOverride(r, r') && g != Grafana
    ensures Judge(g, pol, r, env) == Judge(g, pol, r', env)
  {
    hide Trim, JudgeCustom, WindowOpen, IsDemoCode, Guards;
    if g == Custom {
      CustomIgnoresOverride(pol.custom, r, r', env);
    }
  }

  /** A properly overridden request passes exactly when every other gate lets it through without
      the override. */
  lemma OverriddenRunPasses(gates: seq<Gate>, pol: Policy, r: Request, r': Request, env: Environment)
    requires SameButOverride(r, r') && Explained(r')
    ensures FirstError(gates, pol, r', env) == None <==> forall g :: g in gates && g != Grafana ==> Open(g, pol, r, env)
  {
    PassesWhenAllAreOpen(gates, pol, r', env);
    NothingLeft(r'.reason);
    assert Open(Grafana, pol, r', env);
    forall g | g != Grafana ensures Open(g, pol, r, env) <==> Open(g, pol, r', env) {
      OverrideIsolation(g, pol, r, r', env);
    }
  }

  /** The only refusal an override lifts is the dashboard's own no-go, and asking for one without
      a reason lifts nothing. */
  lemma OverrideLiftsOnlyTheNoGo(gates: seq<Gate>, pol: Policy, r: Request, r': Request, env: Environment, e: GateError)
    requires SameButOverride(r, r') && !r.overrides
    requires FirstError(gates, pol, r, env) == Some(e) && FirstError(gates, pol, r', env) == None
    ensures e == GrafanaNoGo && Explained(r')
  {
    NothingLeft(r'.reason);
    FirstFailureWins(gates, pol, r, env, e);
    var i: nat :| FirstAt(gates, pol, r, env, e, i);
    PassesWhenAllAreOpen(gates, pol, r', env);
    assert gates[i] in gates;
    if gates[i] != Grafana {
      OverrideIsolation(gates[i], pol, r, r', env);
    }
    assert Open(Grafana, pol, r', env);
  }

  /** Where the dashboard does not block, an override changes nothing, not even the ledger. */
  lemma {:induction false} IdleOverride(gates: seq<Gate>, pol: Policy, r: Request, r': Request, env: Environment)
    requires SameButOverride(r, r') && !env.grafanaBlocks(r.ring)
    ensures FirstError(gates, pol, r, env) == FirstError(gates, pol, r', env)
    ensures EventsUntilError(gates, pol, r, env) == EventsUntilError(gates, pol, r', env)
  {
    if gates != [] {
      var g := gates[0];
      if g == Grafana {
        assert JudgeGrafana(pol, r, env) == JudgeGrafana(pol, r', env);
      } else {
        OverrideIsolation(g, pol, r, r', env);
      }
      assert !Judge(g, pol, r, env).Overridden?;
      IdleOverride(gates[1..], pol, r, r', env);
    }
  }

  // ---- The ledger ----

  /** How many gates are judged: all, or those up to the first that fails. */
  ghost function Reached(gates: seq<Gate>, pol: Policy, r: Request, env: Environment): (n: nat)
    ensures n <= |gates|
  {
    if gates == [] then 0
    else if Judge(gates[0], pol, r, env).Failed? then 1
    else 1 + Reached(gates[1..], pol, r, env)
  }

  /** One entry for each gate that did not skip. */
  ghost function Verdicts(gates: seq<Gate>, pol: Policy, r: Request, env: Environment): seq<Event> {
    if gates == [] then []
    else
      var v := Judge(gates[0], pol, r, env);
      (if v.Skipped? then [] else [GateEvent(gates[0], v)]) + Verdicts(gates[1..], pol, r, env)
  }

  function GateEvents(events: seq<Event>): seq<Event> {
    if events == [] then []
    else (if events[0].GateEvent? then [events[0]] else []) + GateEvents(events[1..])
  }

  lemma {:induction false} GateEventsConcat(a: seq<Event>, b: seq<Event>)
    ensures GateEvents(a + b) == GateEvents(a) + GateEvents(b)
  {
    if a == [] {
      assert a + b == b;
    } else {
      GateEventsConcat(a[1..], b);
      assert (a + b)[1..] == a[1..] + b && (a + b)[0] == a[0];
    }
  }

  lemma OneGatesEvents(g: Gate, v: GateVerdict, r: Request)
    ensures GateEvents(EventsOf(g, v, r)) == if v.Skipped? then [] else [GateEvent(g, v)]
  {
    if !v.Skipped? {
      GateEventsConcat(OverrideEvents(v, r), [GateEvent(g, v)]);
      assert [GateEvent(g, v)][1..] == [];
      if v.Overridden? {
        assert [OverrideEvent(Trim(r.reason))][1..] == [];
      }
    }
  }

  lemma ReachedStep(gates: seq<Gate>, pol: Policy, r: Request, env: Environment)
    requires gates != []
    ensures var v, reached := Judge(gates[0], pol, r, env), gates[..Reached(gates, pol, r, env)];
            Verdicts(reached, pol, r, env)
            == (if v.Skipped? then [] else [GateEvent(gates[0], v)])
               + if v.Failed? then [] else Verdicts(gates[1..][..Reached(gates[1..], pol, r, env)], pol, r, env)
  {
    hide Judge;
    var v, reached := Judge(gates[0], pol, r, env), gates[..Reached(gates, pol, r, env)];
    assert reached[1..] == if v.Failed? then [] else gates[1..][..Reached(gates[1..], pol, r, env)];
  }

  /** The ledger shows the verdict of every gate that was reached and did not skip, once and in
      order, ending with the failure if there is one; gates behind a failure leave no trace. */
  lemma {:induction false} LedgerShowsWhatWasReached(gates: seq<Gate>, pol: Policy, r: Request, env: Environment)
    ensures GateEvents(EventsUntilError(gates, pol, r, env)) == Verdicts(gates[..Reached(gates, pol, r, env)], pol, r, env)
    ensures forall e :: FirstError(gates, pol, r, env) == Some(e) ==>
              Reached(gates, pol, r, env) > 0 && Judge(gates[Reached(gates, pol, r, env) - 1], pol, r, env) == Failed(e)
    ensures FirstError(gates, pol, r, env) == None ==> Reached(gates, pol, r, env) == |gates|
  {
    hide Judge, EventsOf;
    if gates != [] {
      var g, rest := gates[0], gates[1..];
      var v := Judge(g, pol, r, env);
      LedgerShowsWhatWasReached(rest, pol, r, env);
      OneGatesEvents(g, v, r);
      ReachedStep(gates, pol, r, env);
      GateEventsConcat(EventsOf(g, v, r), if v.Failed? then [] else EventsUntilError(rest, pol, r, env));
    }
  }

  /** Each override entry gives the reason and stands right before the verdict it led to, and no
      overridden verdict stands without one. */
  ghost predicate Paired(events: seq<Event>, r: Request) {
    && (forall i :: 0 <= i < |events| && events[i].OverrideEvent? ==>
          events[i].reason == Trim(r.reason) && !Blank(r.reason) && i + 1 < |events| && events[i + 1].GateEvent? && events[i + 1].verdict.Overridden?)
    && (forall i :: 0 <= i < |events| && events[i].GateEvent? && events[i].verdict.Overridden? ==>
          i > 0 && events[i - 1].OverrideEvent?)
  }

  lemma PairedConcat(a: seq<Event>, b: seq<Event>, r: Request)
    requires Paired(a, r) && Paired(b, r)
    ensures Paired(a + b, r)
  {
    var c := a + b;
    forall i | 0 <= i < |c| && c[i].OverrideEvent?
      ensures c[i].reason == Trim(r.reason) && !Blank(r.reason) && i + 1 < |c| && c[i + 1].GateEvent? && c[i + 1].verdict.Overridden?
    {
      if i < |a| {
        assert a[i].OverrideEvent?;
      } else {
        assert b[i - |a|].OverrideEvent? && c[i + 1] == b[i + 1 - |a|];
      }
    }
    forall i | 0 <= i < |c| && c[i].GateEvent? && c[i].verdict.Overridden? ensures i > 0 && c[i - 1].OverrideEvent? {
      if i >= |a| {
        assert b[i - |a|].GateEvent? && c[i - 1] == b[i - 1 - |a|];
      }
    }
  }

  lemma {:induction false} OverridesAreAttributed(gates: seq<Gate>, pol: Policy, r: Request, env: Environment)
    ensures Paired(EventsUntilError(gates, pol, r, env), r)
  {
    NothingLeft(r.reason);
    if gates != [] {
      var v := Judge(gates[0], pol, r, env);
      OverridesAreAttributed(gates[1..], pol, r, env);
      assert v.Overridden? ==> Trim(r.reason) != "";
      PairedConcat(EventsOf(gates[0], v, r), if v.Failed? then [] else EventsUntilError(gates[1..], pol, r, env), r);
    }
  }

  /** What the API does with an operation: a pre-check before the job is accepted, then the real
      evaluation. Both say the same, and together they leave the ledger entries of one. */
  method CheckThenRun(k: GateKeeper, policy: Option<Policy>, r: Request, env: Environment)
    returns (pre: Option<GateError>, run: Option<GateError>)
    modifies k
    ensures pre == run
    ensures pre == None <==> Ungated(policy, env) || forall g :: g in PROMOTION_GATES ==> Open(g, EffectivePolicy(policy), r, env)
    ensures k.ledger == old(k.ledger) + if Ungated(policy, env) then []
                                        else EventsUntilError(PROMOTION_GATES, EffectivePolicy(policy), r, env)
  {
    hide Judge, FirstError, EventsUntilError;
    PassesWhenAllAreOpen(PROMOTION_GATES, EffectivePolicy(policy), r, env);
    pre := k.EvaluateGates(policy, r, env, true);
    assert k.ledger == old(k.ledger);
    run := k.EvaluateGates(policy, r, env, false);
  }

  /** Without a promotion policy the app is held to the security policy and to nothing else. */
  lemma SecurityAlone(r: Request, env: Environment)
    ensures var v := JudgeSecurity(r, env);
            FirstError(PROMOTION_GATES, EffectivePolicy(None), r, env) == if v.Failed? then Some(v.error) else None
  {
    var p := PROMOTION_GATES;
    PassesWhenAllAreOpen(p, NO_GATES, r, env);
    var v := JudgeSecurity(r, env);
    assert p[4] == AppSec;
    if v.Failed? {
      assert FirstAt(p, NO_GATES, r, env, v.error, 4);
      FirstFailureWins(p, NO_GATES, r, env, v.error);
    }
  }
}
