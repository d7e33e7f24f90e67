/** The security evaluation in the policy's own words: which waivers count, what the totals are and
    what the limits make of them. */
module SecurityLaws {
  import opened Wrappers
  import opened SecurityScans
  import opened ScanStores
  import opened SecurityVerdict

  // ---- Which findings are waived ----

  /** The findings of a severity, by position, that some waiver names for this ring or for all. */
  ghost function WaivedAt(fs: seq<Finding>, ring: string, waivers: seq<Waiver>, sev: Severity): set<int> {
    set i | 0 <= i < |fs| && fs[i].severity == sev
            && exists w :: w in waivers && w.finding == fs[i].id && (w.ring == "" || w.ring == ring)
  }

  lemma WaivedAtTakes(fs: seq<Finding>, ring: string, waivers: seq<Waiver>, sev: Severity)
    requires fs != []
    ensures var k := |fs| - 1;
            WaivedAt(fs, ring, waivers, sev)
            == WaivedAt(fs[..k], ring, waivers, sev)
               + if fs[k].severity == sev && IsWaived(fs[k], ring, waivers) then {k} else {}
  {
    var k := |fs| - 1;
    var a, b := WaivedAt(fs, ring, waivers, sev), WaivedAt(fs[..k], ring, waivers, sev);
    forall i | 0 <= i < k ensures i in a <==> i in b {
      assert fs[..k][i] == fs[i];
    }
    assert k in a <==> fs[k].severity == sev && IsWaived(fs[k], ring, waivers);
  }

  lemma OnlyOneMore(front: seq<Finding>, x: Finding, sev: Severity)
    ensures |Only(front + [x], sev)| == |Only(front, sev)| + if x.severity == sev then 1 else 0
  {
    assert (front + [x])[..|front|] == front;
  }

  /** Taking off the waived findings takes off, of each severity, exactly those that a waiver names
      for this ring or for all rings. */
  lemma {:induction false} WaivedAreNamed(fs: seq<Finding>, ring: string, waivers: seq<Waiver>, sev: Severity)
    ensures |Only(WaivedOf(fs, ring, waivers), sev)| == |WaivedAt(fs, ring, waivers, sev)|
    ensures sev != Other ==> CountsOf(WaivedOf(fs, ring, waivers)).Get(sev) == |WaivedAt(fs, ring, waivers, sev)|
  {
    CountIsLength(WaivedOf(fs, ring, waivers), sev);
    if fs == [] {
      assert WaivedAt(fs, ring, waivers, sev) == {};
    } else {
      var k := |fs| - 1;
      WaivedAreNamed(fs[..k], ring, waivers, sev);
      WaivedAtTakes(fs, ring, waivers, sev);
      var front, before := WaivedOf(fs[..k], ring, waivers), WaivedAt(fs[..k], ring, waivers, sev);
      OnlyOneMore(front, fs[k], sev);
      assert k !in before && WaivedOf(fs, ring, waivers) == if IsWaived(fs[k], ring, waivers) then front + [fs[k]] else front;
      hide IsWaived, CountsOf, Only, WaivedOf, WaivedAt;
    }
  }

  // ---- The totals ----

  function Reported(c: Counts, sev: Severity): int {
    match sev
    case Critical => c.critical
    case High => c.high
    case Medium => c.medium
    case Low => c.low
    case Other => 0
  }

  /** What a severity still counts for over all scans: of each scan as many as it reported less the
      waived ones, and never less than nothing. */
  ghost function Left(scans: seq<Scan>, ring: string, waivers: seq<Waiver>, sev: Severity): int {
    if scans == [] then 0
    else
      var s := scans[|scans| - 1];
      var rest := Reported(s.counts, sev) - |WaivedAt(s.findings, ring, waivers, sev)|;
      Left(scans[..|scans| - 1], ring, waivers, sev) + if rest < 0 then 0 else rest
  }

  lemma UnwaivedIs(s: Scan, ring: string, waivers: seq<Waiver>, sev: Severity)
    requires sev != Other
    ensures var rest := Reported(s.counts, sev) - |WaivedAt(s.findings, ring, waivers, sev)|;
            Reported(Unwaived(s, ring, waivers), sev) == if rest < 0 then 0 else rest
  {
    WaivedAreNamed(s.findings, ring, waivers, sev);
    hide WaivedOf, CountsOf, WaivedAt;
  }

  /** The evaluation's totals, severity by severity. */
  lemma {:induction false} TotalsAreWhatIsLeft(scans: seq<Scan>, ring: string, waivers: seq<Waiver>, sev: Severity)
    requires sev != Other
    ensures Reported(SumUnwaived(scans, ring, waivers), sev) == Left(scans, ring, waivers, sev)
  {
    if scans != [] {
      TotalsAreWhatIsLeft(scans[..|scans| - 1], ring, waivers, sev);
      UnwaivedIs(scans[|scans| - 1], ring, waivers, sev);
      hide Unwaived, WaivedAt;
    }
  }

  // ---- The verdict ----

  function Required(pol: Policy): seq<string> {
    if pol.require == None then ["sast", "sca", "secrets"] else pol.require.value
  }

  ghost predicate TooOld(scans: seq<Scan>, pol: Policy, now: int, kind: string) {
    && kind in Required(pol) && pol.maxAge > 0 && (exists s :: s in scans && s.kind == kind)
    && forall s :: s in scans && s.kind == kind ==> s.scannedAt < now - pol.maxAge
  }

  predicate Exceeds(total: int, limits: map<LimitKey, int>, key: LimitKey) {
    key in limits && total > limits[key]
  }

  /** Without limits of its own a policy allows no critical and no high finding, and any other. */
  ghost predicate OverTheLimits(pol: Policy, critical: int, high: int, medium: int, low: int) {
    match pol.max
    case None => critical > 0 || high > 0
    case Some(m) =>
      || Exceeds(critical, m, Each(Critical)) || Exceeds(high, m, Each(High))
      || Exceeds(medium, m, Each(Medium)) || Exceeds(low, m, Each(Low))
      || Exceeds(medium + low, m, Minor)
  }

  lemma BreachedMeans(c: Counts, pol: Policy)
    ensures Breached(c, pol.Limits()) <==> OverTheLimits(pol, c.critical, c.high, c.medium, c.low)
  {
    var m := pol.Limits();
    assert LIMIT_KEYS == [Each(Critical), Each(High), Each(Medium), Each(Low), Minor];
    forall key: LimitKey ensures key in LIMIT_KEYS <==> key in {Each(Critical), Each(High), Each(Medium), Each(Low), Minor} {
      assert LIMIT_KEYS[0] == Each(Critical) && LIMIT_KEYS[1] == Each(High) && LIMIT_KEYS[2] == Each(Medium);
      assert LIMIT_KEYS[3] == Each(Low) && LIMIT_KEYS[4] == Minor;
    }
    assert Breached(c, m) <==> Over(c, m, Each(Critical)) || Over(c, m, Each(High)) || Over(c, m, Each(Medium)) || Over(c, m, Each(Low)) || Over(c, m, Minor);
  }

  /** The verdict spelled out. It is no-go exactly when a required kind has only reports older than
      the policy allows or what is left of the findings is over a limit; otherwise it is pending
      exactly when a required kind has not reported. */
  lemma VerdictSpelledOut(scans: seq<Scan>, ring: string, waivers: seq<Waiver>, pol: Policy, now: int)
    ensures var v := VerdictOf(scans, ring, waivers, pol, now);
            && (v == NoGo <==>
                  || (exists kind :: TooOld(scans, pol, now, kind))
                  || OverTheLimits(pol, Left(scans, ring, waivers, Critical), Left(scans, ring, waivers, High),
                                   Left(scans, ring, waivers, Medium), Left(scans, ring, waivers, Low)))
            && (v == Pending <==> v != NoGo && exists kind :: kind in Required(pol) && forall s :: s in scans ==> s.kind != kind)
            && (v == Go || v == NoGo || v == Pending)
  {
    var total := SumUnwaived(scans, ring, waivers);
    BreachedMeans(total, pol);
    TotalsAreWhatIsLeft(scans, ring, waivers, Critical);
    TotalsAreWhatIsLeft(scans, ring, waivers, High);
    TotalsAreWhatIsLeft(scans, ring, waivers, Medium);
    TotalsAreWhatIsLeft(scans, ring, waivers, Low);
    hide Breached, OverTheLimits, SumUnwaived, Left;
    assert pol.RequiredKinds() == Required(pol);
    forall kind ensures IsStale(scans, pol, now, kind) <==> TooOld(scans, pol, now, kind) {
    }
    assert SomeStale(scans, pol, now) <==> exists kind :: TooOld(scans, pol, now, kind);
    assert SomeMissing(scans, pol) <==> exists kind :: kind in Required(pol) && forall s :: s in scans ==> s.kind != kind;
  }

  // ---- Waivers, one at a time ----

  /** The two lists of waivers come to the same on a ring at a moment. */
  ghost predicate SameEvaluation(scans: seq<Scan>, ring: string, a: seq<Waiver>, b: seq<Waiver>, pol: Policy, now: int) {
    && VerdictOf(scans, ring, InForce(a, now), pol, now) == VerdictOf(scans, ring, InForce(b, now), pol, now)
    && SumUnwaived(scans, ring, InForce(a, now)) == SumUnwaived(scans, ring, InForce(b, now))
    && SumWaived(scans, ring, InForce(a, now)) == SumWaived(scans, ring, InForce(b, now))
  }

  /** The two lists waive the same of these findings. */
  ghost predicate WaiveAlike(fs: seq<Finding>, ring: string, a: seq<Waiver>, b: seq<Waiver>) {
    forall f :: f in fs ==> (IsWaived(f, ring, a) <==> IsWaived(f, ring, b))
  }

  lemma {:induction false} AlikeWaived(fs: seq<Finding>, ring: string, a: seq<Waiver>, b: seq<Waiver>)
    requires WaiveAlike(fs, ring, a, b)
    ensures WaivedOf(fs, ring, a) == WaivedOf(fs, ring, b)
  {
    if fs != [] {
      AlikeWaived(fs[..|fs| - 1], ring, a, b);
      assert fs[|fs| - 1] in fs;
    }
  }

  lemma {:induction false} AlikeSums(scans: seq<Scan>, ring: string, a: seq<Waiver>, b: seq<Waiver>)
    requires forall s :: s in scans ==> WaiveAlike(s.findings, ring, a, b)
    ensures SumUnwaived(scans, ring, a) == SumUnwaived(scans, ring, b) && SumWaived(scans, ring, a) == SumWaived(scans, ring, b)
  {
    if scans != [] {
      assert scans[|scans| - 1] in scans;
      AlikeSums(scans[..|scans| - 1], ring, a, b);
      AlikeWaived(scans[|scans| - 1].findings, ring, a, b);
    }
  }

  lemma AlikeEvaluations(scans: seq<Scan>, ring: string, a: seq<Waiver>, b: seq<Waiver>, pol: Policy, now: int)
    requires forall s :: s in scans ==> WaiveAlike(s.findings, ring, InForce(a, now), InForce(b, now))
    ensures SameEvaluation(scans, ring, a, b, pol, now)
  {
    AlikeSums(scans, ring, InForce(a, now), InForce(b, now));
  }

  /** A list with one waiver replaced waives the same of findings of which the two waive the same. */
  lemma ReplacedAlike(scans: seq<Scan>, ring: string, all: seq<Waiver>, i: nat, w: Waiver, pol: Policy, now: int)
    requires i < |all|
    requires forall s, f :: s in scans && f in s.findings ==>
               (now < all[i].expiresAt && all[i].Covers(f.id, ring) <==> now < w.expiresAt && w.Covers(f.id, ring))
    ensures SameEvaluation(scans, ring, all, all[i := w], pol, now)
  {
    var b := all[i := w];
    InForceAre(all, now);
    InForceAre(b, now);
    forall s | s in scans ensures WaiveAlike(s.findings, ring, InForce(all, now), InForce(b, now)) {
      forall f | f in s.findings ensures IsWaived(f, ring, InForce(all, now)) <==> IsWaived(f, ring, InForce(b, now)) {
        if x :| x in InForce(all, now) && x.Covers(f.id, ring) {
          var j :| 0 <= j < |all| && all[j] == x;
          assert b[j] in b && b[i] in b;
        }
        if x :| x in InForce(b, now) && x.Covers(f.id, ring) {
          var j :| 0 <= j < |b| && b[j] == x;
          assert all[j] in all && all[i] in all;
        }
      }
    }
    AlikeEvaluations(scans, ring, all, b, pol, now);
  }

  /** A waiver that counts for nothing here might as well not be there. */
  lemma DroppedAlike(scans: seq<Scan>, ring: string, all: seq<Waiver>, i: nat, pol: Policy, now: int)
    requires i < |all|
    requires forall s, f :: s in scans && f in s.findings ==> !(now < all[i].expiresAt && all[i].Covers(f.id, ring))
    ensures SameEvaluation(scans, ring, all, all[..i] + all[i + 1..], pol, now)
  {
    var b := all[..i] + all[i + 1..];
    InForceAre(all, now);
    InForceAre(b, now);
    forall s | s in scans ensures WaiveAlike(s.findings, ring, InForce(all, now), InForce(b, now)) {
      forall f | f in s.findings ensures IsWaived(f, ring, InForce(all, now)) <==> IsWaived(f, ring, InForce(b, now)) {
        if x :| x in InForce(all, now) && x.Covers(f.id, ring) {
          var j :| 0 <= j < |all| && all[j] == x;
          assert j != i && x == if j < i then b[j] else b[j - 1];
        }
        if x :| x in InForce(b, now) && x.Covers(f.id, ring) {
          assert x in all;
        }
      }
    }
    AlikeEvaluations(scans, ring, all, b, pol, now);
  }

  /** A waiver made out for no ring gives on every ring what one made out for that ring gives. */
  lemma RinglessWaiverIsForEveryRing(scans: seq<Scan>, ring: string, all: seq<Waiver>, i: nat, pol: Policy, now: int)
    requires i < |all| && all[i].ring == ""
    ensures SameEvaluation(scans, ring, all, all[i := all[i].(ring := ring)], pol, now)
  {
    ReplacedAlike(scans, ring, all, i, all[i].(ring := ring), pol, now);
  }

  /** A waiver for one ring changes nothing on another, nor where no ring is asked for. */
  lemma OtherRingsWaiverIsIdle(scans: seq<Scan>, ring: string, all: seq<Waiver>, i: nat, pol: Policy, now: int)
    requires i < |all| && all[i].ring != "" && all[i].ring != ring
    ensures SameEvaluation(scans, ring, all, all[..i] + all[i + 1..], pol, now)
  {
    DroppedAlike(scans, ring, all, i, pol, now);
  }

  /** A waiver for a finding that no scan reports changes nothing. */
  lemma OtherFindingsWaiverIsIdle(scans: seq<Scan>, ring: string, all: seq<Waiver>, i: nat, pol: Policy, now: int)
    requires i < |all| && forall s, f :: s in scans && f in s.findings ==> f.id != all[i].finding
    ensures SameEvaluation(scans, ring, all, all[..i] + all[i + 1..], pol, now)
  {
    DroppedAlike(scans, ring, all, i, pol, now);
  }

  /** Before it expires a waiver counts as one that runs for ever so long; from then on it counts
      for nothing. */
  lemma WaiverCountsUntilItExpires(scans: seq<Scan>, ring: string, all: seq<Waiver>, i: nat, later: int, pol: Policy, now: int)
    requires i < |all| && now < later
    ensures now < all[i].expiresAt ==> SameEvaluation(scans, ring, all, all[i := all[i].(expiresAt := later)], pol, now)
    ensures all[i].expiresAt <= now ==> SameEvaluation(scans, ring, all, all[..i] + all[i + 1..], pol, now)
  {
    if now < all[i].expiresAt {
      ReplacedAlike(scans, ring, all, i, all[i].(expiresAt := later), pol, now);
    } else {
      DroppedAlike(scans, ring, all, i, pol, now);
    }
  }
}
