/** What the security verdict promises whatever is reported, waived or listed first. */
module SecurityTheorems {
  import opened SecurityScans
  import opened ScanStores
  import opened SecurityVerdict

  // ---- Conservation ----

  lemma AddsKeepOrder(a: Counts, b: Counts, s: Severity, inA: bool, inB: bool)
    requires AtMost(a, b) && (inA ==> inB)
    ensures AtMost(if inA then a.Add(s, 1) else a, if inB then b.Add(s, 1) else b)
  {
    assert forall t :: a.Get(t) <= b.Get(t);
    assert forall t :: t != s ==> a.Add(s, 1).Get(t) == a.Get(t) && b.Add(s, 1).Get(t) == b.Get(t);
  }

  lemma {:induction false} WaivedAtMostHeld(fs: seq<Finding>, ring: string, waivers: seq<Waiver>)
    ensures AtMost(CountsOf(WaivedOf(fs, ring, waivers)), CountsOf(fs))
  {
    if fs != [] {
      var k := |fs| - 1;
      WaivedAtMostHeld(fs[..k], ring, waivers);
      AddsKeepOrder(CountsOf(WaivedOf(fs[..k], ring, waivers)), CountsOf(fs[..k]), fs[k].severity, IsWaived(fs[k], ring, waivers), true);
      assert fs[..k + 1] == fs;
      WaivedOneMore(fs, k, ring, waivers);
    }
  }

  lemma WaivedWithinReported(scan: Scan, ring: string, waivers: seq<Waiver>, s: Severity)
    requires Recorded(scan)
    ensures 0 <= CountsOf(WaivedOf(scan.findings, ring, waivers)).Get(s) <= scan.counts.Get(s)
  {
    WaivedAtMostHeld(scan.findings, ring, waivers);
    CountIsLength(WaivedOf(scan.findings, ring, waivers), s);
    hide CountsOf, WaivedOf;
    assert CountsOf(WaivedOf(scan.findings, ring, waivers)).Get(s) <= CountsOf(scan.findings).Get(s);
  }

  /** For a recorded scan no finding is lost or counted twice: what still counts and what is
      waived add up to what was reported, so the clamp at zero never fires. */
  lemma RecordedScanConserves(scan: Scan, ring: string, waivers: seq<Waiver>)
    requires Recorded(scan)
    ensures var waived := CountsOf(WaivedOf(scan.findings, ring, waivers));
            && Unwaived(scan, ring, waivers) == Minus(scan.counts, waived)
            && Unwaived(scan, ring, waivers).Plus(waived) == scan.counts && !waived.Negative()
  {
    hide Recorded, CountsOf, WaivedOf;
    WaivedWithinReported(scan, ring, waivers, Critical);
    WaivedWithinReported(scan, ring, waivers, High);
    WaivedWithinReported(scan, ring, waivers, Medium);
    WaivedWithinReported(scan, ring, waivers, Low);
  }

  /** The clamp is there for scans whose counts and findings disagree: it fires exactly when more
      findings of a severity are waived than were reported. */
  lemma ClampFiresOnlyOnMiscounts(scan: Scan, ring: string, waivers: seq<Waiver>)
    ensures var waived := CountsOf(WaivedOf(scan.findings, ring, waivers));
            Unwaived(scan, ring, waivers) != Minus(scan.counts, waived) <==> exists s :: waived.Get(s) > scan.counts.Get(s)
  {
    var waived, left := CountsOf(WaivedOf(scan.findings, ring, waivers)), Unwaived(scan, ring, waivers);
    assert left.critical == scan.counts.critical - waived.critical <==> waived.Get(Critical) <= scan.counts.Get(Critical);
    assert left.high == scan.counts.high - waived.high <==> waived.Get(High) <= scan.counts.Get(High);
    assert left.medium == scan.counts.medium - waived.medium <==> waived.Get(Medium) <= scan.counts.Get(Medium);
    assert left.low == scan.counts.low - waived.low <==> waived.Get(Low) <= scan.counts.Get(Low);
  }

  function SumReported(scans: seq<Scan>): Counts {
    if scans == [] then Counts(0, 0, 0, 0) else SumReported(scans[..|scans| - 1]).Plus(scans[|scans| - 1].counts)
  }

  lemma {:induction false} GoodFindingsAllCount(fs: seq<Finding>)
    requires GoodFindings(fs)
    ensures CountsOf(fs).Sum() == |fs|
  {
    if fs != [] {
      assert fs[|fs| - 1] in fs;
      GoodFindingsAllCount(fs[..|fs| - 1]);
    }
  }

  lemma {:induction false} WaivedAreHeld(fs: seq<Finding>, ring: string, waivers: seq<Waiver>)
    ensures forall f :: f in WaivedOf(fs, ring, waivers) ==> f in fs
  {
    if fs != [] {
      WaivedAreHeld(fs[..|fs| - 1], ring, waivers);
    }
  }

  /** All the waived findings of a list of scans, by severity. */
  function SumWaivedCounts(scans: seq<Scan>, ring: string, waivers: seq<Waiver>): Counts {
    if scans == [] then Counts(0, 0, 0, 0)
    else
      SumWaivedCounts(scans[..|scans| - 1], ring, waivers)
      .Plus(CountsOf(WaivedOf(scans[|scans| - 1].findings, ring, waivers)))
  }

  /** Over a whole version, severity by severity: what still counts and what is waived add up to
      what was reported; and the number of waived findings is theirs. */
  lemma {:induction false} EvaluationConserves(scans: seq<Scan>, ring: string, waivers: seq<Waiver>)
    requires forall s :: s in scans ==> Recorded(s)
    ensures SumUnwaived(scans, ring, waivers).Plus(SumWaivedCounts(scans, ring, waivers)) == SumReported(scans)
    ensures SumWaivedCounts(scans, ring, waivers).Sum() == SumWaived(scans, ring, waivers)
    ensures !SumUnwaived(scans, ring, waivers).Negative() && !SumWaivedCounts(scans, ring, waivers).Negative()
  {
    hide SumUnwaived, SumWaivedCounts, SumReported, SumWaived, Unwaived, WaivedOf, CountsOf;
    hide Counts.Plus, Counts.Sum, Counts.Negative, Recorded;
    if scans == [] {
      NothingReported(scans, ring, waivers);
    } else {
      var k := |scans| - 1;
      var front, x := scans[..k], scans[k];
      assert x in scans && scans == front + [x];
      EvaluationConserves(front, ring, waivers);
      ReportTakes(front, x, ring, waivers);
      SumTakes(front, x, ring, waivers);
      ScanConserves(x, ring, waivers);
      SumsAddUp(SumUnwaived(front, ring, waivers), Unwaived(x, ring, waivers),
                SumWaivedCounts(front, ring, waivers), CountsOf(WaivedOf(x.findings, ring, waivers)));
    }
  }

  lemma NothingReported(scans: seq<Scan>, ring: string, waivers: seq<Waiver>)
    requires scans == []
    ensures SumUnwaived(scans, ring, waivers) == SumWaivedCounts(scans, ring, waivers) == SumReported(scans) == Counts(0, 0, 0, 0)
    ensures SumWaived(scans, ring, waivers) == SumWaivedCounts(scans, ring, waivers).Sum() == 0
    ensures !SumUnwaived(scans, ring, waivers).Negative()
    ensures SumUnwaived(scans, ring, waivers).Plus(SumWaivedCounts(scans, ring, waivers)) == SumReported(scans)
  {
    PlusLaws(Counts(0, 0, 0, 0), Counts(0, 0, 0, 0), Counts(0, 0, 0, 0));
    hide Counts.Plus;
  }

  lemma ReportTakes(front: seq<Scan>, x: Scan, ring: string, waivers: seq<Waiver>)
    ensures SumReported(front + [x]) == SumReported(front).Plus(x.counts)
    ensures SumWaivedCounts(front + [x], ring, waivers)
            == SumWaivedCounts(front, ring, waivers).Plus(CountsOf(WaivedOf(x.findings, ring, waivers)))
  {
    assert (front + [x])[..|front|] == front;
  }

  lemma ScanConserves(x: Scan, ring: string, waivers: seq<Waiver>)
    requires Recorded(x)
    ensures var waived := CountsOf(WaivedOf(x.findings, ring, waivers));
            && Unwaived(x, ring, waivers).Plus(waived) == x.counts && waived.Sum() == |WaivedOf(x.findings, ring, waivers)|
            && !waived.Negative() && !Unwaived(x, ring, waivers).Negative()
  {
    RecordedScanConserves(x, ring, waivers);
    WaivedAreHeld(x.findings, ring, waivers);
    GoodFindingsAllCount(WaivedOf(x.findings, ring, waivers));
  }

  lemma SumsAddUp(a: Counts, b: Counts, c: Counts, d: Counts)
    ensures a.Plus(b).Plus(c.Plus(d)) == a.Plus(c).Plus(b.Plus(d)) && c.Plus(d).Sum() == c.Sum() + d.Sum()
    ensures !a.Negative() && !b.Negative() ==> !a.Plus(b).Negative()
    ensures !c.Negative() && !d.Negative() ==> !c.Plus(d).Negative()
  {
  }

  lemma PartsAtMost(a: Counts, b: Counts, c: Counts, d: Counts)
    requires AtMost(a, b) && c.critical <= d.critical && c.high <= d.high && c.medium <= d.medium && c.low <= d.low
    ensures AtMost(a.Plus(c), b.Plus(d))
  {
    assert a.Get(Critical) <= b.Get(Critical) && a.Get(High) <= b.Get(High);
    assert a.Get(Medium) <= b.Get(Medium) && a.Get(Low) <= b.Get(Low);
  }

  /** Every list of scans read from a store that was only written by recording is one. */
  lemma StoredScansConserve(store: ScanStore, scans: seq<Scan>, ring: string, waivers: seq<Waiver>)
    requires store.Valid() && forall s :: s in scans ==> s in store.scans.Values
    ensures SumUnwaived(scans, ring, waivers).Plus(SumWaivedCounts(scans, ring, waivers)) == SumReported(scans)
    ensures SumWaivedCounts(scans, ring, waivers).Sum() == SumWaived(scans, ring, waivers)
  {
    EvaluationConserves(scans, ring, waivers);
  }

  // ---- The order of the scans ----

  lemma TakeOut(scans: seq<Scan>, x: Scan) returns (rest: seq<Scan>)
    requires x in scans
    ensures multiset(scans) == multiset(rest) + multiset{x} && |rest| == |scans| - 1
    ensures forall ring, waivers ::
              && SumUnwaived(scans, ring, waivers) == SumUnwaived(rest, ring, waivers).Plus(Unwaived(x, ring, waivers))
              && SumWaived(scans, ring, waivers) == SumWaived(rest, ring, waivers) + |WaivedOf(x.findings, ring, waivers)|
    decreases |scans|
  {
    hide Unwaived, WaivedOf, SumUnwaived, SumWaived, Counts.Plus;
    var k := |scans| - 1;
    var front, last := scans[..k], scans[k];
    assert scans == front + [last];
    forall ring, waivers
      ensures SumUnwaived(scans, ring, waivers) == SumUnwaived(front, ring, waivers).Plus(Unwaived(last, ring, waivers))
      ensures SumWaived(scans, ring, waivers) == SumWaived(front, ring, waivers) + |WaivedOf(last.findings, ring, waivers)|
    {
      SumTakes(front, last, ring, waivers);
    }
    if last == x {
      rest := front;
    } else {
      assert x in front;
      var inner := TakeOut(front, x);
      rest := inner + [last];
      forall ring, waivers
        ensures SumUnwaived(scans, ring, waivers) == SumUnwaived(rest, ring, waivers).Plus(Unwaived(x, ring, waivers))
        ensures SumWaived(scans, ring, waivers) == SumWaived(rest, ring, waivers) + |WaivedOf(x.findings, ring, waivers)|
      {
        SumTakes(inner, last, ring, waivers);
        PlusLaws(SumUnwaived(inner, ring, waivers), Unwaived(x, ring, waivers), Unwaived(last, ring, waivers));
      }
    }
  }

  lemma {:induction false} SumsIgnoreOrder(a: seq<Scan>, b: seq<Scan>, ring: string, waivers: seq<Waiver>)
    requires multiset(a) == multiset(b)
    ensures SumUnwaived(a, ring, waivers) == SumUnwaived(b, ring, waivers)
    ensures SumWaived(a, ring, waivers) == SumWaived(b, ring, waivers)
    decreases |a|
  {
    hide Unwaived, WaivedOf, SumUnwaived, SumWaived, Counts.Plus;
    if a == [] {
      assert |multiset(b)| == |b|;
      assert a == b;
    } else {
      var k := |a| - 1;
      var x := a[k];
      assert a == a[..k] + [x];
      assert x in multiset(b);
      var rest := TakeOut(b, x);
      assert multiset(a[..k] + [x]) == multiset(a[..k]) + multiset{x};
      assert multiset(a[..k]) == multiset(a) - multiset{x};
      assert multiset(rest) == multiset(b) - multiset{x};
      SumsIgnoreOrder(a[..k], rest, ring, waivers);
      SumTakes(a[..k], x, ring, waivers);
    }
  }

  /** However the scans are listed, the verdict and the counts are the same. */
  lemma VerdictIgnoresOrder(a: seq<Scan>, b: seq<Scan>, ring: string, waivers: seq<Waiver>, pol: Policy, now: int)
    requires multiset(a) == multiset(b)
    ensures VerdictOf(a, ring, waivers, pol, now) == VerdictOf(b, ring, waivers, pol, now)
    ensures SumUnwaived(a, ring, waivers) == SumUnwaived(b, ring, waivers)
    ensures SumWaived(a, ring, waivers) == SumWaived(b, ring, waivers)
  {
    hide Unwaived, WaivedOf, SumUnwaived, SumWaived, Breached;
    SumsIgnoreOrder(a, b, ring, waivers);
    assert forall s :: s in a <==> s in multiset(a);
    assert forall s :: s in b <==> s in multiset(b);
    assert forall k :: HasKind(a, k) <==> HasKind(b, k);
    forall k ensures IsStale(a, pol, now, k) <==> IsStale(b, pol, now, k) {
    }
  }

  // ---- More waivers, less evidence ----

  ghost predicate CoversMore(fewer: seq<Waiver>, more: seq<Waiver>) {
    forall w :: w in fewer ==> w in more
  }

  lemma {:induction false} MoreWaiversWaiveMore(fs: seq<Finding>, ring: string, fewer: seq<Waiver>, more: seq<Waiver>)
    requires CoversMore(fewer, more)
    ensures AtMost(CountsOf(WaivedOf(fs, ring, fewer)), CountsOf(WaivedOf(fs, ring, more)))
  {
    if fs != [] {
      var k := |fs| - 1;
      var x := fs[k];
      MoreWaiversWaiveMore(fs[..k], ring, fewer, more);
      var a, b := WaivedOf(fs[..k], ring, fewer), WaivedOf(fs[..k], ring, more);
      assert fs[..k + 1] == fs;
      WaivedOneMore(fs, k, ring, fewer);
      WaivedOneMore(fs, k, ring, more);
      assert IsWaived(x, ring, fewer) ==> IsWaived(x, ring, more);
      AddsKeepOrder(CountsOf(a), CountsOf(b), x.severity, IsWaived(x, ring, fewer), IsWaived(x, ring, more));
    }
  }

  lemma {:induction false} MoreWaiversCountLess(scans: seq<Scan>, ring: string, fewer: seq<Waiver>, more: seq<Waiver>)
    requires CoversMore(fewer, more)
    ensures AtMost(SumUnwaived(scans, ring, more), SumUnwaived(scans, ring, fewer))
  {
    if scans != [] {
      var k := |scans| - 1;
      var x := scans[k];
      MoreWaiversCountLess(scans[..k], ring, fewer, more);
      MoreWaiversWaiveMore(x.findings, ring, fewer, more);
      var a, b := CountsOf(WaivedOf(x.findings, ring, fewer)), CountsOf(WaivedOf(x.findings, ring, more));
      assert a.Get(Critical) <= b.Get(Critical) && a.Get(High) <= b.Get(High) && a.Get(Medium) <= b.Get(Medium) && a.Get(Low) <= b.Get(Low);
      PartsAtMost(SumUnwaived(scans[..k], ring, more), SumUnwaived(scans[..k], ring, fewer),
                  Unwaived(x, ring, more), Unwaived(x, ring, fewer));
    }
  }

  /** How bad a verdict on an existing version is. */
  function Badness(v: Verdict): nat {
    match v
    case Go => 0
    case Pending => 1
    case NoGo => 2
    case NoVersion => 0
  }

  /** A waiver never makes a verdict worse, and turns at most a no-go into something better. */
  lemma WaivingNeverHurts(scans: seq<Scan>, ring: string, fewer: seq<Waiver>, more: seq<Waiver>, pol: Policy, now: int)
    requires CoversMore(fewer, more)
    ensures var before, after := VerdictOf(scans, ring, fewer, pol, now), VerdictOf(scans, ring, more, pol, now);
            Badness(after) <= Badness(before) && (before != NoGo ==> after == before)
  {
    MoreWaiversCountLess(scans, ring, fewer, more);
    if Breached(SumUnwaived(scans, ring, more), pol.Limits()) {
      FewerBreachLess(SumUnwaived(scans, ring, more), SumUnwaived(scans, ring, fewer), pol.Limits());
    }
  }

  /** Left alone, a verdict never gets better: waivers run out and scans grow old. */
  lemma EvidenceOnlyAges(scans: seq<Scan>, ring: string, all: seq<Waiver>, now: int, later: int, pol: Policy)
    requires now <= later
    ensures Badness(VerdictOf(scans, ring, InForce(all, now), pol, now)) <= Badness(VerdictOf(scans, ring, InForce(all, later), pol, later))
  {
    var active, activeLater := InForce(all, now), InForce(all, later);
    InForceAre(all, now);
    InForceAre(all, later);
    assert CoversMore(activeLater, active);
    WaivingNeverHurts(scans, ring, activeLater, active, pol, later);
    if SomeStale(scans, pol, now) {
      var kind :| IsStale(scans, pol, now, kind);
      assert IsStale(scans, pol, later, kind);
    }
  }

  /** The clause about a kind's own limits decides nothing: with every kind within its limits or
      not, a no-go is a stale required scan or a total over a limit. */
  lemma NoGoMeans(scans: seq<Scan>, ring: string, waivers: seq<Waiver>, pol: Policy, now: int)
    ensures VerdictOf(scans, ring, waivers, pol, now) == NoGo <==>
              SomeStale(scans, pol, now) || Breached(SumUnwaived(scans, ring, waivers), pol.Limits())
              || exists kind :: Breached(TallyOf(scans, kind, ring, waivers).counts, pol.Limits())
  {
    forall kind | Breached(TallyOf(scans, kind, ring, waivers).counts, pol.Limits())
      ensures Breached(SumUnwaived(scans, ring, waivers), pol.Limits())
    {
      KindBreachIsTotalBreach(scans, kind, ring, waivers, pol.Limits());
    }
  }
}
