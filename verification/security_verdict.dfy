/** A version's security verdict (internal/promoter/security.go with internal/config/security.go
    and the waivers of internal/store/security.go). Times are plain integers. */
module SecurityVerdict {
  import opened Wrappers
  import opened SecurityScans
  import opened ScanStores

  datatype LimitKey = Each(severity: Severity) | Minor

  const LIMIT_KEYS: seq<LimitKey> := [Each(Critical), Each(High), Each(Medium), Each(Low), Minor]

  /** What is left out takes its default; max_age 0 is no bound. */
  datatype Policy = Policy(require: Option<seq<string>>, max: Option<map<LimitKey, int>>, maxAge: int)
  {
    function RequiredKinds(): seq<string> {
      if require.Some? then require.value else ["sast", "sca", "secrets"]
    }

    function Limits(): map<LimitKey, int> {
      if max.Some? then max.value else map[Each(Critical) := 0, Each(High) := 0]
    }
  }

  datatype Waiver = Waiver(finding: string, ring: string, expiresAt: int)
  {
    predicate ActiveAt(now: int) { now < expiresAt }

    /** A waiver without a ring covers every ring. */
    predicate Covers(id: string, onRing: string) {
      finding == id && (ring == "" || ring == onRing)
    }
  }

  datatype CheckStatus = Pass | Fail | Missing | Stale

  datatype Check = Check(kind: string, status: CheckStatus, tally: Tally)

  datatype Verdict = Go | NoGo | Pending | NoVersion

  datatype Evaluation = Evaluation(verdict: Verdict, checks: seq<Check>, counts: Counts, waived: nat)

  /** How much a limit key counts: one severity, or medium and low together. */
  function Limited(c: Counts, key: LimitKey): int {
    match key
    case Each(s) => c.Get(s)
    case Minor => c.medium + c.low
  }

  predicate Over(c: Counts, limits: map<LimitKey, int>, key: LimitKey) {
    key in limits && Limited(c, key) > limits[key]
  }

  ghost predicate Breached(c: Counts, limits: map<LimitKey, int>) {
    exists key :: key in LIMIT_KEYS && Over(c, limits, key)
  }

  predicate IsWaived(f: Finding, ring: string, waivers: seq<Waiver>) {
    exists w :: w in waivers && w.Covers(f.id, ring)
  }

  function WaivedOf(fs: seq<Finding>, ring: string, waivers: seq<Waiver>): seq<Finding> {
    if fs == [] then []
    else WaivedOf(fs[..|fs| - 1], ring, waivers) + if IsWaived(fs[|fs| - 1], ring, waivers) then [fs[|fs| - 1]] else []
  }

  function Minus(a: Counts, b: Counts): Counts {
    Counts(a.critical - b.critical, a.high - b.high, a.medium - b.medium, a.low - b.low)
  }

  function Floor(n: int): int { if n < 0 then 0 else n }

  function Clamp(c: Counts): Counts {
    Counts(Floor(c.critical), Floor(c.high), Floor(c.medium), Floor(c.low))
  }

  /** The findings of a scan that still count. */
  function Unwaived(s: Scan, ring: string, waivers: seq<Waiver>): Counts {
    Clamp(Minus(s.counts, CountsOf(WaivedOf(s.findings, ring, waivers))))
  }

  function SumUnwaived(scans: seq<Scan>, ring: string, waivers: seq<Waiver>): Counts {
    if scans == [] then Counts(0, 0, 0, 0)
    else SumUnwaived(scans[..|scans| - 1], ring, waivers).Plus(Unwaived(scans[|scans| - 1], ring, waivers))
  }

  function SumWaived(scans: seq<Scan>, ring: string, waivers: seq<Waiver>): nat {
    if scans == [] then 0
    else SumWaived(scans[..|scans| - 1], ring, waivers) + |WaivedOf(scans[|scans| - 1].findings, ring, waivers)|
  }

  ghost predicate HasKind(scans: seq<Scan>, kind: string) {
    exists s :: s in scans && s.kind == kind
  }

  /** A required kind has reported, but its newest report is too old. */
  ghost predicate IsStale(scans: seq<Scan>, pol: Policy, now: int, kind: string) {
    && kind in pol.RequiredKinds() && pol.maxAge > 0 && HasKind(scans, kind)
    && forall s :: s in scans && s.kind == kind ==> now - s.scannedAt > pol.maxAge
  }

  ghost predicate SomeStale(scans: seq<Scan>, pol: Policy, now: int) {
    exists kind :: IsStale(scans, pol, now, kind)
  }

  ghost predicate SomeMissing(scans: seq<Scan>, pol: Policy) {
    exists kind :: kind in pol.RequiredKinds() && !HasKind(scans, kind)
  }

  /** The verdict in the policy's own terms, with no mention of kinds except the required ones. */
  ghost function VerdictOf(scans: seq<Scan>, ring: string, waivers: seq<Waiver>, pol: Policy, now: int): Verdict {
    if SomeStale(scans, pol, now) || Breached(SumUnwaived(scans, ring, waivers), pol.Limits()) then NoGo
    else if SomeMissing(scans, pol) then Pending
    else Go
  }

  // ---- One kind's tally ----

  datatype Tally = Tally(scanners: seq<string>, counts: Counts, waived: nat, scannedAt: Option<int>)
  {
    function Take(s: Scan, unwaived: Counts, n: nat): Tally {
      Tally(scanners + [s.scanner], counts.Plus(unwaived), waived + n,
            if scannedAt == None || s.scannedAt > scannedAt.value then Some(s.scannedAt) else scannedAt)
    }
  }

  function TallyOf(scans: seq<Scan>, kind: string, ring: string, waivers: seq<Waiver>): Tally {
    if scans == [] then Tally([], Counts(0, 0, 0, 0), 0, None)
    else
      var s, t := scans[|scans| - 1], TallyOf(scans[..|scans| - 1], kind, ring, waivers);
      if s.kind == kind then t.Take(s, Unwaived(s, ring, waivers), |WaivedOf(s.findings, ring, waivers)|) else t
  }

  function OfKind(scans: seq<Scan>, kind: string): seq<Scan> {
    if scans == [] then []
    else OfKind(scans[..|scans| - 1], kind) + if scans[|scans| - 1].kind == kind then [scans[|scans| - 1]] else []
  }

  lemma TallyTakes(front: seq<Scan>, x: Scan, kind: string, ring: string, waivers: seq<Waiver>)
    ensures TallyOf(front + [x], kind, ring, waivers)
            == if x.kind != kind then TallyOf(front, kind, ring, waivers)
               else TallyOf(front, kind, ring, waivers).Take(x, Unwaived(x, ring, waivers), |WaivedOf(x.findings, ring, waivers)|)
  {
    assert (front + [x])[..|front|] == front;
  }

  lemma OfKindTakes(front: seq<Scan>, x: Scan, kind: string)
    ensures OfKind(front + [x], kind) == OfKind(front, kind) + if x.kind == kind then [x] else []
  {
    assert (front + [x])[..|front|] == front;
  }

  lemma SumTakes(front: seq<Scan>, x: Scan, ring: string, waivers: seq<Waiver>)
    ensures SumUnwaived(front + [x], ring, waivers) == SumUnwaived(front, ring, waivers).Plus(Unwaived(x, ring, waivers))
    ensures SumWaived(front + [x], ring, waivers) == SumWaived(front, ring, waivers) + |WaivedOf(x.findings, ring, waivers)|
  {
    assert (front + [x])[..|front|] == front;
  }

  lemma NoScansTally(scans: seq<Scan>, kind: string, ring: string, waivers: seq<Waiver>)
    requires scans == []
    ensures TallyOf(scans, kind, ring, waivers) == Tally([], Counts(0, 0, 0, 0), 0, None) && OfKind(scans, kind) == []
    ensures SumUnwaived(scans, ring, waivers) == Counts(0, 0, 0, 0) && SumWaived(scans, ring, waivers) == 0
  {
  }

  /** A tally sums its kind's scans. */
  lemma {:induction false} TallySumsItsKind(scans: seq<Scan>, kind: string, ring: string, waivers: seq<Waiver>)
    ensures var t, mine := TallyOf(scans, kind, ring, waivers), OfKind(scans, kind);
            t.counts == SumUnwaived(mine, ring, waivers) && t.waived == SumWaived(mine, ring, waivers)
            && |t.scanners| == |mine| && forall i :: 0 <= i < |mine| ==> t.scanners[i] == mine[i].scanner
  {
    hide Unwaived, WaivedOf, TallyOf, OfKind, SumUnwaived, SumWaived;
    if scans == [] {
      NoScansTally(scans, kind, ring, waivers);
      NoScansTally(OfKind(scans, kind), kind, ring, waivers);
    } else {
      var k := |scans| - 1;
      var front, x := scans[..k], scans[k];
      TallySumsItsKind(front, kind, ring, waivers);
      assert scans == front + [x];
      TallyTakes(front, x, kind, ring, waivers);
      OfKindTakes(front, x, kind);
      SumTakes(OfKind(front, kind), x, ring, waivers);
      assert OfKind(front, kind) + [] == OfKind(front, kind);
    }
  }

  /** The time of a kind's newest scan. */
  ghost predicate Newest(t: Option<int>, scans: seq<Scan>, kind: string) {
    match t
    case None => !HasKind(scans, kind)
    case Some(at) =>
      && (exists s :: s in scans && s.kind == kind && s.scannedAt == at)
      && forall s :: s in scans && s.kind == kind ==> s.scannedAt <= at
  }

  lemma {:induction false} TallyKeepsTheNewest(scans: seq<Scan>, kind: string, ring: string, waivers: seq<Waiver>)
    ensures var t := TallyOf(scans, kind, ring, waivers);
            Newest(t.scannedAt, scans, kind) && (t.scanners != [] <==> HasKind(scans, kind))
  {
    hide Unwaived, WaivedOf;
    if scans != [] {
      var k := |scans| - 1;
      TallyKeepsTheNewest(scans[..k], kind, ring, waivers);
      NewestOfOneMore(TallyOf(scans[..k], kind, ring, waivers).scannedAt, scans[..k], scans[k], kind);
      assert scans == scans[..k] + [scans[k]];
    }
  }

  lemma NewestOfOneMore(t: Option<int>, front: seq<Scan>, x: Scan, kind: string)
    requires Newest(t, front, kind)
    ensures Newest(if x.kind == kind && (t == None || x.scannedAt > t.value) then Some(x.scannedAt) else t, front + [x], kind)
    ensures HasKind(front + [x], kind) <==> HasKind(front, kind) || x.kind == kind
  {
    assert forall s :: s in front + [x] <==> s in front || s == x;
    if x.kind == kind {
      assert x in front + [x];
    }
    if HasKind(front, kind) {
      var s :| s in front && s.kind == kind;
      assert s in front + [x];
      if t.Some? {
        var n :| n in front && n.kind == kind && n.scannedAt == t.value;
        assert n in front + [x];
      }
    }
  }

  /** A kind counts for no more than all the scans do. */
  lemma {:induction false} KindAtMostTotal(scans: seq<Scan>, kind: string, ring: string, waivers: seq<Waiver>)
    ensures AtMost(TallyOf(scans, kind, ring, waivers).counts, SumUnwaived(scans, ring, waivers))
  {
    if scans != [] {
      KindAtMostTotal(scans[..|scans| - 1], kind, ring, waivers);
      var a, b := TallyOf(scans[..|scans| - 1], kind, ring, waivers).counts, SumUnwaived(scans[..|scans| - 1], ring, waivers);
      assert a.Get(Critical) <= b.Get(Critical) && a.Get(High) <= b.Get(High) && a.Get(Medium) <= b.Get(Medium) && a.Get(Low) <= b.Get(Low);
    }
  }

  /** Fewer findings of every severity never break more limits, medium and low together included. */
  lemma FewerBreachLess(a: Counts, b: Counts, limits: map<LimitKey, int>)
    requires AtMost(a, b) && Breached(a, limits)
    ensures Breached(b, limits)
  {
    var key :| key in LIMIT_KEYS && Over(a, limits, key);
    assert a.Get(Medium) <= b.Get(Medium) && a.Get(Low) <= b.Get(Low);
    assert Over(b, limits, key);
  }

  /** A kind over a limit puts the whole version over that limit. */
  lemma KindBreachIsTotalBreach(scans: seq<Scan>, kind: string, ring: string, waivers: seq<Waiver>, limits: map<LimitKey, int>)
    requires Breached(TallyOf(scans, kind, ring, waivers).counts, limits)
    ensures Breached(SumUnwaived(scans, ring, waivers), limits)
  {
    KindAtMostTotal(scans, kind, ring, waivers);
    FewerBreachLess(TallyOf(scans, kind, ring, waivers).counts, SumUnwaived(scans, ring, waivers), limits);
  }

  // ---- The kinds together ----

  ghost predicate NoRepeats(order: seq<string>) {
    forall i, j :: 0 <= i < j < |order| ==> order[i] != order[j]
  }

  function SumOver(order: seq<string>, scans: seq<Scan>, ring: string, waivers: seq<Waiver>): Counts {
    if order == [] then Counts(0, 0, 0, 0)
    else SumOver(order[..|order| - 1], scans, ring, waivers).Plus(TallyOf(scans, order[|order| - 1], ring, waivers).counts)
  }

  function WaivedOver(order: seq<string>, scans: seq<Scan>, ring: string, waivers: seq<Waiver>): nat {
    if order == [] then 0
    else WaivedOver(order[..|order| - 1], scans, ring, waivers) + TallyOf(scans, order[|order| - 1], ring, waivers).waived
  }

  lemma PlusLaws(a: Counts, b: Counts, c: Counts)
    ensures a.Plus(b).Plus(c) == a.Plus(c).Plus(b) && a.Plus(b).Plus(c) == a.Plus(b.Plus(c))
    ensures a.Plus(Counts(0, 0, 0, 0)) == a && Counts(0, 0, 0, 0).Plus(a) == a
  {
  }

  lemma OverTakes(front: seq<string>, kind: string, scans: seq<Scan>, ring: string, waivers: seq<Waiver>)
    ensures SumOver(front + [kind], scans, ring, waivers)
            == SumOver(front, scans, ring, waivers).Plus(TallyOf(scans, kind, ring, waivers).counts)
    ensures WaivedOver(front + [kind], scans, ring, waivers)
            == WaivedOver(front, scans, ring, waivers) + TallyOf(scans, kind, ring, waivers).waived
  {
    assert (front + [kind])[..|front|] == front;
  }

  lemma NoKindsOver(order: seq<string>, scans: seq<Scan>, ring: string, waivers: seq<Waiver>)
    requires order == []
    ensures SumOver(order, scans, ring, waivers) == Counts(0, 0, 0, 0) && WaivedOver(order, scans, ring, waivers) == 0
  {
  }

  /** A scan adds to exactly one kind. */
  lemma {:induction false} OneScanMore(order: seq<string>, front: seq<Scan>, x: Scan, ring: string, waivers: seq<Waiver>)
    requires NoRepeats(order)
    ensures SumOver(order, front + [x], ring, waivers)
            == SumOver(order, front, ring, waivers).Plus(if x.kind in order then Unwaived(x, ring, waivers) else Counts(0, 0, 0, 0))
    ensures WaivedOver(order, front + [x], ring, waivers)
            == WaivedOver(order, front, ring, waivers) + if x.kind in order then |WaivedOf(x.findings, ring, waivers)| else 0
    decreases |order|
  {
    hide Unwaived, WaivedOf, TallyOf, SumOver, WaivedOver, Counts.Plus;
    var add := if x.kind in order then Unwaived(x, ring, waivers) else Counts(0, 0, 0, 0);
    if order == [] {
      PlusLaws(SumOver(order, front, ring, waivers), add, add);
      NoKindsOver(order, front, ring, waivers);
      NoKindsOver(order, front + [x], ring, waivers);
    } else {
      var k := |order| - 1;
      OneScanMore(order[..k], front, x, ring, waivers);
      TallyTakes(front, x, order[k], ring, waivers);
      assert order == order[..k] + [order[k]];
      assert order[k] !in order[..k];
      OverTakes(order[..k], order[k], front, ring, waivers);
      OverTakes(order[..k], order[k], front + [x], ring, waivers);
      PlusLaws(SumOver(order[..k], front, ring, waivers), TallyOf(front, order[k], ring, waivers).counts, add);
      PlusLaws(SumOver(order[..k], front, ring, waivers), TallyOf(front, order[k], ring, waivers).counts, Counts(0, 0, 0, 0));
    }
  }

  lemma {:induction false} NothingOver(order: seq<string>, scans: seq<Scan>, ring: string, waivers: seq<Waiver>)
    requires scans == []
    ensures SumOver(order, scans, ring, waivers) == Counts(0, 0, 0, 0) && WaivedOver(order, scans, ring, waivers) == 0
    decreases |order|
  {
    hide TallyOf, SumOver, WaivedOver, SumUnwaived, SumWaived, Counts.Plus;
    PlusLaws(Counts(0, 0, 0, 0), Counts(0, 0, 0, 0), Counts(0, 0, 0, 0));
    if order == [] {
      NoKindsOver(order, scans, ring, waivers);
    } else {
      var k := |order| - 1;
      NothingOver(order[..k], scans, ring, waivers);
      NoScansTally(scans, order[k], ring, waivers);
      assert order == order[..k] + [order[k]];
      OverTakes(order[..k], order[k], scans, ring, waivers);
    }
  }

  /** Summing kind by kind loses no scan and counts none twice. */
  lemma {:induction false} KindsAddUp(order: seq<string>, scans: seq<Scan>, ring: string, waivers: seq<Waiver>)
    requires NoRepeats(order) && forall s :: s in scans ==> s.kind in order
    ensures SumOver(order, scans, ring, waivers) == SumUnwaived(scans, ring, waivers)
    ensures WaivedOver(order, scans, ring, waivers) == SumWaived(scans, ring, waivers)
    decreases |scans|
  {
    hide Unwaived, WaivedOf, TallyOf, SumOver, WaivedOver, SumUnwaived, SumWaived, Counts.Plus;
    if scans == [] {
      NothingOver(order, scans, ring, waivers);
      NoScansTally(scans, "", ring, waivers);
    } else {
      var k := |scans| - 1;
      KindsAddUp(order, scans[..k], ring, waivers);
      assert scans == scans[..k] + [scans[k]];
      OneScanMore(order, scans[..k], scans[k], ring, waivers);
      SumTakes(scans[..k], scans[k], ring, waivers);
    }
  }

  // ---- The evaluation ----

  /** The waivers that have not expired, in the order they are listed. */
  ghost function InForce(all: seq<Waiver>, now: int): seq<Waiver> {
    if all == [] then []
    else InForce(all[..|all| - 1], now) + if now < all[|all| - 1].expiresAt then [all[|all| - 1]] else []
  }

  lemma {:induction false} InForceAre(all: seq<Waiver>, now: int)
    ensures forall w :: w in InForce(all, now) <==> w in all && now < w.expiresAt
  {
    if all != [] {
      InForceAre(all[..|all| - 1], now);
      assert all == all[..|all| - 1] + [all[|all| - 1]];
    }
  }

  method ActiveWaivers(all: seq<Waiver>, now: int) returns (active: seq<Waiver>)
    ensures active == InForce(all, now)
  {
    active := [];
    assert all[..|all|] == all;
    for i := 0 to |all|
      invariant active == InForce(all[..i], now)
    {
      assert all[..i + 1][..i] == all[..i];
      if all[i].ActiveAt(now) {
        active := active + [all[i]];
      }
    }
  }

  /** The limits exceeded, in the order of the limit keys. */
  method Breaches(c: Counts, limits: map<LimitKey, int>) returns (over: seq<LimitKey>)
    ensures forall key :: key in over <==> key in LIMIT_KEYS && Over(c, limits, key)
    ensures over != [] <==> Breached(c, limits)
  {
    over := [];
    for i := 0 to |LIMIT_KEYS|
      invariant forall key :: key in over <==> key in LIMIT_KEYS[..i] && Over(c, limits, key)
    {
      if Over(c, limits, LIMIT_KEYS[i]) {
        over := over + [LIMIT_KEYS[i]];
      }
    }
    if over != [] {
      assert over[0] in over;
    }
  }

  /** Takes each waived finding off a scan's counts. */
  method TakeOffWaived(s: Scan, ring: string, waivers: seq<Waiver>) returns (counts: Counts, waived: nat)
    ensures counts == Minus(s.counts, CountsOf(WaivedOf(s.findings, ring, waivers)))
    ensures waived == |WaivedOf(s.findings, ring, waivers)|
  {
    counts, waived := s.counts, 0;
    for i := 0 to |s.findings|
      invariant counts == Minus(s.counts, CountsOf(WaivedOf(s.findings[..i], ring, waivers)))
      invariant waived == |WaivedOf(s.findings[..i], ring, waivers)|
    {
      hide WaivedOf, CountsOf;
      var f := s.findings[i];
      var covered := false;
      for j := 0 to |waivers|
        invariant !covered && forall w :: w in waivers[..j] ==> !w.Covers(f.id, ring)
      {
        if waivers[j].Covers(f.id, ring) {
          covered := true;
          break;
        }
      }
      WaivedOneMore(s.findings, i, ring, waivers);
      if covered {
        assert IsWaived(f, ring, waivers);
        counts, waived := counts.Add(f.severity, -1), waived + 1;
      }
    }
    assert s.findings[..|s.findings|] == s.findings;
  }

  /** No count stays below 0. */
  method ClampAtZero(c: Counts) returns (counts: Counts)
    ensures counts == Clamp(c)
  {
    counts := c;
    for i := 0 to |SEVERITIES|
      invariant forall k :: 0 <= k < 4 ==>
                  counts.Get(SEVERITIES[k]) == if k < i then Floor(c.Get(SEVERITIES[k])) else c.Get(SEVERITIES[k])
    {
      var sev := SEVERITIES[i];
      if counts.Get(sev) < 0 {
        counts := counts.Add(sev, -counts.Get(sev));
      }
    }
    assert counts.Get(SEVERITIES[0]) == counts.critical && counts.Get(SEVERITIES[1]) == counts.high;
    assert counts.Get(SEVERITIES[2]) == counts.medium && counts.Get(SEVERITIES[3]) == counts.low;
  }

  /** What a scan still counts for. */
  method CountUnwaived(s: Scan, ring: string, waivers: seq<Waiver>) returns (counts: Counts, waived: nat)
    ensures counts == Unwaived(s, ring, waivers) && waived == |WaivedOf(s.findings, ring, waivers)|
  {
    counts, waived := TakeOffWaived(s, ring, waivers);
    counts := ClampAtZero(counts);
  }

  lemma WaivedOneMore(fs: seq<Finding>, i: nat, ring: string, waivers: seq<Waiver>)
    requires i < |fs|
    ensures var before, after := WaivedOf(fs[..i], ring, waivers), WaivedOf(fs[..i + 1], ring, waivers);
            if IsWaived(fs[i], ring, waivers) then after == before + [fs[i]] && CountsOf(after) == CountsOf(before).Add(fs[i].severity, 1)
            else after == before
  {
    assert fs[..i + 1][..i] == fs[..i];
    var before := WaivedOf(fs[..i], ring, waivers);
    assert (before + [fs[i]])[..|before|] == before;
  }

  ghost predicate Tallied(tallies: map<string, Tally>, order: seq<string>, scans: seq<Scan>, ring: string, waivers: seq<Waiver>) {
    && NoRepeats(order) && (forall k :: k in tallies <==> k in order)
    && (forall k :: k in tallies ==> tallies[k] == TallyOf(scans, k, ring, waivers))
    && (forall s :: s in scans ==> s.kind in order)
  }

  /** Kinds in the order they are first met: the required ones, then those of the scans. */
  method TallyByKind(required: seq<string>, scans: seq<Scan>, ring: string, waivers: seq<Waiver>)
    returns (tallies: map<string, Tally>, order: seq<string>)
    ensures Tallied(tallies, order, scans, ring, waivers)
    ensures forall k :: k in order <==> k in required || HasKind(scans, k)
  {
    tallies, order := map[], [];
    for i := 0 to |required|
      invariant Tallied(tallies, order, [], ring, waivers) && forall k :: k in order <==> k in required[..i]
    {
      if required[i] !in tallies {
        tallies, order := tallies[required[i] := Tally([], Counts(0, 0, 0, 0), 0, None)], order + [required[i]];
      }
    }
    assert scans[..0] == [];
    for i := 0 to |scans|
      invariant Tallied(tallies, order, scans[..i], ring, waivers)
      invariant forall k :: k in order <==> k in required || HasKind(scans[..i], k)
    {
      var s := scans[i];
      var unwaived, n := CountUnwaived(s, ring, waivers);
      var t := if s.kind in tallies then tallies[s.kind] else Tally([], Counts(0, 0, 0, 0), 0, None);
      TallyOneMore(tallies, order, scans, i, ring, waivers);
      if s.kind !in tallies {
        order := order + [s.kind];
      }
      tallies := tallies[s.kind := t.Take(s, unwaived, n)];
    }
    assert scans[..|scans|] == scans;
  }

  lemma {:induction false} NoScanOfKind(scans: seq<Scan>, kind: string, ring: string, waivers: seq<Waiver>)
    requires forall s :: s in scans ==> s.kind != kind
    ensures TallyOf(scans, kind, ring, waivers) == Tally([], Counts(0, 0, 0, 0), 0, None)
  {
    hide Unwaived, WaivedOf;
    if scans != [] {
      assert scans[|scans| - 1] in scans;
      NoScanOfKind(scans[..|scans| - 1], kind, ring, waivers);
    }
  }

  lemma TallyOneMore(tallies: map<string, Tally>, order: seq<string>, scans: seq<Scan>, i: nat, ring: string, waivers: seq<Waiver>)
    requires i < |scans| && Tallied(tallies, order, scans[..i], ring, waivers)
    ensures var s := scans[i];
            var t := if s.kind in tallies then tallies[s.kind] else Tally([], Counts(0, 0, 0, 0), 0, None);
            Tallied(tallies[s.kind := t.Take(s, Unwaived(s, ring, waivers), |WaivedOf(s.findings, ring, waivers)|)],
                    if s.kind in tallies then order else order + [s.kind], scans[..i + 1], ring, waivers)
    ensures forall k :: HasKind(scans[..i + 1], k) <==> HasKind(scans[..i], k) || k == scans[i].kind
  {
    hide Unwaived, WaivedOf, TallyOf;
    var s, front := scans[i], scans[..i];
    assert scans[..i + 1] == front + [s];
    if s.kind !in tallies {
      NoScanOfKind(front, s.kind, ring, waivers);
    }
    forall k ensures TallyOf(front + [s], k, ring, waivers)
                     == if s.kind != k then TallyOf(front, k, ring, waivers)
                        else TallyOf(front, k, ring, waivers).Take(s, Unwaived(s, ring, waivers), |WaivedOf(s.findings, ring, waivers)|)
    {
      TallyTakes(front, s, k, ring, waivers);
    }
    HasOneMore(front, s);
  }

  lemma HasOneMore(front: seq<Scan>, x: Scan)
    ensures forall k :: HasKind(front + [x], k) <==> HasKind(front, k) || k == x.kind
  {
    forall k ensures HasKind(front + [x], k) <==> HasKind(front, k) || k == x.kind {
      assert x in front + [x];
      if HasKind(front, k) {
        var s :| s in front && s.kind == k;
        assert s in front + [x];
      }
    }
  }

  ghost predicate CheckRight(c: Check, scans: seq<Scan>, ring: string, waivers: seq<Waiver>, pol: Policy, now: int) {
    && c.tally == TallyOf(scans, c.kind, ring, waivers)
    && (c.status == Missing <==> !HasKind(scans, c.kind))
    && (c.status == Stale <==> IsStale(scans, pol, now, c.kind))
    && (c.status == Fail <==> HasKind(scans, c.kind) && !IsStale(scans, pol, now, c.kind) && Breached(c.tally.counts, pol.Limits()))
  }

  method CheckKind(kind: string, t: Tally, scans: seq<Scan>, ring: string, waivers: seq<Waiver>, pol: Policy, now: int)
    returns (status: CheckStatus)
    requires t == TallyOf(scans, kind, ring, waivers)
    ensures CheckRight(Check(kind, status, t), scans, ring, waivers, pol, now)
  {
    TallyKeepsTheNewest(scans, kind, ring, waivers);
    if |t.scanners| == 0 {
      return Missing;
    }
    if kind in pol.RequiredKinds() && pol.maxAge > 0 && now - t.scannedAt.value > pol.maxAge {
      return Stale;
    }
    var over := Breaches(t.counts, pol.Limits());
    status := if |over| > 0 then Fail else Pass;
  }

  /** Evaluates a version's scans, in whatever order they are listed. */
  method EvaluateSecurity(scans: seq<Scan>, all: seq<Waiver>, ring: string, version: string, pol: Policy, now: int)
    returns (ev: Evaluation)
    ensures version == "" ==> ev == Evaluation(NoVersion, [], Counts(0, 0, 0, 0), 0)
    ensures version != "" ==>
              && ev.verdict == VerdictOf(scans, ring, InForce(all, now), pol, now)
              && ev.counts == SumUnwaived(scans, ring, InForce(all, now)) && ev.waived == SumWaived(scans, ring, InForce(all, now))
              && (forall c :: c in ev.checks ==> CheckRight(c, scans, ring, InForce(all, now), pol, now))
              && (forall i, j :: 0 <= i < j < |ev.checks| ==> ev.checks[i].kind != ev.checks[j].kind)
              && (forall k :: (exists c :: c in ev.checks && c.kind == k) <==> k in pol.RequiredKinds() || HasKind(scans, k))
  {
    hide TallyOf, SumOver, WaivedOver, SumUnwaived, SumWaived, Counts.Plus, SomeStale, SomeMissing, Breached, IsStale, CheckRight, InForce;
    if version == "" {
      return Evaluation(NoVersion, [], Counts(0, 0, 0, 0), 0);
    }
    var waivers := ActiveWaivers(all, now);
    var tallies, order := TallyByKind(pol.RequiredKinds(), scans, ring, waivers);
    var failed, missing, counts, waived := false, false, Counts(0, 0, 0, 0), 0;
    var checks: seq<Check> := [];
    NoKindsOver([], scans, ring, waivers);
    for i := 0 to |order|
      invariant |checks| == i && forall j :: 0 <= j < i ==> checks[j].kind == order[j]
      invariant forall c :: c in checks ==> CheckRight(c, scans, ring, waivers, pol, now)
      invariant failed <==> exists c :: c in checks && c.status in {Stale, Fail}
      invariant missing <==> exists c :: c in checks && c.status == Missing
      invariant counts == SumOver(order[..i], scans, ring, waivers) && waived == WaivedOver(order[..i], scans, ring, waivers)
    {
      var kind := order[i];
      var t := tallies[kind];
      var status := CheckKind(kind, t, scans, ring, waivers, pol, now);
      failed, missing := failed || status in {Stale, Fail}, missing || status == Missing;
      counts, waived := counts.Plus(t.counts), waived + t.waived;
      checks := checks + [Check(kind, status, t)];
      assert order[..i + 1] == order[..i] + [kind];
      OverTakes(order[..i], kind, scans, ring, waivers);
    }
    assert order[..|order|] == order;
    KindsAddUp(order, scans, ring, waivers);
    var over := Breaches(counts, pol.Limits());
    VerdictFromChecks(scans, ring, waivers, pol, now, order, checks);
    if |over| > 0 && !failed {
      failed := true;
    }
    ev := Evaluation(if failed then NoGo else if missing then Pending else Go, checks, counts, waived);
  }

  /** Reads a version's scans from the store and evaluates them. */
  method EvaluateVersion(store: ScanStore, app: string, version: string, all: seq<Waiver>, ring: string, pol: Policy, now: int)
    returns (ev: Evaluation, ghost scans: seq<Scan>)
    requires store.Valid()
    ensures version == "" ==> ev == Evaluation(NoVersion, [], Counts(0, 0, 0, 0), 0)
    ensures version != "" ==>
              && store.Lists(scans, app, version)
              && ev.verdict == VerdictOf(scans, ring, InForce(all, now), pol, now)
              && ev.counts == SumUnwaived(scans, ring, InForce(all, now)) && ev.waived == SumWaived(scans, ring, InForce(all, now))
              && (forall c :: c in ev.checks ==> CheckRight(c, scans, ring, InForce(all, now), pol, now))
  {
    hide VerdictOf, SumUnwaived, SumWaived, CheckRight;
    if version == "" {
      return Evaluation(NoVersion, [], Counts(0, 0, 0, 0), 0), [];
    }
    var list := store.ListSecurityScans(app, version);
    scans := list;
    ev := EvaluateSecurity(list, all, ring, version, pol, now);
  }

  /** What the checks found, told without them. */
  lemma VerdictFromChecks(scans: seq<Scan>, ring: string, waivers: seq<Waiver>, pol: Policy, now: int, order: seq<string>, checks: seq<Check>)
    requires |checks| == |order| && forall j :: 0 <= j < |order| ==> checks[j].kind == order[j]
    requires forall c :: c in checks ==> CheckRight(c, scans, ring, waivers, pol, now)
    requires forall k :: k in order <==> k in pol.RequiredKinds() || HasKind(scans, k)
    ensures forall k :: (exists c :: c in checks && c.kind == k) <==> k in order
    ensures (exists c :: c in checks && c.status in {Stale, Fail}) ==>
              SomeStale(scans, pol, now) || Breached(SumUnwaived(scans, ring, waivers), pol.Limits())
    ensures SomeStale(scans, pol, now) ==> exists c :: c in checks && c.status in {Stale, Fail}
    ensures (exists c :: c in checks && c.status == Missing) <==> SomeMissing(scans, pol)
  {
    forall k | k in order ensures exists c :: c in checks && c.kind == k {
      var j :| 0 <= j < |order| && order[j] == k;
      assert checks[j] in checks;
    }
    if c :| c in checks && c.status in {Stale, Fail} {
      if c.status == Fail {
        KindBreachIsTotalBreach(scans, c.kind, ring, waivers, pol.Limits());
      }
    }
    if kind :| IsStale(scans, pol, now, kind) {
      var c :| c in checks && c.kind == kind;
    }
    if kind :| kind in pol.RequiredKinds() && !HasKind(scans, kind) {
      var c :| c in checks && c.kind == kind;
    }
  }
}
