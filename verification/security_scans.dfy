/** Recording a scanner's report (internal/promoter/security.go): validation, counting, the
    stable severity sort and the cap on stored findings. Texts are taken as already trimmed and
    in lower case. */
module SecurityScans {
  import opened Wrappers

  /** Other stands for every text that names no severity. */
  datatype Severity = Critical | High | Medium | Low | Other

  const SEVERITIES: seq<Severity> := [Critical, High, Medium, Low]

  const SCAN_KINDS: seq<string> := ["sast", "sca", "secrets", "container", "iac", "dast", "license"]

  const MAX_STORED_FINDINGS: nat := 500

  /** Position in the list of severities, most severe first; an unknown one comes last. */
  function Rank(s: Severity): nat {
    match s
    case Critical => 0
    case High => 1
    case Medium => 2
    case Low => 3
    case Other => 4
  }

  /** Critical before high before medium before low before anything else. */
  predicate Worse(a: Severity, b: Severity) {
    match a
    case Critical => !b.Critical?
    case High => b.Medium? || b.Low? || b.Other?
    case Medium => b.Low? || b.Other?
    case Low => b.Other?
    case Other => false
  }

  datatype Finding = Finding(id: string, severity: Severity)

  datatype Counts = Counts(critical: int, high: int, medium: int, low: int)
  {
    function Get(s: Severity): int {
      match s
      case Critical => critical
      case High => high
      case Medium => medium
      case Low => low
      case Other => 0
    }

    function Add(s: Severity, n: int): Counts {
      match s
      case Critical => this.(critical := critical + n)
      case High => this.(high := high + n)
      case Medium => this.(medium := medium + n)
      case Low => this.(low := low + n)
      case Other => this
    }

    function Plus(o: Counts): Counts {
      Counts(critical + o.critical, high + o.high, medium + o.medium, low + o.low)
    }

    predicate Negative() {
      critical < 0 || high < 0 || medium < 0 || low < 0
    }

    function Sum(): int { critical + high + medium + low }
  }

  /** No severity counts more in a than in b. */
  ghost predicate AtMost(a: Counts, b: Counts) {
    forall s :: a.Get(s) <= b.Get(s)
  }

  function CountsOf(fs: seq<Finding>): Counts {
    if fs == [] then Counts(0, 0, 0, 0) else CountsOf(fs[..|fs| - 1]).Add(fs[|fs| - 1].severity, 1)
  }

  /** The findings of one severity, in order. */
  function Only(fs: seq<Finding>, s: Severity): seq<Finding> {
    if fs == [] then []
    else Only(fs[..|fs| - 1], s) + if fs[|fs| - 1].severity == s then [fs[|fs| - 1]] else []
  }

  /** The stable sort by severity. */
  function BySeverity(fs: seq<Finding>): seq<Finding> {
    Only(fs, Critical) + Only(fs, High) + Only(fs, Medium) + Only(fs, Low) + Only(fs, Other)
  }

  function Stored(fs: seq<Finding>): seq<Finding> {
    if |fs| > MAX_STORED_FINDINGS then
      SortLength(fs);
      BySeverity(fs)[..MAX_STORED_FINDINGS]
    else fs
  }

  ghost predicate InOrder(fs: seq<Finding>) {
    forall i, j :: 0 <= i < j < |fs| ==> Rank(fs[i].severity) <= Rank(fs[j].severity)
  }

  // ---- The sort ----

  lemma OnlyHas(fs: seq<Finding>, s: Severity)
    ensures forall f :: f in Only(fs, s) ==> f in fs && f.severity == s
  {
  }

  lemma {:induction false} OnlyConcat(a: seq<Finding>, b: seq<Finding>, s: Severity)
    ensures Only(a + b, s) == Only(a, s) + Only(b, s)
    decreases |b|
  {
    if b == [] {
      assert a + b == a;
    } else {
      var k := |b| - 1;
      assert (a + b)[..|a + b| - 1] == a + b[..k];
      OnlyConcat(a, b[..k], s);
    }
  }

  lemma {:induction false} OnlyTwice(fs: seq<Finding>, s: Severity, t: Severity)
    ensures Only(Only(fs, s), t) == if s == t then Only(fs, s) else []
  {
    if fs != [] {
      var front, x := fs[..|fs| - 1], fs[|fs| - 1];
      OnlyTwice(front, s, t);
      if x.severity == s {
        OnlyConcat(Only(front, s), [x], t);
        assert [x][..0] == [] && [x][0] == x;
        assert Only([x], t) == if s == t then [x] else [];
        assert Only(fs, s) == Only(front, s) + [x];
      } else {
        assert Only(fs, s) == Only(front, s);
      }
    }
  }

  /** Sorting keeps the findings of each severity, each as often and in the order reported: it is
      a permutation, and a stable one. */
  lemma SortKeepsEachSeverity(fs: seq<Finding>, s: Severity)
    ensures Only(BySeverity(fs), s) == Only(fs, s)
  {
    hide Only;
    var c, h, m, l, o := Only(fs, Critical), Only(fs, High), Only(fs, Medium), Only(fs, Low), Only(fs, Other);
    OnlyConcat(c + h + m + l, o, s);
    OnlyConcat(c + h + m, l, s);
    OnlyConcat(c + h, m, s);
    OnlyConcat(c, h, s);
    OnlyTwice(fs, Critical, s);
    OnlyTwice(fs, High, s);
    OnlyTwice(fs, Medium, s);
    OnlyTwice(fs, Low, s);
    OnlyTwice(fs, Other, s);
    match s {
      case Critical => assert Only(BySeverity(fs), s) == c + [] + [] + [] + [];
      case High => assert Only(BySeverity(fs), s) == [] + h + [] + [] + [];
      case Medium => assert Only(BySeverity(fs), s) == [] + [] + m + [] + [];
      case Low => assert Only(BySeverity(fs), s) == [] + [] + [] + l + [];
      case Other => assert Only(BySeverity(fs), s) == [] + [] + [] + [] + o;
    }
  }

  lemma JoinInOrder(a: seq<Finding>, b: seq<Finding>, r: nat)
    requires InOrder(a) && InOrder(b)
    requires (forall f :: f in a ==> Rank(f.severity) <= r) && (forall f :: f in b ==> Rank(f.severity) >= r)
    ensures InOrder(a + b)
  {
    var c := a + b;
    forall i, j | 0 <= i < j < |c| ensures Rank(c[i].severity) <= Rank(c[j].severity) {
      if i < |a| <= j {
        assert c[i] in a && c[j] in b;
      }
    }
  }

  lemma OneSeverityInOrder(fs: seq<Finding>, s: Severity)
    ensures InOrder(Only(fs, s)) && forall f :: f in Only(fs, s) ==> Rank(f.severity) == Rank(s)
  {
    OnlyHas(fs, s);
    var one := Only(fs, s);
    forall i, j | 0 <= i < j < |one| ensures Rank(one[i].severity) <= Rank(one[j].severity) {
      assert one[i] in one && one[j] in one;
    }
  }

  lemma SortIsInOrder(fs: seq<Finding>)
    ensures InOrder(BySeverity(fs))
  {
    var c, h, m, l, o := Only(fs, Critical), Only(fs, High), Only(fs, Medium), Only(fs, Low), Only(fs, Other);
    OneSeverityInOrder(fs, Critical);
    OneSeverityInOrder(fs, High);
    OneSeverityInOrder(fs, Medium);
    OneSeverityInOrder(fs, Low);
    OneSeverityInOrder(fs, Other);
    JoinInOrder(c, h, 1);
    JoinInOrder(c + h, m, 2);
    JoinInOrder(c + h + m, l, 3);
    JoinInOrder(c + h + m + l, o, 4);
  }

  lemma {:induction false} InOrderIsSorted(fs: seq<Finding>)
    requires InOrder(fs)
    ensures BySeverity(fs) == fs
  {
    if fs != [] {
      var k := |fs| - 1;
      var front, x := fs[..k], fs[k];
      InOrderIsSorted(front);
      forall s | Rank(s) > Rank(x.severity) ensures Only(front, s) == [] {
        OnlyHas(front, s);
        if Only(front, s) != [] {
          assert Only(front, s)[0] in Only(front, s);
        }
      }
      assert fs == front + [x];
      SortAppends(front, x);
    }
  }

  /** What is no more severe than anything before it is sorted to the end. */
  lemma SortAppends(front: seq<Finding>, x: Finding)
    requires forall s :: Rank(s) > Rank(x.severity) ==> Only(front, s) == []
    ensures BySeverity(front + [x]) == BySeverity(front) + [x]
  {
    var fs := front + [x];
    assert fs[..|fs| - 1] == front;
    forall s ensures Only(fs, s) == Only(front, s) + if s == x.severity then [x] else [] {
    }
    hide Only;
    match x.severity {
      case Critical =>
      case High =>
      case Medium =>
      case Low =>
      case Other =>
    }
  }

  /** There is only one stable sort: any ordered list with each severity's findings in the order
      reported is this one. */
  lemma StableSortIsUnique(fs: seq<Finding>, sorted: seq<Finding>)
    requires InOrder(sorted) && forall s :: Only(sorted, s) == Only(fs, s)
    ensures sorted == BySeverity(fs)
  {
    InOrderIsSorted(sorted);
  }

  lemma {:induction false} CountIsLength(fs: seq<Finding>, s: Severity)
    ensures s != Other ==> CountsOf(fs).Get(s) == |Only(fs, s)|
    ensures CountsOf(fs).Get(s) >= 0
  {
    if fs != [] {
      CountIsLength(fs[..|fs| - 1], s);
    }
  }

  lemma {:induction false} SortLength(fs: seq<Finding>)
    ensures |BySeverity(fs)| == |fs|
  {
    if fs != [] {
      SortLength(fs[..|fs| - 1]);
    }
  }

  lemma CapCuts(fs: seq<Finding>)
    requires |fs| > MAX_STORED_FINDINGS
    ensures |BySeverity(fs)| == |fs| && Stored(fs) == BySeverity(fs)[..MAX_STORED_FINDINGS]
    ensures forall k, d :: k in Stored(fs) && d in BySeverity(fs)[MAX_STORED_FINDINGS..] ==> Rank(k.severity) <= Rank(d.severity)
  {
    SortLength(fs);
    SortIsInOrder(fs);
    hide BySeverity, Rank;
    var sorted := BySeverity(fs);
    var kept, dropped := sorted[..MAX_STORED_FINDINGS], sorted[MAX_STORED_FINDINGS..];
    forall k, d | k in kept && d in dropped ensures Rank(k.severity) <= Rank(d.severity) {
      var i :| 0 <= i < |kept| && kept[i] == k;
      var j :| 0 <= j < |dropped| && dropped[j] == d;
      assert sorted[i] == k && sorted[MAX_STORED_FINDINGS + j] == d;
    }
  }

  lemma RankTells(a: Severity, b: Severity)
    ensures Rank(a) <= Rank(b) <==> !Worse(b, a)
  {
  }

  /** The cap drops only what is no more severe than everything it keeps, and what is stored
      never counts for more than what was reported. */
  lemma CapKeepsTheMostSevere(fs: seq<Finding>)
    requires |fs| > 500
    ensures |BySeverity(fs)| == |fs| && |Stored(fs)| == 500
    ensures var dropped := BySeverity(fs)[500..];
            && (forall s :: Only(Stored(fs), s) + Only(dropped, s) == Only(fs, s))
            && (forall k, d :: k in Stored(fs) && d in dropped ==> !Worse(d.severity, k.severity))
  {
    CapCuts(fs);
    hide BySeverity, Rank, Worse, Stored, Only;
    var sorted := BySeverity(fs);
    var dropped := sorted[500..];
    assert sorted == Stored(fs) + dropped;
    forall s ensures Only(Stored(fs), s) + Only(dropped, s) == Only(fs, s) {
      OnlyConcat(Stored(fs), dropped, s);
      SortKeepsEachSeverity(fs, s);
    }
    forall k, d | k in Stored(fs) && d in dropped ensures !Worse(d.severity, k.severity) {
      RankTells(k.severity, d.severity);
    }
  }

  lemma StoredAtMostReported(fs: seq<Finding>)
    ensures AtMost(CountsOf(Stored(fs)), CountsOf(fs))
  {
    forall s ensures CountsOf(Stored(fs)).Get(s) <= CountsOf(fs).Get(s) {
      CountIsLength(fs, s);
      CountIsLength(Stored(fs), s);
      if |fs| > MAX_STORED_FINDINGS {
        CapKeepsTheMostSevere(fs);
        assert Only(fs, s) == Only(Stored(fs), s) + Only(BySeverity(fs)[MAX_STORED_FINDINGS..], s);
      }
    }
  }

  // ---- Recording ----

  datatype Scan = Scan(app: string, version: string, kind: string, scanner: string,
                       counts: Counts, findings: seq<Finding>, scannedAt: int, id: string, createdAt: int)

  /** Findings of None means that the report gave counts only. */
  datatype ScanInput = ScanInput(app: string, version: string, kind: string, scanner: string,
                                 counts: Counts, findings: Option<seq<Finding>>, scannedAt: Option<int>)

  datatype ScanError =
    | AppNotFound
    | VersionRequired
    | UnknownKind
    | ScannerRequired
    | FindingWithoutId(index: nat)
    | UnknownSeverity(index: nat)
    | NegativeCounts

  predicate GoodFinding(f: Finding) {
    f.id != "" && f.severity != Other
  }

  ghost predicate GoodFindings(fs: seq<Finding>) {
    forall f :: f in fs ==> GoodFinding(f)
  }

  /** Of every severity a stored scan reports at least as many findings as it holds. */
  ghost predicate Recorded(s: Scan) {
    !s.counts.Negative() && GoodFindings(s.findings) && AtMost(CountsOf(s.findings), s.counts)
  }

  lemma StoredFindingsAreGood(fs: seq<Finding>)
    requires GoodFindings(fs)
    ensures GoodFindings(Stored(fs))
  {
    OnlyHas(fs, Critical);
    OnlyHas(fs, High);
    OnlyHas(fs, Medium);
    OnlyHas(fs, Low);
    OnlyHas(fs, Other);
    assert forall f :: f in BySeverity(fs) ==> f in fs;
  }

  lemma CountsAreNatural(fs: seq<Finding>)
    ensures !CountsOf(fs).Negative()
  {
    CountIsLength(fs, Critical);
    CountIsLength(fs, High);
    CountIsLength(fs, Medium);
    CountIsLength(fs, Low);
  }

  lemma NothingAtMost(c: Counts)
    requires !c.Negative()
    ensures AtMost(CountsOf([]), c)
  {
    assert CountsOf([]) == Counts(0, 0, 0, 0);
  }
}
