/** The store of security scans (internal/store/security.go) and the recording of a report into
    it (internal/promoter/security.go): one scan for each application, version, kind and scanner,
    the newest 500 of an application. */
module ScanStores {
  import opened Wrappers
  import opened SecurityScans

  const KEEP_SCANS_PER_APP: nat := 500

  // ---- The key of a scan: four texts joined by NUL characters ----

  const NUL: char := '\0'

  datatype Parts = Parts(app: string, version: string, kind: string, scanner: string)

  function Key(p: Parts): string {
    p.app + [NUL] + p.version + [NUL] + p.kind + [NUL] + p.scanner
  }

  predicate NulFree(s: string) {
    NUL !in s
  }

  function NulCount(s: string): nat {
    if s == "" then 0 else NulCount(s[..|s| - 1]) + if s[|s| - 1] == NUL then 1 else 0
  }

  lemma {:induction false} NulCountAdds(a: string, b: string)
    ensures NulCount(a + b) == NulCount(a) + NulCount(b)
    decreases |b|
  {
    if b == "" {
      assert a + b == a;
    } else {
      var k := |b| - 1;
      assert (a + b)[..|a + b| - 1] == a + b[..k];
      NulCountAdds(a, b[..k]);
    }
  }

  lemma {:induction false} NoNulCounted(s: string)
    ensures NulCount(s) == 0 <==> NulFree(s)
  {
    if s != "" {
      NoNulCounted(s[..|s| - 1]);
      assert s == s[..|s| - 1] + [s[|s| - 1]];
    }
  }

  lemma NulsOfKey(p: Parts)
    ensures NulCount(Key(p)) == 3 + NulCount(p.app) + NulCount(p.version) + NulCount(p.kind) + NulCount(p.scanner)
  {
    assert NulCount([NUL]) == 1;
    NulCountAdds(p.app + [NUL] + p.version + [NUL] + p.kind + [NUL], p.scanner);
    NulCountAdds(p.app + [NUL] + p.version + [NUL] + p.kind, [NUL]);
    NulCountAdds(p.app + [NUL] + p.version + [NUL], p.kind);
    NulCountAdds(p.app + [NUL] + p.version, [NUL]);
    NulCountAdds(p.app + [NUL], p.version);
    NulCountAdds(p.app, [NUL]);
  }

  lemma FirstPartIsRead(a: string, b: string, c: string, d: string)
    requires NulFree(a) && NulFree(c) && a + [NUL] + b == c + [NUL] + d
    ensures a == c && b == d
  {
    var left, right := a + [NUL] + b, c + [NUL] + d;
    assert left[|a|] == NUL && right[|c|] == NUL;
    assert |a| == |c|;
    assert a == left[..|a|] && c == right[..|c|];
    assert b == left[|a| + 1..] && d == right[|c| + 1..];
  }

  ghost predicate FrontNulFree(p: Parts) {
    NulFree(p.app) && NulFree(p.version) && NulFree(p.kind)
  }

  /** Two keys without a NUL in front of the scanner's name are equal only for the same texts. */
  lemma KeyIsRead(p: Parts, q: Parts)
    requires Key(p) == Key(q) && FrontNulFree(p) && FrontNulFree(q)
    ensures p == q
  {
    var r, s := p.kind + [NUL] + p.scanner, q.kind + [NUL] + q.scanner;
    assert Key(p) == p.app + [NUL] + (p.version + [NUL] + r);
    assert Key(q) == q.app + [NUL] + (q.version + [NUL] + s);
    FirstPartIsRead(p.app, p.version + [NUL] + r, q.app, q.version + [NUL] + s);
    FirstPartIsRead(p.version, r, q.version, s);
    FirstPartIsRead(p.kind, p.scanner, q.kind, q.scanner);
  }

  ghost predicate AllNulFree(p: Parts) {
    FrontNulFree(p) && NulFree(p.scanner)
  }

  /** No other four texts have this key. */
  ghost predicate Unambiguous(p: Parts) {
    forall q :: Key(q) == Key(p) ==> q == p
  }

  lemma SplitAtNul(s: string) returns (a: string, b: string)
    requires !NulFree(s)
    ensures s == a + [NUL] + b
  {
    var i :| 0 <= i < |s| && s[i] == NUL;
    a, b := s[..i], s[i + 1..];
  }

  /** Where a text has a NUL, the same key can be read with the borders elsewhere. */
  lemma OtherReading(p: Parts) returns (q: Parts)
    requires !AllNulFree(p)
    ensures Key(q) == Key(p) && q != p
  {
    if !NulFree(p.app) {
      var a, b := SplitAtNul(p.app);
      q := Parts(a, b + [NUL] + p.version, p.kind, p.scanner);
      assert |q.app| < |p.app|;
    } else if !NulFree(p.version) {
      var a, b := SplitAtNul(p.version);
      q := Parts(p.app, a, b + [NUL] + p.kind, p.scanner);
      assert |q.version| < |p.version|;
    } else if !NulFree(p.kind) {
      var a, b := SplitAtNul(p.kind);
      q := Parts(p.app, p.version, a, b + [NUL] + p.scanner);
      assert |q.kind| < |p.kind|;
    } else {
      var a, b := SplitAtNul(p.scanner);
      q := Parts(p.app, p.version, p.kind + [NUL] + a, b);
      assert |q.scanner| < |p.scanner|;
    }
    assert Key(q) == Key(p);
  }

  /** The key stands for its four texts alone exactly when none of them has a NUL. */
  lemma UnambiguousMeans(p: Parts)
    ensures Unambiguous(p) <==> AllNulFree(p)
  {
    if AllNulFree(p) {
      forall q | Key(q) == Key(p) ensures q == p {
        NulsOfKey(p);
        NulsOfKey(q);
        NoNulCounted(p.app);
        NoNulCounted(p.version);
        NoNulCounted(p.kind);
        NoNulCounted(p.scanner);
        NoNulCounted(q.app);
        NoNulCounted(q.version);
        NoNulCounted(q.kind);
        KeyIsRead(p, q);
      }
    } else {
      var q := OtherReading(p);
    }
  }

  function PartsOf(s: Scan): Parts {
    Parts(s.app, s.version, s.kind, s.scanner)
  }

  function KeyOf(s: Scan): string {
    Key(PartsOf(s))
  }

  // ---- Orders ----

  predicate LexLe(a: string, b: string) {
    a == "" || (b != "" && (a[0] < b[0] || (a[0] == b[0] && LexLe(a[1..], b[1..]))))
  }

  lemma {:induction false} LexIsTotal(a: string, b: string)
    ensures LexLe(a, b) || LexLe(b, a)
  {
    if a != "" && b != "" {
      LexIsTotal(a[1..], b[1..]);
    }
  }

  lemma {:induction false} LexIsTransitive(a: string, b: string, c: string)
    requires LexLe(a, b) && LexLe(b, c)
    ensures LexLe(a, c)
  {
    if a != "" && b != "" && c != "" && a[0] == b[0] == c[0] {
      LexIsTransitive(a[1..], b[1..], c[1..]);
    }
  }

  /** Lexicographic order, told by the first place at which two texts differ. */
  ghost predicate ComesBefore(a: string, b: string) {
    (a < b) || exists i :: 0 <= i < |a| && i < |b| && a[..i] == b[..i] && a[i] < b[i]
  }

  lemma {:induction false} LexMeans(a: string, b: string)
    ensures LexLe(b, a) <==> !ComesBefore(a, b)
  {
    if a != "" && b != "" && a[0] == b[0] {
      LexMeans(a[1..], b[1..]);
      TailsCompare(a, b);
    } else if a != "" && b != "" {
      assert a[..0] == b[..0];
      FirstDecides(a, b);
    }
  }

  lemma FirstDecides(a: string, b: string)
    requires a != "" && b != "" && a[0] != b[0]
    ensures ComesBefore(a, b) <==> a[0] < b[0]
  {
    assert a[..0] == b[..0];
    forall i | 0 < i < |a| && i < |b| ensures a[..i] != b[..i] {
      assert a[..i][0] != b[..i][0];
    }
  }

  lemma TailsCompare(a: string, b: string)
    requires a != "" && b != "" && a[0] == b[0]
    ensures ComesBefore(a, b) <==> ComesBefore(a[1..], b[1..])
  {
    var c, d := a[1..], b[1..];
    assert a == [a[0]] + c && b == [b[0]] + d;
    assert a < b <==> c < d;
    forall i | 0 <= i < |c| && i < |d| ensures c[..i] == d[..i] <==> a[..i + 1] == b[..i + 1] {
      assert a[..i + 1] == [a[0]] + c[..i] && b[..i + 1] == [b[0]] + d[..i];
      assert a[..i + 1][1..] == c[..i] && b[..i + 1][1..] == d[..i];
    }
    if i :| 0 <= i < |a| && i < |b| && a[..i] == b[..i] && a[i] < b[i] {
      assert c[..i - 1] == d[..i - 1] && c[i - 1] < d[i - 1];
    }
    if i :| 0 <= i < |c| && i < |d| && c[..i] == d[..i] && c[i] < d[i] {
      assert a[..i + 1] == b[..i + 1] && a[i + 1] < b[i + 1];
    }
  }

  /** Stored no earlier. */
  predicate NoOlder(a: Scan, b: Scan) {
    a.createdAt >= b.createdAt
  }

  /** Stored later, or at the same time under an id that is not smaller. */
  predicate NotAfter(a: Scan, b: Scan) {
    a.createdAt > b.createdAt || (a.createdAt == b.createdAt && LexLe(b.id, a.id))
  }

  ghost predicate IsOrder(le: (Scan, Scan) -> bool) {
    && (forall a, b :: le(a, b) || le(b, a))
    && (forall a, b, c :: le(a, b) && le(b, c) ==> le(a, c))
  }

  lemma NotAfterIsOrder()
    ensures IsOrder(NotAfter)
  {
    forall a: Scan, b: Scan ensures NotAfter(a, b) || NotAfter(b, a) {
      LexIsTotal(a.id, b.id);
    }
    forall a: Scan, b: Scan, c: Scan | NotAfter(a, b) && NotAfter(b, c) ensures NotAfter(a, c) {
      if a.createdAt == b.createdAt == c.createdAt {
        LexIsTransitive(c.id, b.id, a.id);
      }
    }
  }

  ghost predicate Ordered(xs: seq<Scan>, le: (Scan, Scan) -> bool) {
    forall i, j :: 0 <= i < j < |xs| ==> le(xs[i], xs[j])
  }

  /** Sorts scans; the order of equals is not promised. */
  method Sort(xs: seq<Scan>, le: (Scan, Scan) -> bool) returns (ys: seq<Scan>)
    requires IsOrder(le)
    ensures Ordered(ys, le) && multiset(ys) == multiset(xs)
  {
    ys := [];
    for i := 0 to |xs|
      invariant Ordered(ys, le) && multiset(ys) == multiset(xs[..i])
    {
      ys := Insert(ys, xs[i], le);
      assert xs[..i + 1] == xs[..i] + [xs[i]];
    }
    assert xs[..|xs|] == xs;
  }

  method Insert(xs: seq<Scan>, x: Scan, le: (Scan, Scan) -> bool) returns (ys: seq<Scan>)
    requires IsOrder(le) && Ordered(xs, le)
    ensures Ordered(ys, le) && multiset(ys) == multiset(xs) + multiset{x}
  {
    hide IsOrder, Ordered;
    var k := |xs|;
    while k > 0 && !le(xs[k - 1], x)
      invariant 0 <= k <= |xs|
      invariant k < |xs| ==> le(x, xs[k])
    {
      OneOrTheOther(le, xs[k - 1], x);
      k := k - 1;
    }
    PutInOrder(xs, x, k, le);
    ys := xs[..k] + [x] + xs[k..];
    assert xs == xs[..k] + xs[k..];
  }

  lemma OneOrTheOther(le: (Scan, Scan) -> bool, a: Scan, b: Scan)
    requires IsOrder(le)
    ensures le(a, b) || le(b, a)
  {
  }

  lemma Through(le: (Scan, Scan) -> bool, a: Scan, b: Scan, c: Scan)
    requires IsOrder(le) && le(a, b) && le(b, c)
    ensures le(a, c)
  {
  }

  lemma PutInOrder(xs: seq<Scan>, x: Scan, k: nat, le: (Scan, Scan) -> bool)
    requires IsOrder(le) && Ordered(xs, le) && k <= |xs|
    requires k > 0 ==> le(xs[k - 1], x)
    requires k < |xs| ==> le(x, xs[k])
    ensures Ordered(xs[..k] + [x] + xs[k..], le)
  {
    hide IsOrder;
    forall i | 0 <= i < k ensures le(xs[i], x) {
      if i < k - 1 {
        Through(le, xs[i], xs[k - 1], x);
      }
    }
    forall j | k <= j < |xs| ensures le(x, xs[j]) {
      if k < j {
        Through(le, x, xs[k], xs[j]);
      }
    }
  }

  // ---- The store ----

  /** The keys of an application's scans. */
  function KeysFor(scans: map<string, Scan>, app: string): set<string> {
    set k | k in scans && scans[k].app == app
  }

  /** What is left of the scans when an application's oldest were dropped down to the limit. */
  ghost predicate Pruned(all: map<string, Scan>, app: string, kept: map<string, Scan>) {
    && (forall k :: k in kept ==> k in all && kept[k] == all[k])
    && (forall k :: k in all && k !in kept ==> all[k].app == app)
    && (forall k, d :: k in kept && kept[k].app == app && d in all && d !in kept ==> all[k].createdAt >= all[d].createdAt)
    && |KeysFor(kept, app)| == if |KeysFor(all, app)| > 500 then 500 else |KeysFor(all, app)|
  }

  /** A list of scans, each of them stored, each once. */
  ghost predicate StoredOnce(scans: map<string, Scan>, out: seq<Scan>) {
    && (forall s :: s in out ==> KeyOf(s) in scans && scans[KeyOf(s)] == s)
    && (forall s :: multiset(out)[s] <= 1)
  }

  ghost function KeysIn(out: seq<Scan>): set<string> {
    set s | s in out :: KeyOf(s)
  }

  lemma OneMoreOnce(scans: map<string, Scan>, out: seq<Scan>, x: Scan)
    requires StoredOnce(scans, out) && x !in out && KeyOf(x) in scans && scans[KeyOf(x)] == x
    ensures StoredOnce(scans, out + [x])
  {
    assert x !in multiset(out);
    forall s ensures multiset(out + [x])[s] <= 1 {
      assert multiset(out + [x])[s] == multiset(out)[s] + if s == x then 1 else 0;
    }
  }

  lemma LastIsNew(front: seq<Scan>, x: Scan)
    requires forall s :: multiset(front + [x])[s] <= 1
    ensures x !in front && forall s :: multiset(front)[s] <= 1
  {
    forall s ensures multiset(front)[s] <= multiset(front + [x])[s] {
    }
    assert multiset(front + [x])[x] == multiset(front)[x] + 1;
    assert x !in multiset(front);
  }

  lemma {:induction false} KeysInSize(scans: map<string, Scan>, out: seq<Scan>)
    requires StoredOnce(scans, out)
    ensures |KeysIn(out)| == |out|
  {
    if out != [] {
      var front, x := out[..|out| - 1], out[|out| - 1];
      assert out == front + [x];
      LastIsNew(front, x);
      KeysInSize(scans, front);
      assert KeysIn(out) == KeysIn(front) + {KeyOf(x)};
      assert x in out && forall s :: s in front ==> s in out;
      assert KeyOf(x) !in KeysIn(front);
    }
  }

  lemma SameMembers(xs: seq<Scan>, ys: seq<Scan>)
    requires multiset(xs) == multiset(ys)
    ensures |xs| == |ys| && forall s :: s in xs <==> s in ys
  {
    assert |multiset(xs)| == |multiset(ys)|;
    forall s ensures s in xs <==> s in ys {
      assert s in xs <==> s in multiset(xs);
      assert s in ys <==> s in multiset(ys);
    }
  }

  /** The application's scans are the ones listed. */
  ghost predicate Covers(all: map<string, Scan>, app: string, mine: seq<Scan>) {
    && (forall k :: k in all ==> KeyOf(all[k]) == k)
    && StoredOnce(all, mine) && forall s :: s in mine <==> s in all.Values && s.app == app
  }

  lemma CoveredSize(all: map<string, Scan>, app: string, mine: seq<Scan>)
    requires Covers(all, app, mine)
    ensures KeysFor(all, app) == KeysIn(mine) && |KeysFor(all, app)| == |mine|
  {
    KeysInSize(all, mine);
    forall k ensures k in KeysFor(all, app) <==> k in KeysIn(mine) {
      if k in KeysFor(all, app) {
        assert all[k] in mine && KeyOf(all[k]) == k;
      }
    }
  }

  lemma AllIsKept(all: map<string, Scan>, app: string, mine: seq<Scan>)
    requires Covers(all, app, mine) && |mine| <= KEEP_SCANS_PER_APP
    ensures Pruned(all, app, all) && |KeysFor(all, app)| <= KEEP_SCANS_PER_APP
  {
    CoveredSize(all, app, mine);
  }

  lemma SplitOnce(scans: map<string, Scan>, front: seq<Scan>, back: seq<Scan>)
    requires StoredOnce(scans, front + back)
    ensures StoredOnce(scans, front) && forall s :: s in front ==> s !in back
  {
    var out := front + back;
    assert multiset(out) == multiset(front) + multiset(back);
    forall s ensures multiset(front)[s] <= 1 && (s in front ==> s in out && s !in back) {
      assert multiset(out)[s] == multiset(front)[s] + multiset(back)[s];
      assert s in front <==> s in multiset(front);
      assert s in back <==> s in multiset(back);
    }
  }

  lemma CutIsPruned(all: map<string, Scan>, app: string, mine: seq<Scan>, sorted: seq<Scan>, kept: map<string, Scan>)
    requires Covers(all, app, mine) && multiset(sorted) == multiset(mine) && Ordered(sorted, NoOlder)
    requires |sorted| > KEEP_SCANS_PER_APP && kept == all - KeysIn(sorted[KEEP_SCANS_PER_APP..])
    ensures Pruned(all, app, kept) && |KeysFor(kept, app)| <= KEEP_SCANS_PER_APP
  {
    var front, back := sorted[..KEEP_SCANS_PER_APP], sorted[KEEP_SCANS_PER_APP..];
    SameMembers(sorted, mine);
    assert sorted == front + back;
    SplitOnce(all, front, back);
    CoveredSize(all, app, mine);
    CutKeys(all, app, sorted, front, back, kept);
    KeysInSize(all, front);
    CutIsOldest(all, app, sorted, front, back);
  }

  lemma CutKeys(all: map<string, Scan>, app: string, sorted: seq<Scan>, front: seq<Scan>, back: seq<Scan>, kept: map<string, Scan>)
    requires Covers(all, app, sorted) && sorted == front + back && (forall s :: s in front ==> s !in back)
    requires kept == all - KeysIn(back)
    ensures KeysFor(kept, app) == KeysIn(front)
    ensures forall k :: k in all && k !in kept ==> k in KeysIn(back) && all[k].app == app
  {
    forall k ensures k in KeysFor(kept, app) <==> k in KeysIn(front) {
      KeptOrCut(all, app, sorted, front, back, k);
    }
    assert forall b :: b in back ==> b in sorted && all[KeyOf(b)] == b;
  }

  lemma CutIsOldest(all: map<string, Scan>, app: string, sorted: seq<Scan>, front: seq<Scan>, back: seq<Scan>)
    requires Covers(all, app, sorted) && sorted == front + back && Ordered(sorted, NoOlder)
    ensures forall k, d :: k in KeysIn(front) && d in KeysIn(back) ==> k in all && d in all && NoOlder(all[k], all[d])
  {
    forall k, d | k in KeysIn(front) && d in KeysIn(back) ensures k in all && d in all && NoOlder(all[k], all[d]) {
      var i :| 0 <= i < |front| && KeyOf(front[i]) == k;
      var j :| 0 <= j < |back| && KeyOf(back[j]) == d;
      assert sorted[i] in sorted && sorted[|front| + j] in sorted;
      assert sorted[i] == front[i] && sorted[|front| + j] == back[j];
    }
  }

  lemma KeptOrCut(all: map<string, Scan>, app: string, sorted: seq<Scan>, front: seq<Scan>, back: seq<Scan>, k: string)
    requires Covers(all, app, sorted) && sorted == front + back && forall s :: s in front ==> s !in back
    ensures k in all && k !in KeysIn(back) && all[k].app == app <==> k in KeysIn(front)
  {
    if k in all && all[k].app == app {
      assert all[k] in all.Values;
      assert all[k] in front || all[k] in back;
    }
    if k in KeysIn(front) {
      var a :| a in front && KeyOf(a) == k;
      assert a in sorted && all[k] == a;
      assert forall b :: b in back ==> b in sorted && all[KeyOf(b)] == b;
    }
  }

  ghost predicate HeaderRight(apps: set<string>, input: ScanInput) {
    HeaderError(apps, input) == None
  }

  /** The first thing wrong with a report besides its findings and counts. */
  ghost function HeaderError(apps: set<string>, input: ScanInput): Option<ScanError> {
    if input.app !in apps then Some(AppNotFound)
    else if input.version == "" then Some(VersionRequired)
    else if input.kind !in {"sast", "sca", "secrets", "container", "iac", "dast", "license"} then Some(UnknownKind)
    else if input.scanner == "" then Some(ScannerRequired)
    else None
  }

  lemma KnownKinds(kind: string)
    ensures kind in SCAN_KINDS <==> kind in {"sast", "sca", "secrets", "container", "iac", "dast", "license"}
  {
    var k := SCAN_KINDS;
    assert k[0] == "sast" && k[1] == "sca" && k[2] == "secrets" && k[3] == "container" && k[4] == "iac" && k[5] == "dast" && k[6] == "license";
  }

  /** The error names the first finding that has no id or no known severity. */
  ghost predicate FindingError(fs: seq<Finding>, e: ScanError) {
    exists i :: 0 <= i < |fs| && GoodFindings(fs[..i]) && !GoodFinding(fs[i])
      && e == if fs[i].id == "" then FindingWithoutId(i) else UnknownSeverity(i)
  }

  /** What a valid input is stored as. */
  function Report(input: ScanInput, id: string, now: int): Scan {
    var fs := if input.findings.Some? then input.findings.value else [];
    Scan(input.app, input.version, input.kind, input.scanner,
         if input.findings.Some? then CountsOf(fs) else input.counts, Stored(fs),
         if input.scannedAt.Some? then input.scannedAt.value else now, id, now)
  }

  ghost predicate Fits(s: Scan, app: string, version: string) {
    s.app == app && (version == "" || s.version == version)
  }

  class ScanStore {
    const apps: set<string>
    var scans: map<string, Scan>

    constructor (apps: set<string>)
      ensures Valid() && scans == map[] && this.apps == apps
    {
      this.apps, scans := apps, map[];
    }

    ghost predicate Valid()
      reads this
    {
      && (forall k :: k in scans ==> Recorded(scans[k]) && KeyOf(scans[k]) == k)
      && (forall app :: |KeysFor(scans, app)| <= KEEP_SCANS_PER_APP)
    }

    /** The stored scans of an application, of one version or of all, each of them once and the
        newest first. */
    ghost predicate Lists(out: seq<Scan>, app: string, version: string)
      reads this
    {
      && (forall s :: s in out <==> s in scans.Values && Fits(s, app, version))
      && (forall s :: multiset(out)[s] <= 1)
      && (forall i, j :: 0 <= i < j < |out| ==>
            out[i].createdAt > out[j].createdAt || (out[i].createdAt == out[j].createdAt && !ComesBefore(out[i].id, out[j].id)))
    }

    /** The scans that fit, in the order in which the map happens to give them. */
    method Collect(app: string, version: string) returns (out: seq<Scan>)
      requires forall k :: k in scans ==> KeyOf(scans[k]) == k
      ensures StoredOnce(scans, out) && forall k :: k in scans && Fits(scans[k], app, version) ==> scans[k] in out
      ensures forall s :: s in out ==> Fits(s, app, version)
    {
      hide Key;
      out := [];
      var left := scans.Keys;
      assert StoredOnce(scans, out);
      while left != {}
        invariant left <= scans.Keys && StoredOnce(scans, out)
        invariant forall s :: s in out ==> KeyOf(s) !in left && Fits(s, app, version)
        invariant forall k :: k in scans && k !in left && Fits(scans[k], app, version) ==> scans[k] in out
        decreases |left|
      {
        var k :| k in left;
        left := left - {k};
        if scans[k].app == app && (version == "" || scans[k].version == version) {
          OneMoreOnce(scans, out, scans[k]);
          out := out + [scans[k]];
        }
      }
    }

    method ListSecurityScans(app: string, version: string) returns (out: seq<Scan>)
      requires Valid()
      ensures Lists(out, app, version)
    {
      var found := Collect(app, version);
      NotAfterIsOrder();
      out := Sort(found, NotAfter);
      SameMembers(out, found);
      forall i, j | 0 <= i < j < |out|
        ensures out[i].createdAt > out[j].createdAt || (out[i].createdAt == out[j].createdAt && !ComesBefore(out[i].id, out[j].id))
      {
        LexMeans(out[i].id, out[j].id);
      }
    }

    /** Drops an application's oldest scans beyond the limit. */
    method Prune(app: string)
      requires forall k :: k in scans ==> KeyOf(scans[k]) == k
      modifies this`scans
      ensures Pruned(old(scans), app, scans) && |KeysFor(scans, app)| <= KEEP_SCANS_PER_APP
    {
      hide Key, Ordered, Pruned;
      ghost var all := scans;
      var mine := Collect(app, "");
      if |mine| <= KEEP_SCANS_PER_APP {
        AllIsKept(all, app, mine);
        return;
      }
      var sorted := Sort(mine, NoOlder);
      SameMembers(sorted, mine);
      var cut := sorted[KEEP_SCANS_PER_APP..];
      for i := 0 to |cut|
        invariant scans == all - KeysIn(cut[..i])
      {
        assert cut[..i + 1] == cut[..i] + [cut[i]];
        scans := scans - {KeyOf(cut[i])};
      }
      assert cut[..|cut|] == cut;
      hide Covers, StoredOnce;
      CutIsPruned(all, app, mine, sorted, scans);
    }

    /** Stores a scan under its key and drops the application's oldest beyond the limit. */
    method UpsertSecurityScan(s: Scan, now: int)
      requires Valid() && Recorded(s)
      modifies this`scans
      ensures Valid() && Pruned(old(scans)[KeyOf(s) := s.(createdAt := now)], s.app, scans)
    {
      var scan := s.(createdAt := now);
      scans := scans[KeyOf(scan) := scan];
      ghost var all := scans;
      Prune(s.app);
      LimitKept(old(scans), scan, scans);
    }

    /** Counts the findings of a report, up to the first that is not valid. */
    method CountFindings(fs: seq<Finding>) returns (error: Option<ScanError>, counts: Counts)
      ensures error == None <==> GoodFindings(fs)
      ensures error == None ==> counts == CountsOf(fs)
      ensures error.Some? ==> FindingError(fs, error.value)
    {
      counts := Counts(0, 0, 0, 0);
      for i := 0 to |fs|
        invariant counts == CountsOf(fs[..i]) && GoodFindings(fs[..i])
      {
        assert fs[i] in fs;
        if fs[i].id == "" {
          return Some(FindingWithoutId(i)), counts;
        }
        if fs[i].severity == Other {
          return Some(UnknownSeverity(i)), counts;
        }
        assert fs[..i + 1][..i] == fs[..i];
        counts := counts.Add(fs[i].severity, 1);
      }
      assert fs[..|fs|] == fs;
      error := None;
    }

    /** Validates and stores a report under a new id at the given time; it takes the place of its
        scanner's last one of that kind for the version. */
    method RecordSecurityScan(input: ScanInput, id: string, now: int) returns (error: Option<ScanError>)
      requires Valid()
      modifies this`scans
      ensures Valid()
      ensures error == None <==>
                && HeaderRight(apps, input)
                && (if input.findings.Some? then GoodFindings(input.findings.value) else !input.counts.Negative())
      ensures error.Some? ==> scans == old(scans)
      ensures HeaderError(apps, input).Some? ==> error == HeaderError(apps, input)
      ensures HeaderRight(apps, input) && input.findings.Some? && error.Some? ==> FindingError(input.findings.value, error.value)
      ensures HeaderRight(apps, input) && input.findings == None && error.Some? ==> error == Some(NegativeCounts)
      ensures error == None ==>
                var scan := Report(input, id, now);
                Pruned(old(scans)[KeyOf(scan) := scan], input.app, scans)
    {
      if input.app !in apps {
        return Some(AppNotFound);
      }
      if input.version == "" {
        return Some(VersionRequired);
      }
      KnownKinds(input.kind);
      if input.kind !in SCAN_KINDS {
        return Some(UnknownKind);
      }
      if input.scanner == "" {
        return Some(ScannerRequired);
      }
      var counts, findings := input.counts, [];
      if input.findings.Some? {
        findings := input.findings.value;
        error, counts := CountFindings(findings);
        if error.Some? {
          return;
        }
        CountsAreNatural(findings);
      }
      if counts.Negative() {
        return Some(NegativeCounts);
      }
      StoredFindingsAreGood(findings);
      StoredAtMostReported(findings);
      if input.findings == None {
        NothingAtMost(counts);
      }
      if |findings| > MAX_STORED_FINDINGS {
        SortLength(findings);
        findings := BySeverity(findings)[..MAX_STORED_FINDINGS];
      }
      var scannedAt := if input.scannedAt.Some? then input.scannedAt.value else now;
      var scan := Scan(input.app, input.version, input.kind, input.scanner, counts, findings, scannedAt, id, now);
      UpsertSecurityScan(scan, now);
      error := None;
    }
  }

  lemma LimitKept(before: map<string, Scan>, s: Scan, after: map<string, Scan>)
    requires forall app :: |KeysFor(before, app)| <= KEEP_SCANS_PER_APP
    requires Pruned(before[KeyOf(s) := s], s.app, after) && |KeysFor(after, s.app)| <= KEEP_SCANS_PER_APP
    ensures forall app :: |KeysFor(after, app)| <= KEEP_SCANS_PER_APP
  {
    forall app ensures |KeysFor(after, app)| <= KEEP_SCANS_PER_APP {
      if app != s.app {
        var few, many := KeysFor(after, app), KeysFor(before, app);
        assert few <= many;
        assert many == few + (many - few);
      }
    }
  }

  /** One report makes room by at most one older scan. */
  lemma AtMostOneDropped(before: map<string, Scan>, s: Scan, after: map<string, Scan>, d: string, e: string)
    requires |KeysFor(before, s.app)| <= KEEP_SCANS_PER_APP
    requires var all := before[KeyOf(s) := s]; Pruned(all, s.app, after) && d in all && e in all
    requires d !in after && e !in after
    ensures d == e
  {
    var all := before[KeyOf(s) := s];
    var left, had := KeysFor(after, s.app), KeysFor(all, s.app);
    assert had <= KeysFor(before, s.app) + {KeyOf(s)};
    SmallerSet(had, KeysFor(before, s.app) + {KeyOf(s)});
    assert left + {d, e} <= had && left !! {d, e};
    SmallerSet(left + {d, e}, had);
    assert |left + {d, e}| == |left| + |{d, e}|;
  }

  lemma SmallerSet(a: set<string>, b: set<string>)
    requires a <= b
    ensures |a| <= |b|
  {
    assert b == a + (b - a);
  }

  /** No other scan changes while the application is below its limit, if no version or application
      has a NUL in its name. */
  lemma OtherScansStay(before: map<string, Scan>, s: Scan, after: map<string, Scan>, k: string)
    requires Pruned(before[KeyOf(s) := s], s.app, after) && k in before && KeyOf(before[k]) == k
    requires PartsOf(before[k]) != PartsOf(s)
    requires FrontNulFree(PartsOf(before[k])) && FrontNulFree(PartsOf(s))
    requires before[k].app == s.app ==> |KeysFor(before, s.app)| < KEEP_SCANS_PER_APP
    ensures k in after && after[k] == before[k]
  {
    if KeyOf(s) == k {
      KeyIsRead(PartsOf(before[k]), PartsOf(s));
    }
    var all := before[KeyOf(s) := s];
    if before[k].app == s.app && k !in after {
      var left, had := KeysFor(after, s.app), KeysFor(all, s.app);
      assert had <= KeysFor(before, s.app) + {KeyOf(s)};
      SmallerSet(had, KeysFor(before, s.app) + {KeyOf(s)});
      assert left + {k} <= had && k !in left;
      SmallerSet(left + {k}, had);
    }
  }

  /** A report stored later than everything of its application is there afterwards. */
  lemma NewReportIsKept(before: map<string, Scan>, s: Scan, after: map<string, Scan>)
    requires Pruned(before[KeyOf(s) := s], s.app, after)
    requires forall k :: k in before && before[k].app == s.app ==> before[k].createdAt < s.createdAt
    ensures KeyOf(s) in after && after[KeyOf(s)] == s
  {
    var all := before[KeyOf(s) := s];
    var left, had := KeysFor(after, s.app), KeysFor(all, s.app);
    assert KeyOf(s) in had && |had| > 0;
    assert forall k :: k in left && KeyOf(s) !in after ==> NoOlder(all[k], all[KeyOf(s)]);
    assert left != {};
    var k :| k in left;
    assert k == KeyOf(s) || k in before;
  }

  /** Two accepted reports of different versions, kinds and scanners with one key: the second takes
      the place of the first. */
  lemma NulMakesReportsCollide() returns (p: Parts, q: Parts)
    ensures Key(p) == Key(q) && p.app == q.app && p.version != q.version && p.kind != q.kind && p.scanner != q.scanner
    ensures p.kind in SCAN_KINDS && q.kind in SCAN_KINDS
  {
    p := Parts("web", ['v', NUL] + "sast", "sca", "trivy");
    q := Parts("web", "v", "sast", "sca" + [NUL] + "trivy");
    assert SCAN_KINDS[0] == "sast" && SCAN_KINDS[1] == "sca";
    assert Key(p) == Key(q);
  }
}
