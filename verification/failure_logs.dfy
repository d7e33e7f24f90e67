/** Which history entries keep their failure logs (internal/store/memory.go). */
module FailureLogs {
  const KEEP_FAILURE_LOGS: nat := 3

  datatype Entry = Entry(id: int, app: string, outcome: string, logs: string)

  /** How many entries of an app hold logs, from position i on. */
  function WithLogs(h: seq<Entry>, i: nat, app: string): nat
    requires i <= |h|
    decreases |h| - i
  {
    if i == |h| then 0
    else WithLogs(h, i + 1, app) + if h[i].app == app && h[i].logs != "" then 1 else 0
  }

  lemma WithLogsStep(h: seq<Entry>, i: nat, app: string)
    requires i < |h|
    ensures WithLogs(h, i, app) == WithLogs(h, i + 1, app) + if h[i].app == app && h[i].logs != "" then 1 else 0
  {
  }

  /** What trimming one app leaves of an entry. */
  function Trimmed(h: seq<Entry>, i: nat, app: string): Entry
    requires i < |h|
  {
    if h[i].app == app && WithLogs(h, i + 1, app) >= KEEP_FAILURE_LOGS then h[i].(logs := "") else h[i]
  }

  /** An entry keeps its logs while fewer than three newer entries of its app were added with logs. */
  function Kept(h: seq<Entry>, i: nat): Entry
    requires i < |h|
  {
    if WithLogs(h, i + 1, h[i].app) < KEEP_FAILURE_LOGS then h[i] else h[i].(logs := "")
  }

  /** The history that was added, as it should look now. */
  function Retained(added: seq<Entry>): (r: seq<Entry>)
    ensures |r| == |added| && forall i :: 0 <= i < |r| ==> r[i] == Kept(added, i)
  {
    seq(|added|, i requires 0 <= i < |added| => Kept(added, i))
  }

  function AtMostThree(n: nat): nat {
    if n < KEEP_FAILURE_LOGS then n else KEEP_FAILURE_LOGS
  }

  /** Retention keeps the logs of the newest three, or of all there are. */
  lemma {:induction false} RetainedCount(added: seq<Entry>, i: nat, app: string)
    requires i <= |added|
    ensures WithLogs(Retained(added), i, app) == AtMostThree(WithLogs(added, i, app))
    decreases |added| - i
  {
    if i < |added| {
      RetainedCount(added, i + 1, app);
      assert Retained(added)[i] == Kept(added, i);
    }
  }

  lemma {:induction false} OneMoreEntry(h: seq<Entry>, e: Entry, i: nat, app: string)
    requires i <= |h|
    ensures WithLogs(h + [e], i, app) == WithLogs(h, i, app) + if e.app == app && e.logs != "" then 1 else 0
    decreases |h| - i
  {
    if i < |h| {
      OneMoreEntry(h, e, i + 1, app);
      assert (h + [e])[i] == h[i];
    } else {
      assert WithLogs(h + [e], i + 1, app) == 0;
    }
  }

  /** An entry of another app, or one without logs, leaves retention as it was. */
  lemma RetainedOther(added: seq<Entry>, e: Entry, i: nat)
    requires i < |added| && (e.app != added[i].app || e.logs == "")
    ensures Retained(added + [e])[i] == Retained(added)[i]
  {
    OneMoreEntry(added, e, i + 1, added[i].app);
  }

  /** Trimming counts only the logs still there, which is as good as counting all ever added. */
  lemma RetainedSame(added: seq<Entry>, e: Entry, i: nat)
    requires i < |added| && e.app == added[i].app && e.logs != ""
    ensures var before := Retained(added) + [e];
            Retained(added + [e])[i] == Trimmed(before, i, e.app)
  {
    OneMoreEntry(added, e, i + 1, e.app);
    OneMoreEntry(Retained(added), e, i + 1, e.app);
    RetainedCount(added, i + 1, e.app);
  }

  lemma NewestIsRetained(added: seq<Entry>, e: Entry)
    ensures Retained(added + [e])[|added|] == e
  {
    assert WithLogs(added + [e], |added| + 1, e.app) == 0;
  }

  class History {
    var history: seq<Entry>
    var nextId: int
    ghost var added: seq<Entry>  // every entry as it was added

    constructor ()
      ensures Valid() && added == []
    {
      history, nextId, added := [], 1, [];
    }

    ghost predicate Valid()
      reads this
    {
      history == Retained(added)
    }

    /** After any number of additions the history is what was added, in order and unchanged but
        for the logs that retention has cleared. */
    method AddHistory(e: Entry)
      requires Valid()
      modifies this
      ensures Valid() && added == old(added) + [e.(id := old(nextId))] && nextId == old(nextId) + 1
    {
      var entry := e.(id := nextId);
      nextId := nextId + 1;
      history := history + [entry];
      if entry.logs != "" {
        TrimFailureLogs(entry.app);
      }
      added := added + [entry];
      NewestIsRetained(old(added), entry);
      forall i | 0 <= i < |old(added)| ensures history[i] == Retained(added)[i] {
        if entry.logs != "" && entry.app == old(added)[i].app {
          RetainedSame(old(added), entry, i);
        } else {
          RetainedOther(old(added), entry, i);
        }
      }
      assert history == Retained(added);
    }

    /** Walks from the newest entry back and clears the app's logs after the third. */
    method TrimFailureLogs(app: string)
      modifies this`history
      ensures |history| == |old(history)|
      ensures forall i :: 0 <= i < |history| ==> history[i] == Trimmed(old(history), i, app)
    {
      hide WithLogs;
      ghost var h := history;
      var kept := 0;
      var i := |history| - 1;
      assert kept == WithLogs(h, |h|, app) by { NoneLeft(h, app); }
      while i >= 0
        invariant -1 <= i < |history| == |h|
        invariant kept == WithLogs(h, i + 1, app)
        invariant forall j :: 0 <= j <= i ==> history[j] == h[j]
        invariant forall j :: i < j < |h| ==> history[j] == Trimmed(h, j, app)
      {
        WithLogsStep(h, i, app);
        var x := history[i];
        if x.app == app && x.logs != "" {
          kept := kept + 1;
          if kept > KEEP_FAILURE_LOGS {
            history := history[i := x.(logs := "")];
          }
        }
        i := i - 1;
      }
    }
  }

  lemma NoneLeft(h: seq<Entry>, app: string)
    ensures WithLogs(h, |h|, app) == 0
  {
  }

  /** The entries of the app behind position i that were added with logs. */
  function NewerWithLogs(added: seq<Entry>, i: int, app: string): set<int> {
    set j | 0 <= j < |added| && i < j && added[j].app == app && added[j].logs != ""
  }

  lemma {:induction false} NewerAreCounted(added: seq<Entry>, i: nat, app: string)
    requires i < |added|
    ensures |NewerWithLogs(added, i, app)| == WithLogs(added, i + 1, app)
    decreases |added| - i
  {
    var all := NewerWithLogs(added, i, app);
    if i + 1 == |added| {
      assert all == {};
    } else {
      var rest := NewerWithLogs(added, i + 1, app);
      NewerAreCounted(added, i + 1, app);
      assert all == rest + if added[i + 1].app == app && added[i + 1].logs != "" then {i + 1} else {};
    }
  }

  /** However many were added: an app's entries that still hold logs are its newest three that
      ever had any, each with its own text. */
  lemma NewestThreeKeepTheirLogs(added: seq<Entry>, app: string)
    ensures WithLogs(Retained(added), 0, app) == if WithLogs(added, 0, app) < 3 then WithLogs(added, 0, app) else 3
    ensures forall i :: 0 <= i < |added| && added[i].app == app && added[i].logs != "" ==>
              (Retained(added)[i].logs != "" <==> |NewerWithLogs(added, i, app)| < 3)
    ensures forall i :: 0 <= i < |added| ==> Retained(added)[i].logs in {"", added[i].logs} && Retained(added)[i].(logs := "") == added[i].(logs := "")
  {
    RetainedCount(added, 0, app);
    forall i | 0 <= i < |added| ensures |NewerWithLogs(added, i, app)| == WithLogs(added, i + 1, app) {
      NewerAreCounted(added, i, app);
    }
  }
}
