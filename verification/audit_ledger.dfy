/** The append-only audit ledger (internal/store/memory.go) and reading it page by page through
    the API (internal/api/audit.go) while it grows. */
module AuditLedger {

  const DEFAULT_LIMIT := 50
  const MAX_LIMIT := 500

  datatype AuditEvent = AuditEvent(id: int, app: string, ring: string, category: string, actor: string, detail: string)

  /** Empty fields match everything; beforeId 0 asks for the newest page. */
  datatype Filter = Filter(app: string, ring: string, category: string, actor: string)
  {
    predicate Matches(e: AuditEvent) {
      (app == "" || e.app == app) && (ring == "" || e.ring == ring)
      && (category == "" || e.category == category) && (actor == "" || e.actor == actor)
    }
  }

  function ClampLimit(n: int): (limit: nat)
    ensures 0 < n <= 500 ==> limit == n
    ensures n <= 0 ==> limit == 50
    ensures n > 500 ==> limit == 500
  {
    if n <= 0 then DEFAULT_LIMIT else if n > MAX_LIMIT then MAX_LIMIT else n
  }

  predicate Before(e: AuditEvent, beforeId: int) {
    beforeId <= 0 || e.id < beforeId
  }

  /** The ledger's matching events below an id, newest first. */
  function Newest(audit: seq<AuditEvent>, f: Filter, beforeId: int): seq<AuditEvent> {
    if audit == [] then []
    else
      var e, rest := audit[|audit| - 1], Newest(audit[..|audit| - 1], f, beforeId);
      if Before(e, beforeId) && f.Matches(e) then [e] + rest else rest
  }

  function Page(audit: seq<AuditEvent>, f: Filter, beforeId: int, limit: nat): seq<AuditEvent> {
    var all := Newest(audit, f, beforeId);
    if |all| <= limit then all else all[..limit]
  }

  /** Ids are positive and grow along the ledger. */
  ghost predicate Ascending(audit: seq<AuditEvent>) {
    && (forall i :: 0 <= i < |audit| ==> audit[i].id > 0)
    && (forall i, j :: 0 <= i < j < |audit| ==> audit[i].id < audit[j].id)
  }

  lemma {:induction false} NewestAreIn(audit: seq<AuditEvent>, f: Filter, beforeId: int)
    ensures forall e :: e in Newest(audit, f, beforeId) <==> e in audit && Before(e, beforeId) && f.Matches(e)
  {
    if audit != [] {
      var k := |audit| - 1;
      NewestAreIn(audit[..k], f, beforeId);
      assert audit == audit[..k] + [audit[k]];
    }
  }

  /** The list holds the ledger's events that are below the id and fit every field of the filter
      that is not empty. */
  lemma NewestAreWanted(audit: seq<AuditEvent>, f: Filter, beforeId: int, e: AuditEvent)
    ensures e in Newest(audit, f, beforeId) <==>
              && e in audit && (beforeId > 0 ==> e.id < beforeId)
              && (f.app != "" ==> e.app == f.app) && (f.ring != "" ==> e.ring == f.ring)
              && (f.category != "" ==> e.category == f.category) && (f.actor != "" ==> e.actor == f.actor)
  {
    NewestAreIn(audit, f, beforeId);
  }

  /** Two bounds above every id select the same. */
  lemma {:induction false} BoundsAbove(audit: seq<AuditEvent>, f: Filter, b: int, c: int)
    requires forall e :: e in audit ==> Before(e, b) && Before(e, c)
    ensures Newest(audit, f, b) == Newest(audit, f, c)
  {
    if audit != [] {
      BoundsAbove(audit[..|audit| - 1], f, b, c);
      assert audit[|audit| - 1] in audit;
    }
  }

  ghost predicate Descending(events: seq<AuditEvent>) {
    forall i, j :: 0 <= i < j < |events| ==> events[i].id > events[j].id
  }

  lemma DescendingCons(e: AuditEvent, rest: seq<AuditEvent>)
    requires Descending(rest) && forall x :: x in rest ==> x.id < e.id
    ensures Descending([e] + rest)
  {
    var all := [e] + rest;
    forall i, j | 0 <= i < j < |all| ensures all[i].id > all[j].id {
      assert all[j] == rest[j - 1] && rest[j - 1] in rest;
      assert i > 0 ==> all[i] == rest[i - 1];
    }
  }

  /** Newest first, and no event twice. */
  lemma {:induction false} NewestDescend(audit: seq<AuditEvent>, f: Filter, b: int)
    requires Ascending(audit)
    ensures Descending(Newest(audit, f, b))
  {
    if audit != [] {
      var front, e := audit[..|audit| - 1], audit[|audit| - 1];
      NewestDescend(front, f, b);
      NewestAreIn(front, f, b);
      forall x | x in Newest(front, f, b) ensures x.id < e.id {
        var m :| 0 <= m < |front| && front[m] == x;
        assert audit[m] == x;
      }
      DescendingCons(e, Newest(front, f, b));
    }
  }

  /** What follows an event in the list is what a query below that event's id finds. */
  lemma {:induction false} RestIsBelow(audit: seq<AuditEvent>, f: Filter, b: int, k: nat)
    requires Ascending(audit) && k < |Newest(audit, f, b)|
    ensures Newest(audit, f, b)[k + 1..] == Newest(audit, f, Newest(audit, f, b)[k].id)
    decreases |audit|
  {
    var n := |audit| - 1;
    var front, e := audit[..n], audit[n];
    var rest := Newest(front, f, b);
    NewestAreIn(front, f, b);
    if Before(e, b) && f.Matches(e) {
      if k == 0 {
        forall x | x in front ensures Before(x, b) && Before(x, e.id) {
        }
        BoundsAbove(front, f, b, e.id);
      } else {
        RestIsBelow(front, f, b, k - 1);
        assert rest[k - 1] in rest;
      }
    } else {
      RestIsBelow(front, f, b, k);
      assert rest[k] in rest;
    }
  }

  /** Events above the bound do not show. */
  lemma AppendedAboveBound(audit: seq<AuditEvent>, e: AuditEvent, f: Filter, b: int)
    requires 0 < b <= e.id
    ensures Newest(audit + [e], f, b) == Newest(audit, f, b)
  {
    assert (audit + [e])[..|audit|] == audit;
  }

  /** A query parameter of the request, as its text parsed. */
  datatype Param = Absent | Malformed | Number(value: int)

  datatype Query = Query(filter: Filter, beforeId: Param, limit: Param)

  datatype Answer =
    | BadBeforeId
    | BadLimit
    | Events(events: seq<AuditEvent>, nextBeforeId: int)

  predicate BadNumber(p: Param) {
    p.Malformed? || (p.Number? && p.value < 0)
  }

  function ValueOf(p: Param): int {
    if p.Number? then p.value else 0
  }

  class Ledger {
    var audit: seq<AuditEvent>
    var nextAuditId: int

    constructor ()
      ensures Valid() && audit == []
    {
      audit, nextAuditId := [], 1;
    }

    ghost predicate Valid()
      reads this
    {
      Ascending(audit) && nextAuditId > 0 && forall e :: e in audit ==> e.id < nextAuditId
    }

    method AppendAudit(e: AuditEvent)
      requires Valid()
      modifies this
      ensures Valid() && audit == old(audit) + [e.(id := old(nextAuditId))] && nextAuditId == old(nextAuditId) + 1
    {
      var stored := e.(id := nextAuditId);
      nextAuditId := nextAuditId + 1;
      forall x | x in audit + [stored] ensures x.id < nextAuditId {
      }
      audit := audit + [stored];
    }

    method ListAudit(f: Filter, beforeId: int, requested: int) returns (out: seq<AuditEvent>)
      ensures out == Page(audit, f, beforeId, ClampLimit(requested))
    {
      var limit := ClampLimit(requested);
      out := [];
      var i := |audit|;
      assert audit[..i] == audit;
      while i > 0 && |out| < limit
        invariant 0 <= i <= |audit| && |out| <= limit
        invariant Newest(audit, f, beforeId) == out + Newest(audit[..i], f, beforeId)
      {
        i := i - 1;
        assert audit[..i + 1][..i] == audit[..i];
        var e := audit[i];
        if beforeId > 0 && e.id >= beforeId {
          continue;
        }
        if !f.Matches(e) {
          continue;
        }
        out := out + [e];
      }
    }

    /** Zero ends the paging; any other cursor asks for what lies below it. */
    method HandleAudit(q: Query) returns (a: Answer)
      requires Valid()
      ensures BadNumber(q.beforeId) <==> a == BadBeforeId
      ensures !BadNumber(q.beforeId) && BadNumber(q.limit) <==> a == BadLimit
      ensures a.Events? ==>
                var limit, all := ClampLimit(ValueOf(q.limit)), Newest(audit, q.filter, ValueOf(q.beforeId));
                && a.events == Page(audit, q.filter, ValueOf(q.beforeId), limit)
                && (a.nextBeforeId == 0 <==> |all| < limit)
                && (a.nextBeforeId != 0 ==> 0 < a.nextBeforeId < nextAuditId && all == a.events + Newest(audit, q.filter, a.nextBeforeId)
                                            && |a.events| == limit && a.events[limit - 1].id == a.nextBeforeId)
    {
      hide Newest, Filter.Matches;
      if q.beforeId.Malformed? || (q.beforeId.Number? && q.beforeId.value < 0) {
        return BadBeforeId;
      }
      var beforeId := if q.beforeId.Number? then q.beforeId.value else 0;
      if q.limit.Malformed? || (q.limit.Number? && q.limit.value < 0) {
        return BadLimit;
      }
      var limit := if q.limit.Number? then q.limit.value else 0;
      var events := ListAudit(q.filter, beforeId, limit);
      var next := 0;
      if |events| == ClampLimit(limit) {
        next := events[|events| - 1].id;
        RestIsBelow(audit, q.filter, beforeId, |events| - 1);
        NewestAreIn(audit, q.filter, beforeId);
        assert events[|events| - 1] in Newest(audit, q.filter, beforeId);
      }
      a := Events(events, next);
    }

    /** Whatever other operations add between two requests. */
    method Meanwhile(ghost f: Filter, ghost b: int)
      requires Valid()
      modifies this
      ensures Valid() && old(audit) <= audit
      ensures 0 < b <= old(nextAuditId) ==> Newest(audit, f, b) == Newest(old(audit), f, b)
      ensures old(nextAuditId) <= nextAuditId
    {
      var count: int := *;
      if count < 0 {
        count := 0;
      }
      for i := 0 to count
        invariant Valid() && old(audit) <= audit && old(nextAuditId) <= nextAuditId
        invariant 0 < b <= old(nextAuditId) ==> Newest(audit, f, b) == Newest(old(audit), f, b)
      {
        var e: AuditEvent := *;
        if 0 < b <= old(nextAuditId) {
          AppendedAboveBound(audit, e.(id := nextAuditId), f, b);
        }
        AppendAudit(e);
      }
    }

    /** A client that follows the cursor to its end. However the ledger grows between the pages,
        it reads the matching events of the ledger as it stood at the first request: newest first,
        none missing, none twice. */
    method ReadAll(filter: Filter, limit: Param) returns (all: seq<AuditEvent>, pages: nat)
      requires Valid() && !BadNumber(limit)
      modifies this
      ensures Valid() && old(audit) <= audit
      ensures all == Newest(old(audit), filter, 0)
      ensures var size := ClampLimit(ValueOf(limit)); (pages - 1) * size <= |all| < pages * size
    {
      hide Newest, Ascending;
      ghost var size := ClampLimit(ValueOf(limit));
      var a := HandleAudit(Query(filter, Absent, limit));
      all, pages := a.events, 1;
      var next := a.nextBeforeId;
      while next != 0
        invariant Valid() && old(audit) <= audit && next >= 0
        invariant next == 0 ==> Newest(old(audit), filter, 0) == all && (pages - 1) * size <= |all| < pages * size
        invariant next != 0 ==>
                    && Newest(old(audit), filter, 0) == all + Newest(audit, filter, next)
                    && |all| == pages * size && next < nextAuditId
        decreases next != 0, |Newest(old(audit), filter, 0)| - |all|
      {
        Meanwhile(filter, next);
        a := HandleAudit(Query(filter, Number(next), limit));
        all, pages, next := all + a.events, pages + 1, a.nextBeforeId;
      }
    }
  }
}
