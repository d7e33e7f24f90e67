/** Maintenance windows: the weekly windows of the configuration (internal/config/promotion.go)
    and the operators' ad-hoc ones (internal/store/store.go). Time is counted in whole minutes
    from midnight UTC of some Sunday, before it as well as after. */
module Windows {
  import opened Wrappers

  const DAY := 1440
  const WEEK := 10080

  type Minute = m: int | 0 <= m < 1440

  /** days, start, end and offset are what parsing the configured texts gave, None where it
      failed; no days at all means every day, 0 is Sunday. */
  datatype Recurring = Recurring(days: seq<Option<nat>>, start: Option<Minute>, end: Option<Minute>, offset: Option<int>)
  {
    /** Whether a weekday is one of the window's; -1, the day before Sunday, is Saturday. */
    predicate DayAllowed(weekday: int) {
      var wd := if weekday < 0 then 6 else weekday;
      days == [] || exists i :: 0 <= i < |days| && days[i] == Some(wd)
    }

    predicate Active(t: int) {
      if offset == None || start == None || end == None then false
      else
        var local := t + offset.value;
        var weekday, now := (local / DAY) % 7, local % DAY;
        if start.value < end.value then
          DayAllowed(weekday) && start.value <= now < end.value
        else if now >= start.value then DayAllowed(weekday)
        else if now < end.value then DayAllowed(weekday - 1)
        else false
    }

    predicate Parses() {
      start.Some? && end.Some? && offset.Some?
    }

    /** The minutes a window stays open once it has opened. */
    function Length(): int
      requires Parses()
    {
      if start.value < end.value then end.value - start.value else end.value + DAY - start.value
    }
  }

  /** Local minute l falls into the window that opens on weekday d, in whatever week. */
  predicate OpenedOn(w: Recurring, l: int, d: int)
    requires w.Parses()
  {
    (l - (d * DAY + w.start.value)) % WEEK < w.Length()
  }

  lemma WeekSplits(l: int)
    ensures var q, m := l / DAY, l % DAY; l == (q / 7) * WEEK + (q % 7) * DAY + m
  {
  }

  lemma ModuloWeek(k: int, x: int)
    ensures (k * WEEK + x) % WEEK == x % WEEK
  {
    var r, q := x % WEEK, x / WEEK;
    assert k * WEEK + x == (k + q) * WEEK + r;
    QuotientUnique(k * WEEK + x, k + q, r);
  }

  lemma QuotientUnique(a: int, q: int, r: int)
    requires a == q * WEEK + r && 0 <= r < WEEK
    ensures a % WEEK == r
  {
  }

  /** A stretch of at most a day that starts dd days before and at minute s reaches minute m of
      its own day, or of the next one, which after Saturday is Sunday. */
  lemma StretchReaches(dd: int, m: int, s: int, len: int)
    requires -6 <= dd <= 6 && 0 <= m < DAY && 0 <= s < DAY && 0 < len <= DAY
    ensures (dd * DAY + m - s) % WEEK < len <==> (dd == 0 && 0 <= m - s < len) || (dd in {1, -6} && m < s && DAY + m - s < len)
  {
    var x := dd * DAY + m - s;
    if x < 0 {
      QuotientUnique(x, -1, x + WEEK);
    } else {
      QuotientUnique(x, 0, x);
    }
  }

  /** Which openings reach a moment: the one of its own day, or the one of the day before. */
  lemma OpeningOfDay(w: Recurring, l: int, d: int)
    requires w.Parses() && 0 <= d < 7
    ensures var wd, m, s, e := (l / DAY) % 7, l % DAY, w.start.value, w.end.value;
            OpenedOn(w, l, d) <==>
              (wd == d && m >= s && (s < e ==> m < e)) || (wd - d in {1, -6} && m < s && e <= s && m < e)
  {
    var q, m, s := l / DAY, l % DAY, w.start.value;
    var wd := q % 7;
    WeekSplits(l);
    assert l - (d * DAY + s) == (q / 7) * WEEK + ((wd - d) * DAY + m - s);
    ModuloWeek(q / 7, (wd - d) * DAY + m - s);
    StretchReaches(wd - d, m, s, w.Length());
  }

  /** A weekly window is open exactly on the half-open stretches of its length that start at its
      start time on each allowed day, modulo a week: across midnight and from Saturday into
      Sunday as anywhere else. No days at all are all days. */
  lemma ActiveIsWeekly(w: Recurring, t: int)
    requires w.Parses()
    ensures 0 < w.Length() <= DAY
    ensures w.Active(t) <==>
              exists d :: 0 <= d < 7 && (w.days == [] || Some(d) in w.days) && OpenedOn(w, t + w.offset.value, d)
  {
    forall d | 0 <= d < 7 ensures w.DayAllowed(d) <==> w.days == [] || Some(d) in w.days {
    }
    var l := t + w.offset.value;
    var wd, m := (l / DAY) % 7, l % DAY;
    var before := if wd == 0 then 6 else wd - 1;
    forall d | 0 <= d < 7
      ensures OpenedOn(w, l, d) <==>
        (wd == d && m >= w.start.value && (w.start.value < w.end.value ==> m < w.end.value))
        || (before == d && m < w.start.value && w.end.value <= w.start.value && m < w.end.value)
    {
      OpeningOfDay(w, l, d);
    }
    assert w.DayAllowed(wd - 1) == w.DayAllowed(before);
    if w.Active(t) {
      var d := if m >= w.start.value then wd else before;
      assert 0 <= d < 7 && w.DayAllowed(d) && OpenedOn(w, l, d);
      assert w.days == [] || Some(d) in w.days;
    }
  }

  /** A window whose texts did not parse is never open. */
  lemma UnreadIsClosed(w: Recurring, t: int)
    ensures w.Active(t) ==> w.start.Some? && w.end.Some? && w.offset.Some?
  {
  }

  lemma OpenedFor(w: Recurring, d: int, k: int, x: int)
    requires w.Parses() && 0 <= x < WEEK
    ensures OpenedOn(w, k * WEEK + d * DAY + w.start.value + x, d) <==> x < w.Length()
  {
    var l := k * WEEK + d * DAY + w.start.value + x;
    assert l - (d * DAY + w.start.value) == k * WEEK + x;
    ModuloWeek(k, x);
    QuotientUnique(x, 0, x);
  }

  /** A window that opens on one day only is open for its length from there, and then closed until
      the same minute of the next week; t is x minutes after the opening of week k. */
  lemma OpensOnceAWeek(w: Recurring, d: nat, k: int, x: int, t: int)
    requires w.Parses() && d < 7 && w.days == [Some(d)] && 0 <= x < WEEK
    requires t + w.offset.value == k * WEEK + d * DAY + w.start.value + x
    ensures w.Active(t) <==> x < w.Length()
  {
    OpenedFor(w, d, k, x);
    var open := x < w.Length();
    hide OpenedOn, Recurring.Length;
    assert w.days[0] == Some(d);
    forall e | 0 <= e < 7 ensures w.DayAllowed(e) <==> e == d {
    }
    ActiveIsWeekly(w, t);
    hide Recurring.Active, Recurring.DayAllowed;
    if open {
      assert w.DayAllowed(d) && OpenedOn(w, t + w.offset.value, d);
    }
  }

  method OpenAt(recurring: seq<Recurring>, t: int) returns (open: bool)
    ensures open <==> exists w :: w in recurring && w.Active(t)
  {
    for i := 0 to |recurring|
      invariant forall w :: w in recurring[..i] ==> !w.Active(t)
    {
      if recurring[i].Active(t) {
        return true;
      }
    }
    open := false;
  }

  /** An operator's window: without a ring it covers every ring. */
  datatype AdHoc = AdHoc(ring: string, startsAt: int, endsAt: int)
  {
    predicate Active(t: int) { startsAt <= t < endsAt }

    predicate Covers(target: string) { ring == "" || ring == target }
  }
}
