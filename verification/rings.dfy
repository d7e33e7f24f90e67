/** The ordered rings every application is promoted through (internal/ring/ring.go), for any
    list of distinct names. */
module Rings {
  import opened Wrappers

  ghost predicate Distinct(rings: seq<string>) {
    forall i, j :: 0 <= i < j < |rings| ==> rings[i] != rings[j]
  }

  /** The position of the named ring, or -1. */
  function Index(rings: seq<string>, name: string): (i: int)
    ensures -1 <= i < |rings|
    ensures i == -1 <==> name !in rings
    ensures i >= 0 ==> rings[i] == name && forall j :: 0 <= j < i ==> rings[j] != name
  {
    if rings == [] then -1
    else if rings[0] == name then 0
    else
      var i := Index(rings[1..], name);
      if i < 0 then -1 else i + 1
  }

  function Next(rings: seq<string>, name: string): Option<string> {
    var i := Index(rings, name);
    if i < 0 || i + 1 >= |rings| then None else Some(rings[i + 1])
  }

  function Prev(rings: seq<string>, name: string): Option<string> {
    var i := Index(rings, name);
    if i <= 0 then None else Some(rings[i - 1])
  }

  /** Position i's ring is found at i. */
  lemma IndexAt(rings: seq<string>, i: nat)
    requires Distinct(rings) && i < |rings|
    ensures Index(rings, rings[i]) == i
  {
    var j := Index(rings, rings[i]);
    assert rings[j] == rings[i];
  }

  /** Going on and going back undo each other, and only neighbours are joined. */
  lemma NextAndPrevAreInverse(rings: seq<string>, a: string, b: string)
    requires Distinct(rings) && a in rings && b in rings
    ensures Next(rings, a) == Some(b) <==> Prev(rings, b) == Some(a)
    ensures Next(rings, a) == Some(b) <==> Index(rings, b) == Index(rings, a) + 1
  {
    var i, j := Index(rings, a), Index(rings, b);
    if i + 1 < |rings| {
      IndexAt(rings, i + 1);
    }
    if j > 0 {
      IndexAt(rings, j - 1);
    }
  }
}
