/** Texts with the blanks around them cut off, as strings.TrimSpace does. */
module Texts {

  /** The characters with the Unicode property White_Space. */
  const WHITE_SPACE: set<char> := {
    '\t', '\n', '\U{0B}', '\U{0C}', '\r', ' ', '\U{85}', '\U{A0}', '\U{1680}', '\U{2000}', '\U{2001}',
    '\U{2002}', '\U{2003}', '\U{2004}', '\U{2005}', '\U{2006}', '\U{2007}', '\U{2008}', '\U{2009}',
    '\U{200A}', '\U{2028}', '\U{2029}', '\U{202F}', '\U{205F}', '\U{3000}'
  }

  predicate Blank(s: string) {
    forall i :: 0 <= i < |s| ==> s[i] in WHITE_SPACE
  }

  function Trim(s: string): string {
    if s != "" && s[0] in WHITE_SPACE then Trim(s[1..])
    else if s != "" && s[|s| - 1] in WHITE_SPACE then Trim(s[..|s| - 1])
    else s
  }

  lemma TailCut(s: string, i: nat, j: nat)
    requires s != "" && s[0] in WHITE_SPACE && i <= j <= |s| - 1
    requires Blank(s[1..][..i]) && Blank(s[1..][j..])
    ensures s[1..][i..j] == s[i + 1..j + 1] && Blank(s[..i + 1]) && Blank(s[j + 1..])
  {
    assert s[1..][i..j] == s[i + 1..j + 1] && s[1..][j..] == s[j + 1..];
    assert s[..i + 1] == [s[0]] + s[1..][..i];
  }

  lemma FrontCut(s: string, i: nat, j: nat)
    requires s != "" && s[|s| - 1] in WHITE_SPACE && i <= j <= |s| - 1
    requires Blank(s[..|s| - 1][..i]) && Blank(s[..|s| - 1][j..])
    ensures s[..|s| - 1][i..j] == s[i..j] && Blank(s[..i]) && Blank(s[j..])
  {
    var k := |s| - 1;
    assert s[..k][..i] == s[..i];
    assert s[j..] == s[..k][j..] + [s[k]];
  }

  /** Trimming takes away blanks only, from both ends, and all that are there. */
  lemma {:induction false} TrimCutsBlanks(s: string) returns (i: nat, j: nat)
    ensures i <= j <= |s| && Trim(s) == s[i..j] && Blank(s[..i]) && Blank(s[j..])
    ensures i < j ==> s[i] !in WHITE_SPACE && s[j - 1] !in WHITE_SPACE
  {
    if s != "" && s[0] in WHITE_SPACE {
      i, j := TrimCutsBlanks(s[1..]);
      TailCut(s, i, j);
      i, j := i + 1, j + 1;
    } else if s != "" && s[|s| - 1] in WHITE_SPACE {
      var k := |s| - 1;
      i, j := TrimCutsBlanks(s[..k]);
      FrontCut(s, i, j);
    } else {
      i, j := 0, |s|;
      assert s[0..|s|] == s;
    }
  }

  /** So nothing is left exactly of a blank text. */
  lemma NothingLeft(s: string)
    ensures Trim(s) == "" <==> Blank(s)
  {
    var i, j := TrimCutsBlanks(s);
    if i == j {
      assert s == s[..i] + s[i..];
    } else {
      assert s[i] in s[i..j];
    }
  }

  /** The blanks by their code points. */
  lemma BlanksAre(c: char)
    ensures c in WHITE_SPACE <==>
              || 0x9 <= c as int <= 0xD || 0x2000 <= c as int <= 0x200A
              || c as int in {0x20, 0x85, 0xA0, 0x1680, 0x2028, 0x2029, 0x202F, 0x205F, 0x3000}
  {
  }
}
