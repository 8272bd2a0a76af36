/** The string operations of Go's `strings` package that the modelled code calls.
  * A string is a sequence of code points; comparing code points orders valid
  * UTF-8 strings exactly as comparing their bytes does. */
module Text {

  /** unicode.IsSpace. */
  predicate IsSpace(c: char) {
    var n := c as int;
    || 0x9 <= n <= 0xD || n == 0x20 || n == 0x85 || n == 0xA0 || n == 0x1680
    || 0x2000 <= n <= 0x200A || n == 0x2028 || n == 0x2029 || n == 0x202F
    || n == 0x205F || n == 0x3000
  }

  function TrimLeft(s: string, cut: char -> bool): (r: string)
    ensures r == "" || !cut(r[0])
    ensures |r| <= |s| && r == s[|s| - |r|..] && forall i :: 0 <= i < |s| - |r| ==> cut(s[i])
  {
    if s != "" && cut(s[0]) then
      var r := TrimLeft(s[1..], cut);
      assert forall i :: 0 < i < |s| ==> s[i] == s[1..][i - 1];
      r
    else s
  }

  function TrimRight(s: string, cut: char -> bool): (r: string)
    ensures r == "" || !cut(r[|r| - 1])
    ensures |r| <= |s| && r == s[..|r|] && forall i :: |r| <= i < |s| ==> cut(s[i])
  {
    if s != "" && cut(s[|s| - 1]) then TrimRight(s[..|s| - 1], cut) else s
  }

  function Trim(s: string, cut: char -> bool): string {
    TrimRight(TrimLeft(s, cut), cut)
  }

  function TrimSpace(s: string): string { Trim(s, IsSpace) }

  /** No character of the cut set stands at either end. */
  predicate Bare(s: string, cut: char -> bool) {
    s == "" || (!cut(s[0]) && !cut(s[|s| - 1]))
  }

  lemma TrimIsBare(s: string, cut: char -> bool)
    ensures Bare(Trim(s, cut), cut)
    ensures Bare(s, cut) <==> Trim(s, cut) == s
  {
    var t := TrimLeft(s, cut);
    var r := TrimRight(t, cut);
    if r != "" { assert r[0] == t[0]; }
  }

  lemma {:induction false} TrimLeftMembers(s: string, cut: char -> bool)
    ensures forall c :: c in TrimLeft(s, cut) ==> c in s
  {
    if s != "" && cut(s[0]) { TrimLeftMembers(s[1..], cut); }
  }

  /** Trimming invents no character and keeps whatever the cut set spares. */
  lemma TrimMembers(s: string, cut: char -> bool)
    ensures forall c :: c in Trim(s, cut) ==> c in s
    ensures s != "" && !cut(s[0]) ==> Trim(s, cut) != ""
  {
    TrimLeftMembers(s, cut);
    var l := TrimLeft(s, cut);
    assert l[..|TrimRight(l, cut)|] == TrimRight(l, cut);
  }

  lemma NothingToTrim(s: string)
    requires s != "" && !IsSpace(s[0]) && !IsSpace(s[|s| - 1])
    ensures TrimSpace(s) == s
  {
  }

  /** strings.Index of one character, -1 when it is absent. */
  function Index(s: string, c: char): (i: int)
    ensures -1 <= i < |s|
    ensures i >= 0 ==> s[i] == c && c !in s[..i]
    ensures i < 0 ==> c !in s
  {
    if s == "" then -1
    else if s[0] == c then 0
    else
      var i := Index(s[1..], c);
      if i < 0 then -1 else
        assert s[..i + 1] == [s[0]] + s[1..][..i];
        i + 1
  }

  /** strings.LastIndex of one character, -1 when it is absent. */
  function LastIndex(s: string, c: char): (i: int)
    ensures -1 <= i < |s|
    ensures i >= 0 ==> s[i] == c && c !in s[i + 1..]
    ensures i < 0 ==> c !in s
  {
    if s == "" then -1
    else if s[|s| - 1] == c then |s| - 1
    else
      var i := LastIndex(s[..|s| - 1], c);
      assert i >= 0 ==> s[i + 1..] == s[..|s| - 1][i + 1..] + [s[|s| - 1]];
      assert s == s[..|s| - 1] + [s[|s| - 1]];
      i
  }

  lemma IndexIs(s: string, c: char, k: nat)
    requires k < |s| && s[k] == c && c !in s[..k]
    ensures Index(s, c) == k
  {
    var i := Index(s, c);
    forall j | 0 <= j < k ensures s[j] != c { assert s[j] == s[..k][j]; }
    forall j | 0 <= j < i ensures s[j] != c { assert s[j] == s[..i][j]; }
  }

  lemma LastIndexIs(s: string, c: char, k: nat)
    requires k < |s| && s[k] == c && c !in s[k + 1..]
    ensures LastIndex(s, c) == k
  {
    var i := LastIndex(s, c);
    forall j | k < j < |s| ensures s[j] != c { assert s[j] == s[k + 1..][j - k - 1]; }
    assert i >= 0;
    forall j | i < j < |s| ensures s[j] != c { assert s[j] == s[i + 1..][j - i - 1]; }
  }

  predicate HasPrefix(s: string, p: string) { p <= s }

  /** Go's `<` on strings. */
  predicate Less(a: string, b: string) {
    if b == "" then false
    else if a == "" then true
    else if a[0] != b[0] then a[0] < b[0]
    else Less(a[1..], b[1..])
  }

  lemma {:induction false} LessTotal(a: string, b: string)
    ensures !(Less(a, b) && Less(b, a))
    ensures a != b ==> Less(a, b) || Less(b, a)
    ensures !Less(a, a)
  {
    if a != "" { LessTotal(a[1..], a[1..]); }
    if a != "" && b != "" && a[0] == b[0] {
      LessTotal(a[1..], b[1..]);
      assert a == [a[0]] + a[1..] && b == [b[0]] + b[1..];
    }
  }

  lemma {:induction false} LessTransitive(a: string, b: string, c: string)
    requires Less(a, b) && Less(b, c)
    ensures Less(a, c)
  {
    if a != "" && a[0] == b[0] && b[0] == c[0] {
      LessTransitive(a[1..], b[1..], c[1..]);
    }
  }

  /** The strings agree up to here, where the first is smaller. */
  predicate SmallerAt(a: string, b: string, i: nat) { i < |a| && i < |b| && a[..i] == b[..i] && a[i] < b[i] }

  lemma SmallerLater(a: string, b: string, i: nat)
    requires a != "" && b != "" && a[0] == b[0]
    ensures SmallerAt(a, b, i + 1) <==> SmallerAt(a[1..], b[1..], i)
    ensures !SmallerAt(a, b, 0)
  {
    if i < |a| - 1 && i < |b| - 1 {
      assert a[..i + 1] == [a[0]] + a[1..][..i] && b[..i + 1] == [b[0]] + b[1..][..i];
      assert a[..i + 1] == b[..i + 1] ==> a[1..][..i] == b[1..][..i] by {
        assert a[..i + 1][1..] == a[1..][..i] && b[..i + 1][1..] == b[1..][..i];
      }
    }
  }

  lemma SmallerFirst(a: string, b: string)
    requires a != "" && b != "" && a[0] != b[0]
    ensures (exists i: nat :: SmallerAt(a, b, i)) <==> a[0] < b[0]
  {
    assert SmallerAt(a, b, 0) <==> a[0] < b[0];
    forall i: nat | 0 < i < |a| && i < |b| ensures a[..i] != b[..i] { assert a[..i][0] == a[0] && b[..i][0] == b[0]; }
  }

  /** One string is before another if it is a proper prefix of it, or smaller where the
    * two first differ. */
  lemma {:induction false} LessMeans(a: string, b: string)
    ensures Less(a, b) <==> a < b || exists i: nat :: SmallerAt(a, b, i)
  {
    if a == "" || b == "" {
    } else if a[0] != b[0] {
      SmallerFirst(a, b);
    } else {
      LessMeans(a[1..], b[1..]);
      assert a == [a[0]] + a[1..] && b == [b[0]] + b[1..];
      forall i: nat ensures SmallerAt(a, b, i + 1) <==> SmallerAt(a[1..], b[1..], i) { SmallerLater(a, b, i); }
      if i: nat :| SmallerAt(a, b, i) {
        SmallerLater(a, b, 0);
        assert i == (i - 1) + 1 && SmallerAt(a[1..], b[1..], i - 1);
      }
    }
  }

  /** The blanks: the six ASCII ones, two Latin-1 ones and the Unicode spaces. */
  lemma SpacesAre(c: char)
    ensures IsSpace(c) <==> c in [
              '\t', '\n', '\U{00000B}', '\U{00000C}', '\r', ' ', '\U{000085}', '\U{0000A0}', '\U{001680}', '\U{002000}',
              '\U{002001}', '\U{002002}', '\U{002003}', '\U{002004}', '\U{002005}', '\U{002006}', '\U{002007}',
              '\U{002008}', '\U{002009}', '\U{00200A}', '\U{002028}', '\U{002029}', '\U{00202F}', '\U{00205F}',
              '\U{003000}']
  {
  }
}
