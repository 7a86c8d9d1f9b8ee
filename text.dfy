/** The JavaScript string primitives the site relies on, over `seq<char>`:
    the `\s` character class, `trim`, `toLowerCase`, `includes`, `join`
    and number-to-string conversion. */
module Text {

  /** JavaScript's `\s` (and the set `trim` strips): the WhiteSpace and
      LineTerminator code points of ECMAScript 2019, section 11.2 and 11.3. */
  predicate IsSpace(c: char) {
    c == '\t' || c == '\n' || c == '\U{000B}' || c == '\U{000C}' || c == '\r'
    || c == ' ' || c == '\U{00A0}' || c == '\U{1680}'
    || ('\U{2000}' <= c <= '\U{200A}')
    || c == '\U{2028}' || c == '\U{2029}' || c == '\U{202F}' || c == '\U{205F}'
    || c == '\U{3000}' || c == '\U{FEFF}'
  }

  predicate AllSpace(s: string) {
    forall i :: 0 <= i < |s| ==> IsSpace(s[i])
  }

  predicate NoSpace(s: string) {
    forall i :: 0 <= i < |s| ==> !IsSpace(s[i])
  }

  /** `String.prototype.trimStart`: the suffix left after dropping leading
      white space. */
  function TrimStart(s: string): (r: string)
    ensures exists k :: 0 <= k <= |s| && r == s[k..] && AllSpace(s[..k])
    ensures r == [] || !IsSpace(r[0])
    decreases |s|
  {
    if s != [] && IsSpace(s[0]) then
      var t := TrimStart(s[1..]);
      ghost var k :| 0 <= k <= |s[1..]| && t == s[1..][k..] && AllSpace(s[1..][..k]);
      assert t == s[k + 1..];
      ghost var pre := s[..k + 1];
      assert AllSpace(pre) by {
        forall i | 0 <= i < |pre| ensures IsSpace(pre[i]) {
          if i > 0 { assert pre[i] == s[1..][..k][i - 1]; }
        }
      }
      t
    else
      assert s == s[0..] && s[..0] == [];
      s
  }

  /** `String.prototype.trimEnd`: the prefix left after dropping trailing
      white space. */
  function TrimEnd(s: string): (r: string)
    ensures exists k :: 0 <= k <= |s| && r == s[..k] && AllSpace(s[k..])
    ensures r == [] || !IsSpace(r[|r| - 1])
    decreases |s|
  {
    if s != [] && IsSpace(s[|s| - 1]) then
      var t := TrimEnd(s[..|s| - 1]);
      ghost var k :| 0 <= k <= |s| - 1 && t == s[..|s| - 1][..k] && AllSpace(s[..|s| - 1][k..]);
      assert t == s[..k];
      assert AllSpace(s[k..]) by {
        forall i | 0 <= i < |s| - k ensures IsSpace(s[k..][i]) {
          if i < |s| - 1 - k { assert s[k..][i] == s[..|s| - 1][k..][i]; }
        }
      }
      t
    else
      assert s == s[..|s|] && s[|s|..] == [];
      s
  }

  /** `String.prototype.trim`. */
  function Trim(s: string): string {
    TrimEnd(TrimStart(s))
  }

  /** A string trims to the empty string exactly when it is all white space. */
  lemma TrimEmptyIff(s: string)
    ensures Trim(s) == [] <==> AllSpace(s)
  {
    var u := TrimStart(s);
    var k :| 0 <= k <= |s| && u == s[k..] && AllSpace(s[..k]);
    var m :| 0 <= m <= |u| && TrimEnd(u) == u[..m] && AllSpace(u[m..]);
    if Trim(s) == [] {
      assert m == 0;
      assert u == [];
      forall i | 0 <= i < |s| ensures IsSpace(s[i]) {
        assert s[i] == s[..k][i];
      }
    } else {
      assert !IsSpace(u[0]);
      assert u[0] == s[k];
    }
  }

  /** Trimming reaches its fixed point in one step. */
  lemma TrimIdempotent(s: string)
    ensures Trim(Trim(s)) == Trim(s)
  {
    var t := Trim(s);
    if t != [] {
      assert !IsSpace(t[|t| - 1]);
      assert t == TrimEnd(TrimStart(s));
      var u := TrimStart(s);
      assert u != [] ==> !IsSpace(u[0]);
      var m :| 0 <= m <= |u| && t == u[..m] && AllSpace(u[m..]);
      assert !IsSpace(t[0]);
      assert TrimStart(t) == t;
      assert TrimEnd(t) == t;
    }
  }

  /** `toLowerCase` on one character: the ASCII capitals only. */
  function LowerChar(c: char): char {
    if 'A' <= c <= 'Z' then (c as int + 32) as char else c
  }

  /** `String.prototype.toLowerCase`, character by character. */
  function Lower(s: string): (r: string)
    ensures |r| == |s|
  {
    seq(|s|, i requires 0 <= i < |s| => LowerChar(s[i]))
  }

  /** `s.startsWith(p)`. */
  predicate StartsWith(s: string, p: string) {
    |p| <= |s| && s[..|p|] == p
  }

  /** `p` occurs in `s` starting at offset `i`. */
  predicate OccursAt(s: string, p: string, i: int) {
    0 <= i && i + |p| <= |s| && s[i..i + |p|] == p
  }

  /** `s.includes(p)`: `p` occurs in `s` as a contiguous piece. */
  predicate Contains(s: string, p: string)
    decreases |s|
  {
    StartsWith(s, p) || (s != [] && Contains(s[1..], p))
  }

  /** `Contains` agrees with the occurrence of `p` at some offset of `s`. */
  lemma {:induction false} ContainsIff(s: string, p: string)
    ensures Contains(s, p) <==> exists i :: OccursAt(s, p, i)
    decreases |s|
  {
    if StartsWith(s, p) {
      assert OccursAt(s, p, 0);
    } else if s == [] {
    } else {
      ContainsIff(s[1..], p);
      if Contains(s[1..], p) {
        var i :| OccursAt(s[1..], p, i);
        assert s[i + 1..i + 1 + |p|] == p;
        assert OccursAt(s, p, i + 1);
      }
      if exists i :: OccursAt(s, p, i) {
        var i :| OccursAt(s, p, i);
        assert i != 0;
        assert s[1..][i - 1..i - 1 + |p|] == p;
        assert OccursAt(s[1..], p, i - 1);
      }
    }
  }

  /** A piece taken out of `s` is contained in it. */
  lemma ContainsSlice(s: string, i: nat, j: nat)
    requires i <= j <= |s|
    ensures Contains(s, s[i..j])
  {
    ContainsIff(s, s[i..j]);
    assert OccursAt(s, s[i..j], i);
  }

  /** A piece whose first character never appears in `s` is not contained in it. */
  lemma AbsentFirstChar(s: string, p: string)
    requires p != [] && p[0] !in s
    ensures !Contains(s, p)
  {
    ContainsIff(s, p);
  }

  /** `Array.prototype.join(sep)`. */
  function Join(xs: seq<string>, sep: string): string
    decreases |xs|
  {
    if |xs| == 0 then ""
    else if |xs| == 1 then xs[0]
    else xs[0] + sep + Join(xs[1..], sep)
  }

  function DigitChar(d: nat): char
    requires d < 10
  {
    "0123456789"[d]
  }

  function NatToString(n: nat): string
    decreases n
  {
    if n < 10 then [DigitChar(n)] else NatToString(n / 10) + [DigitChar(n % 10)]
  }

  /** The decimal text JavaScript produces for an integral Number. */
  function IntToString(n: int): string {
    if n < 0 then "-" + NatToString(-n) else NatToString(n)
  }
}
