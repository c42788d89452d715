/**
 * The Python string operations the agent relies on, restricted to ASCII:
 * `str.strip`, `str.lower`/`str.upper`, `in`, `startswith`/`endswith`,
 * `find`, slicing, `sep.join`, `str.split(sep)` and the decimal text of an
 * integer.
 */
module Text {
  import opened Wrappers

  /**
   * The ASCII characters `str.isspace()` (and a regular expression's `\s`)
   * accepts: space, \t, \n, \x0b, \x0c, \r and the separators \x1c to \x1f.
   */
  predicate IsSpace(c: char)
  {
    c == ' ' || c == '\t' || c == '\n' || c == '\r' || c == '\U{B}' || c == '\U{C}' || '\U{1C}' <= c <= '\U{1F}'
  }

  predicate IsDigit(c: char) { '0' <= c <= '9' }

  predicate IsUpper(c: char) { 'A' <= c <= 'Z' }

  predicate IsLower(c: char) { 'a' <= c <= 'z' }

  predicate IsAlpha(c: char) { IsUpper(c) || IsLower(c) }

  predicate IsAlnum(c: char) { IsAlpha(c) || IsDigit(c) }

  function LowerChar(c: char): (r: char)
    ensures !IsUpper(r)
    ensures IsAlpha(c) <==> IsAlpha(r)
    ensures IsDigit(c) <==> IsDigit(r)
    ensures IsSpace(c) <==> IsSpace(r)
  {
    if IsUpper(c) then (c as int + 32) as char else c
  }

  function UpperChar(c: char): (r: char)
    ensures !IsLower(r)
    ensures IsAlpha(c) <==> IsAlpha(r)
  {
    if IsLower(c) then (c as int - 32) as char else c
  }

  /** `s.lower()` on ASCII text. */
  function Lower(s: string): (r: string)
    ensures |r| == |s|
    ensures forall i :: 0 <= i < |s| ==> r[i] == LowerChar(s[i])
  {
    seq(|s|, i requires 0 <= i < |s| => LowerChar(s[i]))
  }

  /** `s.upper()` on ASCII text. */
  function Upper(s: string): (r: string)
    ensures |r| == |s|
    ensures forall i :: 0 <= i < |s| ==> r[i] == UpperChar(s[i])
  {
    seq(|s|, i requires 0 <= i < |s| => UpperChar(s[i]))
  }

  /** `s.lstrip()`: the suffix left after dropping leading whitespace. */
  function LStrip(s: string): (r: string)
    ensures |r| <= |s| && r == s[|s| - |r|..]
    ensures forall i :: 0 <= i < |s| - |r| ==> IsSpace(s[i])
    ensures r == [] || !IsSpace(r[0])
  {
    if s != [] && IsSpace(s[0]) then LStrip(s[1..]) else s
  }

  /** `s.rstrip()`: the prefix left after dropping trailing whitespace. */
  function RStrip(s: string): (r: string)
    ensures |r| <= |s| && r == s[..|r|]
    ensures forall i :: |r| <= i < |s| ==> IsSpace(s[i])
    ensures r == [] || !IsSpace(r[|r| - 1])
  {
    if s != [] && IsSpace(s[|s| - 1]) then RStrip(s[..|s| - 1]) else s
  }

  /** `t` occurs in `s` starting at position `i`. */
  predicate OccursAt(s: string, t: string, i: int)
  {
    0 <= i && i + |t| <= |s| && s[i..i + |t|] == t
  }

  /** `s.strip()`. */
  function Strip(s: string): (r: string)
    ensures |r| <= |s|
    ensures r == [] || (!IsSpace(r[0]) && !IsSpace(r[|r| - 1]))
  {
    RStrip(LStrip(s))
  }

  /** The stripped text occurs in the original. */
  lemma StripContains(s: string)
    ensures Contains(s, Strip(s))
  {
    var l := LStrip(s);
    assert OccursAt(s, Strip(s), |s| - |l|);
  }

  /** `s.strip(c)` for a single character `c`. */
  function StripChar(s: string, c: char): (r: string)
    ensures |r| <= |s|
    ensures r == [] || (r[0] != c && r[|r| - 1] != c)
    decreases |s|
  {
    if s == [] then s
    else if s[0] == c then StripChar(s[1..], c)
    else if s[|s| - 1] == c then StripChar(s[..|s| - 1], c)
    else s
  }

  /** What `strip(c)` leaves is a slice of the original. */
  lemma {:induction false} StripCharSlice(s: string, c: char) returns (lo: nat, hi: nat)
    ensures lo <= hi <= |s| && StripChar(s, c) == s[lo..hi]
    decreases |s|
  {
    if s == [] || (s[0] != c && s[|s| - 1] != c) {
      lo, hi := 0, |s|;
    } else if s[0] == c {
      var l, h := StripCharSlice(s[1..], c);
      assert s[1..][l..h] == s[l + 1..h + 1];
      lo, hi := l + 1, h + 1;
    } else {
      var l, h := StripCharSlice(s[..|s| - 1], c);
      assert s[..|s| - 1][l..h] == s[l..h];
      lo, hi := l, h;
    }
  }

  /** What `strip(c)` leaves occurs in the original. */
  lemma StripCharContains(s: string, c: char)
    ensures Contains(s, StripChar(s, c))
  {
    var lo, hi := StripCharSlice(s, c);
    assert OccursAt(s, StripChar(s, c), lo);
  }

  predicate StartsWith(s: string, p: string) { |p| <= |s| && s[..|p|] == p }

  predicate EndsWith(s: string, p: string) { |p| <= |s| && s[|s| - |p|..] == p }

  /** `t in s`. */
  predicate Contains(s: string, t: string)
  {
    exists i | 0 <= i <= |s| - |t| :: OccursAt(s, t, i)
  }

  /** A concatenation starts with its first part, ends with its last and holds its middle one. */
  lemma ConcatShape(a: string, b: string, c: string)
    ensures StartsWith(a + b + c, a) && EndsWith(a + b + c, c)
    ensures OccursAt(a + b + c, b, |a|) && Contains(a + b + c, b)
  {
    var s := a + b + c;
    assert s[..|a|] == a;
    assert s[|s| - |c|..] == c;
    assert s[|a|..|a| + |b|] == b;
    assert OccursAt(s, b, |a|) && |a| <= |s| - |b|;
  }

  /** The middle part of a part inserted between two others is found right after the first and its prefix. */
  lemma InfixAt(a: string, pre: string, b: string, post: string, c: string)
    ensures OccursAt(a + (pre + b + post) + c, b, |a| + |pre|)
  {
    var s := a + (pre + b + post) + c;
    assert s == (a + pre) + b + (post + c);
    ConcatShape(a + pre, b, post + c);
  }

  /** Whatever occurs in a part occurs in any concatenation holding it. */
  lemma ContainsInside(a: string, t: string, b: string, x: string)
    requires Contains(t, x)
    ensures Contains(a + t + b, x)
  {
    var k :| 0 <= k <= |t| - |x| && OccursAt(t, x, k);
    var s := a + t + b;
    assert s[|a| + k..|a| + k + |x|] == t[k..k + |x|];
    assert OccursAt(s, x, |a| + k);
  }

  /** `s.find(t)` with -1 as None: the first position where `t` occurs. */
  function Find(s: string, t: string): (r: Option<nat>)
    ensures r.Some? ==> OccursAt(s, t, r.value)
    ensures r.Some? ==> forall j :: 0 <= j < r.value ==> !OccursAt(s, t, j)
    ensures r.None? <==> !Contains(s, t)
  {
    FindFrom(s, t, 0)
  }

  function FindFrom(s: string, t: string, from: nat): (r: Option<nat>)
    requires forall j :: 0 <= j < from ==> !OccursAt(s, t, j)
    ensures r.Some? ==> from <= r.value && OccursAt(s, t, r.value)
    ensures r.Some? ==> forall j :: 0 <= j < r.value ==> !OccursAt(s, t, j)
    ensures r.None? <==> !Contains(s, t)
    decreases |s| + 1 - from
  {
    if from + |t| > |s| then None
    else if OccursAt(s, t, from) then Some(from)
    else FindFrom(s, t, from + 1)
  }

  /** `sep.join(xs)`. */
  function Join(sep: string, xs: seq<string>): string
  {
    if |xs| == 0 then ""
    else if |xs| == 1 then xs[0]
    else xs[0] + sep + Join(sep, xs[1..])
  }

  /** Every part occurs in the joined text. */
  lemma {:induction false} JoinContains(sep: string, xs: seq<string>, i: nat)
    requires i < |xs|
    ensures Contains(Join(sep, xs), xs[i])
    decreases |xs|
  {
    if |xs| == 1 {
      ConcatShape([], xs[0], []);
      assert [] + xs[0] + [] == xs[0];
    } else if i == 0 {
      ConcatShape([], xs[0], sep + Join(sep, xs[1..]));
      assert [] + xs[0] + (sep + Join(sep, xs[1..])) == Join(sep, xs);
    } else {
      JoinContains(sep, xs[1..], i - 1);
      var rest := Join(sep, xs[1..]);
      var k :| 0 <= k <= |rest| - |xs[i]| && OccursAt(rest, xs[i], k);
      var pre := xs[0] + sep;
      assert Join(sep, xs) == pre + rest;
      assert (pre + rest)[|pre| + k..|pre| + k + |xs[i]|] == rest[k..k + |xs[i]|];
      assert OccursAt(Join(sep, xs), xs[i], |pre| + k);
    }
  }

  /** `s.split(sep)` for a non-empty separator. */
  function Split(s: string, sep: string): (r: seq<string>)
    requires sep != []
    ensures |r| >= 1
    ensures Join(sep, r) == s
    decreases |s|
  {
    match Find(s, sep)
    case None => [s]
    case Some(i) =>
      var rest := Split(s[i + |sep|..], sep);
      assert s == s[..i] + sep + s[i + |sep|..];
      [s[..i]] + rest
  }

  /** Splitting a join on a one-character separator none of the parts holds gives the parts back. */
  lemma {:induction false} SplitJoin(xs: seq<string>, c: char)
    requires xs != []
    requires forall i :: 0 <= i < |xs| ==> c !in xs[i]
    ensures Split(Join([c], xs), [c]) == xs
    decreases |xs|
  {
    var head := xs[0];
    if |xs| == 1 {
      forall k | 0 <= k <= |head| - 1 ensures !OccursAt(head, [c], k) {
        assert head[k..k + 1][0] == head[k];
      }
      assert Find(head, [c]).None?;
    } else {
      var s := Join([c], xs);
      var rest := Join([c], xs[1..]);
      assert s == head + [c] + rest;
      assert OccursAt(s, [c], |head|) by {
        assert s[|head|..|head| + 1] == [c];
      }
      forall k | 0 <= k < |head| ensures !OccursAt(s, [c], k) {
        assert s[k..k + 1][0] == head[k];
      }
      assert Find(s, [c]) == Some(|head|);
      assert s[|head| + 1..] == rest;
      assert s[..|head|] == head;
      SplitJoin(xs[1..], c);
      assert [head] + xs[1..] == xs;
    }
  }

  function DigitChar(d: nat): (c: char)
    requires d < 10
    ensures IsDigit(c)
  {
    ('0' as int + d) as char
  }

  function DigitValue(c: char): (d: nat)
    requires IsDigit(c)
    ensures d < 10 && DigitChar(d) == c
  {
    c as int - '0' as int
  }

  /** `str(n)` for a natural number. */
  function NatToString(n: nat): (r: string)
    ensures |r| >= 1
    ensures forall i :: 0 <= i < |r| ==> IsDigit(r[i])
    decreases n
  {
    if n < 10 then [DigitChar(n)] else NatToString(n / 10) + [DigitChar(n % 10)]
  }

  /** `int(ds)` for a string of decimal digits (leading zeros allowed). */
  function DigitsValue(ds: string): nat
    requires forall i :: 0 <= i < |ds| ==> IsDigit(ds[i])
  {
    if ds == [] then 0 else DigitsValue(ds[..|ds| - 1]) * 10 + DigitValue(ds[|ds| - 1])
  }

  /** `str(n)` for any integer. */
  function IntToString(n: int): (r: string)
    ensures n >= 0 ==> r == NatToString(n)
    ensures n < 0 ==> r == "-" + NatToString(-n)
  {
    if n >= 0 then NatToString(n) else "-" + NatToString(-n)
  }

  /** Reading the decimal text of a number gives the number back. */
  lemma {:induction false} DigitsOfNatToString(n: nat)
    ensures DigitsValue(NatToString(n)) == n
    decreases n
  {
    if n >= 10 {
      var r := NatToString(n);
      assert r[..|r| - 1] == NatToString(n / 10);
      DigitsOfNatToString(n / 10);
    }
  }

  /** No string occurs twice. */
  predicate NoDuplicates(xs: seq<string>)
  {
    forall i, j :: 0 <= i < j < |xs| ==> xs[i] != xs[j]
  }

  /** `s[:n]`. */
  function Take(s: string, n: nat): (r: string)
    ensures |r| == if n < |s| then n else |s|
    ensures r == s[..|r|]
  {
    if n < |s| then s[..n] else s
  }
}
