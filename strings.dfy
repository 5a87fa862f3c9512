/**
 * The string operations the front-ends use: `trim`, `toLowerCase`,
 * `includes`, `startsWith`, `endsWith`, `split` on one character, `join`,
 * the `replace(/\s+/g, '_')` normalisation, decimal rendering of integers
 * and `Math.round`.
 */
module Strings {
  import opened Seqs

  /** The characters JavaScript's `\s` class and `String.prototype.trim` treat as white space. */
  predicate IsSpace(c: char) {
    c == ' ' || c == '\t' || c == '\n' || c == '\r' || c == '\U{000B}' || c == '\U{000C}'
    || c == '\U{00A0}' || c == '\U{1680}' || ('\U{2000}' <= c <= '\U{200A}')
    || c == '\U{2028}' || c == '\U{2029}' || c == '\U{202F}' || c == '\U{205F}'
    || c == '\U{3000}' || c == '\U{FEFF}'
  }

  predicate AllSpace(s: string) {
    forall k :: 0 <= k < |s| ==> IsSpace(s[k])
  }

  /** `s.trimStart()` */
  function TrimStart(s: string): (r: string)
    ensures |r| <= |s|
  {
    if s != [] && IsSpace(s[0]) then TrimStart(s[1..]) else s
  }

  /** `trimStart` removes exactly the leading white space. */
  lemma {:induction false} TrimStartSpec(s: string)
    ensures var r := TrimStart(s);
      (r == [] || !IsSpace(r[0])) && r == s[|s| - |r|..] && AllSpace(s[..|s| - |r|])
  {
    if s != [] && IsSpace(s[0]) {
      TrimStartSpec(s[1..]);
    }
  }

  /** `s.trimEnd()` */
  function TrimEnd(s: string): (r: string)
    ensures |r| <= |s|
  {
    if s != [] && IsSpace(s[|s| - 1]) then TrimEnd(s[..|s| - 1]) else s
  }

  /** `trimEnd` removes exactly the trailing white space. */
  lemma {:induction false} TrimEndSpec(s: string)
    ensures var r := TrimEnd(s);
      (r == [] || !IsSpace(r[|r| - 1])) && r == s[..|r|] && AllSpace(s[|r|..])
  {
    if s != [] && IsSpace(s[|s| - 1]) {
      TrimEndSpec(s[..|s| - 1]);
    }
  }

  /** `s.trim()` */
  function Trim(s: string): string
  {
    TrimEnd(TrimStart(s))
  }

  /**
   * What `trim` promises: the result is a piece of the input, it has no white
   * space at either end, and it is empty exactly when the input is all white space.
   */
  lemma TrimSpec(s: string)
    ensures var r := Trim(s);
      (exists i :: OccursAt(s, r, i))
      && (r == [] || (!IsSpace(r[0]) && !IsSpace(r[|r| - 1])))
      && (r == [] <==> AllSpace(s))
  {
    var t := TrimStart(s);
    var r := TrimEnd(t);
    TrimStartSpec(s);
    TrimEndSpec(t);
    var i := |s| - |t|;
    assert r == Trim(s);
    assert r == s[i..i + |r|];
    assert OccursAt(s, r, i);
    if r != [] {
      assert r[0] == t[0];
    }
  }

  /** Trimming twice is trimming once. */
  lemma TrimIdempotent(s: string)
    ensures Trim(Trim(s)) == Trim(s)
  {
    TrimSpec(s);
    TrimNoSpaceAtEnds(Trim(s));
  }

  /** A string with no white space at either end is its own trim. */
  lemma TrimNoSpaceAtEnds(s: string)
    requires s == [] || (!IsSpace(s[0]) && !IsSpace(s[|s| - 1]))
    ensures Trim(s) == s
  {
  }

  predicate IsUpper(c: char) { 'A' <= c <= 'Z' }
  predicate IsLower(c: char) { 'a' <= c <= 'z' }

  function LowerChar(c: char): char {
    if IsUpper(c) then (c as int + 32) as char else c
  }

  function UpperChar(c: char): char {
    if IsLower(c) then (c as int - 32) as char else c
  }

  /** `s.toLowerCase()` on the ASCII letters. */
  function ToLower(s: string): (r: string)
    ensures |r| == |s|
    ensures forall k :: 0 <= k < |s| ==> r[k] == LowerChar(s[k])
  {
    Map(s, LowerChar)
  }

  /** `s.toUpperCase()` on the ASCII letters. */
  function ToUpper(s: string): (r: string)
    ensures |r| == |s|
    ensures forall k :: 0 <= k < |s| ==> r[k] == UpperChar(s[k])
  {
    Map(s, UpperChar)
  }

  /** Lower-casing leaves no upper-case letter and is idempotent. */
  lemma ToLowerSpec(s: string)
    ensures forall k :: 0 <= k < |s| ==> !IsUpper(ToLower(s)[k])
    ensures ToLower(ToLower(s)) == ToLower(s)
    ensures ToLower(s) == "" <==> s == ""
  {
  }

  /** `s.startsWith(p)` */
  predicate StartsWith(s: string, p: string) {
    |p| <= |s| && s[..|p|] == p
  }

  /** `s.endsWith(p)` */
  predicate EndsWith(s: string, p: string) {
    |p| <= |s| && s[|s| - |p|..] == p
  }

  /** `sub` occurs in `s` starting at position `i`. */
  predicate OccursAt(s: string, sub: string, i: int) {
    0 <= i <= |s| - |sub| && s[i..i + |sub|] == sub
  }

  /** `s.includes(sub)` */
  function Contains(s: string, sub: string): bool {
    StartsWith(s, sub) || (s != [] && Contains(s[1..], sub))
  }

  /** `includes` holds exactly when `sub` occurs somewhere in `s` (the empty string occurs everywhere). */
  lemma {:induction false} ContainsSpec(s: string, sub: string)
    ensures Contains(s, sub) <==> exists i :: OccursAt(s, sub, i)
  {
    if StartsWith(s, sub) {
      assert OccursAt(s, sub, 0);
    } else if s != [] {
      ContainsSpec(s[1..], sub);
      if Contains(s[1..], sub) {
        var i :| OccursAt(s[1..], sub, i);
        assert s[i + 1..i + 1 + |sub|] == s[1..][i..i + |sub|];
        assert OccursAt(s, sub, i + 1);
      } else if exists i :: OccursAt(s, sub, i) {
        var i :| OccursAt(s, sub, i);
        assert i != 0;
        assert s[1..][i - 1..i - 1 + |sub|] == s[i..i + |sub|];
        assert OccursAt(s[1..], sub, i - 1);
        assert false;
      }
    }
  }

  /** `s.split(d)` with a one-character separator: always at least one piece, pieces never hold `d`. */
  function Split(s: string, d: char): (r: seq<string>)
    ensures |r| >= 1
    ensures forall k :: 0 <= k < |r| ==> d !in r[k]
  {
    if s == [] then [""]
    else
      var rest := Split(s[1..], d);
      if s[0] == d then [""] + rest else [[s[0]] + rest[0]] + rest[1..]
  }

  /** `parts.join(sep)` */
  function Join(parts: seq<string>, sep: string): string {
    if |parts| == 0 then ""
    else if |parts| == 1 then parts[0]
    else parts[0] + sep + Join(parts[1..], sep)
  }

  /** Joining the pieces of a split with the separator gives back the string. */
  lemma {:induction false} JoinSplit(s: string, d: char)
    ensures Join(Split(s, d), [d]) == s
  {
    if s != [] {
      var rest := Split(s[1..], d);
      JoinSplit(s[1..], d);
      if s[0] == d {
        assert Split(s, d) == [""] + rest;
        assert Split(s, d)[1..] == rest;
      } else {
        var r := Split(s, d);
        assert r == [[s[0]] + rest[0]] + rest[1..];
        if |rest| == 1 {
          assert rest == [rest[0]];
        } else {
          assert r[1..] == rest[1..];
        }
      }
    }
  }

  lemma {:induction false} SplitNoSep(p: string, d: char)
    requires d !in p
    ensures Split(p, d) == [p]
  {
    if p != [] {
      assert d !in p[1..] by {
        assert forall x :: x in p[1..] ==> x in p;
      }
      SplitNoSep(p[1..], d);
      assert p[0] != d;
      assert p == [p[0]] + p[1..];
    }
  }

  lemma {:induction false} SplitAfterPiece(p: string, d: char, rest: string)
    requires d !in p
    ensures Split(p + [d] + rest, d) == [p] + Split(rest, d)
  {
    if p == [] {
      assert p + [d] + rest == [d] + rest;
    } else {
      assert (p + [d] + rest)[1..] == p[1..] + [d] + rest;
      assert d !in p[1..] by {
        assert forall x :: x in p[1..] ==> x in p;
      }
      SplitAfterPiece(p[1..], d, rest);
      var x := p + [d] + rest;
      var tail := Split(x[1..], d);
      assert tail == [p[1..]] + Split(rest, d);
      assert x[0] == p[0] && p[0] != d;
      assert Split(x, d) == [[p[0]] + tail[0]] + tail[1..];
      assert tail[1..] == Split(rest, d);
      assert p == [p[0]] + p[1..];
    }
  }

  /** Splitting a join gives back the pieces, provided none of them holds the separator. */
  lemma {:induction false} SplitJoin(parts: seq<string>, d: char)
    requires |parts| >= 1
    requires forall k :: 0 <= k < |parts| ==> d !in parts[k]
    ensures Split(Join(parts, [d]), d) == parts
  {
    if |parts| == 1 {
      SplitNoSep(parts[0], d);
    } else {
      SplitJoin(parts[1..], d);
      SplitAfterPiece(parts[0], d, Join(parts[1..], [d]));
      assert parts == [parts[0]] + parts[1..];
    }
  }

  /** `s.replace(/\s+/g, c)`: each maximal run of white space becomes the single character `c`. */
  function CollapseSpaces(s: string, c: char): (r: string)
    ensures |r| <= |s|
    decreases |s|
  {
    if s == [] then []
    else if IsSpace(s[0]) then [c] + CollapseSpaces(TrimStart(s[1..]), c)
    else [s[0]] + CollapseSpaces(s[1..], c)
  }

  /**
   * Every character of the result is `c` or a non-space character of the
   * input; so with a non-space `c` the result holds no white space.
   */
  lemma {:induction false} CollapseSpacesSpec(s: string, c: char)
    ensures forall k :: 0 <= k < |CollapseSpaces(s, c)| ==>
      CollapseSpaces(s, c)[k] == c || (CollapseSpaces(s, c)[k] in s && !IsSpace(CollapseSpaces(s, c)[k]))
    decreases |s|
  {
    if s != [] {
      if IsSpace(s[0]) {
        var t := TrimStart(s[1..]);
        TrimStartSpec(s[1..]);
        CollapseSpacesSpec(t, c);
        assert forall x :: x in t ==> x in s;
      } else {
        CollapseSpacesSpec(s[1..], c);
        assert forall x :: x in s[1..] ==> x in s;
      }
    }
  }

  /** A string without white space is left as it is. */
  lemma {:induction false} CollapseSpacesNoSpace(s: string, c: char)
    requires forall k :: 0 <= k < |s| ==> !IsSpace(s[k])
    ensures CollapseSpaces(s, c) == s
  {
    if s != [] {
      CollapseSpacesNoSpace(s[1..], c);
    }
  }

  function DigitChar(n: nat): char
    requires n < 10
  {
    "0123456789"[n]
  }

  /** Decimal rendering of a natural number, as `String(n)` gives it. */
  function NatToString(n: nat): (r: string)
    ensures |r| >= 1
    ensures forall k :: 0 <= k < |r| ==> '0' <= r[k] <= '9'
    decreases n
  {
    if n < 10 then [DigitChar(n)] else NatToString(n / 10) + [DigitChar(n % 10)]
  }

  /** Decimal rendering of an integer, with a leading `-` when negative. */
  function IntToString(i: int): (r: string)
    ensures |r| >= 1
  {
    if i < 0 then "-" + NatToString(-i) else NatToString(i)
  }

  /** The value of a string of decimal digits. */
  function ParseDigits(s: string): nat
    requires forall k :: 0 <= k < |s| ==> '0' <= s[k] <= '9'
  {
    if s == [] then 0
    else ParseDigits(s[..|s| - 1]) * 10 + (s[|s| - 1] as int - '0' as int)
  }

  /** Reading back a rendered number gives the number: the rendering is one-to-one. */
  lemma {:induction false} ParseNatToString(n: nat)
    ensures ParseDigits(NatToString(n)) == n
    decreases n
  {
    if n >= 10 {
      ParseNatToString(n / 10);
      var s := NatToString(n);
      assert s[..|s| - 1] == NatToString(n / 10);
      DigitValue(n % 10);
      assert ParseDigits(s) == ParseDigits(NatToString(n / 10)) * 10 + n % 10;
    } else {
      DigitValue(n);
    }
  }

  lemma DigitValue(n: nat)
    requires n < 10
    ensures DigitChar(n) as int - '0' as int == n
  {
  }

  /** Different numbers render differently. */
  lemma NatToStringInjective(m: nat, n: nat)
    requires NatToString(m) == NatToString(n)
    ensures m == n
  {
    ParseNatToString(m);
    ParseNatToString(n);
  }

  /** Different integers have different decimal forms. */
  lemma IntToStringInjective(s: int, t: int)
    requires IntToString(s) == IntToString(t)
    ensures s == t
  {
    IntToStringSign(s);
    IntToStringSign(t);
    if s < 0 {
      NegativeRendering(s);
      NegativeRendering(t);
      NatToStringInjective(-s, -t);
    } else {
      NatToStringInjective(s, t);
    }
  }

  lemma NegativeRendering(i: int)
    requires i < 0
    ensures IntToString(i)[1..] == NatToString(-i)
  {
    assert ("-" + NatToString(-i))[1..] == NatToString(-i);
  }

  lemma IntToStringSign(i: int)
    ensures IntToString(i)[0] == '-' <==> i < 0
  {
    if i >= 0 {
      assert '0' <= NatToString(i)[0] <= '9';
    }
  }

  /** `Math.round(x)`: the nearest integer, halves rounded up. */
  function Round(x: real): (r: int)
    ensures x - 1.0 / 2.0 < r as real <= x + 1.0 / 2.0
  {
    (x + 1.0 / 2.0).Floor
  }

  /** A ratio of a non-negative amount to a larger positive one is at most 1. */
  lemma DivAtMostOne(a: real, p: real)
    requires 0.0 < p && a <= p
    ensures a / p <= 1.0
  {
    var q := a / p;
    assert q * p == a;
    if q > 1.0 {
      assert false;
    }
  }
}
