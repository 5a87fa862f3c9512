/**
 * The legacy front-end's string, array, object, validator and cookie helpers.
 * Objects whose keys are looked up are maps here; the key order of a
 * JavaScript object and the keys it inherits are not modelled.
 */
module JsUtils {
  import opened Wrappers
  import opened Seqs
  import opened Strings

  // ---------------------------------------------------------------------------
  // text.*
  // ---------------------------------------------------------------------------

  const Ellipsis: string := "..."
  const DefaultTruncateLength: int := 50

  /**
   * `truncate(str, length)`: the string itself when it fits, otherwise its
   * first `length` characters (none for a negative length) and `...`.
   */
  function Truncate(s: string, length: int): (r: string)
    ensures |s| <= length ==> r == s
    ensures |s| > length ==>
      (|r| == Max0(length) + 3 && r[..Max0(length)] == s[..Max0(length)] && EndsWith(r, Ellipsis))
  {
    if |s| <= length then s else s[..Max0(length)] + Ellipsis
  }

  function Max0(n: int): nat { if n > 0 then n else 0 }

  /** A truncated string is already short enough or truncates to itself again. */
  lemma TruncateIdempotent(s: string, length: int)
    ensures Truncate(Truncate(s, length), length) == Truncate(s, length)
  {
    var t := Truncate(s, length);
    if |s| > length && |t| > length {
      assert t[..Max0(length)] == s[..Max0(length)];
    }
  }

  /** `capitalize`: the first character upper-cased, the rest untouched. */
  function Capitalize(s: string): (r: string)
    ensures |r| == |s|
    ensures s != [] ==> r[0] == UpperChar(s[0]) && r[1..] == s[1..]
  {
    if s == [] then [] else [UpperChar(s[0])] + s[1..]
  }

  /** Capitalizing twice is capitalizing once. */
  lemma CapitalizeIdempotent(s: string)
    ensures Capitalize(Capitalize(s)) == Capitalize(s)
  {
    if s != [] {
      var c := s[0];
      if IsLower(c) {
        assert !IsLower(UpperChar(c));
      }
    }
  }

  /** A `-` in front of every upper-case letter (`replace(/([A-Z])/g, '-$1')`). */
  function InsertDashes(s: string): (r: string)
    ensures |r| >= |s|
  {
    if s == [] then [] else (if IsUpper(s[0]) then ['-', s[0]] else [s[0]]) + InsertDashes(s[1..])
  }

  /** `camelToKebab` */
  function CamelToKebab(s: string): (r: string)
    ensures forall k :: 0 <= k < |r| ==> !IsUpper(r[k])
  {
    ToLower(InsertDashes(s))
  }

  /**
   * `kebabToCamel`: scanning left to right, each `-` followed by a lower-case
   * letter becomes that letter in upper case.
   */
  function KebabToCamel(s: string): (r: string)
    ensures |r| <= |s|
  {
    if |s| >= 2 && s[0] == '-' && IsLower(s[1]) then [UpperChar(s[1])] + KebabToCamel(s[2..])
    else if s == [] then []
    else [s[0]] + KebabToCamel(s[1..])
  }

  /** On a name without dashes, `kebabToCamel` undoes `camelToKebab`. */
  lemma {:induction false} KebabCamelRoundTrip(s: string)
    requires '-' !in s
    ensures KebabToCamel(CamelToKebab(s)) == s
  {
    if s != [] {
      var c, rest := s[0], s[1..];
      assert '-' !in rest by {
        forall k | 0 <= k < |rest| ensures rest[k] != '-' { assert rest[k] == s[k + 1]; }
      }
      KebabCamelRoundTrip(rest);
      var head := if IsUpper(c) then ['-', c] else [c];
      assert InsertDashes(s) == head + InsertDashes(rest);
      MapAppend(head, InsertDashes(rest), LowerChar);
      var tail := ToLower(InsertDashes(rest));
      assert CamelToKebab(s) == ToLower(head) + tail;
      if IsUpper(c) {
        var lc := LowerChar(c);
        assert ToLower(head) == ['-', lc];
        assert IsLower(lc) && UpperChar(lc) == c;
        var t := ['-', lc] + tail;
        assert t[2..] == tail;
      } else {
        assert ToLower(head) == [c];
        var t := [c] + tail;
        assert t[1..] == tail;
      }
    }
  }

  // ---------------------------------------------------------------------------
  // array.*
  // ---------------------------------------------------------------------------

  /** The pieces laid end to end. */
  function Concat<T>(chunks: seq<seq<T>>): seq<T> {
    if chunks == [] then [] else Concat(chunks[..|chunks| - 1]) + chunks[|chunks| - 1]
  }

  /**
   * `chunk(arr, size)`: consecutive slices of `size` elements, the last one
   * possibly shorter; the loop index steps by `size` and the slice end is
   * clipped to the array. A size below 1 would loop forever, so it is required.
   */
  method Chunk<T>(arr: seq<T>, size: int) returns (chunks: seq<seq<T>>)
    requires size > 0
    ensures Concat(chunks) == arr
    ensures forall k :: 0 <= k < |chunks| - 1 ==> |chunks[k]| == size
    ensures forall k :: 0 <= k < |chunks| ==> 0 < |chunks[k]| <= size
    ensures |arr| <= |chunks| * size < |arr| + size
  {
    chunks := [];
    var i := 0;
    while i < |arr|
      invariant i == |chunks| * size
      invariant i < |arr| + size
      invariant Concat(chunks) == arr[..Min(i, |arr|)]
      invariant forall k :: 0 <= k < |chunks| - 1 ==> |chunks[k]| == size
      invariant forall k :: 0 <= k < |chunks| ==> 0 < |chunks[k]| <= size
      invariant i <= |arr| ==> forall k :: 0 <= k < |chunks| ==> |chunks[k]| == size
      decreases |arr| - i
    {
      var j := Min(i + size, |arr|);
      var piece := arr[i..j];
      assert arr[..j] == arr[..i] + piece;
      assert (chunks + [piece])[..|chunks|] == chunks;
      NextMultiple(|chunks|, size);
      chunks := chunks + [piece];
      i := i + size;
    }
    assert arr[..|arr|] == arr;
  }

  lemma NextMultiple(n: nat, size: int)
    ensures (n + 1) * size == n * size + size
  {
  }

  /** The groups after the elements of `arr`, one after the other, have been filed. */
  function Groups<T, K(==)>(arr: seq<T>, key: T -> K): map<K, seq<T>> {
    if arr == [] then map[]
    else
      var m := Groups(arr[..|arr| - 1], key);
      var item := arr[|arr| - 1];
      var g := key(item);
      m[g := (if g in m then m[g] else []) + [item]]
  }

  /**
   * Every value of `key` that occurs names a group, and the group holds the
   * elements with that key value, in array order.
   */
  lemma {:induction false} GroupsSpec<T, K(!new)>(arr: seq<T>, key: T -> K)
    ensures forall g :: g in Groups(arr, key) <==> exists k :: 0 <= k < |arr| && key(arr[k]) == g
    ensures forall g :: g in Groups(arr, key) ==> Groups(arr, key)[g] == Filter(arr, KeyEquals(key, g))
  {
    if arr != [] {
      var prefix, item := arr[..|arr| - 1], arr[|arr| - 1];
      GroupsSpec(prefix, key);
      var m0, m := Groups(prefix, key), Groups(arr, key);
      forall g ensures g in m <==> exists k :: 0 <= k < |arr| && key(arr[k]) == g {
        if g in m0 {
          var k :| 0 <= k < |prefix| && key(prefix[k]) == g;
          assert arr[k] == prefix[k];
        }
        if exists k :: 0 <= k < |arr| && key(arr[k]) == g {
          var k :| 0 <= k < |arr| && key(arr[k]) == g;
          if k < |prefix| {
            assert key(prefix[k]) == g;
          }
        }
      }
      forall g | g in m ensures m[g] == Filter(arr, KeyEquals(key, g)) {
        if g != key(item) {
          assert g in m0;
        } else if g !in m0 {
          FilterNone(prefix, KeyEquals(key, g));
        }
      }
    }
  }

  /** `groupBy(arr, key)`: the accumulator object is filled element by element. */
  method GroupBy<T, K(==)>(arr: seq<T>, key: T -> K) returns (groups: map<K, seq<T>>)
    ensures groups == Groups(arr, key)
  {
    groups := map[];
    for i := 0 to |arr|
      invariant groups == Groups(arr[..i], key)
    {
      var item := arr[i];
      var g := key(item);
      assert arr[..i + 1][..i] == arr[..i];
      var members := if g in groups then groups[g] else [];
      groups := groups[g := members + [item]];
    }
    assert arr[..|arr|] == arr;
  }

  /** The predicate "the key of the element is `g`". */
  function KeyEquals<T, K(==)>(key: T -> K, g: K): T -> bool {
    (x: T) => key(x) == g
  }

  /** Every element lands in exactly its own group, so the groups together are as long as the array. */
  lemma {:induction false} GroupsPartition<T, K>(arr: seq<T>, key: T -> K, g: K, h: K)
    requires g != h
    ensures forall x :: x in Filter(arr, KeyEquals(key, g)) ==> x !in Filter(arr, KeyEquals(key, h))
  {
    FilterSpec(arr, KeyEquals(key, g));
    FilterSpec(arr, KeyEquals(key, h));
  }

  // ---------------------------------------------------------------------------
  // object.*
  // ---------------------------------------------------------------------------

  /** `merge(target, source)`: the properties of both, `source` winning on a shared key. */
  function Merge<V>(target: map<string, V>, source: map<string, V>): (r: map<string, V>)
    ensures r.Keys == target.Keys + source.Keys
    ensures forall k :: k in source ==> r[k] == source[k]
    ensures forall k :: k in target && k !in source ==> r[k] == target[k]
  {
    target + source
  }

  /** `pick(obj, keys)`: the listed keys that the object has, with their values. */
  method Pick<V>(obj: map<string, V>, keys: seq<string>) returns (result: map<string, V>)
    ensures result.Keys == obj.Keys * (set k | k in keys)
    ensures forall k :: k in result ==> result[k] == obj[k]
  {
    result := map[];
    for i := 0 to |keys|
      invariant result.Keys == obj.Keys * (set k | k in keys[..i])
      invariant forall k :: k in result ==> result[k] == obj[k]
    {
      assert keys[..i + 1] == keys[..i] + [keys[i]];
      if keys[i] in obj {
        result := result[keys[i] := obj[keys[i]]];
      }
    }
    assert keys[..|keys|] == keys;
  }

  /** `omit(obj, keys)`: a copy without the listed keys. */
  method Omit<V>(obj: map<string, V>, keys: seq<string>) returns (result: map<string, V>)
    ensures result == obj - (set k | k in keys)
  {
    result := obj;
    for i := 0 to |keys|
      invariant result == obj - (set k | k in keys[..i])
    {
      assert keys[..i + 1] == keys[..i] + [keys[i]];
      result := result - {keys[i]};
    }
    assert keys[..|keys|] == keys;
  }

  /** What is picked and what is left after omitting the same keys merge back into the object. */
  lemma PickOmitPartition<V>(obj: map<string, V>, keys: seq<string>, picked: map<string, V>, rest: map<string, V>)
    requires picked.Keys == obj.Keys * (set k | k in keys) && forall k :: k in picked ==> picked[k] == obj[k]
    requires rest == obj - (set k | k in keys)
    ensures Merge(picked, rest) == obj
    ensures picked.Keys !! rest.Keys
  {
    var m := Merge(picked, rest);
    assert m.Keys == obj.Keys;
    forall k | k in obj ensures m[k] == obj[k] {
      if k in rest {
        assert m[k] == rest[k];
      }
    }
  }

  // ---------------------------------------------------------------------------
  // validators.*
  // ---------------------------------------------------------------------------

  /** The kinds of value a validator may be handed. */
  datatype JsValue = Null | Undefined | Str(s: string) | Num(n: real) | Bool(b: bool)

  /** `required` */
  predicate Required(v: JsValue) {
    v != Null && v != Undefined && v != Str("")
  }

  /** `minLength` on a string: a non-empty string of at least `min` characters. */
  predicate MinLength(s: string, min: int) {
    s != "" && |s| >= min
  }

  /** `maxLength` on a string: a non-empty string of at most `max` characters. */
  predicate MaxLength(s: string, max: int) {
    s != "" && |s| <= max
  }

  /** `range` on numbers. */
  predicate InRange(v: real, min: real, max: real) {
    min <= v && v <= max
  }

  /**
   * Both length checks together admit exactly the non-empty strings whose
   * length lies between the bounds, which also makes every such string
   * `required`; and an empty string fails both, whatever the bounds.
   */
  lemma LengthValidators(s: string, min: int, max: int)
    ensures MinLength(s, min) && MaxLength(s, max) <==> s != "" && min <= |s| <= max
    ensures MinLength(s, min) ==> Required(Str(s))
    ensures s == "" ==> !MinLength(s, min) && !MaxLength(s, max)
  {
  }

  // ---------------------------------------------------------------------------
  // cookies.get
  // ---------------------------------------------------------------------------

  /** The string without its leading blanks (only ` ` counts as one). */
  function StripBlanks(s: string): (r: string)
    ensures |r| <= |s| && (r != [] ==> r[0] != ' ')
    ensures r == s[|s| - |r|..]
  {
    if s != [] && s[0] == ' ' then StripBlanks(s[1..]) else s
  }

  /** The value after `prefix` in the first piece that, without its blanks, starts with it. */
  function CookieLookup(pieces: seq<string>, prefix: string): Option<string> {
    if pieces == [] then None
    else
      var c := StripBlanks(pieces[0]);
      if StartsWith(c, prefix) then Some(c[|prefix|..]) else CookieLookup(pieces[1..], prefix)
  }

  /** The inner loop of `cookies.get`: drop one leading blank at a time. */
  method SkipBlanks(s: string) returns (c: string)
    ensures c == StripBlanks(s)
  {
    c := s;
    while |c| > 0 && c[0] == ' '
      invariant StripBlanks(c) == StripBlanks(s)
    {
      c := c[1..];
    }
  }

  /** `cookies.get(name)` over the given cookie string. */
  method CookieGet(cookie: string, name: string) returns (r: Option<string>)
    ensures r == CookieLookup(Split(cookie, ';'), name + "=")
  {
    r := ScanPieces(Split(cookie, ';'), name + "=");
  }

  /** The loop of `cookies.get` over the `;`-separated pieces. */
  method ScanPieces(ca: seq<string>, nameEq: string) returns (r: Option<string>)
    ensures r == CookieLookup(ca, nameEq)
  {
    for i := 0 to |ca|
      invariant CookieLookup(ca, nameEq) == CookieLookup(ca[i..], nameEq)
    {
      var c := SkipBlanks(ca[i]);
      assert ca[i..][1..] == ca[i + 1..];
      if StartsWith(c, nameEq) {
        return Some(c[|nameEq|..]);
      }
    }
    assert ca[|ca|..] == [];
    return None;
  }

  /** A name or value as the cookie string holds it: no `;`, no `=`, not starting with a blank. */
  predicate CookieName(n: string) {
    n != "" && n[0] != ' ' && ';' !in n && '=' !in n
  }

  function CookiePair(p: (string, string)): string {
    p.0 + "=" + p.1
  }

  /** The cookie string as browsers present it: `name=value` pairs joined by `; `. */
  function CookieString(pairs: seq<(string, string)>): string {
    Join(Map(pairs, CookiePair), "; ")
  }

  /** The value of the first pair named `name`. */
  function FirstValue(pairs: seq<(string, string)>, name: string): Option<string> {
    if pairs == [] then None
    else if pairs[0].0 == name then Some(pairs[0].1)
    else FirstValue(pairs[1..], name)
  }

  /**
   * Reading a cookie back from a well-formed cookie string gives the value
   * of the first pair with that name, and nothing when no pair has it.
   */
  lemma CookieRoundTrip(pairs: seq<(string, string)>, name: string)
    requires forall i :: 0 <= i < |pairs| ==> CookieName(pairs[i].0) && ';' !in pairs[i].1
    requires CookieName(name)
    ensures CookieLookup(Split(CookieString(pairs), ';'), name + "=") == FirstValue(pairs, name)
  {
    if pairs == [] {
      assert Split(CookieString(pairs), ';') == [""];
    } else {
      CookieRoundTripPairs(pairs, name);
    }
  }

  /** The round trip for a cookie string holding at least one pair. */
  lemma CookieRoundTripPairs(pairs: seq<(string, string)>, name: string)
    requires pairs != []
    requires forall i :: 0 <= i < |pairs| ==> CookieName(pairs[i].0) && ';' !in pairs[i].1
    requires CookieName(name)
    ensures CookieLookup(Split(CookieString(pairs), ';'), name + "=") == FirstValue(pairs, name)
  {
    var plain := Map(pairs, CookiePair);
    var spaced := [plain[0]] + Map(plain[1..], Blank);
    JoinBlankSep(plain);
    forall k | 0 <= k < |spaced| ensures ';' !in spaced[k] {
      var p := pairs[k];
      assert CookiePair(p) == p.0 + "=" + p.1;
      assert plain[k] == CookiePair(p);
      if k > 0 {
        assert spaced[k] == " " + plain[k];
      }
    }
    SplitJoin(spaced, ';');
    forall k | 0 <= k < |plain| ensures StripBlanks(spaced[k]) == StripBlanks(plain[k]) {
      if k > 0 {
        assert spaced[k] == " " + plain[k];
        assert (" " + plain[k])[1..] == plain[k];
      }
    }
    LookupSameStripped(spaced, plain, name + "=");
    LookupPairs(pairs, name);
  }

  function Blank(p: string): string { " " + p }

  /** Joining with `; ` is joining with `;` after a blank goes in front of every piece but the first. */
  lemma {:induction false} JoinBlankSep(parts: seq<string>)
    requires parts != []
    ensures Join(parts, "; ") == Join([parts[0]] + Map(parts[1..], Blank), ";")
  {
    if |parts| > 1 {
      var rest := parts[1..];
      JoinBlankSep(rest);
      var r := Map(rest[1..], Blank);
      assert Map(rest, Blank) == [Blank(rest[0])] + r;
      JoinFirstPrefix(" ", rest[0], r, ";");
      assert [parts[0]] + Map(rest, Blank) == [parts[0]] + ([Blank(rest[0])] + r);
      assert ([parts[0]] + Map(rest, Blank))[1..] == Map(rest, Blank);
    }
  }

  lemma JoinFirstPrefix(a: string, x: string, rest: seq<string>, sep: string)
    ensures Join([a + x] + rest, sep) == a + Join([x] + rest, sep)
  {
    var l, r := [a + x] + rest, [x] + rest;
    assert l[1..] == rest && r[1..] == rest;
  }

  /** Pieces that agree once their blanks are stripped give the same lookup. */
  lemma {:induction false} LookupSameStripped(ps: seq<string>, qs: seq<string>, prefix: string)
    requires |ps| == |qs| && forall k :: 0 <= k < |ps| ==> StripBlanks(ps[k]) == StripBlanks(qs[k])
    ensures CookieLookup(ps, prefix) == CookieLookup(qs, prefix)
  {
    if ps != [] {
      LookupSameStripped(ps[1..], qs[1..], prefix);
    }
  }

  /** `name=` starts the piece of a pair exactly when the pair has that name. */
  lemma PieceStartsWith(n: string, v: string, name: string)
    requires CookieName(n) && CookieName(name)
    ensures StartsWith(n + "=" + v, name + "=") <==> n == name
    ensures n == name ==> (n + "=" + v)[|name + "="|..] == v
  {
    var p, q := n + "=" + v, name + "=";
    if |n| < |name| {
      assert p[|n|] == '=' && q[|n|] == name[|n|];
      assert name[|n|] in name;
      assert p[|n|] != q[|n|];
    } else if |n| > |name| {
      assert q[|name|] == '=' && p[|name|] == n[|name|];
      assert n[|name|] in n;
      assert p[|name|] != q[|name|];
    } else if StartsWith(p, q) {
      assert n == p[..|n|] == q[..|name|] == name;
    }
  }

  lemma {:induction false} LookupPairs(pairs: seq<(string, string)>, name: string)
    requires forall i :: 0 <= i < |pairs| ==> CookieName(pairs[i].0) && ';' !in pairs[i].1
    requires CookieName(name)
    ensures CookieLookup(Map(pairs, CookiePair), name + "=") == FirstValue(pairs, name)
  {
    if pairs != [] {
      var p := pairs[0];
      var plain := Map(pairs, CookiePair);
      assert plain[0] == p.0 + "=" + p.1;
      assert plain[0][0] == p.0[0];
      assert StripBlanks(plain[0]) == plain[0];
      PieceStartsWith(p.0, p.1, name);
      assert plain[1..] == Map(pairs[1..], CookiePair);
      LookupPairs(pairs[1..], name);
    }
  }
}
