/**
 * String operations the core relies on, with the semantics of Go's `strings`
 * package and Swift's `components(separatedBy:)` for single separators.
 * Strings are sequences of Unicode scalar values; where Go counts bytes,
 * `Utf8Len` gives the UTF-8 length.
 */
module Text {
  import opened Wrappers

  // ---------------------------------------------------------------------
  // Prefixes and occurrences

  predicate StartsWith(s: string, p: string) {
    |p| <= |s| && s[..|p|] == p
  }

  predicate EndsWith(s: string, p: string) {
    |p| <= |s| && s[|s| - |p|..] == p
  }

  /** `t` occurs in `s` starting at index `i`. */
  predicate OccursAt(s: string, t: string, i: nat) {
    i + |t| <= |s| && s[i..i + |t|] == t
  }

  /** First occurrence of `t` in `s` at or after `i` (Go's `strings.Index` on `s[i:]`). */
  function IndexFrom(s: string, t: string, i: nat): (r: Option<nat>)
    requires i <= |s|
    ensures r.Some? ==> i <= r.value && OccursAt(s, t, r.value)
    ensures r.Some? ==> forall j :: i <= j < r.value ==> !OccursAt(s, t, j)
    ensures r.None? ==> forall j :: i <= j ==> !OccursAt(s, t, j)
    decreases |s| - i
  {
    if i + |t| > |s| then None
    else if s[i..i + |t|] == t then Some(i)
    else if i == |s| then None
    else IndexFrom(s, t, i + 1)
  }

  /** First occurrence of `t` in `s` (Go's `strings.Index`). */
  function IndexOf(s: string, t: string): (r: Option<nat>)
    ensures r.Some? ==> OccursAt(s, t, r.value)
    ensures r.Some? ==> forall j :: 0 <= j < r.value ==> !OccursAt(s, t, j)
    ensures r.None? ==> forall j :: !OccursAt(s, t, j)
  {
    IndexFrom(s, t, 0)
  }

  /** Go's `strings.Contains`, Swift's `String.contains`. */
  predicate Contains(s: string, t: string) {
    IndexOf(s, t).Some?
  }

  lemma ContainsAt(s: string, t: string, i: nat)
    requires OccursAt(s, t, i)
    ensures Contains(s, t)
  {
  }

  /** First index of character `c` in `s`. */
  function IndexOfChar(s: string, c: char): (r: Option<nat>)
    ensures r.Some? ==> r.value < |s| && s[r.value] == c && c !in s[..r.value]
    ensures r.None? ==> c !in s
  {
    if s == [] then None
    else if s[0] == c then Some(0)
    else match IndexOfChar(s[1..], c)
      case None => None
      case Some(i) =>
        assert s[..i + 1] == [s[0]] + s[1..][..i];
        Some(i + 1)
  }

  /** Last index of character `c` in `s` (Swift's `lastIndex(of:)`). */
  function LastIndexOfChar(s: string, c: char): (r: Option<nat>)
    ensures r.Some? ==> r.value < |s| && s[r.value] == c && c !in s[r.value + 1..]
    ensures r.None? ==> c !in s
  {
    if s == [] then None
    else if s[|s| - 1] == c then Some(|s| - 1)
    else
      var init := s[..|s| - 1];
      assert s == init + [s[|s| - 1]];
      match LastIndexOfChar(init, c)
      case None => None
      case Some(i) =>
        assert s[i + 1..] == init[i + 1..] + [s[|s| - 1]];
        Some(i)
  }

  /** The first occurrence of `c`, characterised. */
  lemma IndexOfCharIs(s: string, c: char, i: nat)
    requires i < |s| && s[i] == c && c !in s[..i]
    ensures IndexOfChar(s, c) == Some(i)
  {
    assert c in s by { assert s[i] == c; }
    assert forall j :: i < j <= |s| ==> s[..j][i] == c;
    assert forall j :: 0 <= j < i ==> s[..i][j] == s[j];
  }

  /** The last occurrence of `c`, characterised. */
  lemma LastIndexOfCharIs(s: string, c: char, i: nat)
    requires i < |s| && s[i] == c && c !in s[i + 1..]
    ensures LastIndexOfChar(s, c) == Some(i)
  {
    assert c in s by { assert s[i] == c; }
    forall t | i < t < |s| ensures s[t] in s[i + 1..] {
      assert s[i + 1..][t - i - 1] == s[t];
    }
    forall t | 0 <= t <= i ensures s[i] in s[t..] {
      assert s[t..][i - t] == s[i];
    }
  }

  /** Concatenation regrouped. */
  lemma AppendAssoc<T>(a: seq<T>, b: seq<T>, c: seq<T>)
    ensures a + (b + c) == (a + b) + c
  {
  }

  // ---------------------------------------------------------------------
  // Splitting

  /**
   * Split at every occurrence of `c` (Go's `strings.Split(s, string(c))`,
   * Swift's `components(separatedBy:)`); the empty string gives `[""]`.
   */
  function Split(s: string, c: char): (parts: seq<string>)
    ensures |parts| >= 1
    ensures forall k :: 0 <= k < |parts| ==> c !in parts[k]
    decreases |s|
  {
    match IndexOfChar(s, c)
    case None => [s]
    case Some(i) => [s[..i]] + Split(s[i + 1..], c)
  }

  /** The inverse of `Split`: the parts with `c` between them. */
  function Join(parts: seq<string>, c: char): string
    requires |parts| >= 1
  {
    if |parts| == 1 then parts[0] else parts[0] + [c] + Join(parts[1..], c)
  }

  lemma {:induction false} JoinSplit(s: string, c: char)
    ensures Join(Split(s, c), c) == s
    decreases |s|
  {
    match IndexOfChar(s, c)
    case None =>
    case Some(i) =>
      var rest := Split(s[i + 1..], c);
      var parts := [s[..i]] + rest;
      assert Split(s, c) == parts;
      assert parts[1..] == rest;
      JoinSplit(s[i + 1..], c);
      assert Join(parts, c) == s[..i] + [c] + s[i + 1..];
      assert s == s[..i] + [c] + s[i + 1..];
  }

  lemma {:induction false} SplitJoin(parts: seq<string>, c: char)
    requires |parts| >= 1
    requires forall k :: 0 <= k < |parts| ==> c !in parts[k]
    ensures Split(Join(parts, c), c) == parts
    decreases |parts|
  {
    if |parts| > 1 {
      var rest := Join(parts[1..], c);
      var s := parts[0] + [c] + rest;
      NoCharPrefix(parts[0], c, rest);
      assert s[..|parts[0]|] == parts[0];
      assert s[|parts[0]| + 1..] == rest;
      SplitJoin(parts[1..], c);
    }
  }

  /** The first occurrence of `c` in `p + [c] + r` is just after `p`, when `p` has none. */
  lemma NoCharPrefix(p: string, c: char, r: string)
    requires c !in p
    ensures IndexOfChar(p + [c] + r, c) == Some(|p|)
  {
    var s := p + [c] + r;
    assert s[|p|] == c;
    assert s[..|p|] == p;
    assert forall j :: |p| < j <= |s| ==> s[..j][|p|] == c;
  }

  /** Splitting `a + [c] + b` splits `a` and `b` separately. */
  lemma {:induction false} SplitAppend(a: string, c: char, b: string)
    ensures Split(a + [c] + b, c) == Split(a, c) + Split(b, c)
    decreases |a|
  {
    var s := a + [c] + b;
    match IndexOfChar(a, c)
    case None =>
      NoCharPrefix(a, c, b);
      assert s[..|a|] == a;
      assert s[|a| + 1..] == b;
    case Some(i) =>
      var p, a' := a[..i], a[i + 1..];
      var t := a' + [c] + b;
      assert s[..i] == p;
      assert s[i + 1..] == t;
      IndexOfCharIs(s, c, i);
      SplitAppend(a', c, b);
      AppendAssoc([p], Split(a', c), Split(b, c));
  }

  /** Joining peels off the last part. */
  lemma {:induction false} JoinSnoc(parts: seq<string>, c: char)
    requires |parts| >= 2
    ensures Join(parts, c) == Join(parts[..|parts| - 1], c) + [c] + parts[|parts| - 1]
    decreases |parts|
  {
    var init := parts[..|parts| - 1];
    if |parts| == 2 {
      assert init == [parts[0]];
    } else {
      JoinSnoc(parts[1..], c);
      assert parts[1..][..|parts| - 2] == init[1..];
      assert parts[1..][|parts| - 2] == parts[|parts| - 1];
    }
  }

  /** A string is its parts but the last, joined, then `c`, then the last part. */
  lemma SplitLast(s: string, c: char)
    ensures var p := Split(s, c);
            (|p| == 1 ==> s == p[0])
            && (|p| > 1 ==> s == Join(p[..|p| - 1], c) + [c] + p[|p| - 1])
  {
    var p := Split(s, c);
    JoinSplit(s, c);
    if |p| > 1 {
      JoinSnoc(p, c);
    }
  }

  /** Appending text only re-splits the last part. */
  lemma SplitConcat(x: string, y: string, c: char)
    ensures var p := Split(x, c);
            Split(x + y, c) == p[..|p| - 1] + Split(p[|p| - 1] + y, c)
  {
    var p := Split(x, c);
    SplitLast(x, c);
    if |p| == 1 {
      assert p[..0] == [];
    } else {
      SplitJoinedConcat(p[..|p| - 1], p[|p| - 1], y, c);
    }
  }

  lemma SplitJoinedConcat(init: seq<string>, last: string, y: string, c: char)
    requires |init| >= 1 && forall k :: 0 <= k < |init| ==> c !in init[k]
    ensures Split(Join(init, c) + [c] + last + y, c) == init + Split(last + y, c)
  {
    var j := Join(init, c);
    assert j + [c] + last + y == j + [c] + (last + y);
    SplitAppend(j, c, last + y);
    SplitJoin(init, c);
  }

  /** Splitting a string without `c`, followed by more text without `c`. */
  lemma SplitNoChar(s: string, c: char)
    requires c !in s
    ensures Split(s, c) == [s]
  {
  }

  /** The first part of `Split(s, c)` is the text before the first `c`. */
  lemma SplitHead(s: string, c: char)
    ensures Split(s, c)[0] == (match IndexOfChar(s, c) case None => s case Some(i) => s[..i])
  {
  }

  /**
   * Split at every occurrence of a non-empty separator string
   * (Go's `strings.Split(s, sep)`).
   */
  function SplitOn(s: string, sep: string): (parts: seq<string>)
    requires |sep| > 0
    ensures |parts| >= 1
    decreases |s|
  {
    match IndexOf(s, sep)
    case None => [s]
    case Some(i) => [s[..i]] + SplitOn(s[i + |sep|..], sep)
  }

  /** When `sep` occurs, the second part of `SplitOn` lies between its first two occurrences. */
  lemma SplitOnSecond(s: string, sep: string)
    requires |sep| > 0 && Contains(s, sep)
    ensures |SplitOn(s, sep)| > 1
    ensures var i := IndexOf(s, sep).value;
            var rest := s[i + |sep|..];
            SplitOn(s, sep)[1] == (match IndexOf(rest, sep) case None => rest case Some(j) => rest[..j])
  {
  }

  // ---------------------------------------------------------------------
  // White space

  /**
   * Go's `unicode.IsSpace`: the Latin-1 spaces and the other code points
   * with the Unicode White_Space property.
   */
  predicate IsSpace(c: char) {
    c == '\t' || c == '\n' || c == '\U{000B}' || c == '\U{000C}' || c == '\r' || c == ' '
    || c == '\U{0085}' || c == '\U{00A0}' || c == '\U{1680}'
    || ('\U{2000}' <= c <= '\U{200A}')
    || c == '\U{2028}' || c == '\U{2029}' || c == '\U{202F}' || c == '\U{205F}' || c == '\U{3000}'
  }

  predicate NoLeadingSpace(s: string) { s == [] || !IsSpace(s[0]) }
  predicate NoTrailingSpace(s: string) { s == [] || !IsSpace(s[|s| - 1]) }

  function TrimLeftSpace(s: string): (r: string)
    ensures |r| <= |s| && r == s[|s| - |r|..]
    ensures NoLeadingSpace(r)
    ensures forall i :: 0 <= i < |s| - |r| ==> IsSpace(s[i])
  {
    if s != [] && IsSpace(s[0]) then TrimLeftSpace(s[1..]) else s
  }

  function TrimRightSpace(s: string): (r: string)
    ensures |r| <= |s| && r == s[..|r|]
    ensures NoTrailingSpace(r)
    ensures forall i :: |r| <= i < |s| ==> IsSpace(s[i])
  {
    if s != [] && IsSpace(s[|s| - 1]) then TrimRightSpace(s[..|s| - 1]) else s
  }

  /** Go's `strings.TrimSpace`. */
  function TrimSpace(s: string): string {
    TrimRightSpace(TrimLeftSpace(s))
  }

  lemma TrimRightKeepsLeading(s: string)
    requires NoLeadingSpace(s)
    ensures NoLeadingSpace(TrimRightSpace(s))
  {
  }

  /** TrimSpace removes exactly the white space at both ends and nothing else. */
  lemma TrimSpaceSpec(s: string)
    ensures var r := TrimSpace(s);
            var i := |s| - |TrimLeftSpace(s)|;
            NoLeadingSpace(r) && NoTrailingSpace(r)
            && i + |r| <= |s| && s[i..i + |r|] == r
            && (forall k :: 0 <= k < i ==> IsSpace(s[k]))
            && (forall k :: i + |r| <= k < |s| ==> IsSpace(s[k]))
  {
    var l := TrimLeftSpace(s);
    TrimRightKeepsLeading(l);
    var r := TrimRightSpace(l);
    var i := |s| - |l|;
    assert s[i..i + |r|] == r;
    forall k | i + |r| <= k < |s| ensures IsSpace(s[k]) {
      assert s[k] == l[k - i];
    }
  }

  lemma TrimLeftNoop(s: string)
    requires NoLeadingSpace(s)
    ensures TrimLeftSpace(s) == s
  {
  }

  lemma TrimRightNoop(s: string)
    requires NoTrailingSpace(s)
    ensures TrimRightSpace(s) == s
  {
  }

  lemma TrimSpaceNoop(s: string)
    requires NoLeadingSpace(s) && NoTrailingSpace(s)
    ensures TrimSpace(s) == s
  {
    TrimLeftNoop(s);
    TrimRightNoop(s);
  }

  lemma TrimSpaceIdempotent(s: string)
    ensures TrimSpace(TrimSpace(s)) == TrimSpace(s)
  {
    TrimSpaceSpec(s);
    TrimSpaceNoop(TrimSpace(s));
  }

  // ---------------------------------------------------------------------
  // UTF-8 length

  /** Number of bytes UTF-8 needs for one scalar value. */
  function Utf8Width(c: char): nat {
    if c as int < 0x80 then 1
    else if c as int < 0x800 then 2
    else if c as int < 0x10000 then 3
    else 4
  }

  /** Go's `len(s)` and Swift's `s.utf8.count`: the UTF-8 byte length. */
  function Utf8Len(s: string): (n: nat)
    ensures |s| <= n <= 4 * |s|
  {
    if s == [] then 0 else Utf8Width(s[0]) + Utf8Len(s[1..])
  }

  lemma {:induction false} Utf8LenAppend(a: string, b: string)
    ensures Utf8Len(a + b) == Utf8Len(a) + Utf8Len(b)
    decreases |a|
  {
    if a != [] {
      assert (a + b)[1..] == a[1..] + b;
      Utf8LenAppend(a[1..], b);
    } else {
      assert a + b == b;
    }
  }

  lemma Utf8LenAscii(s: string)
    requires forall i :: 0 <= i < |s| ==> s[i] as int < 0x80
    ensures Utf8Len(s) == |s|
  {
  }

  // ---------------------------------------------------------------------
  // Decimal numerals

  predicate IsDigit(c: char) { '0' <= c <= '9' }

  predicate AllDigits(s: string) { forall i :: 0 <= i < |s| ==> IsDigit(s[i]) }

  function DigitChar(d: nat): (c: char)
    requires d < 10
    ensures IsDigit(c)
  {
    ('0' as int + d) as char
  }

  /** The value of a digit (0 for any other character). */
  function DigitValue(c: char): (d: nat)
    ensures d < 10
    ensures IsDigit(c) ==> DigitChar(d) == c
  {
    if IsDigit(c) then c as int - '0' as int else 0
  }

  /** Swift's string interpolation `\(n)` and Go's `%d` of a natural number. */
  function NatToString(n: nat): (r: string)
    ensures |r| >= 1 && AllDigits(r)
    ensures r[0] == '0' ==> n == 0 && r == "0"
    decreases n
  {
    if n < 10 then [DigitChar(n)] else NatToString(n / 10) + [DigitChar(n % 10)]
  }

  /** The value of a decimal numeral (the empty numeral counts as 0). */
  function DecimalValue(s: string): nat
    decreases |s|
  {
    if s == [] then 0
    else DecimalValue(s[..|s| - 1]) * 10 + DigitValue(s[|s| - 1])
  }

  lemma {:induction false} DecimalValueOfNatToString(n: nat)
    ensures DecimalValue(NatToString(n)) == n
    decreases n
  {
    if n >= 10 {
      var r := NatToString(n);
      assert r[..|r| - 1] == NatToString(n / 10);
      DecimalValueOfNatToString(n / 10);
    }
  }

  /** A numeral of d + 1 digits with a non-zero first digit is at least 10^d. */
  lemma {:induction false} DecimalValueLowerBound(s: string)
    requires |s| >= 2 && AllDigits(s) && s[0] != '0'
    ensures DecimalValue(s) >= 10
    decreases |s|
  {
    if |s| > 2 {
      DecimalValueLowerBound(s[..|s| - 1]);
    } else {
      assert s[..1][..0] == [];
    }
  }
}
