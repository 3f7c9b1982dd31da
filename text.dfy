/**
 * String and sequence helpers shared by the routes: the JavaScript notion of
 * white space (the `\s` class and `String.prototype.trim`), `trim`, `slice(0, n)`,
 * ASCII case mapping, `[...new Set(xs)]`, decimal rendering of numbers,
 * `padStart(2, "0")` and `Array.prototype.join`.
 */
module Text {

  /** The characters JavaScript counts as white space in `\s` and in `trim()`. */
  predicate IsSpace(c: char) {
    c == '\t' || c == '\n' || c == '\U{000B}' || c == '\U{000C}' || c == '\r' || c == ' ' ||
    c == '\U{00A0}' || c == '\U{1680}' || ('\U{2000}' <= c <= '\U{200A}') ||
    c == '\U{2028}' || c == '\U{2029}' || c == '\U{202F}' || c == '\U{205F}' ||
    c == '\U{3000}' || c == '\U{FEFF}'
  }

  predicate AllSpace(s: string) {
    forall i :: 0 <= i < |s| ==> IsSpace(s[i])
  }

  /** No white space at either end. */
  predicate Trimmed(s: string) {
    s == [] || (!IsSpace(s[0]) && !IsSpace(s[|s| - 1]))
  }

  /** Number of white-space characters at the start of `s`. */
  function LeadingSpaces(s: string): (k: nat)
    ensures k <= |s| && AllSpace(s[..k])
    ensures k < |s| ==> !IsSpace(s[k])
  {
    if s == [] || !IsSpace(s[0]) then 0 else 1 + LeadingSpaces(s[1..])
  }

  /** `s.replace(/^\s+/, "")`: drops the leading white space. */
  function TrimStart(s: string): (r: string)
    ensures r == s[LeadingSpaces(s)..]
    ensures r == [] || !IsSpace(r[0])
  {
    s[LeadingSpaces(s)..]
  }

  /** Drops the trailing white space. */
  function TrimEnd(s: string): (r: string)
    ensures |r| <= |s| && r == s[..|r|] && AllSpace(s[|r|..])
    ensures r == [] || !IsSpace(r[|r| - 1])
  {
    if s == [] || !IsSpace(s[|s| - 1]) then s
    else
      var r := TrimEnd(s[..|s| - 1]);
      assert s[..|s| - 1][..|r|] == s[..|r|];
      assert s[|r|..] == s[..|s| - 1][|r|..] + [s[|s| - 1]];
      r
  }

  /** `s.trim()`: the part of `s` between its leading and its trailing white space. */
  function Trim(s: string): (r: string)
    ensures Trimmed(r)
    ensures var k := LeadingSpaces(s);
      k + |r| <= |s| && r == s[k..k + |r|] && AllSpace(s[..k]) && AllSpace(s[k + |r|..])
  {
    var t := TrimStart(s);
    var r := TrimEnd(t);
    var k := LeadingSpaces(s);
    assert s[k..k + |r|] == t[..|r|];
    assert s[k + |r|..] == t[|r|..];
    r
  }

  /** A string is blank (`!s.trim()` holds) exactly when it is made only of white space. */
  lemma {:induction false} TrimEmptyIffAllSpace(s: string)
    ensures Trim(s) == [] <==> AllSpace(s)
  {
    var k := LeadingSpaces(s);
    if Trim(s) == [] {
      assert s == s[..k] + s[k..];
    } else {
      assert !IsSpace(s[k]);
    }
  }

  lemma {:induction false} AllSpaceConcat(a: string, b: string)
    requires AllSpace(a) && AllSpace(b)
    ensures AllSpace(a + b)
  {
    forall i | 0 <= i < |a + b| ensures IsSpace((a + b)[i]) {
      if i < |a| { assert (a + b)[i] == a[i]; } else { assert (a + b)[i] == b[i - |a|]; }
    }
  }

  /** Trimming removes exactly white-space padding around a text that has no edge spaces. */
  lemma {:induction false} TrimPadded(p: string, t: string, q: string)
    requires AllSpace(p) && AllSpace(q) && t != [] && Trimmed(t)
    ensures Trim(p + t + q) == t
  {
    assert p + t + q == p + (t + q);
    LeadingSpacesOfPadded(p, t + q);
    assert TrimStart(p + t + q) == t + q;
    TrimEndPadded(t, q);
  }

  /** Trimming a trimmed, non-empty text changes nothing. */
  lemma TrimFixpoint(t: string)
    requires t != [] && Trimmed(t)
    ensures Trim(t) == t
  {
    TrimPadded([], t, []);
    assert [] + t + [] == t;
  }

  lemma {:induction false} TrimEndPadded(t: string, q: string)
    requires AllSpace(q) && t != [] && Trimmed(t)
    ensures TrimEnd(t + q) == t
  {
    if q == [] {
      assert t + q == t;
    } else {
      assert (t + q)[..|t + q| - 1] == t + q[..|q| - 1];
      TrimEndPadded(t, q[..|q| - 1]);
    }
  }

  lemma {:induction false} LeadingSpacesOfPadded(p: string, u: string)
    requires AllSpace(p) && (u == [] || !IsSpace(u[0]))
    ensures LeadingSpaces(p + u) == |p|
  {
    if p != [] {
      assert (p + u)[1..] == p[1..] + u;
      LeadingSpacesOfPadded(p[1..], u);
    } else {
      assert p + u == u;
    }
  }

  /** `s.slice(0, n)`. */
  function Prefix<T>(s: seq<T>, n: nat): (r: seq<T>)
    ensures |r| == if |s| <= n then |s| else n
    ensures r == s[..|r|]
  {
    if |s| <= n then s else s[..n]
  }

  /**
   * The UTF-16 code units of a character: JavaScript strings count a character outside
   * the Basic Multilingual Plane as a surrogate pair.
   */
  function Utf16Units(c: char): nat {
    if c as int >= 0x10000 then 2 else 1
  }

  /** A JavaScript string's `length`: its UTF-16 code units. */
  function Utf16Length(s: string): (n: nat)
    ensures |s| <= n <= 2 * |s|
    ensures n == 0 <==> s == []
  {
    if s == [] then 0 else Utf16Units(s[0]) + Utf16Length(s[1..])
  }

  /** No character of `s` needs a surrogate pair. */
  predicate InBmp(s: string) {
    forall i :: 0 <= i < |s| ==> s[i] as int < 0x10000
  }

  /** Without surrogate pairs, the UTF-16 length is the number of characters. */
  lemma {:induction false} Utf16LengthBmp(s: string)
    requires InBmp(s)
    ensures Utf16Length(s) == |s|
  {
    if s != [] {
      InBmpTail(s);
      Utf16LengthBmp(s[1..]);
    }
  }

  lemma InBmpTail(s: string)
    requires InBmp(s) && s != []
    ensures InBmp(s[1..]) && Utf16Units(s[0]) == 1
  {
    forall i | 0 <= i < |s[1..]| ensures s[1..][i] as int < 0x10000 {
      assert s[1..][i] == s[i + 1];
    }
  }

  lemma PrefixCons<T>(s: seq<T>, n: nat)
    requires s != [] && n > 0
    ensures Prefix(s, n) == [s[0]] + Prefix(s[1..], n - 1)
  {
    if |s| <= n {
      assert [s[0]] + s[1..] == s;
    } else {
      assert [s[0]] + s[1..][..n - 1] == s[..n];
    }
  }

  /**
   * `s.slice(0, n)` on a string, where the cut falls between characters: the longest
   * prefix of at most `n` code units.
   */
  function Utf16Prefix(s: string, n: nat): string {
    if s == [] || Utf16Units(s[0]) > n then []
    else [s[0]] + Utf16Prefix(s[1..], n - Utf16Units(s[0]))
  }

  /**
   * The cut is a prefix of at most `n` code units, and the longest one: the next
   * character would go over `n`.
   */
  lemma {:induction false} Utf16PrefixSpec(s: string, n: nat)
    ensures var r := Utf16Prefix(s, n);
      && |r| <= |s| && r == s[..|r|]
      && Utf16Length(r) <= n
      && (|r| < |s| ==> Utf16Length(r) + Utf16Units(s[|r|]) > n)
  {
    if s != [] && Utf16Units(s[0]) <= n {
      var t := Utf16Prefix(s[1..], n - Utf16Units(s[0]));
      Utf16PrefixSpec(s[1..], n - Utf16Units(s[0]));
      var r := [s[0]] + t;
      assert r[1..] == t;
      assert s[..|r|] == [s[0]] + s[1..][..|t|];
      if |r| < |s| {
        assert s[|r|] == s[1..][|t|];
      }
    }
  }

  /** Without surrogate pairs, the code-unit cut is the character cut. */
  lemma {:induction false} Utf16PrefixBmp(s: string, n: nat)
    requires InBmp(s)
    ensures Utf16Prefix(s, n) == Prefix(s, n)
  {
    if s != [] && n > 0 {
      InBmpTail(s);
      Utf16PrefixBmp(s[1..], n - 1);
      PrefixCons(s, n);
    }
  }

  /** Texts that agree on a prefix of at least `n` code units have the same cut at `n`. */
  lemma {:induction false} Utf16PrefixCommon(s: string, t: string, k: nat, n: nat)
    requires k <= |s| && k <= |t| && s[..k] == t[..k] && Utf16Length(s[..k]) >= n
    ensures Utf16Prefix(s, n) == Utf16Prefix(t, n)
  {
    if k > 0 && Utf16Units(s[0]) <= n {
      assert s[0] == s[..k][0] == t[..k][0] == t[0];
      assert s[..k][1..] == s[1..][..k - 1] && t[..k][1..] == t[1..][..k - 1];
      Utf16PrefixCommon(s[1..], t[1..], k - 1, n - Utf16Units(s[0]));
    }
  }

  /** `s.slice(-n)`: the last `n` elements, or all of them when there are fewer. */
  function Suffix<T>(s: seq<T>, n: nat): (r: seq<T>)
    ensures |r| == if |s| <= n then |s| else n
    ensures r == s[|s| - |r|..]
  {
    if |s| <= n then s else s[|s| - n..]
  }

  function LowerChar(c: char): char {
    if 'A' <= c <= 'Z' then (c as int + 32) as char else c
  }

  function UpperChar(c: char): char {
    if 'a' <= c <= 'z' then (c as int - 32) as char else c
  }

  /** `s.toLowerCase()` on the ASCII letters. */
  function Lower(s: string): (r: string)
    ensures |r| == |s| && forall i :: 0 <= i < |s| ==> r[i] == LowerChar(s[i])
  {
    seq(|s|, i requires 0 <= i < |s| => LowerChar(s[i]))
  }

  /** `s.toUpperCase()` on the ASCII letters. */
  function Upper(s: string): (r: string)
    ensures |r| == |s| && forall i :: 0 <= i < |s| ==> r[i] == UpperChar(s[i])
  {
    seq(|s|, i requires 0 <= i < |s| => UpperChar(s[i]))
  }

  predicate NoDup<T(==)>(s: seq<T>) {
    forall i, j :: 0 <= i < j < |s| ==> s[i] != s[j]
  }

  /** Position of the first occurrence of `x` in `s`. */
  function FirstIndex<T(==)>(s: seq<T>, x: T): (k: nat)
    requires x in s
    ensures k < |s| && s[k] == x && x !in s[..k]
  {
    if s[0] == x then 0 else 1 + FirstIndex(s[1..], x)
  }

  /** `[...new Set(xs)]`: the distinct elements of `xs`, each at its first occurrence. */
  function Distinct<T(==,!new)>(xs: seq<T>): (r: seq<T>)
    ensures NoDup(r)
    ensures forall x :: x in r <==> x in xs
    ensures |r| <= |xs|
  {
    if xs == [] then []
    else
      var r := Distinct(xs[..|xs| - 1]);
      var last := xs[|xs| - 1];
      assert xs == xs[..|xs| - 1] + [last];
      if last in r then r else r + [last]
  }

  lemma {:induction false} FirstIndexInPrefix<T>(s: seq<T>, n: nat, x: T)
    requires n <= |s| && x in s[..n]
    ensures FirstIndex(s, x) == FirstIndex(s[..n], x) < n
  {
    if s[0] != x {
      assert s[1..][..n - 1] == s[..n][1..];
      FirstIndexInPrefix(s[1..], n - 1, x);
    }
  }

  lemma {:induction false} FirstIndexOfNew<T>(s: seq<T>, x: T)
    requires s != [] && s[|s| - 1] == x && x !in s[..|s| - 1]
    ensures FirstIndex(s, x) == |s| - 1
  {
    forall k | 0 <= k < |s| - 1 ensures s[k] != x {
      assert s[k] == s[..|s| - 1][k];
    }
  }

  /** Every element of `r` occurs in `xs`, and `r` lists them in the order they first occur there. */
  ghost predicate InFirstSeenOrder<T>(xs: seq<T>, r: seq<T>) {
    (forall x :: x in r ==> x in xs) &&
    forall i, j :: 0 <= i < j < |r| && r[i] in xs && r[j] in xs ==> FirstIndex(xs, r[i]) < FirstIndex(xs, r[j])
  }

  /** The distinct elements come out in the order of their first occurrences in `xs`. */
  lemma {:induction false} DistinctFirstSeenOrder<T(!new)>(xs: seq<T>)
    ensures InFirstSeenOrder(xs, Distinct(xs))
  {
    if xs != [] {
      var n := |xs| - 1;
      var init := xs[..n];
      DistinctFirstSeenOrder(init);
      var r0 := Distinct(init);
      var r := Distinct(xs);
      assert xs[..n] == init;
      if xs[n] !in r0 {
        FirstIndexOfNew(xs, xs[n]);
      }
      forall i, j | 0 <= i < j < |r| ensures FirstIndex(xs, r[i]) < FirstIndex(xs, r[j]) {
        assert r[i] == r0[i];
        FirstIndexInPrefix(xs, n, r[i]);
        if j < |r0| {
          assert r[j] == r0[j];
          FirstIndexInPrefix(xs, n, r[j]);
          assert FirstIndex(init, r0[i]) < FirstIndex(init, r0[j]);
        } else {
          assert r == r0 + [xs[n]];
          assert r[j] == xs[n];
          assert FirstIndex(xs, r[j]) == n;
        }
      }
    }
  }

  function DigitChar(d: nat): char
    requires d < 10
  {
    ('0' as int + d) as char
  }

  predicate IsDigit(c: char) {
    '0' <= c <= '9'
  }

  predicate AllDigits(s: string) {
    forall i :: 0 <= i < |s| ==> IsDigit(s[i])
  }

  /** `String(n)` for a non-negative integer: its decimal digits, without leading zeros. */
  function NatToString(n: nat): (r: string)
    ensures |r| >= 1 && AllDigits(r)
    ensures |r| > 1 ==> r[0] != '0'
  {
    if n < 10 then [DigitChar(n)] else NatToString(n / 10) + [DigitChar(n % 10)]
  }

  /** Reads a string of decimal digits back as a number. */
  function DigitsValue(s: string): nat
    requires AllDigits(s)
  {
    if s == [] then 0 else DigitsValue(s[..|s| - 1]) * 10 + (s[|s| - 1] as int - '0' as int)
  }

  /** Rendering a number in decimal loses nothing: it reads back as the same number. */
  lemma {:induction false} NatToStringRoundTrip(n: nat)
    ensures DigitsValue(NatToString(n)) == n
  {
    if n >= 10 {
      var s := NatToString(n);
      assert s[..|s| - 1] == NatToString(n / 10);
      NatToStringRoundTrip(n / 10);
    }
  }

  /** Leading zeros do not change the value read back. */
  lemma {:induction false} LeadingZeroValue(s: string)
    requires AllDigits(s)
    ensures DigitsValue("0" + s) == DigitsValue(s)
  {
    if s != [] {
      var t := "0" + s;
      assert t[..|t| - 1] == "0" + s[..|s| - 1];
      LeadingZeroValue(s[..|s| - 1]);
    } else {
      assert DigitsValue("0") == DigitsValue("") * 10 + 0;
    }
  }

  /** `String(n).padStart(2, "0")`. */
  function PadTwo(s: string): (r: string)
    ensures |r| == if |s| < 2 then 2 else |s|
    ensures |s| < 2 ==> r == seq(2 - |s|, _ => '0') + s
    ensures |s| >= 2 ==> r == s
  {
    if |s| == 0 then "00" else if |s| == 1 then "0" + s else s
  }

  /** `xs.join(sep)`. */
  function Join(xs: seq<string>, sep: string): (r: string)
  {
    if xs == [] then "" else if |xs| == 1 then xs[0] else Join(xs[..|xs| - 1], sep) + sep + xs[|xs| - 1]
  }

  /** A non-empty list whose first element is non-empty joins to a non-empty string. */
  lemma {:induction false} JoinNonEmpty(xs: seq<string>, sep: string)
    requires xs != [] && xs[0] != []
    ensures Join(xs, sep) != []
  {
    if |xs| > 1 {
      JoinNonEmpty(xs[..|xs| - 1], sep);
    }
  }

  /** `t` occurs in `s` as a contiguous block (`s.includes(t)`). */
  ghost predicate Infix<T>(t: seq<T>, s: seq<T>) {
    exists i :: InfixAt(t, s, i)
  }

  /** `t` occurs in `s` starting at position `i`. */
  ghost predicate InfixAt<T>(t: seq<T>, s: seq<T>, i: int) {
    0 <= i && i + |t| <= |s| && s[i..i + |t|] == t
  }

  lemma InfixOfConcat<T>(a: seq<T>, t: seq<T>, b: seq<T>)
    ensures Infix(t, a + t + b)
  {
    assert (a + t + b)[|a|..|a| + |t|] == t;
    assert InfixAt(t, a + t + b, |a|);
  }

  lemma InfixTrans<T>(t: seq<T>, s: seq<T>, u: seq<T>)
    requires Infix(t, s) && Infix(s, u)
    ensures Infix(t, u)
  {
    var i :| InfixAt(t, s, i);
    var j :| InfixAt(s, u, j);
    forall k | 0 <= k < |t| ensures u[j + i + k] == t[k] {
      assert t[k] == s[i + k];
      assert s[i + k] == u[j + i + k];
    }
    assert u[j + i..j + i + |t|] == t;
    assert InfixAt(t, u, j + i);
  }

  /** Every element of a list occurs in the list joined with any separator. */
  lemma {:induction false} JoinInfix(xs: seq<string>, sep: string, k: nat)
    requires k < |xs|
    ensures Infix(xs[k], Join(xs, sep))
  {
    if |xs| == 1 {
      InfixOfConcat([], xs[0], []);
      assert [] + xs[0] + [] == xs[0];
    } else if k == |xs| - 1 {
      InfixOfConcat(Join(xs[..|xs| - 1], sep) + sep, xs[k], []);
      assert Join(xs[..|xs| - 1], sep) + sep + xs[k] + [] == Join(xs, sep);
    } else {
      JoinInfix(xs[..|xs| - 1], sep, k);
      InfixOfConcat([], Join(xs[..|xs| - 1], sep), sep + xs[|xs| - 1]);
      assert [] + Join(xs[..|xs| - 1], sep) + (sep + xs[|xs| - 1]) == Join(xs, sep);
      InfixTrans(xs[k], Join(xs[..|xs| - 1], sep), Join(xs, sep));
    }
  }

  /** The concatenation of a list of strings, as a template literal joins its pieces. */
  function Concat(parts: seq<string>): string {
    if parts == [] then [] else Concat(parts[..|parts| - 1]) + parts[|parts| - 1]
  }

  lemma {:induction false} ConcatFront(parts: seq<string>)
    requires parts != []
    ensures Concat(parts) == parts[0] + Concat(parts[1..])
  {
    if |parts| > 1 {
      ConcatFront(parts[..|parts| - 1]);
      assert parts[..|parts| - 1][1..] == parts[1..][..|parts| - 2];
    } else {
      assert parts[..0] == [];
    }
  }

  /** Every piece of a template occurs in it. */
  lemma {:induction false} ConcatInfix(parts: seq<string>, k: nat)
    requires k < |parts|
    ensures Infix(parts[k], Concat(parts))
  {
    var init := parts[..|parts| - 1];
    if k == |parts| - 1 {
      InfixOfConcat(Concat(init), parts[k], []);
      assert Concat(init) + parts[k] + [] == Concat(parts);
    } else {
      ConcatInfix(init, k);
      InfixOfConcat([], Concat(init), parts[|parts| - 1]);
      assert [] + Concat(init) + parts[|parts| - 1] == Concat(parts);
      InfixTrans(parts[k], Concat(init), Concat(parts));
    }
  }

  /**
   * `` `\n${pieces}\n`.trim() `` for pieces whose first piece starts, and whose last piece
   * ends, with a character that is not white space: the trim removes only the two newlines.
   */
  lemma TrimTemplate(parts: seq<string>)
    requires |parts| >= 2 && parts[0] != [] && parts[|parts| - 1] != []
    requires !IsSpace(parts[0][0]) && !IsSpace(parts[|parts| - 1][|parts[|parts| - 1]| - 1])
    ensures Trim("\n" + Concat(parts) + "\n") == Concat(parts)
  {
    var body := Concat(parts);
    ConcatFront(parts);
    assert body[0] == parts[0][0];
    assert body[|body| - 1] == parts[|parts| - 1][|parts[|parts| - 1]| - 1];
    assert AllSpace("\n");
    TrimPadded("\n", body, "\n");
  }

  function Sum(xs: seq<int>): int {
    if xs == [] then 0 else Sum(xs[..|xs| - 1]) + xs[|xs| - 1]
  }

  lemma {:induction false} SumAppend(xs: seq<int>, ys: seq<int>)
    ensures Sum(xs + ys) == Sum(xs) + Sum(ys)
  {
    if ys != [] {
      assert (xs + ys)[..|xs + ys| - 1] == xs + ys[..|ys| - 1];
      SumAppend(xs, ys[..|ys| - 1]);
    } else {
      assert xs + ys == xs;
    }
  }

  /** A sum of values in [lo, hi] lies in [n*lo, n*hi]. */
  lemma {:induction false} SumBounds(xs: seq<int>, lo: int, hi: int)
    requires forall i :: 0 <= i < |xs| ==> lo <= xs[i] <= hi
    ensures |xs| * lo <= Sum(xs) <= |xs| * hi
  {
    if xs != [] {
      var init, n := xs[..|xs| - 1], |xs|;
      forall i | 0 <= i < |init| ensures lo <= init[i] <= hi {
        assert init[i] == xs[i];
      }
      SumBounds(init, lo, hi);
      assert Sum(xs) == Sum(init) + xs[n - 1];
      assert n * lo == (n - 1) * lo + lo && n * hi == (n - 1) * hi + hi;
    }
  }

  /**
   * `Math.round((sum / n) * 10)`: the mean of `n` values summing to `sum`, in tenths,
   * rounded half up.
   */
  function RoundedTenths(sum: int, n: nat): (t: int)
    requires n > 0
    ensures 2 * n * t <= 20 * sum + n < 2 * n * (t + 1)
  {
    (20 * sum + n) / (2 * n)
  }

  /** The rounded mean of values in [lo, hi] is in [10*lo, 10*hi] tenths. */
  lemma {:induction false} RoundedMeanBounds(xs: seq<int>, lo: int, hi: int)
    requires xs != []
    requires forall i :: 0 <= i < |xs| ==> lo <= xs[i] <= hi
    ensures 10 * lo <= RoundedTenths(Sum(xs), |xs|) <= 10 * hi
  {
    SumBounds(xs, lo, hi);
    var n, s := |xs|, Sum(xs);
    var t := RoundedTenths(s, n);
    assert n * lo <= s <= n * hi;
    assert 2 * n * (10 * hi + 1) == 20 * (n * hi) + 2 * n;
    assert 2 * n * (10 * lo - 1) == 20 * (n * lo) - 2 * n;
    MulCancelLess(t, 10 * hi + 1, 2 * n);
    MulCancelLess(10 * lo - 1, t + 1, 2 * n);
  }

  lemma MulCancelLess(a: int, b: int, c: int)
    requires c > 0 && c * a < c * b
    ensures a < b
  {
  }
}
