/**
 * The java.lang.String and java.lang.Integer operations the modelled code relies on,
 * stated over `seq<char>`.
 *
 * Case mapping covers the ASCII letters only; `trim` removes every character whose
 * code is at most U+0020, as Java's does.
 */
module JavaText {
  import opened Values

  // ---------------------------------------------------------------------------
  // Prefixes, suffixes, occurrences
  // ---------------------------------------------------------------------------

  /** `s.startsWith(p)` */
  predicate StartsWith(s: string, p: string) {
    |p| <= |s| && s[..|p|] == p
  }

  /** `s.endsWith(p)` */
  predicate EndsWith(s: string, p: string) {
    |p| <= |s| && s[|s| - |p|..] == p
  }

  /** `t` occurs in `s` starting at index `i`. */
  predicate OccursAt(s: string, t: string, i: int) {
    0 <= i && i + |t| <= |s| && s[i..i + |t|] == t
  }

  /**
   * `s.indexOf(t, from)`: the first index at or after `from` where `t` occurs,
   * or -1 when there is none.
   */
  function IndexOfFrom(s: string, t: string, from: nat): (r: int)
    requires from <= |s|
    ensures r == -1 || (from <= r && OccursAt(s, t, r))
    ensures r == -1 <==> forall j :: from <= j ==> !OccursAt(s, t, j)
    ensures r != -1 ==> forall j :: from <= j < r ==> !OccursAt(s, t, j)
    decreases |s| - from
  {
    if from + |t| > |s| then
      -1
    else if OccursAt(s, t, from) then
      from
    else
      IndexOfFrom(s, t, from + 1)
  }

  /** `s.contains(t)` */
  predicate Contains(s: string, t: string) {
    IndexOfFrom(s, t, 0) != -1
  }

  lemma ContainsMeansOccurs(s: string, t: string)
    ensures Contains(s, t) <==> exists i :: OccursAt(s, t, i)
  {
    if Contains(s, t) {
      assert OccursAt(s, t, IndexOfFrom(s, t, 0));
    }
  }

  // ---------------------------------------------------------------------------
  // trim
  // ---------------------------------------------------------------------------

  /** The characters `String.trim` removes: every code point up to U+0020. */
  predicate IsTrimmable(c: char) {
    c <= ' '
  }

  /** Every character of `s` is removed by `trim`. */
  predicate IsBlank(s: string) {
    forall k :: 0 <= k < |s| ==> IsTrimmable(s[k])
  }

  /** Neither end of `s` is a trimmable character. */
  predicate IsTrimmed(s: string) {
    s == [] || (!IsTrimmable(s[0]) && !IsTrimmable(s[|s| - 1]))
  }

  /**
   * `s.trim()`: drop trimmable characters from the front, then from the back, until
   * neither end is trimmable; empty exactly when `s` is blank.
   */
  function Trim(s: string): (r: string)
    ensures IsTrimmed(r)
    ensures |r| <= |s|
    ensures r == [] <==> IsBlank(s)
    ensures IsTrimmed(s) ==> r == s
    decreases |s|
  {
    if s == [] then s
    else if IsTrimmable(s[0]) then
      assert forall k :: 0 <= k < |s| - 1 ==> s[1..][k] == s[k + 1];
      Trim(s[1..])
    else if IsTrimmable(s[|s| - 1]) then
      assert s[..|s| - 1][0] == s[0];
      Trim(s[..|s| - 1])
    else s
  }

  /** `trim` only removes characters, so a character absent from `s` is absent from `s.trim()`. */
  lemma {:induction false} TrimKeepsOut(s: string, c: char)
    requires c !in s
    ensures c !in Trim(s)
    decreases |s|
  {
    if s != [] && IsTrimmable(s[0]) {
      TrimKeepsOut(s[1..], c);
    } else if s != [] && IsTrimmable(s[|s| - 1]) {
      TrimKeepsOut(s[..|s| - 1], c);
    }
  }

  /** If everything outside t[i..j] is blank and t[i..j] is trimmed, Trim(t) is that slice. */
  lemma {:induction false} TrimOfSlice(t: string, i: nat, j: nat)
    requires i < j <= |t|
    requires IsBlank(t[..i]) && IsBlank(t[j..]) && IsTrimmed(t[i..j])
    ensures Trim(t) == t[i..j]
    decreases |t|
  {
    assert t[i] == t[i..j][0];
    if i > 0 {
      assert IsTrimmable(t[..i][0]);
      var u := t[1..];
      var front := u[..i - 1];
      forall k | 0 <= k < |front| ensures IsTrimmable(front[k]) {
        assert front[k] == t[..i][k + 1];
      }
      assert u[j - 1..] == t[j..] && u[i - 1..j - 1] == t[i..j];
      TrimOfSlice(u, i - 1, j - 1);
    } else if j < |t| {
      assert IsTrimmable(t[j..][|t| - 1 - j]);
      var u := t[..|t| - 1];
      assert u[..0] == t[..0] && u[0..j] == t[0..j];
      assert forall k :: 0 <= k < |t| - 1 - j ==> u[j..][k] == t[j..][k];
      TrimOfSlice(u, 0, j);
    } else {
      assert t[0..|t|] == t;
    }
  }

  // ---------------------------------------------------------------------------
  // split and join
  // ---------------------------------------------------------------------------

  /** The pieces of `s` between occurrences of `sep`, empty pieces included. */
  function SplitAll(s: string, sep: char): (r: seq<string>)
    ensures |r| >= 1
  {
    if s == [] then
      [[]]
    else
      var rest := SplitAll(s[1..], sep);
      if s[0] == sep then [[]] + rest else [[s[0]] + rest[0]] + rest[1..]
  }

  /** No piece holds the separator. */
  lemma {:induction false} SplitAllPieces(s: string, sep: char)
    ensures forall k :: 0 <= k < |SplitAll(s, sep)| ==> sep !in SplitAll(s, sep)[k]
  {
    if s != [] {
      SplitAllPieces(s[1..], sep);
    }
  }

  /** A text without the separator is a single piece. */
  lemma {:induction false} SplitAllNoSep(s: string, sep: char)
    requires sep !in s
    ensures SplitAll(s, sep) == [s]
  {
    if s != [] {
      SplitAllNoSep(s[1..], sep);
      assert [s[0]] + s[1..] == s;
    }
  }

  /** Splitting at a separator between two texts splits each text on its own. */
  lemma {:induction false} SplitAllConcat(a: string, sep: char, b: string)
    ensures SplitAll(a + [sep] + b, sep) == SplitAll(a, sep) + SplitAll(b, sep)
  {
    var s := a + [sep] + b;
    var pb := SplitAll(b, sep);
    if a == [] {
      assert s[1..] == b;
    } else {
      assert s[0] == a[0] && s[1..] == a[1..] + [sep] + b;
      SplitAllConcat(a[1..], sep, b);
      var rest := SplitAll(a[1..], sep);
      if a[0] == sep {
        ConcatAssoc([[]], rest, pb);
      } else {
        ConcatAssoc([[a[0]] + rest[0]], rest[1..], pb);
        assert (rest + pb)[1..] == rest[1..] + pb;
      }
    }
  }

  /** Concatenation of sequences (texts, lists of pieces) is associative. */
  lemma ConcatAssoc<T>(x: seq<T>, y: seq<T>, z: seq<T>)
    ensures x + (y + z) == x + y + z
  {
  }

  /** Appending four parts one by one appends their concatenation. */
  lemma AppendFour<T>(s: seq<T>, a: seq<T>, b: seq<T>, c: seq<T>, d: seq<T>)
    ensures s + a + b + c + d == s + (a + b + c + d)
  {
  }

  /** `String.join(sep, pieces)` */
  function Join(pieces: seq<string>, sep: string): string {
    if |pieces| == 0 then []
    else if |pieces| == 1 then pieces[0]
    else pieces[0] + sep + Join(pieces[1..], sep)
  }

  /** Splitting and joining again gives back the original text. */
  lemma {:induction false} JoinSplitAll(s: string, sep: char)
    ensures Join(SplitAll(s, sep), [sep]) == s
  {
    if s != [] {
      var rest := SplitAll(s[1..], sep);
      JoinSplitAll(s[1..], sep);
      if s[0] == sep {
        assert SplitAll(s, sep) == [[]] + rest;
        assert ([[]] + rest)[1..] == rest;
      } else {
        var r := [[s[0]] + rest[0]] + rest[1..];
        assert SplitAll(s, sep) == r;
        if |rest| == 1 {
          assert r == [[s[0]] + rest[0]];
        } else {
          assert r[1..] == rest[1..];
          assert Join(rest, [sep]) == rest[0] + [sep] + Join(rest[1..], [sep]);
        }
      }
    }
  }

  /** `s.indexOf(c)` for a character that occurs in `s`. */
  function FirstIndex(s: string, c: char): (i: nat)
    requires c in s
    ensures i < |s| && s[i] == c && c !in s[..i]
  {
    if s[0] == c then 0 else 1 + FirstIndex(s[1..], c)
  }

  /** The text before and after the first `c`, if there is one. */
  function SplitAtFirst(s: string, c: char): (r: Option<(string, string)>)
    ensures r.Some? <==> c in s
    ensures r.Some? ==> s == r.value.0 + [c] + r.value.1 && c !in r.value.0
  {
    if c in s then
      var i := FirstIndex(s, c);
      assert s == s[..i] + [c] + s[i + 1..];
      Some((s[..i], s[i + 1..]))
    else
      None
  }

  lemma {:induction false} FirstIndexOf(a: string, c: char, b: string)
    requires c !in a
    ensures FirstIndex(a + [c] + b, c) == |a|
  {
    if a != [] {
      assert (a + [c] + b)[1..] == a[1..] + [c] + b;
      FirstIndexOf(a[1..], c, b);
    }
  }

  /** Splitting at the first `c` recovers the parts joined around a `c` the first part lacks. */
  lemma SplitAtFirstOf(a: string, c: char, b: string)
    requires c !in a
    ensures SplitAtFirst(a + [c] + b, c) == Some((a, b))
  {
    var s := a + [c] + b;
    FirstIndexOf(a, c, b);
    assert s[..|a|] == a && s[|a| + 1..] == b;
  }

  /** Joining pieces that do not contain the separator and splitting again gives back the pieces. */
  lemma {:induction false} SplitAllJoin(pieces: seq<string>, sep: char)
    requires |pieces| >= 1
    requires forall k :: 0 <= k < |pieces| ==> sep !in pieces[k]
    ensures SplitAll(Join(pieces, [sep]), sep) == pieces
  {
    SplitAllNoSep(pieces[0], sep);
    if |pieces| > 1 {
      var rest := Join(pieces[1..], [sep]);
      SplitAllJoin(pieces[1..], sep);
      assert Join(pieces, [sep]) == pieces[0] + [sep] + rest;
      SplitAllConcat(pieces[0], sep, rest);
      assert [pieces[0]] + pieces[1..] == pieces;
    }
  }

  /** Java removes trailing empty strings from the result of `split`. */
  function DropTrailingEmpty(pieces: seq<string>): (r: seq<string>)
    ensures |r| <= |pieces| && r == pieces[..|r|]
    ensures r == [] || r[|r| - 1] != []
    ensures forall k :: |r| <= k < |pieces| ==> pieces[k] == []
  {
    if pieces != [] && pieces[|pieces| - 1] == [] then
      DropTrailingEmpty(pieces[..|pieces| - 1])
    else
      pieces
  }

  /**
   * `s.split(String.valueOf(sep))`: the whole text when `sep` does not occur,
   * otherwise the pieces with the trailing empty ones removed.
   */
  function JavaSplit(s: string, sep: char): (r: seq<string>)
    ensures sep !in s ==> r == [s]
    ensures forall k :: 0 <= k < |r| ==> sep !in r[k]
  {
    if sep !in s then [s]
    else
      SplitAllPieces(s, sep);
      DropTrailingEmpty(SplitAll(s, sep))
  }

  // ---------------------------------------------------------------------------
  // replace
  // ---------------------------------------------------------------------------

  /**
   * `s.replace(target, replacement)` for a non-empty target: scans from the left and
   * replaces every non-overlapping occurrence.
   */
  function ReplaceAll(s: string, target: string, replacement: string): string
    requires target != []
    decreases |s|
  {
    if |s| < |target| then s
    else if s[..|target|] == target then replacement + ReplaceAll(s[|target|..], target, replacement)
    else [s[0]] + ReplaceAll(s[1..], target, replacement)
  }

  /** A text in which the target's first character never appears is left unchanged. */
  lemma {:induction false} ReplaceAbsent(s: string, target: string, replacement: string)
    requires target != [] && target[0] !in s
    ensures ReplaceAll(s, target, replacement) == s
  {
    if |s| >= |target| {
      assert s[..|target|][0] == s[0];
      ReplaceAbsent(s[1..], target, replacement);
    }
  }

  // ---------------------------------------------------------------------------
  // Case mapping (ASCII letters)
  // ---------------------------------------------------------------------------

  function LowerChar(c: char): char {
    if 'A' <= c <= 'Z' then (c as int + 32) as char else c
  }

  function UpperChar(c: char): char {
    if 'a' <= c <= 'z' then (c as int - 32) as char else c
  }

  /** `s.toLowerCase()` */
  function ToLower(s: string): (r: string)
    ensures |r| == |s|
    ensures forall k :: 0 <= k < |s| ==> r[k] == LowerChar(s[k])
  {
    seq(|s|, k requires 0 <= k < |s| => LowerChar(s[k]))
  }

  /** `s.toUpperCase()` */
  function ToUpper(s: string): (r: string)
    ensures |r| == |s|
    ensures forall k :: 0 <= k < |s| ==> r[k] == UpperChar(s[k])
  {
    seq(|s|, k requires 0 <= k < |s| => UpperChar(s[k]))
  }

  /** `a.equalsIgnoreCase(b)` */
  predicate EqualsIgnoreCase(a: string, b: string) {
    ToLower(a) == ToLower(b)
  }

  /** Texts equal up to case have the same upper-case form. */
  lemma UpperOfEqualIgnoreCase(a: string, b: string)
    requires EqualsIgnoreCase(a, b)
    ensures ToUpper(a) == ToUpper(b)
  {
    forall k | 0 <= k < |a|
      ensures UpperChar(a[k]) == UpperChar(b[k])
    {
      assert LowerChar(a[k]) == ToLower(a)[k] == ToLower(b)[k] == LowerChar(b[k]);
    }
  }

  // ---------------------------------------------------------------------------
  // Integers: 32- and 64-bit ranges, decimal text, Integer.parseInt
  // ---------------------------------------------------------------------------

  const INT32_MIN: int := -0x8000_0000
  const INT32_MAX: int := 0x7fff_ffff
  const INT64_MIN: int := -0x8000_0000_0000_0000
  const INT64_MAX: int := 0x7fff_ffff_ffff_ffff

  predicate IsInt32(x: int) { INT32_MIN <= x <= INT32_MAX }
  predicate IsInt64(x: int) { INT64_MIN <= x <= INT64_MAX }

  /** Two's-complement wrap-around of an exact result into Java's `int`. */
  function WrapInt32(x: int): (r: int)
    ensures IsInt32(r)
    ensures (r - x) % 0x1_0000_0000 == 0
    ensures IsInt32(x) ==> r == x
  {
    (x - INT32_MIN) % 0x1_0000_0000 + INT32_MIN
  }

  /** Two's-complement wrap-around of an exact result into Java's `long`. */
  function WrapInt64(x: int): (r: int)
    ensures IsInt64(r)
    ensures (r - x) % 0x1_0000_0000_0000_0000 == 0
    ensures IsInt64(x) ==> r == x
  {
    (x - INT64_MIN) % 0x1_0000_0000_0000_0000 + INT64_MIN
  }

  predicate IsDigit(c: char) { '0' <= c <= '9' }

  predicate AllDigits(s: string) {
    forall k :: 0 <= k < |s| ==> IsDigit(s[k])
  }

  function DigitChar(d: nat): (c: char)
    requires d < 10
    ensures IsDigit(c)
  {
    ('0' as int + d) as char
  }

  /** The decimal digits of a natural number, without leading zeros. */
  function NatDigits(n: nat): (r: string)
    ensures |r| >= 1 && AllDigits(r)
    ensures r[0] != '0' || n == 0
  {
    if n < 10 then [DigitChar(n)] else NatDigits(n / 10) + [DigitChar(n % 10)]
  }

  /** `Integer.toString(n)`, which is also what `%d` prints. */
  function IntToString(n: int): (r: string)
    ensures |r| >= 1
    ensures n >= 0 ==> AllDigits(r)
    ensures n < 0 ==> r[0] == '-' && AllDigits(r[1..])
  {
    if n < 0 then "-" + NatDigits(-n) else NatDigits(n)
  }

  /** The text of an integer holds nothing but digits and a leading minus sign. */
  lemma IntToStringChars(n: int, c: char)
    requires c != '-' && !IsDigit(c)
    ensures c !in IntToString(n)
  {
    var r := IntToString(n);
    forall k | 0 <= k < |r| ensures r[k] != c {
      if n < 0 && k > 0 {
        assert r[k] == r[1..][k - 1];
      }
    }
  }

  /** The value of a string of decimal digits, leading zeros allowed. */
  function DigitsValue(s: string): nat
    requires AllDigits(s)
  {
    if s == [] then 0 else DigitsValue(s[..|s| - 1]) * 10 + (s[|s| - 1] as int - '0' as int)
  }

  lemma {:induction false} DigitsValueOfNatDigits(n: nat)
    ensures DigitsValue(NatDigits(n)) == n
  {
    if n >= 10 {
      var r := NatDigits(n);
      DigitsValueOfNatDigits(n / 10);
      assert r[..|r| - 1] == NatDigits(n / 10);
    }
  }

  /**
   * `Integer.parseInt(s)`: an optional sign followed by at least one decimal digit,
   * with a value inside the 32-bit range; `None` where Java throws
   * NumberFormatException.
   */
  function ParseInt(s: string): (r: Option<int>)
    ensures r.Some? ==> IsInt32(r.value)
    ensures r.Some? ==> s != [] && AllDigits(if s[0] == '-' || s[0] == '+' then s[1..] else s)
  {
    if s == [] then None
    else
      var negative := s[0] == '-';
      var digits := if s[0] == '-' || s[0] == '+' then s[1..] else s;
      if digits == [] || !AllDigits(digits) then None
      else
        var v := if negative then -(DigitsValue(digits) as int) else DigitsValue(digits) as int;
        if IsInt32(v) then Some(v) else None
  }

  /** Printing a 32-bit integer and parsing the text back gives the integer. */
  lemma ParseIntToString(n: int)
    requires IsInt32(n)
    ensures ParseInt(IntToString(n)) == Some(n)
  {
    var text := IntToString(n);
    if n < 0 {
      var digits := NatDigits(-n);
      DigitsValueOfNatDigits(-n);
      assert text == "-" + digits;
      assert text[0] == '-' && text[1..] == digits;
    } else {
      var digits := NatDigits(n);
      DigitsValueOfNatDigits(n);
      assert text == digits && IsDigit(text[0]);
    }
  }
}
