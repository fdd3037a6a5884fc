/**
 * The pieces of Go's `strings` and `strconv` packages that the provider relies on,
 * stated over `string` (= `seq<char>`): prefix tests, first-occurrence search,
 * `strings.Split`/`SplitAfter`, `strings.TrimSpace`, decimal formatting and
 * `strconv.Atoi` (which the provider calls without looking at its error).
 */
module Strs {
  import opened Wrappers

  // ----- prefixes and occurrences -----

  predicate HasPrefix(s: string, p: string) {
    |p| <= |s| && s[..|p|] == p
  }

  /** `sub` occurs in `s` starting at index `i`. */
  predicate OccursAt(s: string, sub: string, i: nat) {
    i + |sub| <= |s| && s[i..i + |sub|] == sub
  }

  ghost predicate Contains(s: string, sub: string) {
    exists i: nat :: OccursAt(s, sub, i)
  }

  /** The first index at or after `k` where `sub` occurs (Go's `strings.Index` with k = 0). */
  function IndexFrom(s: string, sub: string, k: nat): (r: Option<nat>)
    requires k <= |s|
    ensures r.Some? ==> k <= r.value && OccursAt(s, sub, r.value)
    ensures r.Some? ==> forall j: nat :: k <= j < r.value ==> !OccursAt(s, sub, j)
    ensures r.None? ==> forall j: nat :: k <= j ==> !OccursAt(s, sub, j)
    decreases |s| - k
  {
    if k + |sub| > |s| then None
    else if s[k..k + |sub|] == sub then Some(k)
    else IndexFrom(s, sub, k + 1)
  }

  function Index(s: string, sub: string): (r: Option<nat>)
    ensures r.Some? ==> OccursAt(s, sub, r.value) && forall j: nat :: j < r.value ==> !OccursAt(s, sub, j)
    ensures r.None? <==> !Contains(s, sub)
  {
    IndexFrom(s, sub, 0)
  }

  // ----- strings.Split / strings.SplitAfter / strings.Join -----

  function Join(parts: seq<string>, sep: string): string {
    if |parts| == 0 then ""
    else if |parts| == 1 then parts[0]
    else parts[0] + sep + Join(parts[1..], sep)
  }

  lemma NoOccurrenceInPrefix(s: string, sep: string, i: nat)
    requires sep != "" && i <= |s|
    requires forall j: nat :: j < i ==> !OccursAt(s, sep, j)
    ensures !Contains(s[..i], sep)
  {
    forall j: nat | OccursAt(s[..i], sep, j) ensures false {
      assert s[..i][j..j + |sep|] == s[j..j + |sep|];
      assert OccursAt(s, sep, j);
    }
  }

  /**
   * Go's `strings.Split(s, sep)` for a non-empty separator: the pieces between
   * the occurrences of `sep`, found left to right without overlap.
   */
  function Split(s: string, sep: string): (parts: seq<string>)
    requires sep != ""
    ensures |parts| >= 1
    ensures Join(parts, sep) == s
    ensures forall i :: 0 <= i < |parts| ==> !Contains(parts[i], sep)
    ensures !Contains(s, sep) ==> parts == [s]
    decreases |s|
  {
    match Index(s, sep)
    case None => [s]
    case Some(i) =>
      var rest := Split(s[i + |sep|..], sep);
      SplitStep(s, sep, i, rest);
      [s[..i]] + rest
  }

  /** The first piece and the pieces of the rest together join back to `s`, and none contains `sep`. */
  lemma SplitStep(s: string, sep: string, i: nat, rest: seq<string>)
    requires sep != "" && Index(s, sep) == Some(i)
    requires |rest| >= 1 && Join(rest, sep) == s[i + |sep|..]
    requires forall k :: 0 <= k < |rest| ==> !Contains(rest[k], sep)
    ensures Join([s[..i]] + rest, sep) == s && Contains(s, sep)
    ensures forall k :: 0 <= k < |rest| + 1 ==> !Contains(([s[..i]] + rest)[k], sep)
  {
    NoOccurrenceInPrefix(s, sep, i);
    assert s[..i] + sep + s[i + |sep|..] == s by {
      assert s[i..i + |sep|] == sep;
      assert s == s[..i] + s[i..i + |sep|] + s[i + |sep|..];
    }
    assert Contains(s, sep) by { assert OccursAt(s, sep, i); }
    var parts := [s[..i]] + rest;
    assert parts[0] == s[..i] && parts[1..] == rest;
    assert forall k :: 1 <= k < |parts| ==> parts[k] == rest[k - 1];
  }

  /** A character absent from `s` occurs nowhere in it as a one-character separator. */
  lemma AbsentChar(s: string, c: char)
    requires c !in s
    ensures !Contains(s, [c])
  {
    forall j: nat | j < |s| ensures !OccursAt(s, [c], j) { assert s[j..j + 1][0] == s[j] != c; }
  }

  /** Splitting at a one-character separator: the text before its first occurrence is the first piece. */
  lemma SplitFirst(a: string, b: string, c: char)
    requires c !in a
    ensures Split(a + [c] + b, [c]) == [a] + Split(b, [c])
  {
    var s := a + [c] + b;
    assert OccursAt(s, [c], |a|) by { assert s[|a|..|a| + 1] == [c]; }
    forall j: nat | j < |a| ensures !OccursAt(s, [c], j) {
      assert s[j..j + 1][0] == s[j] == a[j] != c;
    }
    assert Index(s, [c]) == Some(|a|);
    assert s[|a| + 1..] == b;
    assert s[..|a|] == a;
  }

  /** Splitting at a one-character separator that occurs exactly once gives the two sides. */
  lemma SplitAtOnly(a: string, b: string, c: char)
    requires c !in a && c !in b
    ensures Split(a + [c] + b, [c]) == [a, b]
  {
    SplitFirst(a, b, c);
    AbsentChar(b, c);
  }

  /**
   * Go's `strings.SplitAfter(s, sep)` for a non-empty separator: like `Split`,
   * but every piece except the last keeps its trailing `sep`.
   */
  function SplitAfter(s: string, sep: string): (parts: seq<string>)
    requires sep != ""
    ensures |parts| >= 1
    ensures Concat(parts) == s
    ensures |parts| == 1 <==> !Contains(s, sep)
    decreases |s|
  {
    match Index(s, sep)
    case None => [s]
    case Some(i) =>
      assert Contains(s, sep) by { assert OccursAt(s, sep, i); }
      var piece := s[..i + |sep|];
      var rest := SplitAfter(s[i + |sep|..], sep);
      assert piece + s[i + |sep|..] == s;
      var parts := [piece] + rest;
      assert parts[0] == piece && parts[1..] == rest;
      parts
  }

  function Concat(parts: seq<string>): string {
    if |parts| == 0 then "" else parts[0] + Concat(parts[1..])
  }

  /** The first piece of `SplitAfter` ends with the first occurrence of `sep`. */
  lemma SplitAfterFirst(s: string, sep: string)
    requires sep != "" && Contains(s, sep)
    ensures |SplitAfter(s, sep)| >= 2
    ensures SplitAfter(s, sep)[0] == s[..Index(s, sep).value + |sep|]
  {
  }

  // ----- strings.TrimSpace -----

  /** Go's `unicode.IsSpace`. */
  predicate IsSpace(c: char) {
    var n := c as int;
    (9 <= n <= 13) || n == 32 || n == 0x85 || n == 0xA0 || n == 0x1680
    || (0x2000 <= n <= 0x200A) || n == 0x2028 || n == 0x2029 || n == 0x202F
    || n == 0x205F || n == 0x3000
  }

  function TrimLeft(s: string): (r: string)
    ensures |r| <= |s| && r == s[|s| - |r|..]
    ensures r == [] || !IsSpace(r[0])
    ensures forall i :: 0 <= i < |s| - |r| ==> IsSpace(s[i])
  {
    if s != [] && IsSpace(s[0]) then
      var r := TrimLeft(s[1..]);
      assert forall i :: 1 <= i < |s| - |r| ==> s[i] == s[1..][i - 1];
      r
    else s
  }

  function TrimRight(s: string): (r: string)
    ensures |r| <= |s| && r == s[..|r|]
    ensures r == [] || !IsSpace(r[|r| - 1])
    ensures forall i :: |r| <= i < |s| ==> IsSpace(s[i])
  {
    if s != [] && IsSpace(s[|s| - 1]) then
      var r := TrimRight(s[..|s| - 1]);
      assert forall i :: |r| <= i < |s| - 1 ==> s[i] == s[..|s| - 1][i];
      r
    else s
  }

  /**
   * Go's `strings.TrimSpace`: `s` with its leading white space dropped one
   * character at a time, then its trailing white space.
   */
  function TrimSpace(s: string): string {
    if s != [] && IsSpace(s[0]) then TrimSpace(s[1..]) else TrimRight(s)
  }

  lemma {:induction false} TrimSpaceBothEnds(s: string)
    ensures TrimSpace(s) == TrimRight(TrimLeft(s))
  {
    if s != [] && IsSpace(s[0]) {
      TrimSpaceBothEnds(s[1..]);
    }
  }

  /**
   * `TrimSpace(s)` occurs in `s`, neither starts nor ends with white space,
   * and is empty exactly when `s` is all white space.
   */
  lemma TrimSpaceTrims(s: string)
    ensures var r := TrimSpace(s); r == [] || (!IsSpace(r[0]) && !IsSpace(r[|r| - 1]))
    ensures Contains(s, TrimSpace(s))
    ensures TrimSpace(s) == [] <==> forall i :: 0 <= i < |s| ==> IsSpace(s[i])
  {
    TrimSpaceBothEnds(s);
    var l := TrimLeft(s);
    var r := TrimRight(l);
    assert OccursAt(s, r, |s| - |l|) by {
      assert s[|s| - |l|..][..|r|] == r;
    }
    if r == [] {
      assert l == [];
      assert forall i :: 0 <= i < |s| ==> IsSpace(s[i]);
    } else {
      assert !IsSpace(l[0]);
      if forall i :: 0 <= i < |s| ==> IsSpace(s[i]) {
        assert false;
      }
    }
  }

  /** `%q` of a string without characters that need escaping: the string in double quotes. */
  function Quote(s: string): string {
    ['"'] + s + ['"']
  }

  // ----- decimal and hexadecimal formatting -----

  function DigitChar(d: nat): char
    requires d < 10
  {
    (48 + d) as char
  }

  predicate IsDigit(c: char) {
    '0' <= c <= '9'
  }

  function DigitValue(c: char): (d: nat)
    requires IsDigit(c)
    ensures d < 10 && DigitChar(d) == c
  {
    (c as int - 48) as nat
  }

  /** The decimal digits of `n`, without leading zeros (`strconv.Itoa` on non-negative values). */
  function NatToDecimal(n: nat): (r: string)
    ensures |r| >= 1 && forall i :: 0 <= i < |r| ==> IsDigit(r[i])
    ensures n > 0 ==> r[0] != '0'
  {
    if n < 10 then [DigitChar(n)] else NatToDecimal(n / 10) + [DigitChar(n % 10)]
  }

  /** `strconv.Itoa` / `%d`. */
  function IntToDecimal(x: int): string {
    if x < 0 then "-" + NatToDecimal(-x) else NatToDecimal(x)
  }

  /** `fmt`'s `%0*d` for a non-negative value: the digits left-padded with '0' to `width`. */
  function ZeroPad(n: nat, width: int): (r: string)
    ensures |r| == if width > |NatToDecimal(n)| then width else |NatToDecimal(n)|
    ensures forall i :: 0 <= i < |r| ==> IsDigit(r[i])
    ensures DecimalValue(r) == n
  {
    var d := NatToDecimal(n);
    var pad := if width > |d| then width - |d| else 0;
    var zeros := seq(pad, _ => '0');
    DecimalOfLeadingZeros(zeros, d);
    DecimalOfNat(n);
    zeros + d
  }

  /** The value of a string of decimal digits, read most significant digit first. */
  function DecimalValue(t: string): nat
    requires forall i :: 0 <= i < |t| ==> IsDigit(t[i])
  {
    if t == [] then 0 else DecimalValue(t[..|t| - 1]) * 10 + DigitValue(t[|t| - 1])
  }

  function Pow10(k: nat): (r: nat)
    ensures r >= 1
  {
    if k == 0 then 1 else 10 * Pow10(k - 1)
  }

  lemma {:induction false} DecimalOfNat(n: nat)
    ensures DecimalValue(NatToDecimal(n)) == n
  {
    if n >= 10 {
      var t := NatToDecimal(n);
      assert t[..|t| - 1] == NatToDecimal(n / 10);
      DecimalOfNat(n / 10);
    }
  }

  lemma {:induction false} DecimalOfLeadingZeros(zeros: string, d: string)
    requires forall i :: 0 <= i < |zeros| ==> zeros[i] == '0'
    requires forall i :: 0 <= i < |d| ==> IsDigit(d[i])
    ensures DecimalValue(zeros + d) == DecimalValue(d)
    decreases |d|
  {
    if d == [] {
      assert zeros + d == zeros;
      AllZerosValue(zeros);
    } else {
      var zd := zeros + d;
      assert zd[..|zd| - 1] == zeros + d[..|d| - 1];
      DecimalOfLeadingZeros(zeros, d[..|d| - 1]);
    }
  }

  lemma {:induction false} AllZerosValue(zeros: string)
    requires forall i :: 0 <= i < |zeros| ==> zeros[i] == '0'
    ensures forall i :: 0 <= i < |zeros| ==> IsDigit(zeros[i])
    ensures DecimalValue(zeros) == 0
    decreases |zeros|
  {
    if zeros != [] { AllZerosValue(zeros[..|zeros| - 1]); }
  }

  /** Lower-case hexadecimal digit. */
  function HexDigit(d: nat): char
    requires d < 16
  {
    if d < 10 then (48 + d) as char else (87 + d) as char
  }

  predicate IsLowerHex(c: char) {
    ('0' <= c <= '9') || ('a' <= c <= 'f')
  }

  function HexValue(c: char): (d: nat)
    requires IsLowerHex(c)
    ensures d < 16 && HexDigit(d) == c
  {
    if c <= '9' then (c as int - 48) as nat else (c as int - 87) as nat
  }

  /** ASCII upper-casing, which is what `strings.ToUpper` does to a hexadecimal MAC. */
  function ToUpper(s: string): (r: string)
    ensures |r| == |s|
  {
    seq(|s|, i requires 0 <= i < |s| => if 'a' <= s[i] <= 'z' then (s[i] as int - 32) as char else s[i])
  }

  // ----- strconv.Atoi -----

  const MaxUint64: nat := 0xFFFF_FFFF_FFFF_FFFF

  /** Outcome of scanning the digits of an unsigned decimal (`strconv.ParseUint`). */
  datatype Scan = Value(n: nat) | Syntax | Range

  /**
   * `ParseUint(t, 10, 64)`'s digit loop: left to right, a non-digit is a syntax
   * error, and the first digit that would take the value past 2^64-1 stops the
   * scan with a range error (characters after it are not looked at).
   */
  function ScanDigits(t: string, acc: nat): (r: Scan)
    requires acc <= MaxUint64
    ensures r.Value? ==> r.n <= MaxUint64
  {
    if t == [] then Value(acc)
    else if !IsDigit(t[0]) then Syntax
    else if acc * 10 + DigitValue(t[0]) > MaxUint64 then Range
    else ScanDigits(t[1..], acc * 10 + DigitValue(t[0]))
  }

  /**
   * The integer `strconv.Atoi(s)` returns on a 64-bit platform, whatever its
   * error: 0 on a syntax error (empty input, a lone sign, a non-digit), the
   * nearest 64-bit bound on a range error, the value otherwise.
   */
  function Atoi(s: string): (r: int)
    ensures -0x8000_0000_0000_0000 <= r < 0x8000_0000_0000_0000
  {
    if s == [] then 0
    else
      var neg := s[0] == '-';
      var t := if s[0] == '-' || s[0] == '+' then s[1..] else s;
      if t == [] then 0
      else
        match ScanDigits(t, 0)
        case Syntax => 0
        case Range => if neg then -0x8000_0000_0000_0000 else 0x7FFF_FFFF_FFFF_FFFF
        case Value(u) =>
          if !neg then (if u >= 0x8000_0000_0000_0000 then 0x7FFF_FFFF_FFFF_FFFF else u)
          else (if u > 0x8000_0000_0000_0000 then -0x8000_0000_0000_0000 else 0 - (u as int))
  }

  /** A string that does not start with a digit after its optional sign parses as 0. */
  lemma AtoiNoLeadingDigit(s: string)
    requires s == [] || (!IsDigit(s[0]) && s[0] != '-' && s[0] != '+')
             || (|s| >= 1 && (s[0] == '-' || s[0] == '+') && (|s| == 1 || !IsDigit(s[1])))
    ensures Atoi(s) == 0
  {
  }

  lemma {:induction false} DecimalValueFront(t: string)
    requires |t| >= 1 && forall i :: 0 <= i < |t| ==> IsDigit(t[i])
    ensures DecimalValue(t) == DigitValue(t[0]) * Pow10(|t| - 1) + DecimalValue(t[1..])
    decreases |t|
  {
    if |t| > 1 {
      var n := |t|;
      var u := t[..n - 1];
      var d0, dl := DigitValue(t[0]), DigitValue(t[n - 1]);
      DecimalValueFront(u);
      assert u[0] == t[0];
      assert u[1..] == t[1..][..n - 2];
      assert t[1..][n - 2] == t[n - 1];
      var p := Pow10(n - 2);
      var w := DecimalValue(u[1..]);
      assert DecimalValue(u) == d0 * p + w;
      assert DecimalValue(t[1..]) == w * 10 + dl;
      assert Pow10(n - 1) == 10 * p;
      assert DecimalValue(t) == DecimalValue(u) * 10 + dl;
      DistribTen(d0, p, w, dl);
      assert DecimalValue(t) == d0 * (10 * p) + (w * 10 + dl);
    }
  }

  lemma DistribTen(d0: nat, p: nat, w: nat, dl: nat)
    ensures (d0 * p + w) * 10 + dl == d0 * (10 * p) + (w * 10 + dl)
  {
  }

  lemma Regroup(acc: nat, d: nat, p: nat, w: nat)
    ensures acc * (10 * p) + (d * p + w) == (acc * 10 + d) * p + w
  {
  }

  lemma MulAtLeast(a: nat, b: nat)
    requires b >= 1
    ensures a <= a * b
  {
  }

  lemma {:induction false} ScanAllDigits(t: string, acc: nat)
    requires forall i :: 0 <= i < |t| ==> IsDigit(t[i])
    requires acc * Pow10(|t|) + DecimalValue(t) <= MaxUint64
    ensures ScanDigits(t, acc) == Value(acc * Pow10(|t|) + DecimalValue(t))
    decreases |t|
  {
    if t != [] {
      var d := DigitValue(t[0]);
      DecimalValueFront(t);
      var acc' := acc * 10 + d;
      var n := |t| - 1;
      var p := Pow10(n);
      var w := DecimalValue(t[1..]);
      assert Pow10(|t|) == 10 * p;
      Regroup(acc, d, p, w);
      assert acc * Pow10(|t|) + DecimalValue(t) == acc' * p + w;
      MulAtLeast(acc', p);
      assert acc' <= MaxUint64;
      ScanAllDigits(t[1..], acc');
      assert ScanDigits(t, acc) == ScanDigits(t[1..], acc');
    }
  }

  /** The digits of a number scan back to the number. */
  lemma ScanDecimal(m: nat)
    requires m <= MaxUint64
    ensures ScanDigits(NatToDecimal(m), 0) == Value(m)
  {
    var d := NatToDecimal(m);
    DecimalOfNat(m);
    assert 0 * Pow10(|d|) + DecimalValue(d) == m;
    ScanAllDigits(d, 0);
  }

  /** `strconv.Atoi` reads back what `strconv.Itoa` writes, for every 64-bit integer. */
  lemma AtoiOfDecimal(x: int)
    requires -0x8000_0000_0000_0000 <= x < 0x8000_0000_0000_0000
    ensures Atoi(IntToDecimal(x)) == x
  {
    var m: nat := if x < 0 then -x else x;
    var d := NatToDecimal(m);
    ScanDecimal(m);
    var s := IntToDecimal(x);
    if x < 0 {
      assert s == "-" + d;
      assert s[0] == '-' && s[1..] == d;
    } else {
      assert s == d && IsDigit(d[0]);
    }
  }
}
