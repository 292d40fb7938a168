/**
 The string primitives the scripts rely on, restated for `seq<char>`:
 ASCII case mapping (Python's `lower`/`upper`), `strip`, `find`/`rfind`,
 `in` on strings, `startswith`/`endswith`, `split`, `rsplit` and `join`.
 Case mapping and whitespace are the ASCII subset of Python's Unicode rules.
 */
module Text {

  /* ---------------------------------------------------------------- case */

  predicate IsUpperChar(c: char) { 'A' <= c <= 'Z' }

  function LowerChar(c: char): char {
    if IsUpperChar(c) then (c as int + 32) as char else c
  }

  function UpperChar(c: char): char {
    if 'a' <= c <= 'z' then (c as int - 32) as char else c
  }

  /** `s.lower()` on ASCII letters; every other character is kept. */
  function Lower(s: string): (r: string)
    ensures |r| == |s|
    ensures forall i :: 0 <= i < |s| ==> r[i] == LowerChar(s[i])
  {
    if |s| == 0 then [] else [LowerChar(s[0])] + Lower(s[1..])
  }

  /** `s.upper()` on ASCII letters. */
  function Upper(s: string): (r: string)
    ensures |r| == |s|
    ensures forall i :: 0 <= i < |s| ==> r[i] == UpperChar(s[i])
  {
    if |s| == 0 then [] else [UpperChar(s[0])] + Upper(s[1..])
  }

  /** A string already in lower case: it holds no upper-case ASCII letter. */
  predicate IsLower(s: string) {
    forall i :: 0 <= i < |s| ==> !IsUpperChar(s[i])
  }

  /** Lower-casing yields a lower-case string, and fixes exactly the lower-case strings. */
  lemma LowerIsLower(s: string)
    ensures IsLower(Lower(s))
    ensures IsLower(s) <==> Lower(s) == s
  {
    if Lower(s) == s {
      forall i | 0 <= i < |s| ensures !IsUpperChar(s[i]) {
        assert Lower(s)[i] == s[i];
      }
    }
  }

  lemma LowerAppend(a: string, b: string)
    ensures Lower(a + b) == Lower(a) + Lower(b)
  {
    assert forall i :: 0 <= i < |a + b| ==> Lower(a + b)[i] == (Lower(a) + Lower(b))[i];
  }

  /** Lower-casing around a character that is not a letter keeps that character in place. */
  lemma LowerAround(a: string, c: char, b: string)
    requires !IsUpperChar(c) && !('a' <= c <= 'z')
    ensures Lower(a + [c] + b) == Lower(a) + [c] + Lower(b)
  {
    LowerAppend(a + [c], b);
    LowerAppend(a, [c]);
    assert Lower([c])[0] == LowerChar(c);
  }

  lemma IsLowerAppend(a: string, b: string)
    requires IsLower(a) && IsLower(b)
    ensures IsLower(a + b)
  {
    assert forall i :: 0 <= i < |b| ==> (a + b)[|a| + i] == b[i];
  }

  /* ---------------------------------------------------------- whitespace */

  /** Python's `str.isspace` on the ASCII range: space, \t \n \v \f \r and \x1c-\x1f. */
  predicate IsSpace(c: char) {
    c == ' ' || 9 <= c as int <= 13 || 28 <= c as int <= 31
  }

  predicate AllSpace(s: string) {
    forall i :: 0 <= i < |s| ==> IsSpace(s[i])
  }

  /** No whitespace at either end: the shape of anything `strip` returns. */
  predicate Trimmed(s: string) {
    |s| == 0 || (!IsSpace(s[0]) && !IsSpace(s[|s| - 1]))
  }

  function LeadingSpace(s: string): (n: nat)
    ensures n <= |s|
    ensures forall i :: 0 <= i < n ==> IsSpace(s[i])
    ensures n < |s| ==> !IsSpace(s[n])
  {
    if |s| > 0 && IsSpace(s[0]) then 1 + LeadingSpace(s[1..]) else 0
  }

  function TrailingSpace(s: string): (n: nat)
    ensures n <= |s|
    ensures forall i :: |s| - n <= i < |s| ==> IsSpace(s[i])
    ensures n < |s| ==> !IsSpace(s[|s| - n - 1])
  {
    if |s| > 0 && IsSpace(s[|s| - 1]) then 1 + TrailingSpace(s[..|s| - 1]) else 0
  }

  /**
   `s.strip()`: the infix `s[a..b]` left after removing whitespace from both
   ends, returned with its bounds so that callers can relate it to `s`.
   */
  function StripBounds(s: string): (r: (nat, nat))
    ensures r.0 <= r.1 <= |s|
    ensures forall i :: 0 <= i < r.0 ==> IsSpace(s[i])
    ensures forall i :: r.1 <= i < |s| ==> IsSpace(s[i])
    ensures Trimmed(s[r.0..r.1])
  {
    var a := LeadingSpace(s);
    if a == |s| then (a, a)
    else
      var t := TrailingSpace(s[a..]);
      (a, |s| - t)
  }

  function Strip(s: string): (r: string)
    ensures Trimmed(r)
    ensures |r| <= |s|
  {
    var (a, b) := StripBounds(s);
    s[a..b]
  }

  /** Stripping a string that has no whitespace at its ends changes nothing. */
  lemma StripTrimmed(s: string)
    requires Trimmed(s)
    ensures Strip(s) == s
  {
  }

  lemma StripIdempotent(s: string)
    ensures Strip(Strip(s)) == Strip(s)
  {
    StripTrimmed(Strip(s));
  }

  /* --------------------------------------------------------------- search */

  /** `sub` occurs in `s` starting at index `i`. */
  predicate IsAt(s: string, sub: string, i: int) {
    0 <= i && i + |sub| <= |s| && s[i..i + |sub|] == sub
  }

  /** Python's `sub in s` for strings. */
  predicate Contains(s: string, sub: string) {
    exists i :: 0 <= i <= |s| - |sub| && IsAt(s, sub, i)
  }

  predicate StartsWith(s: string, p: string) {
    |p| <= |s| && s[..|p|] == p
  }

  predicate EndsWith(s: string, p: string) {
    |p| <= |s| && s[|s| - |p|..] == p
  }

  function FindFrom(s: string, sub: string, from: nat): (r: int)
    decreases |s| - from
    ensures r == -1 || (from <= r && IsAt(s, sub, r))
    ensures r == -1 ==> forall j :: from <= j ==> !IsAt(s, sub, j)
    ensures forall j :: from <= j < r ==> !IsAt(s, sub, j)
  {
    if from + |sub| > |s| then -1
    else if s[from..from + |sub|] == sub then from
    else FindFrom(s, sub, from + 1)
  }

  /** `s.find(sub)`: the first index where `sub` occurs, or -1. */
  function Find(s: string, sub: string): (r: int)
    ensures r == -1 <==> !Contains(s, sub)
    ensures r != -1 ==> IsAt(s, sub, r) && forall j :: 0 <= j < r ==> !IsAt(s, sub, j)
  {
    FindFrom(s, sub, 0)
  }

  function RFindBelow(s: string, sub: string, i: int): (r: int)
    requires i + |sub| <= |s|
    decreases i + 1
    ensures r == -1 || (0 <= r <= i && IsAt(s, sub, r))
    ensures r == -1 ==> forall j :: j <= i ==> !IsAt(s, sub, j)
    ensures forall j :: r < j <= i ==> !IsAt(s, sub, j)
  {
    if i < 0 then -1
    else if s[i..i + |sub|] == sub then i
    else RFindBelow(s, sub, i - 1)
  }

  /** `s.rfind(sub)`: the last index where `sub` occurs, or -1. */
  function RFind(s: string, sub: string): (r: int)
    ensures r == -1 <==> !Contains(s, sub)
    ensures r != -1 ==> IsAt(s, sub, r) && forall j :: r < j ==> !IsAt(s, sub, j)
  {
    if |sub| > |s| then -1 else RFindBelow(s, sub, |s| - |sub|)
  }

  /** Lower-casing neither creates nor removes a character that is not a letter. */
  lemma LowerKeepsChar(s: string, c: char)
    requires !IsUpperChar(c) && !('a' <= c <= 'z')
    ensures Contains(Lower(s), [c]) <==> Contains(s, [c])
  {
    if Contains(s, [c]) {
      var i :| 0 <= i <= |s| - 1 && IsAt(s, [c], i);
      assert s[i] == s[i..i + 1][0];
      assert Lower(s)[i..i + 1] == [c];
      assert IsAt(Lower(s), [c], i);
    }
    if Contains(Lower(s), [c]) {
      var i :| 0 <= i <= |s| - 1 && IsAt(Lower(s), [c], i);
      assert Lower(s)[i] == Lower(s)[i..i + 1][0];
      assert s[i..i + 1] == [c];
      assert IsAt(s, [c], i);
    }
  }

  /* ---------------------------------------------------- split and join */

  /** `sep.join(xs)`. */
  function Join(xs: seq<string>, sep: string): string
  {
    if |xs| == 0 then ""
    else if |xs| == 1 then xs[0]
    else xs[0] + sep + Join(xs[1..], sep)
  }

  /** An occurrence inside `s[..i]` or `s[k..]` is an occurrence in `s`, shifted. */
  lemma IsAtPrefix(s: string, sub: string, i: nat, j: int)
    requires i <= |s| && IsAt(s[..i], sub, j)
    ensures IsAt(s, sub, j)
  {
    assert s[j..j + |sub|] == s[..i][j..j + |sub|];
  }

  lemma IsAtSuffix(s: string, sub: string, k: nat, j: int)
    requires k <= |s| && IsAt(s[k..], sub, j)
    ensures IsAt(s, sub, k + j)
  {
    assert s[k + j..k + j + |sub|] == s[k..][j..j + |sub|];
  }

  /** No occurrence starts before `i`, so none lies inside `s[..i]`. */
  lemma NothingBefore(s: string, sub: string, i: nat)
    requires |sub| > 0 && i <= |s|
    requires forall j :: 0 <= j < i ==> !IsAt(s, sub, j)
    ensures !Contains(s[..i], sub)
  {
    if Contains(s[..i], sub) {
      var j :| IsAt(s[..i], sub, j);
      IsAtPrefix(s, sub, i, j);
    }
  }

  /** No occurrence starts at or after `k`, so none lies inside `s[k..]`. */
  lemma NothingAfter(s: string, sub: string, k: nat)
    requires k <= |s|
    requires forall j :: k <= j ==> !IsAt(s, sub, j)
    ensures !Contains(s[k..], sub)
  {
    if Contains(s[k..], sub) {
      var j :| IsAt(s[k..], sub, j);
      IsAtSuffix(s, sub, k, j);
    }
  }

  /** `s.split(sep, 1)` when `sep` occurs: the text before and after its first occurrence. */
  function SplitOnce(s: string, sep: string): (r: (string, string))
    requires |sep| > 0 && Contains(s, sep)
    ensures r.0 + sep + r.1 == s
    ensures !Contains(r.0, sep)
    ensures |r.0| == Find(s, sep)
  {
    var i := Find(s, sep);
    assert s == s[..i] + s[i..i + |sep|] + s[i + |sep|..];
    NothingBefore(s, sep, i);
    (s[..i], s[i + |sep|..])
  }

  /** `s.rsplit(sep, 1)` when `sep` occurs: the text before and after its last occurrence. */
  function RSplitOnce(s: string, sep: string): (r: (string, string))
    requires |sep| > 0 && Contains(s, sep)
    ensures r.0 + sep + r.1 == s
    ensures !Contains(r.1, sep)
  {
    var i := RFind(s, sep);
    assert s == s[..i] + s[i..i + |sep|] + s[i + |sep|..];
    NothingAfter(s, sep, i + |sep|);
    (s[..i], s[i + |sep|..])
  }

  /**
   `s.split(sep)` for a non-empty separator: the pieces between successive
   non-overlapping occurrences, scanning from the left.
   */
  function Split(s: string, sep: string): (r: seq<string>)
    requires |sep| > 0
    decreases |s|
    ensures |r| >= 1
    ensures Join(r, sep) == s
    ensures forall k :: 0 <= k < |r| ==> !Contains(r[k], sep)
  {
    if !Contains(s, sep) then [s]
    else
      var (before, after) := SplitOnce(s, sep);
      var rest := Split(after, sep);
      var r := [before] + rest;
      assert r[1..] == rest;
      r
  }

  /** `s.split(sep)[0]`: the text before the first separator, or all of `s`. */
  function UpTo(s: string, sep: string): (r: string)
    requires |sep| > 0
    ensures !Contains(r, sep)
    ensures StartsWith(s, r)
  {
    if Contains(s, sep) then
      var (before, after) := SplitOnce(s, sep);
      assert s[..|before|] == before;
      before
    else s
  }

  /** What follows `UpTo(s, sep)`: empty, or the first separator and all after it. */
  function AfterHead(s: string, sep: string): (r: string)
    requires |sep| > 0
    ensures s == UpTo(s, sep) + r
    ensures r == "" || StartsWith(r, sep)
  {
    if Contains(s, sep) then
      var r := sep + SplitOnce(s, sep).1;
      assert r[..|sep|] == sep;
      r
    else ""
  }

  lemma SplitHead(s: string, sep: string)
    requires |sep| > 0
    ensures Split(s, sep)[0] == UpTo(s, sep)
  {
  }

  /** `s.split(sep)[1]` when `sep` occurs: the text after the first separator, up to the next one. */
  lemma SplitSecond(s: string, sep: string)
    requires |sep| > 0 && Contains(s, sep)
    ensures |Split(s, sep)| >= 2
    ensures Split(s, sep)[1] == UpTo(SplitOnce(s, sep).1, sep)
  {
  }

  lemma StartsWithExtend(a: string, b: string, p: string)
    requires StartsWith(a, p)
    ensures StartsWith(a + b, p)
  {
    assert (a + b)[..|p|] == a[..|p|];
  }

  lemma StartsWithTransitive(a: string, b: string, p: string)
    requires StartsWith(a, b) && StartsWith(b, p)
    ensures StartsWith(a, p)
  {
    assert a[..|p|] == a[..|b|][..|p|];
  }

  /** `s[:n]` for a non-negative `n`. */
  function Take(s: string, n: nat): (r: string)
    ensures |r| <= n && |r| <= |s|
    ensures |r| == if |s| <= n then |s| else n
    ensures StartsWith(s, r)
    ensures |s| <= n ==> r == s
  {
    if |s| <= n then s else s[..n]
  }

  /** A string contains every infix of itself. */
  lemma ContainsInfix(a: string, b: string, c: string)
    ensures Contains(a + b + c, b)
  {
    assert (a + b + c)[|a|..|a| + |b|] == b;
    assert IsAt(a + b + c, b, |a|);
  }

  /** Text around a string keeps whatever that string contains. */
  lemma ContainsWithin(a: string, b: string, c: string, sub: string)
    requires Contains(b, sub)
    ensures Contains(a + b + c, sub)
  {
    var i :| 0 <= i <= |b| - |sub| && IsAt(b, sub, i);
    assert (a + b + c)[|a| + i..|a| + i + |sub|] == b[i..i + |sub|];
    assert IsAt(a + b + c, sub, |a| + i);
  }

  /** Every piece of `sep.join(xs)` occurs in it. */
  lemma {:induction false} JoinContains(xs: seq<string>, sep: string, k: nat)
    requires k < |xs|
    ensures Contains(Join(xs, sep), xs[k])
  {
    if |xs| == 1 {
      ContainsInfix("", xs[0], "");
      assert "" + xs[0] + "" == xs[0];
    } else if k == 0 {
      ContainsInfix("", xs[0], sep + Join(xs[1..], sep));
      assert "" + xs[0] + (sep + Join(xs[1..], sep)) == Join(xs, sep);
    } else {
      JoinContains(xs[1..], sep, k - 1);
      ContainsWithin(xs[0] + sep, Join(xs[1..], sep), "", xs[k]);
      assert xs[0] + sep + Join(xs[1..], sep) + "" == Join(xs, sep);
    }
  }

  /** `s.split(p, 1)[1]` when `s` starts with `p` is what follows that prefix. */
  lemma SplitOnceAtStart(s: string, p: string)
    requires |p| > 0 && StartsWith(s, p)
    ensures Contains(s, p) && SplitOnce(s, p).1 == s[|p|..]
  {
    assert IsAt(s, p, 0);
  }

  /** `(x + sep + y).split(sep)[0]` is `x` when `x` never holds the separator's first character. */
  lemma UpToBeforeFirst(x: string, sep: string, y: string)
    requires |sep| > 0
    requires forall i :: 0 <= i < |x| ==> x[i] != sep[0]
    ensures UpTo(x + sep + y, sep) == x
  {
    var s := x + sep + y;
    assert IsAt(s, sep, |x|) by { assert s[|x|..|x| + |sep|] == sep; }
    forall j | 0 <= j < |x| ensures !IsAt(s, sep, j) {
      assert s[j] == x[j];
    }
    assert Find(s, sep) == |x|;
    var (before, after) := SplitOnce(s, sep);
    assert s[..|x|] == before;
    assert s[..|x|] == x;
  }

  /** A separator cannot start inside `x` and is longer than what follows it. */
  lemma AbsentPast(x: string, f: string, sep: string)
    requires |f| < |sep|
    requires forall i :: 0 <= i < |x| ==> x[i] != sep[0]
    ensures !Contains(x + f, sep)
  {
    var s := x + f;
    forall j | 0 <= j <= |s| - |sep| ensures !IsAt(s, sep, j) {
      assert s[j] == x[j];
      assert s[j..j + |sep|][0] == s[j];
    }
  }

  /** `s.rsplit(p, 1)[0]` when `s` ends with `p` is what precedes that suffix. */
  lemma RSplitOnceAtEnd(s: string, p: string)
    requires |p| > 0 && EndsWith(s, p)
    ensures Contains(s, p) && RSplitOnce(s, p).0 == s[..|s| - |p|]
  {
    assert IsAt(s, p, |s| - |p|);
  }

  /* -------------------------------------------------------------- digits */

  /** The ASCII subset of regex `\d`. */
  predicate IsDigit(c: char) { '0' <= c <= '9' }

  predicate AllDigits(s: string) {
    forall i :: 0 <= i < |s| ==> IsDigit(s[i])
  }

  /** Length of the longest run of digits at the start of `s` (what a greedy `\d+` consumes). */
  function LeadingDigits(s: string): (n: nat)
    ensures n <= |s|
    ensures forall i :: 0 <= i < n ==> IsDigit(s[i])
    ensures n < |s| ==> !IsDigit(s[n])
  {
    if |s| > 0 && IsDigit(s[0]) then 1 + LeadingDigits(s[1..]) else 0
  }

  function DigitChar(d: nat): (c: char)
    requires d < 10
    ensures IsDigit(c)
  {
    (d + '0' as int) as char
  }

  /** `str(n)` for a natural number: its decimal digits without leading zeros. */
  function DecimalText(n: nat): (r: string)
    ensures |r| > 0 && AllDigits(r)
    ensures r[0] == '0' ==> n == 0
  {
    if n < 10 then [DigitChar(n)]
    else DecimalText(n / 10) + [DigitChar(n % 10)]
  }

  /** `int(s)` for a string of decimal digits. */
  function DigitsValue(s: string): nat
    requires AllDigits(s)
  {
    if |s| == 0 then 0
    else DigitsValue(s[..|s| - 1]) * 10 + (s[|s| - 1] as int - '0' as int)
  }

  /** Reading back the decimal text of `n` gives `n`. */
  lemma {:induction false} DecimalRoundTrip(n: nat)
    ensures DigitsValue(DecimalText(n)) == n
  {
    if n >= 10 {
      var t := DecimalText(n / 10);
      DecimalRoundTrip(n / 10);
      assert (t + [DigitChar(n % 10)])[..|t|] == t;
    }
  }
}
