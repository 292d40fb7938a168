/**
 Python's ordering of `str` values (lexicographic by code point, a proper
 prefix first), the `min` of a non-empty collection of strings, and
 `sorted` applied to directory entries, which compares their names.
 */
module Ordering {

  /** `a <= b` on Python strings. */
  predicate LexLe(a: string, b: string)
    decreases |a|
  {
    |a| == 0 || (|b| > 0 && (a[0] < b[0] || (a[0] == b[0] && LexLe(a[1..], b[1..]))))
  }

  lemma {:induction false} LexLeReflexive(a: string)
    ensures LexLe(a, a)
    decreases |a|
  {
    if |a| > 0 {
      LexLeReflexive(a[1..]);
    }
  }

  lemma {:induction false} LexLeTotal(a: string, b: string)
    ensures LexLe(a, b) || LexLe(b, a)
    decreases |a|
  {
    if |a| > 0 && |b| > 0 && a[0] == b[0] {
      LexLeTotal(a[1..], b[1..]);
    }
  }

  lemma {:induction false} LexLeAntisymmetric(a: string, b: string)
    requires LexLe(a, b) && LexLe(b, a)
    ensures a == b
    decreases |a|
  {
    if |a| > 0 {
      LexLeAntisymmetric(a[1..], b[1..]);
      assert a == [a[0]] + a[1..];
      assert b == [b[0]] + b[1..];
    }
  }

  lemma {:induction false} LexLeTransitive(a: string, b: string, c: string)
    requires LexLe(a, b) && LexLe(b, c)
    ensures LexLe(a, c)
    decreases |a|
  {
    if |a| > 0 && a[0] == b[0] && b[0] == c[0] {
      LexLeTransitive(a[1..], b[1..], c[1..]);
    }
  }

  /** `min(xs)` for a non-empty sequence of strings: the least element under `LexLe`. */
  function MinOf(xs: seq<string>): (m: string)
    requires |xs| > 0
    ensures m in xs
    ensures forall x :: x in xs ==> LexLe(m, x)
  {
    if |xs| == 1 then
      LexLeReflexive(xs[0]);
      xs[0]
    else
      var m := MinOf(xs[1..]);
      assert forall x :: x in xs ==> x == xs[0] || x in xs[1..];
      if LexLe(xs[0], m) then
        LexLeReflexive(xs[0]);
        forall x | x in xs[1..] ensures LexLe(xs[0], x) {
          LexLeTransitive(xs[0], m, x);
        }
        xs[0]
      else
        LexLeTotal(xs[0], m);
        m
  }

  /* ------------------------------------------------------------ sorting */

  /** Directory entries in ascending order of name, as `sorted` leaves paths of one directory. */
  predicate SortedByName<T>(xs: seq<(string, T)>) {
    forall i, j :: 0 <= i < j < |xs| ==> LexLe(xs[i].0, xs[j].0)
  }

  function Insert<T>(x: (string, T), xs: seq<(string, T)>): (r: seq<(string, T)>)
    requires SortedByName(xs)
    ensures SortedByName(r)
    ensures multiset(r) == multiset(xs) + multiset{x}
  {
    if |xs| == 0 then [x]
    else if LexLe(x.0, xs[0].0) then
      forall j | 0 <= j < |xs| ensures LexLe(x.0, xs[j].0) {
        if j > 0 {
          LexLeTransitive(x.0, xs[0].0, xs[j].0);
        }
      }
      [x] + xs
    else
      LexLeTotal(x.0, xs[0].0);
      var rest := Insert(x, xs[1..]);
      assert xs == [xs[0]] + xs[1..];
      forall j | 0 <= j < |rest| ensures LexLe(xs[0].0, rest[j].0) {
        assert rest[j] in multiset(rest);
        if rest[j] != x {
          assert rest[j] in multiset(xs[1..]);
          var k :| 0 <= k < |xs[1..]| && xs[1..][k] == rest[j];
          assert xs[k + 1] == rest[j];
        }
      }
      [xs[0]] + rest
  }

  /** `sorted(entries)` on distinct names: an ascending permutation of the listing. */
  function SortByName<T>(xs: seq<(string, T)>): (r: seq<(string, T)>)
    ensures SortedByName(r)
    ensures multiset(r) == multiset(xs)
  {
    if |xs| == 0 then []
    else
      assert xs == [xs[0]] + xs[1..];
      Insert(xs[0], SortByName(xs[1..]))
  }
}
