/**
 * Strings as JavaScript's comparator-less `Array.prototype.sort` orders
 * them: character by character, the first difference deciding, and a proper
 * prefix before the longer string. Also the two steps of
 * `[...new Set(xs)].sort()`: dropping repeats and sorting.
 */
module Strings {
  import opened Seqs

  /** The order of the suffixes `a[i..]` and `b[i..]`. */
  predicate LessFrom(a: string, b: string, i: nat)
    decreases |a| - i
  {
    if i >= |a| || i >= |b| then |a| < |b|
    else a[i] < b[i] || (a[i] == b[i] && LessFrom(a, b, i + 1))
  }

  /** `a` sorts strictly before `b`. */
  predicate Less(a: string, b: string) {
    LessFrom(a, b, 0)
  }

  lemma {:induction false} LessFromIrreflexive(a: string, i: nat)
    ensures !LessFrom(a, a, i)
    decreases |a| - i
  {
    if i < |a| { LessFromIrreflexive(a, i + 1); }
  }

  lemma {:induction false} LessFromTransitive(a: string, b: string, c: string, i: nat)
    requires LessFrom(a, b, i) && LessFrom(b, c, i)
    ensures LessFrom(a, c, i)
    decreases |a| - i
  {
    if i < |a| && i < |b| && i < |c| && a[i] == b[i] && b[i] == c[i] {
      LessFromTransitive(a, b, c, i + 1);
    }
  }

  lemma {:induction false} LessFromTotal(a: string, b: string, i: nat)
    requires i <= |a| && i <= |b| && a[i..] != b[i..]
    ensures LessFrom(a, b, i) || LessFrom(b, a, i)
    decreases |a| - i
  {
    if i < |a| && i < |b| && a[i] == b[i] {
      assert a[i..] == [a[i]] + a[i + 1..] && b[i..] == [b[i]] + b[i + 1..];
      LessFromTotal(a, b, i + 1);
    }
  }

  /** No string sorts before itself. */
  lemma LessIrreflexive(a: string)
    ensures !Less(a, a)
  {
    LessFromIrreflexive(a, 0);
  }

  /** The order is transitive. */
  lemma LessTransitive(a: string, b: string, c: string)
    requires Less(a, b) && Less(b, c)
    ensures Less(a, c)
  {
    LessFromTransitive(a, b, c, 0);
  }

  /** Of two different strings, one sorts before the other, and not both ways. */
  lemma LessTotal(a: string, b: string)
    ensures a != b <==> (Less(a, b) || Less(b, a))
    ensures !(Less(a, b) && Less(b, a))
  {
    if a != b {
      assert a[0..] == a && b[0..] == b;
      LessFromTotal(a, b, 0);
    } else {
      LessIrreflexive(a);
    }
    if Less(a, b) && Less(b, a) {
      LessTransitive(a, b, a);
      LessIrreflexive(a);
    }
  }

  /**
   * The lexicographic order written out: `a` is a proper prefix of `b`, or
   * at the first index where the two differ, `a` has the smaller character.
   */
  predicate Lexicographic(a: string, b: string) {
    (|a| < |b| && a == b[..|a|]) ||
    exists k :: 0 <= k < |a| && k < |b| && a[..k] == b[..k] && a[k] < b[k]
  }

  lemma {:induction false} LessFromLexicographic(a: string, b: string, i: nat)
    requires i <= |a| && i <= |b| && a[..i] == b[..i]
    ensures LessFrom(a, b, i) <==> Lexicographic(a, b)
    decreases |a| - i
  {
    forall k | 0 <= k < i ensures a[k] == b[k] {
      assert a[..i][k] == a[k] && b[..i][k] == b[k];
    }
    if i == |a| || i == |b| {
      if |a| < |b| {
        assert a == a[..i];
      }
    } else if a[i] == b[i] {
      assert a[..i + 1] == a[..i] + [a[i]] && b[..i + 1] == b[..i] + [b[i]];
      LessFromLexicographic(a, b, i + 1);
    } else if a[i] < b[i] {
      assert 0 <= i < |a| && i < |b| && a[..i] == b[..i] && a[i] < b[i];
    }
  }

  /** `Less` is the lexicographic order, a proper prefix sorting first. */
  lemma LessIsLexicographic(a: string, b: string)
    ensures Less(a, b) <==> Lexicographic(a, b)
  {
    LessFromLexicographic(a, b, 0);
  }

  /** Ascending, repeats allowed. */
  predicate Sorted(s: seq<string>) {
    forall i, j :: 0 <= i < j < |s| ==> !Less(s[j], s[i])
  }

  /** Strictly ascending. */
  predicate StrictlySorted(s: seq<string>) {
    forall i, j :: 0 <= i < j < |s| ==> Less(s[i], s[j])
  }

  /** A sorted list stays sorted under a head that sorts after none of it. */
  lemma ConsSorted(h: string, rest: seq<string>)
    requires Sorted(rest)
    requires forall k :: 0 <= k < |rest| ==> !Less(rest[k], h)
    ensures Sorted([h] + rest)
  {
    var s := [h] + rest;
    forall i, j | 0 <= i < j < |s| ensures !Less(s[j], s[i]) {
      assert s[j] == rest[j - 1];
      if i > 0 { assert s[i] == rest[i - 1]; }
    }
  }

  /**
   * When the head of a sorted list sorts before `x`, nothing in the rest of
   * the list or `x` sorts before that head.
   */
  lemma HeadBelowInserted(x: string, s: seq<string>, rest: seq<string>)
    requires Sorted(s) && s != [] && Less(s[0], x)
    requires multiset(rest) == multiset(s[1..]) + multiset{x}
    ensures forall k :: 0 <= k < |rest| ==> !Less(rest[k], s[0])
  {
    forall k | 0 <= k < |rest| ensures !Less(rest[k], s[0]) {
      assert rest[k] in multiset(rest);
      if rest[k] == x {
        LessTotal(s[0], x);
      } else {
        assert rest[k] in s[1..];
        var j :| 0 <= j < |s[1..]| && s[1..][j] == rest[k];
        assert s[1..][j] == s[j + 1];
      }
    }
  }

  /** When the head of a sorted list does not sort before `x`, no element does. */
  lemma NoneBelow(x: string, s: seq<string>)
    requires Sorted(s) && s != [] && !Less(s[0], x)
    ensures forall k :: 0 <= k < |s| ==> !Less(s[k], x)
  {
    forall k | 0 <= k < |s| ensures !Less(s[k], x) {
      if Less(s[k], x) {
        LessTotal(s[0], s[k]);
        if s[0] != s[k] { LessTransitive(s[0], s[k], x); }
      }
    }
  }

  /** Inserts `x` into a sorted list, after the elements that sort before it. */
  function Insert(x: string, s: seq<string>): (r: seq<string>)
    requires Sorted(s)
    ensures Sorted(r)
    ensures multiset(r) == multiset(s) + multiset{x}
  {
    if s == [] then [x]
    else if Less(s[0], x) then
      var rest := Insert(x, s[1..]);
      assert multiset(s) == multiset{s[0]} + multiset(s[1..]) by { assert s == [s[0]] + s[1..]; }
      HeadBelowInserted(x, s, rest);
      ConsSorted(s[0], rest);
      [s[0]] + rest
    else
      NoneBelow(x, s);
      ConsSorted(x, s);
      [x] + s
  }

  /** Sorts a list: an insertion sort. */
  function Sort(s: seq<string>): (r: seq<string>)
    ensures Sorted(r)
    ensures multiset(r) == multiset(s)
  {
    if s == [] then []
    else
      assert s == [s[0]] + s[1..];
      Insert(s[0], Sort(s[1..]))
  }

  /**
   * The elements of `s` in the order they first occur, each once: the
   * iteration order of a JavaScript `Set` built from `s`.
   */
  function Dedup(s: seq<string>): (r: seq<string>)
    ensures Distinct(r)
    ensures forall x :: x in r <==> x in s
  {
    if s == [] then []
    else
      var init, last := s[..|s| - 1], s[|s| - 1];
      assert s == init + [last];
      var d := Dedup(init);
      if last in d then d else d + [last]
  }

  /** A sorted list without repeats is strictly sorted. */
  lemma SortedDistinctIsStrict(s: seq<string>)
    requires Sorted(s) && Distinct(s)
    ensures StrictlySorted(s)
  {
    forall i, j | 0 <= i < j < |s| ensures Less(s[i], s[j]) {
      LessTotal(s[i], s[j]);
    }
  }

  /** Sorting keeps a list free of repeats. */
  lemma SortKeepsDistinct(s: seq<string>)
    requires Distinct(s)
    ensures Distinct(Sort(s))
  {
    DistinctCountsAtMostOne(s);
    CountsAtMostOneDistinct(Sort(s));
  }

  /**
   * There is only one strictly sorted list of a given set of strings: two
   * strictly sorted lists with the same elements are equal.
   */
  lemma {:induction false} StrictlySortedUnique(a: seq<string>, b: seq<string>)
    requires StrictlySorted(a) && StrictlySorted(b)
    requires forall x :: x in a <==> x in b
    ensures a == b
  {
    assert a != [] ==> a[0] in b;
    assert b != [] ==> b[0] in a;
    if a != [] && b != [] {
      // The head of each list sorts before every other element of it, so the heads agree.
      var ia :| 0 <= ia < |a| && a[ia] == b[0];
      var ib :| 0 <= ib < |b| && b[ib] == a[0];
      LessTotal(a[0], b[0]);
      assert a[0] == b[0];
      assert a == [a[0]] + a[1..] && b == [b[0]] + b[1..];
      forall x ensures x in a[1..] <==> x in b[1..] {
        if x in a[1..] {
          var k :| 0 <= k < |a[1..]| && a[1..][k] == x;
          assert Less(a[0], a[k + 1]);
          LessIrreflexive(x);
          assert x in b && x != b[0];
        }
        if x in b[1..] {
          var k :| 0 <= k < |b[1..]| && b[1..][k] == x;
          assert Less(b[0], b[k + 1]);
          LessIrreflexive(x);
          assert x in a && x != a[0];
        }
      }
      StrictlySortedUnique(a[1..], b[1..]);
    }
  }

  /** Each element of `s` from index `k` on sorts strictly before the next one. */
  predicate AscendingFrom(s: seq<string>, k: nat)
    decreases |s| - k
  {
    k + 1 >= |s| || (Less(s[k], s[k + 1]) && AscendingFrom(s, k + 1))
  }

  /** A list whose neighbours ascend strictly is strictly sorted. */
  lemma {:induction false} AscendingFromSorted(s: seq<string>, k: nat)
    requires k <= |s| && AscendingFrom(s, k)
    ensures StrictlySorted(s[k..])
    decreases |s| - k
  {
    if k + 1 < |s| {
      AscendingFromSorted(s, k + 1);
      forall i, j | 0 <= i < j < |s[k..]| ensures Less(s[k..][i], s[k..][j]) {
        if i > 0 {
          assert s[k..][i] == s[k + 1..][i - 1] && s[k..][j] == s[k + 1..][j - 1];
        } else if j > 1 {
          assert s[k + 1..][0] == s[k + 1] && s[k + 1..][j - 1] == s[k..][j];
          LessTransitive(s[k], s[k + 1], s[k..][j]);
        }
      }
    }
  }
}
