/**
 * The JavaScript array methods the site's data helpers are built from
 * (`find`, `filter`, `map`), flattening a list of lists, and facts about
 * splitting a list into groups by a key.
 */
module Seqs {
  import opened Wrappers

  /** No element occurs twice. */
  predicate Distinct<T(==)>(s: seq<T>) {
    forall i, j :: 0 <= i < j < |s| ==> s[i] != s[j]
  }

  /**
   * `Array.prototype.find`: the first element that satisfies `p`, or `None`
   * (JavaScript's `undefined`) when no element does.
   */
  function Find<T>(s: seq<T>, p: T -> bool): (r: Option<T>)
    ensures r.None? <==> forall i :: 0 <= i < |s| ==> !p(s[i])
    ensures r.Some? ==>
      exists i :: 0 <= i < |s| && s[i] == r.value && p(s[i]) && forall j :: 0 <= j < i ==> !p(s[j])
  {
    if s == [] then None
    else if p(s[0]) then Some(s[0])
    else
      var r := Find(s[1..], p);
      assert r.Some? ==> exists i :: 1 <= i < |s| && s[i] == r.value && p(s[i]) && forall j :: 1 <= j < i ==> !p(s[j]) by {
        if r.Some? {
          var k :| 0 <= k < |s[1..]| && s[1..][k] == r.value && p(s[1..][k]) && forall j :: 0 <= j < k ==> !p(s[1..][j]);
          assert forall j :: 1 <= j < k + 1 ==> !p(s[j]) by {
            forall j | 1 <= j < k + 1 ensures !p(s[j]) { assert s[j] == s[1..][j - 1]; }
          }
        }
      }
      r
  }

  /**
   * `Array.prototype.filter`: the elements that satisfy `p`. How often each
   * is kept is `FilterCounts`; that the order is kept is
   * `FilterSelectsPositions`.
   */
  function Filter<T(!new)>(s: seq<T>, p: T -> bool): (r: seq<T>)
    ensures |r| <= |s|
    ensures forall x {:trigger x in r} :: x in r <==> x in s && p(x)
  {
    if s == [] then []
    else
      var init, last := s[..|s| - 1], s[|s| - 1];
      assert s == init + [last];
      Filter(init, p) + if p(last) then [last] else []
  }

  /**
   * `Filter` keeps each element that satisfies `p` exactly as often as `s`
   * holds it, and no other element.
   */
  lemma {:induction false} FilterCounts<T(!new)>(s: seq<T>, p: T -> bool)
    ensures forall x {:trigger multiset(Filter(s, p))[x]} :: multiset(Filter(s, p))[x] == if p(x) then multiset(s)[x] else 0
  {
    if s != [] {
      var init, last := s[..|s| - 1], s[|s| - 1];
      FilterCounts(init, p);
      assert s == init + [last];
      assert Filter(s, p) == Filter(init, p) + if p(last) then [last] else [];
    }
  }

  /** Filtering a list with one more element appends that element when it satisfies `p`. */
  lemma FilterSnoc<T(!new)>(s: seq<T>, x: T, p: T -> bool)
    ensures Filter(s + [x], p) == Filter(s, p) + if p(x) then [x] else []
  {
    assert (s + [x])[..|s|] == s;
  }

  /** The indices of the elements of `s` that satisfy `p`, in increasing order. */
  function Positions<T>(s: seq<T>, p: T -> bool): (r: seq<nat>)
    ensures forall k :: 0 <= k < |r| ==> r[k] < |s| && p(s[r[k]])
    ensures forall k, m :: 0 <= k < m < |r| ==> r[k] < r[m]
    ensures forall i :: 0 <= i < |s| && p(s[i]) ==> i in r
  {
    if s == [] then []
    else
      var init := s[..|s| - 1];
      assert forall i :: 0 <= i < |init| ==> init[i] == s[i];
      Positions(init, p) + if p(s[|s| - 1]) then [|s| - 1] else []
  }

  /**
   * `Filter` keeps the order of the input: its k-th element is the element of
   * `s` at the k-th position that satisfies `p`.
   */
  lemma {:induction false} FilterSelectsPositions<T(!new)>(s: seq<T>, p: T -> bool)
    ensures |Filter(s, p)| == |Positions(s, p)|
    ensures forall k :: 0 <= k < |Filter(s, p)| ==> Filter(s, p)[k] == s[Positions(s, p)[k]]
  {
    if s != [] {
      FilterSelectsPositions(s[..|s| - 1], p);
      FilterSelectsPositionsStep(s, s[..|s| - 1], p);
    }
  }

  /** The induction step of `FilterSelectsPositions`: `s` is `init` and one more element. */
  lemma FilterSelectsPositionsStep<T(!new)>(s: seq<T>, init: seq<T>, p: T -> bool)
    requires s != [] && init == s[..|s| - 1]
    requires |Filter(init, p)| == |Positions(init, p)|
    requires forall k :: 0 <= k < |Filter(init, p)| ==> Filter(init, p)[k] == init[Positions(init, p)[k]]
    ensures |Filter(s, p)| == |Positions(s, p)|
    ensures forall k :: 0 <= k < |Filter(s, p)| ==> Filter(s, p)[k] == s[Positions(s, p)[k]]
  {
    var last := s[|s| - 1];
    var f, ps := Filter(init, p), Positions(init, p);
    var fs, pss := Filter(s, p), Positions(s, p);
    assert fs == f + if p(last) then [last] else [];
    assert pss == ps + if p(last) then [|s| - 1] else [];
    forall k | 0 <= k < |fs| ensures fs[k] == s[pss[k]] {
      if k < |f| {
        assert fs[k] == f[k] == init[ps[k]] == s[ps[k]];
        assert pss[k] == ps[k];
      }
    }
  }

  /** A filter keeps keys pairwise different when the input has them so. */
  lemma FilterKeepsKeysDistinct<T(!new), K>(s: seq<T>, p: T -> bool, key: T -> K)
    requires forall i, j :: 0 <= i < j < |s| ==> key(s[i]) != key(s[j])
    ensures forall i, j :: 0 <= i < j < |Filter(s, p)| ==> key(Filter(s, p)[i]) != key(Filter(s, p)[j])
  {
    FilterSelectsPositions(s, p);
    var f, ps := Filter(s, p), Positions(s, p);
    forall i, j | 0 <= i < j < |f| ensures key(f[i]) != key(f[j]) {
      assert ps[i] < ps[j];
    }
  }

  /** A filter whose predicate holds of every element removes nothing. */
  lemma {:induction false} FilterKeepsAll<T(!new)>(s: seq<T>, p: T -> bool)
    requires forall i :: 0 <= i < |s| ==> p(s[i])
    ensures Filter(s, p) == s
  {
    if s != [] {
      var init := s[..|s| - 1];
      assert forall i :: 0 <= i < |init| ==> init[i] == s[i];
      FilterKeepsAll(init, p);
      assert s == init + [s[|s| - 1]];
    }
  }

  /** `Array.prototype.map`. */
  function Map<A, B>(s: seq<A>, f: A -> B): (r: seq<B>)
    ensures |r| == |s|
    ensures forall i :: 0 <= i < |s| ==> r[i] == f(s[i])
  {
    if s == [] then [] else Map(s[..|s| - 1], f) + [f(s[|s| - 1])]
  }

  /** A non-empty list is its prefix followed by its last element. */
  lemma InitLast<T>(s: seq<T>)
    requires s != []
    ensures s == s[..|s| - 1] + [s[|s| - 1]]
  {
  }

  /** Mapping a list with one more element appends that element's image. */
  lemma MapSnoc<A, B>(s: seq<A>, x: A, f: A -> B)
    ensures Map(s + [x], f) == Map(s, f) + [f(x)]
  {
  }

  /** The concatenation of a list of lists, in order. */
  function Flatten<T(!new)>(ss: seq<seq<T>>): (r: seq<T>)
    ensures forall x :: x in r <==> exists i :: 0 <= i < |ss| && x in ss[i]
  {
    if ss == [] then []
    else
      var r := ss[0] + Flatten(ss[1..]);
      assert forall i :: 1 <= i < |ss| ==> ss[i] == ss[1..][i - 1];
      r
  }

  /** Flattening a list with one more group appends that group. */
  lemma {:induction false} FlattenSnoc<T(!new)>(ss: seq<seq<T>>, s: seq<T>)
    ensures Flatten(ss + [s]) == Flatten(ss) + s
  {
    if ss == [] {
      assert ss + [s] == [s];
      assert Flatten([s]) == s + Flatten([]);
    } else {
      FlattenSnoc(ss[1..], s);
      assert (ss + [s])[1..] == ss[1..] + [s];
    }
  }

  /** The elements of a list of lists, counted: those of its first list plus those of the rest. */
  lemma FlattenCons<T(!new)>(ss: seq<seq<T>>)
    requires ss != []
    ensures multiset(Flatten(ss)) == multiset(ss[0]) + multiset(Flatten(ss[1..]))
  {
  }

  /**
   * Splitting a list into one group per key: when each group holds exactly
   * the elements with its key (counted with multiplicity) and the keys are
   * distinct, the groups together hold each element whose key is listed
   * exactly as often as the list does, and no other element.
   */
  lemma {:induction false} FlattenGroupCounts<T(!new), K>(groups: seq<seq<T>>, keys: seq<K>, key: T -> K, s: seq<T>)
    requires |groups| == |keys|
    requires Distinct(keys)
    requires forall i, x {:trigger multiset(groups[i])[x]} :: 0 <= i < |groups| ==> multiset(groups[i])[x] == if key(x) == keys[i] then multiset(s)[x] else 0
    ensures forall x {:trigger multiset(Flatten(groups))[x]} :: multiset(Flatten(groups))[x] == if key(x) in keys then multiset(s)[x] else 0
  {
    if groups != [] {
      FlattenGroupCounts(groups[1..], keys[1..], key, s);
      FlattenCons(groups);
      forall x ensures multiset(Flatten(groups))[x] == if key(x) in keys then multiset(s)[x] else 0 {
        assert key(x) in keys <==> key(x) == keys[0] || key(x) in keys[1..] by {
          assert keys == [keys[0]] + keys[1..];
        }
        if key(x) == keys[0] {
          assert key(x) !in keys[1..] by {
            forall j | 0 <= j < |keys[1..]| ensures keys[1..][j] != keys[0] { assert keys[1..][j] == keys[j + 1]; }
          }
        }
      }
    }
  }

  /** A distinct list counts each element at most once. */
  lemma {:induction false} DistinctCountsAtMostOne<T>(s: seq<T>)
    requires Distinct(s)
    ensures forall x :: multiset(s)[x] <= 1
  {
    if s != [] {
      var init := s[..|s| - 1];
      assert s == init + [s[|s| - 1]];
      DistinctCountsAtMostOne(init);
      assert s[|s| - 1] !in init by {
        forall i | 0 <= i < |init| ensures init[i] != s[|s| - 1] { assert init[i] == s[i]; }
      }
    }
  }

  /** A list that counts each element at most once is distinct. */
  lemma CountsAtMostOneDistinct<T>(s: seq<T>)
    requires forall x :: multiset(s)[x] <= 1
    ensures Distinct(s)
  {
    forall i, j | 0 <= i < j < |s| ensures s[i] != s[j] {
      var rest := s[i + 1..];
      assert s == s[..i] + [s[i]] + rest;
      assert multiset(s)[s[i]] == multiset(s[..i])[s[i]] + 1 + multiset(rest)[s[i]];
      assert s[j] in rest by { assert rest[j - i - 1] == s[j]; }
      assert multiset(rest)[s[j]] >= 1;
    }
  }
}
