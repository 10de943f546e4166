/** Sequence helpers shared by the attribute map and the group resolver. */
module Seqs {

  /** No element occurs twice. */
  predicate NoDup<T(==)>(s: seq<T>) {
    forall i, j :: 0 <= i < j < |s| ==> s[i] != s[j]
  }

  /** Position of the first occurrence of `x` in `s`, or `|s|` when `x` does not occur. */
  function FirstIndex<T(==)>(s: seq<T>, x: T): (k: nat)
    ensures k <= |s|
    ensures k < |s| <==> x in s
    ensures k < |s| ==> s[k] == x
    ensures forall i :: 0 <= i < k ==> s[i] != x
  {
    if s == [] then 0
    else if s[0] == x then 0
    else 1 + FirstIndex(s[1..], x)
  }

  /** Appending an element does not move the first occurrence of an element already present. */
  lemma {:induction false} FirstIndexAppend<T>(p: seq<T>, y: T, x: T)
    requires x in p
    ensures FirstIndex(p + [y], x) == FirstIndex(p, x)
  {
    if p[0] != x {
      assert (p + [y])[1..] == p[1..] + [y];
      FirstIndexAppend(p[1..], y, x);
    }
  }

  /** An element absent from `a` is found in `a + b` exactly where it is found in `b`, shifted by `|a|`. */
  lemma {:induction false} FirstIndexConcat<T>(a: seq<T>, b: seq<T>, x: T)
    requires x !in a
    ensures FirstIndex(a + b, x) == |a| + FirstIndex(b, x)
  {
    if a != [] {
      assert (a + b)[0] == a[0] && (a + b)[1..] == a[1..] + b;
      FirstIndexConcat(a[1..], b, x);
      assert FirstIndex(a + b, x) == 1 + FirstIndex((a + b)[1..], x);
    } else {
      assert a + b == b;
    }
  }

  /**
   * The elements of `s` without repetitions, each kept at its first occurrence:
   * the order of the JavaScript idiom `Array.from(new Set(s))`.
   */
  function Distinct<T(==,!new)>(s: seq<T>): (r: seq<T>)
    ensures NoDup(r)
    ensures forall x :: x in r <==> x in s
    ensures forall i, j :: 0 <= i < j < |r| ==> FirstIndex(s, r[i]) < FirstIndex(s, r[j])
  {
    if s == [] then []
    else
      var p, y := s[..|s| - 1], s[|s| - 1];
      assert s == p + [y];
      var r := Distinct(p);
      FirstIndexAppendAll(p, y, r);
      if y in r then r
      else
        assert FirstIndex(s, y) == |p| by { FirstIndexOfNew(p, y); }
        r + [y]
  }

  /** Every element of `r`, drawn from `p`, keeps its first position when `y` is appended to `p`. */
  lemma FirstIndexAppendAll<T>(p: seq<T>, y: T, r: seq<T>)
    requires forall x :: x in r ==> x in p
    ensures forall x :: x in r ==> FirstIndex(p + [y], x) == FirstIndex(p, x)
  {
    forall x | x in r ensures FirstIndex(p + [y], x) == FirstIndex(p, x) {
      FirstIndexAppend(p, y, x);
    }
  }

  /** A new element appended to `p` has its first occurrence at the end. */
  lemma FirstIndexOfNew<T>(p: seq<T>, y: T)
    requires y !in p
    ensures FirstIndex(p + [y], y) == |p|
  {
    assert (p + [y])[|p|] == y;
  }

  /** The concatenation of a sequence of sequences, in order. */
  function Flatten<T(==,!new)>(ss: seq<seq<T>>): (r: seq<T>)
    ensures forall x :: x in r <==> exists i :: 0 <= i < |ss| && x in ss[i]
  {
    if ss == [] then []
    else
      var init := ss[..|ss| - 1];
      assert forall i :: 0 <= i < |init| ==> init[i] == ss[i];
      Flatten(init) + ss[|ss| - 1]
  }

  /** Flattening one more sequence appends it. */
  lemma FlattenPrefix<T(!new)>(ss: seq<seq<T>>, i: nat)
    requires i < |ss|
    ensures Flatten(ss[..i + 1]) == Flatten(ss[..i]) + ss[i]
  {
    assert ss[..i + 1][..i] == ss[..i];
  }

  /** The elements of `ids` that are keys of `m`, in order. */
  function Existing<K(!new), V>(m: map<K, V>, ids: seq<K>): (r: seq<K>)
    ensures forall k :: k in r <==> k in ids && k in m
    ensures NoDup(ids) ==> NoDup(r)
  {
    if ids == [] then []
    else
      var init, k := ids[..|ids| - 1], ids[|ids| - 1];
      assert ids == init + [k];
      if k in m then Existing(m, init) + [k] else Existing(m, init)
  }

  /** The distinct elements of `ids` that are keys of `m`, in order of first occurrence: what a `$in` query finds. */
  function Found<K(!new), V>(m: map<K, V>, ids: seq<K>): (r: seq<K>)
    ensures NoDup(r)
    ensures forall k :: k in r <==> k in ids && k in m
  {
    Existing(m, Distinct(ids))
  }

  /** An element of `a` is found in `a + b` where it is found in `a`. */
  lemma {:induction false} FirstIndexPrefix<T>(a: seq<T>, b: seq<T>, x: T)
    requires x in a
    ensures FirstIndex(a + b, x) == FirstIndex(a, x)
  {
    assert (a + b)[0] == a[0];
    if a[0] != x {
      assert (a + b)[1..] == a[1..] + b;
      FirstIndexPrefix(a[1..], b, x);
    }
  }

  /** In a list without repetitions, earlier first occurrences in `s` come at earlier positions. */
  lemma DistinctOrder<T(!new)>(s: seq<T>, i: nat, j: nat)
    requires i < |Distinct(s)| && j < |Distinct(s)|
    requires FirstIndex(s, Distinct(s)[i]) < FirstIndex(s, Distinct(s)[j])
    ensures i < j
  {
  }

  /** Deduplicating `a + b` puts every element of `a` before every element only `b` holds. */
  lemma DistinctPrefixFirst<T(!new)>(a: seq<T>, b: seq<T>, i: nat, j: nat)
    requires i < |Distinct(a + b)| && j < |Distinct(a + b)|
    requires Distinct(a + b)[i] in a && Distinct(a + b)[j] !in a
    ensures i < j
  {
    var r := Distinct(a + b);
    FirstIndexPrefix(a, b, r[i]);
    FirstIndexConcat(a, b, r[j]);
    DistinctOrder(a + b, i, j);
  }
}
