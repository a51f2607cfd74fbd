/**
 * Python dictionaries as app.py uses them: insertion-ordered, each key once,
 * `d[k] = v` updating an existing key in place and appending a new one at the end.
 */
module Dicts {
  import opened Wrappers

  type Dict<K, V> = seq<(K, V)>

  /** `list(d.keys())` */
  function Keys<K, V>(d: Dict<K, V>): seq<K> {
    seq(|d|, i requires 0 <= i < |d| => d[i].0)
  }

  predicate Distinct<T(==)>(s: seq<T>) {
    forall i, j :: 0 <= i < j < |s| ==> s[i] != s[j]
  }

  /** `d.get(k)`: the value stored under `k`, if any. */
  function Get<K(==), V>(d: Dict<K, V>, k: K): Option<V> {
    if d == [] then None
    else if d[0].0 == k then Some(d[0].1)
    else Get(d[1..], k)
  }

  /** `k in d`, and then `d[k]` is the value paired with `k`. */
  lemma {:induction false} GetIffKey<K, V>(d: Dict<K, V>, k: K)
    ensures Get(d, k).Some? <==> k in Keys(d)
    ensures Get(d, k).Some? ==> (k, Get(d, k).value) in d
  {
    if d != [] {
      KeysOfCons(d[0], d[1..]);
      assert d == [d[0]] + d[1..];
      GetIffKey(d[1..], k);
    }
  }

  /** `d[k] = v` */
  function Put<K(==), V>(d: Dict<K, V>, k: K, v: V): Dict<K, V> {
    if d == [] then [(k, v)]
    else if d[0].0 == k then [(k, v)] + d[1..]
    else [d[0]] + Put(d[1..], k, v)
  }

  lemma KeysOfCons<K, V>(p: (K, V), d: Dict<K, V>)
    ensures Keys([p] + d) == [p.0] + Keys(d)
  {
  }

  /** Assignment keeps the key order: a present key stays where it is, a new key goes last. */
  lemma {:induction false} PutKeys<K, V>(d: Dict<K, V>, k: K, v: V)
    ensures Keys(Put(d, k, v)) == if k in Keys(d) then Keys(d) else Keys(d) + [k]
  {
    if d != [] {
      KeysOfCons(d[0], d[1..]);
      assert d == [d[0]] + d[1..];
      if d[0].0 == k {
        KeysOfCons((k, v), d[1..]);
      } else {
        PutKeys(d[1..], k, v);
        KeysOfCons(d[0], Put(d[1..], k, v));
      }
    }
  }

  /** After `d[k] = v`, `k` holds `v` and every other key holds what it held before. */
  lemma {:induction false} PutGet<K, V>(d: Dict<K, V>, k: K, v: V, k': K)
    ensures Get(Put(d, k, v), k') == if k' == k then Some(v) else Get(d, k')
  {
    if d != [] && d[0].0 != k {
      PutGet(d[1..], k, v, k');
      assert ([d[0]] + Put(d[1..], k, v))[1..] == Put(d[1..], k, v);
    } else if d != [] {
      assert ([(k, v)] + d[1..])[1..] == d[1..];
    }
  }

  /** A dictionary never holds a key twice, and assignment keeps it so. */
  lemma PutKeepsKeysDistinct<K, V>(d: Dict<K, V>, k: K, v: V)
    requires Distinct(Keys(d))
    ensures Distinct(Keys(Put(d, k, v)))
  {
    var ks := Keys(d);
    PutKeys(d, k, v);
    if k !in ks {
      var ks' := ks + [k];
      forall i, j | 0 <= i < j < |ks'| ensures ks'[i] != ks'[j] {
        if j == |ks| { assert ks'[i] == ks[i]; }
      }
    }
  }

  /** The dictionary after assigning the pairs of `ps` in order. */
  function PutAll<K(==), V>(d: Dict<K, V>, ps: seq<(K, V)>): Dict<K, V> {
    if ps == [] then d
    else
      var last := ps[|ps| - 1];
      Put(PutAll(d, ps[..|ps| - 1]), last.0, last.1)
  }

  /** Index `i` holds the last pair of `ps` whose key is `k`. */
  ghost predicate LastWith<K, V>(ps: seq<(K, V)>, k: K, i: int) {
    0 <= i < |ps| && ps[i].0 == k && forall j :: i < j < |ps| ==> ps[j].0 != k
  }

  /** After a run of assignments, a key holds the value of its last assignment, and a
      key that was never assigned holds what it held before. */
  lemma {:induction false} PutAllGet<K, V>(d: Dict<K, V>, ps: seq<(K, V)>, k: K)
    ensures (forall i :: 0 <= i < |ps| ==> ps[i].0 != k) ==> Get(PutAll(d, ps), k) == Get(d, k)
    ensures forall i :: LastWith(ps, k, i) ==> Get(PutAll(d, ps), k) == Some(ps[i].1)
  {
    if ps != [] {
      var init := ps[..|ps| - 1];
      PutAllGet(d, init, k);
      PutGet(PutAll(d, init), ps[|ps| - 1].0, ps[|ps| - 1].1, k);
      forall i | LastWith(ps, k, i) ensures Get(PutAll(d, ps), k) == Some(ps[i].1) {
        if i < |ps| - 1 {
          assert LastWith(init, k, i);
        }
      }
    }
  }

  /** Assigning two runs one after the other is assigning their concatenation. */
  lemma {:induction false} PutAllConcat<K, V>(d: Dict<K, V>, a: seq<(K, V)>, b: seq<(K, V)>)
    ensures PutAll(PutAll(d, a), b) == PutAll(d, a + b)
  {
    if b == [] {
      assert a + b == a;
    } else {
      PutAllConcat(d, a, b[..|b| - 1]);
      assert (a + b)[..|a + b| - 1] == a + b[..|b| - 1];
      assert (a + b)[|a + b| - 1] == b[|b| - 1];
    }
  }

  /** The elements of `ks` in the order of their first occurrence, each once. */
  function FirstOccurrences<T(==)>(ks: seq<T>): seq<T> {
    if ks == [] then []
    else
      var f := FirstOccurrences(ks[..|ks| - 1]);
      if ks[|ks| - 1] in f then f else f + [ks[|ks| - 1]]
  }

  /** Assigning a run of pairs to an empty dictionary orders its keys by their first
      assignment. */
  lemma {:induction false} KeysOfPutAll<K, V>(ps: seq<(K, V)>)
    ensures Keys(PutAll([], ps)) == FirstOccurrences(Keys(ps))
  {
    if ps != [] {
      var init := ps[..|ps| - 1];
      KeysOfPutAll(init);
      PutKeys(PutAll([], init), ps[|ps| - 1].0, ps[|ps| - 1].1);
      assert Keys(ps)[..|ps| - 1] == Keys(init);
    }
  }

  lemma {:induction false} PutAllKeepsKeysDistinct<K, V>(d: Dict<K, V>, ps: seq<(K, V)>)
    requires Distinct(Keys(d))
    ensures Distinct(Keys(PutAll(d, ps)))
  {
    if ps != [] {
      PutAllKeepsKeysDistinct(d, ps[..|ps| - 1]);
      PutKeepsKeysDistinct(PutAll(d, ps[..|ps| - 1]), ps[|ps| - 1].0, ps[|ps| - 1].1);
    }
  }
}

/** First-match search, the shape of every `for ...: if ...: return/break` in app.py,
    and the sequence identities the proofs about filters and splits rest on. */
module Sequences {
  import opened Wrappers

  /** The index of the first element satisfying `p`, or `None` when none does. */
  function FirstIndex<T>(s: seq<T>, p: T -> bool): (r: Option<nat>)
    ensures r.Some? ==> r.value < |s| && p(s[r.value])
    ensures r.Some? ==> forall j :: 0 <= j < r.value ==> !p(s[j])
    ensures r.None? <==> forall j :: 0 <= j < |s| ==> !p(s[j])
  {
    if s == [] then None
    else if p(s[0]) then Some(0)
    else
      match FirstIndex(s[1..], p)
      case None => None
      case Some(i) => Some(i + 1)
  }

  /** The first index is the one whose predecessors all fail `p`. */
  lemma FirstIndexAt<T>(s: seq<T>, p: T -> bool, i: nat)
    requires i < |s| && p(s[i])
    requires forall j :: 0 <= j < i ==> !p(s[j])
    ensures FirstIndex(s, p) == Some(i)
  {
    var r := FirstIndex(s, p);
    assert r.Some?;
    assert !(r.value < i);
  }

  /** Dropping the head of a concatenation. */
  lemma ConcatTail<T>(a: seq<T>, b: seq<T>)
    requires a != []
    ensures (a + b)[0] == a[0] && (a + b)[1..] == a[1..] + b
  {
  }

  lemma ConcatAssoc<T>(x: seq<T>, y: seq<T>, z: seq<T>)
    ensures x + (y + z) == (x + y) + z
  {
  }

  /** A sequence is its prefix and suffix at any split point. */
  lemma SplitAt<T>(s: seq<T>, i: nat)
    requires i <= |s|
    ensures s == s[..i] + s[i..]
  {
  }

  /** A prefix of a suffix is a middle slice. */
  lemma SliceOfSuffix<T>(s: seq<T>, i: nat, n: nat)
    requires i + n <= |s|
    ensures s[i..][..n] == s[i..i + n]
  {
  }
}
