/**
 * The sliding-window scan of `parse_bin_details` (app.py:437-454), with the test applied
 * to each window left as a parameter: `step(j)` is what the window of four tokens at
 * index `j` yields, `None` when it is refused. A refused window moves the scan on by one
 * token, a taken one assigns its entry into the dictionary and moves the scan on by four,
 * and the scan stops when fewer than four tokens remain.
 */
module Windows {
  import opened Wrappers
  import opened Dicts

  /** The loop from index `i`, with the dictionary `acc` built so far. */
  function ScanOf<K(==), V>(n: nat, step: nat -> Option<(K, V)>, i: nat, acc: Dict<K, V>): Dict<K, V>
    decreases n - i
  {
    if i + 3 < n then
      match step(i)
      case Some(e) => ScanOf(n, step, i + 4, Put(acc, e.0, e.1))
      case None => ScanOf(n, step, i + 1, acc)
    else acc
  }

  /** The indices, from `i` on, of the windows the loop takes. */
  function StartsOf<K, V>(n: nat, step: nat -> Option<(K, V)>, i: nat): (s: seq<nat>)
    ensures forall k :: 0 <= k < |s| ==> i <= s[k] && s[k] + 3 < n && step(s[k]).Some?
    decreases n - i
  {
    if i + 3 < n then
      if step(i).Some? then [i] + StartsOf(n, step, i + 4) else StartsOf(n, step, i + 1)
    else []
  }

  /** The entries of the windows at the indices `s`, in order. */
  function EntriesOf<K, V>(step: nat -> Option<(K, V)>, s: seq<nat>): (ps: seq<(K, V)>)
    requires forall k :: 0 <= k < |s| ==> step(s[k]).Some?
    ensures |ps| == |s|
    ensures forall k :: 0 <= k < |s| ==> ps[k] == step(s[k]).value
  {
    seq(|s|, k requires 0 <= k < |s| => step(s[k]).value)
  }

  /** The loop assigns, in order, the entries of the windows it takes. */
  lemma {:induction false} ScanOfAssigns<K, V>(n: nat, step: nat -> Option<(K, V)>, i: nat, acc: Dict<K, V>)
    ensures ScanOf(n, step, i, acc) == PutAll(acc, EntriesOf(step, StartsOf(n, step, i)))
    decreases n - i
  {
    if i + 3 < n {
      if step(i).Some? {
        var e := step(i).value;
        ScanOfAssigns(n, step, i + 4, Put(acc, e.0, e.1));
        var rest := EntriesOf(step, StartsOf(n, step, i + 4));
        assert EntriesOf(step, StartsOf(n, step, i)) == [e] + rest;
        PutAllConcat(acc, [e], rest);
        assert PutAll(acc, [e]) == Put(PutAll(acc, []), e.0, e.1) by { assert [e][..0] == []; }
      } else {
        ScanOfAssigns(n, step, i + 1, acc);
      }
    }
  }

  /** No window the loop could take lies between `i` and the first window it takes (or
      the end, when it takes none). */
  lemma {:induction false} NoneSkippedBeforeFirst<K, V>(n: nat, step: nat -> Option<(K, V)>, i: nat)
    ensures var s := StartsOf(n, step, i);
      forall j :: i <= j && j + 3 < n && (s == [] || j < s[0]) ==> step(j).None?
    decreases n - i
  {
    if i + 3 < n && step(i).None? {
      NoneSkippedBeforeFirst(n, step, i + 1);
    }
  }

  /** Windows taken one after the other do not overlap, and no window the loop could take
      lies between them. */
  predicate NoneBetween<K, V>(s: seq<nat>, step: nat -> Option<(K, V)>) {
    forall k :: 0 <= k < |s| - 1 ==>
      s[k] + 4 <= s[k + 1] && forall j :: s[k] + 4 <= j < s[k + 1] ==> step(j).None?
  }

  lemma {:induction false} NoneSkippedBetween<K, V>(n: nat, step: nat -> Option<(K, V)>, i: nat)
    ensures NoneBetween(StartsOf(n, step, i), step)
    decreases n - i
  {
    if i + 3 < n {
      if step(i).Some? {
        NoneSkippedBetween(n, step, i + 4);
        NoneSkippedBeforeFirst(n, step, i + 4);
        var t := StartsOf(n, step, i + 4);
        NoneBetweenCons(i, t, step);
      } else {
        NoneSkippedBetween(n, step, i + 1);
      }
    }
  }

  /** A window in front of windows with none skipped between them, and none skipped
      between it and the first of them, has none skipped between any. */
  lemma NoneBetweenCons<K, V>(i: nat, t: seq<nat>, step: nat -> Option<(K, V)>)
    requires NoneBetween(t, step)
    requires t != [] ==> i + 4 <= t[0] && forall j :: i + 4 <= j < t[0] ==> step(j).None?
    ensures NoneBetween([i] + t, step)
  {
    var s := [i] + t;
    forall k | 0 <= k < |s| - 1
      ensures s[k] + 4 <= s[k + 1] && forall j :: s[k] + 4 <= j < s[k + 1] ==> step(j).None?
    {
      if k > 0 {
        assert s[k] == t[k - 1] && s[k + 1] == t[k];
      }
    }
  }

  /** No window the loop could take lies after the last window it takes. */
  lemma {:induction false} NoneSkippedAfterLast<K, V>(n: nat, step: nat -> Option<(K, V)>, i: nat)
    ensures var s := StartsOf(n, step, i);
      s != [] ==> forall j :: s[|s| - 1] + 4 <= j && j + 3 < n ==> step(j).None?
    decreases n - i
  {
    if i + 3 < n {
      if step(i).Some? {
        NoneSkippedAfterLast(n, step, i + 4);
        NoneSkippedBeforeFirst(n, step, i + 4);
        var s := StartsOf(n, step, i);
        var t := StartsOf(n, step, i + 4);
        assert s == [i] + t;
        if t != [] {
          assert s[|s| - 1] == t[|t| - 1];
        }
      } else {
        NoneSkippedAfterLast(n, step, i + 1);
        assert StartsOf(n, step, i) == StartsOf(n, step, i + 1);
      }
    }
  }

  /** Later windows overwrite earlier ones: a key holds the value of the last taken window
      that yields it, and a key no taken window yields is absent. */
  lemma ScanOfLastWins<K, V>(n: nat, step: nat -> Option<(K, V)>, key: K)
    ensures var s := StartsOf(n, step, 0);
      forall k ::
        (0 <= k < |s| && step(s[k]).value.0 == key && forall k' :: k < k' < |s| ==> step(s[k']).value.0 != key) ==>
      Get(ScanOf(n, step, 0, []), key) == Some(step(s[k]).value.1)
    ensures var s := StartsOf(n, step, 0);
      (forall k :: 0 <= k < |s| ==> step(s[k]).value.0 != key) ==> Get(ScanOf(n, step, 0, []), key) == None
  {
    ScanOfAssigns(n, step, 0, []);
    EntriesLastWins(step, StartsOf(n, step, 0), key);
  }

  /** The same, for the entries of the windows at `s` assigned in order. */
  lemma EntriesLastWins<K, V>(step: nat -> Option<(K, V)>, s: seq<nat>, key: K)
    requires forall k :: 0 <= k < |s| ==> step(s[k]).Some?
    ensures forall k ::
        (0 <= k < |s| && step(s[k]).value.0 == key && forall k' :: k < k' < |s| ==> step(s[k']).value.0 != key) ==>
      Get(PutAll([], EntriesOf(step, s)), key) == Some(step(s[k]).value.1)
    ensures (forall k :: 0 <= k < |s| ==> step(s[k]).value.0 != key) ==> Get(PutAll([], EntriesOf(step, s)), key) == None
  {
    var ps := EntriesOf(step, s);
    PutAllGet([], ps, key);
    forall k | 0 <= k < |s| && step(s[k]).value.0 == key && (forall k' :: k < k' < |s| ==> step(s[k']).value.0 != key)
      ensures Get(PutAll([], ps), key) == Some(step(s[k]).value.1)
    {
      assert LastWith(ps, key, k);
    }
  }

  /** No key appears twice among the entries. */
  lemma ScanOfKeysDistinct<K, V>(n: nat, step: nat -> Option<(K, V)>)
    ensures Distinct(Keys(ScanOf(n, step, 0, [])))
  {
    ScanOfAssigns(n, step, 0, []);
    PutAllKeepsKeysDistinct([], EntriesOf(step, StartsOf(n, step, 0)));
  }
}
