/** Option, as used throughout the model for Python's "a value or None". */
module Optional {
  datatype Option<+T> = None | Some(value: T)
}

/**
  A Python `dict` with string keys: a sequence of (key, value) entries in
  insertion order. Assigning to an existing key keeps its position,
  assigning to a new key appends it, and `pop` removes it.
 */
module PyDict {
  import opened Optional

  type Dict<V> = seq<(string, V)>

  /** The keys in iteration order (`list(d.keys())`). */
  function Keys<V>(d: Dict<V>): seq<string>
  {
    if d == [] then [] else [d[0].0] + Keys(d[1..])
  }

  /** `d.get(k)`: the value stored under `k`, or None. */
  function Get<V>(d: Dict<V>, k: string): Option<V>
  {
    if d == [] then None
    else if d[0].0 == k then Some(d[0].1)
    else Get(d[1..], k)
  }

  /** No key occurs twice, as in every Python dict. */
  predicate DistinctKeys<V>(d: Dict<V>)
  {
    d == [] || (Get(d[1..], d[0].0).None? && DistinctKeys(d[1..]))
  }

  /** `d[k] = v`. */
  function Put<V>(d: Dict<V>, k: string, v: V): (r: Dict<V>)
    ensures Get(r, k) == Some(v)
    ensures forall k' :: k' != k ==> Get(r, k') == Get(d, k')
    ensures Keys(r) == if Get(d, k).Some? then Keys(d) else Keys(d) + [k]
    ensures DistinctKeys(d) ==> DistinctKeys(r)
    ensures forall e :: e in r ==> e == (k, v) || e in d
  {
    if d == [] then [(k, v)]
    else if d[0].0 == k then [(k, v)] + d[1..]
    else [d[0]] + Put(d[1..], k, v)
  }

  /** `d.pop(k)` when `k` is present; the dict unchanged otherwise. */
  function Remove<V>(d: Dict<V>, k: string): (r: Dict<V>)
    ensures Get(r, k) == None
    ensures forall k' :: k' != k ==> Get(r, k') == Get(d, k')
    ensures Get(d, k) == None ==> r == d
    ensures |r| <= |d|
    ensures DistinctKeys(d) ==> DistinctKeys(r)
    ensures forall e :: e in r ==> e in d
  {
    if d == [] then []
    else if d[0].0 == k then Remove(d[1..], k)
    else [d[0]] + Remove(d[1..], k)
  }

  /**
    `pop` takes out exactly the one entry holding the key and leaves every
    other entry where it was, so iteration order is kept.
   */
  lemma {:induction false} RemoveKeepsOrder<V>(d: Dict<V>, k: string) returns (i: nat)
    requires DistinctKeys(d) && Get(d, k).Some?
    ensures i < |d| && d[i].0 == k
    ensures Remove(d, k) == d[..i] + d[i + 1..]
  {
    var tail := d[1..];
    if d[0].0 == k {
      i := 0;
      assert Get(tail, k).None?;
      assert d[..0] + d[1..] == tail;
    } else {
      var j := RemoveKeepsOrder(tail, k);
      i := j + 1;
      SpliceAfterHead(d, j);
    }
  }

  /** Cutting position `j + 1` out of `d` is cutting position `j` out of its tail. */
  lemma SpliceAfterHead<V>(d: Dict<V>, j: nat)
    requires j + 1 < |d|
    ensures [d[0]] + (d[1..][..j] + d[1..][j + 1..]) == d[..j + 1] + d[j + 2..]
  {
    assert d[..j + 1] == [d[0]] + d[1..][..j];
    assert d[j + 2..] == d[1..][j + 1..];
  }

  /** Assigning twice to one key leaves only the second assignment's effect. */
  lemma {:induction false} PutPut<V>(d: Dict<V>, k: string, v: V, w: V)
    ensures Put(Put(d, k, v), k, w) == Put(d, k, w)
  {
    if d != [] && d[0].0 != k {
      PutPut(d[1..], k, v, w);
      assert Put(d, k, v)[1..] == Put(d[1..], k, v);
    }
  }

  /** A key is listed among the keys exactly when the dict maps it. */
  lemma {:induction false} KeysMatchGet<V>(d: Dict<V>, k: string)
    ensures k in Keys(d) <==> Get(d, k).Some?
  {
    if d != [] {
      KeysMatchGet(d[1..], k);
    }
  }

  /** The entry a key maps to is one of the dict's entries. */
  lemma {:induction false} GetIsEntry<V>(d: Dict<V>, k: string)
    requires Get(d, k).Some?
    ensures (k, Get(d, k).value) in d
  {
    if d[0].0 != k {
      GetIsEntry(d[1..], k);
    }
  }

  /** The keys of a dict with distinct keys are pairwise different. */
  lemma {:induction false} KeysDistinct<V>(d: Dict<V>, i: nat, j: nat)
    requires DistinctKeys(d) && i < j < |d|
    ensures |Keys(d)| == |d|
    ensures Keys(d)[i] != Keys(d)[j]
  {
    KeysAt(d, i);
    KeysAt(d, j);
    DistinctEntries(d, i, j);
  }

  lemma {:induction false} KeysLength<V>(d: Dict<V>)
    ensures |Keys(d)| == |d|
  {
    if d != [] {
      KeysLength(d[1..]);
    }
  }

  lemma {:induction false} KeysAt<V>(d: Dict<V>, i: nat)
    requires i < |d|
    ensures |Keys(d)| == |d| && Keys(d)[i] == d[i].0
  {
    KeysLength(d);
    if i > 0 {
      KeysAt(d[1..], i - 1);
    }
  }

  /** Two positions of a dict with distinct keys hold different keys. */
  lemma {:induction false} DistinctEntries<V>(d: Dict<V>, i: nat, j: nat)
    requires DistinctKeys(d) && i < j < |d|
    ensures d[i].0 != d[j].0
  {
    if i == 0 {
      assert d[1..][j - 1] == d[j];
      KeysAt(d[1..], j - 1);
      KeysMatchGet(d[1..], d[j].0);
    } else {
      DistinctEntries(d[1..], i - 1, j - 1);
    }
  }
}
