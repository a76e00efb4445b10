/** Python's insertion-ordered `dict` with string keys, as a sequence of
    (key, value) pairs in insertion order. Lookups return the first pair
    with the key; `Set` overwrites in place or appends, as `d[k] = v` does. */
module Dict {
  import opened Outcomes

  /** The keys in insertion order (`d.keys()`). */
  function Keys<V>(d: seq<(string, V)>): (ks: seq<string>)
    ensures |ks| == |d|
    ensures forall i :: 0 <= i < |d| ==> ks[i] == d[i].0
  {
    seq(|d|, i requires 0 <= i < |d| => d[i].0)
  }

  /** `k in d` */
  predicate HasKey<V>(d: seq<(string, V)>, k: string) {
    k in Keys(d)
  }

  /** No key occurs twice, as in every Python dict. */
  predicate DistinctKeys<V>(d: seq<(string, V)>) {
    forall i, j :: 0 <= i < j < |d| ==> d[i].0 != d[j].0
  }

  /** The position of the pair that holds `k`. */
  function IndexOf<V>(d: seq<(string, V)>, k: string): (r: Option<nat>)
    ensures r.None? <==> !HasKey(d, k)
    ensures r.Some? ==> r.value < |d| && d[r.value].0 == k
    ensures r.Some? ==> forall j :: 0 <= j < r.value ==> d[j].0 != k
  {
    if d == [] then None
    else if d[0].0 == k then Some(0)
    else
      assert Keys(d) == [d[0].0] + Keys(d[1..]);
      match IndexOf(d[1..], k)
      case None => None
      case Some(j) => Some(j + 1)
  }

  /** `d[k]`, or None when `k not in d`. */
  function Get<V>(d: seq<(string, V)>, k: string): (r: Option<V>)
    ensures r.Some? <==> HasKey(d, k)
    ensures r.Some? ==> exists j :: 0 <= j < |d| && d[j] == (k, r.value)
  {
    match IndexOf(d, k)
    case None => None
    case Some(j) => Some(d[j].1)
  }

  /** `d[k] = v`: an existing key keeps its position, a new one goes last. */
  function Set<V>(d: seq<(string, V)>, k: string, v: V): (r: seq<(string, V)>)
    ensures !HasKey(d, k) ==> r == d + [(k, v)]
  {
    match IndexOf(d, k)
    case None => d + [(k, v)]
    case Some(j) => d[j := (k, v)]
  }

  /** After `d[k] = v`, `k` holds `v`, every other key keeps its value,
      and an existing key keeps its position. */
  lemma SetSpec<V>(d: seq<(string, V)>, k: string, v: V)
    ensures HasKey(d, k) ==> Keys(Set(d, k, v)) == Keys(d)
    ensures Get(Set(d, k, v), k) == Some(v)
    ensures forall k' :: k' != k ==> Get(Set(d, k, v), k') == Get(d, k')
  {
    match IndexOf(d, k)
    case None =>
      GetAppended(d, k, v);
    case Some(j) =>
      GetReplaced(d, j, v);
  }

  /** Setting a key never makes two keys equal. */
  lemma SetDistinct<V>(d: seq<(string, V)>, k: string, v: V)
    requires DistinctKeys(d)
    ensures DistinctKeys(Set(d, k, v))
  {
    match IndexOf(d, k)
    case None =>
      GetAppended(d, k, v);
    case Some(j) =>
      GetReplaced(d, j, v);
  }

  /** The keys of two dicts laid end to end. */
  lemma KeysAppend<V>(d: seq<(string, V)>, e: seq<(string, V)>)
    ensures Keys(d + e) == Keys(d) + Keys(e)
  {
  }

  /** The position of the first key of `d` that is not in `allowed`. */
  function FirstKeyOutside<V>(d: seq<(string, V)>, allowed: seq<string>): (r: Option<nat>)
    ensures r.None? <==> forall i :: 0 <= i < |d| ==> d[i].0 in allowed
    ensures r.Some? ==> r.value < |d| && d[r.value].0 !in allowed
    ensures r.Some? ==> forall j :: 0 <= j < r.value ==> d[j].0 in allowed
  {
    if d == [] then None
    else if d[0].0 !in allowed then Some(0)
    else match FirstKeyOutside(d[1..], allowed)
      case None => None
      case Some(j) => Some(j + 1)
  }

  lemma GetAppended<V>(d: seq<(string, V)>, k: string, v: V)
    requires !HasKey(d, k)
    ensures Get(d + [(k, v)], k) == Some(v)
    ensures forall k' :: k' != k ==> Get(d + [(k, v)], k') == Get(d, k')
    ensures DistinctKeys(d) ==> DistinctKeys(d + [(k, v)])
  {
    var r := d + [(k, v)];
    assert Keys(r)[|d|] == k;
    assert forall i :: 0 <= i < |d| ==> r[i] == d[i] && Keys(d)[i] == d[i].0;
    forall k' | k' != k ensures Get(r, k') == Get(d, k') {
      IndexOfAppend(d, [(k, v)], k');
    }
  }

  lemma GetReplaced<V>(d: seq<(string, V)>, j: nat, v: V)
    requires j < |d| && IndexOf(d, d[j].0) == Some(j)
    ensures Get(d[j := (d[j].0, v)], d[j].0) == Some(v)
    ensures forall k' :: k' != d[j].0 ==> Get(d[j := (d[j].0, v)], k') == Get(d, k')
    ensures DistinctKeys(d) ==> DistinctKeys(d[j := (d[j].0, v)])
  {
    var r := d[j := (d[j].0, v)];
    assert Keys(r) == Keys(d);
    IndexOfSameKeys(d, r, d[j].0);
    forall k' | k' != d[j].0 ensures Get(r, k') == Get(d, k') {
      IndexOfSameKeys(d, r, k');
    }
  }

  /** Two dicts with the same key sequence find a key at the same place. */
  lemma {:induction false} IndexOfSameKeys<V>(d: seq<(string, V)>, e: seq<(string, V)>, k: string)
    requires Keys(d) == Keys(e)
    ensures IndexOf(d, k) == IndexOf(e, k)
  {
    if d != [] {
      assert Keys(d[1..]) == Keys(d)[1..] && Keys(e[1..]) == Keys(e)[1..];
      assert d[0].0 == Keys(d)[0] == Keys(e)[0] == e[0].0;
      IndexOfSameKeys(d[1..], e[1..], k);
    }
  }

  /** Appending pairs never changes where a key already present is found,
      nor that a key absent from both parts is absent. */
  lemma {:induction false} IndexOfAppend<V>(d: seq<(string, V)>, rest: seq<(string, V)>, k: string)
    requires HasKey(d, k) || !HasKey(rest, k)
    ensures IndexOf(d + rest, k) == IndexOf(d, k)
    ensures Get(d + rest, k) == Get(d, k)
  {
    if d == [] {
      assert d + rest == rest;
    } else {
      assert (d + rest)[1..] == d[1..] + rest;
      assert Keys(d) == [d[0].0] + Keys(d[1..]);
      if d[0].0 != k {
        IndexOfAppend(d[1..], rest, k);
      }
    }
  }
}
