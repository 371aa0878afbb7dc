/** Python dictionaries with string keys, as insertion-ordered lists of
    (key, value) pairs. Assigning to an existing key replaces its value where
    it stands; assigning to a new key appends it at the end. */
module Dicts {

  datatype Option<T> = None | Some(value: T)

  type Dict<V> = seq<(string, V)>

  /** The keys in insertion order (`d.keys()`). */
  function Keys<V>(d: Dict<V>): (ks: seq<string>)
    ensures |ks| == |d|
  {
    if d == [] then [] else [d[0].0] + Keys(d[1..])
  }

  /** `d[k]`, or None where Python raises KeyError. */
  function Lookup<V>(d: Dict<V>, k: string): (r: Option<V>)
    ensures r.None? <==> k !in Keys(d)
  {
    if d == [] then None
    else if d[0].0 == k then Some(d[0].1)
    else Lookup(d[1..], k)
  }

  /** `d[k] = v`. */
  function Put<V>(d: Dict<V>, k: string, v: V): Dict<V>
  {
    if d == [] then [(k, v)]
    else if d[0].0 == k then [(k, v)] + d[1..]
    else [d[0]] + Put(d[1..], k, v)
  }

  /** Assignment keeps the key order, appending a key that was new, and
      afterwards the key maps to the assigned value and no other key changes. */
  lemma {:induction false} PutSpec<V>(d: Dict<V>, k: string, v: V)
    ensures Keys(Put(d, k, v)) == if k in Keys(d) then Keys(d) else Keys(d) + [k]
    ensures Lookup(Put(d, k, v), k) == Some(v)
    ensures forall k' :: k' != k ==> Lookup(Put(d, k, v), k') == Lookup(d, k')
  {
    if d != [] && d[0].0 != k {
      PutSpec(d[1..], k, v);
      assert Keys(d) == [d[0].0] + Keys(d[1..]);
    }
  }

  /** Assigning a key the value it already has leaves the dict as it was. */
  lemma {:induction false} PutExisting<V>(d: Dict<V>, k: string, v: V)
    requires Lookup(d, k) == Some(v)
    ensures Put(d, k, v) == d
  {
    if d[0].0 != k {
      PutExisting(d[1..], k, v);
    }
  }

  /** The index of the first of `ks` that is not a key of `d`, or `|ks|` when
      all of them are keys. */
  function FirstMissing<V>(d: Dict<V>, ks: seq<string>): (m: nat)
    ensures m <= |ks|
    ensures forall i :: 0 <= i < m ==> ks[i] in Keys(d)
    ensures m < |ks| ==> ks[m] !in Keys(d)
  {
    if ks == [] || ks[0] !in Keys(d) then 0 else 1 + FirstMissing(d, ks[1..])
  }

  /** The first missing key is the one the keys before it all precede. */
  lemma FirstMissingAt<V>(d: Dict<V>, ks: seq<string>, m: nat)
    requires m <= |ks|
    requires forall i :: 0 <= i < m ==> ks[i] in Keys(d)
    requires m < |ks| ==> ks[m] !in Keys(d)
    ensures FirstMissing(d, ks) == m
  {
  }

  /** The first missing key of `ks` in terms of that of `ks` without its last
      element. */
  lemma FirstMissingSnoc<V>(d: Dict<V>, ks: seq<string>)
    requires ks != []
    ensures var front := ks[..|ks| - 1];
      FirstMissing(d, ks) ==
        if FirstMissing(d, front) < |front| then FirstMissing(d, front)
        else if ks[|ks| - 1] in Keys(d) then |ks|
        else |front|
  {
    var front := ks[..|ks| - 1];
    var m := FirstMissing(d, front);
    if m < |front| {
      FirstMissingAt(d, ks, m);
    } else if ks[|ks| - 1] in Keys(d) {
      FirstMissingAt(d, ks, |ks|);
    } else {
      FirstMissingAt(d, ks, |front|);
    }
  }

  /** Every pair of `Put(d, k, v)` is `(k, v)` or a pair of `d`. */
  lemma {:induction false} PutPairs<V>(d: Dict<V>, k: string, v: V)
    ensures forall i :: 0 <= i < |Put(d, k, v)| ==> Put(d, k, v)[i] == (k, v) || Put(d, k, v)[i] in d
  {
    if d != [] && d[0].0 != k {
      PutPairs(d[1..], k, v);
      assert forall x :: x in d[1..] ==> x in d;
    }
  }
}
