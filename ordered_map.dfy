/**
 * A JavaScript object with string keys, as the components use it for
 * `params`, `body`, `headers` and `formData.urlParams`: a sequence of
 * entries in insertion order (the order `Object.entries` reports), where
 * assigning an existing key changes its value in place and assigning a new
 * key appends it.
 */
module OrderedMap {
  import opened Wrappers

  type Entries<V> = seq<(string, V)>

  function Keys<V>(m: Entries<V>): (ks: seq<string>)
    ensures |ks| == |m|
    ensures forall i :: 0 <= i < |m| ==> ks[i] == m[i].0
  {
    if m == [] then [] else [m[0].0] + Keys(m[1..])
  }

  predicate UniqueKeys<V>(m: Entries<V>)
  {
    forall i, j :: 0 <= i < j < |m| ==> m[i].0 != m[j].0
  }

  /** `obj[k]`: the value stored under `k`, or `None` for `undefined`. */
  function Get<V>(m: Entries<V>, k: string): (r: Option<V>)
    ensures r.None? <==> k !in Keys(m)
    ensures r.Some? ==> (k, r.value) in m
  {
    if m == [] then None
    else if m[0].0 == k then Some(m[0].1)
    else Get(m[1..], k)
  }

  /** With distinct keys, each key reads the value stored beside it. */
  lemma {:induction false} GetUnique<V>(m: Entries<V>, i: nat)
    requires UniqueKeys(m) && i < |m|
    ensures Get(m, m[i].0) == Some(m[i].1)
  {
    if i > 0 {
      assert m[0].0 != m[i].0;
      assert m[1..][i - 1] == m[i];
      GetUnique(m[1..], i - 1);
    }
  }

  /** When every entry holds `x`, assigning `x` to a present key changes nothing. */
  lemma PutSame<V>(m: Entries<V>, k: string, x: V)
    requires k in Keys(m)
    requires forall i :: 0 <= i < |m| ==> m[i].1 == x
    ensures Put(m, k, x) == m
  {
    var r := Get(m, k);
    var i :| 0 <= i < |m| && m[i] == (k, r.value);
    PutExisting(m, k, x);
  }

  /**
   * Three entries with distinct keys, then at most one more under `k`: each
   * key reads its own value, and `k` is found exactly when it was added.
   */
  lemma GetThreePlus<V>(fixed: Entries<V>, extra: Entries<V>, k: string)
    requires |fixed| == 3 && fixed[0].0 != fixed[1].0 && fixed[0].0 != fixed[2].0 && fixed[1].0 != fixed[2].0
    requires k != fixed[0].0 && k != fixed[1].0 && k != fixed[2].0
    requires extra == [] || (|extra| == 1 && extra[0].0 == k)
    ensures UniqueKeys(fixed + extra)
    ensures Get(fixed + extra, fixed[0].0) == Some(fixed[0].1)
    ensures Get(fixed + extra, fixed[1].0) == Some(fixed[1].1)
    ensures Get(fixed + extra, fixed[2].0) == Some(fixed[2].1)
    ensures Get(fixed + extra, k) == if extra == [] then None else Some(extra[0].1)
  {
    var m := fixed + extra;
    assert UniqueKeys(m);
    GetUnique(m, 0);
    GetUnique(m, 1);
    GetUnique(m, 2);
    if extra == [] {
      assert Keys(m) == [fixed[0].0, fixed[1].0, fixed[2].0];
    } else {
      GetUnique(m, 3);
    }
  }

  /** `obj[k] = v`. */
  function Put<V>(m: Entries<V>, k: string, v: V): (r: Entries<V>)
    ensures Keys(r) == if k in Keys(m) then Keys(m) else Keys(m) + [k]
  {
    if m == [] then [(k, v)]
    else if m[0].0 == k then [(k, v)] + m[1..]
    else
      var rest := Put(m[1..], k, v);
      var r := [m[0]] + rest;
      assert r[1..] == rest;
      assert k in Keys(m) <==> k in Keys(m[1..]);
      r
  }

  /** After `obj[k] = v`, reading `k` gives `v` and every other key reads as before. */
  lemma {:induction false} GetPut<V>(m: Entries<V>, k: string, v: V, j: string)
    ensures Get(Put(m, k, v), j) == if j == k then Some(v) else Get(m, j)
  {
    if m != [] && m[0].0 != k {
      var rest := Put(m[1..], k, v);
      assert ([m[0]] + rest)[1..] == rest;
      GetPut(m[1..], k, v, j);
    }
  }

  /** Assigning a key the value it already reads as changes nothing. */
  lemma {:induction false} PutExisting<V>(m: Entries<V>, k: string, v: V)
    requires Get(m, k) == Some(v)
    ensures Put(m, k, v) == m
  {
    if m[0].0 != k {
      PutExisting(m[1..], k, v);
    }
  }

  /** Assigning a new key appends it. */
  lemma {:induction false} PutNew<V>(m: Entries<V>, k: string, v: V)
    requires k !in Keys(m)
    ensures Put(m, k, v) == m + [(k, v)]
  {
    if m != [] {
      assert Keys(m)[0] == m[0].0;
      assert k !in Keys(m[1..]);
      PutNew(m[1..], k, v);
    }
  }

  lemma {:induction false} PutKeepsKeysUnique<V>(m: Entries<V>, k: string, v: V)
    requires UniqueKeys(m)
    ensures UniqueKeys(Put(m, k, v))
  {
    var r := Put(m, k, v);
    assert forall i :: 0 <= i < |r| ==> r[i].0 == Keys(r)[i];
    assert forall i :: 0 <= i < |m| ==> m[i].0 == Keys(m)[i];
  }

  /** Every value of `m` satisfies `P`. */
  predicate AllValues<V>(m: Entries<V>, P: V -> bool)
  {
    forall i :: 0 <= i < |m| ==> P(m[i].1)
  }

  /** `xs` without repetitions, keeping first occurrences in order. */
  function Dedup(xs: seq<string>): (r: seq<string>)
    ensures forall x :: x in r <==> x in xs
    ensures forall i, j :: 0 <= i < j < |r| ==> r[i] != r[j]
  {
    if xs == [] then []
    else
      var init, last := xs[..|xs| - 1], xs[|xs| - 1];
      assert xs == init + [last];
      if last in init then Dedup(init) else Dedup(init) + [last]
  }

  /** Putting keys one at a time lists them in first-occurrence order. */
  lemma PutKeysDedup<V>(m: Entries<V>, names: seq<string>, v: V)
    requires names != [] && Keys(m) == Dedup(names[..|names| - 1])
    ensures Keys(Put(m, names[|names| - 1], v)) == Dedup(names)
  {
  }

  /** Without repetitions there is nothing to remove. */
  lemma {:induction false} DedupDistinct(xs: seq<string>)
    requires forall i, j :: 0 <= i < j < |xs| ==> xs[i] != xs[j]
    ensures Dedup(xs) == xs
  {
    if xs != [] {
      var init, last := xs[..|xs| - 1], xs[|xs| - 1];
      DedupDistinct(init);
      assert last !in init by {
        forall i | 0 <= i < |init| ensures init[i] != last {
          assert init[i] == xs[i];
        }
      }
      assert init + [last] == xs;
    }
  }
}
