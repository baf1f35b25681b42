/** Python dictionaries from strings to strings, which remember the order in
    which their keys were first inserted: a sequence of key/value pairs. */
module Dicts {
  import opened Wrappers

  type Dict = seq<(string, string)>

  /** `list(d.keys())` */
  function Keys<V>(d: seq<(string, V)>): (r: seq<string>)
    ensures |r| == |d|
    ensures forall i :: 0 <= i < |d| ==> r[i] == d[i].0
  {
    seq(|d|, i requires 0 <= i < |d| => d[i].0)
  }

  /** `list(d.values())` */
  function Values(d: Dict): (r: seq<string>)
    ensures |r| == |d|
    ensures forall i :: 0 <= i < |d| ==> r[i] == d[i].1
  {
    seq(|d|, i requires 0 <= i < |d| => d[i].1)
  }

  predicate Distinct(ks: seq<string>) {
    forall i, j :: 0 <= i < j < |ks| ==> ks[i] != ks[j]
  }

  /** `d.get(k)` */
  function Get(d: Dict, k: string): (r: Option<string>)
    ensures r.Some? <==> k in Keys(d)
  {
    if d == [] then None
    else if d[0].0 == k then Some(d[0].1)
    else
      assert Keys(d) == [d[0].0] + Keys(d[1..]);
      Get(d[1..], k)
  }

  /** `d[k] = v`: an existing key keeps its place and takes the new value, a
      new key goes at the end. */
  function Put(d: Dict, k: string, v: string): Dict {
    if d == [] then [(k, v)]
    else if d[0].0 == k then [(k, v)] + d[1..]
    else [d[0]] + Put(d[1..], k, v)
  }

  /** `d.setdefault(k, v)` */
  function SetDefault(d: Dict, k: string, v: string): Dict {
    if k in Keys(d) then d else d + [(k, v)]
  }

  /** `{**a, **b}`: the entries of `b` put into `a`, in order. */
  function Merge(a: Dict, b: Dict): Dict
    decreases |b|
  {
    if b == [] then a else Merge(Put(a, b[0].0, b[0].1), b[1..])
  }

  /** After `d[k] = v`, `k` maps to `v` and every other key to what it
      mapped to before. */
  lemma {:induction false} PutGet(d: Dict, k: string, v: string, k': string)
    ensures Get(Put(d, k, v), k') == if k' == k then Some(v) else Get(d, k')
    decreases |d|
  {
    if d != [] && d[0].0 != k {
      PutGet(d[1..], k, v, k');
    }
  }

  /** `d[k] = v` keeps the key order: the keys are unchanged when `k` is
      present, and `k` is appended otherwise. */
  lemma PutKeys(d: Dict, k: string, v: string)
    ensures Keys(Put(d, k, v)) == if k in Keys(d) then Keys(d) else Keys(d) + [k]
  {
    if k in Keys(d) {
      PutPresentKeys(d, k, v);
    } else {
      PutAppendNew(d, k, v);
      KeysConcat(d, [(k, v)]);
    }
  }

  lemma {:induction false} PutPresentKeys(d: Dict, k: string, v: string)
    requires k in Keys(d)
    ensures Keys(Put(d, k, v)) == Keys(d)
    decreases |d|
  {
    assert Keys(d) == [d[0].0] + Keys(d[1..]);
    if d[0].0 != k {
      PutPresentKeys(d[1..], k, v);
      assert Keys(Put(d, k, v)) == [d[0].0] + Keys(Put(d[1..], k, v));
    } else {
      assert Keys(Put(d, k, v)) == [k] + Keys(d[1..]);
    }
  }

  /** A dictionary never holds a key twice. */
  lemma PutDistinct(d: Dict, k: string, v: string)
    requires Distinct(Keys(d))
    ensures Distinct(Keys(Put(d, k, v)))
  {
    PutKeys(d, k, v);
  }

  /** `setdefault` keeps the value of a present key and maps an absent one
      to the default. */
  lemma SetDefaultGet(d: Dict, k: string, v: string, k': string)
    ensures Get(SetDefault(d, k, v), k') ==
      if k' == k && k !in Keys(d) then Some(v) else Get(d, k')
  {
    if k !in Keys(d) {
      GetAppend(d, k, v, k');
    }
  }

  lemma {:induction false} GetAppend(d: Dict, k: string, v: string, k': string)
    requires k !in Keys(d)
    ensures Get(d + [(k, v)], k') == if k' == k then Some(v) else Get(d, k')
    decreases |d|
  {
    if d != [] {
      assert (d + [(k, v)])[1..] == d[1..] + [(k, v)];
      assert Keys(d) == [d[0].0] + Keys(d[1..]);
      GetAppend(d[1..], k, v, k');
    }
  }

  /** Merging dictionaries with no key in common puts the entries of the
      second after those of the first. */
  lemma {:induction false} MergeDisjoint(a: Dict, b: Dict)
    requires Distinct(Keys(b))
    requires forall i :: 0 <= i < |b| ==> b[i].0 !in Keys(a)
    ensures Merge(a, b) == a + b
    decreases |b|
  {
    if b != [] {
      PutAppendNew(a, b[0].0, b[0].1);
      var a' := a + [b[0]];
      assert Keys(a') == Keys(a) + [b[0].0];
      forall i | 0 <= i < |b[1..]| ensures b[1..][i].0 !in Keys(a') {
        assert b[1..][i] == b[i + 1];
      }
      assert Distinct(Keys(b[1..])) by {
        forall i, j | 0 <= i < j < |b[1..]| ensures Keys(b[1..])[i] != Keys(b[1..])[j] {
          assert Keys(b)[i + 1] != Keys(b)[j + 1];
        }
      }
      MergeDisjoint(a', b[1..]);
      assert a' + b[1..] == a + b;
    }
  }

  lemma {:induction false} PutAppendNew(d: Dict, k: string, v: string)
    requires k !in Keys(d)
    ensures Put(d, k, v) == d + [(k, v)]
    decreases |d|
  {
    if d != [] {
      assert Keys(d) == [d[0].0] + Keys(d[1..]);
      PutAppendNew(d[1..], k, v);
      assert [d[0]] + (d[1..] + [(k, v)]) == d + [(k, v)];
    }
  }

  /** In a dictionary with distinct keys, each entry's key gives its
      value. */
  lemma {:induction false} GetAt(d: Dict, i: nat)
    requires i < |d| && Distinct(Keys(d))
    ensures Get(d, d[i].0) == Some(d[i].1)
    decreases i
  {
    if i > 0 {
      assert Keys(d)[0] != Keys(d)[i];
      assert Keys(d[1..]) == Keys(d)[1..];
      GetAt(d[1..], i - 1);
    }
  }

  /** Looking up in `a + b` looks in `a` first. */
  lemma {:induction false} GetConcat(a: Dict, b: Dict, k: string)
    ensures Get(a + b, k) == if k in Keys(a) then Get(a, k) else Get(b, k)
    decreases |a|
  {
    if a == [] {
      assert a + b == b;
    } else {
      assert (a + b)[1..] == a[1..] + b;
      assert Keys(a) == [a[0].0] + Keys(a[1..]);
      GetConcat(a[1..], b, k);
    }
  }

  lemma KeysConcat(a: Dict, b: Dict)
    ensures Keys(a + b) == Keys(a) + Keys(b)
  {
  }
}
