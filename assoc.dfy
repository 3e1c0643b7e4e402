/**
 * Insertion-ordered string-keyed dictionaries, as JavaScript objects and Python dicts are:
 * a sequence of (key, value) entries. `Put` is `d[k] = v` (an existing key keeps its
 * position and takes the new value; a new key goes last) and `Update` is `d.update(e)`.
 */
module Assoc {
  import opened Wrappers

  function Keys<V>(d: seq<(string, V)>): (ks: seq<string>)
    ensures |ks| == |d| && forall i :: 0 <= i < |d| ==> ks[i] == d[i].0
  {
    seq(|d|, i requires 0 <= i < |d| => d[i].0)
  }

  predicate HasKey<V>(d: seq<(string, V)>, k: string)
  {
    exists i | 0 <= i < |d| :: d[i].0 == k
  }

  /** Every key occurs once, as in a real dict. */
  predicate DistinctKeys<V>(d: seq<(string, V)>)
  {
    forall i, j | 0 <= i < j < |d| :: d[i].0 != d[j].0
  }

  /** `d.get(k)`: the value of the first entry with key `k`. */
  function Lookup<V>(d: seq<(string, V)>, k: string): (r: Option<V>)
    ensures r.Some? <==> HasKey(d, k)
  {
    if d == [] then None
    else if d[0].0 == k then Some(d[0].1)
    else
      assert HasKey(d, k) ==> HasKey(d[1..], k) by {
        if HasKey(d, k) { var i :| 0 <= i < |d| && d[i].0 == k; assert d[1..][i - 1].0 == k; }
      }
      Lookup(d[1..], k)
  }

  /** `d[k] = v`. */
  function Put<V>(d: seq<(string, V)>, k: string, v: V): (r: seq<(string, V)>)
  {
    if d == [] then [(k, v)]
    else if d[0].0 == k then [(k, v)] + d[1..]
    else [d[0]] + Put(d[1..], k, v)
  }

  /** `d.update(e)`: the entries of `e` put into `d` one after another. */
  function Update<V>(d: seq<(string, V)>, e: seq<(string, V)>): seq<(string, V)>
    decreases |e|
  {
    if e == [] then d else Update(Put(d, e[0].0, e[0].1), e[1..])
  }

  lemma {:induction false} LookupPut<V>(d: seq<(string, V)>, k: string, v: V, k': string)
    ensures Lookup(Put(d, k, v), k') == if k' == k then Some(v) else Lookup(d, k')
  {
    if d != [] && d[0].0 != k {
      LookupPut(d[1..], k, v, k');
      assert Put(d, k, v)[1..] == Put(d[1..], k, v);
    } else if d != [] {
      assert Put(d, k, v)[1..] == d[1..];
    }
  }

  /** `d[k] = v` adds `k` to the keys if it was new and keeps their order otherwise. */
  lemma {:induction false} KeysPut<V>(d: seq<(string, V)>, k: string, v: V)
    ensures Keys(Put(d, k, v)) == if HasKey(d, k) then Keys(d) else Keys(d) + [k]
  {
    if d == [] {
    } else if d[0].0 == k {
      assert HasKey(d, k);
      assert Keys(Put(d, k, v)) == Keys(d);
    } else {
      KeysPut(d[1..], k, v);
      assert HasKey(d, k) <==> HasKey(d[1..], k) by {
        if HasKey(d, k) { var i :| 0 <= i < |d| && d[i].0 == k; assert d[1..][i - 1].0 == k; }
        if HasKey(d[1..], k) { var i :| 0 <= i < |d[1..]| && d[1..][i].0 == k; assert d[i + 1].0 == k; }
      }
      assert Keys(d) == [d[0].0] + Keys(d[1..]);
      assert Keys(Put(d, k, v)) == [d[0].0] + Keys(Put(d[1..], k, v));
    }
  }

  /** After `d.update(e)` a key of `e` has its value from `e`; every other key keeps its value from `d`. */
  lemma {:induction false} LookupUpdate<V>(d: seq<(string, V)>, e: seq<(string, V)>, k: string)
    requires DistinctKeys(e)
    ensures Lookup(Update(d, e), k) == if HasKey(e, k) then Lookup(e, k) else Lookup(d, k)
    decreases |e|
  {
    if e != [] {
      var d' := Put(d, e[0].0, e[0].1);
      assert DistinctKeys(e[1..]) by {
        forall i, j | 0 <= i < j < |e[1..]| ensures e[1..][i].0 != e[1..][j].0 {
          assert e[1..][i] == e[i + 1] && e[1..][j] == e[j + 1];
        }
      }
      LookupUpdate(d', e[1..], k);
      LookupPut(d, e[0].0, e[0].1, k);
      HasKeyTail(e, k);
      if e[0].0 == k {
        forall i | 0 <= i < |e[1..]| ensures e[1..][i].0 != k {
          assert e[1..][i] == e[i + 1];
        }
      }
    }
  }

  /** Putting the entries of `e` into `d`, where no key of `e` is in `d`, appends `e`. */
  lemma {:induction false} UpdateFreshKeys<V>(d: seq<(string, V)>, e: seq<(string, V)>)
    requires forall i | 0 <= i < |e| :: !HasKey(d, e[i].0)
    requires DistinctKeys(e)
    ensures Update(d, e) == d + e
    decreases |e|
  {
    if e != [] {
      PutFresh(d, e[0].0, e[0].1);
      var d' := d + [e[0]];
      forall i | 0 <= i < |e[1..]|
        ensures !HasKey(d', e[1..][i].0)
      {
        assert e[1..][i] == e[i + 1];
        HasKeyAppend(d, e[0], e[i + 1].0);
      }
      UpdateFreshKeys(d', e[1..]);
      assert d' + e[1..] == d + e;
    }
  }

  /** `d[k] = v` with a key `k` not yet in `d` appends the entry. */
  lemma {:induction false} PutFresh<V>(d: seq<(string, V)>, k: string, v: V)
    requires !HasKey(d, k)
    ensures Put(d, k, v) == d + [(k, v)]
  {
    if d != [] {
      assert d[0].0 != k;
      HasKeyTail(d, k);
      PutFresh(d[1..], k, v);
      assert d == [d[0]] + d[1..];
    }
  }

  lemma HasKeyTail<V>(d: seq<(string, V)>, k: string)
    requires d != []
    ensures HasKey(d, k) <==> d[0].0 == k || HasKey(d[1..], k)
  {
    if HasKey(d[1..], k) {
      var i :| 0 <= i < |d[1..]| && d[1..][i].0 == k;
      assert d[i + 1].0 == k;
    }
    if HasKey(d, k) && d[0].0 != k {
      var i :| 0 <= i < |d| && d[i].0 == k;
      assert d[1..][i - 1].0 == k;
    }
  }

  lemma HasKeyAppend<V>(d: seq<(string, V)>, entry: (string, V), k: string)
    ensures HasKey(d + [entry], k) <==> HasKey(d, k) || entry.0 == k
  {
    var d' := d + [entry];
    if HasKey(d, k) {
      var i :| 0 <= i < |d| && d[i].0 == k;
      assert d'[i].0 == k;
    }
    if HasKey(d', k) && entry.0 != k {
      var i :| 0 <= i < |d'| && d'[i].0 == k;
      assert d[i].0 == k;
    }
    assert d'[|d|] == entry;
  }

  /** Looking a key up in `a + b` finds it in `a` first. */
  lemma {:induction false} LookupAppend<V>(a: seq<(string, V)>, b: seq<(string, V)>, k: string)
    ensures Lookup(a + b, k) == if HasKey(a, k) then Lookup(a, k) else Lookup(b, k)
  {
    if a != [] {
      HasKeyTail(a, k);
      if a[0].0 != k {
        LookupAppend(a[1..], b, k);
        assert (a + b)[1..] == a[1..] + b;
      }
    } else {
      assert a + b == b;
    }
  }

  /** The keys of `a + b` are distinct when those of `a` and of `b` are and no key is in both. */
  lemma DistinctAppend<V>(a: seq<(string, V)>, b: seq<(string, V)>)
    requires DistinctKeys(a) && DistinctKeys(b)
    requires forall i | 0 <= i < |b| :: !HasKey(a, b[i].0)
    ensures DistinctKeys(a + b)
  {
    var c := a + b;
    forall i, j | 0 <= i < j < |c| ensures c[i].0 != c[j].0 {
      if i < |a| && j >= |a| {
        assert c[j] == b[j - |a|];
        assert !HasKey(a, b[j - |a|].0);
        assert c[i] == a[i];
      } else if i >= |a| {
        assert c[i] == b[i - |a|] && c[j] == b[j - |a|];
      }
    }
  }

  /** `if cond: d[k] = v`. */
  function PutIf<V>(d: seq<(string, V)>, cond: bool, k: string, v: V): seq<(string, V)>
  {
    if cond then Put(d, k, v) else d
  }

  lemma LookupPutIf<V>(d: seq<(string, V)>, cond: bool, k: string, v: V, k': string)
    ensures Lookup(PutIf(d, cond, k, v), k') == if cond && k' == k then Some(v) else Lookup(d, k')
  {
    if cond { LookupPut(d, k, v, k'); }
  }

  /** Assigning a key keeps the keys of a dict distinct. */
  lemma DistinctPut<V>(d: seq<(string, V)>, k: string, v: V)
    requires DistinctKeys(d)
    ensures DistinctKeys(Put(d, k, v))
  {
    KeysPut(d, k, v);
    var r := Put(d, k, v);
    assert Keys(r) == Keys(d) || Keys(r) == Keys(d) + [k];
    forall i, j | 0 <= i < j < |r| ensures r[i].0 != r[j].0 {
      assert Keys(r)[i] == r[i].0 && Keys(r)[j] == r[j].0;
      if Keys(r) != Keys(d) && j == |d| {
        assert !HasKey(d, k);
        assert Keys(d)[i] == d[i].0;
      } else {
        assert Keys(d)[i] == d[i].0 && Keys(d)[j] == d[j].0;
      }
    }
  }

  lemma DistinctPutIf<V>(d: seq<(string, V)>, cond: bool, k: string, v: V)
    requires DistinctKeys(d)
    ensures DistinctKeys(PutIf(d, cond, k, v))
  {
    if cond { DistinctPut(d, k, v); }
  }

  /** The lookup in a record that starts with a given entry. */
  lemma LookupCons<V>(e: (string, V), d: seq<(string, V)>, k: string)
    ensures Lookup([e] + d, k) == if e.0 == k then Some(e.1) else Lookup(d, k)
  {
    assert ([e] + d)[1..] == d;
  }

  /** `d.update(e)` keeps the keys of a dict distinct. */
  lemma {:induction false} DistinctUpdate<V>(d: seq<(string, V)>, e: seq<(string, V)>)
    requires DistinctKeys(d)
    ensures DistinctKeys(Update(d, e))
    decreases |e|
  {
    if e != [] {
      DistinctPut(d, e[0].0, e[0].1);
      DistinctUpdate(Put(d, e[0].0, e[0].1), e[1..]);
    }
  }

  /** Every entry after `d[k] = v` is the new one or was already there. */
  lemma {:induction false} EntriesPut<V>(d: seq<(string, V)>, k: string, v: V)
    ensures forall e | e in Put(d, k, v) :: e == (k, v) || e in d
  {
    if d != [] && d[0].0 != k {
      EntriesPut(d[1..], k, v);
      assert forall e | e in d[1..] :: e in d;
    } else if d != [] {
      assert forall e | e in d[1..] :: e in d;
    }
  }
}
