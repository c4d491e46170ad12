/** A Python dict with insertion order, as the simulators keep their results in
    `self.info`: a list of (key, value) entries, oldest first. */
module OrderedDict {
  import opened Common

  type Dict<V> = seq<(string, V)>

  function KeySet<V>(d: Dict<V>): set<string>
  {
    set i | 0 <= i < |d| :: d[i].0
  }

  /** No key occurs twice, as in every Python dict. */
  ghost predicate DistinctKeys<V>(d: Dict<V>)
  {
    forall i, j :: 0 <= i < j < |d| ==> d[i].0 != d[j].0
  }

  /** The value stored under `k`, if any (`d.get(k)`). */
  function Get<V>(d: Dict<V>, k: string): Option<V>
  {
    if d == [] then None
    else if d[0].0 == k then Some(d[0].1)
    else Get(d[1..], k)
  }

  /** `del d[k]` when `k in d`, nothing otherwise: every entry with key `k` goes. */
  function Remove<V>(d: Dict<V>, k: string): (r: Dict<V>)
    ensures |r| <= |d|
    ensures forall e :: e in r ==> e in d && e.0 != k
  {
    if d == [] then []
    else if d[0].0 == k then Remove(d[1..], k)
    else [d[0]] + Remove(d[1..], k)
  }

  /** `if k in d: del d[k]` followed by `d[k] = v`: the entry moves to the end. */
  function Put<V>(d: Dict<V>, k: string, v: V): (r: Dict<V>)
    ensures |r| > 0 && r[|r| - 1] == (k, v)
    ensures forall i :: 0 <= i < |r| - 1 ==> r[i] in d && r[i].0 != k
  {
    Remove(d, k) + [(k, v)]
  }

  lemma {:induction false} RemoveKeySet<V>(d: Dict<V>, k: string)
    ensures KeySet(Remove(d, k)) == KeySet(d) - {k}
  {
    if d != [] {
      RemoveKeySet(d[1..], k);
      assert d == [d[0]] + d[1..];
      KeySetCons(d[0], d[1..]);
      if d[0].0 != k {
        KeySetCons(d[0], Remove(d[1..], k));
      }
    }
  }

  /** The keys of an entry followed by a dict. */
  lemma KeySetCons<V>(e: (string, V), r: Dict<V>)
    ensures KeySet([e] + r) == {e.0} + KeySet(r)
  {
    assert ([e] + r)[0].0 == e.0;
    forall x | x in KeySet([e] + r) ensures x in {e.0} + KeySet(r) {
      var i :| 0 <= i < |[e] + r| && ([e] + r)[i].0 == x;
      if i > 0 { assert r[i - 1].0 == x; }
    }
    forall x | x in KeySet(r) ensures x in KeySet([e] + r) {
      var i :| 0 <= i < |r| && r[i].0 == x;
      assert ([e] + r)[i + 1].0 == x;
    }
  }

  lemma KeySetAppend<V>(d: Dict<V>, e: (string, V))
    ensures KeySet(d + [e]) == KeySet(d) + {e.0}
  {
    var d' := d + [e];
    forall x | x in KeySet(d') ensures x in KeySet(d) + {e.0} {
      var i :| 0 <= i < |d'| && d'[i].0 == x;
      if i < |d| { assert d[i].0 == x; }
    }
    forall x | x in KeySet(d) ensures x in KeySet(d') {
      var i :| 0 <= i < |d| && d[i].0 == x;
      assert d'[i].0 == x;
    }
    assert d'[|d|].0 == e.0;
  }

  /** After re-inserting, the keys are the old keys plus `k`. */
  lemma PutKeySet<V>(d: Dict<V>, k: string, v: V)
    ensures KeySet(Put(d, k, v)) == KeySet(d) + {k}
  {
    RemoveKeySet(d, k);
    KeySetAppend(Remove(d, k), (k, v));
  }

  lemma {:induction false} RemoveDistinct<V>(d: Dict<V>, k: string)
    requires DistinctKeys(d)
    ensures DistinctKeys(Remove(d, k))
  {
    if d != [] {
      RemoveDistinct(d[1..], k);
      if d[0].0 != k {
        var r := Remove(d[1..], k);
        RemoveKeySet(d[1..], k);
        forall j | 0 <= j < |r| ensures r[j].0 != d[0].0 {
          assert r[j].0 in KeySet(r);
          var i :| 0 <= i < |d[1..]| && d[1..][i].0 == r[j].0;
          assert d[i + 1].0 == r[j].0;
        }
      }
    }
  }

  /** Re-inserting keeps the keys distinct, as Python guarantees. */
  lemma PutDistinct<V>(d: Dict<V>, k: string, v: V)
    requires DistinctKeys(d)
    ensures DistinctKeys(Put(d, k, v))
  {
    RemoveDistinct(d, k);
  }

  /** Lookups after a re-insertion see the new value under `k`, the old ones elsewhere. */
  lemma {:induction false} GetPut<V>(d: Dict<V>, k: string, v: V, k': string)
    ensures Get(Put(d, k, v), k') == if k' == k then Some(v) else Get(d, k')
  {
    if d == [] {
    } else if d[0].0 == k {
      GetPut(d[1..], k, v, k');
    } else {
      GetPut(d[1..], k, v, k');
      assert Put(d, k, v) == [d[0]] + Put(d[1..], k, v);
      assert (Put(d, k, v))[1..] == Put(d[1..], k, v);
    }
  }

  lemma {:induction false} RemoveAbsent<V>(d: Dict<V>, k: string)
    requires k !in KeySet(d)
    ensures Remove(d, k) == d
  {
    if d != [] {
      assert d[0].0 in KeySet(d);
      assert KeySet(d[1..]) <= KeySet(d) by {
        forall x | x in KeySet(d[1..]) ensures x in KeySet(d) {
          var i :| 0 <= i < |d[1..]| && d[1..][i].0 == x;
          assert d[i + 1].0 == x;
        }
      }
      RemoveAbsent(d[1..], k);
      assert d == [d[0]] + d[1..];
    }
  }

  lemma {:induction false} RemoveAppend<V>(a: Dict<V>, b: Dict<V>, k: string)
    ensures Remove(a + b, k) == Remove(a, k) + Remove(b, k)
  {
    if a != [] {
      assert (a + b)[1..] == a[1..] + b;
      RemoveAppend(a[1..], b, k);
    } else {
      assert a + b == b;
    }
  }

  /** Inserting a key that is not there appends it and changes nothing else. */
  lemma PutNew<V>(d: Dict<V>, k: string, v: V)
    requires k !in KeySet(d)
    ensures Put(d, k, v) == d + [(k, v)]
  {
    RemoveAbsent(d, k);
  }

  /** Re-simulating a stored key replaces its entry and moves it to the end;
      the entries before and after it keep their values and relative order. */
  lemma PutExisting<V>(before: Dict<V>, k: string, previous: V, after: Dict<V>, v: V)
    requires DistinctKeys(before + [(k, previous)] + after)
    ensures Put(before + [(k, previous)] + after, k, v) == before + after + [(k, v)]
  {
    KeyOnlyAt(before, k, previous, after);
    var front := before + [(k, previous)];
    RemoveAppend(front, after, k);
    RemoveAppend(before, [(k, previous)], k);
    RemoveAbsent(before, k);
    RemoveAbsent(after, k);
    assert Remove([(k, previous)], k) == [];
    assert Remove(front, k) == before;
    assert Remove(front + after, k) == before + after;
  }

  /** In a dict with distinct keys, the entry of `k` is its only one. */
  lemma KeyOnlyAt<V>(before: Dict<V>, k: string, previous: V, after: Dict<V>)
    requires DistinctKeys(before + [(k, previous)] + after)
    ensures k !in KeySet(before) && k !in KeySet(after)
  {
    var d := before + [(k, previous)] + after;
    forall i | 0 <= i < |before| ensures before[i].0 != k {
      assert d[i] == before[i] && d[|before|].0 == k;
    }
    forall i | 0 <= i < |after| ensures after[i].0 != k {
      assert d[|before| + 1 + i] == after[i] && d[|before|].0 == k;
    }
  }
}
