/**
 * A JavaScript object seen as its ordered list of own entries, and
 * `Object.fromEntries`, which the services use both to build the store filter
 * and to assemble the per-query result object.
 */
module ObjectEntries {
  import opened Wrappers

  /** The set of keys occurring in an entry list. */
  function KeySet<V>(es: seq<(string, V)>): set<string>
  {
    set i | 0 <= i < |es| :: es[i].0
  }

  /** No key occurs twice: the shape of every JavaScript object. */
  predicate DistinctKeys<V>(es: seq<(string, V)>)
  {
    forall i, j :: 0 <= i < j < |es| ==> es[i].0 != es[j].0
  }

  /** Property read `obj[k]`: the value of the first entry with key `k`. */
  function Lookup<V>(es: seq<(string, V)>, k: string): (r: Option<V>)
    ensures r.Some? <==> k in KeySet(es)
  {
    if es == [] then None
    else if es[0].0 == k then Some(es[0].1)
    else
      assert forall i :: 0 < i < |es| ==> es[i].0 == es[1..][i - 1].0;
      Lookup(es[1..], k)
  }

  /** The value carried by the LAST entry with key `k`, if any. */
  function LastValue<V>(es: seq<(string, V)>, k: string): Option<V>
  {
    if es == [] then None
    else if es[|es| - 1].0 == k then Some(es[|es| - 1].1)
    else LastValue(es[..|es| - 1], k)
  }

  /**
   * One step of `Object.fromEntries`: assigning `obj[k] = v` keeps the
   * position of an existing key and appends a new key at the end.
   */
  function Upsert<V>(acc: seq<(string, V)>, k: string, v: V): (r: seq<(string, V)>)
    ensures |r| == |acc| || r == acc + [(k, v)]
  {
    if acc == [] then [(k, v)]
    else if acc[0].0 == k then [(k, v)] + acc[1..]
    else [acc[0]] + Upsert(acc[1..], k, v)
  }

  lemma {:induction false} UpsertKeys<V>(acc: seq<(string, V)>, k: string, v: V)
    ensures KeySet(Upsert(acc, k, v)) == KeySet(acc) + {k}
    ensures k !in KeySet(acc) ==> Upsert(acc, k, v) == acc + [(k, v)]
    ensures k in KeySet(acc) ==> |Upsert(acc, k, v)| == |acc|
  {
    if acc != [] {
      assert acc == [acc[0]] + acc[1..];
      KeySetCons(acc[0], acc[1..]);
      if acc[0].0 == k {
        KeySetCons((k, v), acc[1..]);
      } else {
        UpsertKeys(acc[1..], k, v);
        KeySetCons(acc[0], Upsert(acc[1..], k, v));
      }
    } else {
      KeySetCons((k, v), acc);
      assert [(k, v)] + acc == [(k, v)];
    }
  }

  lemma {:induction false} UpsertLookup<V>(acc: seq<(string, V)>, k: string, v: V, k': string)
    ensures Lookup(Upsert(acc, k, v), k') == if k' == k then Some(v) else Lookup(acc, k')
  {
    if acc != [] && acc[0].0 != k {
      var r := Upsert(acc, k, v);
      assert r[1..] == Upsert(acc[1..], k, v);
      UpsertLookup(acc[1..], k, v, k');
    } else if acc != [] {
      assert Upsert(acc, k, v)[1..] == acc[1..];
    }
  }

  lemma {:induction false} UpsertDistinct<V>(acc: seq<(string, V)>, k: string, v: V)
    requires DistinctKeys(acc)
    ensures DistinctKeys(Upsert(acc, k, v))
  {
    if acc != [] {
      var r := Upsert(acc, k, v);
      assert acc == [acc[0]] + acc[1..];
      KeySetCons(acc[0], acc[1..]);
      if acc[0].0 == k {
        forall i, j | 0 <= i < j < |r| ensures r[i].0 != r[j].0 {
          assert r[j] == acc[j];
          if i > 0 { assert r[i] == acc[i]; }
        }
      } else {
        var rest := Upsert(acc[1..], k, v);
        assert DistinctKeys(acc[1..]) by {
          forall i, j | 0 <= i < j < |acc[1..]| ensures acc[1..][i].0 != acc[1..][j].0 {
            assert acc[1..][i] == acc[i + 1] && acc[1..][j] == acc[j + 1];
          }
        }
        UpsertDistinct(acc[1..], k, v);
        UpsertKeys(acc[1..], k, v);
        assert acc[0].0 !in KeySet(acc[1..]) by {
          forall i | 0 <= i < |acc[1..]| ensures acc[1..][i].0 != acc[0].0 {
            assert acc[1..][i] == acc[i + 1];
          }
        }
        assert acc[0].0 !in KeySet(rest);
        forall i, j | 0 <= i < j < |r| ensures r[i].0 != r[j].0 {
          if i == 0 {
            assert r[j] == rest[j - 1];
            assert rest[j - 1].0 in KeySet(rest);
          } else {
            assert r[i] == rest[i - 1] && r[j] == rest[j - 1];
          }
        }
      }
    }
  }

  lemma KeySetCons<V>(h: (string, V), t: seq<(string, V)>)
    ensures KeySet([h] + t) == {h.0} + KeySet(t)
  {
    var c := [h] + t;
    forall x | x in KeySet(c) ensures x in {h.0} + KeySet(t) {
      var i :| 0 <= i < |c| && c[i].0 == x;
      if i > 0 { assert c[i] == t[i - 1]; }
    }
    forall x | x in KeySet(t) ensures x in KeySet(c) {
      var i :| 0 <= i < |t| && t[i].0 == x;
      assert c[i + 1] == t[i];
    }
    assert c[0] == h;
  }

  /**
   * `Object.fromEntries(es)`: every key of `es` exactly once, holding its
   * last value.
   */
  function FromEntries<V>(es: seq<(string, V)>): (r: seq<(string, V)>)
    ensures DistinctKeys(r)
    ensures KeySet(r) == KeySet(es)
    ensures |r| <= |es|
    ensures forall k :: Lookup(r, k) == LastValue(es, k)
  {
    if es == [] then []
    else
      var init := es[..|es| - 1];
      var last := es[|es| - 1];
      assert KeySet(es) == KeySet(init) + {last.0} by {
        assert forall i :: 0 <= i < |init| ==> es[i] == init[i];
      }
      var prev := FromEntries(init);
      UpsertKeys(prev, last.0, last.1);
      UpsertDistinct(prev, last.0, last.1);
      assert forall k :: Lookup(Upsert(prev, last.0, last.1), k) == LastValue(es, k) by {
        forall k ensures Lookup(Upsert(prev, last.0, last.1), k) == LastValue(es, k) {
          UpsertLookup(prev, last.0, last.1, k);
        }
      }
      Upsert(prev, last.0, last.1)
  }

  /** Dropping the last entry of a list with distinct keys leaves distinct keys, without the last key. */
  lemma DistinctKeysInit<V>(es: seq<(string, V)>)
    requires DistinctKeys(es) && es != []
    ensures DistinctKeys(es[..|es| - 1])
    ensures es[|es| - 1].0 !in KeySet(es[..|es| - 1])
  {
    var init := es[..|es| - 1];
    assert forall i :: 0 <= i < |init| ==> init[i] == es[i];
  }

  /** An entry list whose keys are already distinct is its own `fromEntries`. */
  lemma {:induction false} FromEntriesOfDistinct<V>(es: seq<(string, V)>)
    requires DistinctKeys(es)
    ensures FromEntries(es) == es
  {
    if es != [] {
      var init := es[..|es| - 1];
      var last := es[|es| - 1];
      DistinctKeysInit(es);
      FromEntriesOfDistinct(init);
      UpsertKeys(init, last.0, last.1);
      assert init + [last] == es;
    }
  }

  /** A list with distinct keys has as many entries as keys. */
  lemma {:induction false} DistinctKeysCount<V>(es: seq<(string, V)>)
    requires DistinctKeys(es)
    ensures |KeySet(es)| == |es|
  {
    if es != [] {
      var init := es[..|es| - 1];
      var last := es[|es| - 1];
      DistinctKeysInit(es);
      DistinctKeysCount(init);
      assert KeySet(es) == KeySet(init) + {last.0} by {
        assert forall i :: 0 <= i < |init| ==> es[i] == init[i];
      }
    }
  }

  /** `Object.fromEntries` yields exactly one entry per distinct key of its input. */
  lemma FromEntriesCount<V>(es: seq<(string, V)>)
    ensures |FromEntries(es)| == |KeySet(es)|
  {
    DistinctKeysCount(FromEntries(es));
  }

  /**
   * The value `LastValue` finds is carried by an entry with that key after
   * which no entry has the key again.
   */
  lemma {:induction false} LastValueIsLast<V>(es: seq<(string, V)>, k: string)
    requires k in KeySet(es)
    ensures LastValue(es, k).Some?
    ensures exists i :: 0 <= i < |es| && es[i] == (k, LastValue(es, k).value)
                        && forall j :: i < j < |es| ==> es[j].0 != k
  {
    var n := |es| - 1;
    if es[n].0 != k {
      var init := es[..n];
      assert k in KeySet(init) by {
        var i :| 0 <= i < |es| && es[i].0 == k;
        assert i < n && init[i] == es[i];
      }
      LastValueIsLast(init, k);
      var i :| 0 <= i < |init| && init[i] == (k, LastValue(init, k).value)
               && forall j :: i < j < |init| ==> init[j].0 != k;
      assert es[i] == init[i];
      assert forall j :: i < j < n ==> es[j] == init[j];
    }
  }

  /**
   * `Object.fromEntries` keeps one entry per key, and the value under a key is
   * the one of the last entry with that key.
   */
  lemma FromEntriesLastWins<V>(es: seq<(string, V)>, k: string)
    requires k in KeySet(es)
    ensures exists i :: 0 <= i < |es| && es[i].0 == k
                        && Lookup(FromEntries(es), k) == Some(es[i].1)
                        && forall j :: i < j < |es| ==> es[j].0 != k
  {
    LastValueIsLast(es, k);
  }
}
