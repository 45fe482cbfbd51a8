/**
 * Translation of a request's `filterMap` into the `where` argument of the
 * store's `findMany`: every key becomes `{in: v}` when its value is an array
 * and `{equals: v}` otherwise. Evaluating the filter is the store's business
 * and is not modelled.
 */
module StoreFilter {
  import opened Wrappers
  import opened ObjectEntries
  import opened JsValues

  datatype Constraint = In(values: seq<Json>) | EqualsTo(value: Json)

  /** `findMany`'s `where`: `None` is `undefined`, which selects every row. */
  type Where = Option<seq<(string, Constraint)>>

  /** `Array.isArray(value) ? 'in' : 'equals'`. */
  function ConstraintFor(value: Json): (c: Constraint)
    ensures c.In? <==> value.JArr?
    ensures c.In? ==> c.values == value.items
    ensures c.EqualsTo? ==> c.value == value
  {
    if value.JArr? then In(value.items) else EqualsTo(value)
  }

  /** `.map(([key, value]) => [key, {[...]: value}])` over the filter map's entries. */
  function TranslateEntries(entries: seq<(string, Json)>): (r: seq<(string, Constraint)>)
    ensures |r| == |entries|
  {
    if entries == [] then []
    else
      var last := entries[|entries| - 1];
      TranslateEntries(entries[..|entries| - 1]) + [(last.0, ConstraintFor(last.1))]
  }

  /** Translation keeps every key in place and translates its value. */
  lemma {:induction false} TranslateEntriesPointwise(entries: seq<(string, Json)>)
    ensures forall i :: 0 <= i < |entries| ==>
              TranslateEntries(entries)[i] == (entries[i].0, ConstraintFor(entries[i].1))
  {
    if entries != [] {
      var init := entries[..|entries| - 1];
      TranslateEntriesPointwise(init);
      assert forall i :: 0 <= i < |init| ==> init[i] == entries[i];
    }
  }

  /** The last value under a key survives translation. */
  lemma {:induction false} TranslateEntriesLastValue(entries: seq<(string, Json)>, k: string)
    ensures LastValue(TranslateEntries(entries), k)
         == if LastValue(entries, k).Some? then Some(ConstraintFor(LastValue(entries, k).value)) else None
  {
    if entries != [] {
      var init := entries[..|entries| - 1];
      var t := TranslateEntries(entries);
      assert t[..|t| - 1] == TranslateEntries(init);
      TranslateEntriesLastValue(init, k);
    }
  }

  /** The live service accepts any object-typed filter map, arrays included. */
  function LiveWhere(filterMap: Value): (r: Where)
    ensures r.Some? <==> IsObjectType(filterMap)
  {
    if IsObjectType(filterMap) then Some(FromEntries(TranslateEntries(Entries(filterMap)))) else None
  }

  /** The older service accepts plain objects only. */
  function LegacyWhere(filterMap: Value): (r: Where)
    ensures r.Some? <==> IsPlainObject(filterMap)
  {
    if IsPlainObject(filterMap) then Some(FromEntries(TranslateEntries(Entries(filterMap)))) else None
  }

  /**
   * For a filter object, both services ask for one constraint per key of the
   * object and nothing else; under each key sits `in` with the array's items
   * when the (last) value given for it is an array, and `equals` with the value
   * otherwise.
   */
  lemma FilterTranslation(fields: seq<(string, Json)>, k: string)
    ensures LiveWhere(Some(JObj(fields))) == LegacyWhere(Some(JObj(fields)))
    ensures KeySet(LiveWhere(Some(JObj(fields))).value) == KeySet(fields)
    ensures Lookup(LiveWhere(Some(JObj(fields))).value, k)
         == if LastValue(fields, k).Some? then Some(ConstraintFor(LastValue(fields, k).value)) else None
  {
    TranslateEntriesLastValue(fields, k);
    TranslateEntriesPointwise(fields);
    var t := TranslateEntries(fields);
    forall x | x in KeySet(t) ensures x in KeySet(fields) {
      var i :| 0 <= i < |t| && t[i].0 == x;
    }
    forall x | x in KeySet(fields) ensures x in KeySet(t) {
      var i :| 0 <= i < |fields| && fields[i].0 == x;
      assert t[i].0 == x;
    }
  }

  /** A filter map that is an array filters by position in the live service and not at all in the older one. */
  lemma ArrayFilterMapDiffers(items: seq<Json>)
    ensures LiveWhere(Some(JArr(items))).Some?
    ensures LegacyWhere(Some(JArr(items))).None?
  {
  }

  /** Example: `{status: "active", id: [1, 2, 3]}`. */
  lemma FilterExample()
    ensures LiveWhere(Some(JObj([("status", JStr("active")), ("id", JArr([JNum(1), JNum(2), JNum(3)]))])))
         == Some([("status", EqualsTo(JStr("active"))), ("id", In([JNum(1), JNum(2), JNum(3)]))])
  {
    var fields := [("status", JStr("active")), ("id", JArr([JNum(1), JNum(2), JNum(3)]))];
    var t := [("status", EqualsTo(JStr("active"))), ("id", In([JNum(1), JNum(2), JNum(3)]))];
    TranslateEntriesPointwise(fields);
    assert TranslateEntries(fields)[0] == t[0];
    assert TranslateEntries(fields)[1] == t[1];
    assert TranslateEntries(fields) == t;
    assert DistinctKeys(t);
    FromEntriesOfDistinct(t);
  }
}
