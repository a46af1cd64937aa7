/** Lists of backend records (jobs, stacks, applications, invites) as plain
    objects keyed by their `id` property, and the three edits the slices and
    the site context apply to them. */
module Records {
  import opened JsValues
  import opened Collections

  /** `record.id` */
  function Id(o: Object): Value {
    Get(o, "id")
  }

  /** `{ ...o, ...patch }`: the patch's properties win. */
  function Merge(o: Object, patch: Object): (m: Object)
    ensures m.Keys == o.Keys + patch.Keys
    ensures forall k :: k in patch ==> m[k] == patch[k]
    ensures forall k :: k in o && k !in patch ==> m[k] == o[k]
  {
    o + patch
  }

  /** `items[items.findIndex(x => x.id === rec.id)] = rec` when some index
      matches: the first record with `rec`'s id is replaced, nothing else
      changes, and with no match the list is unchanged. */
  function ReplaceById(items: seq<Object>, rec: Object): (r: seq<Object>)
    ensures |r| == |items|
    ensures (forall i :: 0 <= i < |items| ==> Id(items[i]) != Id(rec)) ==> r == items
    ensures forall i :: 0 <= i < |items| && Id(items[i]) != Id(rec) ==> r[i] == items[i]
    ensures forall i :: 0 <= i < |items| && Id(items[i]) == Id(rec) ==>
              r[i] == (if forall j :: 0 <= j < i ==> Id(items[j]) != Id(rec) then rec else items[i])
  {
    var p := (o: Object) => Id(o) == Id(rec);
    var r := ReplaceFirst(items, p, rec);
    var k := FindIndex(items, p);
    assert forall i :: 0 <= i < |items| && Id(items[i]) == Id(rec) && i != k ==> exists j :: 0 <= j < i && Id(items[j]) == Id(rec) by {
      forall i | 0 <= i < |items| && Id(items[i]) == Id(rec) && i != k
        ensures exists j :: 0 <= j < i && Id(items[j]) == Id(rec)
      {
        assert p(items[i]);
        assert k != -1 && k < i;
        assert Id(items[k]) == Id(rec);
      }
    }
    r
  }

  /** `items.filter(x => x.id !== id)`. */
  function RemoveById(items: seq<Object>, id: Value): (r: seq<Object>)
    ensures forall o :: o in r <==> o in items && Id(o) != id
    ensures forall o :: multiset(r)[o] == if Id(o) != id then multiset(items)[o] else 0
  {
    Filter(items, (o: Object) => Id(o) != id)
  }

  /** `items.map(x => x.id === id ? { ...x, ...patch } : x)`. */
  function MergeById(items: seq<Object>, id: Value, patch: Object): (r: seq<Object>)
    ensures |r| == |items|
    ensures forall i :: 0 <= i < |items| ==>
              r[i] == if Id(items[i]) == id then Merge(items[i], patch) else items[i]
  {
    MapWhere(items, (o: Object) => Id(o) == id, (o: Object) => Merge(o, patch))
  }

  /** Removal keeps the survivors in their original order: removing from a
      concatenation is the concatenation of the removals. */
  lemma RemoveKeepsOrder(a: seq<Object>, b: seq<Object>, id: Value)
    ensures RemoveById(a + b, id) == RemoveById(a, id) + RemoveById(b, id)
  {
    FilterAppend(a, b, (o: Object) => Id(o) != id);
  }

  /** Removing an id that no record carries changes nothing. */
  lemma RemoveAbsentId(items: seq<Object>, id: Value)
    requires forall i :: 0 <= i < |items| ==> Id(items[i]) != id
    ensures RemoveById(items, id) == items
  {
    FilterAllPass(items, (o: Object) => Id(o) != id);
  }

  /** Deleting an id after merging a patch into its records removes the same
      records as deleting straight away, provided the patch does not move
      them to another id. */
  lemma {:induction false} RemoveAfterMerge(items: seq<Object>, id: Value, patch: Object)
    requires "id" in patch ==> patch["id"] == id
    ensures RemoveById(MergeById(items, id, patch), id) == RemoveById(items, id)
    decreases |items|
  {
    if items != [] {
      var merged := MergeById(items, id, patch);
      RemoveAfterMerge(items[1..], id, patch);
      assert merged[1..] == MergeById(items[1..], id, patch);
      assert Id(merged[0]) == id <==> Id(items[0]) == id;
      if Id(items[0]) != id {
        assert merged[0] == items[0];
      }
    }
  }
}
