/** Stored documents as the JavaScript holds them: plain objects whose fields
    are looked up by name, compared by `_id`, and copied by spreading. */
module Records {
  import opened Wrappers
  import opened Seqs

  /** A JSON-like field value. `Undefined` is what reading a missing field gives. */
  datatype Value =
    | Undefined
    | Null
    | Bool(b: bool)
    | Num(n: int)
    | Text(s: string)
    | List(items: seq<Value>)
    | Obj(fields: map<string, Value>)

  /** A sheet or playlist document: field name to value. */
  type Record = map<string, Value>

  /** `r[key]`, which is `undefined` for a field the object does not have. */
  function Field(r: Record, key: string): Value
  {
    if key in r then r[key] else Undefined
  }

  /** The test `r._id === id` that every lookup of the service and the store uses. */
  predicate HasId(r: Record, id: Value)
  {
    Field(r, "_id") == id
  }

  /** `rs.findIndex(r => r._id === id)`: the first matching index, or -1. */
  function FindIndex(rs: seq<Record>, id: Value): (i: int)
    ensures -1 <= i < |rs|
    ensures i == -1 <==> forall k :: 0 <= k < |rs| ==> !HasId(rs[k], id)
    ensures i >= 0 ==> HasId(rs[i], id) && forall k :: 0 <= k < i ==> !HasId(rs[k], id)
  {
    if rs == [] then -1
    else if HasId(rs[0], id) then 0
    else
      var j := FindIndex(rs[1..], id);
      if j == -1 then -1 else j + 1
  }

  /** `rs.find(r => r._id === id)`: the first matching document, if any. */
  function Find(rs: seq<Record>, id: Value): (r: Option<Record>)
    ensures r.None? <==> forall k :: 0 <= k < |rs| ==> !HasId(rs[k], id)
    ensures r.Some? ==> r.value in rs && HasId(r.value, id)
    ensures r.Some? ==> exists k :: 0 <= k < |rs| && rs[k] == r.value && forall j :: 0 <= j < k ==> !HasId(rs[j], id)
  {
    var i := FindIndex(rs, id);
    if i < 0 then None else Some(rs[i])
  }

  /** `rs.filter(r => r._id !== id)`. */
  function WithoutId(rs: seq<Record>, id: Value): (r: seq<Record>)
    ensures Sub(r, rs)
    ensures forall k :: 0 <= k < |r| ==> !HasId(r[k], id)
    ensures forall x :: x in r <==> x in rs && !HasId(x, id)
    ensures forall x :: !HasId(x, id) ==> multiset(r)[x] == multiset(rs)[x]
  {
    var out := Filter(rs, x => !HasId(x, id));
    SubMembers(out, rs);
    assert forall k :: 0 <= k < |out| ==> out[k] in out;
    assert forall x :: x in rs && !HasId(x, id) ==> multiset(out)[x] == multiset(rs)[x] > 0;
    out
  }

  /** Removing an id that no document has leaves the collection as it was. */
  lemma WithoutAbsentId(rs: seq<Record>, id: Value)
    requires forall k :: 0 <= k < |rs| ==> !HasId(rs[k], id)
    ensures WithoutId(rs, id) == rs
  {
    FilterKeepsAll(rs, x => !HasId(x, id));
  }

  /** `rs.map(r => r._id === id ? u : r)`: every match replaced, not only the first. */
  function ReplaceAll(rs: seq<Record>, id: Value, u: Record): (r: seq<Record>)
    ensures |r| == |rs|
    ensures forall k :: 0 <= k < |rs| && HasId(rs[k], id) ==> r[k] == u
    ensures forall k :: 0 <= k < |rs| && !HasId(rs[k], id) ==> r[k] == rs[k]
  {
    if rs == [] then []
    else [if HasId(rs[0], id) then u else rs[0]] + ReplaceAll(rs[1..], id, u)
  }

  /** No two documents of the collection share an `_id`. */
  predicate UniqueIds(rs: seq<Record>)
  {
    forall i, j :: 0 <= i < j < |rs| ==> Field(rs[i], "_id") != Field(rs[j], "_id")
  }

  /** With unique ids, replacing every match is replacing the first match, so
      the store's `map` and the service's index assignment agree. */
  lemma {:induction false} ReplaceAllIsReplaceFirst(rs: seq<Record>, id: Value, u: Record)
    requires UniqueIds(rs)
    requires FindIndex(rs, id) >= 0
    ensures ReplaceAll(rs, id, u) == rs[FindIndex(rs, id) := u]
  {
    var i := FindIndex(rs, id);
    var r := ReplaceAll(rs, id, u);
    forall k | 0 <= k < |rs|
      ensures r[k] == rs[i := u][k]
    {
      if k != i {
        assert Field(rs[k], "_id") != Field(rs[i], "_id") by {
          if k < i { assert !HasId(rs[k], id); } else { assert Field(rs[i], "_id") != Field(rs[k], "_id"); }
        }
      }
    }
  }

  /** Without unique ids the two disagree: two documents with the same `_id`
      are both replaced by the store but only the first by the service. */
  lemma ReplaceAllDiffersOnDuplicateIds()
    ensures var d := map["_id" := Text("a")];
            var u := map["_id" := Text("a"), "name" := Text("b")];
            ReplaceAll([d, d], Text("a"), u) != [d, d][FindIndex([d, d], Text("a")) := u]
  {
    var d := map["_id" := Text("a")];
    var u := map["_id" := Text("a"), "name" := Text("b")];
    assert HasId(d, Text("a"));
    assert FindIndex([d, d], Text("a")) == 0;
    assert ReplaceAll([d, d], Text("a"), u)[1] == u;
    assert [d, d][0 := u][1] == d;
    assert "name" in u && "name" !in d;
  }

  /** `{ ...base, ...updates, updatedAt }`: a shallow merge in which `updates`
      overrides `base` field by field and the fresh timestamp overrides both. */
  function Merge(base: Record, updates: Record, updatedAt: string): (r: Record)
    ensures r.Keys == base.Keys + updates.Keys + {"updatedAt"}
    ensures Field(r, "updatedAt") == Text(updatedAt)
    ensures forall k :: k in updates && k != "updatedAt" ==> r[k] == updates[k]
    ensures forall k :: k in base && k !in updates && k != "updatedAt" ==> r[k] == base[k]
  {
    (base + updates)["updatedAt" := Text(updatedAt)]
  }
}
