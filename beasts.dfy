/**
 * The beast record and the operations of the in-memory record store,
 * stated as functions on values: the list of records and the id counter.
 * The class in BeastStore is proved against these functions.
 */
module Beasts {
  import opened Wrappers

  /** One catalogue entry (the Go struct `Beast`). */
  datatype Beast = Beast(
    id: int,
    name: string,
    description: string,
    otherNames: seq<string>,
    imageUrl: string)

  /** The zero record `Beast{}` the resolvers return on a miss. */
  const ZeroBeast := Beast(0, "", "", [], "")

  /** The hard-coded start value of the id counter `currentMaxId`. */
  const InitialMaxId := 5

  /** The optional fields an update may supply; `None` means "not given". */
  datatype Fields = Fields(
    name: Option<string>,
    description: Option<string>,
    otherNames: Option<seq<string>>,
    imageUrl: Option<string>)

  /** A value of the whole store: the record list and the id counter. */
  datatype Snapshot = Snapshot(records: seq<Beast>, maxId: int)

  predicate DistinctIds(s: seq<Beast>) {
    forall i, j :: 0 <= i < j < |s| ==> s[i].id != s[j].id
  }

  predicate IdsAtMost(s: seq<Beast>, bound: int) {
    forall i :: 0 <= i < |s| ==> s[i].id <= bound
  }

  /** The store invariant: ids are unique and none exceeds the counter. */
  predicate Inv(st: Snapshot) {
    DistinctIds(st.records) && IdsAtMost(st.records, st.maxId)
  }

  /** Index k holds the first record, in list order, whose id is `id`. */
  predicate FirstWithId(s: seq<Beast>, k: int, id: int) {
    0 <= k < |s| && s[k].id == id && forall j :: 0 <= j < k ==> s[j].id != id
  }

  /** Index k holds the first record, in list order, whose name is `name`. */
  predicate FirstWithName(s: seq<Beast>, k: int, name: string) {
    0 <= k < |s| && s[k].name == name && forall j :: 0 <= j < k ==> s[j].name != name
  }

  /** Position of the first record with the given id, if any. */
  function IndexOfId(s: seq<Beast>, id: int): (r: Option<nat>)
    ensures r.Some? ==> FirstWithId(s, r.value, id)
    ensures r.None? ==> forall k :: 0 <= k < |s| ==> s[k].id != id
  {
    if s == [] then None
    else if s[0].id == id then Some(0)
    else match IndexOfId(s[1..], id)
      case None => None
      case Some(i) => Some(i + 1)
  }

  /** Position of the first record with the given name, if any. */
  function IndexOfName(s: seq<Beast>, name: string): (r: Option<nat>)
    ensures r.Some? ==> FirstWithName(s, r.value, name)
    ensures r.None? ==> forall k :: 0 <= k < |s| ==> s[k].name != name
  {
    if s == [] then None
    else if s[0].name == name then Some(0)
    else match IndexOfName(s[1..], name)
      case None => None
      case Some(i) => Some(i + 1)
  }

  /**
   * The `beast` query: the first record whose name equals the query
   * exactly, or the zero record when the name is absent or matches nothing.
   */
  function FindByName(s: seq<Beast>, name: Option<string>): (r: Beast)
    ensures name.None? ==> r == ZeroBeast
    ensures name.Some? && (forall k :: 0 <= k < |s| ==> s[k].name != name.value) ==> r == ZeroBeast
    ensures forall k :: name.Some? && FirstWithName(s, k, name.value) ==> r == s[k]
  {
    match name
    case None => ZeroBeast
    case Some(n) =>
      match IndexOfName(s, n)
      case None => ZeroBeast
      case Some(i) => s[i]
  }

  /** The record `addBeast` builds; an omitted optional field takes its zero value. */
  function Created(id: int, name: string, description: string,
                   otherNames: Option<seq<string>>, imageUrl: Option<string>): Beast
  {
    Beast(id, name, description, otherNames.GetOr([]), imageUrl.GetOr(""))
  }

  /**
   * The store after `addBeast`: the counter goes up by one and the new
   * record, carrying the new counter value as its id, is appended.
   */
  function AfterAdd(st: Snapshot, name: string, description: string,
                    otherNames: Option<seq<string>>, imageUrl: Option<string>): (r: Snapshot)
    ensures r.maxId == st.maxId + 1
    ensures |r.records| == |st.records| + 1 && r.records[..|st.records|] == st.records
    ensures r.records[|st.records|] == Beast(st.maxId + 1, name, description,
      if otherNames.Some? then otherNames.value else [],
      if imageUrl.Some? then imageUrl.value else "")
    ensures forall k :: 0 <= k < |st.records| && IdsAtMost(st.records, st.maxId) ==>
      st.records[k].id < r.records[|st.records|].id
    ensures Inv(st) ==> Inv(r)
  {
    var b := Created(st.maxId + 1, name, description, otherNames, imageUrl);
    Snapshot(st.records + [b], st.maxId + 1)
  }

  /** A record with the supplied fields written over it; absent fields and the id are kept. */
  function Patched(b: Beast, f: Fields): (r: Beast)
    ensures r.id == b.id
    ensures r.name == (if f.name.Some? then f.name.value else b.name)
    ensures r.description == (if f.description.Some? then f.description.value else b.description)
    ensures r.otherNames == (if f.otherNames.Some? then f.otherNames.value else b.otherNames)
    ensures r.imageUrl == (if f.imageUrl.Some? then f.imageUrl.value else b.imageUrl)
    ensures f == Fields(None, None, None, None) ==> r == b
  {
    b.(name := f.name.GetOr(b.name),
       description := f.description.GetOr(b.description),
       otherNames := f.otherNames.GetOr(b.otherNames),
       imageUrl := f.imageUrl.GetOr(b.imageUrl))
  }

  /**
   * The list after `updateBeast`: only the first record with the id is
   * patched; length, order, every id and every other record stay as they were.
   */
  function UpdatedList(s: seq<Beast>, id: int, f: Fields): (r: seq<Beast>)
    ensures |r| == |s|
    ensures forall k :: 0 <= k < |s| ==> r[k].id == s[k].id
    ensures forall k :: 0 <= k < |s| ==>
      r[k] == if FirstWithId(s, k, id) then Patched(s[k], f) else s[k]
    ensures (forall k :: 0 <= k < |s| ==> s[k].id != id) ==> r == s
  {
    match IndexOfId(s, id)
    case None => s
    case Some(i) => s[i := Patched(s[i], f)]
  }

  /** The record `updateBeast` returns: the patched record, or the zero record on a miss. */
  function UpdateResult(s: seq<Beast>, id: int, f: Fields): (r: Beast)
    ensures (forall k :: 0 <= k < |s| ==> s[k].id != id) ==> r == ZeroBeast
    ensures forall k :: FirstWithId(s, k, id) ==> r == Patched(s[k], f) && r == UpdatedList(s, id, f)[k]
  {
    match IndexOfId(s, id)
    case None => ZeroBeast
    case Some(i) => Patched(s[i], f)
  }
}
