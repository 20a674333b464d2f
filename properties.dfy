/**
 * Properties of the store over whole runs of mutations, and the
 * read-after-write behaviour of the `beast` query.
 */
module BeastProperties {
  import opened Wrappers
  import opened Beasts
  import opened BeastStore

  /** One call of a mutation resolver with its arguments. */
  datatype Mutation =
    | Add(name: string, description: string, otherNames: Option<seq<string>>, imageUrl: Option<string>)
    | Update(id: int, fields: Fields)

  function Apply(st: Snapshot, m: Mutation): Snapshot {
    match m
    case Add(n, d, o, i) => AfterAdd(st, n, d, o, i)
    case Update(id, f) => Snapshot(UpdatedList(st.records, id, f), st.maxId)
  }

  /** The store after the mutations, applied in order. */
  function Replay(st: Snapshot, ms: seq<Mutation>): Snapshot
    decreases |ms|
  {
    if ms == [] then st else Replay(Apply(st, ms[0]), ms[1..])
  }

  function CountAdds(ms: seq<Mutation>): nat {
    if ms == [] then 0 else (if ms[0].Add? then 1 else 0) + CountAdds(ms[1..])
  }

  /**
   * After any run of `addBeast` and `updateBeast` calls from a valid store,
   * ids stay unique and at most the counter, the list grows by one per add,
   * the counter rises by one per add, no existing record's id changes, and
   * the i-th added record sits at the end with id `maxId + 1 + i`.
   */
  lemma {:induction false} ReplayKeepsInvariant(st: Snapshot, ms: seq<Mutation>)
    requires Inv(st)
    ensures Inv(Replay(st, ms))
    ensures Replay(st, ms).maxId == st.maxId + CountAdds(ms)
    ensures |Replay(st, ms).records| == |st.records| + CountAdds(ms)
    ensures forall k :: 0 <= k < |st.records| ==> Replay(st, ms).records[k].id == st.records[k].id
    ensures forall k :: |st.records| <= k < |Replay(st, ms).records| ==>
      Replay(st, ms).records[k].id == st.maxId + 1 + (k - |st.records|)
    decreases |ms|
  {
    if ms != [] {
      var next := Apply(st, ms[0]);
      ReplayKeepsInvariant(next, ms[1..]);
      var r := Replay(st, ms);
      assert r == Replay(next, ms[1..]);
      if ms[0].Add? {
        assert next.records[|st.records|].id == st.maxId + 1;
      }
    }
  }

  /** Ids handed out by successive adds strictly increase. */
  lemma AddedIdsIncrease(st: Snapshot, ms: seq<Mutation>, i: int, j: int)
    requires Inv(st)
    requires |st.records| <= i < j < |Replay(st, ms).records|
    ensures st.maxId < Replay(st, ms).records[i].id < Replay(st, ms).records[j].id
  {
    ReplayKeepsInvariant(st, ms);
  }

  /**
   * Read after write: after `addBeast` with name `n`, the query for `n`
   * returns the new record when no earlier record bears that name, and
   * the earlier record it returned before otherwise.
   */
  lemma ReadAfterAdd(st: Snapshot, n: string, d: string,
                     o: Option<seq<string>>, i: Option<string>)
    ensures FindByName(AfterAdd(st, n, d, o, i).records, Some(n)).name == n
    ensures (forall k :: 0 <= k < |st.records| ==> st.records[k].name != n) ==>
      FindByName(AfterAdd(st, n, d, o, i).records, Some(n)) == Created(st.maxId + 1, n, d, o, i)
    ensures (exists k :: 0 <= k < |st.records| && st.records[k].name == n) ==>
      FindByName(AfterAdd(st, n, d, o, i).records, Some(n)) == FindByName(st.records, Some(n))
  {
  }

  /**
   * The worked example: five seed records with ids 1 to 5, then
   * `addBeast(name: "Chimera", description: "Lion-goat-serpent")`, then
   * `updateBeast(id: 6, imageUrl: "http://x/img.png")`, then an update of
   * an id that does not exist.
   */
  method Scenario(seed: seq<Beast>) returns (added: Beast, updated: Beast, missed: Beast, listed: seq<Beast>)
    requires |seed| == 5 && forall k :: 0 <= k < 5 ==> seed[k].id == k + 1
    ensures added == Beast(6, "Chimera", "Lion-goat-serpent", [], "")
    ensures updated == Beast(6, "Chimera", "Lion-goat-serpent", [], "http://x/img.png")
    ensures missed == ZeroBeast
    ensures |listed| == 6 && listed[..5] == seed && listed[5] == updated
  {
    var store := new Store(seed);
    added := store.AddBeast("Chimera", "Lion-goat-serpent", None, None);
    assert FirstWithId(store.records, 5, 6);
    updated := store.UpdateBeast(6, None, None, None, Some("http://x/img.png"));
    missed := store.UpdateBeast(999999, None, None, None, Some("unused"));
    listed := store.List();
  }
}
