/**
 * The process-wide record store of schema.go as one object: the record
 * list `BeastList` and the id counter `currentMaxId`, with the four
 * resolvers as its members.
 */
module BeastStore {
  import opened Wrappers
  import opened Beasts

  class Store {
    var records: seq<Beast>
    var maxId: int

    /** Ids are unique and none exceeds the counter. */
    ghost predicate Valid()
      reads this
    {
      Inv(State())
    }

    /** The store's current value. */
    ghost function State(): Snapshot
      reads this
    {
      Snapshot(records, maxId)
    }

    /**
     * Seeds the store once. The counter starts at the fixed 5 whatever the
     * seed holds, so the seed must have distinct ids, none above 5.
     */
    constructor (seed: seq<Beast>)
      requires DistinctIds(seed) && IdsAtMost(seed, InitialMaxId)
      ensures Valid()
      ensures records == seed && maxId == InitialMaxId
    {
      records := seed;
      maxId := InitialMaxId;
    }

    /**
     * `addBeast`: takes the next id from the counter, appends the new
     * record and returns it.
     */
    method AddBeast(name: string, description: string,
                    otherNames: Option<seq<string>>, imageUrl: Option<string>)
      returns (b: Beast)
      requires Valid()
      modifies this
      ensures Valid()
      ensures State() == AfterAdd(old(State()), name, description, otherNames, imageUrl)
      ensures b.id == old(maxId) + 1 && maxId == b.id
      ensures records == old(records) + [b]
      ensures b.name == name && b.description == description
      ensures b.otherNames == otherNames.GetOr([]) && b.imageUrl == imageUrl.GetOr("")
      ensures forall k :: 0 <= k < |old(records)| ==> old(records)[k].id < b.id
    {
      var newId := maxId + 1;
      maxId := maxId + 1;
      b := Beast(newId, name, description, otherNames.GetOr([]), imageUrl.GetOr(""));
      records := records + [b];
    }

    /**
     * `updateBeast`: scans for the first record with the id, writes the
     * supplied fields over it and returns it; a miss changes nothing and
     * returns the zero record.
     */
    method UpdateBeast(id: int, name: Option<string>, description: Option<string>,
                       otherNames: Option<seq<string>>, imageUrl: Option<string>)
      returns (b: Beast)
      requires Valid()
      modifies this
      ensures Valid()
      ensures maxId == old(maxId)
      ensures records == UpdatedList(old(records), id, Fields(name, description, otherNames, imageUrl))
      ensures b == UpdateResult(old(records), id, Fields(name, description, otherNames, imageUrl))
    {
      ghost var f := Fields(name, description, otherNames, imageUrl);
      b := ZeroBeast;
      var i := 0;
      while i < |records|
        invariant 0 <= i <= |records|
        invariant records == old(records) && maxId == old(maxId)
        invariant b == ZeroBeast
        invariant forall k :: 0 <= k < i ==> records[k].id != id
      {
        if records[i].id == id {
          var r := records[i];
          if description.Some? {
            r := r.(description := description.value);
          }
          if name.Some? {
            r := r.(name := name.value);
          }
          if imageUrl.Some? {
            r := r.(imageUrl := imageUrl.value);
          }
          if otherNames.Some? {
            r := r.(otherNames := otherNames.value);
          }
          assert FirstWithId(records, i, id);
          records := records[i := r];
          b := records[i];
          break;
        }
        i := i + 1;
      }
    }

    /** `beast`: a search in list order with an early return. */
    method QueryBeast(name: Option<string>) returns (b: Beast)
      ensures b == FindByName(records, name)
    {
      if name.Some? {
        for i := 0 to |records|
          invariant forall k :: 0 <= k < i ==> records[k].name != name.value
        {
          if records[i].name == name.value {
            assert FirstWithName(records, i, name.value);
            return records[i];
          }
        }
      }
      return ZeroBeast;
    }

    /** `beastList`: the whole record list, in insertion order. */
    function List(): (r: seq<Beast>)
      reads this
      ensures |r| == |records| && forall k :: 0 <= k < |r| ==> r[k] == records[k]
    {
      records
    }
  }
}
