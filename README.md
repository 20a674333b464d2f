# Beast catalogue record store

A model of the in-memory "beast" catalogue behind a GraphQL service. The
service keeps every record in a process-wide list `BeastList` and hands out
ids from a counter `currentMaxId` that starts at 5. Four resolvers work on
that state:

- `addBeast` takes the next id, builds a record from its arguments and appends it;
- `updateBeast` finds the first record with the given id and overwrites only
  the fields that were supplied, returning the zero record on a miss;
- `beast` returns the first record whose name equals the query, or the zero
  record when nothing matches or no name was given;
- `beastList` returns the whole list.

Layout:

- `wrappers.dfy` (`Wrappers`): `Option`, used for arguments a caller may leave out.
- `beasts.dfy` (`Beasts`): the `Beast` record, the zero record, the store
  invariant, and every operation as a function on values (`Snapshot` is the
  list together with the counter). These functions are the specification.
- `store.dfy` (`BeastStore`): class `Store`, holding the list and the counter
  as fields. Its methods do what the resolvers do, with the same scan loops,
  and each is proved against the functions in `Beasts`. `Valid()` is the
  store invariant: ids are distinct and none exceeds the counter.
- `properties.dfy` (`BeastProperties`): whole runs of mutations, and the
  read-after-write behaviour of the query. It also holds the worked example
  `Scenario`, driven through the class.

Two behaviours of schema.go a reader might not expect:

- The counter is not derived from the seed. It is fixed at 5 (schema.go:70),
  so the constructor requires the seed's ids to be distinct and at most 5.
- Read-after-write holds only in part. After `addBeast(name: X)`, the query
  for `X` returns the new record only when no earlier record is named `X`.
  Otherwise it still returns the earlier one, because the query returns the
  first match. `ReadAfterAdd` proves both cases.

## Model

| member | source | states |
|---|---|---|
| `Beasts.IndexOfId` | schema.go:152-153 | the index it returns holds the first record in list order with that id; no index means no record has it |
| `Beasts.IndexOfName` | schema.go:201-202 | the index it returns holds the first record in list order with exactly that name; no index means no record has it |
| `Beasts.FindByName` | schema.go:198-208 | an absent name, or a name no record has, gives the zero record; otherwise the result is the first record in list order with that name |
| `Beasts.AfterAdd` | schema.go:104-118 | the counter rises by exactly one; the list grows by one element at the end and keeps its earlier elements in order; the new record carries the new counter value as id, the given name and description, and empty values for omitted other names and image URL; its id exceeds every earlier id; the store invariant is preserved |
| `Beasts.Patched` | schema.go:154-165 | sparse update: each supplied field takes the new value, each absent field keeps its old value, the id never changes; supplying nothing leaves the record as it was |
| `Beasts.UpdatedList` | schema.go:152-171 | length, order and every id are kept; only the first record with a matching id is patched and every other record is unchanged; an id that matches nothing leaves the list unchanged |
| `Beasts.UpdateResult` | schema.go:149-173 | the result is the patched first match, equal to the element now in the list, or the zero record when no record has the id |
| `BeastStore.Store.constructor` | schema.go:70 | the store holds the seed list as given and the counter starts at 5; a seed with distinct ids all at most 5 gives a valid store |
| `BeastStore.Store.AddBeast` | schema.go:96-126 | the new state is `AfterAdd` of the old one; the returned record is the appended last element, its id is the old counter plus one, and the counter now equals that id; the id exceeds every earlier id; the invariant is kept |
| `BeastStore.Store.UpdateBeast` | schema.go:147-174 | the scan loop leaves the list equal to `UpdatedList` of the old list and returns `UpdateResult`; the counter and the invariant are kept |
| `BeastStore.Store.QueryBeast` | schema.go:196-209 | the search loop with its early return gives exactly `FindByName` of the current list; it changes nothing |
| `BeastStore.Store.List` | schema.go:218-220 | the whole list is returned as is, the same length with the same elements in the same order; nothing is changed |
| `BeastProperties.ReplayKeepsInvariant` | schema.go:104-171 | after any run of adds and updates on a valid store, ids stay distinct and at most the counter; the counter and the list length each rise by the number of adds; no existing record's id changes; the records added sit at the end with ids counter+1, counter+2, ... in order |
| `BeastProperties.AddedIdsIncrease` | schema.go:105-106 | ids handed out by successive adds are above the starting counter and strictly increase |
| `BeastProperties.ReadAfterAdd` | schema.go:198-205 | after adding a record named n, the query for n returns a record named n: the new record when no earlier record has that name, otherwise the same earlier record as before the add |
| `BeastProperties.Scenario` | schema.go:96-174 | the worked example: with seed ids 1 to 5, adding "Chimera" returns id 6 with empty other names and image URL; setting its image URL changes only that field; an update of an unknown id returns the zero record; the list then holds the seed followed by the updated record |

## Left out

- Loading the seed from `beastData.json` (schema.go:14-27, 32): file I/O, JSON decoding and printing. The seed becomes the constructor's argument. On a decoding failure the service may start empty or partly filled; that outcome is covered only as one possible seed.
- GraphQL wiring (the `beastType` object, the argument configurations and the schema, schema.go:49-68, 74-95, 128-146, 181-195, 212-215, 227-230): this is library setup, not store logic.
- The runtime type assertions on the resolver arguments (schema.go:99-102, 148, 155-164). Arguments are modelled as typed values, with `Option` for optional ones. The model does not capture the panic the unchecked assertions at schema.go:155-164 would raise on an explicit null. Nor does it capture what happens when the library delivers a list as something other than `[]string`: at schema.go:101 that would silently drop `otherNames`. The same value would make the unchecked assertion at schema.go:164 panic during `updateBeast`, after schema.go:155-161 have already written `Description`, `Name` and `ImageURL` in place; the real update is then not all-or-nothing, while `UpdateBeast` in the model always applies every supplied field or none.
- The zero record: Go's `Beast{}` has a nil `OtherNames`. The model uses the empty sequence, the same value up to serialisation.
- Integer width: Go's `int` is 32 or 64 bits wide, depending on the platform. The model's counter is unbounded, so it does not capture the wrap at the add that pushes `currentMaxId` (which starts at 5, schema.go:70) past the largest `int`; on a 64-bit platform that is add number 2^63 - 5. After that wrap `newID` (schema.go:105) is negative, and in the real program the part of the invariant saying no id exceeds the counter (`IdsAtMost`) no longer holds.
- Concurrency: the globals are changed without a lock. The model is sequential, with one owner.
