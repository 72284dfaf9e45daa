# Geospatial data cache and commitment groups, modelled in Dafny

This project models the request logic of a small Flask backend, `app.py`. It has two parts.

1. **The memoised spatial range query.** `get_paginated_data` looks up a query tuple
   `(dataset, start_lat, start_lon, lat_chunk, lon_chunk)` in a process-wide cache. On a miss
   it checks the dataset against the fixed table `chl`/`carbon`/`sst`. It then asks the store
   for the documents in the half-open window `[start_lat, start_lat + lat_chunk) x
   [start_lon, start_lon + lon_chunk)`. From those documents it builds three parallel columns
   (latitudes, longitudes, data values). It caches and returns them only when the window is
   not empty. Each data value is `chlorophyll_a or carbon_phyto or sst`, using Python
   truthiness. `get_data` wraps this with the defaults `0, 0, 10, 10, 'chl'` and answers
   400 or 404.
2. **Groups and commitment cards**, as a state machine over two collections. `create_group`
   needs a name and a privacy, and rejects a name that is already taken. It keeps the
   password only for a private group. `verify_group_password` succeeds only for a private
   group whose stored password matches. `add_commitment_to_group` applies the same password
   gate to private groups and tags the new card with the group id from the URL path.
   `get_commitments_for_group` lists the cards that carry that tag. `add_commitment` checks
   that the title and description are non-empty strings.

The MongoDB collections are in-memory sequences of documents. A document maps field names to
JSON-shaped values (`JsonValues.Value`). The store's answer to a range query is the
subsequence of the collection inside the window, in store order (`PaginatedData.Matching`).
The cache is a `map` from a `CacheKey` tuple to a `Page`. It sits in the class `DataService`
together with the fixed collection table. The class invariant says that every cached entry
equals what a fresh query for its key would compute. Groups and cards are `seq` fields of the
class `CommitmentStore`. Each handler's decision is a pure function (`CreateGroupReply`,
`VerifyReply`, …). The class methods implement the handlers and are proved equal to those
functions.

Each data value uses Python `or`, so a reading of `0`, `0.0` or `""` falls through to the
next field, and can end as `None` (`PaginatedData.ZeroReadingFallsThrough`).

## Model

| member | source | states |
|---|---|---|
| `JsonValues.Or` | app.py:61-65 | Python `a or b` is `a` whenever `a` is truthy and `b` whenever `a` is falsy, and is truthy iff either operand is |
| `PaginatedData.Matching` | app.py:44-47 | the range query returns only documents of the collection that lie in the half-open latitude/longitude window, never more than the collection holds |
| `PaginatedData.MatchingAppend` | app.py:44-47 | the query preserves store order: filtering a concatenation is the concatenation of the filtered parts |
| `PaginatedData.MatchingComplete` | app.py:44-47 | every document of the collection that lies in the window is returned |
| `PaginatedData.MatchingEmptyIff` | app.py:44-51 | the query comes back empty exactly when no document lies in the window |
| `PaginatedData.DataValue` | app.py:61-65 | the value is `chlorophyll_a` when truthy, else `carbon_phyto` when truthy, else `sst` as stored (possibly `None`); it is truthy iff one of the three fields is |
| `PaginatedData.PageOf` | app.py:54-71 | the three columns have the length of the document list, and element `i` of each comes from document `i` |
| `PaginatedData.Fetch` | app.py:39-71 | a miss yields nothing for an unknown dataset or a non-positive chunk size; any result is non-empty, has three equal-length columns, and has every point inside the window |
| `PaginatedData.FetchSomeIff` | app.py:39-51 | a miss yields a result exactly when the dataset is known and its collection holds a document inside the window |
| `PaginatedData.ThreePointWindows` | app.py:44-51 | with points at 1, 5 and 9 the window `[0,6)` returns the first two in order and the window `[10,11)` returns nothing |
| `PaginatedData.ZeroReadingFallsThrough` | app.py:61-65 | a `chlorophyll_a` of `0.0` with no other value field yields `None` |
| `PaginatedData.DefaultedKey` | app.py:84-88 | a parameter that does not parse yields no key; a parsed parameter is used as given; absent parameters default to `0, 0, 10, 10` and dataset `chl` |
| `PaginatedData.DataService.constructor` | app.py:22-29 | the collection table holds exactly `chl`, `carbon` and `sst`, and the cache starts empty |
| `PaginatedData.DataService.GetPaginatedData` | app.py:32-78 | a cached key returns the stored entry and leaves the cache unchanged, even before the dataset is checked; a miss returns the fresh query result and adds exactly one entry, at that key, only when it is non-empty; an unknown dataset returns `None` and leaves the cache alone; the class invariant (every entry equals a fresh query) is kept |
| `PaginatedData.DataService.GetData` | app.py:80-98 | a parameter that does not parse gives 400 without touching the cache; otherwise the columns for the defaulted query, or 404 when there are none, and the cache gains the defaulted key exactly when it was missing and the result is non-empty |
| `PaginatedData.RepeatedQuery` | app.py:32-75 | two identical calls in a row return the same result, and the second leaves the cache as the first left it |
| `Commitments.FindGroup` | app.py:156 | a lookup by name (and, the same way, by id at app.py:179) finds a stored group that matches exactly when one exists |
| `Commitments.CardsOfGroup` | app.py:215 | the group listing holds only stored cards whose `group_id` is the path id |
| `Commitments.CardsOfGroupComplete` | app.py:215 | every stored card tagged with the group is listed |
| `Commitments.CardsOfGroupAppend` | app.py:215 | a new card is appended to its group's listing, after the older ones, and to no other group's listing |
| `Commitments.FindGroupAppend` | app.py:166-179 | after an insert, a lookup by name or id still finds the older matching group first, else the new one |
| `Commitments.CreateGroupReply` | app.py:143-173 | a body that is not an object gives 500; a group is created iff name and privacy are truthy and no group has that name; the new group keeps the supplied password iff privacy is `'private'` and `None` otherwise; a missing name or privacy gets "Group name and privacy are required" and a taken name gets "Group name must be unique", each exactly in its case |
| `Commitments.VerifyReply` | app.py:175-186 | 500 for a body that is not an object or a missing group; success iff the group is private and its stored password equals the supplied one; 403 otherwise |
| `Commitments.AddToGroupReply` | app.py:188-209 | 500 for a missing group; 403 iff the group is private and the supplied password differs from the stored one; otherwise a card with exactly the fields `title` and `description` from the body and `group_id` from the path |
| `Commitments.AddCommitmentReply` | app.py:232-259 | the body is stored as it is iff it is an object whose `title` and `description` are non-empty strings; otherwise 400, with "Invalid input data" exactly for a body that is not a non-empty object and "Title and description must be non-empty strings" exactly for the rest |
| `Commitments.GroupsMatching` | app.py:121 | the search returns exactly the stored groups whose name the regular-expression match accepts |
| `Commitments.GroupsMatchingAppend` | app.py:121 | the search keeps store order: searching a concatenation gives the concatenation of the searches |
| `Commitments.SearchReply` | app.py:112-128 | an empty query is refused with 400; a non-empty pattern the store cannot compile gives 500; every other query gives 200 with exactly the stored groups that match |
| `Commitments.CreateKeepsGroupsValid` | app.py:152-166 | a successful create keeps group names and ids pairwise distinct, name and privacy truthy, and passwords only on private groups |
| `Commitments.CreateTwiceRefused` | app.py:155-158 | repeating a successful create request is refused as a duplicate name |
| `Commitments.CreateThenVerify` | app.py:161-183 | after a private group is created, verification succeeds exactly for the password it was created with |
| `Commitments.CreatePublicThenVerify` | app.py:161-183 | a group created with any privacy other than `'private'` always fails verification |
| `Commitments.GateAgreesWithVerify` | app.py:180-195 | for a private group, adding a commitment is admitted exactly when verification succeeds; a public group admits any object body although verification refuses it |
| `Commitments.AddedCardIsListed` | app.py:198-215 | a card added through a group appears in that group's listing, after the cards already there |
| `Commitments.CommitmentStore.constructor` | app.py:107-110 | the handlers start from the collections the database already holds, which obey the store invariant |
| `Commitments.CommitmentStore.CreateGroup` | app.py:143-173 | answers as `CreateGroupReply`, appends exactly the created group and nothing else, leaves cards alone, and keeps the store invariant (names unique) |
| `Commitments.CommitmentStore.VerifyGroupPassword` | app.py:175-186 | answers as `VerifyReply` on the current groups |
| `Commitments.CommitmentStore.AddCommitmentToGroup` | app.py:188-209 | answers as `AddToGroupReply`, appends exactly the created card, leaves groups alone |
| `Commitments.CommitmentStore.GetCommitmentsForGroup` | app.py:211-221 | returns the cards tagged with the path id, in store order |
| `Commitments.CommitmentStore.GetCommitments` | app.py:224-230 | returns every stored card in store order |
| `Commitments.CommitmentStore.AddCommitment` | app.py:232-259 | answers as `AddCommitmentReply`, appends exactly the created card, leaves groups alone |
| `Commitments.CommitmentStore.SearchGroups` | app.py:112-128 | answers as `SearchReply` on the current groups |

## Left out

- HTTP routing, `jsonify`, CORS, request parsing and `app.run`. Request bodies are the decoded JSON value, and query parameters are already parsed or marked malformed (`Param`). Python's `float()` accepting `nan` and `inf` is not modelled, because coordinates are `real`.
- MongoDB connections, `.env` loading and the `ObjectId` to string conversion of the `_id` loops. Ids are opaque strings compared exactly. `ObjectId(group_id)` (app.py:179, app.py:191) also accepts upper-case hex, so in the source two path texts can name the same group. The card then stores the path text exactly as given (app.py:201). In the model only the exact id text finds the group. The id of an insert is a method parameter, required to be fresh, because the driver generates it. A path id that is not a valid ObjectId and an unknown id both give 500.
- Python exception mechanics. Each caught exception is modelled as the outcome it produces: `None` from `get_paginated_data`, or `ServerError` (500) from the group handlers. A store outage during a query is not modelled.
- CreateGroupReply: a JSON integer outside the signed 64-bit range that BSON can encode makes pymongo raise `OverflowError`, which the handler answers with 500. This happens for `name` in the `find_one` (app.py:156), and at the insert (app.py:166) for `privacy` or for the `password` of a private group. The model answers 400 or 201, because `Num` does not separate integers from floats or bound them.
- AddToGroupReply: the same `OverflowError` for an out-of-range integer `title` or `description` at the insert (app.py:199-203) gives 500 in the source and 201 in the model.
- AddCommitmentReply: the same `OverflowError` for an out-of-range integer in any field of the body at the insert (app.py:248) gives 500 in the source and 201 in the model.
- CommitmentStore: the initial collections are a constructor argument. They must satisfy the store invariant, which holds when every group and card in the database was added by these handlers. Documents written by other means are not modelled.
- IEEE float arithmetic in `start_lat + lat_chunk_size`, and float text in the cache key. Coordinates are `real` and the key is a tuple. As a result, `-0.0` and `0.0` share one key here but are two keys in the source; both entries would hold the same result.
- DataService: the collection table is fixed for the object's lifetime. The model therefore cannot show that a cached result goes stale when the store changes, although the source never re-checks the store on a hit.
- Concurrent requests sharing the cache, and the non-atomic find-then-insert check of name uniqueness in `create_group`. The model is sequential.
- MongoDB query semantics beyond plain equality and numeric ranges: an array field matching any of its elements, and query operators inside a JSON name such as `{"$ne": …}`. Values compare structurally.
- VerifyReply, AddToGroupReply: Python's `==` and `!=` on the passwords (app.py:180, app.py:194) treat `True` and `1` as equal. The model compares structurally, where `Bool(true)` and `Num(1.0)` differ. With a stored password `true` and a supplied `1`, the source answers 200 or admits the card, while the model answers 403.
- SearchGroups: whether the pattern compiles (`patternCompiles`) and the case-insensitive match (`nameMatches`) are parameters, because their semantics belong to the regex engine. The empty-query rule, the 500 for a pattern that does not compile, and the filtering are modelled.
- `get_groups` (app.py:130-139) returns the whole Groups collection with ids converted to text. It has no logic beyond the id conversion left out above.
- A client-supplied `_id` field in an `add_commitment` body is kept as an ordinary field. MongoDB would use it as the document id.
- `nc.py` (NetCDF loading and plotting) and `nc_to_mongo.py` (index creation) are I/O, floating point and visualisation, and are not part of this model.
