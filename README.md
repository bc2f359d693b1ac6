# Issue tracker: a verified model of the issue resource handler

This project models the REST handler of a small issue tracker: four
request handlers (GET, POST, PUT, DELETE on `/api/issues/:project`) over
one collection of issue records, and the mongoose schema that shapes those
records. It is written in Dafny and every contract below is proved.

- `wrappers.dfy` — `Option`, which tells an absent JSON key from `""` or `false`.
- `issue.dfy` (module `IssueModel`, from `models/issue.js`) — the `Issue`
  record with its store-assigned `_id`, the shape of an identifier (24
  lower-case hex digits), the schema's required fields (a required String
  must be non-empty) and its defaults (`open = true`, both timestamps at
  the creation instant). `assigned_to` and `status_text` are `Option`s:
  the schema gives them no default.
- `store.dfy` (module `IssueStore`) — the collection as a class
  `IssueCollection` holding a `map` from `_id` to record, with the four
  operations the handlers call: `Find` (exact-match filter, or a cast error),
  `Create` (required check, defaults), `FindOneAndUpdate` (partial update of
  the record scoped to `(_id, project_name)`, returning it as it was before)
  and `FindOneAndDelete`. Filters and updates are described field by field
  (`FieldOf`, `Written`) so that "only the sent fields change" and "the
  listing after a write" are stated independently of the code.
- `api.dfy` (module `IssueRoutes`, from `routes/api.js`) — request bodies
  as records of `Option` fields, the `Response` datatype (`Listed`,
  `Posted`, `Done(result, _id)`, `Failed(error, _id?)`), the validation
  predicates (truthiness for POST's required fields and for `_id`,
  presence for PUT's "no update field(s) sent"), and the four handlers as
  methods over the collection, each with a contract that fixes the
  response and the whole new state for every input.
- `scenarios.dfy` (module `IssueScenarios`) — multi-request behaviours the
  functional tests exercise, proved for all stores and inputs: create then
  list, update then list, delete twice, malformed `_id` on PUT and DELETE.

Time is a natural-number clock passed to each request (`now`); the
identifier of a new record is passed to POST (`newId`) as the store's
generator would produce it: well formed and unused. Each request is one
atomic step on the collection.

## Model

| member | source | states |
|---|---|---|
| `IssueModel.InstantiateDefaults` | models/issue.js:3-13 | a created record holds exactly the draft's fields, the given `_id`, `open == true`, and `created_on == updated_on == now`; the draft is recovered from it |
| `IssueStore.IssueCollection.Create` | models/issue.js:4-12 | `create` succeeds iff the four required Strings are non-empty; then exactly one record is added under the fresh `_id`, with the schema defaults; otherwise nothing changes |
| `IssueStore.IssueCollection.Find` | routes/api.js:12-15 | `find` returns exactly the stored records matching every filter field, or fails exactly when a filter value cannot be cast (a malformed `_id` included) |
| `IssueStore.IssueCollection.FindOneAndUpdate` | routes/api.js:97-111 | finds iff a record has that `_id` and project; applies the partial update to it alone and returns it as it was; no match leaves the collection unchanged |
| `IssueStore.IssueCollection.FindOneAndDelete` | routes/api.js:135-138 | finds iff a record has that `_id` and project; removes exactly that record; no match leaves the collection unchanged |
| `IssueStore.ApplyUpdateFields` | routes/api.js:102-110 | after an update every field holds what the update wrote there or else its old value; `_id`, `project_name` and `created_on` are never written |
| `IssueStore.ApplyUpdateIdempotent` | routes/api.js:102-110 | applying the same update twice equals applying it once |
| `IssueStore.OpenFlipsOnlyWhenSent` | routes/api.js:108 | `open` changes iff the update sends the opposite value: open/closed is toggled only by PUT's `open` |
| `IssueStore.SelectInsert` | routes/api.js:38-45 | the listing after inserting under a fresh key is the old listing plus the new record when it matches |
| `IssueStore.SelectRemove` | routes/api.js:135-138 | the listing after removing a record is the old listing without exactly that record (ids are unique) |
| `IssueStore.SelectReplace` | routes/api.js:97-111 | the listing after an update replaces the old record by the updated one (when it still matches) |
| `IssueStore.MalformedIdNeverScoped` | routes/api.js:117-123 | an `_id` that is not an identifier never finds a record, so it takes the not-found path |
| `IssueRoutes.DraftFor` | routes/api.js:25-45 | the created document carries the path project, echoes title, text and author, keeps sent optional fields, and has `""` for omitted `assigned_to`/`status_text` |
| `IssueRoutes.RequiredSentMeetsSchema` | routes/api.js:33-35 | a body passing the truthiness test passes the schema's required check iff the path project is non-empty |
| `IssueRoutes.ViewOmitsOnlyProject` | routes/api.js:47-57 | the POST response is the record minus `project_name` and nothing else: adding the project back gives the record |
| `IssueRoutes.UpdateWritesWhatWasSent` | routes/api.js:82-110 | the update writes exactly the fields present in the body (plus `updated_on`); "no update field(s) sent" holds iff it would write nothing else |
| `IssueRoutes.SpreadFilterLeavesProject` | routes/api.js:12-15 | as written, a query `project_name` replaces the path project: a GET on `apitest` can list an issue of another project |
| `IssueRoutes.SpreadFilterCastable` | routes/api.js:11-19 | the GET filter fails to cast iff some query value cannot be cast: the path project is always a castable string |
| `IssueRoutes.ScopedListingIsConjunction` | routes/api.js:12-15 | in the corrected listing a record appears iff it is stored, belongs to the path project and matches every query key, `project_name` included |
| `IssueRoutes.ConflictingProjectListsNothing` | routes/api.js:12-15 | in the corrected listing a query `project_name` different from the path project lists nothing |
| `IssueRoutes.Get` | routes/api.js:9-21 | GET lists exactly the stored records of the path project that match every query key (a query `project_name` included), or answers `{error: "could not fetch"}` iff the query cannot be cast; it never writes |
| `IssueRoutes.Post` | routes/api.js:23-64 | a falsy title, text or author gives "required field(s) missing" and no write; otherwise exactly one record is added with the defaults and answered without `project_name`; a schema refusal gives "could not create issue" and no write |
| `IssueRoutes.Put` | routes/api.js:66-124 | "missing _id" (no `_id` echoed) before "no update field(s) sent" (with `_id`), both without writing; otherwise the scoped record alone is partially updated and "successfully updated" is answered with its `_id`, or "could not update" with the `_id` as sent and no write |
| `IssueRoutes.Delete` | routes/api.js:126-151 | "missing _id" for a falsy `_id`; otherwise exactly the scoped record is removed with "successfully deleted", or "could not delete" with the `_id` and no write |
| `IssueScenarios.PostThenGet` | tests/2_functional-tests.js:13-56 | after a POST the response echoes every supplied field with `""` defaults and `open`, and listing the project gives the old listing plus exactly that record |
| `IssueScenarios.PutThenGet` | tests/2_functional-tests.js:121-145 | a matched PUT answers "successfully updated" with the `_id`, and the project listing has the updated record in place of the old one |
| `IssueScenarios.DeleteTwice` | tests/2_functional-tests.js:195-206 | deleting a stored issue succeeds once and the same DELETE then answers "could not delete" with the same `_id` |
| `IssueScenarios.PutMalformedId` | tests/2_functional-tests.js:168-176 | a PUT with a malformed `_id` answers "could not update" echoing it, and changes nothing |
| `IssueScenarios.DeleteMalformedId` | tests/2_functional-tests.js:208-217 | a DELETE with a malformed `_id` answers "could not delete" echoing it, and changes nothing |

## Findings

| source | as written | input that shows it | evidently intended | confidence | as-written member | corrected member |
|---|---|---|---|---|---|---|
| routes/api.js:12-15 | the filter `{project_name: project, ...req.query}` lets a query key `project_name` replace the path project | `GET /api/issues/apitest?project_name=other` with an issue stored in project `other` lists that issue | a GET lists the issues whose `project_name` is the path project and that match every query key, so a conflicting query `project_name` lists nothing | medium, not executed | `IssueRoutes.SpreadFilterLeavesProject` | `IssueRoutes.ScopedListingIsConjunction` |

The `Get` handler of the model makes the store call as written and then
keeps only the records of the path project (`ScopedListing`), which is the
conjunction of the path project and every query key.

## Left out

- HTTP routing, `req`/`res`, status codes and JSON serialisation: responses are the `Response` datatype.
- `console.error` logging: a side effect only.
- async/await and concurrent requests: each request is one atomic step on the collection.
- The wall clock: `Date.now` and `new Date()` are the `now` argument; mongoose evaluates the two timestamp defaults separately, the model uses one instant for both.
- Chronology of timestamps: the clock is not assumed monotone (a later request may carry an earlier `now`), so the model does not claim `created_on <= updated_on` nor that `updated_on` rises on each update; it claims only that an update sets `updated_on` to its request's `now` and keeps `created_on`.
- Dropping of `undefined` keys from PUT's update document at routes/api.js:102-110 is taken as an assumption about the store: `Update`/`ApplyUpdate` write only the fields the body carries. A store that wrote absent keys as `null` would blank every field not sent.
- ObjectId generation: the new `_id` is an argument the caller guarantees well formed and unused, as the store's generator does.
- Other spellings of an identifier that the driver accepts (upper-case hex digits, 12-character strings) are treated as malformed.
- Query-string conversion: query values are taken as already cast to the field's type (`"true"` to a boolean, a date string to an instant); a value of the wrong kind is treated as a cast error. Query keys outside the schema are not representable.
- Body values are taken as already cast to each field's type: the text fields are strings and PUT's `open` is a boolean, so a form-encoded `open: "false"` (which the store would cast to `false`), JSON `null`, numbers and objects are not representable; keys outside the schema are not representable either.
- Store failures other than the schema's required check and a cast error (a lost connection, say); they would take the same error responses.
- The order of the GET listing: it is a set.
- Updates do not run the schema's validators, so a PUT can set `issue_title`, `issue_text` or `created_by` to `""`; the collection invariant keeps only `project_name` non-empty.
- `IssueRoutes.Get`: follows the corrected listing (path project and every query key), not the filter as written at routes/api.js:12-15 (see Findings).
