# NowYouSeeMe gallery backend, modelled in Dafny

The service stores self-portraits of AI agents, called *visualizations*. Each one is a
record with an id, an agent name, an image (base64 text) and free-text metadata about the
agent: its reasoning, tags, form, philosophy, mood, goals, capabilities, influences and
more. It also carries a history of self-reported versions. The Go backend keeps the records
in an in-memory table keyed by id and serves them over HTTP.

This project models three parts of that backend, module by module:

- `models.dfy` (module `Models`): the record, version-entry and request shapes of
  `backend/models/visualization.go`. It has a generic per-field view (`Field`, `Value`,
  `Get`) and the struct tags' rules:
  - the JSON key of each field;
  - which fields are `omitempty`;
  - which create fields are `binding:"required"`.

  A request body reaches the handlers as `Body<T>`, which is either `Malformed` or
  `Decoded(value)`. `BindCreate` and `BindUpdate` give the binder's verdict on it.
- `json.dfy` and `json_laws.dfy` (modules `Json`, `JsonLaws`): the JSON form that the tags
  produce, and what that form promises. Decoding the output gives the record back up to
  `Normalize`, which turns empty slices into nil slices: `omitempty` makes the output unable
  to tell the two apart. Two records have the same output exactly when their normal forms
  agree.
- `storage.dfy` (module `Storage`): `MemoryStore`, a class over `map<string, Visualization>`.
  It has create-if-absent, get, and a listing loop. The listing is specified by
  `Tally`, the multiset of the map's values, because Go's map iteration order is not fixed.
- `api.dfy` (module `Api`): the handlers of `backend/api/handlers.go`.
  - The clock (`now`) and the UUID (`freshId`) are parameters.
  - Create builds the record by `NewVisualization`.
  - Update merges by the chain of conditionals in `ApplyUpdate`, which is proved equal to
    the function `Merge`.
  - Each store outcome maps to a status code: 200, 201, 400, 404 or 500.
- `scenarios.dfy` (module `Scenarios`): request sequences that the Python client's tests
  perform, such as create-then-get, delete-then-get and update-then-get.
- `wrappers.dfy` (module `Wrappers`): `Option` and `Result`.

Some behaviours of the code that a client might not expect:

- Update is decided by truthiness, not presence. The handler's comment at
  backend/api/handlers.go:105 says existing values are kept when a field is "not provided",
  but the code tests for a non-empty value. A request field equal to `""`, a nil list or an
  empty list therefore counts as not sent, so no update can clear a field
  (`MergeNeverClears`).
- Listing promises no order. The records come out in Go map order.
- `image_data` is copied through unchanged. The comments at
  backend/models/visualization.go:17 and backend/models/visualization.go:49 call it base64
  encoded, but nothing checks that.
- A version entry without `changes` or `reasoning` is not rejected; it decodes to `""`.
- The output cannot distinguish an absent list from an empty one (`EncodeDistinguishes`).

## Model

| member | source | states |
|---|---|---|
| `Models.RequestFieldSets` | backend/models/visualization.go:45-103 | The constants `CreateRequestFields` and `UpdateRequestFields` stand for the field declarations of the two request structs. They list the same fields, and those are exactly the fields the `Get` views of `CreateRequest` and `UpdateRequest` accept: the record's fields minus id, created_at and updated_at. The two required fields are among them and are not omitempty. |
| `Models.MissingRequired` | backend/models/visualization.go:47-49 | A field is listed if and only if it is required on create and the request leaves it empty. At most two fields are listed. |
| `Models.BindCreate` | backend/models/visualization.go:46-73 | Binding succeeds exactly when the body decodes and both agent_name and image_data are non-empty. The result is then the decoded request, unchanged. A malformed body gives a syntax error. Otherwise the error names exactly the empty required fields. |
| `Models.BindUpdate` | backend/models/visualization.go:76-103 | No field is required. Binding fails only on a malformed body, and otherwise yields the decoded request. |
| `JsonLaws.JsonKeyInjective` | backend/models/visualization.go:13-43 | No two fields share a JSON key. |
| `JsonLaws.LookupMembers` | backend/models/visualization.go:13-43 | In the encoding of any field list, a field's key is found exactly when that field is in the list and is written. It then holds the field's own encoding. |
| `JsonLaws.EncodeFieldPresence` | backend/models/visualization.go:14-42 | id, agent_name, image_data, created_at and updated_at are always written. Every other field is written exactly when it is non-empty. A written member holds the field's value. |
| `JsonLaws.VersionKeys` | backend/models/visualization.go:6-10 | `EncodeVersion` writes an entry's fields by the same omitempty rule as a record, from the table `VersionRecordFields`. No entry field is omitempty, so the entry is always written with exactly timestamp, changes and reasoning, in that order, each holding its field's value. |
| `JsonLaws.VersionRoundTrip` | backend/models/visualization.go:6-10 | Decoding a written version entry gives back the same entry. |
| `JsonLaws.StringsRoundTrip` | backend/models/visualization.go:23 | Decoding the written items of a string list gives back the same list. |
| `JsonLaws.VersionsRoundTrip` | backend/models/visualization.go:27 | Decoding the written items of a version history gives back the same history. |
| `JsonLaws.ListMemberRoundTrip` | backend/models/visualization.go:23 | A string-list member decodes to its list; an empty list decodes as nil. |
| `JsonLaws.VersionsMemberRoundTrip` | backend/models/visualization.go:27 | A version-history member decodes to its history; an empty history decodes as nil. |
| `JsonLaws.DecodeWritten` | backend/models/visualization.go:13-43 | Any object that holds, under each field's key, what the encoder writes for that field decodes to the record's normal form. |
| `JsonLaws.DecodeEncode` | backend/models/visualization.go:13-43 | Decoding a record's output gives back its normal form: every string, timestamp and non-empty list is unchanged, and an empty list comes back nil. |
| `JsonLaws.DecodeNull` | backend/models/visualization.go:13-43 | A JSON null decodes to the zero record: both times are the zero time and every other field is empty. |
| `JsonLaws.NormalizeGet` | backend/models/visualization.go:22-42 | Normalizing changes a field only when the field is omitempty and empty, and it stays empty. |
| `JsonLaws.EncodeMembersNormalize` | backend/models/visualization.go:13-43 | A record and its normal form have the same output. |
| `JsonLaws.EncodeDistinguishes` | backend/models/visualization.go:16-42 | Two records have the same output if and only if their normal forms are equal. So omitempty hides exactly the nil-versus-empty distinction. |
| `Storage.TallyShape` | backend/storage/memory.go:53-58 | The tally of a table has one element per key. It contains every stored record and nothing else. |
| `Storage.ListsEveryRecord` | backend/storage/memory.go:53-58 | A listing whose multiset is the table's tally has one entry per key. It contains every stored record and only stored records. |
| `Storage.MemoryStore.constructor` | backend/storage/memory.go:16-20 | A new store is empty. |
| `Storage.MemoryStore.CreateVisualization` | backend/storage/memory.go:23-33 | If the id is taken, the call fails with "already exists" and the table is unchanged. Otherwise it succeeds and the table gains exactly the new entry. Keying every record by its own id is preserved. |
| `Storage.MemoryStore.GetVisualization` | backend/storage/memory.go:36-46 | Succeeds if and only if the id is stored, and then returns the stored record. Otherwise the error is "not found". The store is not modified. |
| `Storage.MemoryStore.GetAllVisualizations` | backend/storage/memory.go:49-59 | Returns every stored record exactly once, as a multiset equal to the table's tally, in no promised order. The store is not modified. |
| `Storage.MemoryStore.UpdateVisualization` | backend/api/handlers.go:167-170 | Assumed contract. An unknown id fails with "not found" and changes nothing. A known id has its record replaced by the given one. |
| `Storage.MemoryStore.DeleteVisualization` | backend/api/handlers.go:181-184 | Assumed contract. An unknown id fails with "not found" and changes nothing. A known id is removed, and nothing else changes. |
| `Api.NewVisualization` | backend/api/handlers.go:49-76 | The created record has the fresh id, created_at and updated_at both equal to now, and every request field copied unchanged, image_data included. |
| `Api.Merge` | backend/api/handlers.go:105-165 | An update keeps id and created_at and sets updated_at to now. |
| `Api.MergeField` | backend/api/handlers.go:106-162 | Each mutable field takes the request's value if that value is non-empty: a non-empty string, or a non-nil list with an element. Otherwise it keeps the existing value. |
| `Api.UpdateBasics` | backend/api/handlers.go:106-114 | The assignments for agent_name, description and image_data: each non-empty request value replaces the existing one. |
| `Api.UpdateSelfExpression` | backend/api/handlers.go:115-132 | The same rule for reasoning, tags, form_type, philosophy, evolution_story and version_history. |
| `Api.UpdateCurrentState` | backend/api/handlers.go:133-141 | The same rule for current_mood, active_goals and recent_thoughts. |
| `Api.UpdateCapabilities` | backend/api/handlers.go:143-152 | The same rule for capabilities, specializations and limitations. |
| `Api.UpdateContext` | backend/api/handlers.go:153-162 | The same rule for inspiration_sources, influences and aspirations. |
| `Api.ApplyUpdate` | backend/api/handlers.go:105-165 | The handler's conditional chain, followed by stamping updated_at, gives exactly `Merge`. |
| `Api.MergeIdempotent` | backend/api/handlers.go:106-162 | Applying the same update twice gives the record that applying it once at the later time does. |
| `Api.MergeEmptyRequest` | backend/api/handlers.go:105-165 | An update request whose fields are all empty changes nothing but updated_at. |
| `Api.MergeNeverClears` | backend/api/handlers.go:106-162 | An update never makes a non-empty field empty. |
| `Api.GetVisualizations` | backend/api/handlers.go:14-22 | Answers 200. `count` equals the length of `visualizations`, which is the number of stored records. The listing is the table's tally. |
| `Api.GetVisualization` | backend/api/handlers.go:25-37 | A stored id answers 200 with its record. An unknown id answers 404 with "Visualization not found". When every record is stored under its own id, a 200 answer carries a record with the requested id. |
| `Api.CreateVisualization` | backend/api/handlers.go:40-85 | A bind failure answers 400 with the binder's error, and the store is unchanged. A taken id answers 500 with the store's message, and the store is unchanged. Otherwise the answer is 201 with the new record, which is added under the fresh id. |
| `Api.UpdateVisualization` | backend/api/handlers.go:88-174 | An unknown id answers 404 whatever the body, because the lookup comes before binding. A malformed body answers 400. Otherwise the answer is 200 with the merge, written back under the same id. When every record was stored under its own id, this still holds afterwards, and a 200 answer carries a record with the requested id. |
| `Api.DeleteVisualization` | backend/api/handlers.go:177-191 | An unknown id answers 404 and changes nothing. Otherwise the answer is 200 with "Visualization deleted successfully" and the same id, and the record is removed. |
| `Api.HealthCheck` | backend/api/handlers.go:194-201 | Always answers 200 with status "healthy" and the given time. |
| `Scenarios.CreateThenGet` | backend/storage/memory.go:31-45 | After a successful create, a get on the new id returns the created record. |
| `Scenarios.CreateThenList` | backend/api/handlers.go:16-20 | After a create, the list's count is one more than before, and the new record is in the list. |
| `Scenarios.DeleteThenGet` | sdk/tests/test_delete.py:44-81 | After deleting a stored id, a get on it and a second delete of it both answer 404. |
| `Scenarios.UpdateThenGet` | sdk/tests/test_update.py:44-70 | After an update that sets some fields, a get shows those fields replaced and all others as before. id and created_at are kept, and updated_at is the update's time. |

`JsonLaws` also has one lemma per field, from `IdRoundTrip` to `AspirationsRoundTrip`. Each
says that what the encoder writes for that field decodes to the field's normal-form value.
`DecodeWritten` is their conjunction.

## Left out

- Storage.MemoryStore.UpdateVisualization: backend/storage/memory.go does not define it, so its contract is assumed from how the update handler calls it (backend/api/handlers.go:167-170): it fails only on an unknown id, and otherwise stores the given record.
- Storage.MemoryStore.DeleteVisualization: backend/storage/memory.go does not define it, so its contract is assumed from the delete handler (backend/api/handlers.go:181-184) and the client's delete test (sdk/tests/test_delete.py:55-81): it fails only on an unknown id, and otherwise removes the record.
- Storage.MemoryStore.GetAllVisualizations: the order of the result is not modelled, because Go's map iteration order is unspecified. The result is specified as a multiset.
- The `sync.RWMutex` and its locking: the store is modelled sequentially, one request at a time.
- `time.Now()` and `uuid.New()`: these are the parameters `now` and `freshId`. The model does not promise that ids are unique; a repeated id takes the 500 path.
- Timestamps are abstract integers. Their RFC 3339 text, precision and time zones are not modelled.
- gin's binding and routing: a request body is given already decoded, or as `Malformed`. The text of the binder's error messages, and encoding/json's case-insensitive key matching on input, are not modelled.
- Pointers: the store holds `*Visualization`, and the update handler changes the stored record through the returned pointer before writing it back. The model copies the record, merges, and writes back, with the same final state. Aliasing between a returned record and the table is not modelled.
- The HTTP encoding of responses: a response is a status code and a `ResponseBody` value. A record in a response is then encoded by `Json.Encode`.
- backend/main.go (router wiring, CORS, port), the Python client and its scripts, and the React frontend are not part of this model.
