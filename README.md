# phone-book: contact matching, user lookup and the connection string

This project is a Dafny model of the core of a small Go phone-book service.
A user uploads a contact list. The service looks each phone number up in the
user directory and saves a directed relation, from the user to each matched
user. It also passes through two reads: the user's friends and a user's display
name. The model covers three parts:

- **Contact service** (`service.dfy`, module `Service`). `ContactService.SaveContacts`
  has two loops. The first looks up every contact in input order: an error
  aborts, a nil user is skipped, and a match adds `Relation(userID, matched.userID)`.
  The second saves the collected relations one at a time. There is no
  transaction, so a failing save leaves the earlier relations saved.
  `ContactStore` is modelled as the in-memory class `MemoryStore`. It holds a
  directory from phone number to user and an append-only sequence of relations.
  Lookup failures are injected per call number of `FindUserByPhone`, and save
  failures per call number of `SaveRelation`, so a number listed twice can be
  found once and fail the next time. A `log` records every lookup and save in
  the order the store received them. The store answers `FindFriends` from a
  fixed friend list per user (empty when none is given) and `GetName` from a
  fixed name per user (a "no rows in result set" error when none is given);
  either can be made to fail for a given user.
  `Resolve` and `FirstFailure` are pure functions that specify the two phases.
  `Matched` is an independent reference definition of which users are matched.
- **Postgres store** (`storage.dfy`, module `Storage`). `FindUserByPhone`
  collects the scanned rows in a loop and turns the first row into the user.
  `SaveRelation` builds an insert record. The SQL and the database are abstracted:
  a select gives a build failure, a query failure or the rows its cursor
  produces, and an insert gives a build failure, an execution failure or success.
- **Configuration** (`config.dfy`, module `Config`). `ToDataSourceName` builds the
  Postgres connection string. An empty schema defaults to `public` and no field
  is escaped. A parser for the format proves a round-trip when no field contains
  a delimiter. A collision lemma shows that two configurations can share one
  connection string once a field does contain one.

Shared records live in `entities.dfy` (module `Entities`): `Contact`, `User`,
`Relation`, `Friend`, `Error`, and `UserLookup`, which stands for the
`(*User, error)` pair.

Three behaviours of the code that the model keeps as written:
- The code has no transaction: it is commented out at
  service/contact_service.go:26-31, so a failing save leaves the earlier
  relations saved. `SecondSaveFailureScenario` shows one relation still saved
  after the second save fails.
- The user query uses `LIMIT 1` and takes the first row; several matching rows
  are not an error.
- For an unknown phone number the Postgres store panics (see Findings).

## Model

| member | source | states |
|---|---|---|
| `Config.SearchPath` | config/config.go:74-77 | the schema in the connection string is never empty: an empty configured schema becomes `public`, any other appears verbatim |
| `Config.ToDataSourceName` | config/config.go:73-79 | the connection string starts with `postgres://` followed by the user and `:`, and ends with `&search_path=` followed by the effective schema |
| `Config.DecimalRoundTrip` | config/config.go:78 | the `%d` rendering of the port, including a minus sign for negative values, reads back as the same integer |
| `Config.ParseRoundTrip` | config/config.go:73-79 | when the user name and host have no `:`, the password has no `@` and the name has no `?`, the connection string determines every field; an empty schema comes back as `public` |
| `Config.UnescapedFieldsCollide` | config/config.go:78 | fields are spliced in unescaped: for any configuration, moving a `:`-separated piece from the front of the password to the end of the user name gives a different configuration with the same connection string |
| `Config.EmptySchemaIsPublic` | config/config.go:74-77 | an empty schema and an explicit `public` schema give identical connection strings |
| `Storage.BuildUser` | storage/relation.go:95-101 | the user has the scanned row's id, name and phone number unchanged |
| `Storage.BuildUserBijective` | storage/relation.go:95-101 | building a user loses no information: rows and users convert back and forth exactly |
| `Storage.InsertRecord` | storage/relation.go:61-67 | the insert record has exactly the keys `user_id` and `relation_user_id`, carrying the relation's owner and target; it supplies no `relation_id` |
| `Storage.InsertRecordRoundTrip` | storage/relation.go:61-67 | the relation can be read back from its insert record |
| `Storage.SaveRelation` | storage/relation.go:60-78 | returns no error exactly when the insert succeeds; any build or execution failure becomes one fixed message, with the database's error discarded |
| `Storage.CollectRows` | storage/relation.go:46-53 | fails, with the fixed read error, exactly when some row's scan fails; otherwise returns every row's columns in cursor order |
| `Storage.FindUserByPhone` | storage/relation.go:33-58 | a build or query failure gives a nil user plus a fixed error; a scan failure gives the read error; with rows, the user is built from the first row; with no rows it panics; a nil user with a nil error is never returned |
| `Storage.FindUserByPhoneIntended` | storage/relation.go:33-58 | the same lookup with the no-rows case returning a nil user and nil error, which happens exactly when there are no rows |
| `Storage.UnknownPhonePanics` | storage/relation.go:46-55 | a number nobody owns makes the store's lookup panic, where the intended lookup reports no user |
| `Service.Resolve` | service/contact_service.go:33-46 | the first phase collects at most one relation per contact, and every one of them is owned by `userID` |
| `Service.FirstFailure` | service/contact_service.go:33-53 | how many store calls in a row succeed before the first failing one (a lookup in the first loop, a save in the second): all those calls succeed, and the next fails unless every call succeeded |
| `Service.ResolveFailure` | service/contact_service.go:33-37 | the first phase fails exactly when some lookup call fails, and returns the first failing call's error unchanged |
| `Service.PrefixFailureSticks` | service/contact_service.go:33-37 | a lookup failure among the first contacts aborts the whole phase with the same error, whatever follows |
| `Service.MatchedAppend` | service/contact_service.go:33-46 | matching respects order: the matches for earlier contacts come first; listing the same contacts twice yields their matches twice, with no de-duplication |
| `Service.MatchedMembers` | service/contact_service.go:38-45 | a user is matched exactly when some contact's phone number belongs to them; contacts without a user contribute nothing |
| `Service.ResolveMatches` | service/contact_service.go:33-46 | with no lookup failure, the collected relations are one per matched contact, in contact order, each from `userID` to the matched user |
| `Service.MemoryStore.FindUserByPhone` | service/contact_service.go:9 | every lookup is logged and counted; a lookup call injected to fail returns its error, any other answers with the owning user, else no user |
| `Service.MemoryStore.SaveRelation` | service/contact_service.go:10 | every save is logged and counted; a save injected to fail returns its error and leaves the relations unchanged; any other save appends the relation |
| `Service.ContactService.constructor` | service/contact_service.go:19-21 | the service uses the given store |
| `Service.ContactService.SaveContacts` | service/contact_service.go:23-55 | if a lookup fails, that error is returned unchanged; the lookups stop at the first failing call; no save is attempted and the relations are unchanged. Otherwise every lookup precedes every save, and the relations are saved in order until the first failing save. Earlier relations stay saved and later ones are never attempted. The failing save's error is returned unchanged, or nil if all saves succeed. An empty list makes no store call |
| `Service.ContactService.MatchContacts` | service/contact_service.go:33-46 | the first loop's result is exactly `Resolve` of the directory and the contacts; the store has seen the lookups up to the first failing call, or all of them |
| `Service.ContactService.SaveRelations` | service/contact_service.go:48-53 | the second loop saves the first `FirstFailure` relations in order; it attempts one more save only when that save fails, and returns that save's error or nil |
| `Service.ContactService.FindFriends` | service/contact_service.go:57-70 | on a store error, returns that error with no list; otherwise a list of the same length and order as the store's, element by element |
| `Service.ContactService.GetName` | service/contact_service.go:72-80 | on a store error, returns the empty name and that error; otherwise the store's name and no error |
| `Service.UploadedMatches` | service/contact_service.go:33-46 | with users 1, 2 and 3 and contacts for 2, 3 and an unknown number, the first phase yields exactly the relations 1→2 and 1→3 |
| `Service.DuplicateContactSecondLookupFails` | service/contact_service.go:33-37 | a contact listed twice is matched on its first lookup, and a failure of its second lookup still aborts the phase with that error |
| `Service.MatchingScenario` | service/contact_service.go:23-55 | that upload saves 1→2 and 1→3 in order, returns no error and skips the unknown number |
| `Service.SecondSaveFailureScenario` | service/contact_service.go:26-31 | when the second save fails, its error is returned and 1→2 stays saved: nothing is rolled back |
| `Service.ResubmissionScenario` | service/contact_service.go:33-53 | uploading the same list twice saves every relation twice |
| `Service.LookupFailureScenario` | service/contact_service.go:33-37 | a lookup error on the second contact is returned; the third contact is never looked up and nothing is saved |
| `Service.NameScenario` | service/contact_service.go:72-80 | a known id gives its name with no error; an unknown id gives the empty name and the store's error |

## Left out

- `main.go`: flag parsing, signal handling, route registration and server start-up are process plumbing.
- `api/http.go`: HTTP transport, request parsing and status codes. Its `Friends` and `Name` handlers are unimplemented.
- `config/config.go` `LoadConfig` and `loadDefaultSettingsFor`: reading files, the environment and flags.
- `storage/store.go`: the pgx connection and its query and exec wrappers. They appear only as the abstract select and insert outcomes.
- `storage/migration/*.go`, `storage/filtering/filter.go` and `tests/*`: schema migration, an unused expression helper, and container and database test set-up.
- SQL text generation: the statement text is library behaviour. Only the record handed to the insert builder is modelled. `SaveRelation` passes its arguments as one slice (`args` rather than `args...`), so the model makes no claim that the record reaches the database intact.
- `Store.FindFriends` and `Store.GetName` are outside the modelled files: the service calls them through `ContactStore` (service/contact_service.go:11-12), but no Postgres implementation of them is part of this model. `MemoryStore` answers them from fixed maps, not from the saved relations. For an unknown id, its `GetName` gives a "no rows in result set" error; this is the in-memory store's own choice.
- Context, cancellation and concurrency: there is no `ctx`, and every call runs to completion. Two concurrent uploads are not modelled.
- The commented-out transaction: it does not exist in the running code, so atomicity is not modelled as a guarantee.
- The cursor's own error (`rows.Err()`) is not checked by the code. A cursor that stops early looks like the end of the rows.
- Closing the cursor: `FindUserByPhone` never calls `rows.Close()` (storage/relation.go:42-53), although `Rows` declares `Close` (storage/store.go:54), so on the scan-error return (storage/relation.go:49-50) the cursor stays open. The model's select is a stateless function from number to rows, so connection and cursor resources, and their leak, are not captured.
- Pointers: `[]*Friend` and `*User` are modelled as values. A nil element in the store's friend list, whose dereference would panic, is not modelled.
- Go's `int` is modelled as an unbounded `int`. The core does no arithmetic on ids or ports, so the width never matters.
- `MemoryStore`: its `NoUser` answer for an unknown number follows the `ContactStore` interface and the intended lookup. The Postgres store panics instead (see Findings).

## Findings

| source | as written | input that shows it | evidently intended | confidence | as-written member | corrected member |
|---|---|---|---|---|---|---|
| storage/relation.go:46-57 | when the query yields no rows, `userRaws[0]` indexes an empty slice and panics | any phone number that no registered user owns (the query succeeds with zero rows) | return a nil user and a nil error. `SaveContacts` checks for a nil user and skips the contact (service/contact_service.go:38-40), and a test checks `user != nil` (storage/store_test.go:93) | high; not executed | `Storage.UnknownPhonePanics` (with `Storage.FindUserByPhone`) | `Storage.FindUserByPhoneIntended`; the service's `MemoryStore` follows this behaviour |
