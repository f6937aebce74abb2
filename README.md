# Notes app record-keeping, modelled in Dafny

This project models the record-keeping core of a multi-user notes application.
Users register and log in. Each user keeps short notes, and each note has a
category and a priority. The application can also report statistics over a
user's notes. Four pieces are modelled:

- **The in-memory Express server** (`backend/app.js`). It keeps two process-level
  arrays, `users` and `notes`, and its route handlers change them. In the model
  this is the class `InMemoryApi.Server` with two `seq` fields. Handlers that
  change the arrays are methods with `modifies` clauses. Handlers that only read
  them are functions with `reads this`, except the statistics route: it is a method
  that changes nothing, because the statistics are computed by a loop. HTTP status codes become the `Reply`
  constructors `Ok`, `BadRequest`, `Unauthorized` and `NotFound`, and each carries
  the source's own error message.
- **The single-table data-access layer** (`backend/services/userService.js`,
  `backend/services/notesService.js`). Both services share one DynamoDB table.
  In the model the table is the class `KeyedTable.Table`, holding a
  `map<(string, string), Item>` keyed by (PK, SK). User profiles live at
  (`USER#<t>`, `PROFILE`). Notes live in their owner's partition at
  (owner, `NOTE#<t>`). The services become module-level methods over a `Table`,
  because the JavaScript service objects have no fields of their own. The table
  invariant `WellFormed` says that every item is stored under its own key and has
  the shape the services write. Every service write preserves it.
- **Statistics** (`Aggregator`). The server, the notes service and the dashboard
  tiles all compute the same counts. The model defines them once, as `Summarize`,
  over each note's (category, priority). The `forEach` that fills `byCategory` is a
  loop (`CountByCategory`), proved equal to the fold `Tally`.
- **The dashboard's client state** (`frontend/src/components/Dashboard.js`,
  `NotesStats.js`). The class `DashboardView.Dashboard` holds `notes`,
  `filteredNotes`, `searchTerm`, `loading` and `error`. Its invariant `Valid` says
  the search effect has run: `filteredNotes == SearchResults(notes, searchTerm)`.

Foreign code and the environment become parameters:

- bcrypt's `hash` is a function parameter `hash: string -> string`.
- bcrypt's `compare` is a parameter `compare: (string, string) -> bool`.
- `Date.now()` is a `clock` parameter.
- `new Date().toISOString()` is a `now` parameter.
- The outcome of each API call the dashboard makes is a parameter. For fetching and
  adding notes it is an `Option`, where `None` stands for a rejected promise. For
  deleting a note it is a `bool` that says whether the call succeeded.

A missing or falsy request field is modelled as the empty string.

The model follows the code as written:

- `createUser` rejects only a taken key, never a taken email.
- `deleteNote` reports success even when the key was absent.
- The notes service has no update operation. The partial-update merge exists only
  in the in-memory server.
- Nothing is proved about `updatedAt` moving forward in time.

## Model

| member | source | states |
|---|---|---|
| `Seqs.FindIndex` | backend/app.js:202 | `findIndex`/`find`: the result is the first index satisfying the test; None exactly when no element does |
| `Seqs.Filter` | backend/app.js:154 | `filter`: keeps exactly the elements satisfying the test, never more than the input |
| `Seqs.FilterAppend` | backend/app.js:154 | filtering distributes over concatenation, so `filter` keeps the relative order |
| `Seqs.FilterSnoc` | backend/app.js:188 | after appending an element, the filter result gains that element at the end exactly when it passes |
| `Seqs.FilterAround` | backend/app.js:234 | filtering around one element splits into before, the element if kept, and after |
| `Seqs.FilterKeepsAll` | frontend/src/components/Dashboard.js:87 | when every element passes, `filter` returns the input unchanged |
| `Seqs.Distinct` | frontend/src/components/NotesStats.js:7 | `[...new Set(xs)]`: the same values as the input, without repeats, never longer than the input |
| `Seqs.NoDuplicatesCard` | frontend/src/components/NotesStats.js:7 | a sequence without repeats is as long as its set of values |
| `Text.StartsWith` | backend/services/notesService.js:44 | `begins_with(SK, 'NOTE#')`: the empty prefix always matches; a matching prefix is no longer than the string and shares its first character |
| `Text.Includes` | frontend/src/components/Dashboard.js:28-29 | `includes`: a contained string is no longer than the container; a prefix is contained; the empty string is contained in every string |
| `Text.Or` | backend/app.js:210-213 | `x \|\| fallback` on a string: `x` when it is non-empty, else the fallback; the result is empty only when both are |
| `Text.Utf16Length` | backend/app.js:45 | `password.length` counts UTF-16 code units: between one and two per character, and 0 only for the empty string |
| `Text.EmojiLength` | backend/app.js:131 | three emoji outside the Basic Multilingual Plane are three characters but six code units, so they pass the length check |
| `Text.Lower` | frontend/src/components/Dashboard.js:28 | the ASCII model of `toLowerCase`: keeps the length, lowercases A-Z and keeps every other character |
| `Text.LowerIdempotent` | frontend/src/components/Dashboard.js:28-29 | lowercasing twice is lowercasing once |
| `Text.Digits` | backend/services/notesService.js:6 | the decimal rendering of `Date.now()` is a non-empty string of digits |
| `Aggregator.TagsOf` | backend/services/notesService.js:110-118 | the statistics read each note's category and priority, one entry per note, in order |
| `Aggregator.PriorityCount` | backend/services/notesService.js:116-118 | `filter(n => n.priority === level).length` is at most the number of notes, and 0 exactly when no note has that priority |
| `Aggregator.CategoryCount` | backend/services/notesService.js:113 | the number of distinct categories is at most the number of notes, and 0 exactly when there are no notes |
| `Aggregator.Tally` | backend/services/notesService.js:123-125 | every `byCategory` count lies between 1 and the number of notes |
| `Aggregator.Categories` | backend/services/notesService.js:113 | `notes.map(n => n.category)` has one entry per note, in order |
| `Aggregator.Summarize` | backend/services/notesService.js:110-125 | `totalNotes` is the number of notes; `highPriority` equals `byPriority.High`; High+Medium+Low is at most the total; `categories` is at most the total and 0 exactly for no notes; `categories` equals the number of `byCategory` keys, and those keys are the categories that occur; the `byCategory` values sum to the total |
| `Aggregator.ComputeStats` | backend/services/notesService.js:107-128 | the imperative statistics computation returns exactly `Summarize` of the notes |
| `Aggregator.CountByCategory` | backend/services/notesService.js:122-125 | the `forEach` loop builds exactly the fold `Tally` of the categories |
| `Aggregator.TallyKeys` | backend/services/notesService.js:123-125 | the keys of `byCategory` are exactly the categories that occur |
| `Aggregator.TallyCounts` | backend/app.js:261-263 | each `byCategory` entry is the number of notes with that category; a category not present occurs nowhere |
| `Aggregator.DistinctElems` | backend/services/notesService.js:113 | the distinct categories have the same set of values as the categories |
| `Aggregator.SumOverUnlisted` | backend/services/notesService.js:124 | updating a key that is not listed leaves the sum over the listed keys unchanged |
| `Aggregator.SumOverBump` | backend/services/notesService.js:124 | one `(byCategory[c] \|\| 0) + 1` step adds one to the sum over the distinct keys |
| `Aggregator.TallySum` | backend/services/notesService.js:122-125 | the `byCategory` values, summed over the distinct categories, equal the number of notes |
| `Aggregator.PriorityBound` | backend/services/notesService.js:115-119 | the High, Medium and Low counts add up to at most the number of notes |
| `Aggregator.TallyObject` | backend/services/notesService.js:114-125 | the `forEach` on the plain object `{}` as written: it never gets an own `__proto__` entry, and its keys are among the categories |
| `Aggregator.BumpObjectAgrees` | backend/services/notesService.js:124 | for a category that is not an inherited Object.prototype name, one step on the plain object agrees with one step of the count map |
| `Aggregator.TallyObjectAgrees` | backend/services/notesService.js:122-125 | when no category names an Object.prototype member, the plain object holds exactly the counts of `Tally` |
| `Aggregator.ProtoCategoryIsDropped` | backend/services/notesService.js:124 | a single note in category "__proto__" leaves the plain object empty, while the count map has "__proto__" with 1 |
| `Aggregator.ConstructorCategoryIsText` | backend/app.js:262 | a single note in category "constructor" gives the entry "function Object() { [native code] }1", a string rather than a count |
| `Aggregator.SummarizeExample` | backend/services/notesService.js:110-125 | one High and one Low note in the default category give totalNotes 2, highPriority 1, categories 1, byPriority {1, 0, 1} and byCategory {General: 2} |
| `InMemoryApi.NewNote` | backend/app.js:176-186 | a created note carries the caller's id and email; a falsy category becomes "General" and a falsy priority "Medium"; createdAt equals updatedAt; all four text fields are non-empty |
| `InMemoryApi.Merge` | backend/app.js:208-215 | each of title, content, category and priority keeps its old value when the new one is falsy; id, userId, userEmail and createdAt are preserved; updatedAt is set; a complete note stays complete |
| `InMemoryApi.MergeEmptyBody` | backend/app.js:210-213 | an update with no fields changes only updatedAt, so a field cannot be cleared |
| `InMemoryApi.Server.constructor` | backend/app.js:13-14 | the server starts with no users and no notes |
| `InMemoryApi.Server.Register` | backend/app.js:39-75 | a missing email or password, or a password shorter than 6 UTF-16 code units, is rejected with its message and `users` is unchanged; a taken email is rejected and `users` is unchanged; otherwise exactly one user with that email and the hashed password is appended; emails stay unique |
| `InMemoryApi.Server.Login` | backend/app.js:85-110 | missing fields give BadRequest; an unknown email and a wrong password both give Unauthorized "Invalid email or password"; otherwise Ok with the first matching user's id and email |
| `InMemoryApi.Server.Profile` | backend/app.js:118-124 | Ok exactly when a user with the caller's id exists, with the caller's id and the email of the first such user (the one `find` returns); else NotFound "User not found" |
| `InMemoryApi.Server.UpdatePassword` | backend/app.js:129-143 | a missing password, or one shorter than 6 UTF-16 code units, gives BadRequest and an unknown id gives NotFound, both with `users` unchanged; on success only the first matching user's password changes, to the hash of the new one |
| `InMemoryApi.Server.ListNotes` | backend/app.js:153-156 | the listing holds only the caller's notes and every one of them |
| `InMemoryApi.Server.GetNote` | backend/app.js:159-165 | Ok with the caller's first stored note with that id (the one `find` returns); NotFound exactly when the caller has no note with that id, including when the id belongs to another user |
| `InMemoryApi.Server.CreateNote` | backend/app.js:170-189 | an empty title or content gives BadRequest with `notes` unchanged; otherwise the defaulted note is appended at the end and returned |
| `InMemoryApi.Server.UpdateNote` | backend/app.js:199-217 | a missing or foreign note gives NotFound with `notes` unchanged; otherwise only the caller's first matching index is replaced, by the merge |
| `InMemoryApi.Server.DeleteNote` | backend/app.js:227-235 | a missing or foreign note gives NotFound with `notes` unchanged; otherwise exactly the first owned match is spliced out and the rest keep their order |
| `InMemoryApi.Server.Stats` | backend/app.js:245-266 | the statistics are `Summarize` of the caller's listing |
| `InMemoryApi.RegisteredUserCanLogIn` | backend/app.js:92-101 | after a successful registration, login finds the new user first, and the password is accepted, given that `compare` accepts a password against its own hash |
| `InMemoryApi.ListAfterCreate` | backend/app.js:188 | after a create, the owner's listing gains the new note at the end and other users' listings are unchanged |
| `InMemoryApi.ListAfterDelete` | backend/app.js:234 | splicing a note out removes exactly that note from its owner's listing and keeps the other listed notes in order |
| `KeyedTable.ProfileSortKeyIsNotANoteKey` | backend/services/userService.js:14 | the sort key "PROFILE" does not begin with "NOTE#" |
| `KeyedTable.ProfileAndNoteKeysDisjoint` | backend/services/notesService.js:13-14 | no profile key equals any note key |
| `KeyedTable.Table.Get` | backend/services/notesService.js:65-75 | GetCommand returns the item at the key, or null exactly when the key is absent |
| `KeyedTable.Table.Put` | backend/services/notesService.js:10-27 | an unconditional put writes the item at its key, replacing any earlier item there |
| `KeyedTable.Table.PutIfAbsent` | backend/services/userService.js:12-25 | a conditional put writes exactly when the key is free; otherwise the table is unchanged |
| `KeyedTable.Table.Delete` | backend/services/notesService.js:86-95 | DeleteCommand removes only that key |
| `KeyedTable.Table.SetPassword` | backend/services/userService.js:98-112 | the Update changes only `password` and `updatedAt` of that profile |
| `KeyedTable.Table.Select` | backend/services/notesService.js:42-54 | a Query or Scan returns every stored item satisfying the condition, each once, and nothing else |
| `UserService.UserId` | backend/services/userService.js:8 | a generated user id begins with "USER#" |
| `UserService.NewProfile` | backend/services/userService.js:12-20 | the profile is stored at (USER#t, PROFILE) with entityType "USER", the given email, the hash of the password (not the plaintext) and createdAt equal to updatedAt |
| `UserService.CreateUser` | backend/services/userService.js:6-37 | when the key is taken, fails with "User already exists" and leaves the table unchanged; otherwise writes the profile and returns an id equal to the PK written and the stored createdAt; never looks at the email |
| `UserService.IsUserWithEmail` | backend/services/userService.js:45-48 | the Scan filter `email = :email AND entityType = 'USER'`: it accepts exactly the profiles with that email, and they all have entityType "USER" |
| `UserService.FindUserByEmail` | backend/services/userService.js:40-68 | returns a stored item with entityType "USER" and that email; returns null exactly when no such item exists |
| `UserService.GetUserById` | backend/services/userService.js:71-87 | returns the item at (id, PROFILE), or null exactly when that key is absent; in a well-formed table it is a USER item |
| `UserService.UpdatePassword` | backend/services/userService.js:90-118 | an unknown email gives "User not found" and writes nothing; otherwise exactly one profile with that email changes, and only its password (to the hash) and updatedAt |
| `UserService.CreatedUserIsFound` | backend/services/userService.js:12-61 | when no profile has the email yet, the written profile is afterwards the only profile with that email, so `findUserByEmail` returns it; its stored hash verifies the original password for a comparator that accepts a password against its own hash |
| `UserService.DuplicateEmailAccepted` | backend/services/userService.js:21 | when the generated key is free, a second profile is written beside an existing one with the same email |
| `NotesService.NoteId` | backend/services/notesService.js:6 | a generated note id begins with "NOTE#" |
| `NotesService.NewNoteItem` | backend/services/notesService.js:10-24 | the note is stored at (userId, NOTE#t) with noteId equal to SK and entityType "NOTE"; a falsy category becomes "General" and a falsy priority "Medium"; createdAt equals updatedAt |
| `NotesService.IsNoteOf` | backend/services/notesService.js:44-47 | the key condition `PK = :pk AND begins_with(SK, 'NOTE#')`: only items in the user's partition whose SK begins with "NOTE#"; such an item of the shape the services write is a note, never a profile |
| `NotesService.GetNote` | backend/services/notesService.js:64-80 | returns the item at (userId, noteId), or null exactly when that key is absent |
| `NotesService.CreateNote` | backend/services/notesService.js:5-36 | the put replaces anything at the generated key and changes nothing else; the returned value is exactly the item written; a following `getNote` returns it |
| `NotesService.GetUserNotes` | backend/services/notesService.js:39-61 | returns exactly the items whose PK is the user and whose SK begins with "NOTE#", each once; so never a profile and never another partition's item, and an empty sequence when there is none |
| `NotesService.DeleteNote` | backend/services/notesService.js:83-104 | removes only the (userId, noteId) key and always reports success, so repeating it changes nothing; `getNote` then returns null |
| `NotesService.GetUserStats` | backend/services/notesService.js:107-128 | the statistics are `Summarize` of the listing; `totalNotes` is the number of the user's note keys |
| `NotesService.ListingAfterPut` | backend/services/notesService.js:10-27 | a put under another owner leaves a user's listing unchanged; a put of the user's own note adds it and replaces whatever was at its key |
| `NotesService.ListingAfterDelete` | backend/services/notesService.js:86-97 | deleting a key removes exactly the item stored there from its owner's listing; other partitions are unchanged |
| `DashboardView.SearchResults` | frontend/src/components/Dashboard.js:25-35 | an empty term keeps all notes; otherwise exactly the notes whose lowercased title or content contains the lowercased term |
| `DashboardView.SearchAppend` | frontend/src/components/Dashboard.js:27-30 | the search keeps the notes' order |
| `DashboardView.SearchIgnoresCase` | frontend/src/components/Dashboard.js:27-29 | two terms with the same lowercase form select the same notes |
| `DashboardView.SearchByLowercase` | frontend/src/components/Dashboard.js:27-29 | a term and its lowercase form give the same result |
| `DashboardView.WithoutNote` | frontend/src/components/Dashboard.js:87 | every note with that SK is removed and every other note is kept |
| `DashboardView.WithoutAbsentNote` | frontend/src/components/Dashboard.js:87 | deleting an SK that no note carries leaves the list unchanged |
| `DashboardView.SearchAfterAdd` | frontend/src/components/Dashboard.js:72 | an added note appears at the end of the filtered list exactly when it matches the search |
| `DashboardView.Dashboard.constructor` | frontend/src/components/Dashboard.js:10-14 | the initial state: no notes, empty term and error, loading |
| `DashboardView.Dashboard.ApplySearch` | frontend/src/components/Dashboard.js:25-35 | the effect sets `filteredNotes` to the search results of `notes` and `searchTerm` |
| `DashboardView.Dashboard.SetSearchTerm` | frontend/src/components/Dashboard.js:114 | changing the term re-runs the search and changes nothing else |
| `DashboardView.Dashboard.FetchNotes` | frontend/src/components/Dashboard.js:51-66 | a successful fetch replaces `notes` and clears the error; a failed one empties `notes` and sets the error; loading ends false |
| `DashboardView.Dashboard.AddNote` | frontend/src/components/Dashboard.js:68-78 | success appends exactly the returned note at the end and clears the error; failure leaves `notes` unchanged and sets the error |
| `DashboardView.Dashboard.DeleteNote` | frontend/src/components/Dashboard.js:80-93 | success removes every note with that SK, keeping the others in order, and clears the error; failure leaves `notes` unchanged and sets the error |
| `NotesStatsView.Tiles` | frontend/src/components/NotesStats.js:5-13 | three tiles in the order Total, High Priority, Categories; the total is the number of notes; the high-priority count and the number of distinct categories are each at most the total; categories is 0 exactly for no notes; both agree with the server's statistics of the same notes |

## Left out

- JWT issuance and the `authenticateToken` middleware (backend/app.js:17-32, 69, 104): handlers take the already-decoded `Caller`; the 401/403 token replies are not modelled.
- The 500 replies of the `catch` blocks and every error thrown by the database client (throughput, network): foreign failures the model does not produce.
- The health-check route and `app.listen` (backend/app.js:269-293): logging and process start-up only.
- bcrypt: hashing is a deterministic parameter `hash`, so salting is not modelled; `compare` is a parameter; `verifyPassword` (backend/services/userService.js:121-123) only delegates to it and has no separate member.
- `Date.now()` and `toISOString()` are parameters. createdAt and updatedAt are read from the clock twice in the source but get one `now` value here. Nothing is claimed about id uniqueness or about time moving forward.
- `parseInt` on the route id: the model takes an integer id, so the NaN case (which always ends in NotFound) is not modelled.
- JavaScript truthiness beyond strings: request fields are strings, and an absent, null or empty field is the empty string.
- `Text.Lower`: `toLowerCase` is modelled for ASCII letters only; other characters are kept as they are, so lengths that change under full Unicode lowercasing ("İ") are not modelled.
- DynamoDB specifics: result order and pagination of Query and Scan, attribute maps (an item is one of two record shapes, and its `entityType` follows from the shape), and the upsert behaviour of UpdateItem on an absent key.
- `KeyedTable.Table.SetPassword`: requires the profile to exist, because the upsert case is not modelled; `UserService.UpdatePassword` always calls it on an existing profile.
- `NotesService.GetUserNotes`: does not state the order of the result (DynamoDB returns ascending SK order), because the table is an unordered map.
- `UserService.FindUserByEmail`: does not say which of several profiles with the same email is returned, because Scan order is unspecified.
- The dashboard's `checkBackendConnection`/`backendAvailable` (frontend/src/components/Dashboard.js:37-49), the error dismissal and all rendering; the spinner appears only as the `loading` flag.
- `addNote` reads the `notes` captured when the handler was created; the model uses the current `notes`, so a stale closure is not modelled.
- The tile icons in NotesStats.js: display only.
- `Aggregator.CountByCategory`: computes the intended counts in a map. The source fills a plain object `{}`, which differs for a category that names an Object.prototype member ("__proto__", "constructor", "toString" and the others). That case is recorded under Findings and modelled separately by `Aggregator.TallyObject`. The statistics members `Summarize`, `ComputeStats`, `Server.Stats` and `GetUserStats` use the map.
- Concurrency between requests: each handler runs atomically here.

## Findings

| source | as written | input that shows it | evidently intended | confidence | as-written member | corrected member |
|---|---|---|---|---|---|---|
| backend/services/notesService.js:122-125 | `byCategory` starts as a plain object `{}`, so `(stats.byCategory[c] \|\| 0) + 1` reads members inherited from Object.prototype; the same code is at backend/app.js:261-263 | one note in category "__proto__": `totalNotes` is 1 but `byCategory` stays `{}` (`Aggregator.ProtoCategoryIsDropped`); one note in category "constructor": the entry is the string "function Object() { [native code] }1" (`Aggregator.ConstructorCategoryIsText`) | a count per category, whose keys are the categories that occur and whose values sum to `totalNotes` (a prototype-free object or a `Map`) | not executed | `Aggregator.TallyObject` | `Aggregator.TallySum` |
