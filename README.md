# ogiri-server core in Dafny

A model of the data layer and the HTTP handlers of ogiri-server, a small
service for "ogiri" prompts (themes) and the answers people submit to them.

- `Records.dfy`: the records `Theme` and `Answer`, `ErrNotFound`, and the shapes of store results.
- `MemoryStore.dfy`: `InMemoryStore`, the store the server runs with. It has a map of themes and a two-level map from theme id to answer id to answer.
  - `MemState` is its contents as a value, with one function per operation.
  - The class `InMemoryStore` updates its two map fields in place.
  - Each method is proved to have exactly the effect of its function.
- `JsonStore.dfy`: `JSONStore`, the file-backed store. It has flat maps, two id counters, and a file write after every change.
  - `JsonState` is the value-level counterpart, with the invariant `Valid`.
  - `Valid` says that records sit under their own ids, every id was issued from a counter value below the current one, and every answer refers to a stored theme.
  - `Valid` holds from a fresh store and every operation keeps it. As a consequence, a new theme or answer never replaces an existing one.
  - The class `JSONStore` updates its fields in place. Its cascading delete and its answer listing are loops, proved against `JsonState`.
- `Decimal.dfy`: Go's `%d` integer formatting and its inverse. JSONStore ids (`theme_<n>`, `answer_<n>`) and the clock fallback of `generateID` use it.
- `IdGen.dfy`: `generateID`. It writes eight random bytes as 16 lower-case hex digits, which decode back to the bytes. When the random source fails, it writes the nanosecond clock in decimal.
- `Listing.dfy`: what a listing of a Go map is. It returns every value exactly once, in an order the model leaves open. `Values` is the loop both stores use to list.
- `Handlers.dfy`: the ten request handlers.
  - `Store` is the `DataStore` interface's contract, stated once for both implementations, with their differences spelled out:
    - who numbers and stamps new records;
    - whether an answer needs a stored theme;
    - whether deleting a theme deletes its answers.
  - Each handler except the two listings is a pure function `Handle…` from the store state, the path ids, the decoded body and the request environment (clock, random source, save outcome) to a response and a new store state.
  - `ListThemes` and `ListAnswers` have no `Handle…` function, because their result leaves the order open. They are specified on the `Handler` methods directly, with `Listing.Enumerates` and `Listing.Lists`.
  - The class `Handler` performs the same steps as the Go handler, one store call at a time, through either store object.
  - Each other `Handler` method is proved equal to its function.
  - Across all handlers, the model proves:
    - the status for every path: 400 for a bad body or a missing title or content, 404 when the record is absent, 400 for an inactive theme, 500 for a failed save;
    - which record is stored and which records are left alone;
    - that both store invariants and the handlers' own invariant `WellFormed` are preserved. `WellFormed` means: titles and contents are non-empty and likes are never negative.

Where the design description and the code disagree, the model follows the code:

- An update body's `active` always replaces the stored flag (handlers.go:139). The design says empty or zero fields never overwrite. So an update that leaves `active` out deactivates the theme (`MergeTheme`).
- `InMemoryStore.CreateTheme` replaces a theme stored under the same id (models.go:100). The design says creation never duplicates an id. With random ids this is a collision, not an error. `JSONStore` never replaces, which is proved under `Valid`.
- After a theme is deleted, the in-memory store keeps its answers. `GetAnswer` still serves them by id. The list handler, however, answers 404, because it checks the theme first (handlers.go:174-178), so the orphans are not listed over HTTP. `DeletedThemeAnswers` states that the theme is gone and that the answers are still served by id; the 404 on listing then follows from `Handler.ListAnswers`'s contract.

## Model

| member | source | states |
|---|---|---|
| Decimal.Format | internal/data/models.go:341 | `%d` text is never empty and starts with '-' exactly for negative numbers; `ParseFormat` proves it readable back |
| Decimal.ParseFormat | internal/data/models.go:341 | the decimal text of every counter value parses back to that value |
| Decimal.FormatInjective | internal/data/models.go:341 | distinct counter values give distinct `%d` text |
| IdGen.HexEncode | internal/handlers/handlers.go:33 | hex text has two characters per byte, all lower-case hex digits |
| IdGen.HexRoundTrip | internal/handlers/handlers.go:33 | decoding the hex text of a byte string gives the bytes back |
| IdGen.GenerateID | internal/handlers/handlers.go:27-34 | with random bytes: 16 hex digits that decode to exactly those 8 bytes; without: the decimal text of the nanosecond clock, which parses back to it |
| Listing.Values | internal/data/models.go:88-92 | the result lists every value of the map exactly once, each under a distinct key of the map, so the list holds exactly the map's values |
| Listing.EnumerationCount | internal/data/models.go:88-92 | a listing has exactly as many entries as the map |
| Listing.EnumerationLists | internal/data/models.go:88-92 | a listing has as many entries as the map, each a value of it, and every value of the map is listed |
| MemoryStore.MemState.GetTheme | internal/data/models.go:72-81 | found exactly when the id is a key, with the stored theme; otherwise ErrNotFound |
| MemoryStore.MemState.CreateTheme | internal/data/models.go:96-102 | afterwards GetTheme(t.id) gives t and every other theme and all answers are unchanged; the invariant is kept |
| MemoryStore.MemState.UpdateTheme | internal/data/models.go:105-116 | ErrNotFound with no change when t.id is absent; otherwise the same replacement as CreateTheme |
| MemoryStore.MemState.DeleteTheme | internal/data/models.go:119-130 | ErrNotFound when absent; otherwise that theme is gone, other themes are unchanged, and every answer stays findable (orphaned) |
| MemoryStore.MemState.GetAnswer | internal/data/models.go:133-148 | found exactly when the theme's bucket holds the id; under the invariant the answer carries that id and theme id |
| MemoryStore.MemState.Bucket | internal/data/models.go:151-165 | the listed answers are exactly those GetAnswer finds under the theme; an unknown theme lists nothing rather than failing |
| MemoryStore.MemState.CreateAnswer | internal/data/models.go:168-178 | afterwards GetAnswer finds a under its ids; every other answer and all themes are unchanged; no theme check |
| MemoryStore.MemState.UpdateAnswer | internal/data/models.go:181-197 | ErrNotFound with no change unless the answer is filed under (themeId, id); otherwise replaces it |
| MemoryStore.MemState.DeleteAnswer | internal/data/models.go:200-216 | ErrNotFound with no change unless filed; otherwise that answer is gone, others unchanged, and the bucket is kept |
| MemoryStore.InMemoryStore.constructor | internal/data/models.go:64-69 | a new store is empty and satisfies the invariant |
| MemoryStore.InMemoryStore.GetTheme | internal/data/models.go:72-81 | returns what MemState.GetTheme gives for the current maps |
| MemoryStore.InMemoryStore.ListThemes | internal/data/models.go:84-93 | lists every stored theme once |
| MemoryStore.InMemoryStore.CreateTheme | internal/data/models.go:96-102 | the new maps are MemState.CreateTheme of the old |
| MemoryStore.InMemoryStore.UpdateTheme | internal/data/models.go:105-116 | error and new maps are MemState.UpdateTheme of the old |
| MemoryStore.InMemoryStore.DeleteTheme | internal/data/models.go:119-130 | error and new maps are MemState.DeleteTheme of the old |
| MemoryStore.InMemoryStore.GetAnswer | internal/data/models.go:133-148 | returns what MemState.GetAnswer gives for the current maps |
| MemoryStore.InMemoryStore.ListAnswers | internal/data/models.go:151-165 | lists the theme's bucket once per answer; empty list for an unknown theme |
| MemoryStore.InMemoryStore.CreateAnswer | internal/data/models.go:168-178 | the new maps are MemState.CreateAnswer of the old, creating the bucket when missing |
| MemoryStore.InMemoryStore.UpdateAnswer | internal/data/models.go:181-197 | error and new maps are MemState.UpdateAnswer of the old |
| MemoryStore.InMemoryStore.DeleteAnswer | internal/data/models.go:200-216 | error and new maps are MemState.DeleteAnswer of the old |
| JsonStore.ThemeKey | internal/data/models.go:341 | a theme key starts with `theme_` and the counter value it was built from can be read back from it |
| JsonStore.AnswerKey | internal/data/models.go:430 | an answer key starts with `answer_` and the counter value it was built from can be read back from it |
| JsonStore.KeyNumberOfKey | internal/data/models.go:341 | the counter value a generated key was built from can be read back from the key |
| JsonStore.SaveResult | internal/data/models.go:289-307 | a mutator reports success exactly when the file save succeeds |
| JsonStore.JsonState.GetTheme | internal/data/models.go:310-320 | found exactly when the id is a key; otherwise ErrNotFound |
| JsonStore.JsonState.StampTheme | internal/data/models.go:340-344 | the stored theme is numbered `theme_<counter>`, active, stamped with the clock, keeps the caller's texts, and under the invariant its id is not yet used |
| JsonStore.JsonState.CreateTheme | internal/data/models.go:336-351 | inserts the stamped theme, steps the theme counter, leaves answers and the answer counter alone, reports the save; under the invariant the theme count grows by one |
| JsonStore.JsonState.UpdateTheme | internal/data/models.go:354-367 | ErrNotFound with no change when absent; otherwise stores t with updatedAt restamped and reports the save |
| JsonStore.JsonState.WithoutTheme | internal/data/models.go:380-385 | keeps exactly the answers not addressed to the theme, unchanged |
| JsonStore.JsonState.DeleteTheme | internal/data/models.go:370-389 | ErrNotFound when absent; otherwise removes the theme and every answer to it, keeps all others and the counters |
| JsonStore.JsonState.GetAnswer | internal/data/models.go:392-402 | found exactly when the id is stored with that theme id; otherwise ErrNotFound |
| JsonStore.JsonState.OwnedBy | internal/data/models.go:405-417 | the listed answers are exactly those GetAnswer finds under the theme |
| JsonStore.JsonState.StampAnswer | internal/data/models.go:429-432 | the stored answer is numbered `answer_<counter>`, stamped, keeps theme, content, author and likes, and under the invariant its id is not yet used |
| JsonStore.JsonState.CreateAnswer | internal/data/models.go:420-439 | ErrNotFound with no change (counter included) for an unknown theme; otherwise inserts the stamped answer and steps the answer counter |
| JsonStore.JsonState.UpdateAnswer | internal/data/models.go:442-456 | ErrNotFound with no change unless stored under that theme; otherwise stores it restamped |
| JsonStore.JsonState.DeleteAnswer | internal/data/models.go:459-472 | ErrNotFound with no change unless stored under that theme; otherwise removes it |
| JsonStore.FreshIsValid | internal/data/models.go:237-244 | the state a store starts from without a file satisfies the invariant |
| JsonStore.JSONStore.constructor | internal/data/models.go:237-286 | the file's contents when it can be read and parsed; otherwise empty maps and counters at 1, which satisfy the invariant |
| JsonStore.JSONStore.GetTheme | internal/data/models.go:310-320 | returns what JsonState.GetTheme gives for the current fields |
| JsonStore.JSONStore.ListThemes | internal/data/models.go:323-333 | lists every stored theme once |
| JsonStore.JSONStore.CreateTheme | internal/data/models.go:336-351 | the caller's record comes back stamped; outcome and new fields are JsonState.CreateTheme of the old |
| JsonStore.JSONStore.UpdateTheme | internal/data/models.go:354-367 | the caller's record comes back untouched on ErrNotFound and restamped otherwise; outcome and new fields are JsonState.UpdateTheme of the old |
| JsonStore.JSONStore.DeleteTheme | internal/data/models.go:370-389 | the cascade loop leaves exactly JsonState.DeleteTheme of the old fields |
| JsonStore.JSONStore.GetAnswer | internal/data/models.go:392-402 | returns what JsonState.GetAnswer gives for the current fields |
| JsonStore.JSONStore.ListAnswers | internal/data/models.go:405-417 | the filtering loop lists exactly the theme's answers, each once |
| JsonStore.JSONStore.CreateAnswer | internal/data/models.go:420-439 | the caller's record comes back untouched for an unknown theme and stamped otherwise; outcome and new fields are JsonState.CreateAnswer of the old |
| JsonStore.JSONStore.UpdateAnswer | internal/data/models.go:442-456 | the caller's record comes back untouched on ErrNotFound and restamped otherwise; outcome and new fields are JsonState.UpdateAnswer of the old |
| JsonStore.JSONStore.DeleteAnswer | internal/data/models.go:459-472 | outcome and new fields are JsonState.DeleteAnswer of the old |
| Handlers.Store.Saved | internal/data/models.go:39-53 | a change through the interface fails only on the file store with a failed save, and then with a save error |
| Handlers.Store.GetTheme | internal/data/models.go:41 | both stores: found exactly when stored; otherwise ErrNotFound |
| Handlers.Store.GetAnswer | internal/data/models.go:48 | in memory found exactly when the theme's bucket holds the id, on file exactly when the id is stored with that theme id; only ErrNotFound as error; under the invariant a found answer carries the ids it was asked for |
| Handlers.Store.Answers | internal/data/models.go:49 | both stores list exactly what GetAnswer finds under the theme |
| Handlers.Store.StoredTheme | internal/data/models.go:43 | in memory the caller's record is stored as is; on file it is numbered, stamped and activated under an unused id |
| Handlers.Store.CreateTheme | internal/data/models.go:43 | the stored theme is added under its id, answers are untouched, the invariant is kept |
| Handlers.Store.UpdatedTheme | internal/data/models.go:44 | the stored record differs from the caller's at most in updatedAt, which the file store sets to the clock |
| Handlers.Store.UpdateTheme | internal/data/models.go:44 | ErrNotFound with no change when absent; otherwise only that theme is replaced |
| Handlers.Store.DeleteTheme | internal/data/models.go:45 | ErrNotFound when absent; no answer ever appears; in memory all answers stay, on file exactly the theme's answers go |
| Handlers.Store.StoredAnswer | internal/data/models.go:50 | in memory the caller's answer is stored as is; on file it is numbered and stamped under an id no theme has an answer with |
| Handlers.Store.CreateAnswer | internal/data/models.go:50 | the file store refuses an unknown theme with no change; otherwise the new answer is found under its ids and no other answer changes |
| Handlers.Store.UpdatedAnswer | internal/data/models.go:51 | the stored answer differs from the caller's at most in updatedAt |
| Handlers.Store.UpdateAnswer | internal/data/models.go:51 | ErrNotFound with no change unless found; otherwise only that answer is replaced |
| Handlers.Store.DeleteAnswer | internal/data/models.go:52 | ErrNotFound with no change unless found; otherwise only that answer is gone |
| Handlers.StatusOf | internal/handlers/handlers.go:70-77 | ErrNotFound answers 404 and every other store error 500 |
| Handlers.AcceptedTheme | internal/handlers/handlers.go:83-93 | a create body is accepted only when it decoded and its title is non-empty; otherwise it is malformed or has an empty title |
| Handlers.AcceptedAnswer | internal/handlers/handlers.go:232-242 | a submitted body is accepted only when it decoded and its content is non-empty; otherwise it is malformed or has empty content |
| Handlers.NewTheme | internal/handlers/handlers.go:95-100 | the theme handed to the store keeps the body's title, description and author, has a generated id (16 hex digits that decode back to the random bytes, or the clock's decimal text), both times the clock, and is active whatever the body said |
| Handlers.NewAnswer | internal/handlers/handlers.go:244-250 | the answer handed to the store keeps the body's content and author, has a generated id (16 hex digits that decode back to the random bytes, or the clock's decimal text), the path's theme id, both times the clock, and no likes whatever the body said |
| Handlers.MergeTheme | internal/handlers/handlers.go:132-140 | id, creation time and author kept; title and description replaced only by non-empty values; active always taken from the body; a non-empty title stays non-empty |
| Handlers.MergeAnswer | internal/handlers/handlers.go:283-290 | ids, creation time and author kept; content replaced only by non-empty content; likes only by a positive count; never-negative likes stay so |
| Handlers.HandleGetTheme | internal/handlers/handlers.go:65-79 | 200 with the stored theme exactly when it is stored, else 404 |
| Handlers.HandleCreateTheme | internal/handlers/handlers.go:82-108 | 400 and no change for a malformed body or empty title; otherwise the new theme is active, stamped, keeps the body's texts and is added without touching answers; 201 echoing it unless the file save fails (500) |
| Handlers.HandleUpdateTheme | internal/handlers/handlers.go:111-148 | 400 for a malformed body before the lookup, 404 when absent; otherwise exactly that theme becomes the merge; 200 echoing it unless the save fails |
| Handlers.HandleDeleteTheme | internal/handlers/handlers.go:151-164 | 404 with no change when absent; otherwise the theme is gone, in memory its answers stay, on file they go; 204 unless the save fails |
| Handlers.HandleGetAnswer | internal/handlers/handlers.go:193-208 | 200 with the answer exactly when the store finds it under that theme, else 404 |
| Handlers.HandleSubmitAnswer | internal/handlers/handlers.go:211-258 | 404 for an unknown theme, 400 for an inactive one, then 400 for a bad body or empty content, all without change; otherwise a new answer with no likes is found under the theme and nothing else changes; 201 unless the save fails |
| Handlers.HandleUpdateAnswer | internal/handlers/handlers.go:261-298 | 400 for a malformed body, 404 when not found under that theme; otherwise exactly that answer becomes the merge; 200 unless the save fails |
| Handlers.HandleDeleteAnswer | internal/handlers/handlers.go:301-315 | 404 with no change unless found under that theme; otherwise only that answer is gone; 204 unless the save fails |
| Handlers.CreatedThemeIsServed | internal/handlers/handlers.go:102-107 | a theme created with 201 is then served by GET exactly as echoed |
| Handlers.Serve | internal/handlers/handlers.go:82-315 | any one changing request keeps the store's invariant and keeps titles and contents non-empty and likes non-negative |
| Handlers.StartStatesSound | internal/data/models.go:64-69 | an empty InMemoryStore and a JSONStore started without a file both satisfy their invariants and the handlers' |
| Handlers.ServeAllKeepsSound | internal/handlers/handlers.go:82-315 | any sequence of requests served by a sound store leaves it sound, whichever implementation it is |
| Handlers.DeletedThemeAnswers | internal/data/models.go:378-385 | after a theme is deleted, its answers are still served in memory but are gone on file |
| Handlers.Handler.constructor | internal/handlers/handlers.go:22-24 | the handler holds the store it was given |
| Handlers.Handler.StoreGetTheme | internal/data/models.go:41 | the call reaches the implementation and returns what the Store contract says |
| Handlers.Handler.StoreListThemes | internal/data/models.go:42 | the call reaches the implementation and lists every theme once |
| Handlers.Handler.StoreCreateTheme | internal/data/models.go:43 | the call reaches the implementation; effect and echoed record as Store.CreateTheme and Store.StoredTheme |
| Handlers.Handler.StoreUpdateTheme | internal/data/models.go:44 | effect as Store.UpdateTheme; the caller's record untouched on ErrNotFound, otherwise as Store.UpdatedTheme |
| Handlers.Handler.StoreDeleteTheme | internal/data/models.go:45 | effect as Store.DeleteTheme |
| Handlers.Handler.StoreGetAnswer | internal/data/models.go:48 | returns what Store.GetAnswer says |
| Handlers.Handler.StoreListAnswers | internal/data/models.go:49 | lists exactly Store.Answers, each once, and leaves the store as it was |
| Handlers.Handler.StoreCreateAnswer | internal/data/models.go:50 | effect as Store.CreateAnswer; the caller's record untouched on ErrNotFound, otherwise as Store.StoredAnswer |
| Handlers.Handler.StoreUpdateAnswer | internal/data/models.go:51 | effect as Store.UpdateAnswer; the caller's record untouched on ErrNotFound, otherwise as Store.UpdatedAnswer |
| Handlers.Handler.StoreDeleteAnswer | internal/data/models.go:52 | effect as Store.DeleteAnswer |
| Handlers.Handler.ListThemes | internal/handlers/handlers.go:55-62 | 200 with every theme once |
| Handlers.Handler.GetTheme | internal/handlers/handlers.go:65-79 | behaves as HandleGetTheme |
| Handlers.Handler.CreateTheme | internal/handlers/handlers.go:82-108 | response and new store are HandleCreateTheme of the old store |
| Handlers.Handler.UpdateTheme | internal/handlers/handlers.go:111-148 | response and new store are HandleUpdateTheme of the old store |
| Handlers.Handler.DeleteTheme | internal/handlers/handlers.go:151-164 | response and new store are HandleDeleteTheme of the old store |
| Handlers.Handler.ListAnswers | internal/handlers/handlers.go:169-190 | 404 when the theme is not stored; otherwise 200 with exactly the theme's answers, each once |
| Handlers.Handler.GetAnswer | internal/handlers/handlers.go:193-208 | behaves as HandleGetAnswer |
| Handlers.Handler.SubmitAnswer | internal/handlers/handlers.go:211-258 | response and new store are HandleSubmitAnswer of the old store |
| Handlers.Handler.UpdateAnswer | internal/handlers/handlers.go:261-298 | response and new store are HandleUpdateAnswer of the old store |
| Handlers.Handler.DeleteAnswer | internal/handlers/handlers.go:301-315 | response and new store are HandleDeleteAnswer of the old store |

## Left out

- Locking: the `sync.RWMutex` fields are not modelled. Every store call is one atomic step, and concurrent requests are not modelled.
- File I/O: `loadFromFile` becomes the constructor's `StoredFile` argument, and `saveToFile` becomes the `saveOk` argument of each mutator. The JSON text of the file, the file path, and a crash in the middle of a write are not modelled.
- A file's contents are not checked when loaded. The JSON store's invariant is proved only for a store that started without a file; a loaded file with stale counters can make creation replace records.
- Clock: `time.Time` becomes an integer, and each call reads one clock value. The Go code reads `time.Now()` more than once per request: handler and store, and created and updated times in models.go:342-343 and 431-432. Those nanosecond differences are not modelled.
- Randomness: the eight bytes from `crypto/rand` are an input of the model. Random ids are therefore not proved unique, and an in-memory id collision replaces the earlier record, as the code does.
- HTTP: the model does not cover gorilla/mux routing, headers, error message texts, or the JSON encoding of responses. Decoding a body becomes `Malformed` or `Payload`, so unknown fields and type mismatches are not distinguished.
- `cmd/api/main.go` is not part of this model. The only thing taken from it is that the server is wired with `InMemoryStore` (cmd/api/main.go:43).
- Records shared by reference are modelled as values. The Go update handlers edit, in place, the record that `GetTheme` or `GetAnswer` returns (handlers.go:133-140, 284-290). For `InMemoryStore`, and for `JSONStore` alike, that record is the stored one. The handler then passes it to the store's update.
  - Where every record sits under its own id, the update finds it and stores the merged record. So passing the merged value is exact. This holds in memory and for a JSON store started without a file: it is part of `Valid`, which `ServeAllKeepsSound` keeps.
  - A JSON store loaded from a file can hold a record under a key other than its id. When that id is not a key, the update answers `ErrNotFound` (models.go:358-359, 446-448) and the handler answers 500. When the id is a key (for an answer: one whose stored answer has the same theme), the update replaces the record under that id with the merged one (models.go:363, 452) and the handler answers 200.
  - In both cases Go has already edited the record under the looked-up key in place, and in the second case both keys then hold the same record. The model leaves the record under the looked-up key unchanged: that in-place edit and the aliasing it creates are not modelled.
- Go's 64-bit `int` is not modelled: the JSON store's counters and `likes` are unbounded, and wrap-around on overflow is left out.
- Handler 500 branches for listing and lookup are not modelled separately. `ListThemes` and `ListAnswers` of both stores never return an error, and `GetTheme` and `GetAnswer` only ever return `ErrNotFound`. Those branches cannot be reached, and `StatusOf` still maps any other error to 500.
- Handlers.Handler.ListThemes: states which themes are listed, not their order. Go's map iteration order is unspecified, so `ListThemes` and `ListAnswers` of both stores leave it open too (`Listing.Enumerates`).
