# Posts and users stores: a Dafny model

This project models two Pinia stores of a small client-side posts viewer.

The **posts store** holds a search query and the posts loaded for it. They arrive in pages of 30 from a remote service. The store keeps a pagination cursor (`nextStart`), an end-of-data flag (`loadedAll`), a visible window (`visibleCount`), a sort key and direction, and the `loading`/`error` status. Its actions are:

- `_fetchPage`: a guarded page fetch. It drops rows whose id is already loaded and appends the rest.
- `search`: resets the store, then fetches.
- `initLoad`: a search for the current query.
- `loadMore`: grows the window.
- `ensureAllLoaded`: fetches until everything is loaded.
- `sortBy`: toggles the sort settings, then loads everything.

The **users store** builds an id index of the fetched users. It also keeps a repetition-free list of viewed user ids.

Layout:

- `wrappers.dfy` (`Wrappers`): `Option`, and `Completion`, which is how an async action's promise settles: resolved with a value, or rejected with the message of the error it rethrew.
- `http.dfy` (`Http`): the response to a `fetch`, as the stores see it. It is `Ok(body)`, `NotOk` (`res.ok` false), or `Threw(name, message)` (a network error, a JSON parse error, or an abort, which is recognised by the name `AbortError`). It also holds the `e?.message || 'unknown'` rule.
- `text.dfy` (`Text`): `String.prototype.trim`, with the ECMAScript whitespace and line-terminator characters.
- `posts.dfy` (`Posts`): the state record and each action as a pure transition on it. The class `PostsStore` has the store's fields and performs each action in place. Each of its methods is proved equal to the matching transition (`Snapshot() == F(old(Snapshot()))`).
- `posts_properties.dfy` (`PostsProperties`): what the transitions guarantee.
- `users.dfy` (`Users`): the index, the viewed-ids list and the class `UsersStore`.

The service is a parameter. Single fetches take a function `Request -> Response`. `ensureAllLoaded` and `sortBy` take a `Service(items, failing)`: a finite collection of the posts that match the filter, answering `items[start .. min(start + limit, |items|)]`, and not-ok for any start listed in `failing`.

`_fetchPage` is split around its `await`:

- `Begin` / `PostsStore.BeginFetch`: the guard, `loading := true`, `error := null`, and capture of the request.
- `Complete` / `PostsStore.CompleteFetch`: applied to whatever state exists when the response arrives.

`search` does not clear `loading`. So while a fetch is in flight, `search`'s own fetch is a no-op. The earlier fetch then appends its rows, which belong to the old query, to the freshly reset posts and advances the new query's cursor. Discarding such stale responses would need an epoch or token check, and the code has none; the model follows the code (`StaleResponseLandsInNewQuery`). In the same way, `visibleCount` can exceed the number of loaded posts (`WindowMayExceedPosts`).

## Model

| member | source | states |
|---|---|---|
| `Text.Trim` | src/stores/posts.js:76 | the result is the input with only whitespace cut from either end, has no space at either end, and is empty exactly when every character of the input is a JavaScript whitespace character |
| `Text.TrimIdempotent` | src/stores/posts.js:31 | trimming the already trimmed query again (as `_buildUrl` does) changes nothing |
| `Http.ErrorText` | src/stores/posts.js:62 | the recorded error is the error's message, or `unknown` when that is empty; never empty |
| `Posts.UnseenMembers` | src/stores/posts.js:53-54 | the filtered rows are rows of the chunk whose id is not loaded, and every such row of the chunk is kept |
| `Posts.Unseen` | src/stores/posts.js:53-54 | the filter never returns more rows than the chunk has; its contents and order are pinned by `UnseenMembers`, `UnseenConcat`, `UnseenAllFresh` and `UnseenAllKnown` |
| `Posts.BuildRequest` | src/stores/posts.js:25-33 | the request carries `start` and `limit`, and has a `title_like` filter exactly when the query has a non-space character; the filter is the trimmed query |
| `Posts.Page` | src/stores/posts.js:46 | the service's page holds at most `limit` rows, fewer exactly when the collection ends before `start + limit`, and is the slice of the collection at `start` |
| `Posts.Begin` | src/stores/posts.js:36-39 | a fetch starts exactly when neither `loadedAll` nor `loading` holds; otherwise nothing changes; a started fetch sets `loading`, clears `error` and asks for the page at `nextStart` |
| `Posts.Complete` | src/stores/posts.js:50-66 | on success the unseen rows are appended and returned, the cursor moves one page, and `loadedAll` is set when the chunk is short; on abort it returns `[]`; a not-ok response rejects with `Posts fetch failed`, and any other thrown error rejects with its own message; a rejection records that message, or `unknown` when it is empty, and leaves the rows, cursor and `loadedAll` alone; `loading` always ends false |
| `Posts.FetchStep` | src/stores/posts.js:35-67 | `_fetchPage` with nothing in between is a no-op returning `[]` when it cannot fetch, and otherwise is `Begin` followed by `Complete` on the service's answer |
| `Posts.NormalizeQuery` | src/stores/posts.js:76 | the stored query is the given query trimmed, and empty when no query is given |
| `Posts.Reset` | src/stores/posts.js:76-80 | `search` sets the trimmed query, empties the posts, zeroes the cursor, clears `loadedAll`, shows one page, and leaves `loading`, `error` and the sort settings alone |
| `Posts.FetchStepProgress` | src/stores/posts.js:57-58 | a successful fetch against a finite service reduces the rows left beyond the cursor, or sets `loadedAll` |
| `Posts.ToggleSort` | src/stores/posts.js:105-112 | the same key flips the direction, a new key sorts ascending, the window goes back to one page, and nothing else changes |
| `Posts.Initial` | src/stores/posts.js:5-23 | the store starts with an empty query, no posts, cursor 0, `loadedAll` unset, not loading, no error, one visible page and sort by `id` ascending; it satisfies the invariant and can fetch (`InitialCoherent`) |
| `Posts.SearchStep` | src/stores/posts.js:74-82 | `search` stores the trimmed query and shows one page; while a fetch is in flight it only resets; otherwise it ends not loading, with the cursor at one page exactly when its fetch succeeded; a rejection leaves no posts and records the error (see `SearchLoadsFirstPage`, `SearchWhileLoading`, `SearchCoherent`) |
| `Posts.LoadMoreStep` | src/stores/posts.js:84-94 | `loadMore` only appends, and adds one page to the window exactly when rows beyond it were already loaded or its fetch appended rows; growing from loaded rows fetches nothing; a rejection keeps the rows and records the error (see `LoadMoreWindow`, `LoadMoreIdempotent`) |
| `Posts.LoadAll` | src/stores/posts.js:96-101 | `ensureAllLoaded` returns at once when `loadedAll` holds, resolves only with `loadedAll` set, only appends, and leaves the query, window and sort alone (see `LoadAllOutcome`, `LoadAllLoadsEverything`) |
| `Posts.SortStep` | src/stores/posts.js:103-115 | `sortBy` sets the key, flips the direction for the same key and sorts a new key ascending, shows one page, only appends, and resolves only once everything is loaded (see `SortToggles`, `SortAfterResetLoadsEverything`) |
| `Posts.PostsStore.constructor` | src/stores/posts.js:5-23 | the store starts with an empty query, no posts, cursor 0, one visible page and sort by `id` ascending |
| `Posts.PostsStore.BeginFetch` | src/stores/posts.js:36-39 | updates the fields in place exactly as `Begin` says |
| `Posts.PostsStore.CompleteFetch` | src/stores/posts.js:50-66 | updates the fields in place exactly as `Complete` says; the cursor stays one page per successful completion since the last reset |
| `Posts.PostsStore.FetchPage` | src/stores/posts.js:35-67 | the in-place `_fetchPage` agrees with `FetchStep` and keeps the store's invariant |
| `Posts.PostsStore.Search` | src/stores/posts.js:74-82 | resets in place, then fetches; agrees with the reset followed by `FetchStep` |
| `Posts.PostsStore.InitLoad` | src/stores/posts.js:69-72 | is a search for the current query |
| `Posts.PostsStore.LoadMore` | src/stores/posts.js:84-94 | agrees with the window rule: grow from loaded rows, or else fetch and grow only on new rows |
| `Posts.PostsStore.EnsureAllLoaded` | src/stores/posts.js:96-101 | the `while (!loadedAll)` loop terminates against a finite service and agrees with `LoadAll` |
| `Posts.PostsStore.SortBy` | src/stores/posts.js:103-115 | toggles the sort in place, resets the window, then loads everything |
| `PostsProperties.UnseenAllFresh` | src/stores/posts.js:53-54 | a chunk with no loaded id passes the filter whole |
| `PostsProperties.UnseenAllKnown` | src/stores/posts.js:53-54 | a chunk whose ids are all loaded adds nothing |
| `PostsProperties.UnseenConcat` | src/stores/posts.js:53-54 | filtering keeps arrival order: filtering a concatenation filters each part |
| `PostsProperties.NoDupConcat` | src/stores/posts.js:56 | appending rows with new, distinct ids to distinct rows keeps the ids distinct |
| `PostsProperties.UnseenNoDup` | src/stores/posts.js:53-54 | the filter keeps a chunk with distinct ids distinct |
| `PostsProperties.CompleteKeepsNoDup` | src/stores/posts.js:53-56 | a successful completion keeps the loaded ids distinct when the chunk's ids are distinct |
| `PostsProperties.FetchKeepsNoDup` | src/stores/posts.js:53-56 | the same for a whole `_fetchPage` |
| `PostsProperties.RepeatedIdInChunkIsKept` | src/stores/posts.js:53-54 | a new id repeated inside one chunk is appended twice: the filter compares only against rows loaded before |
| `PostsProperties.FetchOutcome` | src/stores/posts.js:53-59 | the old posts are a prefix of the new ones, and the resolved value is exactly the appended part; the cursor grows by one page per successful response, even when nothing new was appended; `loadedAll` is only ever set, and is newly set exactly when a successful chunk is short; the query, window and sort are untouched; a rejection records the error and keeps the rows |
| `PostsProperties.FetchFailureKeepsProgress` | src/stores/posts.js:60-66 | a failed or aborted fetch keeps the rows, the cursor and `loadedAll`, and ends not loading; an abort resolves with `[]` and changes nothing beyond clearing `error`; any other failure rejects with a non-empty error, and a thrown error rejects with its message and records it |
| `PostsProperties.NotOkMessage` | src/stores/posts.js:49 | a not-ok response rejects with, and records, `Posts fetch failed` |
| `PostsProperties.BeginCoherent` | src/stores/posts.js:38-39 | starting a fetch keeps the invariant: in flight implies no error, and the cursor and window are whole pages |
| `PostsProperties.CompleteCoherent` | src/stores/posts.js:56-65 | completing a fetch keeps the invariant |
| `PostsProperties.AbortKeepsErrorNull` | src/stores/posts.js:61 | an abort of an in-flight fetch leaves `error` null |
| `PostsProperties.FetchCoherent` | src/stores/posts.js:35-67 | `_fetchPage` keeps the invariant |
| `PostsProperties.SearchCoherent` | src/stores/posts.js:74-82 | `search` keeps the invariant |
| `PostsProperties.LoadMoreCoherent` | src/stores/posts.js:84-94 | `loadMore` keeps the invariant |
| `PostsProperties.LoadAllCoherent` | src/stores/posts.js:96-101 | `ensureAllLoaded` keeps the invariant |
| `PostsProperties.SortCoherent` | src/stores/posts.js:103-115 | `sortBy` keeps the invariant |
| `PostsProperties.InitialCoherent` | src/stores/posts.js:5-23 | the initial state satisfies the invariant and can fetch |
| `PostsProperties.SearchRequest` | src/stores/posts.js:31 | `search`'s fetch asks for the first page with a title filter exactly when the trimmed query is non-empty |
| `PostsProperties.SearchWhileLoading` | src/stores/posts.js:36 | `search` during an in-flight fetch only resets: its own fetch returns `[]` |
| `PostsProperties.SearchLoadsFirstPage` | src/stores/posts.js:76-81 | with nothing in flight, `search` leaves exactly the first page of the new query loaded (whole, even when it repeats an id), the cursor at one page and one page shown |
| `PostsProperties.StaleResponseLandsInNewQuery` | src/stores/posts.js:53-58 | a fetch begun before `search` completes into the reset state: its whole chunk becomes the new query's posts and it moves the new cursor |
| `PostsProperties.LoadMoreWindow` | src/stores/posts.js:86-93 | with rows beyond the window, `loadMore` adds a page without fetching; otherwise it fetches and adds a page exactly when the fetch appended rows |
| `PostsProperties.LoadMoreIdempotent` | src/stores/posts.js:86-93 | once everything is loaded and shown, `loadMore` changes nothing |
| `PostsProperties.WindowMayExceedPosts` | src/stores/posts.js:86-88 | growing from loaded rows can make the window larger than the loaded posts |
| `PostsProperties.LoadAllOutcome` | src/stores/posts.js:98-100 | `ensureAllLoaded` returns at once when everything is loaded; it resolves only with `loadedAll` set, rejects with the error recorded, only appends, and always resolves against a service that never fails |
| `PostsProperties.PrefixIdsDisjoint` | src/stores/posts.js:53 | with distinct ids in the collection, rows past the cursor have ids not yet loaded |
| `PostsProperties.FetchInSync` | src/stores/posts.js:53-58 | one fetch from a state in step with the collection appends the next page whole and stays in step |
| `PostsProperties.LoadAllLoadsEverything` | src/stores/posts.js:98-100 | from a state in step with a never-failing collection, `ensureAllLoaded` terminates with every row of the collection loaded, in order |
| `PostsProperties.SortToggles` | src/stores/posts.js:105-114 | `sortBy` sets the key, flips or resets the direction, shows one page, fetches nothing when everything is loaded, and resolves only with everything loaded |
| `PostsProperties.SortTwiceByNewKey` | src/stores/posts.js:105-110 | sorting twice by a new key ends descending, without fetching once loaded |
| `PostsProperties.SortAfterResetLoadsEverything` | src/stores/posts.js:112-114 | sorting right after a reset loads the whole collection and shows one page |
| `PostsProperties.NoProgressWhileLoading` | src/stores/posts.js:36 | with a fetch in flight and `loadedAll` unset, a fetch is a no-op, so the loading loop makes no progress |
| `Users.IndexKeys` | src/stores/users.js:23-24 | the index's keys are exactly the fetched ids, and each id is bound to a fetched user with that id |
| `Users.IndexLastWins` | src/stores/users.js:24 | a user that no later user shares an id with is the one indexed under its id |
| `Users.Index` | src/stores/users.js:23-24 | every id in the map is bound to a user with that id; its keys and the last-wins rule are `IndexKeys` and `IndexLastWins` |
| `Users.BuildIndex` | src/stores/users.js:23-24 | the `for` loop builds exactly the index |
| `Users.Marked` | src/stores/users.js:34-35 | marking puts the id in the list, keeps the old list as a prefix, changes nothing when the id is present, and otherwise appends it |
| `Users.MarkedIdempotent` | src/stores/users.js:34-35 | marking twice is marking once |
| `Users.MarkedNoDup` | src/stores/users.js:34-35 | marking keeps the viewed ids free of repetitions |
| `Users.MarkedMembership` | src/stores/users.js:34-35 | marking adds the marked id and no other |
| `Users.UsersStore.constructor` | src/stores/users.js:5-10 | the store starts with an empty index, no viewed ids, not loading, no error |
| `Users.UsersStore.GetById` | src/stores/users.js:12 | returns the user indexed under the id, and nothing for an unknown id |
| `Users.UsersStore.IsViewed` | src/stores/users.js:13 | holds exactly when the id occurs in the viewed ids |
| `Users.UsersStore.MarkViewed` | src/stores/users.js:33-38 | the viewed ids become the marked list in place, and the id is viewed afterwards |
| `Users.UsersStore.FetchAll` | src/stores/users.js:16-32 | on success the index replaces `byId` wholesale, `error` is null and `getById` finds every fetched user's id; on failure `byId` is unchanged and the error is recorded and rethrown (`Users fetch failed` for a not-ok response, the thrown error's own message otherwise); `loading` ends false |

## Left out

- The real `fetch`, `res.ok`, `res.json()` and `URLSearchParams`: these are browser APIs. A request is the value `(title filter, start, limit)` and the answer is a `Response` value. `Service` filters nothing itself: its `items` are the collection that already matches the filter.
- `_abortController`: `abort()` is modelled only as a possible `AbortError` response. The guard admits a new fetch only when none is in flight, so aborting the previous controller never cancels anything.
- Interleavings inside `loadMore`, `ensureAllLoaded` and `sortBy`: each is modelled as running without another action between its request and its response. Only `_fetchPage` is split around its `await` (`BeginFetch` / `CompleteFetch`). So a `search` that lands during `loadMore`'s fetch, after which `loadMore` still adds a page to the reset window, is not modelled.
- Posts.LoadAll: requires that no fetch is in flight unless `loadedAll` is already set. In that case the source's loop makes no progress and never ends (`NoProgressWhileLoading`). Its service never aborts, because a service that aborts every request would also loop forever.
- Posts.PostsStore.EnsureAllLoaded: the same requirement as `LoadAll`, for the same reason.
- Posts.PostsStore.SortBy: the same requirement as `LoadAll`, for the same reason.
- Posts.SortStep: the same requirement as `LoadAll`, for the same reason.
- Overlapping calls of the users store's `fetchAll`: `FetchAll` runs from start to finish with its response given. With two calls in flight, the first to settle sets `loading` false while the other is still pending, and an error recorded by one call can outlast a later success of the other; neither is modelled.
- `localStorage` in `src/stores/users.js` (the write in `markViewed`, `initViewedFromStorage` and the `persist` setting): persistence I/O.
- `src/stores/ui.js`, `src/main.js`, and the URLs in `src/constants.js`: theme and toast UI, app bootstrap, and configuration. `PAGE_SIZE = 30` is modelled.
- Pinia and Vue reactivity, and sorting the rows for display: that sorting is not in the modelled files, and `sortBy` only records the key and direction.
- Values that are not strings or arrays, e.g. a `search` argument that is not a string, or a JSON body that is not an array of records.
