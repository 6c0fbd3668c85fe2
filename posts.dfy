/** The posts store: a search query, the posts loaded for it page by page,
    a pagination cursor, the size of the visible window and the sort settings.

    Each action is first given as a pure transition on a `State` value
    (`Begin`, `Complete`, `FetchStep`, `SearchStep`, `LoadMoreStep`, `LoadAll`,
    `SortStep`); the class `PostsStore` then performs the same action by
    updating its fields in place and is proved to agree with the transition. */
module Posts {
  import opened Wrappers
  import opened Http
  import opened Text

  /** Rows requested per page (`PAGE_SIZE`). */
  const PAGE_SIZE: nat := 30

  /** The message of the error thrown when the posts response is not ok. */
  const POSTS_FETCH_FAILED: string := "Posts fetch failed"

  /** One post as the service returns it; identity is by `id`. */
  datatype Post = Post(id: int, userId: int, title: string, body: string)

  datatype SortDir = Asc | Desc

  function Flip(d: SortDir): SortDir {
    if d == Asc then Desc else Asc
  }

  function Min(a: int, b: int): int {
    if a <= b then a else b
  }

  /** The ids present in `ps`. */
  function Ids(ps: seq<Post>): set<int> {
    set p | p in ps :: p.id
  }

  ghost predicate NoDupIds(ps: seq<Post>) {
    forall i, j :: 0 <= i < j < |ps| ==> ps[i].id != ps[j].id
  }

  /** The posts of `chunk` whose id is not in `existing`, in arrival order
      (the filter against the already loaded ids). */
  function Unseen(existing: set<int>, chunk: seq<Post>): (r: seq<Post>)
    ensures |r| <= |chunk|
  {
    if chunk == [] then []
    else (if chunk[0].id in existing then [] else [chunk[0]]) + Unseen(existing, chunk[1..])
  }

  /** A post is kept by the filter exactly when it is in the chunk with an id
      not in `existing`. */
  lemma {:induction false} UnseenMembers(existing: set<int>, chunk: seq<Post>)
    ensures forall p :: p in Unseen(existing, chunk) <==> p in chunk && p.id !in existing
  {
    if chunk != [] {
      UnseenMembers(existing, chunk[1..]);
      assert chunk == [chunk[0]] + chunk[1..];
    }
  }

  // ---------------------------------------------------------------------------
  // Requests and the page service

  /** What `_buildUrl(start, limit)` encodes: an optional `title_like` filter,
      `_start` and `_limit`. */
  datatype Request = Request(titleLike: Option<string>, start: nat, limit: nat)

  /** The request for `query`: a title filter is sent exactly when the query has
      a non-space character, and it is the query without surrounding spaces. */
  function BuildRequest(query: string, start: nat, limit: nat): (r: Request)
    ensures r.start == start && r.limit == limit
    ensures r.titleLike.Some? <==> exists i :: 0 <= i < |query| && !IsSpace(query[i])
    ensures r.titleLike.Some? ==> r.titleLike.value != [] && IsTrimmed(r.titleLike.value)
    ensures r.titleLike.Some? ==> r.titleLike.value == Trim(query)
  {
    var t := Trim(query);
    Request(if t != [] then Some(t) else None, start, limit)
  }

  /** A service holding the finite collection `items` of posts that match the
      current filter; it answers not-ok to a request whose start is in `failing`. */
  datatype Service = Service(items: seq<Post>, failing: set<nat>)

  /** `items[start .. min(start + limit, |items|)]`, clamped to the collection. */
  function Page(items: seq<Post>, start: nat, limit: nat): (r: seq<Post>)
    ensures |r| <= limit
    ensures 0 < limit ==> (|r| < limit <==> |items| < start + limit)
    ensures start <= |items| ==> r == items[start..Min(start + limit, |items|)]
  {
    items[Min(start, |items|)..Min(start + limit, |items|)]
  }

  function Respond(svc: Service, req: Request): Response<seq<Post>> {
    if req.start in svc.failing then NotOk else Ok(Page(svc.items, req.start, req.limit))
  }

  function Responder(svc: Service): Request -> Response<seq<Post>> {
    req => Respond(svc, req)
  }

  // ---------------------------------------------------------------------------
  // The store's state and its transitions

  datatype State = State(
    query: string,
    posts: seq<Post>,
    loading: bool,
    error: Option<string>,
    nextStart: nat,
    loadedAll: bool,
    visibleCount: nat,
    sortKey: string,
    sortDir: SortDir)

  /** The state the store is created with. */
  function Initial(): (r: State)
    ensures r.query == "" && r.posts == [] && r.nextStart == 0 && !r.loadedAll
    ensures !r.loading && r.error == None && CanFetch(r) && Coherent(r)
    ensures r.visibleCount == PAGE_SIZE && r.sortKey == "id" && r.sortDir == Asc
  {
    State("", [], false, None, 0, false, PAGE_SIZE, "id", Asc)
  }

  /** What the store keeps true in every reachable state: an in-flight fetch
      has cleared `error`, and the cursor and the window are whole pages. */
  predicate Coherent(s: State) {
    (s.loading ==> s.error == None)
    && s.nextStart % PAGE_SIZE == 0
    && s.visibleCount % PAGE_SIZE == 0 && s.visibleCount >= PAGE_SIZE
  }

  /** The query, the window and the sort settings are those of `s`. */
  predicate SameView(s: State, t: State) {
    t.query == s.query && t.visibleCount == s.visibleCount
    && t.sortKey == s.sortKey && t.sortDir == s.sortDir
  }

  /** `_fetchPage` does nothing unless this holds. */
  predicate CanFetch(s: State) {
    !s.loadedAll && !s.loading
  }

  /** The request `_fetchPage` sends from `s`. */
  function RequestOf(s: State): Request {
    BuildRequest(s.query, s.nextStart, PAGE_SIZE)
  }

  /** The synchronous start of `_fetchPage`: the guard, then `loading` set,
      `error` cleared and the request captured from the current cursor. */
  function Begin(s: State): (r: (State, Option<Request>))
    ensures r.1.Some? <==> CanFetch(s)
    ensures r.1.None? ==> r.0 == s
    ensures r.1.Some? ==> r.1.value == RequestOf(s) && r.1.value.start == s.nextStart
    ensures r.1.Some? ==> r.0 == s.(loading := true, error := None)
  {
    if !CanFetch(s) then (s, None)
    else (s.(loading := true, error := None), Some(RequestOf(s)))
  }

  /** The rest of `_fetchPage`, applied to whatever state exists when the
      response arrives: the dedup-append and cursor update on success, the
      silent `[]` on abort, the recorded error on any other failure, and
      `loading` cleared on every path. */
  function Complete(s: State, res: Response<seq<Post>>): (r: (State, Completion<seq<Post>>))
    ensures !r.0.loading && SameView(s, r.0)
    ensures res.Ok? ==>
              var unique := Unseen(Ids(s.posts), res.body);
              r.0.posts == s.posts + unique && r.1 == Resolved(unique)
              && r.0.nextStart == s.nextStart + PAGE_SIZE
              && (r.0.loadedAll <==> s.loadedAll || |res.body| < PAGE_SIZE)
              && r.0.error == s.error
    ensures !res.Ok? ==> r.0.posts == s.posts && r.0.nextStart == s.nextStart && r.0.loadedAll == s.loadedAll
    ensures IsAbort(res) ==> r.1 == Resolved([]) && r.0.error == s.error
    ensures r.1.Resolved? <==> res.Ok? || IsAbort(res)
    ensures r.1.Rejected? ==> r.0.error == Some(ErrorText(r.1.reason))
    ensures res.NotOk? ==> r.1 == Rejected(POSTS_FETCH_FAILED)
    ensures res.Threw? && !IsAbort(res) ==> r.1 == Rejected(res.message)
  {
    match res
    case Ok(chunk) =>
      var unique := Unseen(Ids(s.posts), chunk);
      (s.(posts := s.posts + unique,
          nextStart := s.nextStart + PAGE_SIZE,
          loadedAll := s.loadedAll || |chunk| < PAGE_SIZE,
          loading := false),
       Resolved(unique))
    case NotOk =>
      (s.(error := Some(ErrorText(POSTS_FETCH_FAILED)), loading := false), Rejected(POSTS_FETCH_FAILED))
    case Threw(name, message) =>
      if name == ABORT_ERROR then (s.(loading := false), Resolved([]))
      else (s.(error := Some(ErrorText(message)), loading := false), Rejected(message))
  }

  /** `_fetchPage` when nothing happens between the request and its response;
      `respond` is the service. */
  function FetchStep(s: State, respond: Request -> Response<seq<Post>>): (r: (State, Completion<seq<Post>>))
    ensures !CanFetch(s) ==> r == (s, Resolved([]))
    ensures CanFetch(s) ==> r == Complete(s.(loading := true, error := None), respond(RequestOf(s)))
  {
    var (s1, req) := Begin(s);
    if req.None? then (s, Resolved([])) else Complete(s1, respond(req.value))
  }

  /** `q?.trim() || ''`. */
  function NormalizeQuery(q: Option<string>): (r: string)
    ensures IsTrimmed(r)
    ensures q.None? ==> r == ""
    ensures q.Some? ==> r == Trim(q.value)
  {
    match q
    case None => ""
    case Some(text) => Trim(text)
  }

  /** The synchronous part of `search(q)`: the reset before its fetch. */
  function Reset(s: State, q: Option<string>): (r: State)
    ensures r.query == NormalizeQuery(q) && r.posts == [] && r.nextStart == 0 && !r.loadedAll
    ensures r.visibleCount == PAGE_SIZE
    ensures r.loading == s.loading && r.error == s.error
    ensures r.sortKey == s.sortKey && r.sortDir == s.sortDir
  {
    s.(query := NormalizeQuery(q), posts := [], nextStart := 0, loadedAll := false, visibleCount := PAGE_SIZE)
  }

  /** Forgets the value an action's promise resolves with. */
  function Settled<T>(c: Completion<T>): (r: Completion<()>)
    ensures r.Resolved? <==> c.Resolved?
    ensures c.Rejected? ==> r == Rejected(c.reason)
  {
    match c
    case Resolved(_) => Resolved(())
    case Rejected(reason) => Rejected(reason)
  }

  /** `search(q)`: reset, then one page fetch. */
  function SearchStep(s: State, q: Option<string>, respond: Request -> Response<seq<Post>>): (r: (State, Completion<()>))
    ensures SameView(Reset(s, q), r.0) && r.0.query == NormalizeQuery(q)
    ensures s.loading ==> r == (Reset(s, q), Resolved(()))
    ensures !s.loading ==> !r.0.loading
    ensures r.0.nextStart == (if !s.loading && respond(RequestOf(Reset(s, q))).Ok? then PAGE_SIZE else 0)
    ensures r.1.Rejected? ==> r.0.posts == [] && r.0.error == Some(ErrorText(r.1.reason))
  {
    var (t, c) := FetchStep(Reset(s, q), respond);
    (t, Settled(c))
  }

  /** `loadMore()`: grow the window from rows already loaded, or else fetch a
      page and grow it only if that fetch brought new rows. */
  function LoadMoreStep(s: State, respond: Request -> Response<seq<Post>>): (r: (State, Completion<()>))
    ensures s.posts <= r.0.posts
    ensures r.0.visibleCount
            == if s.visibleCount < |s.posts| || |r.0.posts| > |s.posts| then s.visibleCount + PAGE_SIZE else s.visibleCount
    ensures s.visibleCount < |s.posts| ==> r.0.posts == s.posts && r.1 == Resolved(())
    ensures r.1.Rejected? ==> r.0.posts == s.posts && r.0.error == Some(ErrorText(r.1.reason))
  {
    if s.visibleCount < |s.posts| then (s.(visibleCount := s.visibleCount + PAGE_SIZE), Resolved(()))
    else
      var (t, c) := FetchStep(s, respond);
      match c
      case Rejected(reason) => (t, Rejected(reason))
      case Resolved(got) => (if |got| > 0 then t.(visibleCount := t.visibleCount + PAGE_SIZE) else t, Resolved(()))
  }

  /** How much of the service's collection lies beyond the cursor. */
  function Remaining(s: State, svc: Service): nat {
    |svc.items| - Min(s.nextStart, |svc.items|)
  }

  /** A page fetch against `svc` leaves less to load, or ends the loading. */
  lemma FetchStepProgress(s: State, svc: Service)
    requires CanFetch(s)
    ensures var (t, c) := FetchStep(s, Responder(svc));
            c.Resolved? ==> Remaining(t, svc) < Remaining(s, svc) || (Remaining(t, svc) == Remaining(s, svc) && t.loadedAll)
  {
  }

  /** `ensureAllLoaded()` against `svc`: fetch pages until `loadedAll`, stopping
      at the first rejected fetch. A fetch in flight with `loadedAll` unset
      would make every iteration a no-op, so that case is excluded. */
  function LoadAll(s: State, svc: Service): (r: (State, Completion<()>))
    requires !s.loading || s.loadedAll
    ensures s.loadedAll ==> r == (s, Resolved(()))
    ensures r.1.Resolved? ==> r.0.loadedAll
    ensures s.posts <= r.0.posts && SameView(s, r.0)
    decreases Remaining(s, svc), !s.loadedAll
  {
    if s.loadedAll then (s, Resolved(()))
    else
      var (t, c) := FetchStep(s, Responder(svc));
      FetchStepProgress(s, svc);
      match c
      case Rejected(reason) => (t, Rejected(reason))
      case Resolved(_) => LoadAll(t, svc)
  }

  /** The synchronous part of `sortBy(key)`: the same key flips the direction,
      a new key sorts ascending; the window goes back to one page. */
  function ToggleSort(s: State, key: string): (r: State)
    ensures r.sortKey == key
    ensures r.sortDir == (if s.sortKey == key then Flip(s.sortDir) else Asc)
    ensures r.visibleCount == PAGE_SIZE
    ensures r == s.(sortKey := r.sortKey, sortDir := r.sortDir, visibleCount := PAGE_SIZE)
  {
    if s.sortKey == key then s.(sortDir := Flip(s.sortDir), visibleCount := PAGE_SIZE)
    else s.(sortKey := key, sortDir := Asc, visibleCount := PAGE_SIZE)
  }

  /** `sortBy(key)`: toggle, then load everything. */
  function SortStep(s: State, key: string, svc: Service): (r: (State, Completion<()>))
    requires !s.loading || s.loadedAll
    ensures r.0.sortKey == key && r.0.visibleCount == PAGE_SIZE
    ensures r.0.sortDir == (if s.sortKey == key then Flip(s.sortDir) else Asc)
    ensures r.1.Resolved? ==> r.0.loadedAll
    ensures s.posts <= r.0.posts
  {
    LoadAll(ToggleSort(s, key), svc)
  }

  // ---------------------------------------------------------------------------
  // The store object

  class PostsStore {
    var query: string
    var posts: seq<Post>
    var loading: bool
    var error: Option<string>
    var nextStart: nat
    var loadedAll: bool
    var visibleCount: nat
    var sortKey: string
    var sortDir: SortDir
    /** Successful fetch completions since the last reset of the cursor. */
    ghost var pagesSinceReset: nat

    function Snapshot(): State
      reads this
    {
      State(query, posts, loading, error, nextStart, loadedAll, visibleCount, sortKey, sortDir)
    }

    /** The cursor is one page per successful completion since the last reset. */
    ghost predicate Valid()
      reads this
    {
      Coherent(Snapshot()) && nextStart == PAGE_SIZE * pagesSinceReset
    }

    constructor ()
      ensures Valid() && Snapshot() == Initial() && pagesSinceReset == 0
    {
      query, posts, loading, error := "", [], false, None;
      nextStart, loadedAll, visibleCount := 0, false, PAGE_SIZE;
      sortKey, sortDir := "id", Asc;
      pagesSinceReset := 0;
    }

    /** The first half of `_fetchPage`, up to the `await`. */
    method BeginFetch() returns (req: Option<Request>)
      requires Valid()
      modifies this
      ensures Valid() && (Snapshot(), req) == Begin(old(Snapshot()))
      ensures pagesSinceReset == old(pagesSinceReset)
    {
      if loadedAll || loading {
        return None;
      }
      loading := true;
      error := None;
      req := Some(BuildRequest(query, nextStart, PAGE_SIZE));
    }

    /** The second half of `_fetchPage`, when `res` arrives. It runs on the
        state as it is then, whatever happened during the `await`. */
    method CompleteFetch(res: Response<seq<Post>>) returns (c: Completion<seq<Post>>)
      requires Valid() && loading
      modifies this
      ensures Valid() && (Snapshot(), c) == Complete(old(Snapshot()), res)
      ensures pagesSinceReset == old(pagesSinceReset) + (if res.Ok? then 1 else 0)
    {
      match res {
      case Ok(chunk) =>
        var existing := Ids(posts);
        var unique := Unseen(existing, chunk);
        posts := posts + unique;
        nextStart := nextStart + PAGE_SIZE;
        pagesSinceReset := pagesSinceReset + 1;
        if |chunk| < PAGE_SIZE {
          loadedAll := true;
        }
        c := Resolved(unique);
      case NotOk =>
        error := Some(ErrorText(POSTS_FETCH_FAILED));
        c := Rejected(POSTS_FETCH_FAILED);
      case Threw(name, message) =>
        if name == ABORT_ERROR {
          c := Resolved([]);
        } else {
          error := Some(ErrorText(message));
          c := Rejected(message);
        }
      }
      loading := false;
    }

    /** `_fetchPage()` answered by `respond` with nothing in between. */
    method FetchPage(respond: Request -> Response<seq<Post>>) returns (c: Completion<seq<Post>>)
      requires Valid()
      modifies this
      ensures Valid() && (Snapshot(), c) == FetchStep(old(Snapshot()), respond)
    {
      var req := BeginFetch();
      if req.None? {
        return Resolved([]);
      }
      c := CompleteFetch(respond(req.value));
    }

    method Search(q: Option<string>, respond: Request -> Response<seq<Post>>) returns (c: Completion<()>)
      requires Valid()
      modifies this
      ensures Valid() && (Snapshot(), c) == SearchStep(old(Snapshot()), q, respond)
    {
      query := NormalizeQuery(q);
      posts := [];
      nextStart := 0;
      pagesSinceReset := 0;
      loadedAll := false;
      visibleCount := PAGE_SIZE;
      var got := FetchPage(respond);
      c := Settled(got);
    }

    /** `initLoad()`: a search for the current query. */
    method InitLoad(respond: Request -> Response<seq<Post>>) returns (c: Completion<()>)
      requires Valid()
      modifies this
      ensures Valid() && (Snapshot(), c) == SearchStep(old(Snapshot()), Some(old(query)), respond)
    {
      c := Search(Some(query), respond);
    }

    method LoadMore(respond: Request -> Response<seq<Post>>) returns (c: Completion<()>)
      requires Valid()
      modifies this
      ensures Valid() && (Snapshot(), c) == LoadMoreStep(old(Snapshot()), respond)
    {
      if visibleCount < |posts| {
        visibleCount := visibleCount + PAGE_SIZE;
        return Resolved(());
      }
      var got := FetchPage(respond);
      match got
      case Rejected(reason) =>
        c := Rejected(reason);
      case Resolved(rows) =>
        if |rows| > 0 {
          visibleCount := visibleCount + PAGE_SIZE;
        }
        c := Resolved(());
    }

    method EnsureAllLoaded(svc: Service) returns (c: Completion<()>)
      requires Valid() && (!loading || loadedAll)
      modifies this
      ensures Valid() && (Snapshot(), c) == LoadAll(old(Snapshot()), svc)
    {
      while !loadedAll
        invariant Valid() && (!loading || loadedAll)
        invariant LoadAll(Snapshot(), svc) == LoadAll(old(Snapshot()), svc)
        decreases Remaining(Snapshot(), svc), !loadedAll
      {
        ghost var before := Snapshot();
        FetchStepProgress(before, svc);
        var got := FetchPage(Responder(svc));
        if got.Rejected? {
          return Rejected(got.reason);
        }
      }
      c := Resolved(());
    }

    method SortBy(key: string, svc: Service) returns (c: Completion<()>)
      requires Valid() && (!loading || loadedAll)
      modifies this
      ensures Valid() && (Snapshot(), c) == SortStep(old(Snapshot()), key, svc)
    {
      if sortKey == key {
        sortDir := if sortDir == Asc then Desc else Asc;
      } else {
        sortKey := key;
        sortDir := Asc;
      }
      visibleCount := PAGE_SIZE;
      c := EnsureAllLoaded(svc);
    }
  }
}
