/** What the posts store's transitions guarantee, and what they do not. */
module PostsProperties {
  import opened Wrappers
  import opened Http
  import opened Text
  import opened Posts

  // ---------------------------------------------------------------------------
  // The dedup filter

  /** A chunk none of whose ids is loaded passes the filter whole. */
  lemma {:induction false} UnseenAllFresh(existing: set<int>, chunk: seq<Post>)
    requires forall p :: p in chunk ==> p.id !in existing
    ensures Unseen(existing, chunk) == chunk
  {
    if chunk != [] {
      assert chunk[0] in chunk;
      forall p | p in chunk[1..] ensures p.id !in existing {
        assert p in chunk;
      }
      UnseenAllFresh(existing, chunk[1..]);
      assert [chunk[0]] + chunk[1..] == chunk;
    }
  }

  /** A chunk whose ids are all loaded adds nothing. */
  lemma {:induction false} UnseenAllKnown(existing: set<int>, chunk: seq<Post>)
    requires forall p :: p in chunk ==> p.id in existing
    ensures Unseen(existing, chunk) == []
  {
    if chunk != [] {
      assert chunk[0] in chunk;
      forall p | p in chunk[1..] ensures p.id in existing {
        assert p in chunk;
      }
      UnseenAllKnown(existing, chunk[1..]);
    }
  }

  /** Filtering a concatenation filters each part. */
  lemma {:induction false} UnseenConcat(existing: set<int>, a: seq<Post>, b: seq<Post>)
    ensures Unseen(existing, a + b) == Unseen(existing, a) + Unseen(existing, b)
  {
    if a == [] {
      assert a + b == b;
    } else {
      var head := if a[0].id in existing then [] else [a[0]];
      var ra, rb := Unseen(existing, a[1..]), Unseen(existing, b);
      UnseenConcat(existing, a[1..], b);
      assert Unseen(existing, a + b) == head + (ra + rb) by {
        assert (a + b)[0] == a[0] && (a + b)[1..] == a[1..] + b;
      }
      assert head + (ra + rb) == (head + ra) + rb;
    }
  }

  /** Two id-distinct sequences with disjoint ids concatenate to an id-distinct one. */
  lemma NoDupConcat(a: seq<Post>, b: seq<Post>)
    requires NoDupIds(a) && NoDupIds(b) && Ids(a) !! Ids(b)
    ensures NoDupIds(a + b)
  {
    var ab := a + b;
    forall i, j | 0 <= i < j < |ab| ensures ab[i].id != ab[j].id {
      if j < |a| {
        assert ab[i] == a[i] && ab[j] == a[j];
      } else if i >= |a| {
        assert ab[i] == b[i - |a|] && ab[j] == b[j - |a|];
      } else {
        assert ab[i] == a[i] && a[i] in a;
        assert ab[j] == b[j - |a|] && b[j - |a|] in b;
        assert ab[i].id in Ids(a) && ab[j].id in Ids(b);
      }
    }
  }

  /** The filter keeps an id-distinct chunk id-distinct. */
  lemma {:induction false} UnseenNoDup(existing: set<int>, chunk: seq<Post>)
    requires NoDupIds(chunk)
    ensures NoDupIds(Unseen(existing, chunk))
  {
    if chunk != [] {
      var rest := chunk[1..];
      assert NoDupIds(rest) by {
        forall i, j | 0 <= i < j < |rest| ensures rest[i].id != rest[j].id {
          assert rest[i] == chunk[i + 1] && rest[j] == chunk[j + 1];
        }
      }
      UnseenNoDup(existing, rest);
      var head := if chunk[0].id in existing then [] else [chunk[0]];
      assert NoDupIds(head);
      assert Ids(head) !! Ids(Unseen(existing, rest)) by {
        UnseenMembers(existing, rest);
        forall p | p in Unseen(existing, rest) ensures p.id != chunk[0].id {
          assert p in rest;
          var k :| 0 <= k < |rest| && rest[k] == p;
          assert chunk[k + 1] == p;
        }
      }
      NoDupConcat(head, Unseen(existing, rest));
    }
  }

  /** A successful completion keeps the loaded posts id-distinct, provided the
      chunk itself is: rows repeated inside one chunk are not filtered. */
  lemma CompleteKeepsNoDup(s: State, chunk: seq<Post>)
    requires NoDupIds(s.posts) && NoDupIds(chunk)
    ensures NoDupIds(Complete(s, Ok(chunk)).0.posts)
  {
    var unique := Unseen(Ids(s.posts), chunk);
    UnseenNoDup(Ids(s.posts), chunk);
    assert Ids(s.posts) !! Ids(unique) by {
      UnseenMembers(Ids(s.posts), chunk);
    }
    NoDupConcat(s.posts, unique);
  }

  /** The same for a whole `_fetchPage`. */
  lemma FetchKeepsNoDup(s: State, respond: Request -> Response<seq<Post>>)
    requires NoDupIds(s.posts)
    requires respond(RequestOf(s)).Ok? ==> NoDupIds(respond(RequestOf(s)).body)
    ensures NoDupIds(FetchStep(s, respond).0.posts)
  {
    if CanFetch(s) && respond(RequestOf(s)).Ok? {
      CompleteKeepsNoDup(s.(loading := true, error := None), respond(RequestOf(s)).body);
    }
  }

  /** A chunk with a repeated id that is not yet loaded is appended with the
      repetition: the filter only compares against rows loaded before. */
  lemma RepeatedIdInChunkIsKept(s: State, p: Post)
    requires p.id !in Ids(s.posts)
    ensures Complete(s, Ok([p, p])).0.posts == s.posts + [p, p]
    ensures !NoDupIds([p, p])
  {
    var existing := Ids(s.posts);
    assert [p, p][1..] == [p] && [p][1..] == [];
    assert Unseen(existing, [p]) == [p];
    assert Unseen(existing, [p, p]) == [p, p];
  }

  // ---------------------------------------------------------------------------
  // One page fetch

  /** `_fetchPage` only ever appends, returns exactly what it appended,
      advances the cursor by one page per successful response (even when
      nothing new was appended), only ever sets `loadedAll`, and records an
      error exactly when it rejects. */
  lemma FetchOutcome(s: State, respond: Request -> Response<seq<Post>>)
    ensures var (t, c) := FetchStep(s, respond);
            var fetched := CanFetch(s) && respond(RequestOf(s)).Ok?;
            s.posts <= t.posts
            && (c.Resolved? ==> c.value == t.posts[|s.posts|..])
            && t.nextStart == s.nextStart + (if fetched then PAGE_SIZE else 0)
            && (s.loadedAll ==> t.loadedAll)
            && (!s.loadedAll && t.loadedAll <==> fetched && |respond(RequestOf(s)).body| < PAGE_SIZE)
            && t.loading == s.loading
            && SameView(s, t)
            && (c.Rejected? ==> t.error == Some(ErrorText(c.reason)) && t.posts == s.posts)
  {
  }

  /** A rejected or aborted response leaves the loaded rows, the cursor and
      `loadedAll` as they were. An abort is silent: it resolves with `[]` and,
      beyond the `error := null` that starts every fetch, changes nothing. */
  lemma FetchFailureKeepsProgress(s: State, respond: Request -> Response<seq<Post>>)
    requires CanFetch(s) && !respond(RequestOf(s)).Ok?
    ensures var (t, c) := FetchStep(s, respond);
            t.posts == s.posts && t.nextStart == s.nextStart && !t.loadedAll && !t.loading
            && (IsAbort(respond(RequestOf(s))) ==> t == s.(error := None) && c == Resolved([]))
            && (!IsAbort(respond(RequestOf(s))) ==> c.Rejected? && t.error.Some? && t.error.value != "")
            && (respond(RequestOf(s)).Threw? && !IsAbort(respond(RequestOf(s))) ==>
                  c == Rejected(respond(RequestOf(s)).message)
                  && t.error == Some(ErrorText(respond(RequestOf(s)).message)))
  {
  }

  /** The error of a not-ok response is the fixed posts message. */
  lemma NotOkMessage(s: State, respond: Request -> Response<seq<Post>>)
    requires CanFetch(s) && respond(RequestOf(s)) == NotOk
    ensures FetchStep(s, respond).1 == Rejected(POSTS_FETCH_FAILED)
    ensures FetchStep(s, respond).0.error == Some(POSTS_FETCH_FAILED)
  {
  }

  // ---------------------------------------------------------------------------
  // The invariant every action keeps

  lemma BeginCoherent(s: State)
    requires Coherent(s)
    ensures Coherent(Begin(s).0)
  {
  }

  lemma CompleteCoherent(s: State, res: Response<seq<Post>>)
    requires Coherent(s)
    ensures Coherent(Complete(s, res).0)
  {
  }

  /** While a fetch is in flight `error` is null, so an abort leaves it null. */
  lemma AbortKeepsErrorNull(s: State, res: Response<seq<Post>>)
    requires Coherent(s) && s.loading && IsAbort(res)
    ensures Complete(s, res).0.error == None
  {
  }

  lemma FetchCoherent(s: State, respond: Request -> Response<seq<Post>>)
    requires Coherent(s)
    ensures Coherent(FetchStep(s, respond).0)
  {
  }

  lemma SearchCoherent(s: State, q: Option<string>, respond: Request -> Response<seq<Post>>)
    requires Coherent(s)
    ensures Coherent(SearchStep(s, q, respond).0)
  {
  }

  lemma LoadMoreCoherent(s: State, respond: Request -> Response<seq<Post>>)
    requires Coherent(s)
    ensures Coherent(LoadMoreStep(s, respond).0)
  {
  }

  lemma {:induction false} LoadAllCoherent(s: State, svc: Service)
    requires Coherent(s) && (!s.loading || s.loadedAll)
    ensures Coherent(LoadAll(s, svc).0)
    decreases Remaining(s, svc), !s.loadedAll
  {
    if !s.loadedAll {
      FetchCoherent(s, Responder(svc));
      FetchStepProgress(s, svc);
      var (t, c) := FetchStep(s, Responder(svc));
      FetchOutcome(s, Responder(svc));
      if c.Resolved? {
        LoadAllCoherent(t, svc);
      }
    }
  }

  lemma SortCoherent(s: State, key: string, svc: Service)
    requires Coherent(s) && (!s.loading || s.loadedAll)
    ensures Coherent(SortStep(s, key, svc).0)
  {
    LoadAllCoherent(ToggleSort(s, key), svc);
  }

  /** The initial state is coherent and ready for its first fetch. */
  lemma InitialCoherent()
    ensures Coherent(Initial()) && CanFetch(Initial())
  {
  }

  // ---------------------------------------------------------------------------
  // search

  /** The fetch `search(q)` starts asks for the first page, with a title
      filter exactly when the trimmed query is non-empty. */
  lemma SearchRequest(s: State, q: Option<string>)
    requires !s.loading
    ensures var query := NormalizeQuery(q);
            Begin(Reset(s, q)).1 == Some(Request(if query == "" then None else Some(query), 0, PAGE_SIZE))
  {
    if q.Some? {
      TrimIdempotent(q.value);
    }
  }

  /** `search` does not clear `loading`: while a fetch is in flight, its own
      fetch is a no-op and it settles on the bare reset state. */
  lemma SearchWhileLoading(s: State, q: Option<string>, respond: Request -> Response<seq<Post>>)
    requires s.loading
    ensures SearchStep(s, q, respond) == (Reset(s, q), Resolved(()))
  {
  }

  /** With nothing in flight, `search` loads the first page of the new query. */
  lemma SearchLoadsFirstPage(s: State, q: Option<string>, respond: Request -> Response<seq<Post>>, chunk: seq<Post>)
    requires !s.loading
    requires respond(RequestOf(Reset(s, q))) == Ok(chunk)
    ensures var (t, c) := SearchStep(s, q, respond);
            c == Resolved(()) && t.query == NormalizeQuery(q) && t.posts == chunk
            && t.nextStart == PAGE_SIZE && (t.loadedAll <==> |chunk| < PAGE_SIZE)
            && t.visibleCount == PAGE_SIZE && !t.loading
  {
    assert Ids([]) == {};
    UnseenAllFresh({}, chunk);
  }

  /** No stale response is discarded: a fetch begun before `search(q)`
      completes into the reset state, so its rows (from the old query) become
      the new query's posts and it advances the new query's cursor. */
  lemma StaleResponseLandsInNewQuery(s: State, q: Option<string>, respond: Request -> Response<seq<Post>>, chunk: seq<Post>)
    requires CanFetch(s)
    ensures var inFlight := Begin(s).0;
            var (reset, c) := SearchStep(inFlight, q, respond);
            reset == Reset(inFlight, q) && c == Resolved(())
            && var (t, got) := Complete(reset, Ok(chunk));
               t.query == NormalizeQuery(q) && t.posts == chunk && got == Resolved(chunk)
               && t.nextStart == PAGE_SIZE && !t.loading
  {
    var inFlight := Begin(s).0;
    SearchWhileLoading(inFlight, q, respond);
    assert Ids([]) == {};
    UnseenAllFresh({}, chunk);
  }

  // ---------------------------------------------------------------------------
  // loadMore

  /** `loadMore` grows the window by a page from rows already loaded without
      fetching; otherwise it fetches and grows the window only when that fetch
      appended rows. */
  lemma LoadMoreWindow(s: State, respond: Request -> Response<seq<Post>>)
    ensures var (t, c) := LoadMoreStep(s, respond);
            (s.visibleCount < |s.posts| ==> t == s.(visibleCount := s.visibleCount + PAGE_SIZE) && c == Resolved(()))
            && (s.visibleCount >= |s.posts| ==>
                  t.(visibleCount := s.visibleCount) == FetchStep(s, respond).0
                  && t.visibleCount == (if |t.posts| > |s.posts| then s.visibleCount + PAGE_SIZE else s.visibleCount)
                  && (c.Rejected? <==> FetchStep(s, respond).1.Rejected?))
  {
  }

  /** Once everything is loaded and shown, `loadMore` changes nothing. */
  lemma LoadMoreIdempotent(s: State, respond: Request -> Response<seq<Post>>)
    requires s.loadedAll && s.visibleCount >= |s.posts|
    ensures LoadMoreStep(s, respond) == (s, Resolved(()))
  {
  }

  /** The window may run past the loaded rows: `loadMore` from a window of
      `k` rows over `k + 1` loaded rows shows `k + PAGE_SIZE`. */
  lemma WindowMayExceedPosts(s: State, respond: Request -> Response<seq<Post>>)
    requires |s.posts| == s.visibleCount + 1
    ensures LoadMoreStep(s, respond).0.visibleCount > |LoadMoreStep(s, respond).0.posts|
  {
  }

  // ---------------------------------------------------------------------------
  // ensureAllLoaded and sortBy

  /** `ensureAllLoaded` returns at once when everything is loaded; otherwise it
      resolves only with `loadedAll` set, or rejects with the error recorded;
      it appends only, and against a service that never fails it resolves. */
  lemma {:induction false} LoadAllOutcome(s: State, svc: Service)
    requires !s.loading || s.loadedAll
    ensures s.loadedAll ==> LoadAll(s, svc) == (s, Resolved(()))
    ensures var (t, c) := LoadAll(s, svc);
            (c.Resolved? ==> t.loadedAll)
            && (c.Rejected? ==> t.error == Some(ErrorText(c.reason)))
            && (!s.loadedAll ==> !t.loading)
            && s.posts <= t.posts && s.nextStart <= t.nextStart && SameView(s, t)
            && (svc.failing == {} ==> c.Resolved?)
    decreases Remaining(s, svc), !s.loadedAll
  {
    if !s.loadedAll {
      FetchStepProgress(s, svc);
      FetchOutcome(s, Responder(svc));
      var (t, c) := FetchStep(s, Responder(svc));
      if c.Resolved? {
        LoadAllOutcome(t, svc);
      }
    }
  }

  /** `posts` holds exactly the first `n` rows of `items` and the cursor is at `n`. */
  ghost predicate InSync(s: State, items: seq<Post>) {
    s.nextStart <= |items| && s.posts == items[..s.nextStart]
  }

  /** Rows of `items` past `n` have ids distinct from the first `n`. */
  lemma PrefixIdsDisjoint(items: seq<Post>, n: nat, m: nat)
    requires NoDupIds(items) && n <= m <= |items|
    ensures forall p :: p in items[n..m] ==> p.id !in Ids(items[..n])
  {
  }

  /** One page fetch from a state in step with a never-failing service keeps
      it in step: the page is appended whole and the cursor moves past it. */
  lemma FetchInSync(s: State, items: seq<Post>)
    requires NoDupIds(items) && CanFetch(s) && InSync(s, items)
    ensures var (t, c) := FetchStep(s, Responder(Service(items, {})));
            c.Resolved? && !t.loading && t.nextStart == s.nextStart + PAGE_SIZE
            && (t.loadedAll <==> |items| < t.nextStart)
            && (t.loadedAll ==> t.posts == items)
            && (!t.loadedAll ==> InSync(t, items))
  {
    var svc := Service(items, {});
    var n := s.nextStart;
    var m := Min(n + PAGE_SIZE, |items|);
    var chunk := items[n..m];
    assert items[..n] + items[n..m] == items[..m];
    assert m == |items| ==> items[..m] == items;
    assert Responder(svc)(RequestOf(s)) == Ok(chunk);
    assert Unseen(Ids(s.posts), chunk) == chunk by {
      PrefixIdsDisjoint(items, n, m);
      UnseenAllFresh(Ids(s.posts), chunk);
    }
  }

  /** Against a service that never fails, `ensureAllLoaded` terminates (the
      rows beyond the cursor shrink by a page per fetch) and, starting in step
      with the collection, ends with every row of it loaded, in order. */
  lemma {:induction false} LoadAllLoadsEverything(s: State, items: seq<Post>)
    requires NoDupIds(items) && !s.loading && !s.loadedAll && InSync(s, items)
    ensures var (t, c) := LoadAll(s, Service(items, {}));
            c == Resolved(()) && t.posts == items && t.loadedAll && !t.loading
    decreases |items| - s.nextStart
  {
    FetchInSync(s, items);
    var t := FetchStep(s, Responder(Service(items, {}))).0;
    if !t.loadedAll {
      LoadAllLoadsEverything(t, items);
    }
  }

  /** `sortBy(key)` flips the direction for the current key and sorts a new
      key ascending, always shows one page, fetches nothing when everything is
      loaded, and otherwise resolves only once everything is loaded. */
  lemma SortToggles(s: State, key: string, svc: Service)
    requires !s.loading || s.loadedAll
    ensures var (t, c) := SortStep(s, key, svc);
            t.sortKey == key
            && t.sortDir == (if s.sortKey == key then Flip(s.sortDir) else Asc)
            && t.visibleCount == PAGE_SIZE
            && (s.loadedAll ==> t == ToggleSort(s, key) && c == Resolved(()))
            && (c.Resolved? ==> t.loadedAll)
            && s.posts <= t.posts
  {
    LoadAllOutcome(ToggleSort(s, key), svc);
  }

  /** Sorting twice by a new key ends descending, with no fetch once loaded. */
  lemma SortTwiceByNewKey(s: State, key: string, svc: Service)
    requires s.loadedAll && s.sortKey != key
    ensures var t := SortStep(s, key, svc).0;
            t.sortDir == Asc && SortStep(t, key, svc).0.sortDir == Desc
            && SortStep(t, key, svc).0.posts == s.posts
  {
  }

  /** Sorting right after a search's reset loads the whole collection for the query
      and shows its first page. */
  lemma SortAfterResetLoadsEverything(s: State, q: Option<string>, key: string, items: seq<Post>)
    requires NoDupIds(items) && !s.loading
    ensures var (t, c) := SortStep(Reset(s, q), key, Service(items, {}));
            c == Resolved(()) && t.posts == items && t.loadedAll && t.visibleCount == PAGE_SIZE
  {
    var r := ToggleSort(Reset(s, q), key);
    assert items[..0] == [];
    LoadAllLoadsEverything(r, items);
    LoadAllOutcome(r, Service(items, {}));
  }

  /** With a fetch in flight and `loadedAll` unset, a page fetch is a no-op:
      the loop of `ensureAllLoaded` would make no progress. */
  lemma NoProgressWhileLoading(s: State, respond: Request -> Response<seq<Post>>)
    requires s.loading && !s.loadedAll
    ensures FetchStep(s, respond) == (s, Resolved([]))
  {
  }
}
