/** The users store: users indexed by id, and the ids of users already viewed. */
module Users {
  import opened Wrappers
  import opened Http

  /** The message of the error thrown when the users response is not ok. */
  const USERS_FETCH_FAILED: string := "Users fetch failed"

  /** One user as the service returns it; identity is by `id`. */
  datatype User = User(id: int, name: string, username: string, email: string)

  // ---------------------------------------------------------------------------
  // The id index

  /** The map `for (const u of data) map[u.id] = u` leaves: users are entered
      in order, a later user replacing an earlier one with the same id. */
  function Index(data: seq<User>): (r: map<int, User>)
    ensures forall id :: id in r ==> r[id].id == id
  {
    if data == [] then map[]
    else Index(data[..|data| - 1])[data[|data| - 1].id := data[|data| - 1]]
  }

  /** The index has exactly the ids of `data` as keys, and binds each id to a
      user of `data` that has it. */
  lemma {:induction false} IndexKeys(data: seq<User>)
    ensures Index(data).Keys == set u | u in data :: u.id
    ensures forall id :: id in Index(data) ==> Index(data)[id] in data && Index(data)[id].id == id
  {
    if data != [] {
      var init := data[..|data| - 1];
      IndexKeys(init);
      assert data == init + [data[|data| - 1]];
      forall id | id in Index(init) ensures Index(init)[id] in data {
        assert Index(init)[id] in init;
      }
    }
  }

  /** When ids repeat, the last user with that id wins. */
  lemma {:induction false} IndexLastWins(data: seq<User>, i: nat)
    requires i < |data|
    requires forall j :: i < j < |data| ==> data[j].id != data[i].id
    ensures data[i].id in Index(data) && Index(data)[data[i].id] == data[i]
  {
    if i < |data| - 1 {
      var init := data[..|data| - 1];
      forall j | i < j < |init| ensures init[j].id != init[i].id {
        assert init[j] == data[j];
      }
      IndexLastWins(init, i);
      assert init[i] == data[i];
    }
  }

  /** The loop of `fetchAll` that fills the map. */
  method BuildIndex(data: seq<User>) returns (m: map<int, User>)
    ensures m == Index(data)
  {
    m := map[];
    for i := 0 to |data|
      invariant m == Index(data[..i])
    {
      assert data[..i + 1][..i] == data[..i];
      m := m[data[i].id := data[i]];
    }
    assert data[..|data|] == data;
  }

  // ---------------------------------------------------------------------------
  // Viewed users

  /** `viewedIds` after `markViewed(id)`: unchanged when `id` is there,
      otherwise `id` appended at the end. */
  function Marked(ids: seq<int>, id: int): (r: seq<int>)
    ensures id in r
    ensures ids <= r
    ensures id in ids ==> r == ids
    ensures id !in ids ==> r == ids + [id]
  {
    if id in ids then ids else ids + [id]
  }

  ghost predicate NoDup(ids: seq<int>) {
    forall i, j :: 0 <= i < j < |ids| ==> ids[i] != ids[j]
  }

  /** Marking the same id twice is marking it once. */
  lemma MarkedIdempotent(ids: seq<int>, id: int)
    ensures Marked(Marked(ids, id), id) == Marked(ids, id)
  {
  }

  /** Marking keeps the viewed ids free of repetitions. */
  lemma MarkedNoDup(ids: seq<int>, id: int)
    requires NoDup(ids)
    ensures NoDup(Marked(ids, id))
  {
  }

  /** Marking changes the membership of `id` only. */
  lemma MarkedMembership(ids: seq<int>, id: int, other: int)
    ensures other in Marked(ids, id) <==> other in ids || other == id
  {
  }

  // ---------------------------------------------------------------------------
  // The store object

  class UsersStore {
    var byId: map<int, User>
    var loading: bool
    var error: Option<string>
    var viewedIds: seq<int>

    constructor ()
      ensures byId == map[] && !loading && error == None && viewedIds == []
    {
      byId, loading, error, viewedIds := map[], false, None, [];
    }

    /** `getById(id)`: the user indexed under `id`, absent for an unknown id. */
    function GetById(id: int): (u: Option<User>)
      reads this
      ensures u.Some? <==> id in byId
      ensures u.Some? ==> u.value == byId[id]
    {
      if id in byId then Some(byId[id]) else None
    }

    /** `isViewed(id)`: `id` occurs in `viewedIds`. */
    function IsViewed(id: int): (b: bool)
      reads this
      ensures b <==> exists i :: 0 <= i < |viewedIds| && viewedIds[i] == id
    {
      id in viewedIds
    }

    method MarkViewed(id: int)
      modifies this`viewedIds
      ensures viewedIds == Marked(old(viewedIds), id)
      ensures IsViewed(id)
    {
      if id !in viewedIds {
        viewedIds := viewedIds + [id];
      }
    }

    /** `fetchAll()` given the response: on success `byId` is replaced by the
        index of the fetched users; on failure `byId` stays, the error is
        recorded and rethrown; `loading` ends false either way. */
    method FetchAll(res: Response<seq<User>>) returns (c: Completion<()>)
      modifies this`byId, this`loading, this`error
      ensures !loading
      ensures res.Ok? ==> byId == Index(res.body) && error == None && c == Resolved(())
      ensures !res.Ok? ==> byId == old(byId) && c.Rejected? && error == Some(ErrorText(c.reason))
      ensures res.NotOk? ==> c == Rejected(USERS_FETCH_FAILED)
      ensures res.Threw? ==> c == Rejected(res.message)
      ensures res.Ok? ==> forall u :: u in res.body ==> GetById(u.id).Some? && GetById(u.id).value.id == u.id
    {
      loading := true;
      error := None;
      match res {
        case Ok(data) =>
          var m := BuildIndex(data);
          byId := m;
          IndexKeys(data);
          c := Resolved(());
        case NotOk =>
          error := Some(ErrorText(USERS_FETCH_FAILED));
          c := Rejected(USERS_FETCH_FAILED);
        case Threw(_, message) =>
          error := Some(ErrorText(message));
          c := Rejected(message);
      }
      loading := false;
    }
  }
}
