/**
 * The route handlers of src/routes.ts that own the user state: the module-level
 * `store` object with its one mutable field `handle`, the read `GET /users/:id`
 * and the action dispatcher `PATCH /users/:id`. Requests arrive already parsed
 * (path id, body fields) and a response is its HTTP status code plus, for a
 * read, the user sent as JSON.
 */
module Routes {
  import opened Db
  import opened Following

  /** HTTP status codes of RFC 9110 (sections 15.3.1, 15.5.1, 15.5.5 and 15.5.7). */
  const OK: int := 200
  const BAD_REQUEST: int := 400
  const NOT_FOUND: int := 404
  const NOT_ACCEPTABLE: int := 406

  /** The PATCH request body: the `action` string and the `user_id` of the related user. */
  datatype Body = Body(action: string, userId: UserId)

  /** What one PATCH does: the status it answers and the handle the store holds afterwards. */
  datatype Outcome = Outcome(status: int, handle: Handle)

  /** `{ ...user, viewCount: user.viewCount + 1 }` */
  function Viewed(user: User): (r: User) {
    user.(viewCount := user.viewCount + 1)
  }

  /** `{ ...user, followingIds: [...filter, other] }` */
  function Followed(user: User, other: UserId): (r: User) {
    user.(followingIds := FollowList(user.followingIds, other))
  }

  /** `{ ...user, followingIds: user.followingIds.filter(...) }` */
  function Unfollowed(user: User, other: UserId): (r: User) {
    user.(followingIds := Without(user.followingIds, other))
  }

  /**
   * The PATCH handler as a function of the handle it starts from: the target is
   * looked up first (404), then the action string is matched against "view",
   * "follow" and "unfollow" in that order, anything else answering 400. Every
   * failure leaves the handle as it was.
   */
  function Dispatch(h: Handle, id: UserId, body: Body): (r: Outcome)
    ensures r.status in {OK, BAD_REQUEST, NOT_FOUND, NOT_ACCEPTABLE}
    ensures r.status != OK ==> r.handle == h
  {
    match GetUserById(h, id)
    case None => Outcome(NOT_FOUND, h)
    case Some(user) =>
      if body.action == "view" then
        Outcome(OK, SetUser(h, Viewed(user)))
      else if body.action == "follow" then
        match GetUserById(h, body.userId)
        case None => Outcome(NOT_ACCEPTABLE, h)
        case Some(other) => Outcome(OK, SetUser(h, Followed(user, other.id)))
      else if body.action == "unfollow" then
        if body.userId !in user.followingIds then Outcome(NOT_ACCEPTABLE, h)
        else Outcome(OK, SetUser(h, Unfollowed(user, body.userId)))
      else
        Outcome(BAD_REQUEST, h)
  }

  /** The module-level `store` object of src/routes.ts. */
  class Store {
    var handle: Handle

    ghost predicate Valid()
      reads this
    {
      WellKeyed(handle)
    }

    /** `{ handle: db.getInitialHandle() }`, the initial handle given as a parameter. */
    constructor (initial: Handle)
      requires WellKeyed(initial)
      ensures Valid() && handle == initial
    {
      handle := initial;
    }

    /** `GET /users/:id`: 404 and no JSON for an unknown id, otherwise the stored user unchanged. */
    method GetUser(id: UserId) returns (status: int, json: Option<User>)
      requires Valid()
      ensures status == NOT_FOUND <==> id !in handle
      ensures status == OK <==> id in handle
      ensures json.Some? <==> id in handle
      ensures json.Some? ==> json.value == handle[id] && json.value.id == id
    {
      var user := GetUserById(handle, id);
      if user.None? {
        return NOT_FOUND, None;
      }
      return OK, user;
    }

    /**
     * `PATCH /users/:id`: reassigns `handle` on the three 200 paths only,
     * exactly as `Dispatch` describes.
     */
    method Patch(id: UserId, body: Body) returns (status: int)
      requires Valid()
      modifies this
      ensures Valid()
      ensures status == Dispatch(old(handle), id, body).status
      ensures handle == Dispatch(old(handle), id, body).handle
    {
      var user := GetUserById(handle, id);
      if user.None? {
        return NOT_FOUND;
      }

      if body.action == "view" {
        handle := SetUser(handle, Viewed(user.value));
        return OK;
      }

      if body.action == "follow" {
        var otherUser := GetUserById(handle, body.userId);
        if otherUser.None? {
          return NOT_ACCEPTABLE;
        }
        handle := SetUser(handle, Followed(user.value, otherUser.value.id));
        return OK;
      }

      if body.action == "unfollow" {
        if body.userId !in user.value.followingIds {
          return NOT_ACCEPTABLE;
        }
        handle := SetUser(handle, Unfollowed(user.value, body.userId));
        return OK;
      }

      return BAD_REQUEST;
    }
  }

  /** A PATCH on an unknown target answers 404 and keeps the handle, whatever the body says. */
  lemma PatchUnknownTarget(h: Handle, id: UserId, body: Body)
    requires id !in h
    ensures Dispatch(h, id, body) == Outcome(NOT_FOUND, h)
  {
  }

  /**
   * On a known target, a successful PATCH replaces only the target's record:
   * the keys stay the same, every other record is kept and the target keeps its id.
   * The handle is well keyed again afterwards.
   */
  lemma DispatchFrame(h: Handle, id: UserId, body: Body)
    requires WellKeyed(h)
    ensures var r := Dispatch(h, id, body);
      WellKeyed(r.handle) && r.handle.Keys == h.Keys
      && (forall k :: k in h && k != id ==> r.handle[k] == h[k])
      && (id in h ==> r.handle[id].id == id)
  {
  }

  /**
   * No stored user is lost by a PATCH: each keeps its id, and its view count
   * never decreases.
   */
  lemma DispatchKeepsUsers(h: Handle, id: UserId, body: Body)
    requires WellKeyed(h)
    ensures var r := Dispatch(h, id, body);
      forall k :: k in h ==>
        k in r.handle && r.handle[k].id == k && r.handle[k].viewCount >= h[k].viewCount
  {
  }

  /** No stored user follows an id twice. */
  ghost predicate FollowsNoDuplicates(h: Handle) {
    forall k :: k in h ==> NoDuplicates(h[k].followingIds)
  }

  /** A PATCH keeps every stored following list free of duplicates. */
  lemma DispatchKeepsNoDuplicates(h: Handle, id: UserId, body: Body)
    requires WellKeyed(h) && FollowsNoDuplicates(h)
    ensures FollowsNoDuplicates(Dispatch(h, id, body).handle)
  {
    if id in h {
      FollowListNoDuplicates(h[id].followingIds, body.userId);
      WithoutNoDuplicates(h[id].followingIds, body.userId);
    }
  }

  /** Any action string other than the three known ones answers 400 and keeps the handle. */
  lemma PatchUnknownAction(h: Handle, id: UserId, body: Body)
    requires id in h
    requires body.action != "view" && body.action != "follow" && body.action != "unfollow"
    ensures Dispatch(h, id, body) == Outcome(BAD_REQUEST, h)
  {
  }

  /** `view` answers 200 and raises the target's view count by exactly one, nothing else. */
  lemma PatchView(h: Handle, id: UserId, body: Body)
    requires WellKeyed(h) && id in h && body.action == "view"
    ensures var r := Dispatch(h, id, body);
      r.status == OK && id in r.handle
      && r.handle[id].viewCount == h[id].viewCount + 1
      && r.handle[id].id == id
      && r.handle[id].followingIds == h[id].followingIds
  {
  }

  /** The handle after `n` successive `view` PATCHes on the same target. */
  function ViewTimes(h: Handle, id: UserId, n: nat): (r: Handle) {
    if n == 0 then h else Dispatch(ViewTimes(h, id, n - 1), id, Body("view", "")).handle
  }

  /** `view` sent n more times raises the view count by n: it never decreases or resets. */
  lemma {:induction false} PatchViewRepeated(h: Handle, id: UserId, n: nat)
    requires WellKeyed(h) && id in h
    ensures var h' := ViewTimes(h, id, n);
      WellKeyed(h') && id in h' && h'[id].viewCount == h[id].viewCount + n
  {
    if n > 0 {
      PatchViewRepeated(h, id, n - 1);
      var prev := ViewTimes(h, id, n - 1);
      PatchView(prev, id, Body("view", ""));
      DispatchFrame(prev, id, Body("view", ""));
    }
  }

  /** `follow` of a user missing from the store answers 406 and keeps the handle. */
  lemma PatchFollowUnknown(h: Handle, id: UserId, body: Body)
    requires id in h && body.action == "follow" && body.userId !in h
    ensures Dispatch(h, id, body) == Outcome(NOT_ACCEPTABLE, h)
  {
  }

  /**
   * `follow` of a stored user answers 200; the target's new list is the old one with
   * the followed id filtered out and then appended, so the id occurs once, at the tail,
   * and every other id keeps its multiplicity and order. Id and view count are kept.
   */
  lemma PatchFollow(h: Handle, id: UserId, body: Body)
    requires WellKeyed(h) && id in h && body.action == "follow" && body.userId in h
    ensures var r := Dispatch(h, id, body);
      var xs, ys := h[id].followingIds, r.handle[id].followingIds;
      r.status == OK && id in r.handle
      && r.handle[id].id == id && r.handle[id].viewCount == h[id].viewCount
      && ys == Without(xs, body.userId) + [body.userId]
      && multiset(ys)[body.userId] == 1 && ys[|ys| - 1] == body.userId
      && (forall y :: y != body.userId ==> multiset(ys)[y] == multiset(xs)[y])
  {
  }

  /** A second identical `follow` answers 200 again and leaves the handle as the first left it. */
  lemma PatchFollowIdempotent(h: Handle, id: UserId, body: Body)
    requires WellKeyed(h) && id in h && body.action == "follow" && body.userId in h
    ensures var h' := Dispatch(h, id, body).handle;
      Dispatch(h', id, body) == Outcome(OK, h')
  {
    var h' := Dispatch(h, id, body).handle;
    DispatchFrame(h, id, body);
    FollowListIdempotent(h[id].followingIds, body.userId);
    assert h'[id] == Followed(h[id], body.userId);
    assert Followed(h'[id], body.userId) == h'[id];
  }

  /**
   * `unfollow` of an id the target does not follow answers 406 and keeps the handle;
   * whether that id belongs to a stored user is not consulted.
   */
  lemma PatchUnfollowNotFollowed(h: Handle, id: UserId, body: Body)
    requires id in h && body.action == "unfollow" && body.userId !in h[id].followingIds
    ensures Dispatch(h, id, body) == Outcome(NOT_ACCEPTABLE, h)
  {
  }

  /**
   * `unfollow` of a followed id answers 200, even for an id with no stored user;
   * the new list holds no occurrence of it and keeps every other id, in order.
   */
  lemma PatchUnfollow(h: Handle, id: UserId, body: Body)
    requires WellKeyed(h) && id in h && body.action == "unfollow"
    requires body.userId in h[id].followingIds
    ensures var r := Dispatch(h, id, body);
      var xs, ys := h[id].followingIds, r.handle[id].followingIds;
      r.status == OK && id in r.handle
      && r.handle[id].id == id && r.handle[id].viewCount == h[id].viewCount
      && ys == Without(xs, body.userId)
      && body.userId !in ys && |ys| < |xs|
      && (forall y :: y in ys <==> y in xs && y != body.userId)
  {
    WithoutKeepsOthers(h[id].followingIds, body.userId);
  }

  /**
   * `follow` then `unfollow` of an id the target did not follow, both answering 200,
   * gives back the target's original list.
   */
  lemma PatchFollowThenUnfollow(h: Handle, id: UserId, other: UserId)
    requires WellKeyed(h) && id in h && other in h && other !in h[id].followingIds
    ensures var h1 := Dispatch(h, id, Body("follow", other));
      var h2 := Dispatch(h1.handle, id, Body("unfollow", other));
      h1.status == OK && h2.status == OK && h2.handle[id].followingIds == h[id].followingIds
  {
    var h1 := Dispatch(h, id, Body("follow", other)).handle;
    PatchFollow(h, id, Body("follow", other));
    FollowListShape(h[id].followingIds, other);
    PatchUnfollow(h1, id, Body("unfollow", other));
    FollowThenUnfollow(h[id].followingIds, other);
  }
}
