/**
 * The user store as the route handlers see it. The store module itself
 * (src/db.ts) is not part of this model: a handle is taken to be a snapshot
 * map from user id to user record, `getUserById` a lookup in it and
 * `setUser` an insert-or-replace keyed by the written user's own id.
 * Those two readings are assumptions, not verified behaviour of the store.
 */
module Db {

  datatype Option<T> = None | Some(value: T)

  type UserId = string

  /** A user record: a value, replaced as a whole on every write. */
  datatype User = User(id: UserId, viewCount: nat, followingIds: seq<UserId>)

  /** One immutable snapshot of the whole user population, keyed by user id. */
  type Handle = map<UserId, User>

  /** Every record is stored under its own id. `setUser` keeps this (it keys by `user.id`). */
  ghost predicate WellKeyed(h: Handle) {
    forall k :: k in h ==> h[k].id == k
  }

  /** `db.getUserById`: the record stored under `id`, or nothing (`null` in the source). */
  function GetUserById(h: Handle, id: UserId): (r: Option<User>)
    ensures r.Some? <==> id in h
    ensures r.Some? ==> r.value == h[id]
    ensures WellKeyed(h) && r.Some? ==> r.value.id == id
  {
    if id in h then Some(h[id]) else None
  }

  /**
   * `db.setUser`: a new snapshot in which `u` is stored under `u.id`
   * and every other entry of `h` is kept; `h` itself is a value and is untouched.
   */
  function SetUser(h: Handle, u: User): (r: Handle)
    ensures r.Keys == h.Keys + {u.id}
    ensures GetUserById(r, u.id) == Some(u)
    ensures forall k :: k != u.id ==> GetUserById(r, k) == GetUserById(h, k)
    ensures WellKeyed(h) ==> WellKeyed(r)
  {
    h[u.id := u]
  }
}
