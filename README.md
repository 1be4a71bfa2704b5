# User store and action dispatcher of a small social-graph API

This project models the part of the API's route handlers that owns the user
state, in `src/routes.ts`:

- the module-level `store` object, whose one mutable field `handle` is a
  snapshot of every user keyed by id (class `Routes.Store`);
- `GET /users/:id`, a lookup that answers 404 on a miss and otherwise sends the
  stored user (`Routes.Store.GetUser`);
- `PATCH /users/:id`, the action dispatcher: it looks the target up (404), then
  branches on the action string `view`, `follow`, `unfollow` or anything else
  (400). It computes the target's new record: one more view, the followed id
  filtered out and appended, or the unfollowed id filtered out. A related user
  missing from the store (follow) or missing from the target's list (unfollow)
  answers 406. The new record is written back with `setUser`, and `handle` is
  reassigned only on the three 200 paths (`Routes.Store.Patch`).

`Patch` is an imperative method with early returns, like the handler. It is
proved against the pure function `Routes.Dispatch`, which gives the status and
the resulting handle from the handle it starts with. The properties of the
handler are proved as lemmas about `Dispatch` and about the two list operations
in module `Following`: `Without` is the `filter`, and `FollowList` is the
filter followed by the append.

Modules: `Db` (users, handles and the two store calls), `Following` (the list
operations), `Routes` (statuses, dispatch, the store object) and `Scenarios`
(the unit-test scenarios stated as lemmas).

**Assumption about the store.** `src/db.ts` is not part of this model. A handle
is taken to be a map from user id to user record. `getUserById` is taken to be a
lookup in that map, where "no user" is `null`. `setUser` is taken to be an
insert-or-replace keyed by the written user's own `id`, which leaves the old
handle untouched. These are assumptions, not verified behaviour of the store.
The predicate `Db.WellKeyed` says that every record is stored under its own id.
The store object keeps it as its invariant. It is what makes the follow path's
`otherUser.id` equal the requested `user_id`, and it is why a write replaces
only the target's record. The initial handle (`db.getInitialHandle`) is assumed
to store every user under its own id as well.

Status codes are plain integers with their RFC 9110 meanings: 200 (section
15.3.1), 400 (section 15.5.1), 404 (section 15.5.5) and 406 (section 15.5.7).

`GET /users/:id` sends the raw stored user. It does not resolve the followed
users into profiles.

Nothing in the handler prevents duplicate ids in `followingIds`. The model
proves instead that follow and unfollow keep a duplicate-free list
duplicate-free (`Following.FollowListNoDuplicates`,
`Following.WithoutNoDuplicates`), and that a PATCH keeps every stored list
duplicate-free when all of them were (`Routes.DispatchKeepsNoDuplicates`).

## Model

| member | source | states |
|---|---|---|
| `Db.GetUserById` | src/routes.ts:39-43 | the lookup finds a user exactly when the id is stored, returns that stored record, and under `WellKeyed` the record's own id is the requested id |
| `Db.SetUser` | src/routes.ts:49-55 | the write stores the user under its own id, keeps every other entry, adds no other key and keeps the handle well keyed |
| `Following.Without` | src/routes.ts:98-100 | the filter drops every occurrence of the id, keeps every other id with its multiplicity, adds nothing, and shortens the list exactly when the id was present |
| `Following.WithoutAppend` | src/routes.ts:98-100 | filtering distributes over concatenation, so the kept ids stay in their relative order |
| `Following.WithoutAbsent` | src/routes.ts:76 | filtering out an id that is not in the list returns the list unchanged |
| `Following.WithoutKeepsOthers` | src/routes.ts:98-100 | an id is in the filtered list exactly when it was in the list and differs from the removed id |
| `Following.WithoutNoDuplicates` | src/routes.ts:98-100 | filtering keeps a duplicate-free list duplicate-free |
| `Following.FollowListShape` | src/routes.ts:75-78 | after follow the id occurs exactly once, at the tail; the prefix is the old list filtered; every other id keeps its multiplicity; membership is the old membership plus the followed id |
| `Following.FollowListIdempotent` | src/routes.ts:75-78 | following the same id twice gives the same list as following it once |
| `Following.FollowListNoDuplicates` | src/routes.ts:75-78 | follow keeps a duplicate-free list duplicate-free |
| `Following.FollowThenUnfollow` | src/routes.ts:75-78 | unfollowing what was just followed gives the old list with that id filtered out, and the old list itself when the id was not followed before |
| `Routes.Dispatch` | src/routes.ts:35-109 | the handler only ever answers 200, 400, 404 or 406, and every non-200 answer leaves the handle as it was |
| `Routes.Store.constructor` | src/routes.ts:5-7 | the store starts from the given initial handle, which must be well keyed |
| `Routes.Store.GetUser` | src/routes.ts:19-33 | an unknown id answers 404 with no JSON; a known id answers with the stored user itself, whose id is the requested one; nothing is modified |
| `Routes.Store.Patch` | src/routes.ts:35-109 | the status and the new `handle` are exactly those of `Dispatch` on the old handle, and the store stays well keyed |
| `Routes.PatchUnknownTarget` | src/routes.ts:39-46 | an unknown target answers 404 with the handle unchanged, whatever the body holds |
| `Routes.DispatchFrame` | src/routes.ts:49-55 | every outcome keeps the same keys and every record other than the target's; the target keeps its id; the handle stays well keyed |
| `Routes.DispatchKeepsUsers` | src/routes.ts:48-105 | after any PATCH every stored user is still stored, under its own id, with a view count at least as large as before |
| `Routes.DispatchKeepsNoDuplicates` | src/routes.ts:71-102 | when no stored user follows an id twice, the same holds after any PATCH |
| `Routes.PatchUnknownAction` | src/routes.ts:108 | an action other than `view`, `follow` or `unfollow` answers 400 with the handle unchanged |
| `Routes.PatchView` | src/routes.ts:48-58 | `view` answers 200; the view count becomes exactly the old count plus one; the id and the followed ids are unchanged |
| `Routes.PatchViewRepeated` | src/routes.ts:48-58 | n successive `view` requests raise the view count by exactly n |
| `Routes.PatchFollowUnknown` | src/routes.ts:61-69 | `follow` of a user missing from the store answers 406 with the handle unchanged |
| `Routes.PatchFollow` | src/routes.ts:61-84 | `follow` of a stored user answers 200; the new list is the old one with the id filtered out and appended; the id occurs exactly once, at the tail; the other ids keep their multiplicity; id and view count are unchanged |
| `Routes.PatchFollowIdempotent` | src/routes.ts:61-84 | repeating a successful `follow` answers 200 and leaves the handle exactly as the first one left it |
| `Routes.PatchUnfollowNotFollowed` | src/routes.ts:86-92 | `unfollow` of an id the target does not follow answers 406 with the handle unchanged, whether or not that id is a stored user |
| `Routes.PatchUnfollow` | src/routes.ts:94-105 | `unfollow` of a followed id answers 200; the new list is the filtered list, shorter than before, with no occurrence of the id and every other id kept; id and view count are unchanged |
| `Routes.PatchFollowThenUnfollow` | src/routes.ts:61-105 | `follow` then `unfollow` of an id the target did not follow both answer 200 and give back the original list |
| `Scenarios.MissesAndBadAction` | test/unit-tests/routes.test.ts:52-111 | `sheen` is not found by GET, PATCH of `sheen` answers 404, and the action `jump` answers 400, with the handle unchanged |
| `Scenarios.ViewCarl` | test/unit-tests/routes.test.ts:114-136 | `view` of carl answers 200 and carl's view count becomes 1 |
| `Scenarios.FollowFromCarl` | test/unit-tests/routes.test.ts:140-185 | carl following hugh gives `["jimmy", "hugh"]`; following sheen answers 406 with the handle unchanged |
| `Scenarios.UnfollowFromCarl` | test/unit-tests/routes.test.ts:189-234 | carl unfollowing jimmy gives `[]`; unfollowing sheen answers 406 with the handle unchanged |

## Left out

- `GET /users` (src/routes.ts:10-17): it passes `db.getUsers` through and has no logic of its own. The order of `getUsers` belongs to `src/db.ts`.
- `src/db.ts` is not part of this model. The map reading of `getUserById` and `setUser` above is an assumption. `getInitialHandle` becomes the constructor's parameter. The JSON string form of a handle is not modelled, and the seed users appear only through the scenario lemmas' preconditions.
- The Express plumbing (`req.params`, `req.body`, `res.json`, `res.sendStatus`): inputs are parsed parameters and outputs are a status plus, for GET, an optional user. The implicit 200 of `res.json` is stated explicitly.
- A request body whose `user_id` is missing (JavaScript `undefined`): how the store looks up such a key depends on `src/db.ts`, so `Body.userId` is always a string.
- `async`/`await` and any interleaving between requests: the model is sequential, one request at a time.
- `Db.User.viewCount` is an unbounded natural number. The JavaScript number's loss of precision above 2^53 is not modelled.
