/**
 * The unit-test scenarios of test/unit-tests/routes.test.ts, stated for any handle
 * that holds the seed user `carl` (view count 0, following `jimmy`) and `hugh`,
 * and no `sheen`. The rest of the seed population is left open.
 */
module Scenarios {
  import opened Db
  import opened Routes

  const Carl: User := User("carl", 0, ["jimmy"])

  predicate Seeded(h: Handle) {
    "carl" in h && h["carl"] == Carl && "hugh" in h && h["hugh"].id == "hugh" && "sheen" !in h
  }

  /** GET of `sheen` is a miss; PATCH of `sheen` answers 404; the action `jump` answers 400. */
  lemma MissesAndBadAction(h: Handle)
    requires Seeded(h)
    ensures GetUserById(h, "sheen") == None
    ensures Dispatch(h, "sheen", Body("view", "")) == Outcome(NOT_FOUND, h)
    ensures Dispatch(h, "carl", Body("jump", "")) == Outcome(BAD_REQUEST, h)
  {
  }

  /** `view` of carl answers 200 and carl's view count becomes 1. */
  lemma ViewCarl(h: Handle)
    requires Seeded(h)
    ensures var r := Dispatch(h, "carl", Body("view", ""));
      r.status == OK && r.handle["carl"].viewCount == 1
  {
  }

  /** carl following hugh answers 200 with the list ["jimmy", "hugh"]; following sheen answers 406. */
  lemma FollowFromCarl(h: Handle)
    requires Seeded(h)
    ensures var r := Dispatch(h, "carl", Body("follow", "hugh"));
      r.status == OK && r.handle["carl"].followingIds == ["jimmy", "hugh"]
    ensures Dispatch(h, "carl", Body("follow", "sheen")) == Outcome(NOT_ACCEPTABLE, h)
  {
  }

  /** carl unfollowing jimmy answers 200 with the empty list; unfollowing sheen answers 406. */
  lemma UnfollowFromCarl(h: Handle)
    requires Seeded(h)
    ensures var r := Dispatch(h, "carl", Body("unfollow", "jimmy"));
      r.status == OK && r.handle["carl"].followingIds == []
    ensures Dispatch(h, "carl", Body("unfollow", "sheen")) == Outcome(NOT_ACCEPTABLE, h)
  {
  }
}
