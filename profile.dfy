/**
 * The business-profile endpoints (read, and create-or-update with
 * last-write-wins) and the Telegram account link with its uniqueness guard.
 */
module Profile {
  import opened Wrappers
  import opened Store

  /** The three required fields of a profile POST. */
  datatype ProfileRequest = ProfileRequest(industry: string, companySize: string, goals: string)

  predicate Holds(p: BusinessProfile, req: ProfileRequest)
  {
    p.industry == req.industry && p.companySize == req.companySize && p.goals == req.goals
  }

  /** GET /profile/: the caller's profile, or 404 when there is none. Only reads. */
  function GetProfile(profiles: map<int, BusinessProfile>, userId: int): (r: Result<BusinessProfile>)
    ensures r.Err? <==> userId !in profiles
    ensures r.Err? ==> r.code == 404
    ensures r.Ok? ==> r.value == profiles[userId]
  {
    if userId in profiles then Ok(profiles[userId]) else Err(404)
  }

  /**
   * The profile table and its next row key after a POST by `userId`. The caller
   * ends with exactly one profile holding the request; an existing row keeps its
   * key, a new row takes the next key; other users' profiles are untouched.
   */
  function Upserted(profiles: map<int, BusinessProfile>, nextProfileId: int, userId: int, req: ProfileRequest)
    : (r: (map<int, BusinessProfile>, int))
    ensures r.0.Keys == profiles.Keys + {userId}
    ensures forall u :: u in profiles && u != userId ==> r.0[u] == profiles[u]
    ensures Holds(r.0[userId], req) && r.0[userId].userId == userId
    ensures userId in profiles ==> r.0[userId].id == profiles[userId].id && r.1 == nextProfileId
    ensures userId !in profiles ==> r.0[userId].id == nextProfileId && r.1 == nextProfileId + 1
  {
    if userId in profiles then
      var p := profiles[userId];
      (profiles[userId := p.(userId := userId, industry := req.industry, companySize := req.companySize, goals := req.goals)],
       nextProfileId)
    else
      (profiles[userId := BusinessProfile(nextProfileId, userId, req.industry, req.companySize, req.goals)],
       nextProfileId + 1)
  }

  /** Repeating the same POST (on a table whose rows carry their owner's id) changes nothing. */
  lemma UpsertIdempotent(profiles: map<int, BusinessProfile>, nextProfileId: int, userId: int, req: ProfileRequest)
    requires forall u :: u in profiles ==> profiles[u].userId == u
    ensures var once := Upserted(profiles, nextProfileId, userId, req);
            Upserted(once.0, once.1, userId, req) == once
  {
    var once := Upserted(profiles, nextProfileId, userId, req);
    var twice := Upserted(once.0, once.1, userId, req);
    assert twice.0[userId] == once.0[userId];
    assert twice.0 == once.0;
  }

  /** Two POSTs by the same user: the second one wins. */
  lemma UpsertLastWriteWins(profiles: map<int, BusinessProfile>, nextProfileId: int, userId: int,
                            first: ProfileRequest, second: ProfileRequest)
    ensures var once := Upserted(profiles, nextProfileId, userId, first);
            var twice := Upserted(once.0, once.1, userId, second);
            Holds(twice.0[userId], second) && twice.0[userId].id == once.0[userId].id
  {
  }

  /** An upsert keeps profiles keyed by their owner, with distinct keys below the next key. */
  lemma UpsertKeepsProfilesValid(profiles: map<int, BusinessProfile>, nextProfileId: int, userId: int, req: ProfileRequest)
    requires ProfilesValid(profiles, nextProfileId)
    ensures var r := Upserted(profiles, nextProfileId, userId, req); ProfilesValid(r.0, r.1)
  {
    var r := Upserted(profiles, nextProfileId, userId, req);
    forall u, v | u in r.0 && v in r.0 && u != v
      ensures r.0[u].id != r.0[v].id
    {
      if u != userId && v != userId {
        assert r.0[u].id == profiles[u].id && r.0[v].id == profiles[v].id;
      }
    }
  }

  /**
   * POST /profile/: update the caller's profile in place (200) or insert a
   * new one (201). The new table is `Upserted` of the old one.
   */
  method PostProfile(db: Database, userId: int, req: ProfileRequest) returns (status: int, profile: BusinessProfile)
    requires db.Valid()
    modifies db
    ensures db.Valid()
    ensures (db.profiles, db.nextProfileId) == Upserted(old(db.profiles), old(db.nextProfileId), userId, req)
    ensures status == (if userId in old(db.profiles) then 200 else 201)
    ensures userId in db.profiles && profile == db.profiles[userId]
    ensures db.users == old(db.users) && db.nextUserId == old(db.nextUserId)
    ensures db.sessions == old(db.sessions) && db.nextSessionId == old(db.nextSessionId)
    ensures db.nextMessageId == old(db.nextMessageId)
  {
    UpsertKeepsProfilesValid(db.profiles, db.nextProfileId, userId, req);
    if userId in db.profiles {
      profile := db.profiles[userId];
      profile := profile.(industry := req.industry, companySize := req.companySize, goals := req.goals);
      db.profiles := db.profiles[userId := profile];
      status := 200;
    } else {
      profile := BusinessProfile(db.nextProfileId, userId, req.industry, req.companySize, req.goals);
      db.profiles := db.profiles[userId := profile];
      db.nextProfileId := db.nextProfileId + 1;
      status := 201;
    }
  }

  /** No linked Telegram id appears on two user rows. */
  lemma TelegramHolderUnique(users: seq<User>, nextUserId: int, telegramId: string, i: nat, j: nat)
    requires UsersValid(users, nextUserId)
    requires i < |users| && j < |users|
    requires users[i].telegramId == Some(telegramId) && users[j].telegramId == Some(telegramId)
    ensures i == j
  {
  }

  /** Recording a Telegram id on the one row that may hold it keeps the user table valid. */
  lemma LinkKeepsUsersValid(users: seq<User>, nextUserId: int, me: nat, telegramId: string)
    requires UsersValid(users, nextUserId) && me < |users|
    requires forall k :: 0 <= k < |users| && users[k].telegramId == Some(telegramId) ==> k == me
    ensures UsersValid(users[me := users[me].(telegramId := Some(telegramId))], nextUserId)
  {
    var linked := users[me := users[me].(telegramId := Some(telegramId))];
    assert forall k :: 0 <= k < |users| && k != me ==> linked[k] == users[k];
  }

  /**
   * POST /profile/link_telegram. 404 when the caller's row is gone; 409 when
   * the id is already linked to another user; otherwise the caller's row
   * records the id (relinking one's own id is allowed). Errors change nothing,
   * and no two users ever share a Telegram id.
   */
  method LinkTelegram(db: Database, userId: int, telegramId: string) returns (r: Result<()>)
    requires db.Valid()
    modifies db
    ensures db.Valid()
    ensures r.Err? ==> r.code == 404 || r.code == 409
    ensures r == Err(404) <==> forall k :: 0 <= k < |old(db.users)| ==> old(db.users)[k].id != userId
    ensures r == Err(409) <==>
      && (exists k :: 0 <= k < |old(db.users)| && old(db.users)[k].id == userId)
      && (exists k :: 0 <= k < |old(db.users)| && old(db.users)[k].telegramId == Some(telegramId)
                      && old(db.users)[k].id != userId)
    ensures r.Err? ==> db.users == old(db.users)
    ensures r.Ok? ==> exists k :: 0 <= k < |old(db.users)| && old(db.users)[k].id == userId
                                && db.users == old(db.users)[k := old(db.users)[k].(telegramId := Some(telegramId))]
    ensures db.nextUserId == old(db.nextUserId)
    ensures db.profiles == old(db.profiles) && db.nextProfileId == old(db.nextProfileId)
    ensures db.sessions == old(db.sessions) && db.nextSessionId == old(db.nextSessionId)
    ensures db.nextMessageId == old(db.nextMessageId)
  {
    var found := First(db.users, WithId(userId));
    if found.None? {
      assert forall k :: 0 <= k < |db.users| ==> !WithId(userId)(db.users[k]);
      return Err(404);
    }
    var me := found.value;
    assert WithId(userId)(db.users[me]);
    var holder := First(db.users, WithTelegram(telegramId));
    if holder.Some? {
      assert WithTelegram(telegramId)(db.users[holder.value]);
    } else {
      assert forall k :: 0 <= k < |db.users| ==> !WithTelegram(telegramId)(db.users[k]);
    }
    if holder.Some? && db.users[holder.value].id != userId {
      return Err(409);
    }
    forall k | 0 <= k < |db.users| && db.users[k].telegramId == Some(telegramId)
      ensures k == me
    {
      TelegramHolderUnique(db.users, db.nextUserId, telegramId, k, holder.value);
    }
    LinkKeepsUsersValid(db.users, db.nextUserId, me, telegramId);
    db.users := db.users[me := db.users[me].(telegramId := Some(telegramId))];
    r := Ok(());
  }
}
