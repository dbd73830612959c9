/**
 * Registration, login and "who am I" over the user table. Password hashing
 * and verification are foreign: registration receives the hash the hashing
 * library produced, login receives the library's verification function, and
 * an access token is modelled by the identity it carries.
 */
module Auth {
  import opened Wrappers
  import opened Store

  /** A signed access token; only the identity it carries matters here. */
  datatype AccessToken = AccessToken(identity: int)

  /** Appending a row with a fresh email, the next key and no Telegram id keeps the user table valid. */
  lemma AppendKeepsUsersValid(users: seq<User>, nextUserId: int, email: string, passwordHash: string)
    requires UsersValid(users, nextUserId)
    requires forall k :: 0 <= k < |users| ==> users[k].email != email
    ensures UsersValid(users + [User(nextUserId, email, passwordHash, None)], nextUserId + 1)
  {
    var row := User(nextUserId, email, passwordHash, None);
    var grown := users + [row];
    forall i, j | 0 <= i < j < |grown|
      ensures grown[i].id != grown[j].id && grown[i].email != grown[j].email
      ensures grown[i].telegramId.Some? ==> grown[i].telegramId != grown[j].telegramId
    {
      assert grown[i] == users[i];
      if j == |users| {
        assert grown[j] == row;
      } else {
        assert grown[j] == users[j];
      }
    }
  }

  /**
   * POST /auth/register. `passwordHash` is what `set_password` stores for the
   * submitted password. A taken email gives 409 and leaves every table as it
   * was; otherwise exactly one user row is appended and 201 is returned.
   */
  method Register(db: Database, email: string, passwordHash: string) returns (status: int)
    requires db.Valid()
    modifies db
    ensures db.Valid()
    ensures status == 409 || status == 201
    ensures status == 409 <==> exists k :: 0 <= k < |old(db.users)| && old(db.users)[k].email == email
    ensures status == 409 ==> db.users == old(db.users) && db.nextUserId == old(db.nextUserId)
    ensures status == 201 ==>
      && db.users == old(db.users) + [User(old(db.nextUserId), email, passwordHash, None)]
      && db.nextUserId == old(db.nextUserId) + 1
    ensures db.profiles == old(db.profiles) && db.nextProfileId == old(db.nextProfileId)
    ensures db.sessions == old(db.sessions) && db.nextSessionId == old(db.nextSessionId)
    ensures db.nextMessageId == old(db.nextMessageId)
  {
    var existing := First(db.users, WithEmail(email));
    if existing.Some? {
      assert WithEmail(email)(db.users[existing.value]);
      return 409;
    }
    assert forall k :: 0 <= k < |db.users| ==> !WithEmail(email)(db.users[k]);
    AppendKeepsUsersValid(db.users, db.nextUserId, email, passwordHash);
    db.users := db.users + [User(db.nextUserId, email, passwordHash, None)];
    db.nextUserId := db.nextUserId + 1;
    status := 201;
  }

  /**
   * POST /auth/login. `checkPassword(hash, password)` is the library's
   * verification. A token is issued only for an existing user whose stored
   * hash verifies the password, and it carries that user's id; an unknown
   * email or a failing password gives 401.
   */
  function Login(users: seq<User>, email: string, password: string, checkPassword: (string, string) -> bool): (r: Result<AccessToken>)
    ensures r.Err? ==> r.code == 401
    ensures r.Ok? ==> exists k :: 0 <= k < |users| && users[k].email == email
                                && checkPassword(users[k].passwordHash, password) && r.value.identity == users[k].id
    ensures (forall k :: 0 <= k < |users| && users[k].email == email ==> !checkPassword(users[k].passwordHash, password))
            ==> r.Err?
  {
    match First(users, WithEmail(email))
    case Some(k) =>
      if checkPassword(users[k].passwordHash, password) then Ok(AccessToken(users[k].id)) else Err(401)
    case None =>
      Err(401)
  }

  /** With unique emails, login succeeds exactly when the row with that email verifies the password. */
  lemma LoginExactly(users: seq<User>, nextUserId: int, email: string, password: string, checkPassword: (string, string) -> bool)
    requires UsersValid(users, nextUserId)
    ensures Login(users, email, password, checkPassword).Ok? <==>
            exists k :: 0 <= k < |users| && users[k].email == email && checkPassword(users[k].passwordHash, password)
  {
    if k :| 0 <= k < |users| && users[k].email == email && checkPassword(users[k].passwordHash, password) {
      EmailMatchesOne(users, nextUserId, email, k);
    }
  }

  /**
   * Logging in right after a successful registration succeeds and yields the
   * new user's id, provided the library verifies a password against its own hash.
   */
  lemma LoginAfterRegister(users: seq<User>, nextUserId: int, email: string, password: string,
                           passwordHash: string, checkPassword: (string, string) -> bool)
    requires forall k :: 0 <= k < |users| ==> users[k].email != email
    requires checkPassword(passwordHash, password)
    ensures Login(users + [User(nextUserId, email, passwordHash, None)], email, password, checkPassword)
            == Ok(AccessToken(nextUserId))
  {
    assert forall k :: 0 <= k < |users| ==> !WithEmail(email)(users[k]);
    FirstAppend(users, User(nextUserId, email, passwordHash, None), WithEmail(email));
  }

  /**
   * GET /auth/me: the user row whose id the token carries, or nothing when
   * that user is gone (the response is then all nulls). Only reads.
   */
  function Me(users: seq<User>, token: AccessToken): (r: Option<User>)
    ensures r.Some? ==> r.value in users && r.value.id == token.identity
    ensures r.None? ==> forall k :: 0 <= k < |users| ==> users[k].id != token.identity
  {
    match First(users, WithId(token.identity))
    case Some(k) => Some(users[k])
    case None => None
  }
}
