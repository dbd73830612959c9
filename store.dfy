/**
 * The four tables of the relational store (users, business profiles, chat
 * sessions, messages) as one database object, and the table invariants the
 * unique columns and primary keys impose. Every handler of the core reads
 * and writes this one object.
 */
module Store {
  import opened Wrappers

  /** A row of the user table. `passwordHash` is whatever the hashing library produced. */
  datatype User = User(id: int, email: string, passwordHash: string, telegramId: Option<string>)

  /** A business profile row; at most one per user (unique `user_id`). */
  datatype BusinessProfile = BusinessProfile(id: int, userId: int, industry: string, companySize: string, goals: string)

  /**
   * A stored message. Messages of a session are kept in insertion order;
   * `id` is the autoincrement key, which also stands for the timestamp order.
   */
  datatype Message = Message(id: int, role: string, content: string)

  /** A chat session row together with its messages in insertion order. */
  datatype ChatSession = ChatSession(userId: int, messages: seq<Message>)

  /**
   * A Python integer binds to an SQLite INTEGER parameter only when it fits in
   * 64 signed bits; binding a larger one raises `OverflowError`.
   */
  predicate BindsAsSqliteInteger(x: int)
  {
    -0x8000_0000_0000_0000 <= x < 0x8000_0000_0000_0000
  }

  /** `Model.query.filter_by(...).first()`: the first row, in table order, that matches. */
  function First<T>(rows: seq<T>, matches: T -> bool): (r: Option<nat>)
    ensures r.Some? ==> r.value < |rows| && matches(rows[r.value])
    ensures r.Some? ==> forall k :: 0 <= k < r.value ==> !matches(rows[k])
    ensures r.None? ==> forall k :: 0 <= k < |rows| ==> !matches(rows[k])
  {
    if |rows| == 0 then
      None
    else if matches(rows[0]) then
      Some(0)
    else
      match First(rows[1..], matches)
      case None => None
      case Some(i) => Some(i + 1)
  }

  /** A row appended after every row is found only when no earlier row matches. */
  lemma {:induction false} FirstAppend<T>(rows: seq<T>, row: T, matches: T -> bool)
    requires First(rows, matches).None? && matches(row)
    ensures First(rows + [row], matches) == Some(|rows|)
  {
    if |rows| > 0 {
      assert (rows + [row])[1..] == rows[1..] + [row];
      FirstAppend(rows[1..], row, matches);
    }
  }

  function WithEmail(email: string): (matches: User -> bool)
  {
    (u: User) => u.email == email
  }

  function WithId(id: int): (matches: User -> bool)
  {
    (u: User) => u.id == id
  }

  function WithTelegram(telegramId: string): (matches: User -> bool)
  {
    (u: User) => u.telegramId == Some(telegramId)
  }

  /** Primary keys and the unique `email` and `telegram_id` columns of the user table. */
  ghost predicate UsersValid(users: seq<User>, nextUserId: int)
  {
    && 1 <= nextUserId
    && (forall k :: 0 <= k < |users| ==> 1 <= users[k].id < nextUserId)
    && (forall i, j :: 0 <= i < j < |users| ==> users[i].id != users[j].id)
    && (forall i, j :: 0 <= i < j < |users| ==> users[i].email != users[j].email)
    && (forall i, j :: 0 <= i < j < |users| && users[i].telegramId.Some? ==> users[i].telegramId != users[j].telegramId)
  }

  /** Message keys are below the next key and grow along a transcript. */
  ghost predicate TranscriptValid(messages: seq<Message>, nextMessageId: int)
  {
    && (forall k :: 0 <= k < |messages| ==> 1 <= messages[k].id < nextMessageId)
    && (forall i, j :: 0 <= i < j < |messages| ==> messages[i].id < messages[j].id)
  }

  /** Appending two messages with the next two keys keeps a transcript valid. */
  lemma TranscriptExtend(messages: seq<Message>, nextMessageId: int, first: Message, second: Message)
    requires TranscriptValid(messages, nextMessageId) && 1 <= nextMessageId
    requires first.id == nextMessageId && second.id == nextMessageId + 1
    ensures TranscriptValid(messages + [first, second], nextMessageId + 2)
  {
    var t := messages + [first, second];
    assert forall k :: 0 <= k < |messages| ==> t[k] == messages[k];
  }

  /** Profiles are keyed by their owner, and their primary keys are distinct and below the next key. */
  ghost predicate ProfilesValid(profiles: map<int, BusinessProfile>, nextProfileId: int)
  {
    && 1 <= nextProfileId
    && (forall u :: u in profiles ==> profiles[u].userId == u && 1 <= profiles[u].id < nextProfileId)
    && (forall u, v :: u in profiles && v in profiles && u != v ==> profiles[u].id != profiles[v].id)
  }

  /** No message key of one transcript occurs in the other. */
  ghost predicate KeysDisjoint(a: seq<Message>, b: seq<Message>)
  {
    forall i, j :: 0 <= i < |a| && 0 <= j < |b| ==> a[i].id != b[j].id
  }

  /**
   * Session keys are below the next key, every transcript is valid, and no
   * message key is shared by two sessions (the message table's primary key).
   */
  ghost predicate SessionsValid(sessions: map<int, ChatSession>, nextSessionId: int, nextMessageId: int)
  {
    && 1 <= nextSessionId && 1 <= nextMessageId
    && (forall s :: s in sessions ==> 1 <= s < nextSessionId && TranscriptValid(sessions[s].messages, nextMessageId))
    && (forall s, t :: s in sessions && t in sessions && s != t ==> KeysDisjoint(sessions[s].messages, sessions[t].messages))
  }

  /**
   * Committing a send: the session `sid` (an existing one, or the next key with
   * an empty transcript) gains two messages with the next two message keys.
   * The session table stays valid; in particular the new keys are fresh.
   */
  lemma SessionsExtend(sessions: map<int, ChatSession>, nextSessionId: int, nextMessageId: int,
                       sid: int, userId: int, before: seq<Message>, first: Message, second: Message, created: bool)
    requires SessionsValid(sessions, nextSessionId, nextMessageId)
    requires created ==> sid == nextSessionId && before == []
    requires !created ==> sid in sessions && sessions[sid].messages == before
    requires first.id == nextMessageId && second.id == nextMessageId + 1
    ensures SessionsValid(sessions[sid := ChatSession(userId, before + [first, second])],
                          if created then nextSessionId + 1 else nextSessionId, nextMessageId + 2)
  {
    var grown := before + [first, second];
    var after := sessions[sid := ChatSession(userId, grown)];
    var nextSession := if created then nextSessionId + 1 else nextSessionId;
    if !created {
      assert TranscriptValid(sessions[sid].messages, nextMessageId);
    }
    TranscriptExtend(before, nextMessageId, first, second);
    forall s | s in after
      ensures 1 <= s < nextSession && TranscriptValid(after[s].messages, nextMessageId + 2)
    {
      if s != sid {
        assert TranscriptValid(sessions[s].messages, nextMessageId);
      }
    }
    forall s, t | s in after && t in after && s != t
      ensures KeysDisjoint(after[s].messages, after[t].messages)
    {
      if s == sid {
        FreshKeysDisjoint(sessions, nextSessionId, nextMessageId, sid, t, before, first, second, created);
      } else if t == sid {
        FreshKeysDisjoint(sessions, nextSessionId, nextMessageId, sid, s, before, first, second, created);
      } else {
        assert KeysDisjoint(sessions[s].messages, sessions[t].messages);
      }
    }
  }

  /** The grown transcript of `sid` shares no key with another session `t`, in either order. */
  lemma FreshKeysDisjoint(sessions: map<int, ChatSession>, nextSessionId: int, nextMessageId: int,
                          sid: int, t: int, before: seq<Message>, first: Message, second: Message, created: bool)
    requires SessionsValid(sessions, nextSessionId, nextMessageId)
    requires created ==> sid == nextSessionId && before == []
    requires !created ==> sid in sessions && sessions[sid].messages == before
    requires first.id == nextMessageId && second.id == nextMessageId + 1
    requires t in sessions && t != sid
    ensures KeysDisjoint(before + [first, second], sessions[t].messages)
    ensures KeysDisjoint(sessions[t].messages, before + [first, second])
  {
    var grown := before + [first, second];
    var other := sessions[t].messages;
    assert TranscriptValid(other, nextMessageId);
    if !created {
      assert KeysDisjoint(before, other) && KeysDisjoint(other, before);
    }
    assert forall i :: 0 <= i < |grown| ==> grown[i] == (if i < |before| then before[i] else [first, second][i - |before|]);
  }

  class Database {
    var users: seq<User>
    var nextUserId: int
    /** Keyed by the owning user's id, so one profile per user. */
    var profiles: map<int, BusinessProfile>
    var nextProfileId: int
    var sessions: map<int, ChatSession>
    var nextSessionId: int
    var nextMessageId: int

    ghost predicate Valid()
      reads this
    {
      && UsersValid(users, nextUserId)
      && ProfilesValid(profiles, nextProfileId)
      && SessionsValid(sessions, nextSessionId, nextMessageId)
    }

    /** An empty database; autoincrement keys start at 1. */
    constructor ()
      ensures Valid()
      ensures users == [] && profiles == map[] && sessions == map[]
      ensures nextUserId == 1 && nextProfileId == 1 && nextSessionId == 1 && nextMessageId == 1
    {
      users, profiles, sessions := [], map[], map[];
      nextUserId, nextProfileId, nextSessionId, nextMessageId := 1, 1, 1, 1;
    }
  }

  /** In a valid user table a unique column matches at most one row. */
  lemma EmailMatchesOne(users: seq<User>, nextUserId: int, email: string, k: nat)
    requires UsersValid(users, nextUserId)
    requires k < |users| && users[k].email == email
    ensures First(users, WithEmail(email)) == Some(k)
  {
    var r := First(users, WithEmail(email));
    assert WithEmail(email)(users[k]);
  }
}
