# AlphaAssistant core, modelled in Dafny

AlphaAssistant is a small-business assistant. It has three parts:

- A Flask back end. It handles registration and login, keeps a business profile per user, links a user to a Telegram account and stores chat sessions. Each chat message it receives is forwarded, with the recent history and a system prompt, to the GigaChat language model.
- A GigaChat client. It exchanges the configured credential for an OAuth token, then posts one completion request per chat turn.
- A Telegram relay bot. It keeps an in-memory table from Telegram user to back-end access token and current chat session.

This project models each part in Dafny and proves what the code promises:

- The relational store (users, business profiles, chat sessions and their messages) is one `Store.Database` object. Its `Valid()` invariant states the primary keys (distinct, and below the next autoincrement value) and the unique `email`, `telegram_id` and profile `user_id` columns. Message keys are distinct across all sessions. Every state-changing handler keeps that invariant.
- `Auth`, `Profile` and `Chat` are the endpoint handlers. Each takes the authenticated caller's id and the request fields. Each returns the HTTP status with the response body where the source has one, and updates the database as the source does. Python's uncaught `KeyError` in the token step is modelled: it turns `send_message` into a 500 with nothing committed.
- `LlmClients` holds the token step and the response step of the GigaChat client. The outcome of every HTTP call is a parameter: a reply, a request exception, or a reply that lacks a key. The model computes what is sent and what is returned.
- `Text` holds the Python string operations the core depends on, with their laws. These are quote stripping, splitting on and joining by newlines, finding the `": "` separator, and lower-casing.
- `Bot.Relay` is the relay's `user_sessions` table as a class. Its handlers take the outcomes of the back-end calls as parameters.

The central result is the round trip of the chat history. `chat.py` renders the recent messages as `role: content` lines joined by newlines, and the client splits that text back into messages. `Chat.HistoryRoundTrip` proves that every (role, content) pair comes back, in order. This holds for roles that are lower case and contain neither `": "` nor a newline, and for contents without a newline, even when a content holds `": "`.

Three behaviours of the code are easy to get wrong:

- A `session_id` naming a missing session gives 403 from `send_message`, the same as another user's session. A `session_id` too large for a 64-bit SQLite integer makes the lookup raise, which gives 500; the store is SQLite by default.
- A user message without a newline reaches the model twice. The history window is read after the message was recorded, so it ends with that message, and the message is also sent as the final user turn. `Chat.UserMessageSentTwice` states this. A message holding a newline is rendered as several history lines. Its first line comes back from the history as a user message, a later line comes back only when it holds `": "` (under whatever text precedes that separator, lowered, as the role), and the full message follows as the final user turn.
- A content holding `": "` does not make the history ambiguous, because the client splits on the first separator only. The round trip fails only for a role that holds `": "` or a newline, for a role that `lower()` changes (such as `User`), or for a content that holds a newline. The roles the code stores, `user` and `assistant`, are lower case and free of both.

## Model

| member | source | states |
|---|---|---|
| `Store.First` | app/api/auth.py:44 | `filter_by(...).first()`: the index found is the first matching row in table order; none when no row matches |
| `Store.FirstAppend` | app/api/auth.py:44-50 | a row appended to a table with no match is the one `first()` finds |
| `Store.EmailMatchesOne` | app/models.py:10 | in a valid user table, the row holding an email is the one a lookup by that email finds |
| `Store.Database.constructor` | app/models.py:8-68 | an empty store with every autoincrement key at 1 satisfies the table invariants |
| `Auth.Register` | app/api/auth.py:44-52 | 409 exactly when the email is taken, and then nothing changes; otherwise 201 and exactly one user with that email and hash is appended; email uniqueness is preserved; other tables are untouched |
| `Auth.AppendKeepsUsersValid` | app/models.py:9-12 | a new user row with a fresh email, the next key and no Telegram id keeps keys and emails unique |
| `Auth.Login` | app/api/auth.py:62-68 | a token is issued only for a user with that email whose hash verifies the password, and it carries that user's id; an unknown email or failing password gives 401 |
| `Auth.LoginExactly` | app/api/auth.py:62-66 | with unique emails, login succeeds if and only if the row with that email verifies the password |
| `Auth.LoginAfterRegister` | app/api/auth.py:47-52 | if the library verifies a password against its own hash, logging in right after registering succeeds with the new user's id |
| `Auth.Me` | app/api/auth.py:77-79 | the user whose id the token carries, or nothing when no row has that id; reads only |
| `Profile.GetProfile` | app/api/profile.py:39-44 | 404 exactly when the caller has no profile; otherwise the caller's own profile; reads only |
| `Profile.Upserted` | app/api/profile.py:58-77 | after a POST the caller has exactly one profile holding the request; an existing row keeps its key, a new one takes the next; other users' profiles are unchanged |
| `Profile.UpsertIdempotent` | app/api/profile.py:58-77 | repeating the same POST leaves the table and key counter as they were |
| `Profile.UpsertLastWriteWins` | app/api/profile.py:60-66 | of two POSTs by one user the second wins, on the same row |
| `Profile.UpsertKeepsProfilesValid` | app/models.py:30-39 | an upsert keeps profiles keyed by their owner, with distinct primary keys below the next key |
| `Profile.PostProfile` | app/api/profile.py:58-77 | the new profile table is `Upserted` of the old one; 200 when a profile existed, 201 otherwise; the other tables are unchanged |
| `Profile.TelegramHolderUnique` | app/models.py:12 | in a valid user table no Telegram id is held by two rows |
| `Profile.LinkKeepsUsersValid` | app/api/profile.py:100-104 | recording a Telegram id on the only row that may hold it keeps the Telegram column unique |
| `Profile.LinkTelegram` | app/api/profile.py:91-106 | 404 exactly when the caller's row is missing; 409 exactly when another user holds the id; errors change nothing; otherwise only the caller's row records the id; Telegram ids stay unique |
| `Text.TrimLeadingQuotes` | app/services/llm_clients.py:11 | the left half of `strip("\"'")`: only quotes are removed, and the rest starts with no quote |
| `Text.TrimTrailingQuotes` | app/services/llm_clients.py:11 | the right half of `strip("\"'")`: only quotes are removed, and the rest ends with no quote |
| `Text.StripQuotes` | app/services/llm_clients.py:11 | the result is a contiguous piece of the input with only quotes cut off both ends, and it neither starts nor ends with a quote |
| `Text.StripQuotesIdempotent` | app/services/llm_clients.py:11 | stripping twice is stripping once |
| `Text.StripQuotesEmpty` | app/services/llm_clients.py:10-13 | stripping leaves nothing exactly when the credential is quotes only |
| `Text.StripQuotesUnquoted` | bot.py:22-23 | a value that neither starts nor ends with a quote passes unchanged |
| `Text.Lines` | app/services/llm_clients.py:59 | `split("\n")` gives at least one piece and no piece holds a newline |
| `Text.LinesAround` | app/services/llm_clients.py:59 | splitting at a newline splits both sides independently |
| `Text.LinesSingle` | app/services/llm_clients.py:59 | a text without a newline is one line |
| `Text.Join` | app/api/chat.py:87 | `"\n".join`: the pieces in order, separated by single newlines |
| `Text.JoinEnds` | app/api/chat.py:87 | `"\n".join`: no pieces give the empty text; the text starts with the first piece and ends with the last; two or more pieces put a newline in it |
| `Text.LinesOfJoin` | app/api/chat.py:87 | splitting the newline join of newline-free pieces gives exactly the pieces back |
| `Text.LinesOfJoinLast` | app/api/chat.py:87 | the last line of a join is its last piece, when that piece holds no newline |
| `Text.FindSep` | app/services/llm_clients.py:60-61 | the position found is the first occurrence of `": "`; none when there is none |
| `Text.FindSepIsSome` | app/services/llm_clients.py:60 | a separator is found exactly when `": " in line` holds |
| `Text.FindSepAfterHead` | app/services/llm_clients.py:61 | in `head: tail` with a separator-free head, the split is right after the head, whatever the tail holds |
| `Text.LowerChar` | app/services/llm_clients.py:62 | one character of the modelled `lower()`: the result is never an upper-case letter, an upper-case letter always changes, and any other character is kept |
| `Text.Lower` | app/services/llm_clients.py:62 | the modelled lower-casing keeps the length of the role |
| `Text.LowerFacts` | app/services/llm_clients.py:62 | under the modelled mapping, a lowered role holds no upper-case letter, keeps every other character in place, and is left unchanged by lowering again |
| `LlmClients.GetToken` | app/services/llm_clients.py:7-42 | no request is sent exactly when the credential is absent or quotes only, and then the configuration error comes back; otherwise the stripped credential is sent; a failed request gives the authentication error, a grant its `access_token`, and a grant without it raises `KeyError`; a returned pair has exactly one component |
| `LlmClients.ParseLine` | app/services/llm_clients.py:60-62 | one line gives at most one message |
| `LlmClients.ParseLineSplits` | app/services/llm_clients.py:60-62 | a line yields one message exactly when it holds `": "`; that message's role is the lowered text before the first separator and its content all the rest |
| `LlmClients.ParseLinesConcat` | app/services/llm_clients.py:59-62 | parsed messages keep the line order |
| `LlmClients.ParseLines` | app/services/llm_clients.py:59-62 | the loop over the lines gives at most one message per line |
| `LlmClients.ParseLinesAllSeparated` | app/services/llm_clients.py:59-62 | when every line holds `": "`, every line gives a message |
| `LlmClients.RequestMessages` | app/services/llm_clients.py:58-63 | the message list: the system message, the parsed history lines in order, then the user message |
| `LlmClients.RequestMessagesShape` | app/services/llm_clients.py:58-63 | the list starts with the system message, ends with the user message and has at most two entries more than there are lines |
| `LlmClients.BuildMessages` | app/services/llm_clients.py:58-63 | the loop builds exactly the system message, the parsed history lines in order, then the user message |
| `LlmClients.Reply` | app/services/llm_clients.py:47-85 | a token error comes back unchanged, a request failure and a missing content give the two fallback texts, a content comes back as is, and a token `KeyError` propagates |
| `LlmClients.StartsWith` | app/api/chat.py:97 | `str.startswith`: the prefix is the text's first characters |
| `LlmClients.FailureTexts` | app/services/llm_clients.py:79-85 | every completion failure gives one of the two fallback texts, which start with the error marker; the token error texts do not start with it |
| `LlmClients.GetResponse` | app/services/llm_clients.py:45-85 | the completion request is sent exactly when the token step returned a token, and it carries that token and the built message list; the reply is `Reply` |
| `Chat.SystemText` | app/api/chat.py:80-85 | with no profile the prompt is the base persona; with one it is the persona followed by a clause naming industry, company size and goals in that order |
| `Chat.Line` | app/api/chat.py:87 | `f"{msg.role}: {msg.content}"`: the role, then `": "`, then the content, and nothing else; newline-free when both parts are |
| `Chat.RenderLines` | app/api/chat.py:87 | one line per message, and no line holds a newline when no role or content does |
| `Chat.RenderHistory` | app/api/chat.py:87 | `"\n".join` of the rendered lines, ordered oldest first |
| `Chat.RenderHistoryEnds` | app/api/chat.py:87 | the history text is empty for no messages, starts with the oldest message's line, ends with the newest one's, and holds a newline for two or more messages |
| `Chat.ParseOneLine` | app/api/chat.py:87 | for a lower-case role with no `": "`, one rendered line parses back to its role and content, even when the content holds `": "` |
| `Chat.ParseRenderedLines` | app/api/chat.py:87 | parsing the rendered lines of flattenable messages gives their (role, content) pairs in order |
| `Chat.HistoryRoundTrip` | app/api/chat.py:87 | splitting and parsing the rendered history of flattenable messages (lower-case roles free of `": "` and newlines, contents free of newlines) gives back every (role, content) pair, in order |
| `Chat.RenderedLastLine` | app/api/chat.py:87 | the last line of the rendered history is the newest message's line, when the newest message holds no newline |
| `Chat.ParseLastLine` | app/services/llm_clients.py:59-62 | a last line rendered from a message with a flattenable role parses back to that message last |
| `Chat.LastLineRepeated` | app/services/llm_clients.py:58-63 | when the history's last line is the user's message, the list's last two entries are both that message |
| `Chat.UserMessageSentTwice` | app/api/chat.py:72-94 | when the window ends with the user message and that message holds no newline, the model's list ends with that message twice |
| `Chat.NewestFirst` | app/api/chat.py:77 | the query yields the newest `limit` messages, newest first |
| `Chat.ReverseRows` | app/api/chat.py:78 | `reverse()` in place: position k now holds what position n-1-k held |
| `Chat.Recent` | app/api/chat.py:77-78 | the window is the last `min(10, n)` messages of the transcript, in order, ending with the newest |
| `Chat.ReadWindow` | app/api/chat.py:77-78 | the window is the last `min(10, n)` messages in chronological order, a suffix of the transcript, ending with the newest |
| `Chat.Truthy` | app/api/chat.py:62 | `if session_id:`: a session id is truthy when present and non-zero |
| `Chat.ProfileOf` | app/api/chat.py:76 | the caller's profile exactly when one exists |
| `Chat.BuildPrompt` | app/api/chat.py:76-87 | the provider gets the system text for the caller's profile, the rendered window of the recorded transcript and the message |
| `Chat.Consult` | app/api/chat.py:76-94 | the prompt as `BuildPrompt` builds it, and the reply `Reply` gives for the provider's outcomes |
| `Store.TranscriptExtend` | app/api/chat.py:72-106 | appending the user and assistant messages with the next two keys keeps the transcript's keys increasing and below the next key |
| `Store.SessionsExtend` | app/api/chat.py:67-106 | appending the user and assistant messages with the next two keys to an existing session, or to a new one taking the next session key, keeps session keys bounded, every transcript ordered, and message keys distinct across sessions |
| `Store.FreshKeysDisjoint` | app/api/chat.py:72-103 | the two new message keys and the grown transcript share no key with any other session |
| `Store.BindsAsSqliteInteger` | app/api/chat.py:63 | an id binds as an SQLite integer parameter exactly when it lies in the signed 64-bit range; a wider one makes the lookup raise |
| `Chat.Commit` | app/api/chat.py:106 | the one commit writes the extended session and uses up two message keys and, for a new session, one session key; the invariants hold |
| `Chat.Record` | app/api/chat.py:102-109 | a token `KeyError` gives 500 and writes nothing; otherwise the user and assistant messages are appended to the session, the keys advance, and the reply carries the session id and the assistant message |
| `Chat.SendMessage` | app/api/chat.py:51-109 | 403 exactly when a truthy `session_id` is missing or another user's, and 500 when it does not fit a 64-bit SQLite integer, with nothing written or sent in both cases; otherwise the provider gets the system prompt, the rendered window (read after the user message) and the message; a token `KeyError` gives 500 with nothing committed; otherwise exactly the user message and then the assistant message (error text included) are appended, to a new session when none was named, and the reply carries that session's id |
| `Chat.RecentIsWindow` | app/api/chat.py:73-78 | the window has 1 to 10 messages, is a suffix of the transcript, and ends with the new user message |
| `Chat.SessionHistory` | app/api/chat.py:123-128 | 500 exactly for an id that does not fit a 64-bit SQLite integer, 404 exactly for a missing session, 403 exactly for another user's, and otherwise the stored session unchanged; reads only |
| `Bot.ConfiguredToken` | bot.py:20-23 | a set, non-empty token is cut down to a piece of itself with only quotes removed from both ends; an absent or empty one is kept |
| `Bot.Payload` | bot.py:127-134 | the body always holds the text and `model = "gigachat"`, and holds `session_id` exactly when the entry has one |
| `Bot.Relay.constructor` | bot.py:29 | the table starts empty |
| `Bot.Relay.Login` | bot.py:77-97 | a wrong argument count, a missing token or a failed link leave the table as it was; otherwise the entry becomes the new token with no session, replacing any earlier one |
| `Bot.Relay.NewChat` | bot.py:101-106 | a logged-in user's session id is reset and the token kept; without an entry the table is unchanged |
| `Bot.IsHttpError` | bot.py:145 | `raise_for_status()` raises for a 4xx or 5xx status |
| `Bot.Relay.HandleMessage` | bot.py:110-158 | without an entry nothing is sent and the table is unchanged; otherwise the payload is sent; a 401 evicts the entry, any other request failure or a reply lacking its fields leaves the table, and a good reply records the returned session id and keeps the token |
| `Bot.NewChatThenMessage` | bot.py:102-134 | after `/new` the next message is sent without a `session_id` |

## Left out

- HTTP, JSON and Telegram transport are left out: routing, JWT checking (the caller's id is a parameter), request validation, marshalling and `requests.post`. Every HTTP call's outcome is a parameter: a reply, a request exception, or a reply lacking a key.
- `Bot.Relay.HandleMessage`, `Bot.Relay.Login`: every message the relay sends to Telegram is assumed to be delivered. A Telegram send that fails raises `TelegramError`, which is not a `RequestException` and is not caught, so the handler stops there. The model does not capture this. A failed typing notice (`bot.py:118`) would mean no payload is posted, and a failed "checking" message (`bot.py:82`) would stop `/login` before the back-end call. A failed expiry notice (`bot.py:141`) would keep the entry that a 401 otherwise evicts.
- Password hashing and JWT creation are left out, because they are foreign library calls. A hash is an opaque string given to `Auth.Register`, verification is a function parameter, and a token is the identity it carries.
- The `uuid4` request id, `verify=False`, timeouts, `max_tokens`, the model name and the `temperature` float are not modelled. They are constants or randomness that no property depends on.
- The GigaChat client's `print` or `logging` and the logging under the error-marker check at `app/api/chat.py:97-99` are not modelled, because they only log. The marker test itself is `LlmClients.StartsWith`, and `LlmClients.FailureTexts` states which replies it matches.
- Timestamps are not modelled. Message order is insertion order, and a message's id stands for its timestamp, because `utcnow` can tie.
- The completion step's `IndexError` or `TypeError` on malformed JSON (for example an empty `choices` list) is not modelled. The client does not catch these errors, and the model only has the `KeyError` and request-failure outcomes that the client handles.
- `Text.LowerChar`, `Text.Lower`, `Text.LowerFacts`: lower-casing of roles covers ASCII A-Z, Cyrillic А-Я and Ё only. The full Unicode case mapping of Python's `str.lower()` is not modelled: other cased letters such as `Ä` or `Є` stay as they are, and the mappings that lengthen a character (`İ` becomes two code points) are missing. `Text.IsLower`, and with it `Chat.Flattenable` and `Chat.HistoryRoundTrip`, use the modelled mapping, so a role such as `Ä` counts as lower case in the model although Python would change it.
- The relay's deletion of the password message, its typing notice, its "checking" message and the exact user-facing texts are left out. Its replies are the `Bot.Notice` values.
- `Bot.Relay.HandleMessage`: a reply that is not JSON at all is treated like one lacking the fields. Either way the handler does not update the table.
- `Profile.LinkTelegram`: the Telegram id is modelled as the string that `str()` gives for it. The endpoint declares a string field but does not validate the request (`app/api/profile.py:82-84` has no `validate=True`), and the lookup at `app/api/profile.py:100` uses the raw JSON value while only the store at line 104 applies `str()`. A JSON number behaves as its decimal string, so it is covered. A `null` makes the lookup match the first user with no Telegram link, giving 409 when that is another user and otherwise storing the text `None`. A `true` or `false` looks up `1` or `0` but stores `True` or `False`. The model does not capture these two cases. The relay, the only caller in the repository, always sends `str(...)` (`bot.py:47`).
- `Chat.SendMessage` takes `session_id` as an integer. A non-integer value is refused by request validation, which is not modelled.
- `start_all.py` (process launch and signal handling), `app/web/routes.py` (server-side web forms), `app/static/js/chat.js` (the browser UI), `config.py`, `run.py` and the application factory are not part of this model.
- Commit durability and concurrent requests are left out. The commit is one atomic update of the database object.
