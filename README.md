# Lecture chat: the session store

A model of the session store of the Streamlit lecture-chat application (`app.py`). An
instructor opens a session; students join it under a display name and exchange messages
with the instructor. All state lives in one JSON document that maps a session id to a
session record: `id`, `created_at`, a `participants` map from name to `{joined_at}` and
a `messages` list. Every write to an existing session loads the whole document, changes
it in memory and saves it whole. `get_session` and the unknown-id paths load the
document and save nothing.

The project has five modules:

- `Ids` (`ids.dfy`): the id format `<prefix>-<unix seconds>-<six hex digits>` for
  sessions (`session-`), chat messages (`msg-`) and system notices (`sys-`). It shows
  that ids are injective in the clock reading and the random suffix, and that the three
  namespaces never overlap.
- `Sessions` (`sessions.dfy`): the records as datatypes, and the five store operations
  as pure transitions of the whole document. Their contracts state the guard ("session
  exists: change it and report success; otherwise change nothing"), the upsert by name
  and the append at the end.
- `Persistence` (`persistence.dfy`): the class `SessionStore`, whose `sessions` field
  is the file. `Load` and `Save` read and write that field. Each write loads, mutates and
  saves when the session exists; `GetSession` and the unknown-id paths only load. Each
  write's `ensures` ties the new state to its transition in `Sessions`, and
  `GetSession`'s ties its result to `Get`.
- `Flows` (`flows.dfy`): the two fixed call sequences of the user interface. The first
  is the instructor's "new session" button: create, then a "session started" notice.
  The second is the student's "leave" button: a "left" notice.
- `History` (`history.dfy`): arbitrary sequences of operations, each run as one atomic
  step. In a run without an id collision, no session's messages are shortened or
  reordered. A run of sends to one session appends exactly one message per send, in
  arrival order. Lookups with no write between them return the same record.

The clock and the random source are inputs. A `Stamp` carries the three readings an
operation takes: `int(time.time())`, `uuid.uuid4().hex` and `datetime.now().isoformat()`.
Fixing them makes every operation a function of its inputs.

Behaviour of `app.py` worth knowing:

- `create_session` does not fail on an id that is already present. It replaces that
  record, discarding its messages and participants (app.py:102). `Create` models this
  replacement, and `CollidingCreateDropsMessages` shows what is lost. The "messages only
  grow" property (`ApplyGrows`, `RunGrows`) is therefore stated for runs without such a
  collision.
- Starting a session in this entry point appends a "session started" notice
  (app.py:251). `Start` models that.
- Leaving appends a notice but does not remove the participant's record, so the
  participant count does not drop (`Leave`).
- `add_system_message` returns nothing; on an unknown id it does nothing.

## Model

| member | source | states |
|---|---|---|
| `Ids.Decimal` | app.py:100 | the rendering of `int(time.time())` in an id is a non-empty string of decimal digits with no leading zero |
| `Ids.ParseDecimalOfDecimal` | app.py:100 | reading the decimal rendering back gives the original number |
| `Ids.DecimalInjective` | app.py:100 | different clock readings give different renderings |
| `Ids.Hex6` | app.py:100 | `hex[:6]` is a prefix of the uuid hex, six characters long, or all of it when shorter |
| `Ids.NewId` | app.py:100 | an id starts with its prefix and a dash and ends with the six-digit suffix; its length is fixed by its parts |
| `Ids.NewIdInjective` | app.py:100 | under one prefix, two ids are equal exactly when the seconds and the first six hex digits are equal |
| `Ids.NamespacesDisjoint` | app.py:100 | session, chat-message and system-message ids never coincide |
| `Sessions.ChatMessage` | app.py:115-121 | a chat message carries the given username, text and type, the `msg-` id prefix and the timestamp |
| `Sessions.SystemMessage` | app.py:144-149 | a system notice has type `system`, the given text, the `sys-` id prefix and the timestamp |
| `Sessions.JoinNotice` | app.py:136 | the join text is the username followed by `님이 입장했습니다` |
| `Sessions.Create` | app.py:98-109 | afterwards the new id maps to a record with that id, the creation time, no messages and no participants; every other session is unchanged |
| `Sessions.AddMessage` | app.py:111-125 | for an existing session, messages become the old messages plus exactly one chat message with the given fields; participants, id, creation time and all other sessions are unchanged; for an unknown id the store is unchanged |
| `Sessions.AddSystemMessage` | app.py:140-151 | for an existing session, messages become the old messages plus one `system` notice with the text; for an unknown id the store is unchanged |
| `Sessions.Upsert` | app.py:129-134 | the participant entry under the name is set, replacing any earlier one; for an unknown id nothing changes |
| `Sessions.AddParticipant` | app.py:127-138 | for an existing session, participants become the old map with the name set to the new join record; the participant count grows by one only for a new name; messages gain one trailing join notice; for an unknown id the store is unchanged |
| `Sessions.ParticipantCount` | app.py:131-133 | setting a name in the participants map adds one to its size only if the name was absent |
| `Sessions.RejoinKeepsCount` | app.py:127-138 | joining twice under one name keeps the count the sidebar shows (app.py:260), keeps the latest join record and announces both joins |
| `Sessions.Get` | app.py:153-156 | the lookup yields None exactly for a missing id and the stored record otherwise |
| `Persistence.SessionStore.constructor` | app.py:87-90 | the store starts as the empty document |
| `Persistence.SessionStore.Load` | app.py:84-90 | loading yields the whole current document |
| `Persistence.SessionStore.Save` | app.py:92-96 | saving replaces the whole document |
| `Persistence.SessionStore.CreateSession` | app.py:98-109 | returns the `session-` id built from the stamp; the new state is `Create` of the old |
| `Persistence.SessionStore.AddMessage` | app.py:111-125 | returns true exactly when the session existed; the new state is `AddMessage` of the old |
| `Persistence.SessionStore.AddParticipant` | app.py:127-138 | returns true exactly when the session existed; after its two save cycles the state is `AddParticipant` of the old |
| `Persistence.SessionStore.AddSystemMessage` | app.py:140-151 | the new state is `AddSystemMessage` of the old |
| `Persistence.SessionStore.GetSession` | app.py:153-156 | returns the stored record or None; it has no `modifies`, so it changes nothing and two calls with no write between them return the same result |
| `Flows.LeaveNotice` | app.py:401-404 | the leave text is the username followed by `님이 퇴장했습니다` |
| `Flows.Start` | app.py:247-252 | after the start flow the new session's only message is the "session started" notice, with no participants; other sessions are untouched |
| `Flows.Leave` | app.py:400-404 | for an existing session, the leave notice is appended and the participants stay as they were; for an unknown id nothing changes |
| `Flows.InstructorStart` | app.py:247-252 | returns the new id; the new state is `Start` of the old |
| `Flows.StudentLeave` | app.py:400-404 | the new state is `Leave` of the old |
| `History.ApplyGrows` | app.py:122 | an operation that is not a colliding create keeps every session and extends its messages at the end |
| `History.CollidingCreateDropsMessages` | app.py:102 | a create under an id in use replaces a non-empty message list with an empty one |
| `History.RunGrows` | app.py:150 | after any run without id collisions, each session's old message list is a prefix of its new one |
| `History.LookupsAgree` | app.py:153-156 | in a run of lookups with no write among them, each returns `Get` of the starting document, two lookups of one id return the same record, and the document is unchanged |
| `History.ChatsOnePerPost` | app.py:111-125 | a run of sends builds exactly one chat message per call, in call order |
| `History.PostsAppendAll` | app.py:111-125 | sends to an existing session leave its messages as before followed by one message per send in arrival order, and leave its participants unchanged |
| `History.PostsTouchOnlyTheirSession` | app.py:111-125 | sends to one session leave all other sessions unchanged; sends to an unknown id change nothing |
| `History.LectureOrder` | app.py:111-151 | create, instructor "Hello", Bob joins, Bob "Hi!" leaves the messages in exactly that order with Bob as the only participant |

The methods `Flows.Lecture` and `Flows.Departure` carry no contract of their own. They
are usage checks: they show that the contracts of the store's methods alone fix a whole
conversation, that a leave keeps the participant map, and that a send to an unknown id
is refused.

## Left out

- Rendering, CSS, the mode-selection screen and `st.session_state` handling are
  presentation. Among them are the non-empty-input guards in front of `add_message` and
  `add_participant`, and the instructor's display name.
- QR-code generation (`generate_qr_code`, app.py:158-175) wraps an external library.
- JSON encoding and file I/O (app.py:84-96) are reduced to a read and a write of the
  `sessions` field. A missing file reads as the empty document.
- The clock and uuid readings are inputs (`Stamp`), not generated. The `%H:%M` display
  formatting of timestamps is not modelled.
- The polling loops (`time.sleep` then `st.rerun`) are not modelled.
- Concurrent users are not modelled: each operation is one atomic step. The lost update
  that two interleaved load-modify-save cycles can cause is outside the model. So is an
  interleaving between the two save cycles of `add_participant`.
- The remote-service variant (`app_api.py`) is not part of this model. Its store
  functions are HTTP calls to a server whose code is not available.
