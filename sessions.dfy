/** The session records kept in the sessions document, and the five store operations
    of app.py as transitions of the whole document. Each operation is one atomic step. */
module Sessions {
  import opened Ids

  datatype Option<T> = None | Some(value: T)

  /** The readings one store operation takes of the environment:
      `int(time.time())`, `uuid.uuid4().hex` and `datetime.now().isoformat()`. */
  datatype Stamp = Stamp(seconds: nat, hex: string, iso: string)

  /** A participant's join record: `{'joined_at': ...}`. */
  datatype Participant = Participant(joinedAt: string)

  /** A chat message `{id, username, message, type, timestamp}` or a system notice
      `{id, text, type: 'system', timestamp}`. */
  datatype Message =
    | Chat(id: string, username: string, message: string, userType: string, timestamp: string)
    | SystemNotice(id: string, text: string, timestamp: string)
  {
    /** The record's `type` field. */
    function Type(): string {
      match this
      case Chat(_, _, _, t, _) => t
      case SystemNotice(_, _, _) => "system"
    }
  }

  datatype Session = Session(
    id: string,
    createdAt: string,
    messages: seq<Message>,
    participants: map<string, Participant>)

  /** The whole sessions document, keyed by session id. */
  type SessionMap = map<string, Session>

  const DefaultUserType := "student"
  const JoinedSuffix := "님이 입장했습니다"

  /** Everything except session `sid` is as before. */
  ghost predicate OthersUnchanged(before: SessionMap, after: SessionMap, sid: string) {
    forall k :: k != sid ==> (k in after <==> k in before) && (k in before ==> after[k] == before[k])
  }

  function SessionId(st: Stamp): string {
    NewId(SessionPrefix, st.seconds, st.hex)
  }

  function ChatMessage(username: string, message: string, userType: string, st: Stamp): (m: Message)
    ensures m.Chat? && m.Type() == userType && ChatPrefix + "-" <= m.id
    ensures m.username == username && m.message == message && m.timestamp == st.iso
  {
    Chat(NewId(ChatPrefix, st.seconds, st.hex), username, message, userType, st.iso)
  }

  function SystemMessage(text: string, st: Stamp): (m: Message)
    ensures m.SystemNotice? && m.Type() == "system" && SystemPrefix + "-" <= m.id
    ensures m.text == text && m.timestamp == st.iso
  {
    SystemNotice(NewId(SystemPrefix, st.seconds, st.hex), text, st.iso)
  }

  function JoinNotice(username: string): (text: string)
    ensures username <= text && text[|username|..] == JoinedSuffix
  {
    username + JoinedSuffix
  }

  /** `s` with `m` appended to its messages. */
  function Append(s: Session, m: Message): (r: Session)
    ensures r.id == s.id && r.createdAt == s.createdAt && r.participants == s.participants
    ensures |r.messages| == |s.messages| + 1 && s.messages <= r.messages && r.messages[|s.messages|] == m
  {
    s.(messages := s.messages + [m])
  }

  /** create_session: `sessions[sid] = {id, created_at, messages: [], participants: {}}`.
      An existing record under the same id is replaced. */
  function Create(db: SessionMap, st: Stamp): (r: SessionMap)
    ensures SessionId(st) in r
    ensures r[SessionId(st)].id == SessionId(st) && r[SessionId(st)].createdAt == st.iso
    ensures r[SessionId(st)].messages == [] && r[SessionId(st)].participants == map[]
    ensures OthersUnchanged(db, r, SessionId(st))
  {
    var sid := SessionId(st);
    db[sid := Session(sid, st.iso, [], map[])]
  }

  /** add_message: appends a chat message when the session exists, else changes nothing. */
  function AddMessage(db: SessionMap, sid: string, username: string, message: string, userType: string, st: Stamp)
    : (r: SessionMap)
    ensures sid in db ==> sid in r && r[sid].id == db[sid].id && r[sid].createdAt == db[sid].createdAt
    ensures sid in db ==> r[sid].messages == db[sid].messages + [ChatMessage(username, message, userType, st)]
    ensures sid in db ==> r[sid].participants == db[sid].participants
    ensures sid !in db ==> r == db
    ensures OthersUnchanged(db, r, sid)
  {
    if sid in db then db[sid := Append(db[sid], ChatMessage(username, message, userType, st))] else db
  }

  /** add_system_message: appends a system notice when the session exists, else changes nothing. */
  function AddSystemMessage(db: SessionMap, sid: string, text: string, st: Stamp): (r: SessionMap)
    ensures sid in db ==> sid in r && r[sid].id == db[sid].id && r[sid].createdAt == db[sid].createdAt
    ensures sid in db ==> r[sid].messages == db[sid].messages + [SystemMessage(text, st)]
    ensures sid in db ==> r[sid].participants == db[sid].participants
    ensures sid !in db ==> r == db
    ensures OthersUnchanged(db, r, sid)
  {
    if sid in db then db[sid := Append(db[sid], SystemMessage(text, st))] else db
  }

  /** The first save of add_participant: `participants[username] = {'joined_at': ...}`. */
  function Upsert(db: SessionMap, sid: string, username: string, joinedAt: string): (r: SessionMap)
    ensures sid in db ==> sid in r && r[sid] == db[sid].(participants := db[sid].participants[username := Participant(joinedAt)])
    ensures sid !in db ==> r == db
    ensures OthersUnchanged(db, r, sid)
  {
    if sid in db then
      var s := db[sid];
      db[sid := s.(participants := s.participants[username := Participant(joinedAt)])]
    else db
  }

  /** add_participant: the upsert, then the join notice, each its own save. */
  function AddParticipant(db: SessionMap, sid: string, username: string, joinedAt: string, st: Stamp)
    : (r: SessionMap)
    ensures sid in db ==> sid in r && r[sid].id == db[sid].id && r[sid].createdAt == db[sid].createdAt
    ensures sid in db ==> r[sid].participants == db[sid].participants[username := Participant(joinedAt)]
    ensures sid in db ==> r[sid].messages == db[sid].messages + [SystemMessage(JoinNotice(username), st)]
    ensures sid in db ==> |r[sid].participants| == |db[sid].participants| + (if username in db[sid].participants then 0 else 1)
    ensures sid !in db ==> r == db
    ensures OthersUnchanged(db, r, sid)
  {
    var r := AddSystemMessage(Upsert(db, sid, username, joinedAt), sid, JoinNotice(username), st);
    if sid in db then
      ParticipantCount(db[sid].participants, username, Participant(joinedAt));
      r
    else r
  }

  /** Upserting a name counts it once: re-joining under a known name keeps the count. */
  lemma ParticipantCount(ps: map<string, Participant>, name: string, p: Participant)
    ensures |ps[name := p]| == |ps| + (if name in ps then 0 else 1)
  {
    if name in ps {
      assert ps[name := p].Keys == ps.Keys;
    } else {
      assert ps[name := p].Keys == ps.Keys + {name};
    }
  }

  /** get_session: `sessions.get(sid)`. */
  function Get(db: SessionMap, sid: string): (r: Option<Session>)
    ensures r.None? <==> sid !in db
    ensures r.Some? ==> r.value == db[sid]
  {
    if sid in db then Some(db[sid]) else None
  }

  /** `after` extends `before`: every session of `before` is still present, and its
      messages are a prefix of its messages in `after`. */
  ghost predicate Grows(before: SessionMap, after: SessionMap) {
    forall k :: k in before ==> k in after && before[k].messages <= after[k].messages
  }

  lemma GrowsTransitive(a: SessionMap, b: SessionMap, c: SessionMap)
    requires Grows(a, b) && Grows(b, c)
    ensures Grows(a, c)
  {
    forall k | k in a ensures k in c && a[k].messages <= c[k].messages {
      assert b[k].messages <= c[k].messages;
    }
  }

  /** Joining under the same name twice leaves one participant record, the latest,
      and two join notices. */
  lemma RejoinKeepsCount(db: SessionMap, sid: string, name: string, j1: string, s1: Stamp, j2: string, s2: Stamp)
    requires sid in db
    ensures var r := AddParticipant(AddParticipant(db, sid, name, j1, s1), sid, name, j2, s2);
      && |r[sid].participants| == |AddParticipant(db, sid, name, j1, s1)[sid].participants|
      && r[sid].participants[name] == Participant(j2)
      && r[sid].messages == db[sid].messages + [SystemMessage(JoinNotice(name), s1), SystemMessage(JoinNotice(name), s2)]
  {
    var r1 := AddParticipant(db, sid, name, j1, s1);
    assert name in r1[sid].participants;
  }
}
