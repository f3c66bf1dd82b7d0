/** The two fixed call sequences of the user interface in app.py: the instructor's
    "new session" button and the student's "leave" button. */
module Flows {
  import opened Ids
  import opened Sessions
  import opened Persistence

  const StartedText := "세션이 시작되었습니다"
  const LeftSuffix := "님이 퇴장했습니다"

  function LeaveNotice(username: string): (text: string)
    ensures username <= text && text[|username|..] == LeftSuffix
  {
    username + LeftSuffix
  }

  /** create_session, then the "session started" notice on the returned id. */
  function Start(db: SessionMap, created: Stamp, notice: Stamp): (r: SessionMap)
    ensures SessionId(created) in r
    ensures r[SessionId(created)].id == SessionId(created) && r[SessionId(created)].createdAt == created.iso
    ensures r[SessionId(created)].participants == map[]
    ensures r[SessionId(created)].messages == [SystemMessage(StartedText, notice)]
    ensures OthersUnchanged(db, r, SessionId(created))
  {
    AddSystemMessage(Create(db, created), SessionId(created), StartedText, notice)
  }

  /** The "left" notice. The participant's join record stays, so the count shown
      to everyone does not drop. */
  function Leave(db: SessionMap, sid: string, username: string, st: Stamp): (r: SessionMap)
    ensures sid in db ==> sid in r && r[sid].messages == db[sid].messages + [SystemMessage(LeaveNotice(username), st)]
    ensures sid in db ==> r[sid].participants == db[sid].participants
    ensures sid in db ==> r[sid].id == db[sid].id && r[sid].createdAt == db[sid].createdAt
    ensures sid !in db ==> r == db
    ensures OthersUnchanged(db, r, sid)
  {
    AddSystemMessage(db, sid, LeaveNotice(username), st)
  }

  /** The instructor's "new session" button. */
  method InstructorStart(store: SessionStore, created: Stamp, notice: Stamp) returns (sid: string)
    modifies store
    ensures sid == SessionId(created)
    ensures store.sessions == Start(old(store.sessions), created, notice)
  {
    sid := store.CreateSession(created);
    store.AddSystemMessage(sid, StartedText, notice);
  }

  /** The student's "leave" button. */
  method StudentLeave(store: SessionStore, sid: string, username: string, st: Stamp)
    modifies store
    ensures store.sessions == Leave(old(store.sessions), sid, username, st)
  {
    store.AddSystemMessage(sid, LeaveNotice(username), st);
  }

  /** A lecture as the store's callers see it: the contracts of the calls alone fix
      the conversation, and two lookups without a write in between agree. */
  method Lecture(created: Stamp, notice: Stamp, s1: Stamp, joined: string, s2: Stamp)
  {
    var store := new SessionStore();
    var sid := InstructorStart(store, created, notice);
    var ok := store.AddMessage(sid, "강사", "Hello", "instructor", s1);
    assert ok;
    ok := store.AddParticipant(sid, "Bob", joined, s2);
    var a := store.GetSession(sid);
    var b := store.GetSession(sid);
    assert a == b && a.Some?;
    assert a.value.participants == map["Bob" := Participant(joined)];
    assert a.value.messages == [
      SystemMessage(StartedText, notice),
      ChatMessage("강사", "Hello", "instructor", s1),
      SystemMessage(JoinNotice("Bob"), s2)];
  }

  /** Leaving keeps the participant count; a send to an unknown id is refused and
      changes nothing. */
  method Departure(store: SessionStore, sid: string, st: Stamp)
    modifies store
  {
    var before := store.GetSession(sid);
    StudentLeave(store, sid, "Bob", st);
    var after := store.GetSession(sid);
    assert before.Some? ==> after.Some? && after.value.participants == before.value.participants;
    var snapshot := store.sessions;
    if sid !in snapshot {
      var ok := store.AddMessage(sid, "Bob", "lost", st := st);
      assert !ok && store.sessions == snapshot;
    }
  }
}
