/** The embedded store of app.py: one sessions document. Each write loads it whole,
    changes it in memory and saves it whole when the session exists; `GetSession` and
    the unknown-id paths only load. The file becomes the `sessions` field; loading and
    saving read and write that field. */
module Persistence {
  import opened Ids
  import opened Sessions

  class SessionStore {
    /** The contents of the sessions file. */
    var sessions: SessionMap

    /** Before any session is saved the file does not exist and loading yields `{}`. */
    constructor ()
      ensures sessions == map[]
    {
      sessions := map[];
    }

    /** load_sessions */
    method Load() returns (all: SessionMap)
      ensures all == sessions
    {
      all := sessions;
    }

    /** save_sessions: rewrites the whole document. */
    method Save(all: SessionMap)
      modifies this
      ensures sessions == all
    {
      sessions := all;
    }

    /** create_session: returns the new id; the record under that id is (re)written
        with no messages and no participants. */
    method CreateSession(st: Stamp) returns (sid: string)
      modifies this
      ensures sid == SessionId(st) && SessionPrefix + "-" <= sid
      ensures sessions == Create(old(sessions), st)
    {
      sid := NewId(SessionPrefix, st.seconds, st.hex);
      var all := Load();
      all := all[sid := Session(sid, st.iso, [], map[])];
      Save(all);
    }

    /** add_message: true and one chat message appended when the session exists;
        false and no save otherwise. */
    method AddMessage(sid: string, username: string, message: string, userType: string := DefaultUserType, st: Stamp)
      returns (ok: bool)
      modifies this
      ensures ok <==> sid in old(sessions)
      ensures sessions == Sessions.AddMessage(old(sessions), sid, username, message, userType, st)
    {
      var all := Load();
      if sid in all {
        var msg := Chat(NewId(ChatPrefix, st.seconds, st.hex), username, message, userType, st.iso);
        var s := all[sid];
        all := all[sid := s.(messages := s.messages + [msg])];
        Save(all);
        return true;
      }
      return false;
    }

    /** add_participant: records the join under the name, saves, then appends the
        join notice through add_system_message (a second load and save). */
    method AddParticipant(sid: string, username: string, joinedAt: string, st: Stamp) returns (ok: bool)
      modifies this
      ensures ok <==> sid in old(sessions)
      ensures sessions == Sessions.AddParticipant(old(sessions), sid, username, joinedAt, st)
    {
      var all := Load();
      if sid in all {
        var s := all[sid];
        all := all[sid := s.(participants := s.participants[username := Participant(joinedAt)])];
        Save(all);
        AddSystemMessage(sid, JoinNotice(username), st);
        return true;
      }
      return false;
    }

    /** add_system_message: appends a system notice; nothing happens for an unknown id. */
    method AddSystemMessage(sid: string, text: string, st: Stamp)
      modifies this
      ensures sessions == Sessions.AddSystemMessage(old(sessions), sid, text, st)
    {
      var all := Load();
      if sid in all {
        var msg := SystemNotice(NewId(SystemPrefix, st.seconds, st.hex), text, st.iso);
        var s := all[sid];
        all := all[sid := s.(messages := s.messages + [msg])];
        Save(all);
      }
    }

    /** get_session: the stored record, or None for an unknown id; changes nothing. */
    method GetSession(sid: string) returns (r: Option<Session>)
      ensures r == Get(sessions, sid)
    {
      var all := Load();
      r := if sid in all then Some(all[sid]) else None;
    }
  }
}
