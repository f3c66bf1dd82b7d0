/** Sequences of store operations, each applied as one atomic step, and what they
    guarantee together: in a run without an id collision messages are only ever
    appended, a run of sends to one session leaves exactly one new message per send,
    in call order, and lookups with no write between them return the same record. */
module History {
  import opened Ids
  import opened Sessions

  datatype Op =
    | CreateOp(st: Stamp)
    | MessageOp(sid: string, username: string, message: string, userType: string, st: Stamp)
    | ParticipantOp(sid: string, username: string, joinedAt: string, st: Stamp)
    | SystemOp(sid: string, text: string, st: Stamp)
    | GetOp(sid: string)

  function Apply(db: SessionMap, op: Op): SessionMap {
    match op
    case CreateOp(st) => Create(db, st)
    case MessageOp(sid, u, m, t, st) => AddMessage(db, sid, u, m, t, st)
    case ParticipantOp(sid, u, j, st) => AddParticipant(db, sid, u, j, st)
    case SystemOp(sid, text, st) => AddSystemMessage(db, sid, text, st)
    // A lookup leaves the document as it is: `SessionStore.GetSession` has no `modifies`.
    case GetOp(_) => db
  }

  function Run(db: SessionMap, ops: seq<Op>): SessionMap
    decreases |ops|
  {
    if ops == [] then db else Run(Apply(db, ops[0]), ops[1..])
  }

  /** An operation that does not create a session under an id already in use. */
  predicate NoCollision(db: SessionMap, op: Op) {
    !(op.CreateOp? && SessionId(op.st) in db)
  }

  predicate NoCollisions(db: SessionMap, ops: seq<Op>)
    decreases |ops|
  {
    ops == [] || (NoCollision(db, ops[0]) && NoCollisions(Apply(db, ops[0]), ops[1..]))
  }

  /** One operation never removes a session nor shortens or reorders its messages,
      unless it is a create that reuses an id. */
  lemma ApplyGrows(db: SessionMap, op: Op)
    requires NoCollision(db, op)
    ensures Grows(db, Apply(db, op))
  {
  }

  /** A create under an id already in use replaces the record: its messages are gone. */
  lemma CollidingCreateDropsMessages(db: SessionMap, st: Stamp)
    requires SessionId(st) in db && db[SessionId(st)].messages != []
    ensures !Grows(db, Create(db, st))
  {
    assert Create(db, st)[SessionId(st)].messages == [];
  }

  /** Every old message list is a prefix of the new one after any run of
      operations with no id collision. */
  lemma {:induction false} RunGrows(db: SessionMap, ops: seq<Op>)
    requires NoCollisions(db, ops)
    ensures Grows(db, Run(db, ops))
    decreases |ops|
  {
    if ops != [] {
      var next := Apply(db, ops[0]);
      ApplyGrows(db, ops[0]);
      RunGrows(next, ops[1..]);
      GrowsTransitive(db, next, Run(next, ops[1..]));
    }
  }

  /** The results of the lookups in a run, in order, each taken on the document as
      it stands at that point of the run. */
  function Reads(db: SessionMap, ops: seq<Op>): seq<Option<Session>>
    decreases |ops|
  {
    if ops == [] then []
    else (if ops[0].GetOp? then [Get(db, ops[0].sid)] else []) + Reads(Apply(db, ops[0]), ops[1..])
  }

  function Lookups(sids: seq<string>): (ops: seq<Op>)
    ensures |ops| == |sids|
    ensures forall i :: 0 <= i < |sids| ==> ops[i] == GetOp(sids[i])
  {
    seq(|sids|, i requires 0 <= i < |sids| => GetOp(sids[i]))
  }

  /** A run of lookups with no write among them: each returns what `get_session`
      returns on the starting document, so two lookups of one id return the same
      record, and the document is left as it was. */
  lemma {:induction false} LookupsAgree(db: SessionMap, sids: seq<string>)
    ensures |Reads(db, Lookups(sids))| == |sids|
    ensures forall i :: 0 <= i < |sids| ==> Reads(db, Lookups(sids))[i] == Get(db, sids[i])
    ensures forall i, j :: 0 <= i < |sids| && 0 <= j < |sids| && sids[i] == sids[j] ==>
      Reads(db, Lookups(sids))[i] == Reads(db, Lookups(sids))[j]
    ensures Run(db, Lookups(sids)) == db
    decreases |sids|
  {
    if sids != [] {
      var ops := Lookups(sids);
      assert ops[0] == GetOp(sids[0]) && ops[1..] == Lookups(sids[1..]);
      assert Apply(db, ops[0]) == db;
      LookupsAgree(db, sids[1..]);
      assert Reads(db, ops) == [Get(db, sids[0])] + Reads(db, Lookups(sids[1..]));
      forall i | 1 <= i < |sids| ensures Reads(db, ops)[i] == Get(db, sids[i]) {
        assert Reads(db, ops)[i] == Reads(db, Lookups(sids[1..]))[i - 1];
        assert sids[1..][i - 1] == sids[i];
      }
    }
  }

  /** One `add_message` call's arguments. */
  datatype Post = Post(username: string, message: string, userType: string, st: Stamp)

  function Send(sid: string, p: Post): Op {
    MessageOp(sid, p.username, p.message, p.userType, p.st)
  }

  function Built(p: Post): Message {
    ChatMessage(p.username, p.message, p.userType, p.st)
  }

  /** The `add_message` calls of `ps` against session `sid`, in order. */
  function Posts(sid: string, ps: seq<Post>): (ops: seq<Op>)
    decreases |ps|
  {
    if ps == [] then [] else [Send(sid, ps[0])] + Posts(sid, ps[1..])
  }

  /** The chat messages the calls in `ps` build, one per call, in order. */
  function Chats(ps: seq<Post>): (ms: seq<Message>)
    decreases |ps|
  {
    if ps == [] then [] else [Built(ps[0])] + Chats(ps[1..])
  }

  lemma {:induction false} ChatsOnePerPost(ps: seq<Post>)
    ensures |Chats(ps)| == |ps|
    ensures forall i :: 0 <= i < |ps| ==> Chats(ps)[i] == Built(ps[i])
    decreases |ps|
  {
    if ps != [] {
      ChatsOnePerPost(ps[1..]);
      forall i | 1 <= i < |ps| ensures Chats(ps)[i] == Built(ps[i]) {
        assert Chats(ps)[i] == Chats(ps[1..])[i - 1];
        assert ps[1..][i - 1] == ps[i];
      }
    }
  }

  /** Sends to an existing session, in whatever order the store receives them, leave
      its messages as before followed by exactly one entry per send in that order,
      and its participants untouched. */
  lemma {:induction false} PostsAppendAll(db: SessionMap, sid: string, ps: seq<Post>)
    requires sid in db
    ensures sid in Run(db, Posts(sid, ps))
    ensures Run(db, Posts(sid, ps))[sid].messages == db[sid].messages + Chats(ps)
    ensures Run(db, Posts(sid, ps))[sid].participants == db[sid].participants
    decreases |ps|
  {
    if ps != [] {
      var p := ps[0];
      var next := AddMessage(db, sid, p.username, p.message, p.userType, p.st);
      assert Run(db, Posts(sid, ps)) == Run(next, Posts(sid, ps[1..])) by {
        assert Posts(sid, ps)[0] == Send(sid, p) && Posts(sid, ps)[1..] == Posts(sid, ps[1..]);
      }
      PostsAppendAll(next, sid, ps[1..]);
      assert next[sid].messages == db[sid].messages + [Built(p)];
      assert Chats(ps) == [Built(p)] + Chats(ps[1..]);
    }
  }

  /** Sends to one session leave every other session as it was, and sends to an
      unknown id change nothing at all. */
  lemma {:induction false} PostsTouchOnlyTheirSession(db: SessionMap, sid: string, ps: seq<Post>)
    ensures OthersUnchanged(db, Run(db, Posts(sid, ps)), sid)
    ensures sid !in db ==> Run(db, Posts(sid, ps)) == db
    decreases |ps|
  {
    if ps != [] {
      var p := ps[0];
      var next := AddMessage(db, sid, p.username, p.message, p.userType, p.st);
      assert Run(db, Posts(sid, ps)) == Run(next, Posts(sid, ps[1..])) by {
        assert Posts(sid, ps)[0] == Send(sid, p) && Posts(sid, ps)[1..] == Posts(sid, ps[1..]);
      }
      PostsTouchOnlyTheirSession(next, sid, ps[1..]);
      OthersUnchangedTransitive(db, next, Run(next, Posts(sid, ps[1..])), sid);
    }
  }

  lemma OthersUnchangedTransitive(a: SessionMap, b: SessionMap, c: SessionMap, sid: string)
    requires OthersUnchanged(a, b, sid) && OthersUnchanged(b, c, sid)
    ensures OthersUnchanged(a, c, sid)
  {
  }

  /** The conversation of a lecture: the instructor says hello, Bob joins and replies. */
  lemma LectureOrder(db: SessionMap, created: Stamp, s1: Stamp, joined: string, s2: Stamp, s3: Stamp)
    ensures var sid := SessionId(created);
      var r := Run(db, [
        CreateOp(created),
        MessageOp(sid, "강사", "Hello", "instructor", s1),
        ParticipantOp(sid, "Bob", joined, s2),
        MessageOp(sid, "Bob", "Hi!", "student", s3)]);
      && sid in r
      && r[sid].messages == [
        ChatMessage("강사", "Hello", "instructor", s1),
        SystemMessage(JoinNotice("Bob"), s2),
        ChatMessage("Bob", "Hi!", "student", s3)]
      && r[sid].participants == map["Bob" := Participant(joined)]
  {
    var sid := SessionId(created);
    var ops := [
      CreateOp(created),
      MessageOp(sid, "강사", "Hello", "instructor", s1),
      ParticipantOp(sid, "Bob", joined, s2),
      MessageOp(sid, "Bob", "Hi!", "student", s3)];
    var d1 := Create(db, created);
    var d2 := AddMessage(d1, sid, "강사", "Hello", "instructor", s1);
    var d3 := AddParticipant(d2, sid, "Bob", joined, s2);
    var d4 := AddMessage(d3, sid, "Bob", "Hi!", "student", s3);
    assert d2[sid].messages == [ChatMessage("강사", "Hello", "instructor", s1)];
    assert d3[sid].messages == d2[sid].messages + [SystemMessage(JoinNotice("Bob"), s2)];
    assert d4[sid].participants == map["Bob" := Participant(joined)];
    assert Run(db, ops) == Run(d1, ops[1..]);
    assert Run(d1, ops[1..]) == Run(d2, ops[2..]);
    assert Run(d2, ops[2..]) == Run(d3, ops[3..]);
    assert Run(d3, ops[3..]) == Run(d4, ops[4..]) == d4;
  }
}
