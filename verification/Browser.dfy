/**
 apps/web/src/collab/provider.ts: the document half of a browser tab. What it sends
 when its socket opens, what it answers, and which updates it sends up.
 */
module Browser {
  import opened Crdt
  import opened Room
  import S = Session

  /** Whether a transaction came in on the socket or from the editor. */
  datatype Source = FromServer | FromEditor

  function Learnt(doc: Ops, m: Sync): Ops {
    if m.Step1? then doc else doc + m.ops
  }

  function Answers(doc: Ops, m: Sync): seq<S.Frame> {
    if m.Step1? then [S.Doc(Step2(doc - m.have))] else []
  }

  function Hello(doc: Ops): seq<S.Frame> {
    [S.Auth, S.Doc(Step1(doc))]
  }

  class CollabDocument {
    var doc: Ops
    /** Is there a socket whose readyState is OPEN? */
    var ready: bool
    var sent: seq<S.Frame>

    constructor (doc: Ops)
      ensures this.doc == doc && !ready && sent == []
    {
      this.doc, ready, sent := doc, false, [];
    }

    method OnOpen()
      modifies this
      ensures ready && doc == old(doc) && sent == old(sent) + Hello(doc)
    {
      ready := true;
      SendFrame(S.Auth);
      SendFrame(S.Doc(Step1(doc)));
    }

    method OnClose()
      modifies this`ready
      ensures !ready
    {
      ready := false;
    }

    method OnFrame(m: Sync)
      modifies this`doc, this`sent
      ensures doc == Learnt(old(doc), m)
      ensures sent == old(sent) + if ready then Answers(old(doc), m) else []
    {
      match m
      case Step1(have) => SendFrame(S.Doc(Step2(doc - have)));
      case Step2(ops) => ApplyUpdate(ops, FromServer);
      case Update(ops) => ApplyUpdate(ops, FromServer);
    }

    method Edit(ops: Ops)
      modifies this`doc, this`sent
      ensures doc == old(doc) + ops
      ensures sent == old(sent) + if ready && !(ops <= old(doc)) then [S.Doc(Update(ops - old(doc)))] else []
    {
      ApplyUpdate(ops, FromEditor);
    }

    /** Yjs fires `update` only when the transaction added something, with only what is new. */
    method ApplyUpdate(ops: Ops, source: Source)
      modifies this`doc, this`sent
      ensures doc == old(doc) + ops
      ensures sent == old(sent) + if ready && source.FromEditor? && !(ops <= old(doc))
                                  then [S.Doc(Update(ops - old(doc)))] else []
    {
      var gained := ops - doc;
      assert doc + gained == doc + ops && (gained == {} <==> ops <= doc);
      if gained != {} {
        doc := doc + gained;
        OnDocUpdate(gained, source);
      }
    }

    method OnDocUpdate(update: Ops, source: Source)
      modifies this`sent
      ensures sent == old(sent) + if ready && source.FromEditor? then [S.Doc(Update(update))] else []
    {
      if source == FromServer {
        return;
      }
      SendFrame(S.Doc(Update(update)));
    }

    method SendFrame(f: S.Frame)
      modifies this`sent
      ensures sent == old(sent) + if ready then [f] else []
    {
      if !ready {
        return;
      }
      sent := sent + [f];
    }
  }

  /** The users of the session system behave like this tab: connecting, editing and reading. */
  lemma SessionUsersAreTabs(s: S.State, e: S.Event)
    requires S.Enabled(s, e) && (e.Connect? || e.Edit? || e.UserRead?)
    ensures e.Connect? ==> S.Next(s, e).conns[e.k].up == Hello(s.users[e.u].doc)
    ensures e.Edit? ==> S.Next(s, e).users[e.u].doc == s.users[e.u].doc + e.ops
    ensures e.Edit? && s.users[e.u].socket.Some? && s.users[e.u].socket.value in s.conns ==>
      var k := s.users[e.u].socket.value;
      S.Next(s, e).conns[k].up == s.conns[k].up + [S.Doc(Update(e.ops - s.users[e.u].doc))]
    ensures e.UserRead? ==>
      var (t, c) := (S.Next(s, e), s.conns[e.k]);
      && t.users[c.user].doc == Learnt(s.users[c.user].doc, c.down[0])
      && t.conns[e.k].up == c.up + Answers(s.users[c.user].doc, c.down[0])
      && t.conns[e.k].down == c.down[1..]
  {
    match e
    case Connect(u, at, k) =>
    case Edit(u, ops) =>
    case UserRead(k) => assert s.conns[k].up + [] == s.conns[k].up;
  }

  /**
   The two-way handshake by itself: the tab's step 1 and the room's step 1, each
   answered in turn, leave both with the union of what they had. Each side is sent
   exactly what it lacked, and the room records exactly what the tab brought.
   */
  lemma HandshakeEqualises(r: RoomState, doc: Ops, c: ClientId)
    ensures var hello := Added(r, c);
      var answered := Handled(hello.room, c, Step1(doc));
      && |hello.sent| == 1 && |answered.sent| == 1 && answered.recorded == []
      && answered.sent[0].frame == Step2(r.doc - doc)
      && var learnt := Learnt(doc, answered.sent[0].frame);
      var brought := Answers(learnt, hello.sent[0].frame);
      && brought == [S.Doc(Step2(doc - r.doc))]
      && var done := Handled(answered.room, c, brought[0].message);
      && done.room.doc == r.doc + doc && learnt == r.doc + doc
      && Merge(done.recorded) == doc - r.doc
  {
    var learnt := doc + (r.doc - doc);
    assert learnt - r.doc == doc - r.doc;
    RecordedExactlyWhenLocalAndNew(Handled(Added(r, c).room, c, Step1(doc)).room, doc - r.doc, Local(c));
    assert (doc - r.doc) - r.doc == doc - r.doc;
  }
}
