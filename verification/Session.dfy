/**
 The sync session between browsers and rooms: apps/web/src/collab/provider.ts on
 one end, apps/server/src/ws/connection.ts and apps/server/src/rooms/room.ts on
 the other, joined by sockets that deliver in order until they close. One step of
 this system is one event handled by one party; users edit, drop off and come
 back on any instance at any time.
 */
module Session {
  import opened Crdt
  import opened Room
  import Connection

  type UserId = nat

  /** Presence and pings are one kind here: they take a slot in a queue and touch no document. */
  datatype Frame = Auth | Doc(message: Sync) | Other

  /**
   The server's view of a socket. A frame is read and handled or queued, or refused at
   the price of the socket, or, if it is presence over its budget, skipped. Draining
   covers the stretch between room.add and the end of the loop over the queue; no new
   frame of that socket is handled in it.
   */
  datatype Stage =
    | Unauthenticated
    | Loading(waiting: seq<Frame>)
    | Draining(rest: seq<Frame>)
    | Joined
    | Left

  /** `up` and `down` are the frames in flight; `open` is the server's readyState. */
  datatype Conn = Conn(user: UserId, at: InstanceId, stage: Stage, up: seq<Frame>, down: seq<Sync>, open: bool)

  datatype User = User(doc: Ops, socket: Option<ClientId>)

  datatype State = State(rooms: map<InstanceId, RoomState>, conns: map<ClientId, Conn>, users: map<UserId, User>)

  datatype Event =
    | Edit(u: UserId, ops: Ops)
    | Announce(u: UserId)
    | Connect(u: UserId, at: InstanceId, k: ClientId)
    | ServerRead(k: ClientId)
    | ServerRefuse(k: ClientId)
    | ServerSkip(k: ClientId)
    | Enter(k: ClientId)
    | Drain(k: ClientId)
    | UserRead(k: ClientId)
    | ServerClose(k: ClientId)
    | UserClose(u: UserId)
    | Leave(k: ClientId)
    | FromBus(i: InstanceId, message: BusMessage)
    | Reopen(i: InstanceId, doc: Ops)
    | Crash(i: InstanceId)

  predicate InRoom(c: Conn) {
    c.stage.Draining? || c.stage.Joined?
  }

  function Queued(c: Conn): seq<Frame> {
    match c.stage
    case Loading(waiting) => waiting
    case Draining(rest) => rest
    case _ => []
  }

  /** Frames the user has sent that the room has not seen yet. */
  function Unread(c: Conn): seq<Frame> {
    Queued(c) + c.up
  }

  predicate Enabled(s: State, e: Event) {
    match e
    case Edit(u, ops) => u in s.users && ops - s.users[u].doc != {}
    case Announce(u) => u in s.users
    case Connect(u, at, k) => u in s.users && s.users[u].socket == None && k !in s.conns
    case ServerRead(k) => Readable(s, k)
    case ServerRefuse(k) => Readable(s, k)
    case ServerSkip(k) => Readable(s, k) && !s.conns[k].stage.Unauthenticated? && s.conns[k].up[0] == Other
    case Enter(k) => k in s.conns && s.conns[k].stage.Loading? && s.conns[k].at in s.rooms
    case Drain(k) => k in s.conns && s.conns[k].stage.Draining? && s.conns[k].at in s.rooms
    case UserRead(k) =>
      k in s.conns && s.conns[k].user in s.users && s.users[s.conns[k].user].socket == Some(k) && s.conns[k].down != []
    case ServerClose(k) => k in s.conns
    case UserClose(u) => u in s.users
    case Leave(k) =>
      && k in s.conns && InRoom(s.conns[k]) && s.conns[k].at in s.rooms && s.conns[k].user in s.users
      && !Live(s.users[s.conns[k].user], k, s.conns[k])
    case FromBus(i, message) => i in s.rooms
    case Reopen(i, doc) => i in s.rooms ==> s.rooms[i].clients == []
    case Crash(_) => true
  }

  predicate Readable(s: State, k: ClientId) {
    && k in s.conns && s.conns[k].up != []
    && !s.conns[k].stage.Draining? && !s.conns[k].stage.Left?
    && (s.conns[k].stage.Joined? ==> s.conns[k].at in s.rooms)
  }

  /** Both ends still hold the socket: nothing sent on it has been or will be lost. */
  predicate Live(u: User, k: ClientId, c: Conn) {
    c.open && u.socket == Some(k)
  }

  /** Client.send for each call of an effect, in order: a closing socket takes nothing. */
  function Post(conns: map<ClientId, Conn>, sent: seq<Send>): map<ClientId, Conn> {
    if sent == [] then conns
    else
      var before := Post(conns, sent[..|sent| - 1]);
      var s := sent[|sent| - 1];
      if s.to in before && before[s.to].open
      then before[s.to := before[s.to].(down := before[s.to].down + [s.frame])]
      else before
  }

  function Settle(s: State, i: InstanceId, e: Effect): State {
    s.(rooms := s.rooms[i := e.room], conns := Post(s.conns, e.sent))
  }

  /** Connection.dispatch. */
  function Dispatch(s: State, k: ClientId, f: Frame): State
    requires k in s.conns && s.conns[k].at in s.rooms
  {
    if f.Doc? then Settle(s, s.conns[k].at, Handled(s.rooms[s.conns[k].at], k, f.message)) else s
  }

  /** CollabProvider.send: only on a socket that is up. */
  function SendUp(s: State, u: UserId, f: Frame): State
    requires u in s.users
  {
    match s.users[u].socket
    case Some(k) =>
      if k in s.conns then s.(conns := s.conns[k := s.conns[k].(up := s.conns[k].up + [f])]) else s
    case None => s
  }

  function Next(s: State, e: Event): State
    requires Enabled(s, e)
  {
    match e
    case Edit(u, ops) =>
      var gained := ops - s.users[u].doc;
      SendUp(s.(users := s.users[u := s.users[u].(doc := s.users[u].doc + gained)]), u, Doc(Update(gained)))
    case Announce(u) => SendUp(s, u, Other)
    case Connect(u, at, k) =>
      var hello := [Auth, Doc(Step1(s.users[u].doc))];
      s.(users := s.users[u := s.users[u].(socket := Some(k))],
         conns := s.conns[k := Conn(u, at, Unauthenticated, hello, [], true)])
    case ServerRead(k) =>
      var c := s.conns[k];
      var f, read := c.up[0], c.(up := c.up[1..]);
      (match c.stage
       case Unauthenticated =>
         s.(conns := s.conns[k := if f.Auth? then read.(stage := Loading([])) else read.(open := false)])
       case Loading(waiting) =>
         var kept := if |waiting| < Connection.MAX_QUEUED_FRAMES then waiting + [f] else waiting;
         s.(conns := s.conns[k := read.(stage := Loading(kept))])
       case Joined => Dispatch(s.(conns := s.conns[k := read]), k, f))
    case ServerRefuse(k) =>
      s.(conns := s.conns[k := s.conns[k].(up := s.conns[k].up[1..], open := false)])
    case ServerSkip(k) => s.(conns := s.conns[k := s.conns[k].(up := s.conns[k].up[1..])])
    case Enter(k) =>
      var c := s.conns[k];
      Settle(s.(conns := s.conns[k := c.(stage := Draining(c.stage.waiting))]), c.at, Added(s.rooms[c.at], k))
    case Drain(k) =>
      var c := s.conns[k];
      if c.stage.rest == [] then s.(conns := s.conns[k := c.(stage := Joined)])
      else Dispatch(s.(conns := s.conns[k := c.(stage := Draining(c.stage.rest[1..]))]), k, c.stage.rest[0])
    case UserRead(k) =>
      var c := s.conns[k];
      var m, read, u := c.down[0], c.(down := c.down[1..]), s.users[c.user];
      if m.Step1? then s.(conns := s.conns[k := read.(up := read.up + [Doc(Step2(u.doc - m.have))])])
      else s.(conns := s.conns[k := read], users := s.users[c.user := u.(doc := u.doc + m.ops)])
    case ServerClose(k) => s.(conns := s.conns[k := s.conns[k].(open := false)])
    case UserClose(u) => s.(users := s.users[u := s.users[u].(socket := None)])
    case Leave(k) =>
      var c := s.conns[k];
      Settle(s.(conns := s.conns[k := c.(stage := Left)]), c.at, Removed(s.rooms[c.at], k))
    case FromBus(i, message) => Settle(s, i, Received(s.rooms[i], message))
    case Reopen(i, doc) => s.(rooms := s.rooms[i := RoomState(doc, [])])
    case Crash(i) =>
      s.(rooms := if i in s.rooms then s.rooms[i := s.rooms[i].(clients := [])] else s.rooms,
         conns := map k | k in s.conns :: if s.conns[k].at == i then Dead(s.conns[k]) else s.conns[k])
  }

  /** The server's end is gone; what it had sent may still arrive. */
  function Dead(c: Conn): Conn {
    c.(stage := Left, open := false)
  }

  // ---------------------------------------------------------------- the invariant

  function Mentions(m: Sync): Ops {
    if m.Step1? then m.have else m.ops
  }

  predicate Carries(ms: seq<Sync>, o: Op) {
    exists m :: m in ms && !m.Step1? && o in m.ops
  }

  predicate AsksBack(ms: seq<Sync>) {
    exists m :: m in ms && m.Step1?
  }

  predicate CarriesUp(fs: seq<Frame>, o: Op) {
    exists f :: f in fs && f.Doc? && !f.message.Step1? && o in f.message.ops
  }

  predicate IsStep1(f: Frame) {
    f.Doc? && f.message.Step1?
  }

  predicate AsksUp(fs: seq<Frame>) {
    exists f :: f in fs && IsStep1(f)
  }

  /** Nothing in flight claims more than its sender has. */
  ghost predicate Honest(doc: Ops, u: User, c: Conn) {
    && (forall f :: f in Unread(c) && f.Doc? ==> Mentions(f.message) <= u.doc)
    && (InRoom(c) ==> forall m :: m in c.down ==> Mentions(m) <= doc)
  }

  /** The user's step 1 leads the frames it sent, where the cap on queued frames cannot reach it. */
  predicate Greeted(c: Conn) {
    match c.stage
    case Unauthenticated => |c.up| >= 2 && c.up[0] == Auth && IsStep1(c.up[1])
    case Loading(_) => |Unread(c)| > 0 && IsStep1(Unread(c)[0])
    case _ => true
  }

  /** What the room has, the user has, or is on its way, or the user's step 1 will bring it. */
  ghost predicate DownComplete(doc: Ops, u: User, c: Conn) {
    forall o :: o in doc ==> o in u.doc || Carries(c.down, o) || AsksUp(Unread(c))
  }

  /** What the user has, the room has, or is on its way, or the room's step 1 will bring it. */
  ghost predicate UpComplete(doc: Ops, u: User, c: Conn) {
    forall o :: o in u.doc ==> o in doc || CarriesUp(Unread(c), o) || AsksBack(c.down)
  }

  ghost predicate Link(doc: Ops, u: User, k: ClientId, c: Conn) {
    && Honest(doc, u, c)
    && (Live(u, k, c) ==> Greeted(c))
    && (Live(u, k, c) && InRoom(c) ==> DownComplete(doc, u, c) && UpComplete(doc, u, c))
  }

  function DocAt(rooms: map<InstanceId, RoomState>, i: InstanceId): Ops {
    if i in rooms then rooms[i].doc else {}
  }

  /** The clients of a room are connections to its instance that have joined and not left. */
  ghost predicate Seats(clients: seq<ClientId>, i: InstanceId, conns: map<ClientId, Conn>) {
    Distinct(clients) && forall k :: k in clients ==> k in conns && conns[k].at == i && InRoom(conns[k])
  }

  ghost predicate Seated(rooms: map<InstanceId, RoomState>, k: ClientId, c: Conn) {
    InRoom(c) ==> c.at in rooms && k in rooms[c.at].clients
  }

  ghost predicate Wired(s: State) {
    && (forall k :: k in s.conns ==> s.conns[k].user in s.users)
    && (forall u :: u in s.users ==> Plugged(s.users[u].socket, u, s.conns))
    && (forall i :: i in s.rooms ==> Seats(s.rooms[i].clients, i, s.conns))
    && (forall k :: k in s.conns ==> Seated(s.rooms, k, s.conns[k]))
  }

  /** A user's socket is one of that user's connections. */
  ghost predicate Plugged(socket: Option<ClientId>, u: UserId, conns: map<ClientId, Conn>) {
    socket.Some? ==> socket.value in conns && conns[socket.value].user == u
  }

  ghost predicate LinkAt(s: State, k: ClientId) {
    && k in s.conns && s.conns[k].user in s.users
    && Link(DocAt(s.rooms, s.conns[k].at), s.users[s.conns[k].user], k, s.conns[k])
  }

  ghost predicate Inv(s: State) {
    && Wired(s)
    && (forall k :: k in s.conns ==> LinkAt(s, k))
    && (forall k :: k in s.conns ==> Fresh(s.conns[k]))
  }

  /** A socket carries nothing down before its connection is in a room. */
  predicate Fresh(c: Conn) {
    c.stage.Unauthenticated? || c.stage.Loading? ==> c.down == []
  }

  /** Rooms may already hold documents and users may already hold drafts; nobody is connected. */
  predicate Init(s: State) {
    && s.conns == map[]
    && (forall i :: i in s.rooms ==> s.rooms[i].clients == [])
    && (forall u :: u in s.users ==> s.users[u].socket == None)
  }

  // ------------------------------------------------------- one link, one change

  lemma UnreadAppend(c: Conn, f: Frame)
    ensures Unread(c.(up := c.up + [f])) == Unread(c) + [f]
  {
  }

  /** The room gains operations from elsewhere and forwards them to this client. */
  lemma LinkRoomGrows(doc: Ops, u: User, k: ClientId, c: Conn, gained: Ops, after: Conn)
    requires Link(doc, u, k, c)
    requires after == c.(down := c.down + if c.open && InRoom(c) then [Update(gained)] else [])
    ensures Link(doc + gained, u, k, after)
  {
    assert Unread(after) == Unread(c);
    if Live(u, k, c) && InRoom(c) {
      assert Update(gained) in after.down;
      assert forall m :: m in c.down ==> m in after.down;
      forall o | o in doc + gained ensures o in u.doc || Carries(after.down, o) || AsksUp(Unread(after)) {
        if o in doc && Carries(c.down, o) {
          var m :| m in c.down && !m.Step1? && o in m.ops;
          assert m in after.down;
        }
      }
      if AsksBack(c.down) {
        assert AsksBack(after.down);
      }
    }
  }

  /** The room takes the first unread frame of this client: what it carried moves into the document. */
  lemma LinkUpdateTaken(doc: Ops, u: User, k: ClientId, c: Conn, f: Frame, after: Conn)
    requires Link(doc, u, k, c) && InRoom(c) && InRoom(after)
    requires Unread(c) == [f] + Unread(after) && after.down == c.down && after.open == c.open
    requires !IsStep1(f)
    ensures Link(if f.Doc? then doc + f.message.ops else doc, u, k, after)
  {
    assert f in Unread(c);
    assert forall g :: g in Unread(after) ==> g in Unread(c);
    assert forall g :: g in Unread(c) ==> g == f || g in Unread(after);
  }

  /** The room answers this client's step 1 with exactly what it lacked. */
  lemma LinkStep1Answered(doc: Ops, u: User, k: ClientId, c: Conn, f: Frame, after: Conn)
    requires Link(doc, u, k, c) && InRoom(c) && InRoom(after) && IsStep1(f)
    requires Unread(c) == [f] + Unread(after) && after.open == c.open
    requires after.down == c.down + if c.open then [Step2(doc - f.message.have)] else []
    ensures Link(doc, u, k, after)
  {
    assert f in Unread(c);
    assert forall g :: g in Unread(after) ==> g in Unread(c);
    assert forall g :: g in Unread(c) && !IsStep1(g) ==> g in Unread(after);
    if Live(u, k, c) {
      var reply := Step2(doc - f.message.have);
      assert reply in after.down;
      forall o | o in doc ensures o in u.doc || Carries(after.down, o) {
        if o !in f.message.have {
          assert o in reply.ops;
        }
      }
      forall o | o in u.doc ensures o in doc || CarriesUp(Unread(after), o) || AsksBack(after.down) {
        if AsksBack(c.down) {
          var m :| m in c.down && m.Step1?;
          assert m in after.down;
        }
      }
    }
  }

  /** room.add: the step 1 the room sends covers everything the cap may have thrown away. */
  lemma LinkEntered(doc: Ops, u: User, k: ClientId, c: Conn, after: Conn)
    requires Link(doc, u, k, c) && c.stage.Loading? && c.down == []
    requires after == c.(stage := Draining(c.stage.waiting), down := if c.open then [Step1(doc)] else [])
    ensures Link(doc, u, k, after)
  {
    assert Unread(after) == Unread(c);
    if Live(u, k, c) {
      assert Unread(c)[0] in Unread(after);
      assert Step1(doc) in after.down;
    }
  }

  /** The user edits while connected: the update goes up. */
  lemma LinkUserEdits(doc: Ops, u: User, k: ClientId, c: Conn, gained: Ops)
    requires Link(doc, u, k, c)
    ensures Link(doc, u.(doc := u.doc + gained), k, c.(up := c.up + [Doc(Update(gained))]))
  {
    var after := c.(up := c.up + [Doc(Update(gained))]);
    UnreadAppend(c, Doc(Update(gained)));
    assert Unread(c) != [] ==> Unread(after)[0] == Unread(c)[0];
    if Live(u, k, c) && InRoom(c) {
      EditCompletes(doc, u, c, gained);
    }
  }

  lemma EditCompletes(doc: Ops, u: User, c: Conn, gained: Ops)
    requires DownComplete(doc, u, c) && UpComplete(doc, u, c)
    ensures var after := c.(up := c.up + [Doc(Update(gained))]);
      var user := u.(doc := u.doc + gained);
      DownComplete(doc, user, after) && UpComplete(doc, user, after)
  {
    var after, user := c.(up := c.up + [Doc(Update(gained))]), u.(doc := u.doc + gained);
    UnreadAppend(c, Doc(Update(gained)));
    assert Doc(Update(gained)) in Unread(after);
    assert forall g :: g in Unread(c) ==> g in Unread(after);
    forall o | o in user.doc ensures o in doc || CarriesUp(Unread(after), o) || AsksBack(after.down) {
      if o in u.doc && CarriesUp(Unread(c), o) {
        var f :| f in Unread(c) && f.Doc? && !f.message.Step1? && o in f.message.ops;
        assert f in Unread(after);
      }
    }
  }

  /** The user answers the room's step 1 with exactly what the room lacked. */
  lemma LinkUserAnswers(doc: Ops, u: User, k: ClientId, c: Conn, after: Conn)
    requires Link(doc, u, k, c) && c.down != [] && c.down[0].Step1?
    requires after == c.(down := c.down[1..], up := c.up + [Doc(Step2(u.doc - c.down[0].have))])
    ensures Link(doc, u, k, after)
  {
    var m := c.down[0];
    var reply := Doc(Step2(u.doc - m.have));
    assert m in c.down;
    assert forall n :: n in after.down ==> n in c.down;
    assert Unread(after) == Unread(c) + [reply];
    assert forall g :: g in Unread(c) ==> g in Unread(after);
    assert Unread(c) != [] ==> Unread(after)[0] == Unread(c)[0];
    if Live(u, k, c) && InRoom(c) {
      AnswerCompletes(doc, u, c, after);
    }
  }

  lemma AnswerCompletes(doc: Ops, u: User, c: Conn, after: Conn)
    requires c.down != [] && c.down[0].Step1? && DownComplete(doc, u, c) && UpComplete(doc, u, c)
    requires InRoom(c) && Honest(doc, u, c)
    requires after == c.(down := c.down[1..], up := c.up + [Doc(Step2(u.doc - c.down[0].have))])
    ensures DownComplete(doc, u, after) && UpComplete(doc, u, after)
  {
    var m := c.down[0];
    var reply := Doc(Step2(u.doc - m.have));
    assert m in c.down;
    assert forall n :: n in c.down ==> n == m || n in after.down;
    assert Unread(after) == Unread(c) + [reply];
    assert reply in Unread(after);
    assert forall g :: g in Unread(c) ==> g in Unread(after);
  }

  /** The user merges what the room sent. */
  lemma LinkUserMerges(doc: Ops, u: User, k: ClientId, c: Conn, user: User, after: Conn)
    requires Link(doc, u, k, c) && c.down != [] && !c.down[0].Step1?
    requires user == u.(doc := u.doc + c.down[0].ops) && after == c.(down := c.down[1..])
    ensures Link(doc, user, k, after)
  {
    var m := c.down[0];
    assert m in c.down;
    assert Unread(after) == Unread(c);
    if Live(u, k, c) && InRoom(c) {
      MergedComplete(doc, u, c, user, after);
    }
  }

  lemma MergedComplete(doc: Ops, u: User, c: Conn, user: User, after: Conn)
    requires c.down != [] && !c.down[0].Step1? && Honest(doc, u, c) && InRoom(c)
    requires DownComplete(doc, u, c) && UpComplete(doc, u, c)
    requires user == u.(doc := u.doc + c.down[0].ops) && after == c.(down := c.down[1..])
    ensures DownComplete(doc, user, after) && UpComplete(doc, user, after)
  {
    var m := c.down[0];
    assert m in c.down;
    assert Unread(after) == Unread(c);
    assert forall n :: n in c.down ==> n == m || n in after.down;
    forall o | o in doc ensures o in user.doc || Carries(after.down, o) || AsksUp(Unread(after)) {
      if o !in u.doc && Carries(c.down, o) {
        var n :| n in c.down && !n.Step1? && o in n.ops;
      }
    }
    forall o | o in user.doc ensures o in doc || CarriesUp(Unread(after), o) || AsksBack(after.down) {
      if AsksBack(c.down) {
        var n :| n in c.down && n.Step1?;
      }
    }
  }

  /** The user takes a frame off its socket. */
  lemma LinkUserReads(doc: Ops, u: User, k: ClientId, c: Conn, user: User, after: Conn)
    requires Link(doc, u, k, c) && c.down != []
    requires var m := c.down[0];
      if m.Step1? then user == u && after == c.(down := c.down[1..], up := c.up + [Doc(Step2(u.doc - m.have))])
      else user == u.(doc := u.doc + m.ops) && after == c.(down := c.down[1..])
    ensures Link(doc, user, k, after)
  {
    if c.down[0].Step1? {
      LinkUserAnswers(doc, u, k, c, after);
    } else {
      LinkUserMerges(doc, u, k, c, user, after);
    }
  }

  /** A frame read while the document loads joins the queue, or falls to the cap. */
  lemma LinkQueues(doc: Ops, u: User, k: ClientId, c: Conn, after: Conn)
    requires Link(doc, u, k, c) && c.stage.Loading? && c.up != []
    requires var (waiting, f) := (c.stage.waiting, c.up[0]);
      var kept := if |waiting| < Connection.MAX_QUEUED_FRAMES then waiting + [f] else waiting;
      after == c.(up := c.up[1..], stage := Loading(kept))
    ensures Link(doc, u, k, after)
  {
    assert forall g :: g in Unread(after) ==> g in Unread(c);
    assert Live(u, k, c) ==> Unread(after)[0] == Unread(c)[0];
  }

  /** A frame that carries nothing is dropped. */
  lemma LinkSkips(doc: Ops, u: User, k: ClientId, c: Conn, after: Conn)
    requires Link(doc, u, k, c) && !c.stage.Unauthenticated? && c.up != [] && c.up[0] == Other
    requires after == c.(up := c.up[1..])
    ensures Link(doc, u, k, after)
  {
    assert Unread(c) == Queued(c) + [Other] + c.up[1..];
    assert Unread(after) == Queued(c) + c.up[1..];
    assert forall g :: g in Unread(after) ==> g in Unread(c);
    assert forall g :: g in Unread(c) ==> g == Other || g in Unread(after);
    if Live(u, k, c) && c.stage.Loading? {
      assert IsStep1(Unread(c)[0]) && !IsStep1(Other);
      assert Queued(c) != [];
      assert Unread(after)[0] == Unread(c)[0];
    }
  }

  /** The user's document grew while this was not its current socket. */
  lemma LinkStale(doc: Ops, u: User, k: ClientId, c: Conn, user: User)
    requires Link(doc, u, k, c) && !Live(user, k, c) && u.doc <= user.doc
    ensures Link(doc, user, k, c)
  {
  }

  // ----------------------------------------------------------- effects on sockets

  lemma {:induction false} PostAt(conns: map<ClientId, Conn>, sent: seq<Send>)
    ensures Post(conns, sent).Keys == conns.Keys
    ensures forall k :: k in conns ==>
      Post(conns, sent)[k] == conns[k].(down := conns[k].down + if conns[k].open then Inbox(sent, k) else [])
  {
    if sent == [] {
      forall k | k in conns ensures conns[k].down + [] == conns[k].down {
      }
    } else {
      var front, last := sent[..|sent| - 1], sent[|sent| - 1];
      PostAt(conns, front);
      forall k | k in conns
        ensures Post(conns, sent)[k] == conns[k].(down := conns[k].down + if conns[k].open then Inbox(sent, k) else [])
      {
        assert Inbox(front, k) + [] == Inbox(front, k);
        assert conns[k].down + (Inbox(front, k) + [last.frame]) == conns[k].down + Inbox(front, k) + [last.frame];
      }
    }
  }

  /** Connections that stay with their user, instance and seat. */
  ghost predicate SameSeats(conns: map<ClientId, Conn>, after: map<ClientId, Conn>) {
    && conns.Keys == after.Keys
    && forall k :: k in conns ==>
      after[k].user == conns[k].user && after[k].at == conns[k].at && InRoom(after[k]) == InRoom(conns[k])
  }

  ghost predicate SameClients(rooms: map<InstanceId, RoomState>, after: map<InstanceId, RoomState>) {
    rooms.Keys == after.Keys && forall i :: i in rooms ==> after[i].clients == rooms[i].clients
  }

  lemma SameSeatsKeepWiring(s: State, t: State)
    requires Wired(s) && SameSeats(s.conns, t.conns) && SameClients(s.rooms, t.rooms)
    requires t.users.Keys == s.users.Keys
    requires forall u :: u in s.users ==> t.users[u].socket == s.users[u].socket || t.users[u].socket == None
    ensures Wired(t)
  {
    forall u | u in t.users ensures Plugged(t.users[u].socket, u, t.conns) {
      assert Plugged(s.users[u].socket, u, s.conns);
    }
    forall i | i in t.rooms ensures Seats(t.rooms[i].clients, i, t.conns) {
      assert Seats(s.rooms[i].clients, i, s.conns);
    }
    forall k | k in t.conns ensures Seated(t.rooms, k, t.conns[k]) {
      assert Seated(s.rooms, k, s.conns[k]);
    }
  }

  /** An effect that leaves the room's clients alone leaves the wiring alone. */
  lemma SettleKeepsWiring(s: State, i: InstanceId, e: Effect)
    requires Wired(s) && i in s.rooms && e.room.clients == s.rooms[i].clients
    ensures Wired(Settle(s, i, e))
  {
    PostAt(s.conns, e.sent);
    SameSeatsKeepWiring(s, Settle(s, i, e));
  }

  /** Replacing one connection keeps the wiring as long as it stays where it was. */
  lemma ReplaceKeepsWiring(s: State, k: ClientId, c: Conn)
    requires Wired(s) && k in s.conns
    requires c.user == s.conns[k].user && c.at == s.conns[k].at && InRoom(c) == InRoom(s.conns[k])
    ensures Wired(s.(conns := s.conns[k := c]))
  {
    SameSeatsKeepWiring(s, s.(conns := s.conns[k := c]));
  }

  /** What one connection sees of an update applied at instance i. */
  lemma ApplyKeepsLink(s: State, i: InstanceId, ops: Ops, origin: Origin, k: ClientId)
    requires i in s.rooms && k in s.conns && s.conns[k].user in s.users
    requires Distinct(s.rooms[i].clients)
    requires k in s.rooms[i].clients <==> s.conns[k].at == i && InRoom(s.conns[k])
    requires if origin == Local(k) then
        s.conns[k].at == i && Link(s.rooms[i].doc + ops, s.users[s.conns[k].user], k, s.conns[k])
      else LinkAt(s, k)
    ensures LinkAt(Settle(s, i, Apply(s.rooms[i], ops, origin)), k)
  {
    var r, c := s.rooms[i], s.conns[k];
    var gained := ops - r.doc;
    var e := Apply(r, ops, origin);
    PostAt(s.conns, e.sent);
    assert r.doc + ops == r.doc + gained == e.room.doc;
    if gained != {} {
      FanOutReaches(r.clients, origin, Update(gained), k);
      if origin != Local(k) && c.at == i {
        LinkRoomGrows(r.doc, s.users[c.user], k, c, gained, Post(s.conns, e.sent)[k]);
      }
    }
  }

  lemma ApplyKeepsFresh(s: State, i: InstanceId, ops: Ops, origin: Origin, k: ClientId)
    requires i in s.rooms && k in s.conns && Fresh(s.conns[k]) && Distinct(s.rooms[i].clients)
    requires k in s.rooms[i].clients ==> InRoom(s.conns[k])
    ensures var after := Settle(s, i, Apply(s.rooms[i], ops, origin)).conns; k in after && Fresh(after[k])
  {
    var e := Apply(s.rooms[i], ops, origin);
    PostAt(s.conns, e.sent);
    FanOutReaches(s.rooms[i].clients, origin, Update(ops - s.rooms[i].doc), k);
  }

  /** Applying an update at a room keeps every link, given that the sender's own link is kept. */
  lemma ApplyKeepsInv(s: State, i: InstanceId, ops: Ops, origin: Origin)
    requires Wired(s) && i in s.rooms
    requires forall k :: k in s.conns ==> Fresh(s.conns[k])
    requires forall k :: k in s.conns && origin != Local(k) ==> LinkAt(s, k)
    requires origin.Local? ==>
      && origin.client in s.conns && s.conns[origin.client].at == i
      && Link(s.rooms[i].doc + ops, s.users[s.conns[origin.client].user], origin.client, s.conns[origin.client])
    ensures Inv(Settle(s, i, Apply(s.rooms[i], ops, origin)))
  {
    var e := Apply(s.rooms[i], ops, origin);
    SettleKeepsWiring(s, i, e);
    PostAt(s.conns, e.sent);
    forall k | k in s.conns ensures LinkAt(Settle(s, i, e), k) && Fresh(Settle(s, i, e).conns[k]) {
      assert Seats(s.rooms[i].clients, i, s.conns) && Seated(s.rooms, k, s.conns[k]);
      ApplyKeepsLink(s, i, ops, origin, k);
      ApplyKeepsFresh(s, i, ops, origin, k);
    }
  }

  /** A frame sent to one client reaches that client alone. */
  lemma PostOne(conns: map<ClientId, Conn>, to: ClientId, frame: Sync)
    requires to in conns
    ensures Post(conns, [Send(to, frame)])
         == conns[to := conns[to].(down := conns[to].down + if conns[to].open then [frame] else [])]
  {
    assert [Send(to, frame)][..0] == [];
    assert conns[to].down + [] == conns[to].down;
  }

  /** Replacing one connection by one whose own link holds. */
  lemma ReplaceKeepsInv(s: State, k: ClientId, c: Conn)
    requires Inv(s) && k in s.conns
    requires c.user == s.conns[k].user && c.at == s.conns[k].at && InRoom(c) == InRoom(s.conns[k])
    requires Fresh(c) && Link(DocAt(s.rooms, c.at), s.users[c.user], k, c)
    ensures Inv(s.(conns := s.conns[k := c]))
  {
    ReplaceKeepsWiring(s, k, c);
    var t := s.(conns := s.conns[k := c]);
    forall j | j in t.conns ensures LinkAt(t, j) {
      assert j != k ==> LinkAt(s, j);
    }
  }

  /** A frame of a joined or draining connection is handed to its room. */
  lemma DispatchKeepsInv(s: State, k: ClientId, f: Frame, c: Conn)
    requires Inv(s) && k in s.conns && InRoom(s.conns[k]) && InRoom(c)
    requires c.user == s.conns[k].user && c.at == s.conns[k].at
    requires c.down == s.conns[k].down && c.open == s.conns[k].open
    requires Unread(s.conns[k]) == [f] + Unread(c)
    ensures c.at in s.rooms && Inv(Dispatch(s.(conns := s.conns[k := c]), k, f))
  {
    var mid := s.(conns := s.conns[k := c]);
    var r, u := s.rooms[c.at], s.users[c.user];
    assert LinkAt(s, k);
    if IsStep1(f) {
      var reply := Step2(r.doc - f.message.have);
      PostOne(mid.conns, k, reply);
      var after := Post(mid.conns, [Send(k, reply)])[k];
      assert mid.conns[k := after] == s.conns[k := after];
      LinkStep1Answered(r.doc, u, k, s.conns[k], f, after);
      ReplaceKeepsInv(s, k, after);
      assert s.rooms[c.at := r] == s.rooms;
    } else {
      LinkUpdateTaken(r.doc, u, k, s.conns[k], f, c);
      if f.Doc? {
        ReplaceKeepsWiring(s, k, c);
        forall j | j in mid.conns && j != k ensures LinkAt(mid, j) {
          assert LinkAt(s, j);
        }
        ApplyKeepsInv(mid, c.at, f.message.ops, Local(k));
      } else {
        ReplaceKeepsInv(s, k, c);
      }
    }
  }

  // ------------------------------------------------------------- every event

  lemma EditKeepsLink(s: State, u: UserId, ops: Ops, k: ClientId)
    requires Enabled(s, Edit(u, ops)) && LinkAt(s, k)
    requires s.users[u].socket.Some? ==> Plugged(s.users[u].socket, u, s.conns)
    ensures LinkAt(Next(s, Edit(u, ops)), k)
  {
    var c := s.conns[k];
    if c.user == u {
      if s.users[u].socket == Some(k) {
        LinkUserEdits(DocAt(s.rooms, c.at), s.users[u], k, c, ops - s.users[u].doc);
      } else {
        LinkStale(DocAt(s.rooms, c.at), s.users[u], k, c, Next(s, Edit(u, ops)).users[u]);
      }
    }
  }

  lemma EditKeepsInv(s: State, u: UserId, ops: Ops)
    requires Inv(s) && Enabled(s, Edit(u, ops))
    ensures Inv(Next(s, Edit(u, ops)))
  {
    var t := Next(s, Edit(u, ops));
    assert Plugged(s.users[u].socket, u, s.conns);
    SameSeatsKeepWiring(s, t);
    forall k | k in t.conns ensures LinkAt(t, k) && Fresh(t.conns[k]) {
      assert LinkAt(s, k) && Fresh(s.conns[k]);
      EditKeepsLink(s, u, ops, k);
    }
  }

  lemma AnnounceKeepsInv(s: State, u: UserId)
    requires Inv(s) && Enabled(s, Announce(u))
    ensures Inv(Next(s, Announce(u)))
  {
    if s.users[u].socket.Some? {
      var k := s.users[u].socket.value;
      assert Plugged(s.users[u].socket, u, s.conns);
      assert LinkAt(s, k);
      ReplaceKeepsInv(s, k, s.conns[k].(up := s.conns[k].up + [Other]));
    }
  }

  lemma ConnectKeepsLink(s: State, u: UserId, at: InstanceId, k: ClientId, j: ClientId)
    requires Inv(s) && Enabled(s, Connect(u, at, k)) && j in Next(s, Connect(u, at, k)).conns
    ensures LinkAt(Next(s, Connect(u, at, k)), j)
  {
    var t := Next(s, Connect(u, at, k));
    if j != k {
      assert LinkAt(s, j);
      if s.conns[j].user == u {
        LinkStale(DocAt(s.rooms, s.conns[j].at), s.users[u], j, s.conns[j], t.users[u]);
      }
    }
  }

  lemma ConnectKeepsInv(s: State, u: UserId, at: InstanceId, k: ClientId)
    requires Inv(s) && Enabled(s, Connect(u, at, k))
    ensures Inv(Next(s, Connect(u, at, k)))
  {
    ConnectKeepsWiring(s, u, at, k);
    forall j | j in Next(s, Connect(u, at, k)).conns ensures LinkAt(Next(s, Connect(u, at, k)), j) {
      ConnectKeepsLink(s, u, at, k, j);
    }
  }

  lemma ConnectKeepsWiring(s: State, u: UserId, at: InstanceId, k: ClientId)
    requires Wired(s) && Enabled(s, Connect(u, at, k))
    ensures Wired(Next(s, Connect(u, at, k)))
  {
    var t := Next(s, Connect(u, at, k));
    forall i | i in t.rooms ensures Seats(t.rooms[i].clients, i, t.conns) {
      assert Seats(s.rooms[i].clients, i, s.conns);
    }
    forall v | v in t.users ensures Plugged(t.users[v].socket, v, t.conns) {
      assert v != u ==> Plugged(s.users[v].socket, v, s.conns);
    }
    forall j | j in t.conns ensures Seated(t.rooms, j, t.conns[j]) {
      assert j != k ==> Seated(s.rooms, j, s.conns[j]);
    }
  }

  lemma ServerReadKeepsInv(s: State, k: ClientId)
    requires Inv(s) && Enabled(s, ServerRead(k))
    ensures Inv(Next(s, ServerRead(k)))
  {
    var c := s.conns[k];
    assert LinkAt(s, k);
    assert c.up == [c.up[0]] + c.up[1..];
    if c.stage.Joined? {
      DispatchKeepsInv(s, k, c.up[0], c.(up := c.up[1..]));
    } else {
      var t := Next(s, ServerRead(k));
      if c.stage.Loading? {
        LinkQueues(DocAt(s.rooms, c.at), s.users[c.user], k, c, t.conns[k]);
      } else {
        assert Unread(c) == [c.up[0]] + Unread(t.conns[k]);
        assert forall f :: f in Unread(t.conns[k]) ==> f in Unread(c);
      }
      ReplaceKeepsInv(s, k, t.conns[k]);
    }
  }

  lemma ServerRefuseKeepsInv(s: State, k: ClientId)
    requires Inv(s) && Enabled(s, ServerRefuse(k))
    ensures Inv(Next(s, ServerRefuse(k)))
  {
    var c, t := s.conns[k], Next(s, ServerRefuse(k));
    assert LinkAt(s, k);
    assert forall f :: f in Unread(t.conns[k]) ==> f in Unread(c);
    ReplaceKeepsInv(s, k, t.conns[k]);
  }

  lemma EnterKeepsInv(s: State, k: ClientId)
    requires Inv(s) && Enabled(s, Enter(k))
    ensures Inv(Next(s, Enter(k)))
  {
    var c := s.conns[k];
    var r := s.rooms[c.at];
    var mid := s.conns[k := c.(stage := Draining(c.stage.waiting))];
    var t := Next(s, Enter(k));
    PostOne(mid, k, Step1(r.doc));
    assert LinkAt(s, k);
    assert c.down + [] == c.down;
    LinkEntered(r.doc, s.users[c.user], k, c, t.conns[k]);
    EnterKeepsWiring(s, k, t);
    forall j | j in t.conns ensures LinkAt(t, j) && Fresh(t.conns[j]) {
      if j != k {
        assert Fresh(s.conns[j]);
        EnterKeepsOthers(s, t, k, j);
      }
    }
  }

  lemma EnterKeepsOthers(s: State, t: State, k: ClientId, j: ClientId)
    requires Inv(s) && k in s.conns && s.conns[k].at in s.rooms && j in s.conns && j != k
    requires j in t.conns && t.conns[j] == s.conns[j] && t.users == s.users
    requires t.rooms == s.rooms[s.conns[k].at := Added(s.rooms[s.conns[k].at], k).room]
    ensures LinkAt(t, j)
  {
    assert LinkAt(s, j) && DocAt(t.rooms, s.conns[j].at) == DocAt(s.rooms, s.conns[j].at);
  }

  lemma EnterKeepsWiring(s: State, k: ClientId, t: State)
    requires Wired(s) && k in s.conns && !InRoom(s.conns[k]) && s.conns[k].at in s.rooms
    requires k in t.conns && t.conns == s.conns[k := t.conns[k]] && t.users == s.users
    requires t.conns[k].user == s.conns[k].user && t.conns[k].at == s.conns[k].at && InRoom(t.conns[k])
    requires t.rooms == s.rooms[s.conns[k].at := Added(s.rooms[s.conns[k].at], k).room]
    ensures Wired(t)
  {
    var at := s.conns[k].at;
    assert Seats(s.rooms[at].clients, at, s.conns);
    assert k !in s.rooms[at].clients;
    forall i | i in t.rooms ensures Seats(t.rooms[i].clients, i, t.conns) {
      assert Seats(s.rooms[i].clients, i, s.conns);
    }
    forall j | j in t.conns ensures Seated(t.rooms, j, t.conns[j]) {
      assert Seated(s.rooms, j, s.conns[j]);
    }
    forall u | u in t.users ensures Plugged(t.users[u].socket, u, t.conns) {
      assert Plugged(s.users[u].socket, u, s.conns);
    }
  }

  lemma DrainKeepsInv(s: State, k: ClientId)
    requires Inv(s) && Enabled(s, Drain(k))
    ensures Inv(Next(s, Drain(k)))
  {
    var c := s.conns[k];
    assert LinkAt(s, k);
    if c.stage.rest == [] {
      assert Unread(c.(stage := Joined)) == Unread(c);
      ReplaceKeepsInv(s, k, c.(stage := Joined));
    } else {
      assert c.stage.rest == [c.stage.rest[0]] + c.stage.rest[1..];
      DispatchKeepsInv(s, k, c.stage.rest[0], c.(stage := Draining(c.stage.rest[1..])));
    }
  }

  lemma UserReadKeepsLink(s: State, k: ClientId, j: ClientId)
    requires Enabled(s, UserRead(k)) && LinkAt(s, k) && LinkAt(s, j)
    ensures LinkAt(Next(s, UserRead(k)), j)
  {
    var c, d := s.conns[k], s.conns[j];
    var t := Next(s, UserRead(k));
    if j == k {
      LinkUserReads(DocAt(s.rooms, c.at), s.users[c.user], k, c, t.users[c.user], t.conns[k]);
    } else if d.user == c.user {
      LinkStale(DocAt(s.rooms, d.at), s.users[c.user], j, d, t.users[c.user]);
    }
  }

  lemma UserReadKeepsInv(s: State, k: ClientId)
    requires Inv(s) && Enabled(s, UserRead(k))
    ensures Inv(Next(s, UserRead(k)))
  {
    var t := Next(s, UserRead(k));
    UserReadKeepsWiring(s, k);
    forall j | j in t.conns ensures LinkAt(t, j) && Fresh(t.conns[j]) {
      assert LinkAt(s, k) && LinkAt(s, j) && Fresh(s.conns[j]);
      UserReadKeepsLink(s, k, j);
    }
  }

  lemma UserReadKeepsWiring(s: State, k: ClientId)
    requires Wired(s) && Enabled(s, UserRead(k))
    ensures Wired(Next(s, UserRead(k)))
    ensures Next(s, UserRead(k)).conns.Keys == s.conns.Keys
    ensures forall j :: j in s.conns && Fresh(s.conns[j]) ==> Fresh(Next(s, UserRead(k)).conns[j])
  {
    SameSeatsKeepWiring(s, Next(s, UserRead(k)));
  }

  lemma UserCloseKeepsInv(s: State, u: UserId)
    requires Inv(s) && Enabled(s, UserClose(u))
    ensures Inv(Next(s, UserClose(u)))
  {
    var t := Next(s, UserClose(u));
    SameSeatsKeepWiring(s, t);
    forall j | j in t.conns ensures LinkAt(t, j) {
      assert LinkAt(s, j);
      if s.conns[j].user == u {
        LinkStale(DocAt(s.rooms, s.conns[j].at), s.users[u], j, s.conns[j], t.users[u]);
      }
    }
  }

  lemma LeaveKeepsWiring(s: State, k: ClientId)
    requires Wired(s) && Enabled(s, Leave(k))
    ensures Wired(Next(s, Leave(k)))
  {
    var at, t := s.conns[k].at, Next(s, Leave(k));
    DistinctWithout(s.rooms[at].clients, k);
    forall i | i in t.rooms ensures Seats(t.rooms[i].clients, i, t.conns) {
      assert Seats(s.rooms[i].clients, i, s.conns);
    }
    forall j | j in t.conns ensures Seated(t.rooms, j, t.conns[j]) {
      assert Seated(s.rooms, j, s.conns[j]);
    }
    forall u | u in t.users ensures Plugged(t.users[u].socket, u, t.conns) {
      assert Plugged(s.users[u].socket, u, s.conns);
    }
  }

  lemma LeaveKeepsLink(s: State, k: ClientId, j: ClientId)
    requires Enabled(s, Leave(k)) && LinkAt(s, j)
    ensures LinkAt(Next(s, Leave(k)), j)
  {
    var t := Next(s, Leave(k));
    if j == k {
      assert forall f :: f in Unread(t.conns[k]) ==> f in Unread(s.conns[k]);
    } else {
      assert t.conns[j] == s.conns[j];
    }
  }

  lemma LeaveKeepsInv(s: State, k: ClientId)
    requires Inv(s) && Enabled(s, Leave(k))
    ensures Inv(Next(s, Leave(k)))
  {
    var t := Next(s, Leave(k));
    LeaveKeepsWiring(s, k);
    forall j | j in t.conns ensures LinkAt(t, j) && Fresh(t.conns[j]) {
      assert LinkAt(s, j) && Fresh(s.conns[j]);
      LeaveKeepsLink(s, k, j);
    }
  }

  lemma ReopenKeepsInv(s: State, i: InstanceId, doc: Ops)
    requires Inv(s) && Enabled(s, Reopen(i, doc))
    ensures Inv(Next(s, Reopen(i, doc)))
  {
    var t := Next(s, Reopen(i, doc));
    forall j | j in t.conns ensures LinkAt(t, j) {
      assert LinkAt(s, j);
      assert s.conns[j].at == i ==> !InRoom(s.conns[j]);
    }
  }

  lemma ServerSkipKeepsInv(s: State, k: ClientId)
    requires Inv(s) && Enabled(s, ServerSkip(k))
    ensures Inv(Next(s, ServerSkip(k)))
  {
    var c := s.conns[k];
    var after := c.(up := c.up[1..]);
    assert LinkAt(s, k);
    LinkSkips(DocAt(s.rooms, c.at), s.users[c.user], k, c, after);
    ReplaceKeepsInv(s, k, after);
  }

  lemma DeadLink(doc: Ops, u: User, k: ClientId, c: Conn)
    requires Link(doc, u, k, c)
    ensures Link(doc, u, k, Dead(c))
  {
    assert forall f :: f in Unread(Dead(c)) ==> f in Unread(c);
  }

  lemma CrashKeepsWiring(s: State, i: InstanceId)
    requires Wired(s)
    ensures Wired(Next(s, Crash(i)))
  {
    var t := Next(s, Crash(i));
    forall j | j in t.rooms ensures Seats(t.rooms[j].clients, j, t.conns) {
      assert Seats(s.rooms[j].clients, j, s.conns);
    }
    forall k | k in t.conns ensures Seated(t.rooms, k, t.conns[k]) {
      assert Seated(s.rooms, k, s.conns[k]);
    }
    forall u | u in t.users ensures Plugged(t.users[u].socket, u, t.conns) {
      assert Plugged(s.users[u].socket, u, s.conns);
    }
  }

  lemma CrashKeepsInv(s: State, i: InstanceId)
    requires Inv(s)
    ensures Inv(Next(s, Crash(i)))
  {
    var t := Next(s, Crash(i));
    CrashKeepsWiring(s, i);
    forall k | k in t.conns ensures LinkAt(t, k) && Fresh(t.conns[k]) {
      assert LinkAt(s, k) && Fresh(s.conns[k]);
      if s.conns[k].at == i {
        DeadLink(DocAt(s.rooms, i), s.users[s.conns[k].user], k, s.conns[k]);
      }
    }
  }

  lemma FromBusKeepsInv(s: State, i: InstanceId, message: BusMessage)
    requires Inv(s) && Enabled(s, FromBus(i, message))
    ensures Inv(Next(s, FromBus(i, message)))
  {
    if message.kind.BusUpdate? {
      ApplyKeepsInv(s, i, message.ops, Remote);
    } else {
      assert s.rooms[i := s.rooms[i]] == s.rooms;
    }
  }

  lemma NextKeepsInv(s: State, e: Event)
    requires Inv(s) && Enabled(s, e)
    ensures Inv(Next(s, e))
  {
    match e
    case Edit(u, ops) => EditKeepsInv(s, u, ops);
    case Announce(u) => AnnounceKeepsInv(s, u);
    case Connect(u, at, k) => ConnectKeepsInv(s, u, at, k);
    case ServerRead(k) => ServerReadKeepsInv(s, k);
    case ServerRefuse(k) => ServerRefuseKeepsInv(s, k);
    case Enter(k) => EnterKeepsInv(s, k);
    case Drain(k) => DrainKeepsInv(s, k);
    case UserRead(k) => UserReadKeepsInv(s, k);
    case ServerClose(k) =>
      assert LinkAt(s, k);
      assert Unread(s.conns[k].(open := false)) == Unread(s.conns[k]);
      ReplaceKeepsInv(s, k, s.conns[k].(open := false));
    case UserClose(u) => UserCloseKeepsInv(s, u);
    case Leave(k) => LeaveKeepsInv(s, k);
    case FromBus(i, message) => FromBusKeepsInv(s, i, message);
    case Reopen(i, doc) => ReopenKeepsInv(s, i, doc);
    case ServerSkip(k) => ServerSkipKeepsInv(s, k);
    case Crash(i) => CrashKeepsInv(s, i);
  }

  // ------------------------------------------------------------------ whole runs

  predicate Runs(s: State, es: seq<Event>)
    decreases |es|
  {
    es == [] || (Enabled(s, es[0]) && Runs(Next(s, es[0]), es[1..]))
  }

  function After(s: State, es: seq<Event>): State
    requires Runs(s, es)
    decreases |es|
  {
    if es == [] then s else After(Next(s, es[0]), es[1..])
  }

  lemma {:induction false} RunKeepsInv(s: State, es: seq<Event>)
    requires Inv(s) && Runs(s, es)
    ensures Inv(After(s, es))
    decreases |es|
  {
    if es != [] {
      NextKeepsInv(s, es[0]);
      RunKeepsInv(Next(s, es[0]), es[1..]);
    }
  }

  /** A joined connection whose socket both ends still hold. */
  predicate Connected(s: State, k: ClientId) {
    && k in s.conns && s.conns[k].at in s.rooms && s.conns[k].user in s.users
    && InRoom(s.conns[k]) && Live(s.users[s.conns[k].user], k, s.conns[k])
  }

  /**
   In every reachable state a connected user and its room account for each other:
   what one has, the other has, or a frame in flight carries it, or a step 1 still
   unread will fetch it. The cap on queued frames and earlier sockets lost at any
   moment make no difference.
   */
  lemma NothingGoesMissing(s: State, es: seq<Event>, k: ClientId)
    requires Init(s) && Runs(s, es) && Connected(After(s, es), k)
    ensures var t := After(s, es);
      var c := t.conns[k];
      && DownComplete(t.rooms[c.at].doc, t.users[c.user], c)
      && UpComplete(t.rooms[c.at].doc, t.users[c.user], c)
  {
    RunKeepsInv(s, es);
    assert LinkAt(After(s, es), k);
  }

  /** No frame in flight or in the queue on this connection. */
  predicate Silent(c: Conn) {
    Unread(c) == [] && c.down == []
  }

  /** Session convergence: with nothing in flight the user's document is the room's. */
  lemma SessionConverges(s: State, es: seq<Event>, k: ClientId)
    requires Init(s) && Runs(s, es)
    requires Connected(After(s, es), k) && Silent(After(s, es).conns[k])
    ensures var t := After(s, es);
      t.users[t.conns[k].user].doc == t.rooms[t.conns[k].at].doc
  {
    NothingGoesMissing(s, es, k);
    SilentMeansEqual(After(s, es), k);
  }

  lemma SilentMeansEqual(t: State, k: ClientId)
    requires Connected(t, k) && Silent(t.conns[k])
    requires DownComplete(t.rooms[t.conns[k].at].doc, t.users[t.conns[k].user], t.conns[k])
    requires UpComplete(t.rooms[t.conns[k].at].doc, t.users[t.conns[k].user], t.conns[k])
    ensures t.users[t.conns[k].user].doc == t.rooms[t.conns[k].at].doc
  {
  }

  /** Hence any two silent users of one room hold the same document. */
  lemma PeersConverge(s: State, es: seq<Event>, j: ClientId, k: ClientId)
    requires Init(s) && Runs(s, es)
    requires Connected(After(s, es), j) && Silent(After(s, es).conns[j])
    requires Connected(After(s, es), k) && Silent(After(s, es).conns[k])
    requires After(s, es).conns[j].at == After(s, es).conns[k].at
    ensures var t := After(s, es); t.users[t.conns[j].user].doc == t.users[t.conns[k].user].doc
  {
    SessionConverges(s, es, j);
    SessionConverges(s, es, k);
  }
}
