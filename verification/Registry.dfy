/**
 apps/server/src/rooms/registry.ts with the joining and leaving half of
 apps/server/src/ws/connection.ts: the lifetime of every room of one instance.
 Loads are shared, sockets close while they run, and each await is a point where
 anything else may happen. One step is one stretch between awaits.
 */
module Registry {
  import opened Crdt

  type DocumentId = string
  type ClientId = nat
  type LoadId = nat
  type RoomId = nat

  /** Where Connection.join has got to for a client. */
  datatype Place =
    | Waiting(load: LoadId)
    | Resumed(room: RoomId)
    | Seated(room: RoomId)
    | Refused
    | Departed

  /**
   A client: `open` is its socket's readyState, `hungUp` whether the close event has
   fired, and the counters how often it was added to and removed from a room.
   */
  datatype Guest = Guest(doc: DocumentId, place: Place, open: bool, hungUp: bool, added: nat, removed: nat)

  datatype Phase = Reading | Subscribing(room: RoomId)

  datatype Load = Load(doc: DocumentId, phase: Phase, waiters: seq<ClientId>)

  datatype RoomInfo = RoomInfo(doc: DocumentId, members: set<ClientId>, destroyed: bool)

  /** `rooms` and `opening` are the registry's maps, `listeners` the bus's; the rest is what they point at. */
  datatype State = State(
    rooms: map<DocumentId, RoomId>,
    opening: map<DocumentId, LoadId>,
    listeners: map<DocumentId, RoomId>,
    loads: map<LoadId, Load>,
    made: map<RoomId, RoomInfo>,
    guests: map<ClientId, Guest>)

  datatype Event =
    | Arrive(c: ClientId, doc: DocumentId, load: LoadId)
    | ReadFails(l: LoadId)
    | ReadDone(l: LoadId, r: RoomId)
    | LoadDone(l: LoadId)
    | Continue(c: ClientId)
    | SocketFails(c: ClientId)
    | SocketClosed(c: ClientId)

  predicate Enabled(s: State, e: Event) {
    match e
    case Arrive(c, _, l) => c !in s.guests && l !in s.loads
    case ReadFails(l) => l in s.loads && s.loads[l].phase.Reading?
    case ReadDone(l, r) => l in s.loads && s.loads[l].phase.Reading? && r !in s.made
    case LoadDone(l) => l in s.loads && s.loads[l].phase.Subscribing? && s.loads[l].phase.room in s.made
    case Continue(c) => c in s.guests && s.guests[c].place.Resumed? && s.guests[c].place.room in s.made
    case SocketFails(c) => c in s.guests
    case SocketClosed(c) =>
      c in s.guests && !s.guests[c].hungUp && (s.guests[c].place.Seated? ==> s.guests[c].place.room in s.made)
  }

  function Moved(s: State, c: ClientId, g: Guest): State {
    s.(guests := s.guests[c := g])
  }

  /** room.add(client), with the client's join about to resume. */
  function Seat(s: State, r: RoomId, c: ClientId): State
    requires r in s.made && c in s.guests
  {
    var info := s.made[r];
    Moved(s.(made := s.made[r := info.(members := info.members + {c})]), c,
          s.guests[c].(place := Resumed(r), added := s.guests[c].added + 1))
  }

  /** Every join that awaited one load resumes, in the order they came. */
  function SeatAll(s: State, r: RoomId, waiters: seq<ClientId>): (t: State)
    requires r in s.made && forall c :: c in waiters ==> c in s.guests
    ensures t.made.Keys == s.made.Keys && t.guests.Keys == s.guests.Keys
  {
    if waiters == [] then s else Seat(SeatAll(s, r, waiters[..|waiters| - 1]), r, waiters[|waiters| - 1])
  }

  /** The load rejects: each join closes its socket. */
  function RefuseAll(guests: map<ClientId, Guest>, waiters: seq<ClientId>): (after: map<ClientId, Guest>)
    requires forall c :: c in waiters ==> c in guests
    ensures after.Keys == guests.Keys
  {
    if waiters == [] then guests
    else
      var before := RefuseAll(guests, waiters[..|waiters| - 1]);
      var c := waiters[|waiters| - 1];
      before[c := before[c].(place := Refused, open := false)]
  }

  /** RoomRegistry.leave up to its first await: the last client out takes map entry and listener along. */
  function Leave(s: State, r: RoomId, c: ClientId): State
    requires r in s.made && c in s.guests
  {
    var info := s.made[r].(members := s.made[r].members - {c});
    var gone := Moved(s, c, s.guests[c].(place := Departed, removed := s.guests[c].removed + 1));
    if info.members != {} then gone.(made := s.made[r := info])
    else
      gone.(made := s.made[r := info.(destroyed := true)],
            rooms := s.rooms - {info.doc}, listeners := s.listeners - {info.doc})
  }

  /** One more join awaits a load in flight. */
  function Joined(s: State, c: ClientId, doc: DocumentId): State
    requires doc in s.opening && s.opening[doc] in s.loads
  {
    var l := s.opening[doc];
    Moved(s, c, Guest(doc, Waiting(l), true, false, 0, 0))
      .(loads := s.loads[l := s.loads[l].(waiters := s.loads[l].waiters + [c])])
  }

  /** The registry before the waiting joins resume. */
  function LoadEnded(s: State, l: LoadId): State
    requires l in s.loads && s.loads[l].phase.Subscribing?
  {
    var load := s.loads[l];
    s.(rooms := s.rooms[load.doc := load.phase.room], opening := s.opening - {load.doc}, loads := s.loads - {l})
  }

  predicate WaitersKnown(s: State, l: LoadId) {
    l in s.loads ==> forall c :: c in s.loads[l].waiters ==> c in s.guests
  }

  function Next(s: State, e: Event): State
    requires Enabled(s, e)
    requires forall l :: l in s.loads ==> WaitersKnown(s, l)
    requires forall d :: d in s.rooms ==> s.rooms[d] in s.made
    requires forall d :: d in s.opening ==> s.opening[d] in s.loads
  {
    match e
    case Arrive(c, doc, l) =>
      if doc in s.rooms then
        Seat(Moved(s, c, Guest(doc, Refused, true, false, 0, 0)), s.rooms[doc], c)
      else if doc in s.opening then
        Joined(s, c, doc)
      else
        Moved(s, c, Guest(doc, Waiting(l), true, false, 0, 0))
          .(loads := s.loads[l := Load(doc, Reading, [c])], opening := s.opening[doc := l])
    case ReadFails(l) =>
      assert WaitersKnown(s, l);
      s.(opening := s.opening - {s.loads[l].doc}, loads := s.loads - {l},
         guests := RefuseAll(s.guests, s.loads[l].waiters))
    case ReadDone(l, r) =>
      var doc := s.loads[l].doc;
      s.(made := s.made[r := RoomInfo(doc, {}, false)], listeners := s.listeners[doc := r],
         loads := s.loads[l := s.loads[l].(phase := Subscribing(r))])
    case LoadDone(l) =>
      var load := s.loads[l];
      assert WaitersKnown(s, l);
      SeatAll(LoadEnded(s, l), load.phase.room, load.waiters)
    case Continue(c) =>
      var g := s.guests[c];
      if g.open then Moved(s, c, g.(place := Seated(g.place.room))) else Leave(s, g.place.room, c)
    case SocketFails(c) => Moved(s, c, s.guests[c].(open := false))
    case SocketClosed(c) =>
      var g := s.guests[c].(open := false, hungUp := true);
      if g.place.Seated? then Leave(Moved(s, c, g), g.place.room, c) else Moved(s, c, g)
  }

  // ------------------------------------------------------------- the invariant

  /** A load in progress is the only one for its document, which is not open, and somebody waits for it. */
  ghost predicate LoadOk(s: State, l: LoadId, load: Load) {
    && load.doc in s.opening && s.opening[load.doc] == l && load.doc !in s.rooms
    && load.waiters != [] && Distinct(load.waiters)
    && (forall c :: c in load.waiters ==>
          c in s.guests && s.guests[c].place == Waiting(l) && s.guests[c].doc == load.doc)
    && (load.phase.Subscribing? ==>
          && load.phase.room in s.made && s.made[load.phase.room] == RoomInfo(load.doc, {}, false)
          && load.doc in s.listeners && s.listeners[load.doc] == load.phase.room)
  }

  predicate InRoom(g: Guest, r: RoomId) {
    g.place == Resumed(r) || g.place == Seated(r)
  }

  /** A client is where its join says it is, and has been added and removed accordingly. */
  ghost predicate GuestOk(s: State, c: ClientId, g: Guest) {
    (g.hungUp ==> !g.open) &&
    match g.place
    case Waiting(l) =>
      l in s.loads && c in s.loads[l].waiters && s.loads[l].doc == g.doc && g.added == 0 && g.removed == 0
    case Resumed(r) => r in s.made && c in s.made[r].members && s.made[r].doc == g.doc && g.added == 1 && g.removed == 0
    case Seated(r) =>
      r in s.made && c in s.made[r].members && s.made[r].doc == g.doc && g.added == 1 && g.removed == 0 && !g.hungUp
    case Refused => g.added == 0 && g.removed == 0 && !g.open
    case Departed => g.added == 1 && g.removed == 1 && !g.open
  }

  /** Both the registry and the bus point at this room, and it has a client. */
  ghost predicate InUse(s: State, r: RoomId, info: RoomInfo) {
    && info.doc in s.rooms && s.rooms[info.doc] == r && info.members != {}
    && info.doc in s.listeners && s.listeners[info.doc] == r
  }

  /** Subscribed, not yet in the registry: clients are waiting for its load. */
  ghost predicate BeingOpened(s: State, r: RoomId, info: RoomInfo) {
    && info.doc in s.opening && s.opening[info.doc] in s.loads
    && s.loads[s.opening[info.doc]].phase == Subscribing(r) && info.members == {}
  }

  ghost predicate RoomOk(s: State, r: RoomId, info: RoomInfo) {
    && (forall c :: c in info.members ==> c in s.guests && InRoom(s.guests[c], r))
    && (if info.destroyed then info.members == {} else InUse(s, r, info) || BeingOpened(s, r, info))
  }

  /** The three maps agree on one document. */
  ghost predicate DocOk(s: State, d: DocumentId) {
    && (d in s.rooms ==> s.rooms[d] in s.made && s.made[s.rooms[d]].doc == d && !s.made[s.rooms[d]].destroyed
                         && InUse(s, s.rooms[d], s.made[s.rooms[d]]))
    && (d in s.opening ==> s.opening[d] in s.loads && s.loads[s.opening[d]].doc == d)
    && (d in s.listeners ==>
          s.listeners[d] in s.made && s.made[s.listeners[d]].doc == d && !s.made[s.listeners[d]].destroyed)
  }

  ghost predicate Inv(s: State) {
    && (forall d: DocumentId :: DocOk(s, d))
    && (forall l :: l in s.loads ==> LoadOk(s, l, s.loads[l]))
    && (forall c :: c in s.guests ==> GuestOk(s, c, s.guests[c]))
    && (forall r :: r in s.made ==> RoomOk(s, r, s.made[r]))
  }

  /** What Next asks for follows. */
  lemma InvIsReady(s: State)
    requires Inv(s)
    ensures forall l :: l in s.loads ==> WaitersKnown(s, l)
    ensures forall d :: d in s.rooms ==> s.rooms[d] in s.made
    ensures forall d :: d in s.opening ==> s.opening[d] in s.loads
  {
    forall l | l in s.loads ensures WaitersKnown(s, l) {
      assert LoadOk(s, l, s.loads[l]);
    }
    forall d | d in s.rooms ensures s.rooms[d] in s.made {
      assert DocOk(s, d);
    }
    forall d | d in s.opening ensures s.opening[d] in s.loads {
      assert DocOk(s, d);
    }
  }

  function Step(s: State, e: Event): State
    requires Inv(s) && Enabled(s, e)
  {
    InvIsReady(s);
    Next(s, e)
  }

  function Everyone(cs: seq<ClientId>): set<ClientId> {
    set c | c in cs
  }

  lemma {:induction false} SeatAllRooms(s: State, r: RoomId, waiters: seq<ClientId>)
    requires r in s.made && forall c :: c in waiters ==> c in s.guests
    ensures var t := SeatAll(s, r, waiters);
      && t.rooms == s.rooms && t.opening == s.opening && t.listeners == s.listeners && t.loads == s.loads
      && t.made == s.made[r := s.made[r].(members := s.made[r].members + Everyone(waiters))]
  {
    if waiters == [] {
      assert s.made[r].members + Everyone([]) == s.made[r].members;
    } else {
      var front, last := waiters[..|waiters| - 1], waiters[|waiters| - 1];
      SeatAllRooms(s, r, front);
      assert Everyone(waiters) == Everyone(front) + {last};
      var m := s.made[r].members;
      assert m + Everyone(front) + {last} == m + Everyone(waiters);
    }
  }

  lemma {:induction false} SeatAllGuests(s: State, r: RoomId, waiters: seq<ClientId>)
    requires r in s.made && Distinct(waiters) && forall c :: c in waiters ==> c in s.guests
    ensures var t := SeatAll(s, r, waiters);
      forall c :: c in s.guests ==>
        t.guests[c]
        == if c in waiters then s.guests[c].(place := Resumed(r), added := s.guests[c].added + 1) else s.guests[c]
  {
    if waiters != [] {
      var front, last := waiters[..|waiters| - 1], waiters[|waiters| - 1];
      SeatAllGuests(s, r, front);
      assert last !in front;
      assert forall c :: c in waiters <==> c in front || c == last;
    }
  }

  lemma {:induction false} RefuseAllEffect(guests: map<ClientId, Guest>, waiters: seq<ClientId>)
    requires Distinct(waiters) && forall c :: c in waiters ==> c in guests
    ensures forall c :: c in guests ==>
      RefuseAll(guests, waiters)[c] == if c in waiters then guests[c].(place := Refused, open := false) else guests[c]
  {
    if waiters != [] {
      var front, last := waiters[..|waiters| - 1], waiters[|waiters| - 1];
      RefuseAllEffect(guests, front);
      assert last !in front;
      assert forall c :: c in waiters <==> c in front || c == last;
    }
  }

  // ------------------------------------------------------ what stays untouched

  /** The three maps hold the same for one document. */
  predicate SameSlots(s: State, t: State, d: DocumentId) {
    && (d in s.rooms <==> d in t.rooms) && (d in s.rooms ==> t.rooms[d] == s.rooms[d])
    && (d in s.opening <==> d in t.opening) && (d in s.opening ==> t.opening[d] == s.opening[d])
    && (d in s.listeners <==> d in t.listeners) && (d in s.listeners ==> t.listeners[d] == s.listeners[d])
  }

  predicate SamePlace(s: State, t: State, c: ClientId) {
    c in s.guests && c in t.guests && t.guests[c].place == s.guests[c].place && t.guests[c].doc == s.guests[c].doc
  }

  lemma LoadUntouched(s: State, t: State, l: LoadId, load: Load)
    requires LoadOk(s, l, load) && SameSlots(s, t, load.doc)
    requires forall c :: c in load.waiters ==> SamePlace(s, t, c)
    requires load.phase.Subscribing? ==>
      load.phase.room in s.made && load.phase.room in t.made && t.made[load.phase.room] == s.made[load.phase.room]
    ensures LoadOk(t, l, load)
  {
  }

  lemma GuestUntouched(s: State, t: State, c: ClientId, g: Guest)
    requires GuestOk(s, c, g)
    requires g.place.Waiting? && g.place.load in s.loads && c in s.loads[g.place.load].waiters ==>
      && g.place.load in t.loads && c in t.loads[g.place.load].waiters
      && t.loads[g.place.load].doc == s.loads[g.place.load].doc
    requires (g.place.Resumed? || g.place.Seated?) && g.place.room in s.made ==>
      && g.place.room in t.made && t.made[g.place.room].doc == s.made[g.place.room].doc
      && (c in s.made[g.place.room].members ==> c in t.made[g.place.room].members)
    ensures GuestOk(t, c, g)
  {
  }

  lemma RoomUntouched(s: State, t: State, r: RoomId, info: RoomInfo)
    requires RoomOk(s, r, info) && SameSlots(s, t, info.doc)
    requires forall c :: c in info.members && c in s.guests ==> SamePlace(s, t, c)
    requires info.doc in s.opening && s.opening[info.doc] in s.loads ==>
      s.opening[info.doc] in t.loads && t.loads[s.opening[info.doc]].phase == s.loads[s.opening[info.doc]].phase
    ensures RoomOk(t, r, info)
  {
  }

  lemma DocUntouched(s: State, t: State, d: DocumentId)
    requires DocOk(s, d) && SameSlots(s, t, d)
    requires d in s.rooms && s.rooms[d] in s.made ==> s.rooms[d] in t.made && t.made[s.rooms[d]] == s.made[s.rooms[d]]
    requires d in s.opening && s.opening[d] in s.loads ==>
      s.opening[d] in t.loads && t.loads[s.opening[d]].doc == s.loads[s.opening[d]].doc
    requires d in s.listeners && s.listeners[d] in s.made ==>
      s.listeners[d] in t.made && t.made[s.listeners[d]] == s.made[s.listeners[d]]
    ensures DocOk(t, d)
  {
  }

  /**
   From s to t only one document is concerned: its slots, and of the loads, rooms
   and clients at most those named, all of which are its own.
   */
  ghost predicate Confined(
    s: State, t: State, doc: DocumentId, l: Option<LoadId>, r: Option<RoomId>, movers: set<ClientId>)
  {
    && (forall d :: d != doc ==> SameSlots(s, t, d))
    && (forall m :: Some(m) != l ==> (m in s.loads <==> m in t.loads) && (m in s.loads ==> t.loads[m] == s.loads[m]))
    && (forall q :: Some(q) != r ==> (q in s.made <==> q in t.made) && (q in s.made ==> t.made[q] == s.made[q]))
    && (forall c :: c !in movers ==>
          (c in s.guests <==> c in t.guests) && (c in s.guests ==> t.guests[c] == s.guests[c]))
    && (l.Some? ==>
          (l.value in s.loads ==> s.loads[l.value].doc == doc) && (l.value in t.loads ==> t.loads[l.value].doc == doc))
    && (r.Some? ==>
          (r.value in s.made ==> s.made[r.value].doc == doc) && (r.value in t.made ==> t.made[r.value].doc == doc))
    && (forall c :: c in movers ==>
          (c in s.guests ==> s.guests[c].doc == doc) && (c in t.guests ==> t.guests[c].doc == doc))
  }

  lemma ElsewhereLoad(
    s: State, t: State, doc: DocumentId, l: Option<LoadId>, r: Option<RoomId>, movers: set<ClientId>, m: LoadId)
    requires Confined(s, t, doc, l, r, movers) && m in t.loads && t.loads[m].doc != doc
    requires m in s.loads ==> LoadOk(s, m, s.loads[m])
    ensures LoadOk(t, m, t.loads[m])
  {
    assert Some(m) != l;
    var load := s.loads[m];
    forall c | c in load.waiters ensures SamePlace(s, t, c) {
      assert c !in movers;
    }
    if load.phase.Subscribing? {
      assert Some(load.phase.room) != r;
    }
    LoadUntouched(s, t, m, load);
  }

  lemma ElsewhereGuest(
    s: State, t: State, doc: DocumentId, l: Option<LoadId>, r: Option<RoomId>, movers: set<ClientId>, c: ClientId)
    requires Confined(s, t, doc, l, r, movers) && c in t.guests && t.guests[c].doc != doc
    requires c in s.guests ==> GuestOk(s, c, s.guests[c])
    ensures GuestOk(t, c, t.guests[c])
  {
    assert c !in movers;
    var g := s.guests[c];
    if g.place.Waiting? {
      assert Some(g.place.load) != l;
    }
    if g.place.Resumed? || g.place.Seated? {
      assert Some(g.place.room) != r;
    }
    GuestUntouched(s, t, c, g);
  }

  lemma ElsewhereRoom(
    s: State, t: State, doc: DocumentId, l: Option<LoadId>, r: Option<RoomId>, movers: set<ClientId>, q: RoomId)
    requires Confined(s, t, doc, l, r, movers) && q in t.made && t.made[q].doc != doc
    requires q in s.made ==> RoomOk(s, q, s.made[q]) && DocOk(s, s.made[q].doc)
    requires forall c :: c in s.guests ==> GuestOk(s, c, s.guests[c])
    ensures RoomOk(t, q, t.made[q])
  {
    assert Some(q) != r;
    var info := s.made[q];
    forall c | c in info.members && c in s.guests ensures SamePlace(s, t, c) {
      assert GuestOk(s, c, s.guests[c]);
      assert c !in movers;
    }
    if info.doc in s.opening {
      assert Some(s.opening[info.doc]) != l;
    }
    RoomUntouched(s, t, q, info);
  }

  lemma ElsewhereDoc(
    s: State, t: State, doc: DocumentId, l: Option<LoadId>, r: Option<RoomId>, movers: set<ClientId>, d: DocumentId)
    requires Confined(s, t, doc, l, r, movers) && d != doc && DocOk(s, d)
    ensures DocOk(t, d)
  {
    if d in s.rooms {
      assert Some(s.rooms[d]) != r;
    }
    if d in s.opening {
      assert Some(s.opening[d]) != l;
    }
    if d in s.listeners {
      assert Some(s.listeners[d]) != r;
    }
    DocUntouched(s, t, d);
  }

  /** The invariant at one document. */
  ghost predicate InvAt(t: State, doc: DocumentId) {
    && DocOk(t, doc)
    && (forall m :: m in t.loads && t.loads[m].doc == doc ==> LoadOk(t, m, t.loads[m]))
    && (forall q :: q in t.made && t.made[q].doc == doc ==> RoomOk(t, q, t.made[q]))
    && (forall c :: c in t.guests && t.guests[c].doc == doc ==> GuestOk(t, c, t.guests[c]))
  }

  /** A change confined to one document need only be checked there. */
  lemma ConfinedKeepsInv(
    s: State, t: State, doc: DocumentId, l: Option<LoadId>, r: Option<RoomId>, movers: set<ClientId>)
    requires Inv(s) && Confined(s, t, doc, l, r, movers) && InvAt(t, doc)
    ensures Inv(t)
  {
    forall d: DocumentId | d != doc ensures DocOk(t, d) {
      assert DocOk(s, d);
      ElsewhereDoc(s, t, doc, l, r, movers, d);
    }
    forall m | m in t.loads && t.loads[m].doc != doc ensures LoadOk(t, m, t.loads[m]) {
      ElsewhereLoad(s, t, doc, l, r, movers, m);
    }
    forall q | q in t.made && t.made[q].doc != doc ensures RoomOk(t, q, t.made[q]) {
      ElsewhereRoom(s, t, doc, l, r, movers, q);
    }
    forall c | c in t.guests && t.guests[c].doc != doc ensures GuestOk(t, c, t.guests[c]) {
      ElsewhereGuest(s, t, doc, l, r, movers, c);
    }
  }

  // ------------------------------------------------------------- every event

  /** What the invariant of s says about one document. */
  lemma OnlyLoad(s: State, doc: DocumentId, l: LoadId)
    requires Inv(s) && l in s.loads && s.loads[l].doc == doc
    ensures LoadOk(s, l, s.loads[l]) && DocOk(s, doc)
    ensures forall m :: m in s.loads && s.loads[m].doc == doc ==> m == l
  {
    forall m | m in s.loads && s.loads[m].doc == doc ensures m == l {
      assert LoadOk(s, m, s.loads[m]) && LoadOk(s, l, s.loads[l]);
    }
  }

  lemma NoLoadWhileOpen(s: State, doc: DocumentId)
    requires Inv(s) && doc in s.rooms
    ensures DocOk(s, doc) && forall m :: m in s.loads ==> s.loads[m].doc != doc
  {
    assert DocOk(s, doc);
    forall m | m in s.loads ensures s.loads[m].doc != doc {
      assert LoadOk(s, m, s.loads[m]);
    }
  }

  /** Beside a live room of a document there are only closed ones. */
  lemma OnlyRoom(s: State, doc: DocumentId, r: RoomId)
    requires Inv(s) && r in s.made && s.made[r].doc == doc && !s.made[r].destroyed
    ensures RoomOk(s, r, s.made[r])
    ensures forall q :: q in s.made && s.made[q].doc == doc && q != r ==> s.made[q].destroyed && s.made[q].members == {}
  {
    assert RoomOk(s, r, s.made[r]);
    if doc in s.rooms {
      NoLoadWhileOpen(s, doc);
      assert DocOk(s, doc);
    }
    forall q | q in s.made && s.made[q].doc == doc && q != r ensures s.made[q].destroyed && s.made[q].members == {} {
      assert RoomOk(s, q, s.made[q]);
    }
  }

  lemma NoRoomWhileReading(s: State, l: LoadId)
    requires Inv(s) && l in s.loads && s.loads[l].phase.Reading?
    ensures forall q :: q in s.made && s.made[q].doc == s.loads[l].doc ==>
      s.made[q].destroyed && s.made[q].members == {}
  {
    assert LoadOk(s, l, s.loads[l]);
    forall q | q in s.made && s.made[q].doc == s.loads[l].doc ensures s.made[q].destroyed && s.made[q].members == {} {
      assert RoomOk(s, q, s.made[q]);
    }
  }

  lemma SeatAtDoc(s: State, t: State, c: ClientId, doc: DocumentId)
    requires Inv(s) && c !in s.guests && doc in s.rooms && s.rooms[doc] in s.made
    requires t == Seat(Moved(s, c, Guest(doc, Refused, true, false, 0, 0)), s.rooms[doc], c)
    ensures InvAt(t, doc)
  {
    var r := s.rooms[doc];
    NoLoadWhileOpen(s, doc);
    OnlyRoom(s, doc, r);
    assert RoomOk(t, r, t.made[r]);
    forall d | d in t.guests && t.guests[d].doc == doc ensures GuestOk(t, d, t.guests[d]) {
      if d != c {
        assert GuestOk(s, d, s.guests[d]);
        GuestUntouched(s, t, d, s.guests[d]);
      }
    }
  }

  lemma SeatKeepsInv(s: State, c: ClientId, doc: DocumentId)
    requires Inv(s) && c !in s.guests && doc in s.rooms && s.rooms[doc] in s.made
    ensures Inv(Seat(Moved(s, c, Guest(doc, Refused, true, false, 0, 0)), s.rooms[doc], c))
  {
    var t := Seat(Moved(s, c, Guest(doc, Refused, true, false, 0, 0)), s.rooms[doc], c);
    SeatAtDoc(s, t, c, doc);
    assert DocOk(s, doc);
    ConfinedKeepsInv(s, t, doc, None, Some(s.rooms[doc]), {c});
  }

  lemma WaitAtDoc(s: State, t: State, c: ClientId, doc: DocumentId)
    requires Inv(s) && c !in s.guests && doc !in s.rooms && doc in s.opening && s.opening[doc] in s.loads
    requires t == Joined(s, c, doc)
    ensures InvAt(t, doc)
  {
    var l := s.opening[doc];
    assert DocOk(s, doc);
    OnlyLoad(s, doc, l);
    assert c !in s.loads[l].waiters;
    assert LoadOk(t, l, t.loads[l]);
    forall q | q in t.made && t.made[q].doc == doc ensures RoomOk(t, q, t.made[q]) {
      assert RoomOk(s, q, s.made[q]);
      RoomUntouched(s, t, q, s.made[q]);
    }
    forall d | d in t.guests && t.guests[d].doc == doc ensures GuestOk(t, d, t.guests[d]) {
      if d != c {
        assert GuestOk(s, d, s.guests[d]);
        GuestUntouched(s, t, d, s.guests[d]);
      }
    }
  }

  lemma WaitKeepsInv(s: State, c: ClientId, doc: DocumentId)
    requires Inv(s) && c !in s.guests && doc !in s.rooms && doc in s.opening && s.opening[doc] in s.loads
    ensures Inv(Joined(s, c, doc))
  {
    var t := Joined(s, c, doc);
    WaitAtDoc(s, t, c, doc);
    assert DocOk(s, doc);
    ConfinedKeepsInv(s, t, doc, Some(s.opening[doc]), None, {c});
  }

  /** A room of a document that is not open yet stays closed when a load begins. */
  lemma ClosedRoomUntouched(s: State, t: State, q: RoomId)
    requires Inv(s) && q in s.made && s.made[q].doc !in s.rooms && s.made[q].doc !in s.opening
    requires q in t.made && t.made[q] == s.made[q]
    ensures RoomOk(t, q, t.made[q])
  {
    assert RoomOk(s, q, s.made[q]);
  }

  lemma OpenKeepsInv(s: State, c: ClientId, doc: DocumentId, l: LoadId)
    requires Inv(s) && c !in s.guests && l !in s.loads && doc !in s.rooms && doc !in s.opening
    ensures Inv(Moved(s, c, Guest(doc, Waiting(l), true, false, 0, 0))
                  .(loads := s.loads[l := Load(doc, Reading, [c])], opening := s.opening[doc := l]))
  {
    var t := Moved(s, c, Guest(doc, Waiting(l), true, false, 0, 0))
               .(loads := s.loads[l := Load(doc, Reading, [c])], opening := s.opening[doc := l]);
    OpenAtDoc(s, t, c, doc, l);
    ConfinedKeepsInv(s, t, doc, Some(l), None, {c});
  }

  lemma OpenAtDoc(s: State, t: State, c: ClientId, doc: DocumentId, l: LoadId)
    requires Inv(s) && c !in s.guests && l !in s.loads && doc !in s.rooms && doc !in s.opening
    requires t == Moved(s, c, Guest(doc, Waiting(l), true, false, 0, 0))
                    .(loads := s.loads[l := Load(doc, Reading, [c])], opening := s.opening[doc := l])
    ensures InvAt(t, doc)
  {
    assert DocOk(s, doc);
    forall m | m in t.loads && t.loads[m].doc == doc ensures LoadOk(t, m, t.loads[m]) {
      assert m != l ==> LoadOk(s, m, s.loads[m]);
    }
    forall q | q in t.made && t.made[q].doc == doc ensures RoomOk(t, q, t.made[q]) {
      ClosedRoomUntouched(s, t, q);
    }
    forall d | d in t.guests && t.guests[d].doc == doc ensures GuestOk(t, d, t.guests[d]) {
      if d != c {
        assert GuestOk(s, d, s.guests[d]);
        GuestUntouched(s, t, d, s.guests[d]);
      }
    }
  }

  lemma ReadFailsAtDoc(s: State, t: State, l: LoadId)
    requires Inv(s) && Enabled(s, ReadFails(l)) && t == Step(s, ReadFails(l))
    ensures InvAt(t, s.loads[l].doc)
  {
    var doc, waiters := s.loads[l].doc, s.loads[l].waiters;
    OnlyLoad(s, doc, l);
    NoRoomWhileReading(s, l);
    RefuseAllEffect(s.guests, waiters);
    forall q | q in t.made && t.made[q].doc == doc ensures RoomOk(t, q, t.made[q]) {
      assert q in s.made;
    }
    forall d | d in t.guests && t.guests[d].doc == doc ensures GuestOk(t, d, t.guests[d]) {
      assert GuestOk(s, d, s.guests[d]);
      if d !in waiters {
        GuestUntouched(s, t, d, s.guests[d]);
      }
    }
  }

  lemma ReadFailsKeepsInv(s: State, l: LoadId)
    requires Inv(s) && Enabled(s, ReadFails(l))
    ensures Inv(Step(s, ReadFails(l)))
  {
    var t := Step(s, ReadFails(l));
    ReadFailsAtDoc(s, t, l);
    ReadFailsConfined(s, t, l);
    ConfinedKeepsInv(s, t, s.loads[l].doc, Some(l), None, Everyone(s.loads[l].waiters));
  }

  lemma ReadFailsConfined(s: State, t: State, l: LoadId)
    requires Inv(s) && Enabled(s, ReadFails(l)) && t == Step(s, ReadFails(l))
    ensures Confined(s, t, s.loads[l].doc, Some(l), None, Everyone(s.loads[l].waiters))
  {
    assert LoadOk(s, l, s.loads[l]);
    RefuseAllEffect(s.guests, s.loads[l].waiters);
  }

  lemma ReadDoneAtDoc(s: State, t: State, l: LoadId, r: RoomId)
    requires Inv(s) && Enabled(s, ReadDone(l, r)) && t == Step(s, ReadDone(l, r))
    ensures InvAt(t, s.loads[l].doc)
  {
    var doc := s.loads[l].doc;
    OnlyLoad(s, doc, l);
    NoRoomWhileReading(s, l);
    assert RoomOk(t, r, t.made[r]) && LoadOk(t, l, t.loads[l]) && DocOk(t, doc);
    forall d | d in t.guests && t.guests[d].doc == doc ensures GuestOk(t, d, t.guests[d]) {
      assert GuestOk(s, d, s.guests[d]);
      GuestUntouched(s, t, d, s.guests[d]);
    }
  }

  lemma ReadDoneKeepsInv(s: State, l: LoadId, r: RoomId)
    requires Inv(s) && Enabled(s, ReadDone(l, r))
    ensures Inv(Step(s, ReadDone(l, r)))
  {
    var t := Step(s, ReadDone(l, r));
    ReadDoneAtDoc(s, t, l, r);
    ConfinedKeepsInv(s, t, s.loads[l].doc, Some(l), Some(r), {});
  }

  /** The registry after a load is done, spelt out. */
  ghost predicate LoadFinished(s: State, t: State, l: LoadId) {
    && l in s.loads && s.loads[l].phase.Subscribing? && s.loads[l].phase.room in s.made
    && var (doc, r, waiters) := (s.loads[l].doc, s.loads[l].phase.room, s.loads[l].waiters);
    && t.rooms == s.rooms[doc := r] && t.opening == s.opening - {doc} && t.listeners == s.listeners
    && t.loads == s.loads - {l} && t.made == s.made[r := s.made[r].(members := Everyone(waiters))]
    && t.guests.Keys == s.guests.Keys
    && forall c :: c in s.guests ==>
      t.guests[c]
      == if c in waiters then s.guests[c].(place := Resumed(r), added := s.guests[c].added + 1) else s.guests[c]
  }

  lemma LoadDoneEffect(s: State, l: LoadId)
    requires Inv(s) && Enabled(s, LoadDone(l))
    ensures LoadFinished(s, Step(s, LoadDone(l)), l)
  {
    var load := s.loads[l];
    assert LoadOk(s, l, load);
    var mid := LoadEnded(s, l);
    SeatAllRooms(mid, load.phase.room, load.waiters);
    SeatAllGuests(mid, load.phase.room, load.waiters);
    assert {} + Everyone(load.waiters) == Everyone(load.waiters);
  }

  lemma LoadedRoom(s: State, t: State, l: LoadId)
    requires Inv(s) && LoadFinished(s, t, l)
    ensures RoomOk(t, s.loads[l].phase.room, t.made[s.loads[l].phase.room]) && DocOk(t, s.loads[l].doc)
  {
    var doc, r, waiters := s.loads[l].doc, s.loads[l].phase.room, s.loads[l].waiters;
    OnlyLoad(s, doc, l);
    assert waiters[0] in t.made[r].members;
  }

  lemma LoadDoneAtDoc(s: State, t: State, l: LoadId)
    requires Inv(s) && LoadFinished(s, t, l)
    ensures InvAt(t, s.loads[l].doc)
  {
    var doc, r, waiters := s.loads[l].doc, s.loads[l].phase.room, s.loads[l].waiters;
    OnlyLoad(s, doc, l);
    OnlyRoom(s, doc, r);
    LoadedRoom(s, t, l);
    forall d | d in t.guests && t.guests[d].doc == doc ensures GuestOk(t, d, t.guests[d]) {
      assert GuestOk(s, d, s.guests[d]);
      if d !in waiters {
        GuestUntouched(s, t, d, s.guests[d]);
      }
    }
  }

  lemma LoadDoneConfined(s: State, t: State, l: LoadId)
    requires Inv(s) && LoadFinished(s, t, l)
    ensures Confined(s, t, s.loads[l].doc, Some(l), Some(s.loads[l].phase.room), Everyone(s.loads[l].waiters))
  {
    assert LoadOk(s, l, s.loads[l]);
  }

  lemma LoadDoneKeepsInv(s: State, l: LoadId)
    requires Inv(s) && Enabled(s, LoadDone(l))
    ensures Inv(Step(s, LoadDone(l)))
  {
    var t := Step(s, LoadDone(l));
    LoadDoneEffect(s, l);
    LoadDoneAtDoc(s, t, l);
    LoadDoneConfined(s, t, l);
    ConfinedKeepsInv(s, t, s.loads[l].doc, Some(l), Some(s.loads[l].phase.room), Everyone(s.loads[l].waiters));
  }

  lemma LoadDoneStep(s: State, l: LoadId)
    requires Inv(s) && Enabled(s, LoadDone(l))
    ensures forall c :: c in s.loads[l].waiters ==> c in s.guests
    ensures Step(s, LoadDone(l)) == SeatAll(LoadEnded(s, l), s.loads[l].phase.room, s.loads[l].waiters)
    ensures Inv(Step(s, LoadDone(l)))
  {
    InvIsReady(s);
    assert WaitersKnown(s, l);
    LoadDoneKeepsInv(s, l);
  }

  /** The room a client has just left, and the slots that named it. */
  lemma LeftRoom(s: State, t: State, r: RoomId, c: ClientId, open: bool, hungUp: bool)
    requires Inv(s) && r in s.made && c in s.guests && InRoom(s.guests[c], r)
    requires t == Leave(Moved(s, c, s.guests[c].(open := open, hungUp := hungUp)), r, c)
    ensures RoomOk(t, r, t.made[r]) && DocOk(t, s.made[r].doc)
  {
    var doc := s.made[r].doc;
    assert GuestOk(s, c, s.guests[c]) && RoomOk(s, r, s.made[r]) && DocOk(s, doc);
    assert t.made[r].members == s.made[r].members - {c};
  }

  lemma LeaveAtDoc(s: State, r: RoomId, c: ClientId, open: bool, hungUp: bool)
    requires Inv(s) && r in s.made && c in s.guests && InRoom(s.guests[c], r) && !open
    ensures InvAt(Leave(Moved(s, c, s.guests[c].(open := open, hungUp := hungUp)), r, c), s.made[r].doc)
  {
    var doc := s.made[r].doc;
    var t := Leave(Moved(s, c, s.guests[c].(open := open, hungUp := hungUp)), r, c);
    assert GuestOk(s, c, s.guests[c]) && RoomOk(s, r, s.made[r]);
    NoLoadWhileOpen(s, doc);
    OnlyRoom(s, doc, r);
    LeftRoom(s, t, r, c, open, hungUp);
    forall q | q in t.made && t.made[q].doc == doc ensures RoomOk(t, q, t.made[q]) {
      assert q != r ==> t.made[q] == s.made[q];
    }
    forall d | d in t.guests && t.guests[d].doc == doc ensures GuestOk(t, d, t.guests[d]) {
      assert GuestOk(s, d, s.guests[d]);
      if d != c {
        GuestUntouched(s, t, d, s.guests[d]);
      }
    }
  }

  /** A client of a room leaves it; its socket may be closing at the same moment. */
  lemma LeaveKeepsInv(s: State, r: RoomId, c: ClientId, open: bool, hungUp: bool)
    requires Inv(s) && r in s.made && c in s.guests && InRoom(s.guests[c], r) && !open
    ensures Inv(Leave(Moved(s, c, s.guests[c].(open := open, hungUp := hungUp)), r, c))
  {
    var t := Leave(Moved(s, c, s.guests[c].(open := open, hungUp := hungUp)), r, c);
    LeaveAtDoc(s, r, c, open, hungUp);
    assert GuestOk(s, c, s.guests[c]);
    LeaveConfined(s, r, c, open, hungUp);
    ConfinedKeepsInv(s, t, s.made[r].doc, None, Some(r), {c});
  }

  lemma LeaveConfined(s: State, r: RoomId, c: ClientId, open: bool, hungUp: bool)
    requires r in s.made && c in s.guests && s.guests[c].doc == s.made[r].doc
    ensures var t := Leave(Moved(s, c, s.guests[c].(open := open, hungUp := hungUp)), r, c);
      Confined(s, t, s.made[r].doc, None, Some(r), {c})
  {
  }

  /** A client changes without leaving its room or its load. */
  ghost predicate Stays(s: State, c: ClientId, g: Guest) {
    && c in s.guests && g.doc == s.guests[c].doc
    && (g.place == s.guests[c].place || (s.guests[c].place.Resumed? && g.place == Seated(s.guests[c].place.room)))
    && g.added == s.guests[c].added && g.removed == s.guests[c].removed
    && (g.hungUp ==> !g.open) && (g.place.Seated? ==> !g.hungUp) && (g.open ==> s.guests[c].open)
  }

  lemma StayingLoad(s: State, c: ClientId, g: Guest, m: LoadId)
    requires Inv(s) && Stays(s, c, g) && m in s.loads
    ensures LoadOk(Moved(s, c, g), m, s.loads[m])
  {
    assert LoadOk(s, m, s.loads[m]);
    LoadUntouched(s, Moved(s, c, g), m, s.loads[m]);
  }

  lemma StayingRoom(s: State, c: ClientId, g: Guest, q: RoomId)
    requires Inv(s) && Stays(s, c, g) && q in s.made
    ensures RoomOk(Moved(s, c, g), q, s.made[q])
  {
    var t := Moved(s, c, g);
    assert RoomOk(s, q, s.made[q]);
    assert forall d :: d in s.made[q].members ==> d in t.guests && InRoom(t.guests[d], q);
    assert InUse(s, q, s.made[q]) ==> InUse(t, q, s.made[q]);
    assert BeingOpened(s, q, s.made[q]) ==> BeingOpened(t, q, s.made[q]);
  }

  lemma StayingGuest(s: State, c: ClientId, g: Guest, d: ClientId)
    requires Inv(s) && Stays(s, c, g) && d in s.guests
    ensures GuestOk(Moved(s, c, g), d, Moved(s, c, g).guests[d])
  {
    assert GuestOk(s, d, s.guests[d]);
    if d != c {
      GuestUntouched(s, Moved(s, c, g), d, s.guests[d]);
    }
  }

  lemma StayingKeepsInv(s: State, c: ClientId, g: Guest)
    requires Inv(s) && Stays(s, c, g)
    ensures Inv(Moved(s, c, g))
  {
    var t := Moved(s, c, g);
    forall d: DocumentId ensures DocOk(t, d) {
      assert DocOk(s, d);
      DocUntouched(s, t, d);
    }
    forall m | m in t.loads ensures LoadOk(t, m, t.loads[m]) {
      StayingLoad(s, c, g, m);
    }
    forall q | q in t.made ensures RoomOk(t, q, t.made[q]) {
      StayingRoom(s, c, g, q);
    }
    forall d | d in t.guests ensures GuestOk(t, d, t.guests[d]) {
      StayingGuest(s, c, g, d);
    }
  }

  lemma StepKeepsInv(s: State, e: Event)
    requires Inv(s) && Enabled(s, e)
    ensures Inv(Step(s, e))
  {
    InvIsReady(s);
    match e
    case Arrive(c, doc, l) =>
      if doc in s.rooms {
        SeatKeepsInv(s, c, doc);
      } else if doc in s.opening {
        WaitKeepsInv(s, c, doc);
      } else {
        OpenKeepsInv(s, c, doc, l);
      }
    case ReadFails(l) => ReadFailsKeepsInv(s, l);
    case ReadDone(l, r) => ReadDoneKeepsInv(s, l, r);
    case LoadDone(l) => LoadDoneKeepsInv(s, l);
    case Continue(c) =>
      var g := s.guests[c];
      assert GuestOk(s, c, g);
      if g.open {
        StayingKeepsInv(s, c, g.(place := Seated(g.place.room)));
      } else {
        LeaveKeepsInv(s, g.place.room, c, g.open, g.hungUp);
        assert Moved(s, c, g.(open := g.open, hungUp := g.hungUp)) == s;
      }
    case SocketFails(c) =>
      assert GuestOk(s, c, s.guests[c]);
      StayingKeepsInv(s, c, s.guests[c].(open := false));
    case SocketClosed(c) =>
      var g := s.guests[c];
      assert GuestOk(s, c, g);
      if g.place.Seated? {
        LeaveKeepsInv(s, g.place.room, c, false, true);
      } else {
        StayingKeepsInv(s, c, g.(open := false, hungUp := true));
      }
  }

  // ------------------------------------------------------------------ whole runs

  ghost predicate Runs(s: State, es: seq<Event>)
    requires Inv(s)
    decreases |es|
  {
    es == [] || (Enabled(s, es[0]) && (StepKeepsInv(s, es[0]); Runs(Step(s, es[0]), es[1..])))
  }

  ghost function After(s: State, es: seq<Event>): (t: State)
    requires Inv(s) && Runs(s, es)
    ensures Inv(t)
    decreases |es|
  {
    if es == [] then s else StepKeepsInv(s, es[0]); After(Step(s, es[0]), es[1..])
  }

  function Empty(): State {
    State(map[], map[], map[], map[], map[], map[])
  }

  lemma EmptyHasInv()
    ensures Inv(Empty())
  {
  }

  /** A room that is not closed is in use or being opened. */
  predicate Live(s: State, r: RoomId) {
    r in s.made && !s.made[r].destroyed
  }

  /**
   One load and one live room per document at most, never a load beside an open
   room; a room with a client is the one the registry and the bus listener point
   at; a room in the registry has a client; and each client has been added and
   removed as its socket's life demands, whether or not it closed during the load.
   */
  ghost predicate Lifetimes(s: State) {
    && (forall l, m :: l in s.loads && m in s.loads && s.loads[l].doc == s.loads[m].doc ==> l == m)
    && (forall q, r :: Live(s, q) && Live(s, r) && s.made[q].doc == s.made[r].doc ==> q == r)
    && (forall d :: d in s.rooms ==> d !in s.opening)
    && (forall r :: r in s.made && s.made[r].members != {} ==> InUse(s, r, s.made[r]) && Live(s, r))
    && (forall d :: d in s.rooms ==> s.rooms[d] in s.made && s.made[s.rooms[d]].members != {})
    && (forall c :: c in s.guests ==> s.guests[c].removed <= s.guests[c].added <= 1)
    && (forall c ::
          c in s.guests && s.guests[c].hungUp && !s.guests[c].place.Waiting? && !s.guests[c].place.Resumed? ==>
          s.guests[c].removed == s.guests[c].added)
    && (forall c :: c in s.guests && s.guests[c].removed > 0 ==> !s.guests[c].open)
    && (forall c :: c in s.guests && s.guests[c].open ==> Served(s, c, s.guests[c]))
  }

  /** The client waits for the load of its document, or is in the room registered for it. */
  ghost predicate Served(s: State, c: ClientId, g: Guest) {
    || (g.place.Waiting? && g.place.load in s.loads && s.loads[g.place.load].doc == g.doc
        && c in s.loads[g.place.load].waiters)
    || (g.doc in s.rooms && s.rooms[g.doc] in s.made && c in s.made[s.rooms[g.doc]].members)
  }

  /** Room lifetime, for every interleaving of joins, loads, failures, socket closes and leaves. */
  lemma RoomLifetime(es: seq<Event>)
    requires Inv(Empty()) && Runs(Empty(), es)
    ensures Lifetimes(After(Empty(), es))
  {
    InvGivesLifetimes(After(Empty(), es));
  }

  lemma OpenIsServed(s: State, c: ClientId)
    requires Inv(s) && c in s.guests && s.guests[c].open
    ensures Served(s, c, s.guests[c])
  {
    var g := s.guests[c];
    assert GuestOk(s, c, g);
    if g.place.Resumed? || g.place.Seated? {
      assert RoomOk(s, g.place.room, s.made[g.place.room]);
    }
  }

  lemma InvGivesLifetimes(s: State)
    requires Inv(s)
    ensures Lifetimes(s)
  {
    forall l, m | l in s.loads && m in s.loads && s.loads[l].doc == s.loads[m].doc ensures l == m {
      OnlyLoad(s, s.loads[l].doc, l);
    }
    forall d | d in s.rooms ensures d !in s.opening && s.rooms[d] in s.made && s.made[s.rooms[d]].members != {} {
      NoLoadWhileOpen(s, d);
    }
    forall q, r | Live(s, q) && Live(s, r) && s.made[q].doc == s.made[r].doc ensures q == r {
      OnlyRoom(s, s.made[q].doc, q);
    }
    forall r | r in s.made && s.made[r].members != {} ensures InUse(s, r, s.made[r]) && Live(s, r) {
      assert RoomOk(s, r, s.made[r]);
    }
    forall c | c in s.guests
      ensures s.guests[c].removed <= s.guests[c].added <= 1
      ensures s.guests[c].hungUp && !s.guests[c].place.Waiting? && !s.guests[c].place.Resumed? ==>
        s.guests[c].removed == s.guests[c].added
      ensures s.guests[c].removed > 0 ==> !s.guests[c].open
      ensures s.guests[c].open ==> Served(s, c, s.guests[c])
    {
      assert GuestOk(s, c, s.guests[c]);
      if s.guests[c].open {
        OpenIsServed(s, c);
      }
    }
  }

  lemma SeatKeepsClosed(s: State, r: RoomId, c: ClientId, q: RoomId)
    requires r in s.made && c in s.guests && q in s.made && s.made[q].destroyed
    ensures q in Seat(s, r, c).made && Seat(s, r, c).made[q].destroyed
  {
  }

  lemma LeaveKeepsClosed(s: State, r: RoomId, c: ClientId, q: RoomId)
    requires r in s.made && c in s.guests && q in s.made && s.made[q].destroyed
    ensures q in Leave(s, r, c).made && Leave(s, r, c).made[q].destroyed
  {
  }

  lemma StepKeepsClosed(s: State, e: Event, r: RoomId)
    requires Inv(s) && Enabled(s, e) && r in s.made && s.made[r].destroyed
    ensures r in Step(s, e).made && Step(s, e).made[r].destroyed
  {
    InvIsReady(s);
    match e
    case Arrive(c, doc, l) =>
      if doc in s.rooms {
        SeatKeepsClosed(Moved(s, c, Guest(doc, Refused, true, false, 0, 0)), s.rooms[doc], c, r);
      }
    case LoadDone(l) => LoadDoneEffect(s, l);
    case Continue(c) =>
      if !s.guests[c].open {
        LeaveKeepsClosed(s, s.guests[c].place.room, c, r);
      }
    case SocketClosed(c) =>
      var g := s.guests[c];
      if g.place.Seated? {
        LeaveKeepsClosed(Moved(s, c, g.(open := false, hungUp := true)), g.place.room, c, r);
      }
    case _ =>
  }

  /** A closed room stays closed and never gains a client. */
  lemma {:induction false} ClosedRoomsStayEmpty(s: State, es: seq<Event>, r: RoomId)
    requires Inv(s) && Runs(s, es) && r in s.made && s.made[r].destroyed
    ensures r in After(s, es).made && After(s, es).made[r].destroyed && After(s, es).made[r].members == {}
    decreases |es|
  {
    if es == [] {
      assert RoomOk(s, r, s.made[r]);
    } else {
      StepKeepsClosed(s, es[0], r);
      StepKeepsInv(s, es[0]);
      ClosedRoomsStayEmpty(Step(s, es[0]), es[1..], r);
    }
  }

  /** A join that resumes keeps its place in the room if and only if its socket is still open. */
  lemma KeptIffOpen(s: State, c: ClientId)
    requires Inv(s) && Enabled(s, Continue(c))
    ensures var (t, r) := (Step(s, Continue(c)), s.guests[c].place.room);
      && (r in t.made && c in t.made[r].members <==> s.guests[c].open)
      && (s.guests[c].open ==> s.made == t.made && s.rooms == t.rooms && s.listeners == t.listeners)
  {
    assert GuestOk(s, c, s.guests[c]);
  }

  /** The client's join has gone all the way: it stays in the room until it leaves for good. */
  predicate Done(s: State, c: ClientId) {
    c in s.guests && (s.guests[c].place.Seated? || s.guests[c].place.Departed?)
  }

  lemma LoadKeepsDone(s: State, e: Event, c: ClientId)
    requires Inv(s) && Enabled(s, e) && Done(s, c) && (e.ReadFails? || e.LoadDone?)
    ensures Done(Step(s, e), c)
  {
    assert LoadOk(s, e.l, s.loads[e.l]);
    assert c !in s.loads[e.l].waiters;
    if e.ReadFails? {
      RefuseAllEffect(s.guests, s.loads[e.l].waiters);
    } else {
      LoadDoneEffect(s, e.l);
    }
  }

  lemma ClientKeepsDone(s: State, e: Event, c: ClientId)
    requires Enabled(s, e) && (Done(s, c) || e == Continue(c)) && !e.ReadFails? && !e.LoadDone?
    requires forall l :: l in s.loads ==> WaitersKnown(s, l)
    requires forall d :: d in s.rooms ==> s.rooms[d] in s.made
    requires forall d :: d in s.opening ==> s.opening[d] in s.loads
    ensures Done(Next(s, e), c)
  {
    match e
    case Arrive(_, _, _) =>
    case ReadDone(_, _) =>
    case Continue(_) =>
    case SocketFails(_) =>
    case SocketClosed(_) =>
  }

  lemma StepKeepsDone(s: State, e: Event, c: ClientId)
    requires Inv(s) && Enabled(s, e) && (Done(s, c) || e == Continue(c))
    ensures Done(Step(s, e), c)
  {
    if e.ReadFails? || e.LoadDone? {
      LoadKeepsDone(s, e, c);
    } else {
      InvIsReady(s);
      ClientKeepsDone(s, e, c);
    }
  }

  lemma {:induction false} RunKeepsDone(s: State, es: seq<Event>, c: ClientId)
    requires Inv(s) && Runs(s, es) && (Done(s, c) || Continue(c) in es)
    ensures Done(After(s, es), c)
    decreases |es|
  {
    if es != [] {
      StepKeepsInv(s, es[0]);
      if Done(s, c) || es[0] == Continue(c) {
        StepKeepsDone(s, es[0], c);
      }
      RunKeepsDone(Step(s, es[0]), es[1..], c);
    }
  }

  /**
   Over every run, an open client whose join has resumed and gone on is a member of the
   room registered for its document, and that room hears the bus.
   */
  lemma OpenClientsKeepTheirRoom(es: seq<Event>, c: ClientId)
    requires Inv(Empty()) && Runs(Empty(), es) && Continue(c) in es
    requires c in After(Empty(), es).guests && After(Empty(), es).guests[c].open
    ensures var s := After(Empty(), es);
      var doc := s.guests[c].doc;
      && doc in s.rooms && s.rooms[doc] in s.made && c in s.made[s.rooms[doc]].members
      && doc in s.listeners && s.listeners[doc] == s.rooms[doc]
  {
    RunKeepsDone(Empty(), es, c);
    var s := After(Empty(), es);
    OpenIsServed(s, c);
    assert GuestOk(s, c, s.guests[c]);
    assert DocOk(s, s.guests[c].doc);
  }

  // ------------------------------------------------------------- the class itself

  /** The registry, with the bus's listeners and the rooms and sockets its promises are about. */
  class RoomRegistry {
    var rooms: map<DocumentId, RoomId>
    var opening: map<DocumentId, LoadId>
    var listeners: map<DocumentId, RoomId>
    var loads: map<LoadId, Load>
    var made: map<RoomId, RoomInfo>
    var guests: map<ClientId, Guest>

    function View(): State
      reads this
    {
      State(rooms, opening, listeners, loads, made, guests)
    }

    constructor ()
      ensures View() == Empty() && Inv(View())
    {
      rooms, opening, listeners := map[], map[], map[];
      loads, made, guests := map[], map[], map[];
      new;
      EmptyHasInv();
    }

    /** join() and open() up to the first await: the room, a load in flight, or a new load. */
    method Join(c: ClientId, doc: DocumentId, newLoad: LoadId)
      requires Inv(View()) && c !in guests && newLoad !in loads
      modifies this
      ensures Inv(View()) && View() == Step(old(View()), Arrive(c, doc, newLoad))
    {
      StepKeepsInv(View(), Arrive(c, doc, newLoad));
      InvIsReady(View());
      if doc in rooms {
        guests := guests[c := Guest(doc, Refused, true, false, 0, 0)];
        Add(rooms[doc], c);
        return;
      }
      if doc in opening {
        var inFlight := opening[doc];
        loads := loads[inFlight := loads[inFlight].(waiters := loads[inFlight].waiters + [c])];
        guests := guests[c := Guest(doc, Waiting(inFlight), true, false, 0, 0)];
        return;
      }
      loads := loads[newLoad := Load(doc, Reading, [c])];
      opening := opening[doc := newLoad];
      guests := guests[c := Guest(doc, Waiting(newLoad), true, false, 0, 0)];
    }

    method Add(r: RoomId, c: ClientId)
      requires r in made && c in guests
      modifies this`made, this`guests
      ensures View() == Seat(old(View()), r, c)
    {
      made := made[r := made[r].(members := made[r].members + {c})];
      guests := guests[c := guests[c].(place := Resumed(r), added := guests[c].added + 1)];
    }

    /** load() goes on once the store has answered: make the room, listen on the bus. */
    method StoreAnswered(l: LoadId, r: RoomId)
      requires Inv(View()) && Enabled(View(), ReadDone(l, r))
      modifies this
      ensures Inv(View()) && View() == Step(old(View()), ReadDone(l, r))
    {
      StepKeepsInv(View(), ReadDone(l, r));
      var doc := loads[l].doc;
      made := made[r := RoomInfo(doc, {}, false)];
      listeners := listeners[doc := r];
      loads := loads[l := loads[l].(phase := Subscribing(r))];
    }

    /** load() rejects, and with it every join that awaited it. */
    method StoreFailed(l: LoadId)
      requires Inv(View()) && Enabled(View(), ReadFails(l))
      modifies this
      ensures Inv(View()) && View() == Step(old(View()), ReadFails(l))
    {
      StepKeepsInv(View(), ReadFails(l));
      InvIsReady(View());
      var load := loads[l];
      assert WaitersKnown(View(), l);
      opening := opening - {load.doc};
      loads := loads - {l};
      Refuse(load.waiters);
    }

    /** Each join that awaited the failed load closes its socket. */
    method Refuse(waiters: seq<ClientId>)
      requires forall c :: c in waiters ==> c in guests
      modifies this`guests
      ensures guests == RefuseAll(old(guests), waiters)
    {
      for i := 0 to |waiters|
        invariant guests == RefuseAll(old(guests), waiters[..i])
      {
        var c := waiters[i];
        assert waiters[..i + 1][..i] == waiters[..i];
        guests := guests[c := guests[c].(place := Refused, open := false)];
      }
      assert waiters[..|waiters|] == waiters;
    }

    /** load() resolves: the room enters the map and the waiting joins resume in turn. */
    method Loaded(l: LoadId)
      requires Inv(View()) && Enabled(View(), LoadDone(l))
      modifies this
      ensures Inv(View()) && View() == Step(old(View()), LoadDone(l))
    {
      ghost var s := View();
      ghost var done, ended := Step(s, LoadDone(l)), LoadEnded(s, l);
      LoadDoneStep(s, l);
      var load := loads[l];
      rooms := rooms[load.doc := load.phase.room];
      opening := opening - {load.doc};
      loads := loads - {l};
      assert View() == ended;
      AddAll(load.phase.room, load.waiters);
      assert View() == done;
    }

    /** The joins that awaited one load add their clients before anything else runs. */
    method AddAll(room: RoomId, waiters: seq<ClientId>)
      requires room in made && forall c :: c in waiters ==> c in guests
      modifies this`made, this`guests
      ensures View() == SeatAll(old(View()), room, waiters)
    {
      for i := 0 to |waiters|
        invariant View() == SeatAll(old(View()), room, waiters[..i])
      {
        assert waiters[..i + 1][..i] == waiters[..i];
        Add(room, waiters[i]);
      }
      assert waiters[..|waiters|] == waiters;
    }

    /** Connection.join after its await: the client may have given up meanwhile. */
    method JoinResumes(c: ClientId)
      requires Inv(View()) && Enabled(View(), Continue(c))
      modifies this
      ensures Inv(View()) && View() == Step(old(View()), Continue(c))
    {
      StepKeepsInv(View(), Continue(c));
      var room := guests[c].place.room;
      if !guests[c].open {
        LeaveRoom(room, c);
        return;
      }
      guests := guests[c := guests[c].(place := Seated(room))];
    }

    method OnSocketClosed(c: ClientId)
      requires Inv(View()) && Enabled(View(), SocketClosed(c))
      modifies this
      ensures Inv(View()) && View() == Step(old(View()), SocketClosed(c))
    {
      StepKeepsInv(View(), SocketClosed(c));
      guests := guests[c := guests[c].(open := false, hungUp := true)];
      if guests[c].place.Seated? {
        LeaveRoom(guests[c].place.room, c);
      }
    }

    /** leave() up to its first await. */
    method LeaveRoom(r: RoomId, c: ClientId)
      requires r in made && c in guests
      modifies this`made, this`guests, this`rooms, this`listeners
      ensures View() == Leave(old(View()), r, c)
    {
      made := made[r := made[r].(members := made[r].members - {c})];
      guests := guests[c := guests[c].(place := Departed, removed := guests[c].removed + 1)];
      if made[r].members != {} {
        return;
      }
      rooms := rooms - {made[r].doc};
      listeners := listeners - {made[r].doc};
      made := made[r := made[r].(destroyed := true)];
    }
  }
}
