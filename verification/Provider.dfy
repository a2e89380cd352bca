/**
 apps/web/src/collab/provider.ts: the reconnect machine of a browser. Token
 fetches, sockets and timers are each something under way outside; how many of them
 there can be at once is what is to be shown. Times are milliseconds.
 */
module Provider {
  import opened Crdt

  const RECONNECT_BASE_MS := 500
  const RECONNECT_MAX_MS := 15000
  const CONNECTION_STABLE_MS := 5000
  const PONG_TIMEOUT_MS := 10000

  type SocketId = nat

  datatype Status = Connecting | Connected | Offline | Rejected

  datatype CloseCode = Unauthorized | DocumentNotSpecified | OtherCode

  /** The pong timer's field: unset, armed, or fired and not yet cleared, which keeps pings from arming it again. */
  datatype Probe = NoProbe | Waiting(due: int) | Overdue

  datatype ReadyState = Opening | Ready | Closing

  /** A socket whose close event has not fired; `refreshed` says how its token was asked for. */
  datatype Socket = Socket(state: ReadyState, refreshed: bool)

  /**
   `fetches` are the token fetches pending, each with the refresh flag it was made
   with; `connects`, `resets` and `owed` are history: connection attempts, backoff
   resets, and whether a refused token has yet to be replaced.
   */
  datatype State = State(
    clock: int,
    destroyed: bool,
    status: Status,
    attempt: nat,
    refreshToken: bool,
    fetches: seq<bool>,
    sockets: map<SocketId, Socket>,
    socket: Option<SocketId>,
    reconnectAt: Option<int>,
    stableAt: Option<int>,
    pinging: bool,
    pong: Probe,
    connects: nat,
    resets: nat,
    owed: bool)

  datatype Event =
    | TokenArrives(i: nat, k: SocketId)
    | TokenFails(i: nat, jittered: int)
    | SocketOpens(k: SocketId)
    | SocketErrs(k: SocketId)
    | SocketCloses(k: SocketId, code: CloseCode, jittered: int)
    | ReconnectFires
    | StableFires
    | PingFires
    | PongArrives
    | PongTimesOut
    | Destroy

  datatype Dated = Dated(event: Event, now: int)

  function Doubled(attempt: nat): nat {
    if attempt == 0 then RECONNECT_BASE_MS else 2 * Doubled(attempt - 1)
  }

  function Delay(attempt: nat): nat {
    if Doubled(attempt) <= RECONNECT_MAX_MS then Doubled(attempt) else RECONNECT_MAX_MS
  }

  /** Between half the delay and all of it: any outcome of the random jitter. */
  predicate Jitters(attempt: nat, jittered: int) {
    Delay(attempt) <= 2 * jittered && jittered <= Delay(attempt)
  }

  predicate IsTerminal(code: CloseCode) {
    code == DocumentNotSpecified
  }

  predicate Enabled(s: State, d: Dated) {
    d.now >= s.clock &&
    match d.event
    case TokenArrives(i, k) => i < |s.fetches| && k !in s.sockets
    case TokenFails(i, jittered) => i < |s.fetches| && Jitters(s.attempt, jittered)
    case SocketOpens(k) => k in s.sockets && s.sockets[k].state == Opening
    case SocketErrs(k) => k in s.sockets
    case SocketCloses(k, _, jittered) => k in s.sockets && Jitters(s.attempt, jittered)
    case ReconnectFires => s.reconnectAt.Some? && d.now >= s.reconnectAt.value
    case StableFires => s.stableAt.Some? && d.now >= s.stableAt.value
    case PingFires => s.pinging
    case PongArrives => s.socket.Some?
    case PongTimesOut => s.pong.Waiting? && d.now >= s.pong.due
    case Destroy => !s.destroyed
  }

  /** connect() up to its await. */
  function Connects(s: State): State {
    if s.destroyed then s
    else s.(status := Connecting, fetches := s.fetches + [s.refreshToken], connects := s.connects + 1)
  }

  function Scheduled(s: State, jittered: int): State {
    s.(attempt := s.attempt + 1, reconnectAt := Some(s.clock + jittered))
  }

  function Cleared(s: State): State {
    s.(reconnectAt := None, stableAt := None, pinging := false, pong := NoProbe)
  }

  function Without(fetches: seq<bool>, i: nat): seq<bool>
    requires i < |fetches|
  {
    fetches[..i] + fetches[i + 1..]
  }

  /** socket.close() on a socket we hold: the close event comes later. */
  function Closes(s: State, k: SocketId): State {
    if k in s.sockets then s.(sockets := s.sockets[k := s.sockets[k].(state := Closing)]) else s
  }

  /** What a close event leads to once timers and socket are gone. */
  function Lost(s: State, code: CloseCode, jittered: int): State {
    if s.destroyed then s
    else if IsTerminal(code) then s.(status := Rejected)
    else
      Scheduled(s.(refreshToken := s.refreshToken || code == Unauthorized, status := Offline,
                   owed := s.owed || code == Unauthorized), jittered)
  }

  function Next(before: State, d: Dated): State
    requires Enabled(before, d)
  {
    var s := before.(clock := d.now);
    match d.event
    case TokenArrives(i, k) =>
      var got := s.(refreshToken := false, fetches := Without(s.fetches, i));
      if s.destroyed then got
      else got.(sockets := s.sockets[k := Socket(Opening, s.fetches[i])], socket := Some(k), owed := false)
    case TokenFails(i, jittered) =>
      Scheduled(s.(status := Offline, fetches := Without(s.fetches, i)), jittered)
    case SocketOpens(k) =>
      s.(sockets := s.sockets[k := s.sockets[k].(state := Ready)], stableAt := Some(d.now + CONNECTION_STABLE_MS),
         status := Connected, pinging := true)
    case SocketErrs(k) => Closes(s, k)
    case SocketCloses(k, code, jittered) =>
      Lost(Cleared(s).(sockets := s.sockets - {k}, socket := None), code, jittered)
    case ReconnectFires => Connects(s.(reconnectAt := None))
    case StableFires => s.(attempt := 0, stableAt := None, resets := s.resets + 1)
    case PingFires => if s.pong != NoProbe then s else s.(pong := Waiting(d.now + PONG_TIMEOUT_MS))
    case PongArrives => s.(pong := NoProbe)
    case PongTimesOut => (if s.socket.Some? then Closes(s, s.socket.value) else s).(pong := Overdue)
    case Destroy =>
      var cleared := Cleared(s.(destroyed := true));
      (if s.socket.Some? then Closes(cleared, s.socket.value) else cleared).(socket := None)
  }

  /** A provider just constructed: its first connect() is waiting for a token. */
  function Initial(now: int): State {
    Connects(State(now, false, Offline, 0, false, [], map[], None, None, None, false, NoProbe, 0, 0, false))
  }

  class CollabProvider {
    var clock: int
    var destroyed: bool
    var status: Status
    var attempt: nat
    var refreshToken: bool
    var fetches: seq<bool>
    var sockets: map<SocketId, Socket>
    var socket: Option<SocketId>
    var reconnectAt: Option<int>
    var stableAt: Option<int>
    var pinging: bool
    var pong: Probe
    ghost var connects: nat
    ghost var resets: nat
    ghost var owed: bool

    ghost function View(): State
      reads this
    {
      State(clock, destroyed, status, attempt, refreshToken, fetches, sockets, socket, reconnectAt, stableAt,
            pinging, pong, connects, resets, owed)
    }

    constructor (now: int)
      ensures View() == Initial(now)
    {
      clock, destroyed, status, attempt, refreshToken := now, false, Offline, 0, false;
      fetches, sockets, socket := [], map[], None;
      reconnectAt, stableAt, pinging, pong := None, None, false, NoProbe;
      connects, resets, owed := 0, 0, false;
      new;
      Connect();
    }

    method Connect()
      modifies this`status, this`fetches, this`connects
      ensures View() == Connects(old(View()))
    {
      if destroyed {
        return;
      }
      status := Connecting;
      fetches := fetches + [refreshToken];
      connects := connects + 1;
    }

    /** connect() after its await, token in hand. */
    method OnToken(i: nat, k: SocketId, now: int)
      requires Enabled(View(), Dated(TokenArrives(i, k), now))
      modifies this
      ensures View() == Next(old(View()), Dated(TokenArrives(i, k), now))
    {
      clock := now;
      var refreshed := fetches[i];
      fetches := fetches[..i] + fetches[i + 1..];
      refreshToken := false;
      if destroyed {
        return;
      }
      sockets := sockets[k := Socket(Opening, refreshed)];
      socket := Some(k);
      owed := false;
    }

    /** connect() when the token fetch throws. */
    method OnTokenFailed(i: nat, jittered: int, now: int)
      requires Enabled(View(), Dated(TokenFails(i, jittered), now))
      modifies this
      ensures View() == Next(old(View()), Dated(TokenFails(i, jittered), now))
    {
      clock := now;
      fetches := fetches[..i] + fetches[i + 1..];
      status := Offline;
      ScheduleReconnect(jittered);
    }

    method OnOpen(k: SocketId, now: int)
      requires Enabled(View(), Dated(SocketOpens(k), now))
      modifies this
      ensures View() == Next(old(View()), Dated(SocketOpens(k), now))
    {
      clock := now;
      sockets := sockets[k := sockets[k].(state := Ready)];
      stableAt := Some(now + CONNECTION_STABLE_MS);
      status := Connected;
      pinging := true;
    }

    /** The close event that is bound to follow does the rest. */
    method OnError(k: SocketId, now: int)
      requires Enabled(View(), Dated(SocketErrs(k), now))
      modifies this
      ensures View() == Next(old(View()), Dated(SocketErrs(k), now))
    {
      clock := now;
      CloseSocket(k);
    }

    method OnClose(k: SocketId, code: CloseCode, jittered: int, now: int)
      requires Enabled(View(), Dated(SocketCloses(k, code, jittered), now))
      modifies this
      ensures View() == Next(old(View()), Dated(SocketCloses(k, code, jittered), now))
    {
      clock := now;
      ClearTimers();
      sockets := sockets - {k};
      socket := None;
      Lose(code, jittered);
    }

    /** The rest of the close handler: give up, or come back later. */
    method Lose(code: CloseCode, jittered: int)
      modifies this
      ensures View() == Lost(old(View()), code, jittered)
    {
      if destroyed {
        return;
      }
      if IsTerminal(code) {
        status := Rejected;
        return;
      }
      if code == Unauthorized {
        refreshToken := true;
        owed := true;
      }
      status := Offline;
      ScheduleReconnect(jittered);
    }

    method ScheduleReconnect(jittered: int)
      modifies this`attempt, this`reconnectAt
      ensures View() == Scheduled(old(View()), jittered)
    {
      attempt := attempt + 1;
      reconnectAt := Some(clock + jittered);
    }

    method ClearTimers()
      modifies this`reconnectAt, this`stableAt, this`pinging, this`pong
      ensures View() == Cleared(old(View()))
    {
      pinging := false;
      pong := NoProbe;
      stableAt := None;
      reconnectAt := None;
    }

    method OnReconnectTimer(now: int)
      requires Enabled(View(), Dated(ReconnectFires, now))
      modifies this
      ensures View() == Next(old(View()), Dated(ReconnectFires, now))
    {
      clock := now;
      reconnectAt := None;
      Connect();
    }

    method OnStableTimer(now: int)
      requires Enabled(View(), Dated(StableFires, now))
      modifies this
      ensures View() == Next(old(View()), Dated(StableFires, now))
    {
      clock := now;
      stableAt := None;
      attempt := 0;
      resets := resets + 1;
    }

    method OnPingTimer(now: int)
      requires Enabled(View(), Dated(PingFires, now))
      modifies this
      ensures View() == Next(old(View()), Dated(PingFires, now))
    {
      clock := now;
      if pong != NoProbe {
        return;
      }
      pong := Waiting(now + PONG_TIMEOUT_MS);
    }

    method OnPong(now: int)
      requires Enabled(View(), Dated(PongArrives, now))
      modifies this
      ensures View() == Next(old(View()), Dated(PongArrives, now))
    {
      clock := now;
      pong := NoProbe;
    }

    method OnPongTimer(now: int)
      requires Enabled(View(), Dated(PongTimesOut, now))
      modifies this
      ensures View() == Next(old(View()), Dated(PongTimesOut, now))
    {
      clock := now;
      pong := Overdue;
      if socket.Some? {
        CloseSocket(socket.value);
      }
    }

    method DestroyProvider(now: int)
      requires Enabled(View(), Dated(Destroy, now))
      modifies this
      ensures View() == Next(old(View()), Dated(Destroy, now))
    {
      clock := now;
      destroyed := true;
      ClearTimers();
      if socket.Some? {
        CloseSocket(socket.value);
      }
      socket := None;
    }

    method CloseSocket(k: SocketId)
      modifies this`sockets
      ensures View() == Closes(old(View()), k)
    {
      if k in sockets {
        sockets := sockets[k := sockets[k].(state := Closing)];
      }
    }
  }

  // --------------------------------------------------- one thing under way at a time

  function UnderWay(s: State): nat {
    |s.fetches| + |s.sockets| + if s.reconnectAt.Some? then 1 else 0
  }

  ghost predicate Inv(s: State) {
    && (!s.destroyed ==> UnderWay(s) == if s.status == Rejected then 0 else 1)
    && (!s.destroyed ==> s.sockets.Keys == if s.socket.Some? then {s.socket.value} else {})
    && (!s.destroyed && s.owed ==> s.refreshToken && forall i :: 0 <= i < |s.fetches| ==> s.fetches[i])
    && (s.destroyed ==> s.socket == None)
  }

  lemma OneLeft(sockets: map<SocketId, Socket>, k: SocketId)
    requires k in sockets && |sockets| <= 1
    ensures sockets.Keys == {k} && sockets - {k} == map[] && |sockets| == 1
  {
    assert |sockets.Keys| == |sockets|;
    assert |sockets.Keys - {k}| == |sockets.Keys| - 1;
    assert sockets.Keys - {k} == {};
  }

  lemma TokenKeepsInv(s: State, d: Dated)
    requires Inv(s) && Enabled(s, d) && (d.event.TokenArrives? || d.event.TokenFails?)
    ensures Inv(Next(s, d))
  {
    if !s.destroyed {
      assert |s.fetches| == 1 && |s.sockets| == 0;
      assert s.sockets == map[];
      assert Without(s.fetches, d.event.i) == [];
    }
  }

  lemma CloseKeepsInv(s: State, d: Dated)
    requires Inv(s) && Enabled(s, d) && d.event.SocketCloses?
    ensures Inv(Next(s, d))
  {
    if !s.destroyed {
      OneLeft(s.sockets, d.event.k);
      assert s.fetches == [];
    }
  }

  lemma SocketKeepsInv(s: State, d: Dated)
    requires Inv(s) && Enabled(s, d) && (d.event.SocketOpens? || d.event.SocketErrs? || d.event.PongTimesOut?)
    ensures Inv(Next(s, d))
  {
    match d.event
    case SocketOpens(k) => SameKeys(s.sockets, k, s.sockets[k].(state := Ready));
    case SocketErrs(k) => SameKeys(s.sockets, k, s.sockets[k].(state := Closing));
    case PongTimesOut =>
      if s.socket.Some? && s.socket.value in s.sockets {
        SameKeys(s.sockets, s.socket.value, s.sockets[s.socket.value].(state := Closing));
      }
  }

  lemma NextKeepsInv(s: State, d: Dated)
    requires Inv(s) && Enabled(s, d)
    ensures Inv(Next(s, d))
  {
    match d.event
    case TokenArrives(_, _) => TokenKeepsInv(s, d);
    case TokenFails(_, _) => TokenKeepsInv(s, d);
    case SocketOpens(_) => SocketKeepsInv(s, d);
    case SocketErrs(_) => SocketKeepsInv(s, d);
    case PongTimesOut => SocketKeepsInv(s, d);
    case SocketCloses(_, _, _) => CloseKeepsInv(s, d);
    case ReconnectFires =>
    case _ =>
  }

  lemma SameKeys(sockets: map<SocketId, Socket>, k: SocketId, v: Socket)
    requires k in sockets
    ensures sockets[k := v].Keys == sockets.Keys && |sockets[k := v]| == |sockets|
  {
    assert sockets[k := v].Keys == sockets.Keys;
    assert |sockets[k := v].Keys| == |sockets[k := v]| && |sockets.Keys| == |sockets|;
  }

  predicate Runs(s: State, ds: seq<Dated>)
    decreases |ds|
  {
    ds == [] || (Enabled(s, ds[0]) && Runs(Next(s, ds[0]), ds[1..]))
  }

  function After(s: State, ds: seq<Dated>): State
    requires Runs(s, ds)
    decreases |ds|
  {
    if ds == [] then s else After(Next(s, ds[0]), ds[1..])
  }

  lemma {:induction false} RunKeepsInv(s: State, ds: seq<Dated>)
    requires Inv(s) && Runs(s, ds)
    ensures Inv(After(s, ds))
    decreases |ds|
  {
    if ds != [] {
      NextKeepsInv(s, ds[0]);
      RunKeepsInv(Next(s, ds[0]), ds[1..]);
    }
  }

  /**
   Reconnecting never stalls and never doubles: in every reachable state a provider
   neither destroyed nor rejected has exactly one thing under way, a token fetch, a
   socket not yet closed, or an armed reconnect timer; a rejected one has none.
   */
  lemma NeverStallsNorDoubles(start: int, ds: seq<Dated>)
    requires Runs(Initial(start), ds) && !After(Initial(start), ds).destroyed
    ensures UnderWay(After(Initial(start), ds)) == if After(Initial(start), ds).status == Rejected then 0 else 1
  {
    RunKeepsInv(Initial(start), ds);
  }

  /** Once destroyed, a provider opens no socket, whatever fetch or timer was still under way. */
  lemma {:induction false} DestroyedOpensNothing(s: State, ds: seq<Dated>)
    requires s.destroyed && Runs(s, ds)
    ensures After(s, ds).destroyed && After(s, ds).sockets.Keys <= s.sockets.Keys && After(s, ds).connects == s.connects
    decreases |ds|
  {
    if ds != [] {
      DestroyedOpensNothing(Next(s, ds[0]), ds[1..]);
    }
  }

  /** The reconnect timer is armed at some moment of the run. */
  predicate EverArmed(s: State, ds: seq<Dated>)
    requires Runs(s, ds)
    decreases |ds|
  {
    s.reconnectAt.Some? || (ds != [] && EverArmed(Next(s, ds[0]), ds[1..]))
  }

  predicate SomeFetchFails(ds: seq<Dated>) {
    exists d :: d in ds && d.event.TokenFails?
  }

  lemma {:induction false} ArmedIffFetchFails(s: State, ds: seq<Dated>)
    requires s.destroyed && s.reconnectAt == None && Runs(s, ds)
    ensures EverArmed(s, ds) <==> SomeFetchFails(ds)
    decreases |ds|
  {
    if ds != [] {
      var t := Next(s, ds[0]);
      assert ds[0] in ds && forall d :: d in ds <==> d == ds[0] || d in ds[1..];
      assert t.reconnectAt.Some? <==> ds[0].event.TokenFails?;
      if t.reconnectAt == None {
        ArmedIffFetchFails(t, ds[1..]);
      }
    }
  }

  lemma {:induction false} NoFetchNoFailure(s: State, ds: seq<Dated>)
    requires s.destroyed && s.fetches == [] && Runs(s, ds)
    ensures !SomeFetchFails(ds)
    decreases |ds|
  {
    if ds != [] {
      assert forall d :: d in ds <==> d == ds[0] || d in ds[1..];
      NoFetchNoFailure(Next(s, ds[0]), ds[1..]);
    }
  }

  /**
   The timer after destroy: clearTimers leaves it unarmed, and over every run that
   follows it is ever armed again if and only if a token fetch that was under way
   fails; with no fetch under way at destroy it never is.
   */
  lemma DestroyedArmsIffFetchFails(s: State, now: int, ds: seq<Dated>)
    requires Enabled(s, Dated(Destroy, now)) && Runs(Next(s, Dated(Destroy, now)), ds)
    ensures var t := Next(s, Dated(Destroy, now));
      && (EverArmed(t, ds) <==> SomeFetchFails(ds))
      && (s.fetches == [] ==> !EverArmed(t, ds))
  {
    var t := Next(s, Dated(Destroy, now));
    ArmedIffFetchFails(t, ds);
    if s.fetches == [] {
      NoFetchNoFailure(t, ds);
    }
  }

  /** And it happens: a provider destroyed while its first token is being fetched, a fetch that then fails. */
  lemma DestroyedCanArm(start: int)
    ensures var t := Next(Initial(start), Dated(Destroy, start));
      && Enabled(Initial(start), Dated(Destroy, start))
      && Runs(t, [Dated(TokenFails(0, 500), start)]) && EverArmed(t, [Dated(TokenFails(0, 500), start)])
  {
    var t, d := Next(Initial(start), Dated(Destroy, start)), Dated(TokenFails(0, 500), start);
    assert Delay(0) == 500 && Enabled(t, d);
    assert [d][1..] == [];
    assert Next(t, d).reconnectAt.Some?;
  }

  /**
   After the server refuses a token, however many fetches fail first, the next
   socket is opened with a token that was fetched afresh.
   */
  lemma RefusedTokenIsReplaced(start: int, ds: seq<Dated>, i: nat, k: SocketId, now: int)
    requires Runs(Initial(start), ds) && !After(Initial(start), ds).destroyed && After(Initial(start), ds).owed
    requires Enabled(After(Initial(start), ds), Dated(TokenArrives(i, k), now))
    ensures Next(After(Initial(start), ds), Dated(TokenArrives(i, k), now)).sockets[k].refreshed
  {
    RunKeepsInv(Initial(start), ds);
  }

  // ------------------------------------------------------- a silently dead server

  predicate Dropped(t: State, ds: seq<Dated>, k: SocketId) {
    || (k in t.sockets && t.sockets[k].state == Closing)
    || exists i :: 0 <= i < |ds| && ds[i].event.SocketCloses? && ds[i].event.k == k
  }

  /** The socket is held and its unanswered ping is due at `due`. */
  predicate Probed(s: State, k: SocketId, due: int) {
    !s.destroyed && s.socket == Some(k) && s.pong == Waiting(due)
  }

  lemma ClosingStays(s: State, d: Dated, k: SocketId)
    requires Inv(s) && Enabled(s, d) && k in s.sockets && s.sockets[k].state == Closing
    ensures
      || (d.event.SocketCloses? && d.event.k == k)
      || (k in Next(s, d).sockets && Next(s, d).sockets[k].state == Closing)
  {
  }

  lemma {:induction false} DroppedStays(s: State, ds: seq<Dated>, k: SocketId)
    requires Inv(s) && Runs(s, ds) && k in s.sockets && s.sockets[k].state == Closing
    ensures Dropped(After(s, ds), ds, k)
    decreases |ds|
  {
    if ds != [] && !(ds[0].event.SocketCloses? && ds[0].event.k == k) {
      ClosingStays(s, ds[0], k);
      NextKeepsInv(s, ds[0]);
      DroppedStays(Next(s, ds[0]), ds[1..], k);
      LaterDrop(s, ds, k);
    }
  }

  lemma LaterDrop(s: State, ds: seq<Dated>, k: SocketId)
    requires ds != [] && Runs(s, ds) && Dropped(After(s, ds), ds[1..], k)
    ensures Dropped(After(s, ds), ds, k)
  {
    if i :| 0 <= i < |ds[1..]| && ds[1..][i].event.SocketCloses? && ds[1..][i].event.k == k {
      assert ds[i + 1] == ds[1..][i];
    }
  }

  lemma ProbedStep(s: State, d: Dated, k: SocketId, due: int)
    requires Inv(s) && Enabled(s, d) && Probed(s, k, due) && !d.event.PongArrives?
    ensures var t := Next(s, d);
      && (Probed(t, k, due)
          || (k in t.sockets && t.sockets[k].state == Closing) || (d.event.SocketCloses? && d.event.k == k))
      && (d.event.PongTimesOut? ==> k in t.sockets && t.sockets[k].state == Closing)
  {
    assert k in s.sockets.Keys && s.sockets.Keys == {k};
    assert |s.sockets| >= 1;
  }

  /**
   A server that goes silent is noticed: once a ping is out, as long as no pong comes,
   either the timer is still due when it was, never pushed back by later pings, or
   the socket has been closed; and when the timer fires, it is closed.
   */
  lemma {:induction false} SilentServerIsDropped(s: State, ds: seq<Dated>, k: SocketId, due: int)
    requires Inv(s) && Runs(s, ds) && Probed(s, k, due)
    requires forall i :: 0 <= i < |ds| ==> !ds[i].event.PongArrives?
    ensures Probed(After(s, ds), k, due) || Dropped(After(s, ds), ds, k)
    ensures (exists i :: 0 <= i < |ds| && ds[i].event.PongTimesOut?) ==> Dropped(After(s, ds), ds, k)
    decreases |ds|
  {
    if ds != [] {
      var t := Next(s, ds[0]);
      ProbedStep(s, ds[0], k, due);
      NextKeepsInv(s, ds[0]);
      if k in t.sockets && t.sockets[k].state == Closing {
        DroppedStays(t, ds[1..], k);
        LaterDrop(s, ds, k);
      } else if Probed(t, k, due) {
        forall i | 0 <= i < |ds[1..]| ensures !ds[1..][i].event.PongArrives? {
          assert ds[1..][i] == ds[i + 1];
        }
        SilentServerIsDropped(t, ds[1..], k, due);
        if Dropped(After(s, ds), ds[1..], k) {
          LaterDrop(s, ds, k);
        }
        if i :| 0 <= i < |ds| && ds[i].event.PongTimesOut? {
          assert i > 0 && ds[1..][i - 1] == ds[i];
        }
      }
    }
  }

  // ---------------------------------------------------------------- backoff bound

  /** How much sooner than one every 7.5 s the attempts still to come may be, from this point of the backoff. */
  function Debt(attempt: nat): nat
    decreases 5 - attempt
  {
    if attempt >= 5 then 0 else 7500 - Delay(attempt) / 2 + Debt(attempt + 1)
  }

  function Clamp(x: int, high: int): int {
    if x <= 0 then 0 else if x >= high then high else x
  }

  /** The credit attempts are drawn against: backoff left to run up, and waiting already done. */
  function Credit(s: State): int {
    Debt(s.attempt) + if s.reconnectAt.Some? then Clamp(7500 - (s.reconnectAt.value - s.clock), 7500) else 0
  }

  function StableCredit(s: State): int {
    if s.stableAt.Some? then Clamp(CONNECTION_STABLE_MS - (s.stableAt.value - s.clock), CONNECTION_STABLE_MS) else 0
  }

  lemma DebtIs(attempt: nat)
    ensures Debt(attempt) <= 29750
    ensures Delay(attempt) <= 15000 && (attempt < 5 ==> Delay(attempt) % 2 == 0 && Delay(attempt) <= 8000)
    ensures attempt >= 5 ==> Delay(attempt) == 15000
  {
    assert Doubled(1) == 1000 && Doubled(2) == 2000;
    assert Doubled(3) == 4000;
    assert Doubled(4) == 8000;
    assert Doubled(5) == 16000;
    if attempt >= 5 {
      DoubledGrows(attempt);
    } else {
      assert Debt(5) == 0 && Debt(4) == 3500;
      assert Debt(3) == 9000 && Debt(2) == 15500;
      assert Debt(1) == 22500 && Debt(0) == 29750;
    }
  }

  lemma {:induction false} DoubledGrows(attempt: nat)
    requires attempt >= 5
    ensures Doubled(attempt) >= 16000
  {
    if attempt > 5 {
      DoubledGrows(attempt - 1);
    } else {
      assert Doubled(3) == 4000;
      assert Doubled(5) == 16000;
    }
  }

  /** Arming the timer pays for itself: what the delay falls short of 7.5 s comes off the debt. */
  lemma SchedulingIsFree(s: State, jittered: int)
    requires Jitters(s.attempt, jittered)
    ensures Debt(s.attempt + 1) + Clamp(7500 - jittered, 7500) <= Debt(s.attempt)
  {
    DebtIs(s.attempt);
  }

  /** Each attempt spends 7500 of credit, each reset gives 29750 back, time gives itself. */
  predicate Spends(s: State, t: State) {
    && s.clock <= t.clock && s.connects <= t.connects && s.resets <= t.resets
    && 7500 * (t.connects - s.connects) + Credit(t) <= (t.clock - s.clock) + Credit(s) + 29750 * (t.resets - s.resets)
    && CONNECTION_STABLE_MS * (t.resets - s.resets) + StableCredit(t) <= (t.clock - s.clock) + StableCredit(s)
  }

  lemma SchedulingSpends(s: State, d: Dated)
    requires Enabled(s, d) && (d.event.TokenFails? || d.event.SocketCloses?)
    ensures Spends(s, Next(s, d))
  {
    SchedulingIsFree(s, d.event.jittered);
  }

  lemma ConnectingSpends(s: State, d: Dated)
    requires Enabled(s, d) && d.event.ReconnectFires?
    ensures Spends(s, Next(s, d))
  {
  }

  lemma ResettingSpends(s: State, d: Dated)
    requires Enabled(s, d) && d.event.StableFires?
    ensures Spends(s, Next(s, d))
  {
    DebtIs(0);
  }

  lemma StepSpends(s: State, d: Dated)
    requires Enabled(s, d)
    ensures Spends(s, Next(s, d))
  {
    match d.event
    case TokenFails(_, _) => SchedulingSpends(s, d);
    case SocketCloses(_, _, _) => SchedulingSpends(s, d);
    case ReconnectFires => ConnectingSpends(s, d);
    case StableFires => ResettingSpends(s, d);
    case _ => OtherwiseSpends(s, d);
  }

  /** The backoff is untouched, or its timers stopped or started afresh. */
  predicate BackoffIdle(s: State, t: State) {
    && s.clock <= t.clock && t.connects == s.connects && t.resets == s.resets && t.attempt == s.attempt
    && (t.reconnectAt == s.reconnectAt || t.reconnectAt == None)
    && (t.stableAt == s.stableAt || t.stableAt == None || t.stableAt == Some(t.clock + CONNECTION_STABLE_MS))
  }

  lemma OthersLeaveBackoffIdle(s: State, d: Dated)
    requires Enabled(s, d)
    requires !d.event.TokenFails? && !d.event.SocketCloses? && !d.event.ReconnectFires? && !d.event.StableFires?
    ensures BackoffIdle(s, Next(s, d))
  {
    match d.event
    case TokenArrives(_, _) =>
    case SocketOpens(_) =>
    case SocketErrs(_) =>
    case PingFires =>
    case PongArrives =>
    case PongTimesOut =>
    case Destroy =>
  }

  lemma IdleSpends(s: State, t: State)
    requires BackoffIdle(s, t)
    ensures Spends(s, t)
  {
  }

  lemma OtherwiseSpends(s: State, d: Dated)
    requires Enabled(s, d)
    requires !d.event.TokenFails? && !d.event.SocketCloses? && !d.event.ReconnectFires? && !d.event.StableFires?
    ensures Spends(s, Next(s, d))
  {
    OthersLeaveBackoffIdle(s, d);
    IdleSpends(s, Next(s, d));
  }

  lemma {:induction false} RunSpends(s: State, ds: seq<Dated>)
    requires Runs(s, ds)
    ensures Spends(s, After(s, ds))
    decreases |ds|
  {
    if ds != [] {
      StepSpends(s, ds[0]);
      RunSpends(Next(s, ds[0]), ds[1..]);
    }
  }

  /**
   Backoff bound, over any stretch of any run and for every jitter: a stretch of T ms
   with no socket surviving its 5 s has at most (T + 37250) / 7500 connection attempts.
   Each reset of the backoff allows 29750 / 7500 more, and takes 5 s of its own.
   */
  lemma AttemptsAreBounded(s: State, ds: seq<Dated>)
    requires Runs(s, ds)
    ensures var t := After(s, ds);
      var elapsed, attempts, resets := t.clock - s.clock, t.connects - s.connects, t.resets - s.resets;
      && 7500 * attempts <= elapsed + 37250 + 29750 * resets
      && 5000 * resets <= elapsed + 5000
  {
    RunSpends(s, ds);
    DebtIs(s.attempt);
  }

  lemma {:induction false} NoResetWithoutStability(s: State, ds: seq<Dated>)
    requires Runs(s, ds) && forall i :: 0 <= i < |ds| ==> !ds[i].event.StableFires?
    ensures After(s, ds).resets == s.resets
    decreases |ds|
  {
    if ds != [] {
      forall i | 0 <= i < |ds[1..]| ensures !ds[1..][i].event.StableFires? {
        assert ds[1..][i] == ds[i + 1];
      }
      NoResetWithoutStability(Next(s, ds[0]), ds[1..]);
    }
  }

  /** A server that accepts sockets only to close them is not hammered. */
  lemma UnstableAttemptsAreBounded(s: State, ds: seq<Dated>)
    requires Runs(s, ds) && forall i :: 0 <= i < |ds| ==> !ds[i].event.StableFires?
    ensures 7500 * (After(s, ds).connects - s.connects) <= (After(s, ds).clock - s.clock) + 37250
  {
    AttemptsAreBounded(s, ds);
    NoResetWithoutStability(s, ds);
  }

  // ------------------------------------------------------------ told from the events

  lemma {:induction false} RunEnds(s: State, ds: seq<Dated>)
    requires Runs(s, ds) && ds != []
    ensures var front, d := ds[..|ds| - 1], ds[|ds| - 1];
      Runs(s, front) && Enabled(After(s, front), d) && After(s, ds) == Next(After(s, front), d)
    decreases |ds|
  {
    if |ds| > 1 {
      RunEnds(Next(s, ds[0]), ds[1..]);
      assert ds[1..][..|ds| - 2] == ds[..|ds| - 1][1..];
    }
  }

  /** What a live provider shows and which of its timers run, given what is under way; a destroyed one has let go. */
  ghost predicate Standing(s: State) {
    if s.destroyed then
      && s.stableAt == None && !s.pinging && s.pong == NoProbe
      && forall k :: k in s.sockets ==> s.sockets[k].state == Closing
    else
      && (s.status == Offline <==> s.reconnectAt.Some?)
      && (s.fetches != [] ==> s.status == Connecting)
      && (s.socket == None ==> s.stableAt == None && !s.pinging && s.pong == NoProbe)
      && (forall k :: k in s.sockets && s.sockets[k].state == Opening ==>
            s.status == Connecting && s.stableAt == None && !s.pinging)
      && (forall k :: k in s.sockets && s.sockets[k].state == Ready ==> s.status == Connected && s.pinging)
      && (s.stableAt.Some? ==> s.stableAt.value <= s.clock + 5000)
  }

  lemma SocketStands(s: State, d: Dated)
    requires Inv(s) && Standing(s) && Enabled(s, d)
    requires d.event.SocketOpens? || d.event.SocketErrs? || d.event.PongTimesOut? || d.event.Destroy?
    ensures Standing(Next(s, d))
  {
    if !s.destroyed && s.socket.Some? {
      assert s.sockets.Keys == {s.socket.value};
    }
    match d.event
    case SocketOpens(_) =>
    case SocketErrs(_) =>
    case PongTimesOut =>
    case Destroy =>
  }

  lemma FetchStands(s: State, d: Dated)
    requires Inv(s) && Standing(s) && Enabled(s, d) && (d.event.TokenArrives? || d.event.TokenFails?)
    ensures Standing(Next(s, d))
  {
    if !s.destroyed {
      assert |s.fetches| == 1 && |s.sockets| == 0 && s.sockets == map[];
      assert Without(s.fetches, d.event.i) == [];
    }
  }

  lemma CloseStands(s: State, d: Dated)
    requires Inv(s) && Standing(s) && Enabled(s, d) && d.event.SocketCloses?
    ensures Standing(Next(s, d))
  {
    if !s.destroyed {
      OneLeft(s.sockets, d.event.k);
      assert s.fetches == [];
    }
  }

  lemma TimersStand(s: State, d: Dated)
    requires Inv(s) && Standing(s) && Enabled(s, d)
    requires d.event.ReconnectFires? || d.event.StableFires? || d.event.PingFires? || d.event.PongArrives?
    ensures Standing(Next(s, d))
  {
    match d.event
    case ReconnectFires =>
    case StableFires =>
    case PingFires =>
    case PongArrives =>
  }

  lemma NextStands(s: State, d: Dated)
    requires Inv(s) && Standing(s) && Enabled(s, d)
    ensures Standing(Next(s, d))
  {
    var e := d.event;
    if e.TokenArrives? || e.TokenFails? {
      FetchStands(s, d);
    } else if e.SocketCloses? {
      CloseStands(s, d);
    } else if e.ReconnectFires? || e.StableFires? || e.PingFires? || e.PongArrives? {
      TimersStand(s, d);
    } else {
      SocketStands(s, d);
    }
  }

  lemma {:induction false} RunStands(s: State, ds: seq<Dated>)
    requires Inv(s) && Standing(s) && Runs(s, ds)
    ensures Inv(After(s, ds)) && Standing(After(s, ds))
    decreases |ds|
  {
    if ds != [] {
      NextKeepsInv(s, ds[0]);
      NextStands(s, ds[0]);
      RunStands(Next(s, ds[0]), ds[1..]);
    }
  }

  /**
   In every reachable state a provider that has not been destroyed says what it does:
   offline exactly while it waits to reconnect, rejected exactly when it has given up,
   connecting while it fetches a token or its socket opens, connected and pinging while
   its socket is ready. A destroyed one has closed every socket and runs no timer for it.
   */
  lemma StatusTellsWhatIsUnderWay(start: int, ds: seq<Dated>)
    requires Runs(Initial(start), ds)
    ensures var s := After(Initial(start), ds);
      && Standing(s) && (!s.destroyed ==> (s.status == Rejected <==> UnderWay(s) == 0))
  {
    RunStands(Initial(start), ds);
  }

  /** A terminal close, and nothing else, makes a live provider give up. */
  lemma {:induction false} RejectedIff(start: int, ds: seq<Dated>)
    requires Runs(Initial(start), ds) && !After(Initial(start), ds).destroyed
    ensures After(Initial(start), ds).status == Rejected
       <==> exists d :: d in ds && d.event.SocketCloses? && d.event.code == DocumentNotSpecified
  {
    if ds != [] {
      var front, d := ds[..|ds| - 1], ds[|ds| - 1];
      RunEnds(Initial(start), ds);
      RejectedIff(start, front);
      RunStands(Initial(start), front);
      assert forall x :: x in ds <==> x in front || x == d;
      StatusMoves(After(Initial(start), front), d);
    }
  }

  predicate IsPlain(e: Event) {
    e.SocketOpens? || e.SocketErrs? || e.StableFires? || e.PingFires? || e.PongArrives? || e.PongTimesOut?
  }

  /** The events that neither end nor begin anything under way. */
  lemma PlainMoves(s: State, d: Dated)
    requires Enabled(s, d) && IsPlain(d.event)
    ensures var t := Next(s, d);
      && t.destroyed == s.destroyed && t.fetches == s.fetches && t.refreshToken == s.refreshToken
      && t.connects == s.connects && t.resets == s.resets + (if d.event.StableFires? then 1 else 0)
      && t.status == (if d.event.SocketOpens? then Connected else s.status)
  {
    match d.event
    case SocketOpens(_) =>
    case SocketErrs(_) =>
    case StableFires =>
    case PingFires =>
    case PongArrives =>
    case PongTimesOut =>
  }

  lemma FetchMoves(s: State, d: Dated)
    requires Enabled(s, d) && (d.event.TokenArrives? || d.event.TokenFails?) && !s.destroyed
    ensures var t := Next(s, d);
      && t.connects == s.connects && t.resets == s.resets && t.fetches == Without(s.fetches, d.event.i)
      && t.status == (if d.event.TokenFails? then Offline else s.status)
      && t.refreshToken == (d.event.TokenFails? && s.refreshToken)
  {
  }

  lemma CloseMoves(s: State, d: Dated)
    requires Enabled(s, d) && d.event.SocketCloses? && !s.destroyed
    ensures var t := Next(s, d);
      && t.connects == s.connects && t.resets == s.resets && t.fetches == s.fetches
      && t.status == (if d.event.code == DocumentNotSpecified then Rejected else Offline)
      && t.refreshToken == (s.refreshToken || d.event.code == Unauthorized)
  {
  }

  lemma FireMoves(s: State, d: Dated)
    requires Enabled(s, d) && d.event.ReconnectFires? && !s.destroyed
    ensures var t := Next(s, d);
      && t.connects == s.connects + 1 && t.resets == s.resets && t.status == Connecting
      && t.refreshToken == s.refreshToken && t.fetches == s.fetches + [s.refreshToken]
  {
  }

  /** Every event of a provider that stays alive is one of the four kinds. */
  lemma LiveMoves(s: State, d: Dated)
    requires Enabled(s, d) && !Next(s, d).destroyed
    ensures !s.destroyed && !d.event.Destroy?
  {
  }

  lemma StatusMoves(s: State, d: Dated)
    requires Inv(s) && Standing(s) && Enabled(s, d) && !Next(s, d).destroyed
    ensures Next(s, d).status == Rejected
       <==> s.status == Rejected || (d.event.SocketCloses? && d.event.code == DocumentNotSpecified)
  {
    LiveMoves(s, d);
    if s.status == Rejected {
      NothingUnderWay(s);
    }
    if IsPlain(d.event) {
      PlainMoves(s, d);
    } else if d.event.SocketCloses? {
      CloseMoves(s, d);
    } else if d.event.ReconnectFires? {
      FireMoves(s, d);
    } else {
      FetchMoves(s, d);
    }
  }

  lemma NothingUnderWay(s: State)
    requires Inv(s) && Standing(s) && !s.destroyed && s.status == Rejected
    ensures s.fetches == [] && s.sockets == map[] && s.reconnectAt == None && s.stableAt == None
  {
    assert |s.fetches| == 0 && |s.sockets| == 0;
    assert s.sockets.Keys == {};
    assert s.socket == None;
  }

  // --------------------------------------------------- how long the next try may take

  function Pow2(n: nat): nat {
    if n == 0 then 1 else 2 * Pow2(n - 1)
  }

  /** Half a second, doubled for each failure, and never more than fifteen. */
  function Ceiling(n: nat): nat {
    if 500 * Pow2(n) <= 15000 then 500 * Pow2(n) else 15000
  }

  lemma {:induction false} DoubledIsPow2(n: nat)
    ensures Doubled(n) == 500 * Pow2(n)
  {
    if n > 0 {
      DoubledIsPow2(n - 1);
    }
  }

  lemma DelayIsCeiling(n: nat)
    ensures Delay(n) == Ceiling(n)
  {
    DoubledIsPow2(n);
  }

  /** Closes and failed fetches since a socket last proved stable. */
  function Failures(ds: seq<Dated>): nat {
    if ds == [] then 0
    else
      var e := ds[|ds| - 1].event;
      if e.StableFires? then 0
      else Failures(ds[..|ds| - 1]) + if e.SocketCloses? || e.TokenFails? then 1 else 0
  }

  /** The wait still to go is within the last ceiling. */
  predicate Bounded(s: State) {
    s.reconnectAt.Some? ==> s.attempt > 0 && s.reconnectAt.value - s.clock <= Ceiling(s.attempt - 1)
  }

  /** What one event does to the count of attempts and the wait, of a live provider. */
  lemma AttemptMoves(s: State, d: Dated)
    requires Inv(s) && Standing(s) && Bounded(s) && Enabled(s, d) && s.status != Rejected
    requires !Next(s, d).destroyed && Next(s, d).status != Rejected
    ensures Bounded(Next(s, d))
    ensures Next(s, d).attempt
         == if d.event.StableFires? then 0
            else s.attempt + if d.event.SocketCloses? || d.event.TokenFails? then 1 else 0
  {
    if d.event.TokenFails? || d.event.SocketCloses? {
      FailureSchedules(s, d);
    } else if d.event.StableFires? {
      assert s.socket.Some? && s.reconnectAt == None;
    } else {
      OthersLeaveWait(s, d);
    }
  }

  lemma FailureSchedules(s: State, d: Dated)
    requires Enabled(s, d) && !s.destroyed && Next(s, d).status != Rejected
    requires d.event.TokenFails? || d.event.SocketCloses?
    ensures var t := Next(s, d);
      && t.attempt == s.attempt + 1 && t.reconnectAt == Some(d.now + d.event.jittered) && t.clock == d.now
      && Ceiling(s.attempt) <= 2 * d.event.jittered && d.event.jittered <= Ceiling(s.attempt)
  {
    DelayIsCeiling(s.attempt);
  }

  lemma OthersLeaveWait(s: State, d: Dated)
    requires Enabled(s, d)
    requires !d.event.TokenFails? && !d.event.SocketCloses? && !d.event.StableFires?
    ensures var t := Next(s, d);
      && t.attempt == s.attempt && t.clock >= s.clock && (t.reconnectAt == s.reconnectAt || t.reconnectAt == None)
  {
    match d.event
    case TokenArrives(_, _) =>
    case SocketOpens(_) =>
    case SocketErrs(_) =>
    case ReconnectFires =>
    case PingFires =>
    case PongArrives =>
    case PongTimesOut =>
    case Destroy =>
  }

  lemma {:induction false} AttemptsCountFailures(start: int, ds: seq<Dated>)
    requires Runs(Initial(start), ds)
    requires !After(Initial(start), ds).destroyed && After(Initial(start), ds).status != Rejected
    ensures After(Initial(start), ds).attempt == Failures(ds) && Bounded(After(Initial(start), ds))
  {
    if ds != [] {
      var front, d := ds[..|ds| - 1], ds[|ds| - 1];
      RunEnds(Initial(start), ds);
      RunStands(Initial(start), front);
      var s := After(Initial(start), front);
      assert !s.destroyed;
      StatusMoves(s, d);
      AttemptsCountFailures(start, front);
      AttemptMoves(s, d);
    }
  }

  /**
   No wait outlasts its failures. Over every run, while a live provider waits to
   reconnect, n closes and failed fetches after a socket last proved stable, the wait
   still to go is at most 500 ms doubled n - 1 times, and at most 15 s: one good socket
   and the next failure costs half a second again.
   */
  lemma RetryComesInTime(start: int, ds: seq<Dated>)
    requires Runs(Initial(start), ds) && !After(Initial(start), ds).destroyed
    requires After(Initial(start), ds).reconnectAt.Some?
    ensures var (s, n) := (After(Initial(start), ds), Failures(ds));
      n > 0 && s.reconnectAt.value - s.clock <= Ceiling(n - 1)
  {
    RunStands(Initial(start), ds);
    AttemptsCountFailures(start, ds);
  }

  /** And each is at least half of that long when it begins. */
  lemma RetryBeginsBetween(start: int, ds: seq<Dated>, d: Dated)
    requires Runs(Initial(start), ds) && Enabled(After(Initial(start), ds), d)
    requires d.event.TokenFails? || (d.event.SocketCloses? && d.event.code != DocumentNotSpecified)
    requires !After(Initial(start), ds).destroyed && After(Initial(start), ds).status != Rejected
    ensures var t := Next(After(Initial(start), ds), d);
      && t.reconnectAt.Some?
      && Ceiling(Failures(ds)) <= 2 * (t.reconnectAt.value - d.now)
      && t.reconnectAt.value - d.now <= Ceiling(Failures(ds))
  {
    AttemptsCountFailures(start, ds);
    FailureSchedules(After(Initial(start), ds), d);
  }

  /** A socket that opened counts as stable five seconds later, unless it closes or the provider is destroyed first. */
  lemma {:induction false} StableAfterFiveSeconds(s: State, ds: seq<Dated>, k: SocketId, due: int)
    requires Inv(s) && Runs(s, ds) && !s.destroyed && k in s.sockets && s.sockets[k].state != Opening
    requires s.stableAt == Some(due)
    requires forall d :: d in ds ==> !d.event.SocketCloses? && !d.event.StableFires? && !d.event.Destroy?
    ensures After(s, ds).stableAt == Some(due)
    decreases |ds|
  {
    if ds != [] {
      assert ds[0] in ds && forall d :: d in ds[1..] ==> d in ds;
      OneSocket(s, k);
      NextKeepsInv(s, ds[0]);
      StableAfterFiveSeconds(Next(s, ds[0]), ds[1..], k, due);
    }
  }

  lemma OneSocket(s: State, k: SocketId)
    requires Inv(s) && !s.destroyed && k in s.sockets
    ensures s.fetches == [] && s.reconnectAt == None && s.sockets.Keys == {k} && s.socket == Some(k)
  {
    assert k in s.sockets.Keys && |s.sockets| > 0;
  }

  lemma OpeningArmsStability(start: int, ds: seq<Dated>, k: SocketId, now: int, more: seq<Dated>)
    requires Runs(Initial(start), ds) && !After(Initial(start), ds).destroyed
    requires Enabled(After(Initial(start), ds), Dated(SocketOpens(k), now))
    requires Runs(Next(After(Initial(start), ds), Dated(SocketOpens(k), now)), more)
    requires forall d :: d in more ==> !d.event.SocketCloses? && !d.event.StableFires? && !d.event.Destroy?
    ensures After(Next(After(Initial(start), ds), Dated(SocketOpens(k), now)), more).stableAt == Some(now + 5000)
  {
    RunKeepsInv(Initial(start), ds);
    NextKeepsInv(After(Initial(start), ds), Dated(SocketOpens(k), now));
    StableAfterFiveSeconds(Next(After(Initial(start), ds), Dated(SocketOpens(k), now)), more, k, now + 5000);
  }

  // ------------------------------------------------------------- tokens and sockets

  /** The server has refused a token since the last one was fetched. */
  predicate Refused(ds: seq<Dated>) {
    ds != [] &&
    var e := ds[|ds| - 1].event;
    if e.TokenArrives? then false
    else if e.SocketCloses? && e.code == Unauthorized then true
    else Refused(ds[..|ds| - 1])
  }

  lemma RefreshMoves(s: State, d: Dated)
    requires Inv(s) && Enabled(s, d) && !Next(s, d).destroyed
    requires forall f :: f in s.fetches ==> f == s.refreshToken
    ensures Next(s, d).refreshToken
       <==> (!d.event.TokenArrives? && (s.refreshToken || (d.event.SocketCloses? && d.event.code == Unauthorized)))
    ensures forall f :: f in Next(s, d).fetches ==> f == Next(s, d).refreshToken
  {
    LiveMoves(s, d);
    if IsPlain(d.event) {
      PlainMoves(s, d);
    } else if d.event.SocketCloses? {
      OneSocket(s, d.event.k);
      CloseMoves(s, d);
    } else if d.event.ReconnectFires? {
      FireMoves(s, d);
    } else {
      FetchMoves(s, d);
      assert |s.fetches| == 1 && Without(s.fetches, d.event.i) == [];
    }
  }

  /** A live provider's token fetch asks for a fresh token if and only if the last one was refused. */
  lemma {:induction false} FetchRefreshesIffRefused(start: int, ds: seq<Dated>)
    requires Runs(Initial(start), ds) && !After(Initial(start), ds).destroyed
    ensures var s := After(Initial(start), ds);
      (s.refreshToken <==> Refused(ds)) && forall f :: f in s.fetches ==> (f <==> Refused(ds))
  {
    if ds != [] {
      var front, d := ds[..|ds| - 1], ds[|ds| - 1];
      RunEnds(Initial(start), ds);
      RunKeepsInv(Initial(start), front);
      FetchRefreshesIffRefused(start, front);
      RefreshMoves(After(Initial(start), front), d);
    }
  }

  /** And so the socket its token opens was fetched afresh exactly in that case. */
  lemma SocketRefreshedIffRefused(start: int, ds: seq<Dated>, i: nat, k: SocketId, now: int)
    requires Runs(Initial(start), ds) && !After(Initial(start), ds).destroyed
    requires Enabled(After(Initial(start), ds), Dated(TokenArrives(i, k), now))
    ensures Next(After(Initial(start), ds), Dated(TokenArrives(i, k), now)).sockets[k].refreshed <==> Refused(ds)
  {
    FetchRefreshesIffRefused(start, ds);
    assert After(Initial(start), ds).fetches[i] in After(Initial(start), ds).fetches;
  }

  /** Connection attempts and resets are what the history fields count. */
  function Count(ds: seq<Dated>, fires: bool): nat {
    if ds == [] then 0
    else
      var e := ds[0].event;
      Count(ds[1..], fires) + if (if fires then e.ReconnectFires? else e.StableFires?) then 1 else 0
  }

  lemma HistoryMoves(s: State, d: Dated)
    requires Enabled(s, d) && !Next(s, d).destroyed
    ensures Next(s, d).connects == s.connects + if d.event.ReconnectFires? then 1 else 0
    ensures Next(s, d).resets == s.resets + if d.event.StableFires? then 1 else 0
  {
    LiveMoves(s, d);
    if IsPlain(d.event) {
      PlainMoves(s, d);
    } else if d.event.SocketCloses? {
      CloseMoves(s, d);
    } else if d.event.ReconnectFires? {
      FireMoves(s, d);
    } else {
      FetchMoves(s, d);
    }
  }

  lemma {:induction false} HistoryCounts(s: State, ds: seq<Dated>)
    requires Runs(s, ds) && !After(s, ds).destroyed
    ensures After(s, ds).connects == s.connects + Count(ds, true)
    ensures After(s, ds).resets == s.resets + Count(ds, false)
    decreases |ds|
  {
    if ds != [] {
      StaysAlive(Next(s, ds[0]), ds[1..]);
      HistoryMoves(s, ds[0]);
      HistoryCounts(Next(s, ds[0]), ds[1..]);
    }
  }

  lemma {:induction false} StaysAlive(s: State, ds: seq<Dated>)
    requires Runs(s, ds) && !After(s, ds).destroyed
    ensures !s.destroyed
    decreases |ds|
  {
    if ds != [] {
      StaysAlive(Next(s, ds[0]), ds[1..]);
    }
  }

  /** The backoff bound on the events: over any stretch of T ms, the reconnect timer fires at most so often. */
  lemma ReconnectsAreBounded(s: State, ds: seq<Dated>)
    requires Runs(s, ds) && !After(s, ds).destroyed
    ensures var elapsed := After(s, ds).clock - s.clock;
      && 7500 * Count(ds, true) <= elapsed + 37250 + 29750 * Count(ds, false)
      && 5000 * Count(ds, false) <= elapsed + 5000
  {
    HistoryCounts(s, ds);
    AttemptsAreBounded(s, ds);
  }

  /** A ready socket is probed at its next ping, and the silent server behind it is then dropped in ten seconds. */
  lemma SilenceIsNoticed(start: int, before: seq<Dated>, k: SocketId, now: int, ds: seq<Dated>)
    requires Runs(Initial(start), before)
    requires var s := After(Initial(start), before);
      !s.destroyed && k in s.sockets && s.sockets[k].state == Ready && s.pong == NoProbe && now >= s.clock
    requires Enabled(After(Initial(start), before), Dated(PingFires, now)) ==>
      Runs(Next(After(Initial(start), before), Dated(PingFires, now)), ds)
    requires forall i :: 0 <= i < |ds| ==> !ds[i].event.PongArrives?
    ensures Enabled(After(Initial(start), before), Dated(PingFires, now))
    ensures var t := Next(After(Initial(start), before), Dated(PingFires, now));
      && (Probed(After(t, ds), k, now + 10000) || Dropped(After(t, ds), ds, k))
      && ((exists i :: 0 <= i < |ds| && ds[i].event.PongTimesOut?) ==> Dropped(After(t, ds), ds, k))
  {
    var s := After(Initial(start), before);
    RunStands(Initial(start), before);
    OneSocket(s, k);
    NextKeepsInv(s, Dated(PingFires, now));
    SilentServerIsDropped(Next(s, Dated(PingFires, now)), ds, k, now + 10000);
  }

  /** A socket that reports an error is closed. */
  lemma FailedSocketIsDropped(s: State, k: SocketId, now: int, ds: seq<Dated>)
    requires Inv(s) && Enabled(s, Dated(SocketErrs(k), now)) && Runs(Next(s, Dated(SocketErrs(k), now)), ds)
    ensures Dropped(After(Next(s, Dated(SocketErrs(k), now)), ds), ds, k)
  {
    NextKeepsInv(s, Dated(SocketErrs(k), now));
    DroppedStays(Next(s, Dated(SocketErrs(k), now)), ds, k);
  }

  /**
   The pong timer by the events: a ping that finds none outstanding is due in ten
   seconds, a pong or the end of the socket calls it off, and once it has run out no
   ping starts it again.
   */
  function ProbeOf(ds: seq<Dated>): Probe {
    if ds == [] then NoProbe
    else
      var before, d := ProbeOf(ds[..|ds| - 1]), ds[|ds| - 1];
      match d.event
      case PingFires => if before == NoProbe then Waiting(d.now + 10000) else before
      case PongArrives => NoProbe
      case PongTimesOut => Overdue
      case SocketCloses(_, _, _) => NoProbe
      case Destroy => NoProbe
      case _ => before
  }

  lemma {:induction false} ProbeFollowsEvents(start: int, ds: seq<Dated>)
    requires Runs(Initial(start), ds)
    ensures After(Initial(start), ds).pong == ProbeOf(ds)
  {
    if ds != [] {
      RunEnds(Initial(start), ds);
      ProbeFollowsEvents(start, ds[..|ds| - 1]);
      ProbeMoves(After(Initial(start), ds[..|ds| - 1]), ds[|ds| - 1]);
    }
  }

  lemma ProbeMoves(s: State, d: Dated)
    requires Enabled(s, d)
    ensures Next(s, d).pong
         == match d.event
            case PingFires => if s.pong == NoProbe then Waiting(d.now + 10000) else s.pong
            case PongArrives => NoProbe
            case PongTimesOut => Overdue
            case SocketCloses(_, _, _) => NoProbe
            case Destroy => NoProbe
            case _ => s.pong
  {
    match d.event
    case TokenArrives(_, _) =>
    case TokenFails(_, _) =>
    case SocketOpens(_) =>
    case SocketErrs(_) =>
    case SocketCloses(_, _, _) =>
    case ReconnectFires =>
    case StableFires =>
    case PingFires =>
    case PongArrives =>
    case PongTimesOut =>
    case Destroy =>
  }

  /** A server that answers is not dropped: the pong timer fires only ten seconds after a ping no pong has answered. */
  lemma OnlySilenceTimesOut(start: int, ds: seq<Dated>, now: int)
    requires Runs(Initial(start), ds) && Enabled(After(Initial(start), ds), Dated(PongTimesOut, now))
    ensures ProbeOf(ds).Waiting? && now >= ProbeOf(ds).due
    ensures exists i :: 0 <= i < |ds| && ds[i].event.PingFires? && now >= ds[i].now + 10000
                        && forall j :: i < j < |ds| ==> !ds[j].event.PongArrives? && !ds[j].event.SocketCloses?
  {
    ProbeFollowsEvents(start, ds);
    WaitingSincePing(ds);
  }

  lemma {:induction false} WaitingSincePing(ds: seq<Dated>)
    requires ProbeOf(ds).Waiting?
    ensures exists i :: 0 <= i < |ds| && ds[i].event.PingFires? && ProbeOf(ds).due == ds[i].now + 10000
                        && forall j :: i < j < |ds| ==> !ds[j].event.PongArrives? && !ds[j].event.SocketCloses?
  {
    var front, d := ds[..|ds| - 1], ds[|ds| - 1];
    if ProbeOf(front).Waiting? {
      WaitingSincePing(front);
      var i :| 0 <= i < |front| && front[i].event.PingFires? && ProbeOf(front).due == front[i].now + 10000
        && forall j :: i < j < |front| ==> !front[j].event.PongArrives? && !front[j].event.SocketCloses?;
      assert ds[i] == front[i];
      assert forall j :: i < j < |ds| ==> j == |ds| - 1 || ds[j] == front[j];
    } else {
      assert d.event.PingFires?;
    }
  }
}
