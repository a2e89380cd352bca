/**
 apps/server/src/ws/connection.ts: which of a socket's frames reach the room, and
 in what order. Unauthenticated, joining, joined; two budgets; one short queue.
 */
module Connection {
  import opened Crdt
  import opened RateLimit
  import Limit = RateLimit

  const MAX_QUEUED_FRAMES := 32

  /** Whether a token verifies is decided elsewhere. */
  datatype Kind = SyncFrame | AwarenessFrame | PingFrame | PongFrame | AuthFrame(verifies: bool)

  datatype Frame = Frame(id: nat, kind: Kind, size: nat)

  datatype Config = Config(bytesPerSecond: real, presencePerSecond: real, minFrameCost: nat)

  /** `handled` is what was dispatched to the room; `gone` once the close event has fired. */
  datatype State = State(
    user: bool,
    joined: bool,
    queued: seq<Frame>,
    document: Bucket,
    presence: Bucket,
    open: bool,
    authTimer: bool,
    gone: bool,
    handled: seq<Frame>)

  datatype Event =
    | Receive(frame: Frame, now: int)
    | AuthTimesOut
    | RoomReady
    | RoomFails
    | SocketFails
    | SocketClosed

  function Start(g: Config, now: int): State {
    State(false, false, [],
          Fresh(g.bytesPerSecond * 2.0, g.bytesPerSecond, now),
          Fresh(g.presencePerSecond * 2.0, g.presencePerSecond, now),
          true, true, false, [])
  }

  function Cost(g: Config, f: Frame): real {
    (if f.size >= g.minFrameCost then f.size else g.minFrameCost) as real
  }

  /** What the frame asks of its budget. */
  function Ask(g: Config, f: Frame, now: int): Request {
    Request(now, if f.kind.AwarenessFrame? then 1.0 else Cost(g, f))
  }

  predicate WithinLimits(c: State, g: Config, f: Frame, now: int) {
    Admits(if f.kind.AwarenessFrame? then c.presence else c.document, Ask(g, f, now))
  }

  /** Both outcomes of withinLimits: the budget is charged, and a document frame over budget costs the socket. */
  function Charged(c: State, g: Config, f: Frame, now: int): State {
    if f.kind.AwarenessFrame? then c.(presence := Take(c.presence, Ask(g, f, now)))
    else c.(document := Take(c.document, Ask(g, f, now)), open := c.open && WithinLimits(c, g, f, now))
  }

  function OnFrameSpec(c: State, g: Config, f: Frame, now: int): State {
    if c.user then
      var charged := Charged(c, g, f, now);
      if !WithinLimits(c, g, f, now) then charged
      else if c.joined then charged.(handled := c.handled + [f])
      else if |c.queued| < MAX_QUEUED_FRAMES then charged.(queued := c.queued + [f])
      else charged
    else if f.kind.AuthFrame? && f.kind.verifies then c.(user := true, authTimer := false)
    else c.(open := false)
  }

  predicate Enabled(c: State, e: Event) {
    match e
    case AuthTimesOut => c.authTimer
    case RoomReady => c.user && !c.joined
    case RoomFails => c.user && !c.joined
    case _ => true
  }

  function Next(c: State, g: Config, e: Event): State {
    match e
    case Receive(f, now) => if c.gone then c else OnFrameSpec(c, g, f, now)
    case AuthTimesOut => c.(open := false, authTimer := false)
    case RoomReady =>
      if c.open then c.(joined := true, handled := c.handled + c.queued, queued := []) else c
    case RoomFails => c.(open := false)
    case SocketFails => c.(open := false)
    case SocketClosed => c.(open := false, gone := true, authTimer := false)
  }

  class Connection {
    const config: Config
    const documentBudget: TokenBucket
    const presenceBudget: TokenBucket
    var user: bool
    var joined: bool
    var queued: seq<Frame>
    var open: bool
    var authTimer: bool
    var gone: bool
    var handled: seq<Frame>

    ghost predicate Valid()
      reads this
    {
      documentBudget != presenceBudget
    }

    function View(): State
      reads this, documentBudget, presenceBudget
    {
      State(user, joined, queued, documentBudget.View(), presenceBudget.View(), open, authTimer, gone, handled)
    }

    constructor (config: Config, now: int)
      ensures Valid() && fresh(documentBudget) && fresh(presenceBudget)
      ensures this.config == config && View() == Start(config, now)
    {
      this.config := config;
      documentBudget := new TokenBucket(config.bytesPerSecond * 2.0, config.bytesPerSecond, now);
      presenceBudget := new TokenBucket(config.presencePerSecond * 2.0, config.presencePerSecond, now);
      user, joined, queued, open, authTimer, gone, handled := false, false, [], true, true, false, [];
    }

    method OnFrame(f: Frame, now: int)
      requires Valid() && !gone
      modifies this, documentBudget, presenceBudget
      ensures Valid() && View() == Next(old(View()), config, Receive(f, now))
    {
      if user {
        var ok := CheckLimits(f, now);
        if !ok {
          return;
        }
      }
      if !user {
        if !f.kind.AuthFrame? {
          CloseSocket();
          return;
        }
        Authenticate(f.kind.verifies);
        return;
      }
      if !joined {
        if |queued| < MAX_QUEUED_FRAMES {
          queued := queued + [f];
        }
        return;
      }
      Dispatch(f);
    }

    method CheckLimits(f: Frame, now: int) returns (ok: bool)
      requires Valid()
      modifies this`open, documentBudget, presenceBudget
      ensures Valid() && ok == WithinLimits(old(View()), config, f, now)
      ensures View() == Charged(old(View()), config, f, now)
    {
      if f.kind.AwarenessFrame? {
        ok := presenceBudget.TakeTokens(now, 1.0);
        return;
      }
      ok := documentBudget.TakeTokens(now, Cost(config, f));
      if ok {
        return;
      }
      CloseSocket();
    }

    method Authenticate(verifies: bool)
      modifies this`open, this`user, this`authTimer
      ensures verifies ==> user && !authTimer && open == old(open)
      ensures !verifies ==> !open && user == old(user) && authTimer == old(authTimer)
    {
      if !verifies {
        CloseSocket();
        return;
      }
      authTimer := false;
      user := true;
    }

    /** The handshake took too long. */
    method OnAuthTimeout()
      requires Valid() && authTimer
      modifies this
      ensures Valid() && View() == Next(old(View()), config, AuthTimesOut)
    {
      authTimer := false;
      CloseSocket();
    }

    /** join() once the registry has answered with a room. */
    method Join()
      requires Valid() && user && !joined
      modifies this
      ensures Valid() && View() == Next(old(View()), config, RoomReady)
    {
      if !open {
        return;
      }
      joined := true;
      var n := |queued|;
      for i := 0 to n
        modifies this`handled
        invariant handled == old(handled) + queued[..i]
      {
        assert queued[..i + 1] == queued[..i] + [queued[i]];
        Dispatch(queued[i]);
      }
      assert queued[..n] == queued;
      queued := [];
    }

    method Dispatch(f: Frame)
      modifies this`handled
      ensures handled == old(handled) + [f]
    {
      handled := handled + [f];
    }

    method CloseSocket()
      modifies this`open
      ensures !open
    {
      open := false;
    }

    method OnSocketClosed()
      requires Valid()
      modifies this
      ensures Valid() && View() == Next(old(View()), config, SocketClosed)
    {
      authTimer := false;
      open, gone := false, true;
    }
  }

  // --------------------------------------------------------------- inbound order

  predicate Runs(c: State, g: Config, es: seq<Event>) {
    es == [] || (Runs(c, g, es[..|es| - 1]) && Enabled(After(c, g, es[..|es| - 1]), es[|es| - 1]))
  }

  function After(c: State, g: Config, es: seq<Event>): State {
    if es == [] then c else Next(After(c, g, es[..|es| - 1]), g, es[|es| - 1])
  }

  /** A frame received from an authenticated client within its budget. */
  predicate Accepts(c: State, g: Config, e: Event) {
    e.Receive? && !c.gone && c.user && WithinLimits(c, g, e.frame, e.now)
  }

  /** The accepted frames of a run, before or after the room was joined. */
  function Accepted(c: State, g: Config, es: seq<Event>, joined: bool): seq<Frame> {
    if es == [] then []
    else
      var front, e := es[..|es| - 1], es[|es| - 1];
      var before := After(c, g, front);
      Accepted(c, g, front, joined) + if Accepts(before, g, e) && before.joined == joined then [e.frame] else []
  }

  function FirstOf(fs: seq<Frame>): seq<Frame> {
    if |fs| <= MAX_QUEUED_FRAMES then fs else fs[..MAX_QUEUED_FRAMES]
  }

  /** What a connection has handled and queued, given what it accepted while loading and since. */
  predicate InOrder(c: State, loading: seq<Frame>, since: seq<Frame>) {
    && (c.joined ==> c.user && c.queued == [] && c.handled == FirstOf(loading) + since)
    && (!c.joined ==> c.handled == [] && c.queued == FirstOf(loading) && since == [])
  }

  lemma StepKeepsOrder(c: State, g: Config, e: Event, loading: seq<Frame>, since: seq<Frame>)
    requires InOrder(c, loading, since) && Enabled(c, e)
    ensures InOrder(Next(c, g, e),
                    loading + if Accepts(c, g, e) && !c.joined then [e.frame] else [],
                    since + if Accepts(c, g, e) && c.joined then [e.frame] else [])
  {
    assert loading + [] == loading && since + [] == since;
    if e.Receive? {
      assert FirstOf(loading) + (since + [e.frame]) == FirstOf(loading) + since + [e.frame];
    }
    if e.RoomReady? {
      assert [] + FirstOf(loading) == FirstOf(loading) + [];
    }
  }

  /**
   Inbound order, over every run: a connection that has joined has handled the first
   32 frames it accepted while its document loaded and then every frame accepted
   since, in order of arrival; one that has not has handled nothing. Frames accepted
   come only from a client whose token verified.
   */
  lemma {:induction false} HandledInOrder(g: Config, start: int, es: seq<Event>)
    requires Runs(Start(g, start), g, es)
    ensures InOrder(After(Start(g, start), g, es),
                    Accepted(Start(g, start), g, es, false), Accepted(Start(g, start), g, es, true))
  {
    if es != [] {
      var c, front, e := Start(g, start), es[..|es| - 1], es[|es| - 1];
      HandledInOrder(g, start, front);
      StepKeepsOrder(After(c, g, front), g, e, Accepted(c, g, front, false), Accepted(c, g, front, true));
    }
  }

  /** Nothing but the timer is spent on a socket whose user is unknown. */
  predicate Idle(c: State) {
    && (!c.user ==> !c.joined && c.queued == [] && c.handled == [])
    && (c.authTimer ==> !c.user && !c.gone)
    && (!c.user && !c.gone && c.open ==> c.authTimer)
  }

  /**
   Until a token verifies nothing is queued or handled. The timer runs only while the
   user is unknown and the socket has not gone, and it runs for as long as such a
   socket is open: no unauthenticated socket stays open without it.
   */
  lemma {:induction false} UnauthenticatedCostsATimer(g: Config, start: int, es: seq<Event>)
    requires Runs(Start(g, start), g, es)
    ensures Idle(After(Start(g, start), g, es))
  {
    if es != [] {
      var front, e := es[..|es| - 1], es[|es| - 1];
      UnauthenticatedCostsATimer(g, start, front);
    }
  }

  // ----------------------------------------------------- told from the events alone

  /** A token that verifies has come in before the socket went. */
  predicate Verified(es: seq<Event>) {
    es != [] &&
    var front, e := es[..|es| - 1], es[|es| - 1];
    Verified(front)
    || (SocketClosed !in front && e.Receive? && e.frame.kind.AuthFrame? && e.frame.kind.verifies)
  }

  /** Until then nothing but such a token has come in. */
  predicate TokenFirst(es: seq<Event>) {
    es == [] ||
    var front, e := es[..|es| - 1], es[|es| - 1];
    TokenFirst(front)
    && (e.Receive? && SocketClosed !in front && !Verified(front) ==> e.frame.kind.AuthFrame? && e.frame.kind.verifies)
  }

  /** What a frame asks: presence one token, anything else its size in bytes, or the floor if it is smaller. */
  function Asks(g: Config, f: Frame, now: int): Request {
    if f.kind.AwarenessFrame? then Request(now, 1.0)
    else if f.size < g.minFrameCost then Request(now, g.minFrameCost as real)
    else Request(now, f.size as real)
  }

  /** What the frames of an authenticated client have asked of one of its budgets, in order. */
  function Asked(g: Config, es: seq<Event>, presence: bool): seq<Request> {
    if es == [] then []
    else
      var front, e := es[..|es| - 1], es[|es| - 1];
      Asked(g, front, presence)
      + if e.Receive? && SocketClosed !in front && Verified(front) && e.frame.kind.AwarenessFrame? == presence
        then [Asks(g, e.frame, e.now)] else []
  }

  function DocumentBudget(g: Config, start: int): Bucket {
    Fresh(2.0 * g.bytesPerSecond, g.bytesPerSecond, start)
  }

  function PresenceBudget(g: Config, start: int): Bucket {
    Fresh(2.0 * g.presencePerSecond, g.presencePerSecond, start)
  }

  /** Who the client is and what its budgets hold, over every run. */
  lemma {:induction false} StateFollowsEvents(g: Config, start: int, es: seq<Event>)
    ensures var c := After(Start(g, start), g, es);
      && (c.user <==> Verified(es)) && (c.gone <==> SocketClosed in es)
      && c.document == Limit.After(DocumentBudget(g, start), Asked(g, es, false))
      && c.presence == Limit.After(PresenceBudget(g, start), Asked(g, es, true))
  {
    if es != [] {
      var front, e := es[..|es| - 1], es[|es| - 1];
      var before := After(Start(g, start), g, front);
      StateFollowsEvents(g, start, front);
      assert SocketClosed in es <==> SocketClosed in front || e == SocketClosed;
      BudgetsMove(before, g, e);
      var document, presence := Asked(g, front, false), Asked(g, front, true);
      assert document + [] == document && presence + [] == presence;
      if e.Receive? {
        var r := Asks(g, e.frame, e.now);
        assert (document + [r])[..|document|] == document && (presence + [r])[..|presence|] == presence;
      }
    }
  }

  /** A frame of an authenticated client is charged to its own budget, and nothing else moves either. */
  lemma BudgetsMove(c: State, g: Config, e: Event)
    ensures var (t, charged) := (Next(c, g, e), e.Receive? && !c.gone && c.user);
      && t.document == (if charged && !e.frame.kind.AwarenessFrame?
                        then Take(c.document, Asks(g, e.frame, e.now)) else c.document)
      && t.presence == (if charged && e.frame.kind.AwarenessFrame?
                        then Take(c.presence, Asks(g, e.frame, e.now)) else c.presence)
      && t.user == (c.user || (e.Receive? && !c.gone && e.frame.kind.AuthFrame? && e.frame.kind.verifies))
      && t.gone == (c.gone || e.SocketClosed?)
  {
    if e.Receive? {
      assert Ask(g, e.frame, e.now) == Asks(g, e.frame, e.now);
    }
  }

  /** A frame is let through if and only if its budget, as the frames before it have left it, can pay for it. */
  lemma AcceptedIffAffordable(g: Config, start: int, es: seq<Event>, f: Frame, now: int)
    ensures var presence := f.kind.AwarenessFrame?;
      var budget := if presence then PresenceBudget(g, start) else DocumentBudget(g, start);
      Accepts(After(Start(g, start), g, es), g, Receive(f, now))
      <==> SocketClosed !in es && Verified(es) && Admits(Limit.After(budget, Asked(g, es, presence)), Asks(g, f, now))
  {
    StateFollowsEvents(g, start, es);
    assert Ask(g, f, now) == Asks(g, f, now);
  }

  /** Neither the timer, nor the network, nor a failed load has closed the socket. */
  predicate Undisturbed(es: seq<Event>) {
    forall e :: e in es ==> e.Receive? || e.RoomReady?
  }

  /** Every request of a run was let through. */
  predicate AllAccepted(b: Bucket, rs: seq<Request>) {
    rs == [] || (AllAccepted(b, rs[..|rs| - 1]) && Limit.Accepted(b, rs, |rs| - 1))
  }

  /**
   A dropped edit costs the socket. Over every run the socket is open if and only if
   nothing outside closed it, the first frame was a token that verifies, and every
   document frame since was within its budget: no client that lost an edit stays on.
   */
  lemma {:induction false} OpenIff(g: Config, start: int, es: seq<Event>)
    ensures After(Start(g, start), g, es).open
       <==> Undisturbed(es) && TokenFirst(es) && AllAccepted(DocumentBudget(g, start), Asked(g, es, false))
  {
    if es != [] {
      var front, e := es[..|es| - 1], es[|es| - 1];
      OpenIff(g, start, front);
      StateFollowsEvents(g, start, front);
      assert Undisturbed(es) <==> Undisturbed(front) && (e.Receive? || e.RoomReady?) by {
        assert forall d :: d in es <==> d in front || d == e;
      }
      var rs := Asked(g, front, false);
      assert rs + [] == rs;
      if e.Receive? && SocketClosed !in front {
        var r := Asks(g, e.frame, e.now);
        assert (rs + [r])[..|rs|] == rs;
        OpenMoves(After(Start(g, start), g, front), g, e.frame, e.now);
      }
      assert SocketClosed in front ==> !Undisturbed(front);
    }
  }

  /** What one frame does to the socket. */
  lemma OpenMoves(c: State, g: Config, f: Frame, now: int)
    requires !c.gone
    ensures Next(c, g, Receive(f, now)).open
       <==> c.open && (if c.user then f.kind.AwarenessFrame? || Admits(c.document, Asks(g, f, now))
                       else f.kind.AuthFrame? && f.kind.verifies)
  {
    assert Ask(g, f, now) == Asks(g, f, now);
  }

  /** Hence while the socket is open no verdict of its document budget has gone against it. */
  lemma {:induction false} OpenMeansNothingRefused(g: Config, start: int, es: seq<Event>)
    requires After(Start(g, start), g, es).open
    ensures forall v :: v in Verdicts(Start(g, start), g, es) ==> v
  {
    if es != [] {
      var front, e := es[..|es| - 1], es[|es| - 1];
      var before := After(Start(g, start), g, front);
      OpenIff(g, start, es);
      OpenIff(g, start, front);
      assert forall d :: d in front ==> d in es;
      if e.Receive? && !before.gone {
        OpenMoves(before, g, e.frame, e.now);
        assert Ask(g, e.frame, e.now) == Asks(g, e.frame, e.now);
      } else {
        assert before.open;
      }
      OpenMeansNothingRefused(g, start, front);
    }
  }

  /** Presence is only ever dropped: no presence frame of an authenticated client closes its socket. */
  lemma PresenceNeverCloses(c: State, g: Config, f: Frame, now: int)
    requires c.user && f.kind.AwarenessFrame?
    ensures Next(c, g, Receive(f, now)).open == c.open
  {
  }

  predicate ReadyAt(c: State, g: Config, es: seq<Event>, i: nat)
    requires i < |es|
  {
    es[i] == RoomReady && After(c, g, es[..i]).open
  }

  predicate ReadyWhileOpen(c: State, g: Config, es: seq<Event>) {
    exists i :: 0 <= i < |es| && ReadyAt(c, g, es, i)
  }

  lemma ReadyPush(c: State, g: Config, front: seq<Event>, e: Event)
    ensures ReadyWhileOpen(c, g, front + [e])
       <==> ReadyWhileOpen(c, g, front) || (e == RoomReady && After(c, g, front).open)
  {
    var es := front + [e];
    forall i | 0 <= i < |front| ensures ReadyAt(c, g, es, i) <==> ReadyAt(c, g, front, i) {
      assert es[..i] == front[..i];
    }
    assert es[..|front|] == front;
    assert ReadyAt(c, g, es, |front|) <==> e == RoomReady && After(c, g, front).open;
  }

  lemma JoinedMoves(c: State, g: Config, e: Event)
    ensures Next(c, g, e).joined <==> c.joined || (e == RoomReady && c.open)
  {
  }

  /** The join went through if and only if its room was ready while the socket was open. */
  lemma {:induction false} JoinedIff(g: Config, start: int, es: seq<Event>)
    ensures After(Start(g, start), g, es).joined <==> ReadyWhileOpen(Start(g, start), g, es)
  {
    if es != [] {
      var c, front, e := Start(g, start), es[..|es| - 1], es[|es| - 1];
      JoinedIff(g, start, front);
      ReadyPush(c, g, front, e);
      assert front + [e] == es;
      JoinedMoves(After(c, g, front), g, e);
    }
  }

  // ------------------------------------------------------- many small frames add up

  /** How many requests from position `from` on were let through. */
  function LetThrough(b: Bucket, rs: seq<Request>, from: nat): nat
    requires from <= |rs|
    decreases |rs|
  {
    if from == |rs| then 0
    else
      var n := |rs| - 1;
      LetThrough(b, rs[..n], from) + if Limit.Accepted(b, rs, n) then 1 else 0
  }

  function Times(n: nat, x: real): real {
    n as real * x
  }

  lemma OneMore(n: nat, x: real)
    ensures Times(n + 1, x) == Times(n, x) + x
  {
  }

  lemma SpentStep(b: Bucket, rs: seq<Request>, from: nat, floor: real)
    requires from < |rs| && rs[|rs| - 1].cost >= floor
    requires Spent(b, rs[..|rs| - 1], from) >= Times(LetThrough(b, rs[..|rs| - 1], from), floor)
    ensures Spent(b, rs, from) >= Times(LetThrough(b, rs, from), floor)
  {
    OneMore(LetThrough(b, rs[..|rs| - 1], from), floor);
  }

  lemma {:induction false} SpentAtLeast(b: Bucket, rs: seq<Request>, from: nat, floor: real)
    requires from <= |rs| && forall r :: r in rs ==> r.cost >= floor
    ensures Spent(b, rs, from) >= Times(LetThrough(b, rs, from), floor)
    decreases |rs|
  {
    if from != |rs| {
      var n := |rs| - 1;
      assert rs[n] in rs && forall r :: r in rs[..n] ==> r in rs;
      SpentAtLeast(b, rs[..n], from, floor);
      SpentStep(b, rs, from, floor);
    }
  }

  lemma {:induction false} AskedAtLeast(g: Config, es: seq<Event>)
    ensures forall r :: r in Asked(g, es, false) ==> r.cost >= g.minFrameCost as real
    ensures forall r :: r in Asked(g, es, true) ==> r.cost == 1.0
  {
    if es != [] {
      AskedAtLeast(g, es[..|es| - 1]);
    }
  }

  /**
   The floor does its work: in any window that ends with a document frame let through,
   the frames let through, however small, number at most two seconds' worth of bytes
   and what the window earned, in units of minFrameCost.
   */
  lemma SmallFramesAreLimited(g: Config, start: int, es: seq<Event>, i: nat)
    requires var rs := Asked(g, es, false);
      i < |rs| && Limit.Accepted(DocumentBudget(g, start), rs, |rs| - 1)
    ensures var (b, rs) := (DocumentBudget(g, start), Asked(g, es, false));
      Times(LetThrough(b, rs, i), g.minFrameCost as real)
      <= 2.0 * g.bytesPerSecond + Earned(g.bytesPerSecond, rs[|rs| - 1].now - rs[i].now)
  {
    var b, rs := DocumentBudget(g, start), Asked(g, es, false);
    WindowBound(b, rs, i);
    AskedAtLeast(g, es);
    SpentAtLeast(b, rs, i, g.minFrameCost as real);
  }

  // ----------------------------------------------- presence cannot starve edits

  function WithoutPresence(es: seq<Event>): seq<Event> {
    if es == [] then []
    else
      var e := es[|es| - 1];
      WithoutPresence(es[..|es| - 1]) + if e.Receive? && e.frame.kind.AwarenessFrame? then [] else [e]
  }

  /** The verdicts of the document budget over a run, in order. */
  function Verdicts(c: State, g: Config, es: seq<Event>): seq<bool> {
    if es == [] then []
    else
      var front, e := es[..|es| - 1], es[|es| - 1];
      var before := After(c, g, front);
      Verdicts(c, g, front)
      + if e.Receive? && !before.gone && before.user && !e.frame.kind.AwarenessFrame?
        then [WithinLimits(before, g, e.frame, e.now)] else []
  }

  /** The part of a connection that decides its document verdicts. */
  predicate Alike(c: State, d: State) {
    c.document == d.document && c.user == d.user && c.gone == d.gone
  }

  /** What decides a document verdict is changed by document frames alone. */
  lemma DocumentFramesDecide(c: State, g: Config, e: Event)
    ensures var t := Next(c, g, e);
      && t.document == (if e.Receive? && !c.gone && c.user && !e.frame.kind.AwarenessFrame?
                        then Take(c.document, Ask(g, e.frame, e.now)) else c.document)
      && t.user == (c.user || (e.Receive? && !c.gone && e.frame.kind.AuthFrame? && e.frame.kind.verifies))
      && t.gone == (c.gone || e.SocketClosed?)
  {
    match e
    case Receive(f, now) =>
    case AuthTimesOut =>
    case RoomReady =>
    case RoomFails =>
    case SocketFails =>
    case SocketClosed =>
  }

  lemma AlikeStays(c: State, d: State, g: Config, e: Event)
    requires Alike(c, d)
    ensures Alike(Next(c, g, e), Next(d, g, e))
    ensures e.Receive? && e.frame.kind.AwarenessFrame? ==> Alike(c, Next(d, g, e))
    ensures e.Receive? && !e.frame.kind.AwarenessFrame? ==>
      WithinLimits(c, g, e.frame, e.now) == WithinLimits(d, g, e.frame, e.now)
  {
    DocumentFramesDecide(c, g, e);
    DocumentFramesDecide(d, g, e);
  }

  /** Taking every presence frame out of a run changes no verdict on a document frame. */
  lemma {:induction false} PresenceNeverCostsEdits(c: State, g: Config, es: seq<Event>)
    ensures Verdicts(c, g, WithoutPresence(es)) == Verdicts(c, g, es)
    ensures Alike(After(c, g, WithoutPresence(es)), After(c, g, es))
  {
    if es != [] {
      var front, e := es[..|es| - 1], es[|es| - 1];
      PresenceNeverCostsEdits(c, g, front);
      var rest := WithoutPresence(front);
      AlikeStays(After(c, g, rest), After(c, g, front), g, e);
      assert rest + [] == rest && Verdicts(c, g, front) + [] == Verdicts(c, g, front);
      assert (rest + [e])[..|rest|] == rest;
    }
  }

  /**
   The queue is another matter: presence takes its slots. Over every run, of the
   frames a connection accepted while its document loaded, of any kind, the n-th is
   handled on joining if and only if n is below 32 (frames being told apart).
   */
  lemma QueueKeepsIffRoom(g: Config, start: int, es: seq<Event>, n: nat)
    requires Runs(Start(g, start), g, es) && After(Start(g, start), g, es).joined
    requires var (loading, since) := (Accepted(Start(g, start), g, es, false), Accepted(Start(g, start), g, es, true));
      n < |loading| && Distinct(loading + since)
    ensures var (c, loading) := (After(Start(g, start), g, es), Accepted(Start(g, start), g, es, false));
      && (loading[n] in c.handled <==> n < 32)
      && (n < 32 ==> n < |c.handled| && c.handled[n] == loading[n])
  {
    HandledInOrder(g, start, es);
    var loading, since := Accepted(Start(g, start), g, es, false), Accepted(Start(g, start), g, es, true);
    var handled := After(Start(g, start), g, es).handled;
    var all := loading + since;
    if n >= MAX_QUEUED_FRAMES {
      forall k | 0 <= k < |handled| ensures handled[k] != loading[n] {
        var at := if k < MAX_QUEUED_FRAMES then k else k - MAX_QUEUED_FRAMES + |loading|;
        assert all[at] == handled[k] && all[n] == loading[n] && at != n;
      }
    }
  }
}
