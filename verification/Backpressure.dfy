/**
 apps/server/src/ws/client.ts: what one socket is sent when its buffer fills up.
 The buffer drains on its own between calls, by any amount; everything else about
 the socket is ours.
 */
module Backpressure {
  /** A frame on its way out, named so that two of the same length can be told apart. */
  datatype Frame = Frame(id: nat, size: nat, presence: bool)

  datatype Limits = Limits(softBytes: nat, hardBytes: nat)

  /** `wire` is everything written to the socket, `buffered` what of it has not left yet. */
  datatype State = State(open: bool, buffered: nat, wire: seq<Frame>, droppedPresence: nat, warnedSlow: bool)

  datatype Event =
    | Send(frame: Frame)
    | SendPresence(frame: Frame)
    | Drain(left: nat)
    | Close

  function Fresh(): State {
    State(true, 0, [], 0, false)
  }

  function Written(s: State, f: Frame): State {
    s.(buffered := s.buffered + f.size, wire := s.wire + [f])
  }

  predicate Enabled(s: State, e: Event) {
    match e
    case Send(f) => !f.presence
    case SendPresence(f) => f.presence
    case Drain(left) => left <= s.buffered
    case Close => true
  }

  function Next(s: State, l: Limits, e: Event): State {
    match e
    case Send(f) =>
      if !s.open then s
      else if s.buffered > l.hardBytes then s.(open := false)
      else Written(s, f)
    case SendPresence(f) =>
      if !s.open then s
      else if s.buffered > l.softBytes then s.(droppedPresence := s.droppedPresence + 1, warnedSlow := true)
      else Written(s, f)
    case Drain(left) => s.(buffered := left)
    case Close => s.(open := false)
  }

  class Client {
    const limits: Limits
    var open: bool
    var bufferedAmount: nat
    var wire: seq<Frame>
    var droppedPresence: nat
    var warnedSlow: bool

    function View(): State
      reads this
    {
      State(open, bufferedAmount, wire, droppedPresence, warnedSlow)
    }

    constructor (limits: Limits)
      ensures this.limits == limits && View() == Fresh()
    {
      this.limits := limits;
      open, bufferedAmount, wire, droppedPresence, warnedSlow := true, 0, [], 0, false;
    }

    method SendFrame(f: Frame)
      modifies this
      ensures View() == Next(old(View()), limits, Send(f))
    {
      if !open {
        return;
      }
      if bufferedAmount > limits.hardBytes {
        CloseSocket();
        return;
      }
      Write(f);
    }

    method SendPresenceFrame(f: Frame)
      modifies this
      ensures View() == Next(old(View()), limits, SendPresence(f))
    {
      if !open {
        return;
      }
      if bufferedAmount > limits.softBytes {
        droppedPresence := droppedPresence + 1;
        if !warnedSlow {
          warnedSlow := true;
        }
        return;
      }
      Write(f);
    }

    method CloseSocket()
      modifies this`open
      ensures View() == Next(old(View()), limits, Close)
    {
      open := false;
    }

    method Write(f: Frame)
      modifies this`bufferedAmount, this`wire
      ensures View() == Written(old(View()), f)
    {
      bufferedAmount := bufferedAmount + f.size;
      wire := wire + [f];
    }
  }

  // ------------------------------------------------------------------ whole runs

  predicate Runs(s: State, l: Limits, es: seq<Event>) {
    es == [] || (Runs(s, l, es[..|es| - 1]) && Enabled(After(s, l, es[..|es| - 1]), es[|es| - 1]))
  }

  function After(s: State, l: Limits, es: seq<Event>): State {
    if es == [] then s else Next(After(s, l, es[..|es| - 1]), l, es[|es| - 1])
  }

  /** The frames offered, of one kind or the other, in order. */
  function Offered(es: seq<Event>, presence: bool): seq<Frame> {
    if es == [] then []
    else
      var e := es[|es| - 1];
      Offered(es[..|es| - 1], presence) + if (if presence then e.SendPresence? else e.Send?) then [e.frame] else []
  }

  /** The frames on the wire, of one kind or the other, in order. */
  function OnWire(wire: seq<Frame>, presence: bool): seq<Frame> {
    if wire == [] then []
    else
      var f := wire[|wire| - 1];
      OnWire(wire[..|wire| - 1], presence) + if f.presence == presence then [f] else []
  }

  lemma OnWirePush(wire: seq<Frame>, f: Frame, presence: bool)
    ensures OnWire(wire + [f], presence) == OnWire(wire, presence) + if f.presence == presence then [f] else []
  {
    assert (wire + [f])[..|wire|] == wire;
  }

  predicate Subsequence(a: seq<Frame>, b: seq<Frame>)
    decreases |b|
  {
    || a == []
    || (b != [] && a[|a| - 1] == b[|b| - 1] && Subsequence(a[..|a| - 1], b[..|b| - 1]))
    || (b != [] && Subsequence(a, b[..|b| - 1]))
  }

  lemma SubsequenceBoth(a: seq<Frame>, b: seq<Frame>, f: Frame)
    requires Subsequence(a, b)
    ensures Subsequence(a + [f], b + [f]) && Subsequence(a, b + [f])
  {
    assert (a + [f])[..|a|] == a && (b + [f])[..|b|] == b;
  }

  /** The wire and the offers each event adds. */
  lemma EventAdds(s: State, l: Limits, e: Event)
    requires Enabled(s, e)
    ensures var (t, written) := (Next(s, l, e), Next(s, l, e).wire);
      && (written == s.wire || ((e.Send? || e.SendPresence?) && written == s.wire + [e.frame]))
      && (e.Send? && s.open && t.open ==> written == s.wire + [e.frame])
      && (e.Send? && !t.open ==> written == s.wire)
      && (!s.open ==> !t.open && written == s.wire)
  {
  }

  /**
   Backpressure leaves no gap: whatever the buffer does, the document frames written
   are a prefix of those offered, and all of them while the socket is open.
   */
  lemma {:induction false} NoGapOnTheWire(l: Limits, es: seq<Event>)
    requires Runs(Fresh(), l, es)
    ensures var s := After(Fresh(), l, es);
      OnWire(s.wire, false) <= Offered(es, false) && (s.open ==> OnWire(s.wire, false) == Offered(es, false))
  {
    if es != [] {
      var front, e := es[..|es| - 1], es[|es| - 1];
      NoGapOnTheWire(l, front);
      var before := After(Fresh(), l, front);
      EventAdds(before, l, e);
      if e.Send? || e.SendPresence? {
        OnWirePush(before.wire, e.frame, false);
      }
      assert Offered(front, false) + [] == Offered(front, false);
      assert OnWire(before.wire, false) + [] == OnWire(before.wire, false);
    }
  }

  /** The presence frame one event writes, if it writes one. */
  function PresenceWritten(before: State, l: Limits, e: Event): seq<Frame> {
    if e.SendPresence? && before.open && before.buffered <= l.softBytes then [e.frame] else []
  }

  lemma PresenceOnWire(before: State, l: Limits, e: Event)
    requires Enabled(before, e)
    ensures OnWire(Next(before, l, e).wire, true) == OnWire(before.wire, true) + PresenceWritten(before, l, e)
  {
    assert OnWire(before.wire, true) + [] == OnWire(before.wire, true);
    if e.Send? || e.SendPresence? {
      OnWirePush(before.wire, e.frame, true);
    }
  }

  lemma PresenceThinnedByOne(before: State, l: Limits, e: Event, written: seq<Frame>, offered: seq<Frame>)
    requires Subsequence(written, offered)
    ensures Subsequence(written + PresenceWritten(before, l, e), offered + if e.SendPresence? then [e.frame] else [])
  {
    assert offered + [] == offered && written + [] == written;
    if e.SendPresence? {
      SubsequenceBoth(written, offered, e.frame);
    }
  }

  /** The presence frames written are a subsequence of those offered. */
  lemma {:induction false} PresenceIsThinnedOnly(l: Limits, es: seq<Event>)
    requires Runs(Fresh(), l, es)
    ensures Subsequence(OnWire(After(Fresh(), l, es).wire, true), Offered(es, true))
  {
    if es != [] {
      var front, e := es[..|es| - 1], es[|es| - 1];
      var before := After(Fresh(), l, front);
      PresenceIsThinnedOnly(l, front);
      PresenceOnWire(before, l, e);
      PresenceThinnedByOne(before, l, e, OnWire(before.wire, true), Offered(front, true));
    }
  }

  /** Every presence frame offered on an open socket is either on the wire or counted as dropped. */
  lemma {:induction false} DropsAreCounted(l: Limits, es: seq<Event>)
    requires Runs(Fresh(), l, es) && After(Fresh(), l, es).open
    ensures var s := After(Fresh(), l, es);
      |OnWire(s.wire, true)| + s.droppedPresence == |Offered(es, true)| && (s.warnedSlow <==> s.droppedPresence > 0)
  {
    if es != [] {
      var front, e := es[..|es| - 1], es[|es| - 1];
      DropsAreCounted(l, front);
      if e.Send? || e.SendPresence? {
        OnWirePush(After(Fresh(), l, front).wire, e.frame, true);
      }
    }
  }

  /**
   The buffer never holds more than hardBytes and one frame; and presence never
   lifts it past softBytes and one frame: whenever it holds more than that, the last
   frame written was a document frame.
   */
  lemma {:induction false} BufferIsBounded(l: Limits, es: seq<Event>, largest: nat)
    requires Runs(Fresh(), l, es)
    requires forall e :: e in es && (e.Send? || e.SendPresence?) ==> e.frame.size <= largest
    ensures var s := After(Fresh(), l, es);
      && s.buffered <= (if l.softBytes <= l.hardBytes then l.hardBytes else l.softBytes) + largest
      && (s.buffered > l.softBytes + largest ==> s.wire != [] && !s.wire[|s.wire| - 1].presence)
  {
    if es != [] {
      var front, e := es[..|es| - 1], es[|es| - 1];
      assert e in es;
      BufferIsBounded(l, front, largest);
    }
  }

  // --------------------------------------------- exactly when, told by the buffer

  /** No document frame of the run found more than hardBytes waiting. */
  predicate NeverTooFarBehind(l: Limits, es: seq<Event>) {
    es == [] ||
    var front, e := es[..|es| - 1], es[|es| - 1];
    NeverTooFarBehind(l, front) && (e.Send? ==> After(Fresh(), l, front).buffered <= l.hardBytes)
  }

  lemma {:induction false} OpenIff(l: Limits, es: seq<Event>)
    requires Runs(Fresh(), l, es)
    ensures After(Fresh(), l, es).open <==> Close !in es && NeverTooFarBehind(l, es)
  {
    if es != [] {
      var front, e := es[..|es| - 1], es[|es| - 1];
      OpenIff(l, front);
      assert Close in es <==> Close in front || e == Close;
    }
  }

  /**
   Only a client hopelessly behind is let go. Unless somebody closed it, the socket is
   open and has been given every document frame if and only if none of them found more
   than hardBytes in the buffer; up to there a slow client gets everything.
   */
  lemma KeptIffNeverTooFarBehind(l: Limits, es: seq<Event>)
    requires Runs(Fresh(), l, es) && Close !in es
    ensures var s := After(Fresh(), l, es);
      s.open && OnWire(s.wire, false) == Offered(es, false) <==> NeverTooFarBehind(l, es)
  {
    OpenIff(l, es);
    NoGapOnTheWire(l, es);
  }

  /** The presence frames offered on an open socket with at most softBytes waiting. */
  function Timely(l: Limits, es: seq<Event>): seq<Frame> {
    if es == [] then []
    else
      var front, e := es[..|es| - 1], es[|es| - 1];
      Timely(l, front)
      + if e.SendPresence? && Close !in front && NeverTooFarBehind(l, front)
           && After(Fresh(), l, front).buffered <= l.softBytes
        then [e.frame] else []
  }

  /** Exactly those are written: presence is dropped above softBytes, and not before. */
  lemma {:induction false} PresenceWrittenIffTimely(l: Limits, es: seq<Event>)
    requires Runs(Fresh(), l, es)
    ensures OnWire(After(Fresh(), l, es).wire, true) == Timely(l, es)
  {
    if es != [] {
      var front, e := es[..|es| - 1], es[|es| - 1];
      var before := After(Fresh(), l, front);
      PresenceWrittenIffTimely(l, front);
      OpenIff(l, front);
      PresenceOnWire(before, l, e);
      assert Timely(l, front) + [] == Timely(l, front);
    }
  }

  function Sizes(wire: seq<Frame>): nat {
    if wire == [] then 0 else Sizes(wire[..|wire| - 1]) + wire[|wire| - 1].size
  }

  /** What has left the buffer over a run. */
  function Drained(l: Limits, es: seq<Event>): int {
    if es == [] then 0
    else
      var front, e := es[..|es| - 1], es[|es| - 1];
      Drained(l, front) + if e.Drain? then After(Fresh(), l, front).buffered - e.left else 0
  }

  /** The buffer holds what was written and has not left. */
  lemma {:induction false} BufferAccounts(l: Limits, es: seq<Event>)
    requires Runs(Fresh(), l, es)
    ensures var s := After(Fresh(), l, es); s.buffered + Drained(l, es) == Sizes(s.wire)
  {
    if es != [] {
      var front, e := es[..|es| - 1], es[|es| - 1];
      var before := After(Fresh(), l, front);
      BufferAccounts(l, front);
      if e.Send? || e.SendPresence? {
        assert (before.wire + [e.frame])[..|before.wire|] == before.wire;
      }
    }
  }
}
