/**
 apps/server/src/persistence/writer.ts: what stands between a room and the store,
 with its batches, its timer and its retries. Each method of the class is one synchronous stretch of the code; the
 awaits inside write() split it into beginning, the outcome of the append and the
 outcome of the compaction. Times are milliseconds.
 */
module Writer {
  import opened Crdt

  datatype Options = Options(debounceMs: nat, maxBatchBytes: nat, compactAfter: nat)

  /** An encoded update: what it contains and how long it is. */
  datatype Chunk = Chunk(ops: Ops, bytes: nat)

  /** Where the head of the promise queue is: nowhere, inside append, inside compact. */
  datatype Stage = Idle | Appending(batch: seq<Chunk>) | Compacting

  datatype State = State(
    pending: seq<Chunk>,
    pendingBytes: nat,
    timer: Option<int>,
    closed: bool,
    queue: seq<seq<Chunk>>,
    stage: Stage,
    rows: nat)

  datatype Event =
    | Record(update: Chunk, now: int)
    | TimerFires
    | BeginWrite
    | AppendOk
    | AppendFailed(mergedBytes: nat, now: int)
    | CompactOk
    | CompactFailed
    | Close

  function Initial(rows: nat): State {
    State([], 0, None, false, [], Idle, rows)
  }

  function OpsOf(batch: seq<Chunk>): Ops {
    if batch == [] then {} else OpsOf(batch[..|batch| - 1]) + batch[|batch| - 1].ops
  }

  function OpsOfAll(batches: seq<seq<Chunk>>): Ops {
    if batches == [] then {} else OpsOf(batches[0]) + OpsOfAll(batches[1..])
  }

  function BytesOf(batch: seq<Chunk>): nat {
    if batch == [] then 0 else BytesOf(batch[..|batch| - 1]) + batch[|batch| - 1].bytes
  }

  /** Y.mergeUpdates of a batch; the encoder decides how long the result is. */
  function Merged(batch: seq<Chunk>, bytes: nat): Chunk {
    if |batch| == 1 then batch[0] else Chunk(OpsOf(batch), bytes)
  }

  function Flushed(w: State): State {
    var quiet := w.(timer := None);
    if w.pending == [] then quiet
    else quiet.(pending := [], pendingBytes := 0, queue := w.queue + [w.pending])
  }

  function Scheduled(w: State, o: Options, now: int): State {
    if w.timer.Some? || w.closed then w else w.(timer := Some(now + o.debounceMs))
  }

  function Pushed(w: State, u: Chunk): State {
    w.(pending := w.pending + [u], pendingBytes := w.pendingBytes + u.bytes)
  }

  predicate Enabled(w: State, e: Event) {
    match e
    case Record(_, _) => true
    case TimerFires => w.timer.Some?
    case BeginWrite => w.stage.Idle? && w.queue != []
    case AppendOk => w.stage.Appending?
    case AppendFailed(_, _) => w.stage.Appending?
    case CompactOk => w.stage.Compacting?
    case CompactFailed => w.stage.Compacting?
    case Close => true
  }

  function Next(w: State, o: Options, e: Event): State
    requires Enabled(w, e)
  {
    match e
    case Record(u, now) =>
      var pushed := Pushed(w, u);
      if pushed.pendingBytes >= o.maxBatchBytes then Flushed(pushed) else Scheduled(pushed, o, now)
    case TimerFires => Flushed(w.(timer := None))
    case BeginWrite => w.(queue := w.queue[1..], stage := Appending(w.queue[0]))
    case AppendOk =>
      w.(rows := w.rows + 1, stage := if w.rows + 1 < o.compactAfter then Idle else Compacting)
    case AppendFailed(bytes, now) =>
      if w.closed then w.(stage := Idle)
      else Scheduled(Pushed(w.(stage := Idle), Merged(w.stage.batch, bytes)), o, now)
    case CompactOk => w.(rows := 0, stage := Idle)
    case CompactFailed => w.(stage := Idle)
    case Close => Flushed(w.(closed := true))
  }

  class DocumentWriter {
    const options: Options
    var pending: seq<Chunk>
    var pendingBytes: nat
    var timer: Option<int>
    var closed: bool
    var queue: seq<seq<Chunk>>
    var stage: Stage
    var rowsSinceSnapshot: nat

    function View(): State
      reads this
    {
      State(pending, pendingBytes, timer, closed, queue, stage, rowsSinceSnapshot)
    }

    constructor (options: Options, rowsSinceSnapshot: nat)
      ensures this.options == options && View() == Initial(rowsSinceSnapshot)
    {
      this.options := options;
      this.rowsSinceSnapshot := rowsSinceSnapshot;
      pending, pendingBytes, timer, closed := [], 0, None, false;
      queue, stage := [], Idle;
    }

    method RecordUpdate(update: Chunk, now: int)
      modifies this
      ensures View() == Next(old(View()), options, Record(update, now))
    {
      pending := pending + [update];
      pendingBytes := pendingBytes + update.bytes;
      if pendingBytes >= options.maxBatchBytes {
        Flush();
        return;
      }
      Schedule(now);
    }

    method CloseWriter()
      modifies this
      ensures View() == Next(old(View()), options, Close)
    {
      closed := true;
      Flush();
    }

    method OnTimer()
      requires timer.Some?
      modifies this
      ensures View() == Next(old(View()), options, TimerFires)
    {
      Flush();
    }

    method Flush()
      modifies this`timer, this`pending, this`pendingBytes, this`queue
      ensures View() == Flushed(old(View()))
    {
      if timer.Some? {
        timer := None;
      }
      if |pending| == 0 {
        return;
      }
      var batch := pending;
      pending, pendingBytes := [], 0;
      queue := queue + [batch];
    }

    method Schedule(now: int)
      modifies this`timer
      ensures View() == Scheduled(old(View()), options, now)
    {
      if timer.Some? || closed {
        return;
      }
      timer := Some(now + options.debounceMs);
    }

    /** The previous write has settled: the next link of the promise chain runs. */
    method Begin()
      requires stage.Idle? && queue != []
      modifies this
      ensures View() == Next(old(View()), options, BeginWrite)
    {
      stage := Appending(queue[0]);
      queue := queue[1..];
    }

    method AppendSucceeded()
      requires stage.Appending?
      modifies this
      ensures View() == Next(old(View()), options, AppendOk)
    {
      rowsSinceSnapshot := rowsSinceSnapshot + 1;
      stage := if rowsSinceSnapshot < options.compactAfter then Idle else Compacting;
    }

    method AppendThrew(mergedBytes: nat, now: int)
      requires stage.Appending?
      modifies this
      ensures View() == Next(old(View()), options, AppendFailed(mergedBytes, now))
    {
      var merged := Merged(stage.batch, mergedBytes);
      stage := Idle;
      if closed {
        return;
      }
      pending := pending + [merged];
      pendingBytes := pendingBytes + merged.bytes;
      Schedule(now);
    }

    method CompactionSettled(ok: bool)
      requires stage.Compacting?
      modifies this
      ensures View() == Next(old(View()), options, if ok then CompactOk else CompactFailed)
    {
      if ok {
        rowsSinceSnapshot := 0;
      }
      stage := Idle;
    }
  }

  // -------------------------------------------------------------- conservation

  /** What the writer still owes the store. */
  function Held(w: State): Ops {
    OpsOf(w.pending) + OpsOfAll(w.queue) + if w.stage.Appending? then OpsOf(w.stage.batch) else {}
  }

  /** A writer with the books kept on it: taken in, written, given up. */
  datatype Books = Books(writer: State, recorded: Ops, stored: Ops, dropped: Ops)

  function Booked(b: Books, o: Options, e: Event): Books
    requires Enabled(b.writer, e)
  {
    var after := b.(writer := Next(b.writer, o, e));
    match e
    case Record(u, _) => after.(recorded := b.recorded + u.ops)
    case AppendOk => after.(stored := b.stored + OpsOf(b.writer.stage.batch))
    case AppendFailed(_, _) =>
      if b.writer.closed then after.(dropped := b.dropped + OpsOf(b.writer.stage.batch)) else after
    case _ => after
  }

  predicate Runs(b: Books, o: Options, es: seq<Event>)
    decreases |es|
  {
    es == [] || (Enabled(b.writer, es[0]) && Runs(Booked(b, o, es[0]), o, es[1..]))
  }

  function After(b: Books, o: Options, es: seq<Event>): Books
    requires Runs(b, o, es)
    decreases |es|
  {
    if es == [] then b else After(Booked(b, o, es[0]), o, es[1..])
  }

  lemma OpsOfPush(batch: seq<Chunk>, u: Chunk)
    ensures OpsOf(batch + [u]) == OpsOf(batch) + u.ops
    ensures BytesOf(batch + [u]) == BytesOf(batch) + u.bytes
  {
    assert (batch + [u])[..|batch|] == batch;
  }

  lemma {:induction false} OpsOfAllPush(batches: seq<seq<Chunk>>, batch: seq<Chunk>)
    ensures OpsOfAll(batches + [batch]) == OpsOfAll(batches) + OpsOf(batch)
  {
    if batches == [] {
      assert [batch][1..] == [];
    } else {
      assert (batches + [batch])[1..] == batches[1..] + [batch];
      OpsOfAllPush(batches[1..], batch);
    }
  }

  lemma MergedKeepsOps(batch: seq<Chunk>, bytes: nat)
    ensures Merged(batch, bytes).ops == OpsOf(batch)
  {
    if |batch| == 1 {
      assert batch[..0] == [];
      assert OpsOf(batch) == OpsOf([]) + batch[0].ops;
    }
  }

  lemma FlushedHolds(w: State)
    ensures Held(Flushed(w)) == Held(w)
  {
    OpsOfAllPush(w.queue, w.pending);
  }

  /**
   How one event moves what the writer owes: a record adds to it, an append that
   succeeds settles its batch, one that fails after close gives its batch up, and
   nothing else changes it.
   */
  lemma NextMovesHeld(w: State, o: Options, e: Event)
    requires Enabled(w, e)
    ensures var h := Held(Next(w, o, e));
      match e
      case Record(u, _) => h == Held(w) + u.ops
      case AppendOk => Held(w) == h + OpsOf(w.stage.batch)
      case AppendFailed(_, _) => if w.closed then Held(w) == h + OpsOf(w.stage.batch) else h == Held(w)
      case _ => h == Held(w)
  {
    match e
    case Record(u, now) =>
      OpsOfPush(w.pending, u);
      FlushedHolds(Pushed(w, u));
    case TimerFires => FlushedHolds(w.(timer := None));
    case Close => FlushedHolds(w.(closed := true));
    case BeginWrite => assert OpsOfAll(w.queue) == OpsOf(w.queue[0]) + OpsOfAll(w.queue[1..]);
    case AppendFailed(bytes, now) =>
      MergedKeepsOps(w.stage.batch, bytes);
      OpsOfPush(w.pending, Merged(w.stage.batch, bytes));
    case _ =>
  }

  /** Conservation over every run: nothing recorded goes anywhere but the store, the writer or the drop log. */
  lemma {:induction false} NothingLeaks(b: Books, o: Options, es: seq<Event>)
    requires b.recorded == b.stored + Held(b.writer) + b.dropped
    requires Runs(b, o, es)
    ensures var a := After(b, o, es); a.recorded == a.stored + Held(a.writer) + a.dropped
    decreases |es|
  {
    if es != [] {
      NextMovesHeld(b.writer, o, es[0]);
      NothingLeaks(Booked(b, o, es[0]), o, es[1..]);
    }
  }

  /** Updates are dropped only by an append that fails once the writer is closed. */
  lemma {:induction false} DropsNeedCloseAndFailure(b: Books, o: Options, es: seq<Event>)
    requires Runs(b, o, es) && b.dropped == {}
    requires b.writer.closed ==> forall i :: 0 <= i < |es| ==> !es[i].AppendFailed?
    requires forall i, j :: 0 <= i < j < |es| && es[i].Close? ==> !es[j].AppendFailed?
    ensures After(b, o, es).dropped == {}
    decreases |es|
  {
    if es != [] {
      var rest := es[1..];
      forall i | 0 <= i < |rest| && es[0].Close? ensures !rest[i].AppendFailed? {
        assert rest[i] == es[i + 1];
      }
      forall i, j | 0 <= i < j < |rest| && rest[i].Close? ensures !rest[j].AppendFailed? {
        assert rest[i] == es[i + 1] && rest[j] == es[j + 1];
      }
      DropsNeedCloseAndFailure(Booked(b, o, es[0]), o, rest);
    }
  }

  /** The promise close() returned has resolved: every batch chained before it is settled. */
  predicate Drained(w: State) {
    w.queue == [] && w.stage.Idle?
  }

  lemma {:induction false} ClosedStaysEmpty(b: Books, o: Options, es: seq<Event>)
    requires Runs(b, o, es) && b.writer.closed && b.writer.pending == []
    requires forall i :: 0 <= i < |es| ==> !es[i].Record?
    ensures After(b, o, es).writer.closed && After(b, o, es).writer.pending == []
    decreases |es|
  {
    if es != [] {
      forall i | 0 <= i < |es[1..]| ensures !es[1..][i].Record? {
        assert es[1..][i] == es[i + 1];
      }
      ClosedStaysEmpty(Booked(b, o, es[0]), o, es[1..]);
    }
  }

  /**
   close() keeps its promise: from any point of any run, once it resolves with no
   later record, everything ever recorded is stored or was dropped out loud.
   */
  lemma CloseSettlesEverything(b: Books, o: Options, es: seq<Event>)
    requires b.recorded == b.stored + Held(b.writer) + b.dropped
    requires Runs(Booked(b, o, Close), o, es)
    requires forall i :: 0 <= i < |es| ==> !es[i].Record?
    requires Drained(After(Booked(b, o, Close), o, es).writer)
    ensures var a := After(Booked(b, o, Close), o, es); a.recorded == a.stored + a.dropped && a.writer.pending == []
  {
    NextMovesHeld(b.writer, o, Close);
    NothingLeaks(Booked(b, o, Close), o, es);
    ClosedStaysEmpty(Booked(b, o, Close), o, es);
  }

  // --------------------------------------------------------- when a batch is full

  /** The running byte count is what the pending updates come to. */
  predicate BytesCounted(w: State) {
    w.pendingBytes == BytesOf(w.pending)
  }

  lemma NextCountsBytes(w: State, o: Options, e: Event)
    requires BytesCounted(w) && Enabled(w, e)
    ensures BytesCounted(Next(w, o, e))
  {
    match e
    case Record(u, _) => OpsOfPush(w.pending, u);
    case AppendFailed(bytes, _) => OpsOfPush(w.pending, Merged(w.stage.batch, bytes));
    case _ =>
  }

  lemma {:induction false} RunCountsBytes(b: Books, o: Options, es: seq<Event>)
    requires BytesCounted(b.writer) && Runs(b, o, es)
    ensures BytesCounted(After(b, o, es).writer)
    decreases |es|
  {
    if es != [] {
      NextCountsBytes(b.writer, o, es[0]);
      RunCountsBytes(Booked(b, o, es[0]), o, es[1..]);
    }
  }

  function Unused(rows: nat): Books {
    Books(Initial(rows), {}, {}, {})
  }

  /**
   After any run, a record that brings the sizes of the pending updates to maxBatchBytes
   sends all of them off as one batch, itself last; any other record only waits.
   */
  lemma RecordFlushesIffFull(rows: nat, o: Options, es: seq<Event>, u: Chunk, now: int)
    requires Runs(Unused(rows), o, es)
    ensures var w := After(Unused(rows), o, es).writer;
      var t := Next(w, o, Record(u, now));
      if BytesOf(w.pending) + u.bytes >= o.maxBatchBytes
      then t.pending == [] && t.queue == w.queue + [w.pending + [u]] && t.timer == None
      else t.pending == w.pending + [u] && t.queue == w.queue && (t.timer.Some? <==> w.timer.Some? || !w.closed)
  {
    RunCountsBytes(Unused(rows), o, es);
  }

  /** No more is pending than fits one batch. */
  predicate Small(w: State, o: Options) {
    w.pending == [] || BytesOf(w.pending) < o.maxBatchBytes
  }

  lemma RecordLeavesSmall(w: State, o: Options, u: Chunk, now: int)
    requires BytesCounted(w)
    ensures Small(Next(w, o, Record(u, now)), o)
  {
    OpsOfPush(w.pending, u);
  }

  /** However updates arrive, in a run without failed appends less than a full batch is ever pending. */
  lemma {:induction false} PendingStaysSmall(b: Books, o: Options, es: seq<Event>)
    requires BytesCounted(b.writer) && Small(b.writer, o) && Runs(b, o, es)
    requires forall e :: e in es ==> !e.AppendFailed?
    ensures Small(After(b, o, es).writer, o)
    decreases |es|
  {
    if es != [] {
      var e := es[0];
      assert e in es && forall f :: f in es[1..] ==> f in es;
      NextCountsBytes(b.writer, o, e);
      if e.Record? {
        RecordLeavesSmall(b.writer, o, e.update, e.now);
      }
      PendingStaysSmall(Booked(b, o, e), o, es[1..]);
    }
  }

  // ------------------------------------------------------------- when to compact

  /** Rows appended since the last compaction that went well, on top of those found on opening. */
  function RowsAppended(rows: nat, es: seq<Event>): nat
    decreases |es|
  {
    if es == [] then rows
    else RowsAppended(if es[0].CompactOk? then 0 else if es[0].AppendOk? then rows + 1 else rows, es[1..])
  }

  lemma {:induction false} RowsAreCounted(b: Books, o: Options, es: seq<Event>)
    requires Runs(b, o, es)
    ensures After(b, o, es).writer.rows == RowsAppended(b.writer.rows, es)
    decreases |es|
  {
    if es != [] {
      RowsAreCounted(Booked(b, o, es[0]), o, es[1..]);
    }
  }

  /** After any run, an append is followed by a compaction if and only if it fills the log up to compactAfter. */
  lemma CompactsIffDue(rows: nat, o: Options, es: seq<Event>)
    requires Runs(Unused(rows), o, es) && Enabled(After(Unused(rows), o, es).writer, AppendOk)
    ensures var t := Next(After(Unused(rows), o, es).writer, o, AppendOk);
      t.stage == if RowsAppended(rows, es) + 1 >= o.compactAfter then Compacting else Idle
  {
    RowsAreCounted(Unused(rows), o, es);
  }

  // -------------------------------------------------------------- in the same order

  function Flat(batches: seq<seq<Chunk>>): seq<Chunk> {
    if batches == [] then [] else batches[0] + Flat(batches[1..])
  }

  lemma {:induction false} FlatPush(batches: seq<seq<Chunk>>, batch: seq<Chunk>)
    ensures Flat(batches + [batch]) == Flat(batches) + batch
  {
    if batches == [] {
      assert [batch][1..] == [] && [] + [batch] == [batch];
    } else {
      assert (batches + [batch])[1..] == batches[1..] + [batch];
      FlatPush(batches[1..], batch);
    }
  }

  /** The updates waiting, in line. */
  function Line(w: State): seq<Chunk> {
    Flat(w.queue) + w.pending
  }

  /** A refused batch rejoins as one update with all its operations; a batch of one as that very update. */
  lemma RefusedBatchRejoins(w: State, o: Options, mergedBytes: nat, now: int)
    requires Enabled(w, AppendFailed(mergedBytes, now)) && !w.closed
    ensures var t := Next(w, o, AppendFailed(mergedBytes, now));
      && |t.pending| == |w.pending| + 1 && t.pending[..|w.pending|] == w.pending && t.queue == w.queue
      && t.pending[|w.pending|].ops == OpsOf(w.stage.batch)
      && (|w.stage.batch| == 1 ==> t.pending[|w.pending|] == w.stage.batch[0])
      && (|w.stage.batch| != 1 ==> t.pending[|w.pending|].bytes == mergedBytes)
  {
    MergedKeepsOps(w.stage.batch, mergedBytes);
  }

  lemma FlushedKeepsLine(w: State)
    ensures Line(Flushed(w)) == Line(w)
  {
    if w.pending != [] {
      FlatPush(w.queue, w.pending);
    }
  }

  /** What one event puts at the end of the line: a recorded update, or a batch the store refused. */
  function JoinsLine(w: State, e: Event): seq<Chunk> {
    match e
    case Record(u, _) => [u]
    case AppendFailed(bytes, _) => if w.closed || !w.stage.Appending? then [] else [Merged(w.stage.batch, bytes)]
    case _ => []
  }

  /** What it takes from the head, to be appended. */
  function LeavesLine(w: State, e: Event): seq<Chunk> {
    if e.BeginWrite? && w.queue != [] then w.queue[0] else []
  }

  function Joined(b: Books, o: Options, es: seq<Event>): seq<Chunk>
    requires Runs(b, o, es)
    decreases |es|
  {
    if es == [] then [] else JoinsLine(b.writer, es[0]) + Joined(Booked(b, o, es[0]), o, es[1..])
  }

  function Begun(b: Books, o: Options, es: seq<Event>): seq<Chunk>
    requires Runs(b, o, es)
    decreases |es|
  {
    if es == [] then [] else LeavesLine(b.writer, es[0]) + Begun(Booked(b, o, es[0]), o, es[1..])
  }

  lemma LineMoves(w: State, o: Options, e: Event)
    requires Enabled(w, e)
    ensures LeavesLine(w, e) + Line(Next(w, o, e)) == Line(w) + JoinsLine(w, e)
  {
    match e
    case Record(u, now) =>
      FlushedKeepsLine(Pushed(w, u));
      assert Line(Pushed(w, u)) == Line(w) + [u];
    case TimerFires => FlushedKeepsLine(w.(timer := None));
    case Close => FlushedKeepsLine(w.(closed := true));
    case BeginWrite => assert Flat(w.queue) == w.queue[0] + Flat(w.queue[1..]);
    case AppendFailed(bytes, now) =>
    case _ =>
  }

  lemma Chained(left: seq<Chunk>, was: seq<Chunk>, joined: seq<Chunk>, now: seq<Chunk>,
                begun: seq<Chunk>, end: seq<Chunk>, more: seq<Chunk>)
    requires left + now == was + joined && begun + end == now + more
    ensures left + begun + end == was + (joined + more)
  {
    assert left + begun + end == left + (begun + end);
    assert left + (now + more) == left + now + more;
    assert was + joined + more == was + (joined + more);
  }

  /**
   Serial and in order, over every run: what has been handed to the store, then what
   is queued, then what is pending, is exactly what came in, in the order it came, each
   update once; a batch the store refused rejoins at the end.
   */
  lemma {:induction false} WrittenInOrder(b: Books, o: Options, es: seq<Event>)
    requires Runs(b, o, es)
    ensures Begun(b, o, es) + Line(After(b, o, es).writer) == Line(b.writer) + Joined(b, o, es)
    decreases |es|
  {
    if es == [] {
      assert [] + Line(b.writer) == Line(b.writer) + [];
    } else {
      var e, next := es[0], Booked(b, o, es[0]);
      LineMoves(b.writer, o, e);
      WrittenInOrder(next, o, es[1..]);
      Chained(LeavesLine(b.writer, e), Line(b.writer), JoinsLine(b.writer, e), Line(next.writer),
              Begun(next, o, es[1..]), Line(After(b, o, es).writer), Joined(next, o, es[1..]));
    }
  }

  // ------------------------------------------------ no stranded update, bounded wait

  /** A writer together with when each pending update arrived. */
  datatype Timed = Timed(writer: State, arrivals: seq<int>)

  function ClockOf(e: Event): Option<int> {
    match e
    case Record(_, now) => Some(now)
    case AppendFailed(_, now) => Some(now)
    case _ => None
  }

  function TimedNext(t: Timed, o: Options, e: Event, now: int): Timed
    requires Enabled(t.writer, e)
  {
    var after := Next(t.writer, o, e);
    Timed(after,
          if after.pending == [] then []
          else if |after.pending| > |t.writer.pending| then t.arrivals + [now]
          else t.arrivals)
  }

  /** The event happens at `now`, and no armed timer is overdue by then. */
  predicate Timely(t: Timed, e: Event, now: int) {
    && (ClockOf(e).Some? ==> ClockOf(e).value == now)
    && (t.writer.timer.Some? ==> now <= t.writer.timer.value)
    && (forall i :: 0 <= i < |t.arrivals| ==> t.arrivals[i] <= now)
  }

  /**
   What holds between any two events: the byte count is the sum of the pending
   sizes, an open writer with something pending has its timer armed, and the timer
   is due exactly debounceMs after the oldest pending update came in.
   */
  ghost predicate Orderly(t: Timed, o: Options) {
    var w := t.writer;
    && w.pendingBytes == BytesOf(w.pending)
    && (!w.closed && w.pending != [] ==> w.timer.Some?)
    && (w.timer.Some? ==> w.pending != [] && !w.closed)
    && |t.arrivals| == |w.pending|
    && (w.timer.Some? ==> w.timer.value == t.arrivals[0] + o.debounceMs)
    && (forall i :: 0 <= i < |t.arrivals| ==> t.arrivals[0] <= t.arrivals[i])
  }

  lemma RecordKeepsOrder(t: Timed, o: Options, e: Event, now: int)
    requires e.Record? && Orderly(t, o) && Timely(t, e, now)
    ensures Orderly(TimedNext(t, o, e, now), o)
  {
    OpsOfPush(t.writer.pending, e.update);
    var p := Pushed(t.writer, e.update);
    if p.pendingBytes >= o.maxBatchBytes {
      assert TimedNext(t, o, e, now) == Timed(Flushed(p), []);
    } else {
      assert TimedNext(t, o, e, now) == Timed(Scheduled(p, o, now), t.arrivals + [now]);
      ScheduledKeepsOrder(t, o, p, now);
    }
  }

  /** One more update is pending, and the timer is armed if it was not. */
  lemma ScheduledKeepsOrder(t: Timed, o: Options, p: State, now: int)
    requires Orderly(t, o) && p.pendingBytes == BytesOf(p.pending) && |p.pending| == |t.writer.pending| + 1
    requires p.timer == t.writer.timer && p.closed == t.writer.closed
    requires forall i :: 0 <= i < |t.arrivals| ==> t.arrivals[i] <= now
    ensures Orderly(Timed(Scheduled(p, o, now), t.arrivals + [now]), o)
  {
    var later := t.arrivals + [now];
    assert later[0] == if t.arrivals == [] then now else t.arrivals[0];
    forall i | 0 <= i < |later| ensures later[0] <= later[i] {
    }
  }

  lemma FailureKeepsOrder(t: Timed, o: Options, e: Event, now: int)
    requires e.AppendFailed? && Orderly(t, o) && Enabled(t.writer, e) && Timely(t, e, now)
    ensures Orderly(TimedNext(t, o, e, now), o)
  {
    OpsOfPush(t.writer.pending, Merged(t.writer.stage.batch, e.mergedBytes));
  }

  lemma OthersKeepOrder(t: Timed, o: Options, e: Event, now: int)
    requires !e.Record? && !e.AppendFailed? && Orderly(t, o) && Enabled(t.writer, e)
    ensures Orderly(TimedNext(t, o, e, now), o)
  {
  }

  datatype Dated = Dated(event: Event, now: int)

  predicate TimelyRun(t: Timed, o: Options, ds: seq<Dated>)
    decreases |ds|
  {
    ds == [] || (Enabled(t.writer, ds[0].event) && Timely(t, ds[0].event, ds[0].now)
                 && TimelyRun(TimedNext(t, o, ds[0].event, ds[0].now), o, ds[1..]))
  }

  function TimedAfter(t: Timed, o: Options, ds: seq<Dated>): Timed
    requires TimelyRun(t, o, ds)
    decreases |ds|
  {
    if ds == [] then t else TimedAfter(TimedNext(t, o, ds[0].event, ds[0].now), o, ds[1..])
  }

  lemma {:induction false} RunKeepsOrder(t: Timed, o: Options, ds: seq<Dated>)
    requires Orderly(t, o) && TimelyRun(t, o, ds)
    ensures Orderly(TimedAfter(t, o, ds), o)
    decreases |ds|
  {
    if ds != [] {
      var e, now := ds[0].event, ds[0].now;
      if e.Record? {
        RecordKeepsOrder(t, o, e, now);
      } else if e.AppendFailed? {
        FailureKeepsOrder(t, o, e, now);
      } else {
        OthersKeepOrder(t, o, e, now);
      }
      RunKeepsOrder(TimedNext(t, o, ds[0].event, ds[0].now), o, ds[1..]);
    }
  }

  /**
   Bounded wait: in every run of a fresh writer, failures included, while the
   writer is open an update never sits in the pending list longer than debounceMs:
   later records do not push the deadline back.
   */
  lemma NoUpdateWaitsLonger(rows: nat, o: Options, ds: seq<Dated>, now: int, i: nat)
    requires TimelyRun(Timed(Initial(rows), []), o, ds)
    requires var t := TimedAfter(Timed(Initial(rows), []), o, ds);
      !t.writer.closed && i < |t.writer.pending| && (t.writer.timer.Some? ==> now <= t.writer.timer.value)
    ensures var t := TimedAfter(Timed(Initial(rows), []), o, ds);
      && t.writer.timer.Some?
      && |t.arrivals| == |t.writer.pending|
      && now - t.arrivals[i] <= o.debounceMs
      && t.writer.pendingBytes == BytesOf(t.writer.pending)
  {
    RunKeepsOrder(Timed(Initial(rows), []), o, ds);
  }

  // ------------------------------------------------------- what a crash can take

  predicate NoFailures(ds: seq<Dated>) {
    forall d :: d in ds ==> !d.event.AppendFailed?
  }

  /**
   What a crash can take from an open writer that is neither appending nor has a batch
   queued: its pending updates only, and in a run without failures each of those was
   recorded no more than debounceMs ago.
   */
  lemma CalmWriterLosesNothingOlder(rows: nat, o: Options, ds: seq<Dated>, now: int)
    requires TimelyRun(Timed(Initial(rows), []), o, ds) && NoFailures(ds)
    requires var w := TimedAfter(Timed(Initial(rows), []), o, ds).writer;
      !w.closed && w.queue == [] && !w.stage.Appending? && (w.timer.Some? ==> now <= w.timer.value)
    ensures var t := TimedAfter(Timed(Initial(rows), []), o, ds);
      && Held(t.writer) == OpsOf(t.writer.pending) && |t.arrivals| == |t.writer.pending|
      && (forall i :: 0 <= i < |t.arrivals| ==> now - t.arrivals[i] <= o.debounceMs)
      && (forall i :: 0 <= i < |t.arrivals| ==>
            Dated(Record(t.writer.pending[i], t.arrivals[i]), t.arrivals[i]) in ds)
  {
    RunKeepsOrder(Timed(Initial(rows), []), o, ds);
    ArrivalsAreRecords(Timed(Initial(rows), []), o, ds, ds);
  }

  /** Every pending update came with a record of the run. */
  ghost predicate FromRecords(t: Timed, all: seq<Dated>) {
    && |t.arrivals| == |t.writer.pending|
    && forall i :: 0 <= i < |t.arrivals| ==>
      Dated(Record(t.writer.pending[i], t.arrivals[i]), t.arrivals[i]) in all
  }

  lemma StepKeepsRecords(t: Timed, o: Options, d: Dated, all: seq<Dated>)
    requires FromRecords(t, all) && Enabled(t.writer, d.event) && Timely(t, d.event, d.now)
    requires !d.event.AppendFailed? && d in all
    ensures FromRecords(TimedNext(t, o, d.event, d.now), all)
  {
    if d.event.Record? {
      var p := Pushed(t.writer, d.event.update);
      if p.pendingBytes < o.maxBatchBytes {
        assert TimedNext(t, o, d.event, d.now) == Timed(Scheduled(p, o, d.now), t.arrivals + [d.now]);
      }
    }
  }

  lemma {:induction false} ArrivalsAreRecords(t: Timed, o: Options, ds: seq<Dated>, all: seq<Dated>)
    requires FromRecords(t, all) && TimelyRun(t, o, ds) && NoFailures(ds) && forall d :: d in ds ==> d in all
    ensures FromRecords(TimedAfter(t, o, ds), all)
    decreases |ds|
  {
    if ds != [] {
      assert ds[0] in ds && forall d :: d in ds[1..] ==> d in ds;
      StepKeepsRecords(t, o, ds[0], all);
      ArrivalsAreRecords(TimedNext(t, o, ds[0].event, ds[0].now), o, ds[1..], all);
    }
  }

  /** An update is recorded, its batch is flushed in time and goes to a store that does not answer. */
  function SlowAppend(o: Options, u: Chunk, later: Chunk, age: int): seq<Dated> {
    var last := [Dated(BeginWrite, age)] + ([Dated(Record(later, age), age)] + []);
    [Dated(Record(u, 0), 0)] + if u.bytes >= o.maxBatchBytes then last else [Dated(TimerFires, o.debounceMs)] + last
  }

  lemma StartsWithOne(t: Timed, o: Options, d: Dated, ds: seq<Dated>)
    requires Enabled(t.writer, d.event) && Timely(t, d.event, d.now)
    requires TimelyRun(TimedNext(t, o, d.event, d.now), o, ds)
    ensures TimelyRun(t, o, [d] + ds)
    ensures TimedAfter(t, o, [d] + ds) == TimedAfter(TimedNext(t, o, d.event, d.now), o, ds)
  {
    assert ([d] + ds)[1..] == ds;
  }

  /** One batch of one update is queued and nothing else is going on. */
  predicate OnlyQueued(t: Timed, u: Chunk) {
    && t.writer.queue == [[u]] && t.writer.pending == [] && t.arrivals == []
    && t.writer.timer == None && t.writer.stage == Idle
  }

  lemma StoreDoesNotAnswer(t: Timed, o: Options, u: Chunk, later: Chunk, age: int)
    requires OnlyQueued(t, u)
    ensures var ds := [Dated(BeginWrite, age)] + ([Dated(Record(later, age), age)] + []);
      TimelyRun(t, o, ds) && u.ops <= Held(TimedAfter(t, o, ds).writer)
  {
    var c := TimedNext(t, o, BeginWrite, age);
    assert c.writer.stage == Appending([u]);
    var d := TimedNext(c, o, Record(later, age), age);
    assert d.writer.stage == Appending([u]);
    assert [u][..0] == [] && OpsOf([u]) == OpsOf([]) + u.ops;
    StartsWithOne(c, o, Dated(Record(later, age), age), []);
    StartsWithOne(t, o, Dated(BeginWrite, age), [Dated(Record(later, age), age)] + []);
  }

  lemma RecordedAlone(o: Options, u: Chunk)
    ensures var a := TimedNext(Timed(Initial(0), []), o, Record(u, 0), 0);
      if u.bytes >= o.maxBatchBytes then OnlyQueued(a, u)
      else
        && a.writer.timer == Some(o.debounceMs) && a.arrivals == [0]
        && OnlyQueued(TimedNext(a, o, TimerFires, o.debounceMs), u)
  {
    assert [] + [u] == [u] && [] + [[u]] == [[u]] && [] + [0] == [0];
  }

  /**
   While an append is slow there is no such bound: whatever the options, a timely run
   in which nothing fails holds an update of any age, so a crash can take edits older
   than debounceMs.
   */
  lemma HeldCanBeOlder(o: Options, u: Chunk, later: Chunk, age: int)
    requires age >= o.debounceMs
    ensures TimelyRun(Timed(Initial(0), []), o, SlowAppend(o, u, later, age))
    ensures NoFailures(SlowAppend(o, u, later, age))
    ensures u.ops <= Held(TimedAfter(Timed(Initial(0), []), o, SlowAppend(o, u, later, age)).writer)
  {
    var t, first := Timed(Initial(0), []), Dated(Record(u, 0), 0);
    var a := TimedNext(t, o, Record(u, 0), 0);
    var last := [Dated(BeginWrite, age)] + ([Dated(Record(later, age), age)] + []);
    RecordedAlone(o, u);
    if u.bytes >= o.maxBatchBytes {
      StoreDoesNotAnswer(a, o, u, later, age);
      StartsWithOne(t, o, first, last);
    } else {
      var fires := Dated(TimerFires, o.debounceMs);
      StoreDoesNotAnswer(TimedNext(a, o, TimerFires, o.debounceMs), o, u, later, age);
      StartsWithOne(a, o, fires, last);
      StartsWithOne(t, o, first, [fires] + last);
    }
  }
}
