/**
 * The batching pipe of src/utils/modal.py: producers append a batch to the
 * data partition of a queue and one token to its "signal" partition; one
 * consumer loop races a blocking read of "signal" against a stop flag,
 * then drains up to MAX_LEN data items without blocking and hands a
 * non-empty drain to the handler; it stops only when the stop side was in
 * that iteration's `done` set, clearing every partition.
 *
 * The queue is in memory: the data partition is a sequence, the signal
 * partition a count of tokens (their payload is always `True`). The result
 * of `asyncio.wait(..., FIRST_COMPLETED)` is an explicit `Race` argument,
 * and whether the handler raises on a turn's batch is an explicit
 * argument too: a raising handler ends the loop on the spot, without the
 * `clear`. Each consumer iteration is one atomic step.
 */
module BatchPipe {
  import opened Wrappers

  /** Modal's ceiling on the items one queue request moves. */
  const MAX_LEN: nat := 5000

  /** Which of the two raced tasks were in the `done` set. */
  datatype Race = SignalWon | StopWon | BothDone {
    /** `get_task in done`: the blocking read of "signal" completed. */
    predicate SignalDone() { this != StopWon }
    /** `stop_task in done`: the stop flag was seen set by the race. */
    predicate StopDone() { this != SignalWon }
  }

  /** The queue's partitions and the consumer's observable state. */
  datatype PipeState<T> = PipeState(
    data: seq<T>,            // default partition, oldest first
    signals: nat,            // tokens in the "signal" partition
    stopRequested: bool,     // stop_event.is_set()
    delivered: seq<seq<T>>,  // the batches the handler was called with, in order
    stopped: bool,           // the consumer loop has ended
    failure: Option<Exc>)    // what the handler raised, if that is how the loop ended

  function Init<T>(): PipeState<T> {
    PipeState([], 0, false, [], false, None)
  }

  /** All values of a sequence of batches, batch after batch. */
  function Flatten<T>(s: seq<seq<T>>): seq<T> {
    if s == [] then [] else Flatten(s[..|s| - 1]) + s[|s| - 1]
  }

  /** The size of `get_many(MAX_LEN, block=False)` over `n` items. */
  function DrainCount(n: nat): (k: nat)
    ensures k <= n && k <= MAX_LEN
    ensures k == n || k == MAX_LEN
  {
    if n <= MAX_LEN then n else MAX_LEN
  }

  /** The batch the next iteration drains: the oldest DrainCount items. */
  function Batch<T>(p: PipeState<T>): seq<T> {
    p.data[..DrainCount(|p.data|)]
  }

  /** `produce_batch(values)`: `put_many(values)` then one `put(True, partition="signal")`. */
  function Send<T>(p: PipeState<T>, values: seq<T>): PipeState<T> {
    p.(data := p.data + values, signals := p.signals + 1)
  }

  /** `stop()`: `stop_event.set()`. */
  function RequestStop<T>(p: PipeState<T>): PipeState<T> {
    p.(stopRequested := true)
  }

  /**
   * Whether the race can end with `r`: the loop is still running, a
   * blocking read of "signal" completes only when a token is there, and
   * `stop_event.wait()` completes only once the flag is set.
   */
  predicate CanRace<T>(p: PipeState<T>, r: Race) {
    && !p.stopped
    && (r.SignalDone() ==> p.signals > 0)
    && (r.StopDone() ==> p.stopRequested)
  }

  /** Handing a non-empty batch to the handler appends it to the delivered batches; an empty one is not handed over. */
  lemma DeliverBatch<T>(delivered: seq<seq<T>>, batch: seq<T>)
    ensures var d := if batch != [] then delivered + [batch] else delivered;
      && delivered <= d && |d| == |delivered| + (if batch != [] then 1 else 0)
      && Flatten(d) == Flatten(delivered) + batch
      && (batch != [] ==> d[|delivered|] == batch)
  {
    if batch != [] {
      var d := delivered + [batch];
      assert d[..|d| - 1] == delivered;
    }
  }

  /**
   * One iteration of `batched_consume`'s `while True` loop, given how the
   * race ended and what the handler does with this turn's batch: `raises`
   * is the exception it raises, None when it returns.
   */
  function Iterate<T>(p: PipeState<T>, r: Race, raises: Option<Exc>): PipeState<T>
    requires CanRace(p, r)
  {
    var signals := if r.SignalDone() then p.signals - DrainCount(p.signals) else p.signals;
    var k := DrainCount(|p.data|);
    var batch := p.data[..k];
    var delivered := if batch != [] then p.delivered + [batch] else p.delivered;
    if batch != [] && raises.Some? then
      PipeState(p.data[k..], signals, p.stopRequested, delivered, true, raises)
    else if r.StopDone() then
      PipeState([], 0, p.stopRequested, delivered, true, None)
    else
      PipeState(p.data[k..], signals, p.stopRequested, delivered, false, None)
  }

  /** The state one loop turn leaves, by how the turn ends. */
  lemma IterateCases<T>(p: PipeState<T>, r: Race, raises: Option<Exc>)
    requires CanRace(p, r)
    ensures var k := DrainCount(|p.data|);
      var signals := if r.SignalDone() then p.signals - DrainCount(p.signals) else p.signals;
      && (p.data != [] && raises.Some? ==>
            Iterate(p, r, raises) == PipeState(p.data[k..], signals, p.stopRequested, p.delivered + [p.data[..k]], true, raises))
      && (p.data != [] && raises.None? && r.StopDone() ==>
            Iterate(p, r, raises) == PipeState([], 0, p.stopRequested, p.delivered + [p.data[..k]], true, None))
      && (p.data != [] && raises.None? && !r.StopDone() ==>
            Iterate(p, r, raises) == PipeState(p.data[k..], signals, p.stopRequested, p.delivered + [p.data[..k]], false, None))
      && (p.data == [] && r.StopDone() ==> Iterate(p, r, raises) == PipeState([], 0, p.stopRequested, p.delivered, true, None))
      && (p.data == [] && !r.StopDone() ==> Iterate(p, r, raises) == PipeState([], signals, p.stopRequested, p.delivered, false, None))
  {
    assert p.data[..DrainCount(|p.data|)] != [] <==> p.data != [];
    assert p.data == [] ==> p.data[DrainCount(|p.data|)..] == [];
  }

  /** How one loop turn ends: the loop stops on the stop side or when the handler raised. */
  lemma IterateEnds<T>(p: PipeState<T>, r: Race, raises: Option<Exc>)
    requires CanRace(p, r)
    ensures var q := Iterate(p, r, raises);
      && (q.stopped <==> r.StopDone() || (p.data != [] && raises.Some?))
      && q.failure == (if p.data != [] then raises else None)
      && q.stopRequested == p.stopRequested
  {
    assert p.data[..DrainCount(|p.data|)] != [] <==> p.data != [];
  }

  /** One loop turn makes at most one handler call, exactly when data was queued, with the oldest items. */
  lemma IterateDelivers<T>(p: PipeState<T>, r: Race, raises: Option<Exc>)
    requires CanRace(p, r)
    ensures var q := Iterate(p, r, raises); var k := DrainCount(|p.data|);
      && p.delivered <= q.delivered && |q.delivered| <= |p.delivered| + 1
      && (|q.delivered| == |p.delivered| + 1 <==> p.data != [])
      && (p.data != [] ==> q.delivered[|p.delivered|] == p.data[..k])
      && Flatten(q.delivered) == Flatten(p.delivered) + p.data[..k]
  {
    var k := DrainCount(|p.data|);
    assert p.data[..k] != [] <==> p.data != [];
    DeliverBatch(p.delivered, p.data[..k]);
  }

  /** What one loop turn leaves queued: the rest after the batch, unless the loop broke out and cleared it. */
  lemma IterateQueue<T>(p: PipeState<T>, r: Race, raises: Option<Exc>)
    requires CanRace(p, r)
    ensures var q := Iterate(p, r, raises); var k := DrainCount(|p.data|);
      && (!q.stopped || q.failure.Some? ==> q.data == p.data[k..])
      && (q.stopped && q.failure.None? ==> q.data == [] && q.signals == 0)
  {
    assert p.data[..DrainCount(|p.data|)] != [] <==> p.data != [];
  }

  /** What one loop turn does to the queue, the delivered batches and the loop's end. */
  lemma IterateMeaning<T>(p: PipeState<T>, r: Race, raises: Option<Exc>)
    requires CanRace(p, r)
    ensures var q := Iterate(p, r, raises); var k := DrainCount(|p.data|);
      // the loop ends when the captured race result holds the stop side, or when the handler raised
      && (q.stopped <==> r.StopDone() || (p.data != [] && raises.Some?))
      && q.failure == (if p.data != [] then raises else None)
      && q.stopRequested == p.stopRequested
      // at most one handler call, and never with an empty batch
      && p.delivered <= q.delivered && |q.delivered| <= |p.delivered| + 1
      && (|q.delivered| == |p.delivered| + 1 <==> p.data != [])
      // the batch is the oldest min(MAX_LEN, |data|) items, whichever side won
      && (p.data != [] ==> q.delivered[|p.delivered|] == p.data[..k])
      // unless the loop broke out, nothing is lost or reordered
      && (!q.stopped || q.failure.Some? ==> Flatten(q.delivered) + q.data == Flatten(p.delivered) + p.data)
      // a raising handler leaves the loop before the clear: the batch has left the queue, the rest stays
      && (q.failure.Some? ==> q.data == p.data[k..])
      // on breaking out, every partition is cleared: what is not in the final batch is discarded
      && (q.stopped && q.failure.None? ==> q.data == [] && q.signals == 0)
      && (q.stopped && q.failure.None? ==> Flatten(q.delivered) + p.data[k..] == Flatten(p.delivered) + p.data)
  {
    var q := Iterate(p, r, raises);
    var k := DrainCount(|p.data|);
    IterateEnds(p, r, raises);
    IterateDelivers(p, r, raises);
    IterateQueue(p, r, raises);
    assert Flatten(p.delivered) + p.data == (Flatten(p.delivered) + p.data[..k]) + p.data[k..] by {
      assert p.data == p.data[..k] + p.data[k..];
    }
    if !q.stopped || q.failure.Some? {
      assert Flatten(q.delivered) + q.data == (Flatten(p.delivered) + p.data[..k]) + p.data[k..];
    }
  }

  /**
   * What holds of every reachable state, given the concatenation `sent`
   * of all values passed to the producer so far.
   */
  ghost predicate Inv<T>(p: PipeState<T>, sent: seq<T>) {
    && (p.failure.Some? ==> p.stopped)
    && (p.stopped && p.failure.None? ==> p.stopRequested)
    && (forall i :: 0 <= i < |p.delivered| ==> p.delivered[i] != [] && |p.delivered[i]| <= MAX_LEN)
    && (!p.stopped || p.failure.Some? ==> Flatten(p.delivered) + p.data == sent)
    && Flatten(p.delivered) <= sent
  }

  lemma InvInit<T>()
    ensures Inv(Init<T>(), [])
  {
  }

  lemma InvSend<T>(p: PipeState<T>, sent: seq<T>, values: seq<T>)
    requires Inv(p, sent)
    ensures Inv(Send(p, values), sent + values)
  {
  }

  lemma InvRequestStop<T>(p: PipeState<T>, sent: seq<T>)
    requires Inv(p, sent)
    ensures Inv(RequestStop(p), sent)
  {
  }

  lemma InvIterate<T>(p: PipeState<T>, sent: seq<T>, r: Race, raises: Option<Exc>)
    requires Inv(p, sent) && CanRace(p, r)
    ensures Inv(Iterate(p, r, raises), sent)
  {
    var q := Iterate(p, r, raises);
    IterateMeaning(p, r, raises);
    var k := DrainCount(|p.data|);
    assert Flatten(p.delivered) + p.data[..k] + p.data[k..] == sent by {
      assert p.data == p.data[..k] + p.data[k..];
    }
    if p.data != [] {
      assert q.delivered == p.delivered + [p.data[..k]];
      assert q.delivered[..|q.delivered| - 1] == p.delivered;
    } else {
      assert q.delivered == p.delivered;
    }
    assert Flatten(q.delivered) == Flatten(p.delivered) + p.data[..k];
  }

  /** An interleaving of producer calls, the teardown's stop() and consumer iterations. */
  datatype Event<T> = Produce(values: seq<T>) | Stop | Wake(race: Race, raises: Option<Exc>)

  function Apply<T>(p: PipeState<T>, e: Event<T>): Option<PipeState<T>> {
    match e
    case Produce(values) => Some(Send(p, values))
    case Stop => Some(RequestStop(p))
    case Wake(r, raises) => if CanRace(p, r) then Some(Iterate(p, r, raises)) else None
  }

  /** The state after `evs` from `p`, or None if some iteration could not race that way. */
  function Run<T>(p: PipeState<T>, evs: seq<Event<T>>): Option<PipeState<T>> {
    if evs == [] then Some(p)
    else
      match Run(p, evs[..|evs| - 1])
      case None => None
      case Some(q) => Apply(q, evs[|evs| - 1])
  }

  /** The concatenation of the values of all producer calls in `evs`. */
  function Sent<T>(evs: seq<Event<T>>): seq<T> {
    if evs == [] then []
    else
      var e := evs[|evs| - 1];
      Sent(evs[..|evs| - 1]) + (if e.Produce? then e.values else [])
  }

  lemma {:induction false} RunKeepsInv<T>(evs: seq<Event<T>>)
    ensures Run(Init(), evs).Some? ==> Inv(Run(Init(), evs).value, Sent(evs))
  {
    if evs == [] {
      InvInit<T>();
    } else {
      var front := evs[..|evs| - 1];
      RunKeepsInv(front);
      if Run(Init(), front).Some? {
        var p := Run(Init(), front).value;
        match evs[|evs| - 1]
        case Produce(values) => InvSend(p, Sent(front), values);
        case Stop => InvRequestStop(p, Sent(front));
        case Wake(r, raises) => if CanRace(p, r) { InvIterate(p, Sent(front), r, raises); }
      }
    }
  }

  /**
   * Over any interleaving: the concatenation of the batches handed to the
   * handler is a prefix of the concatenation of all sent values, in send
   * order; every batch is non-empty and holds at most MAX_LEN values; while
   * the loop runs, and after the handler raised, what is not delivered is
   * exactly what is queued; the loop ends normally only after a stop.
   */
  lemma DeliveredInSendOrder<T>(evs: seq<Event<T>>)
    requires Run(Init(), evs).Some?
    ensures var q := Run(Init(), evs).value;
      && Flatten(q.delivered) <= Sent(evs)
      && (forall i :: 0 <= i < |q.delivered| ==> q.delivered[i] != [] && |q.delivered[i]| <= MAX_LEN)
      && (!q.stopped || q.failure.Some? ==> Flatten(q.delivered) + q.data == Sent(evs))
      && (q.stopped && q.failure.None? ==> q.stopRequested)
      && (q.failure.Some? ==> q.stopped)
  {
    RunKeepsInv(evs);
  }

  /**
   * Shutdown drains before terminating: once stop is requested, an
   * iteration whose race shows the stop side hands every queued value to
   * the handler (when at most MAX_LEN are queued) and ends the loop,
   * whether or not the handler then raises.
   */
  lemma FinalIterationDeliversBacklog<T>(p: PipeState<T>, r: Race, raises: Option<Exc>)
    requires CanRace(p, r) && r.StopDone() && |p.data| <= MAX_LEN
    ensures Iterate(p, r, raises).stopped
    ensures Flatten(Iterate(p, r, raises).delivered) == Flatten(p.delivered) + p.data
  {
    IterateMeaning(p, r, raises);
    assert p.data[|p.data|..] == [];
  }

  /**
   * A stop flag set after the race (while the handler runs) does not end
   * the loop early: the iteration whose race showed only the signal side
   * keeps running, and the next race may show the stop side.
   */
  lemma LateStopGetsAnotherIteration<T>(p: PipeState<T>, sent: seq<T>)
    requires Inv(p, sent) && CanRace(p, SignalWon)
    ensures Run(p, [Wake(SignalWon, None), Stop]).Some?
    ensures var q := Run(p, [Wake(SignalWon, None), Stop]).value;
      && !q.stopped && CanRace(q, StopWon)
      && (|q.data| <= MAX_LEN ==> Flatten(Iterate(q, StopWon, None).delivered) == sent)
  {
    var evs: seq<Event<T>> := [Wake(SignalWon, None), Stop];
    assert evs[..1] == [Wake(SignalWon, None)] && evs[..1][..0] == [];
    assert Run(p, evs[..1]) == Some(Iterate(p, SignalWon, None));
    assert Run(p, evs) == Some(RequestStop(Iterate(p, SignalWon, None)));
    var q := Run(p, evs).value;
    InvIterate(p, sent, SignalWon, None);
    InvRequestStop(Iterate(p, SignalWon, None), sent);
    if |q.data| <= MAX_LEN {
      FinalIterationDeliversBacklog(q, StopWon, None);
    }
  }

  /**
   * The backlog stall: a turn that drains every signal token while more
   * than MAX_LEN values are queued leaves the rest queued with no token,
   * so no turn can start on the signal side again and only a stop (or
   * another producer call) wakes the loop.
   */
  lemma BacklogBeyondMaxLenStalls<T>(p: PipeState<T>)
    requires CanRace(p, SignalWon) && p.signals <= MAX_LEN && |p.data| > MAX_LEN
    ensures var q := Iterate(p, SignalWon, None);
      && q.data == p.data[MAX_LEN..] && q.data != [] && q.signals == 0 && !q.stopped
      && q.delivered == p.delivered + [p.data[..MAX_LEN]]
      && !CanRace(q, SignalWon) && !CanRace(q, BothDone)
      && (CanRace(q, StopWon) <==> p.stopRequested)
  {
    IterateCases(p, SignalWon, None);
  }

  /** 5001 values sent in one call: after the first wake, the last one waits with no token. */
  lemma BacklogStallExample()
    ensures Run(Init<int>(), [Produce(seq(MAX_LEN + 1, i => i)), Wake(SignalWon, None)]).Some?
    ensures var q := Run(Init<int>(), [Produce(seq(MAX_LEN + 1, i => i)), Wake(SignalWon, None)]).value;
      && q.data == [MAX_LEN] && q.signals == 0 && !q.stopped
      && !CanRace(q, SignalWon) && !CanRace(q, BothDone) && !CanRace(q, StopWon)
  {
    var values := seq(MAX_LEN + 1, i => i);
    var evs: seq<Event<int>> := [Produce(values), Wake(SignalWon, None)];
    assert evs[..1] == [Produce(values)] && evs[..1][..0] == [];
    var p := Send(Init<int>(), values);
    assert Run(Init<int>(), evs[..1]) == Some(p);
    assert Run(Init<int>(), evs) == Some(Iterate(p, SignalWon, None));
    BacklogBeyondMaxLenStalls(p);
    assert values[MAX_LEN..] == [MAX_LEN];
  }

  /**
   * A stop win with more than MAX_LEN values queued hands the oldest
   * MAX_LEN to the handler; if it returns, the `clear` discards the rest
   * undelivered, and if it raises, the rest stays queued.
   */
  lemma StopWinDiscardsBacklog<T>(p: PipeState<T>, r: Race, raises: Option<Exc>)
    requires CanRace(p, r) && r.StopDone() && |p.data| > MAX_LEN
    ensures var q := Iterate(p, r, raises);
      && q.stopped
      && q.delivered == p.delivered + [p.data[..MAX_LEN]]
      && Flatten(q.delivered) == Flatten(p.delivered) + p.data[..MAX_LEN]
      && (raises.None? ==> q.data == [] && q.signals == 0 && q.failure.None?)
      && (raises.Some? ==> q.data == p.data[MAX_LEN..] && q.failure == raises)
  {
    IterateCases(p, r, raises);
    DeliverBatch(p.delivered, p.data[..MAX_LEN]);
  }

  /** An exception: a `TimeoutError` with the notes added to it, or any other one. */
  datatype Exc = TimeoutError(notes: seq<string>) | OtherError(id: nat)

  /** How `await asyncio.wait_for(task, trailing_timeout)` ended. */
  datatype Join = Completed | TimedOut | ConsumerRaised(error: Exc)

  /** How leaving the `async with` scope ends: what propagates, and whether a warning was logged. */
  datatype ScopeExit = ScopeExit(raised: Option<Exc>, warned: bool)

  const TRAILING_NOTE: string := "While waiting for trailing messages"

  /**
   * The `finally` of `send_batch_to` after `stop()`, given the exception
   * the caller's block raised (if any), whether `trailing_timeout` bounds
   * the wait, the `errors` argument and how the wait ended. A
   * `TimeoutError` from the wait is re-raised with a note under "throw" and
   * only logged otherwise; any other exception from the consumer task is
   * not caught and replaces the block's; a finally block that completes
   * lets the block's own exception propagate. Of the `errors` values only
   * "throw" re-raises.
   */
  function Teardown(body: Option<Exc>, bounded: bool, errors: string, join: Join): (x: ScopeExit)
    requires !bounded ==> !join.TimedOut?
    ensures x.warned <==> errors != "throw" && (join.TimedOut? || (join.ConsumerRaised? && join.error.TimeoutError?))
    ensures join.Completed? ==> x.raised == body
    ensures join.TimedOut? && errors == "throw" ==> x.raised == Some(TimeoutError([TRAILING_NOTE]))
    ensures join.TimedOut? && errors != "throw" ==> x.raised == body
    ensures join.ConsumerRaised? && join.error.OtherError? ==> x.raised == Some(join.error)
    ensures x.raised.None? ==> body.None?
  {
    match join
    case Completed => ScopeExit(body, false)
    case TimedOut =>
      if errors == "throw" then ScopeExit(Some(TimeoutError([TRAILING_NOTE])), false)
      else ScopeExit(body, true)
    case ConsumerRaised(e) =>
      if !e.TimeoutError? then ScopeExit(Some(e), false)
      else if errors == "throw" then ScopeExit(Some(TimeoutError(e.notes + [TRAILING_NOTE])), false)
      else ScopeExit(body, true)
  }

  /**
   * How the wait must end for a consumer task that has already finished:
   * with the handler's exception if that is how the loop ended, normally
   * otherwise. A task still running may end either way later.
   */
  predicate JoinAgrees<T>(p: PipeState<T>, join: Join) {
    p.stopped ==> join == (if p.failure.Some? then ConsumerRaised(p.failure.value) else Completed)
  }

  /**
   * An exception the handler raised in the loop reaches the caller when the
   * `async with` scope is left: any other error replaces the block's own
   * outcome, a `TimeoutError` from the handler is treated like the wait's
   * own timeout.
   */
  lemma HandlerFailureSurfacesAtTeardown<T>(p: PipeState<T>, body: Option<Exc>, bounded: bool, errors: string, join: Join)
    requires p.stopped && p.failure.Some? && JoinAgrees(p, join)
    ensures var e := p.failure.value; var x := Teardown(body, bounded, errors, join);
      && (e.OtherError? ==> x.raised == Some(e) && !x.warned)
      && (e.TimeoutError? && errors == "throw" ==> x.raised == Some(TimeoutError(e.notes + [TRAILING_NOTE])))
      && (e.TimeoutError? && errors != "throw" ==> x.raised == body && x.warned)
  {
  }

  /**
   * A handler supplied by the caller: whether `inspect.iscoroutinefunction`
   * holds of it, and an identity standing for the function itself.
   */
  datatype Handler = Handler(id: nat, isCoroutineFunction: bool)

  /** The async callable `corerce_to_async` returns. */
  datatype AsyncHandler = Unchanged(fn: Handler) | AsyncWrapper(fn: Handler)

  /**
   * `corerce_to_async(fn)`: a coroutine function is returned as it is;
   * any other function is wrapped in an async function that calls it.
   * Either way calling the result calls `fn` with the same arguments.
   */
  function CoerceToAsync(h: Handler): (a: AsyncHandler)
    ensures a.fn == h
    ensures a.Unchanged? <==> h.isCoroutineFunction
  {
    if h.isCoroutineFunction then Unchanged(h) else AsyncWrapper(h)
  }

  /** `_producer(emit_batch)(value)`: one value is sent as a one-element batch. */
  function ProduceOne<T>(p: PipeState<T>, value: T): (q: PipeState<T>)
    ensures q.data == p.data + [value] && q.signals == p.signals + 1
    ensures q.delivered == p.delivered && q.stopped == p.stopped && q.stopRequested == p.stopRequested
  {
    Send(p, [value])
  }

  /**
   * `_consumer(receive)`: the per-item handler is awaited once per value
   * of the batch, in order, and the first value it raises on ends the
   * adapter. `fails` holds the values the handler raises on. The result is
   * the values it was called with and whether the adapter raised.
   */
  function ConsumeFromBatch<T>(values: seq<T>, fails: set<T>): (seq<T>, bool) {
    if values == [] then ([], false)
    else if values[0] in fails then ([values[0]], true)
    else
      var rest := ConsumeFromBatch(values[1..], fails);
      ([values[0]] + rest.0, rest.1)
  }

  /**
   * The adapter raises iff some value of the batch is failing; then its
   * calls are the batch up to and including the first failing value, and
   * otherwise the whole batch.
   */
  lemma {:induction false} ConsumeFromBatchMeaning<T>(values: seq<T>, fails: set<T>)
    ensures var (calls, raised) := ConsumeFromBatch(values, fails);
      && (raised <==> exists i :: 0 <= i < |values| && values[i] in fails)
      && (!raised ==> calls == values)
      && (raised ==> 0 < |calls| <= |values| && calls == values[..|calls|]
                     && calls[|calls| - 1] in fails
                     && forall i :: 0 <= i < |calls| - 1 ==> calls[i] !in fails)
  {
    if values != [] && values[0] !in fails {
      var rest := values[1..];
      ConsumeFromBatchMeaning(rest, fails);
      var (calls, raised) := ConsumeFromBatch(rest, fails);
      assert ConsumeFromBatch(values, fails) == ([values[0]] + calls, raised);
      assert values == [values[0]] + rest;
      if raised {
        assert ([values[0]] + calls) == values[..1 + |calls|] by {
          assert calls == rest[..|calls|];
        }
      } else {
        forall i | 0 <= i < |values| ensures values[i] !in fails {
          if 0 < i { assert values[i] == rest[i - 1]; }
        }
      }
    }
  }

  /**
   * The calls a per-item handler sees over the batches the loop delivered:
   * the loop ends with the first batch on which the adapter raised.
   */
  function ItemCalls<T>(batches: seq<seq<T>>, fails: set<T>): seq<T> {
    if batches == [] then []
    else
      var (calls, raised) := ConsumeFromBatch(batches[0], fails);
      if raised then calls else calls + ItemCalls(batches[1..], fails)
  }

  lemma {:induction false} FlattenCons<T>(b: seq<T>, rest: seq<seq<T>>)
    ensures Flatten([b] + rest) == b + Flatten(rest)
    decreases |rest|
  {
    if rest != [] {
      var front := rest[..|rest| - 1];
      FlattenCons(b, front);
      assert ([b] + rest)[..|rest|] == [b] + front;
    } else {
      assert [b] + rest == [b];
      assert [b][..0] == [];
    }
  }

  /**
   * Through the single-item adapter the per-item handler sees the
   * delivered values in delivery order, each at most once, and all of them
   * when it never raises.
   */
  lemma {:induction false} ItemCallsAreFlattened<T>(batches: seq<seq<T>>, fails: set<T>)
    ensures ItemCalls(batches, fails) <= Flatten(batches)
    ensures (forall i, j :: 0 <= i < |batches| && 0 <= j < |batches[i]| ==> batches[i][j] !in fails)
      ==> ItemCalls(batches, fails) == Flatten(batches)
  {
    if batches != [] {
      var b := batches[0];
      var rest := batches[1..];
      assert batches == [b] + rest;
      FlattenCons(b, rest);
      ConsumeFromBatchMeaning(b, fails);
      ItemCallsAreFlattened(rest, fails);
      if forall i, j :: 0 <= i < |batches| && 0 <= j < |batches[i]| ==> batches[i][j] !in fails {
        assert !ConsumeFromBatch(b, fails).1 by {
          forall j | 0 <= j < |b| ensures b[j] !in fails { assert batches[0][j] == b[j]; }
        }
        forall i, j | 0 <= i < |rest| && 0 <= j < |rest[i]| ensures rest[i][j] !in fails {
          assert rest[i] == batches[i + 1];
        }
      }
    }
  }

  /**
   * The single-item adapter over any interleaving: the per-item handler
   * sees a prefix of the sent values, in send order, each at most once.
   */
  lemma ItemsSeenInSendOrder<T>(evs: seq<Event<T>>, fails: set<T>)
    requires Run(Init(), evs).Some?
    ensures ItemCalls(Run(Init(), evs).value.delivered, fails) <= Sent(evs)
  {
    DeliveredInSendOrder(evs);
    ItemCallsAreFlattened(Run(Init(), evs).value.delivered, fails);
  }

  /**
   * The pipe's queue and consumer loop, updated in place: `Send`, `Stop`
   * and `Step` are `produce_batch`, `stop` and one turn of
   * `batched_consume`'s loop; `Close` is the teardown.
   */
  class Pipe<T> {
    var data: seq<T>
    var signals: nat
    var stopRequested: bool
    var delivered: seq<seq<T>>
    var stopped: bool
    var failure: Option<Exc>
    /** Everything passed to the producer so far. */
    ghost var sent: seq<T>

    function State(): PipeState<T>
      reads this
    {
      PipeState(data, signals, stopRequested, delivered, stopped, failure)
    }

    ghost predicate Valid()
      reads this
    {
      Inv(State(), sent)
    }

    /** `modal.Queue.ephemeral()` and `asyncio.Event()`: an empty queue, flag clear. */
    constructor ()
      ensures Valid() && State() == Init() && sent == []
    {
      data, signals, stopRequested, delivered, stopped, failure := [], 0, false, [], false, None;
      sent := [];
    }

    method Send(values: seq<T>)
      requires Valid()
      modifies this
      ensures Valid() && sent == old(sent) + values
      ensures data == old(data) + values && signals == old(signals) + 1
      ensures stopRequested == old(stopRequested) && delivered == old(delivered)
      ensures stopped == old(stopped) && failure == old(failure)
    {
      InvSend(State(), sent, values);
      data := data + values;
      signals := signals + 1;
      sent := sent + values;
    }

    /** `_producer`'s `produce_one(value)`: `emit_batch([value])`. */
    method SendOne(value: T)
      requires Valid()
      modifies this
      ensures Valid() && sent == old(sent) + [value]
      ensures State() == ProduceOne(old(State()), value)
    {
      Send([value]);
    }

    method Stop()
      requires Valid()
      modifies this
      ensures Valid() && sent == old(sent)
      ensures State() == RequestStop(old(State()))
    {
      InvRequestStop(State(), sent);
      stopRequested := true;
    }

    /**
     * One turn of the loop, given how the race ended and what the handler
     * raises on this turn's batch: returns the drained batch, whether the
     * handler was called with it, and whether the loop ended.
     */
    method Step(r: Race, raises: Option<Exc>) returns (batch: seq<T>, dispatched: bool, finished: bool)
      requires Valid() && CanRace(State(), r)
      modifies this
      ensures Valid() && sent == old(sent)
      ensures State() == Iterate(old(State()), r, raises)
      ensures batch == old(data)[..DrainCount(|old(data)|)]
      ensures dispatched <==> batch != []
      ensures finished <==> r.StopDone() || (dispatched && raises.Some?)
    {
      ghost var before := State();
      ghost var after := Iterate(before, r, raises);
      InvIterate(before, sent, r, raises);
      IterateCases(before, r, raises);
      if r.SignalDone() {
        signals := signals - DrainCount(signals);
      }
      var k := DrainCount(|data|);
      batch := data[..k];
      data := data[k..];
      dispatched := batch != [];
      if dispatched {
        delivered := delivered + [batch];
        if raises.Some? {
          stopped, failure, finished := true, raises, true;
          assert State() == after;
          return;
        }
      }
      finished := r.StopDone();
      if finished {
        data, signals, stopped := [], 0, true;
      }
      assert State() == after;
    }

    /**
     * The `finally` of `send_batch_to`: always `stop()`, then the bounded
     * wait and the `errors` policy on how it ended.
     */
    method Close(body: Option<Exc>, bounded: bool, errors: string, join: Join) returns (x: ScopeExit)
      requires Valid()
      requires !bounded ==> !join.TimedOut?
      requires JoinAgrees(State(), join)
      modifies this
      ensures Valid() && sent == old(sent)
      ensures State() == RequestStop(old(State()))
      ensures x == Teardown(body, bounded, errors, join)
      ensures stopped && failure.None? ==> x == ScopeExit(body, false)
      ensures failure.Some? && failure.value.OtherError? ==> x == ScopeExit(failure, false)
      ensures failure.Some? && failure.value.TimeoutError? ==>
        x == if errors == "throw" then ScopeExit(Some(TimeoutError(failure.value.notes + [TRAILING_NOTE])), false)
             else ScopeExit(body, true)
    {
      Stop();
      x := Teardown(body, bounded, errors, join);
    }
  }
}
