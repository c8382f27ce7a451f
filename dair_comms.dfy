/**
 * src/dair/comms.py: the earlier copy of the batching pipe. Its queue
 * protocol is the one of module BatchPipe; what differs is how the handler
 * is called (whether it is a coroutine function is decided once, before
 * the loop starts: async handlers are awaited, sync ones called inline)
 * and `send_to`, which hands the per-item `receive` straight to
 * `send_batch_to`, so that handler receives the drained lists.
 */
module DairComms {
  import opened Wrappers
  import opened BatchPipe

  /** One call of the handler from the consumer loop. */
  datatype Dispatch<T> = Awaited(batch: seq<T>) | CalledInline(batch: seq<T>)

  /** `is_async_handler = inspect.iscoroutinefunction(receive)`, computed once. */
  function IsAsyncHandler(receive: Handler): bool {
    receive.isCoroutineFunction
  }

  /**
   * One turn of `consume`'s `while True` loop: the queue side is the loop
   * turn of module BatchPipe (drain up to MAX_LEN items, leave the loop if
   * the handler raises `raises`, otherwise break out and clear on a stop
   * win); what this copy adds is how a non-empty drain is handed over, as
   * `is_async_handler` says. Returns the new state and the handler calls
   * made.
   */
  function Consume<T>(p: PipeState<T>, r: Race, isAsyncHandler: bool, raises: Option<Exc>): (res: (PipeState<T>, seq<Dispatch<T>>))
    requires CanRace(p, r)
    // the same queue protocol as src/utils/modal.py
    ensures res.0 == Iterate(p, r, raises)
    // at most one call, exactly when something was drained, with that batch
    ensures |res.1| <= 1 && (res.1 != [] <==> p.data != [])
    ensures forall d :: d in res.1 ==> d.batch == Batch(p) && (d.Awaited? <==> isAsyncHandler)
  {
    var values := Batch(p);
    var calls := if values == [] then [] else if isAsyncHandler then [Awaited(values)] else [CalledInline(values)];
    (Iterate(p, r, raises), calls)
  }

  /** `produce(values)`: `put_many(values)`, then one token on "signal". */
  function Produce<T>(p: PipeState<T>, values: seq<T>): (q: PipeState<T>)
    ensures q == Send(p, values)
  {
    PipeState(p.data + values, p.signals + 1, p.stopRequested, p.delivered, p.stopped, p.failure)
  }

  /** `send_to`'s `produce(value)`: `produce_batch([value])`. */
  function ProduceOne<T>(p: PipeState<T>, value: T): PipeState<T> {
    Produce(p, [value])
  }

  /**
   * `send_to` passes the per-item `receive` to `send_batch_to` itself, so
   * two values sent one at a time before one wake reach that handler as
   * one list holding both, not as two single values (compare
   * BatchPipe.ConsumeFromBatch, which src/utils/modal.py inserts).
   */
  lemma SendToHandlerReceivesLists<T>(a: T, b: T, isAsyncHandler: bool)
    ensures var p := ProduceOne(ProduceOne(Init<T>(), a), b);
      && CanRace(p, SignalWon)
      && Consume(p, SignalWon, isAsyncHandler, None).1
         == [if isAsyncHandler then Awaited([a, b]) else CalledInline([a, b])]
  {
    var p := ProduceOne(ProduceOne(Init<T>(), a), b);
    assert p.data == [a, b];
    assert Batch(p) == [a, b];
  }

  /**
   * The `finally` of `send_batch_to`: `stop_event.set()`, then the bounded
   * wait; a `TimeoutError` is re-raised with a note under 'throw' and
   * logged otherwise; anything else the consumer task raised propagates.
   */
  function Teardown<T>(p: PipeState<T>, body: Option<Exc>, bounded: bool, errors: string, join: Join): (res: (PipeState<T>, ScopeExit))
    requires !bounded ==> !join.TimedOut?
    ensures res.0 == RequestStop(p)
    ensures res.1 == BatchPipe.Teardown(body, bounded, errors, join)
  {
    var requested := p.(stopRequested := true);
    var timeout: Option<seq<string>> :=
      match join
      case Completed => None
      case TimedOut => Some([])
      case ConsumerRaised(e) => if e.TimeoutError? then Some(e.notes) else None;
    assert join.TimedOut? ==> timeout.value + [TRAILING_NOTE] == [TRAILING_NOTE];
    if timeout.Some? then
      if errors == "throw" then (requested, ScopeExit(Some(TimeoutError(timeout.value + [TRAILING_NOTE])), false))
      else (requested, ScopeExit(body, true))
    else if join.ConsumerRaised? then (requested, ScopeExit(Some(join.error), false))
    else (requested, ScopeExit(body, false))
  }

  /** Each recorded handler call carries the batch delivered at that turn, awaited iff the handler is async. */
  ghost predicate CallsMatch<T>(calls: seq<Dispatch<T>>, delivered: seq<seq<T>>, isAsyncHandler: bool) {
    && |calls| == |delivered|
    && forall i :: 0 <= i < |calls| ==> calls[i].batch == delivered[i] && (calls[i].Awaited? <==> isAsyncHandler)
  }

  /** A loop turn keeps the recorded calls in step with the delivered batches. */
  lemma CallsMatchStep<T>(p: PipeState<T>, r: Race, calls: seq<Dispatch<T>>, isAsyncHandler: bool, raises: Option<Exc>)
    requires CanRace(p, r) && CallsMatch(calls, p.delivered, isAsyncHandler)
    ensures CallsMatch(calls + Consume(p, r, isAsyncHandler, raises).1, Iterate(p, r, raises).delivered, isAsyncHandler)
  {
    var q := Iterate(p, r, raises);
    IterateMeaning(p, r, raises);
    var made := Consume(p, r, isAsyncHandler, raises).1;
    if p.data != [] {
      assert q.delivered == p.delivered + [Batch(p)] by {
        assert q.delivered[..|p.delivered|] == p.delivered;
      }
      assert made[0] in made;
    } else {
      assert made == [];
      assert q.delivered == p.delivered;
    }
  }

  /**
   * The consumer side of `send_batch_to`, in place: the queue and flag of
   * a BatchPipe.Pipe, the handler kind fixed when the pipe is set up, and
   * the handler calls made so far.
   */
  class Consumer<T> {
    const pipe: Pipe<T>
    const isAsyncHandler: bool
    var calls: seq<Dispatch<T>>

    ghost predicate Valid()
      reads this, pipe
    {
      && pipe.Valid()
      && CallsMatch(calls, pipe.delivered, isAsyncHandler)
    }

    constructor (receive: Handler)
      ensures Valid() && fresh(pipe)
      ensures pipe.State() == Init() && calls == []
      ensures isAsyncHandler == IsAsyncHandler(receive)
    {
      isAsyncHandler := IsAsyncHandler(receive);
      pipe := new Pipe();
      calls := [];
    }

    /** One turn of `consume`'s loop, given what the handler raises; returns whether the loop ended. */
    method Step(r: Race, raises: Option<Exc>) returns (finished: bool)
      requires Valid() && CanRace(pipe.State(), r)
      modifies this, pipe
      ensures Valid() && pipe.sent == old(pipe.sent)
      ensures old(|calls|) <= |calls| && calls[..old(|calls|)] == old(calls)
      ensures (pipe.State(), calls[old(|calls|)..]) == Consume(old(pipe.State()), r, isAsyncHandler, raises)
      ensures finished <==> r.StopDone() || (old(pipe.data) != [] && raises.Some?)
    {
      ghost var before := pipe.State();
      ghost var made := Consume(before, r, isAsyncHandler, raises).1;
      CallsMatchStep(before, r, calls, isAsyncHandler, raises);
      var batch, dispatched;
      batch, dispatched, finished := pipe.Step(r, raises);
      if dispatched {
        assert made[0] in made;
        calls := calls + [if isAsyncHandler then Awaited(batch) else CalledInline(batch)];
      }
      assert calls == old(calls) + made;
    }
  }
}
