/**
 * src/mini/hither.py: `run_hither` picks one of eight async context
 * managers from the `batch` flag and the callback's mode; each opens a
 * local pipe (`send_batch_to`, from mini.local_dispatch, which is not part
 * of this model) around the block and hands the block a sender. The
 * non-batch variants adapt both ends: `_batches_of_one` turns each call
 * into a one-element list, `_unbatch` calls the callback once per record.
 */
module Hither {
  import opened Wrappers
  import BatchPipe

  /** What `run_hither` can see of its callback: the `__aenter__`/`__aexit__` attributes, and whether it is an async generator function. */
  datatype Target = Target(id: nat, hasAenter: bool, hasAexit: bool, isAsyncGenFunction: bool)

  datatype Mode = CallbackMode | FactoryMode | CmMode | CmFactoryMode

  function ModeName(m: Mode): string {
    match m
    case CallbackMode => "callback"
    case FactoryMode => "factory"
    case CmMode => "cm"
    case CmFactoryMode => "cm_factory"
  }

  function ParseMode(name: string): (m: Option<Mode>)
    ensures m.Some? ==> ModeName(m.value) == name
    ensures m.None? ==> forall k: Mode :: ModeName(k) != name
  {
    if name == "callback" then Some(CallbackMode)
    else if name == "factory" then Some(FactoryMode)
    else if name == "cm" then Some(CmMode)
    else if name == "cm_factory" then Some(CmFactoryMode)
    else None
  }

  /**
   * `mode=None`: both context-manager methods make it 'cm', else an async
   * generator function (an `@asynccontextmanager` factory) makes it
   * 'cm_factory', else 'callback'. 'factory' is never detected.
   */
  function DetectMode(t: Target): (m: Mode)
    ensures m != FactoryMode
    ensures m == CmMode <==> t.hasAenter && t.hasAexit
    ensures m == CmFactoryMode <==> !(t.hasAenter && t.hasAexit) && t.isAsyncGenFunction
  {
    if t.hasAenter && t.hasAexit then CmMode
    else if t.isAsyncGenFunction then CmFactoryMode
    else CallbackMode
  }

  /** The eight `_run_hither*` context managers. */
  datatype Variant =
    | RunHither | RunHitherFactory | RunHitherCm | RunHitherCmFactory
    | RunHitherBatch | RunHitherBatchFactory | RunHitherBatchCm | RunHitherBatchCmFactory

  function IsBatch(v: Variant): bool {
    v.RunHitherBatch? || v.RunHitherBatchFactory? || v.RunHitherBatchCm? || v.RunHitherBatchCmFactory?
  }

  function VariantMode(v: Variant): Mode {
    match v
    case RunHither => CallbackMode
    case RunHitherBatch => CallbackMode
    case RunHitherFactory => FactoryMode
    case RunHitherBatchFactory => FactoryMode
    case RunHitherCm => CmMode
    case RunHitherBatchCm => CmMode
    case RunHitherCmFactory => CmFactoryMode
    case RunHitherBatchCmFactory => CmFactoryMode
  }

  /**
   * `run_hither(callback, batch=..., mode=...)`: resolves the mode, then
   * dispatches on `batch` and the mode's name; an unknown name is a
   * ValueError, in either branch.
   */
  function RunHitherDispatch(target: Target, batch: bool, mode: Option<string>): (r: Result<Variant, string>)
    ensures mode.None? ==> r.Ok? && VariantMode(r.value) == DetectMode(target)
    ensures mode.Some? ==> (r.Ok? <==> ParseMode(mode.value).Some?)
    ensures mode.Some? && r.Ok? ==> VariantMode(r.value) == ParseMode(mode.value).value
    ensures mode.Some? && r.Err? ==> r.error == "Invalid mode: " + mode.value
    ensures r.Ok? ==> IsBatch(r.value) == batch
  {
    var name := if mode.None? then ModeName(DetectMode(target)) else mode.value;
    if batch then
      if name == "callback" then Ok(RunHitherBatch)
      else if name == "factory" then Ok(RunHitherBatchFactory)
      else if name == "cm" then Ok(RunHitherBatchCm)
      else if name == "cm_factory" then Ok(RunHitherBatchCmFactory)
      else Err("Invalid mode: " + name)
    else
      if name == "callback" then Ok(RunHither)
      else if name == "factory" then Ok(RunHitherFactory)
      else if name == "cm" then Ok(RunHitherCm)
      else if name == "cm_factory" then Ok(RunHitherCmFactory)
      else Err("Invalid mode: " + name)
  }

  /** Each variant is reached by exactly one valid `(batch, mode)` pair, and no value of `mode` picks any other. */
  lemma {:induction false} EachVariantHasOnePair(t: Target, v: Variant, batch: bool, mode: string)
    ensures RunHitherDispatch(t, IsBatch(v), Some(ModeName(VariantMode(v)))) == Ok(v)
    ensures RunHitherDispatch(t, batch, Some(mode)) == Ok(v) ==> batch == IsBatch(v) && mode == ModeName(VariantMode(v))
  {
    if RunHitherDispatch(t, batch, Some(mode)) == Ok(v) {
      assert ParseMode(mode).Some?;
    }
  }

  /** An argument record: `Params(args, kwargs)`. */
  datatype Params = Params(args: seq<int>, kwargs: map<string, int>)

  /** The handler the local pipe gets: `_unbatch(callback)`, or the batch callback itself. */
  datatype PipeHandler = UnbatchedCallback | BatchCallback

  /** What can be seen of a variant's life around the `async with` block. */
  datatype Step = FactoryCalled | CmEntered | CmExited | PipeOpened(handler: PipeHandler) | PipeClosed | BlockStep(id: nat)

  /**
   * The life of each variant as its code composes the others: the factory
   * variants call the factory and continue as the variant for what it
   * returned; the cm variants enter the context, open the pipe around the
   * block, and exit the context after the pipe has closed.
   */
  function Lifecycle(v: Variant, block: seq<Step>): seq<Step>
    decreases Nesting(v)
  {
    match v
    case RunHither => [PipeOpened(UnbatchedCallback)] + block + [PipeClosed]
    case RunHitherBatch => [PipeOpened(BatchCallback)] + block + [PipeClosed]
    case RunHitherFactory => [FactoryCalled] + Lifecycle(RunHither, block)
    case RunHitherBatchFactory => [FactoryCalled] + Lifecycle(RunHitherBatch, block)
    case RunHitherCm => [CmEntered] + Lifecycle(RunHither, block) + [CmExited]
    case RunHitherBatchCm => [CmEntered] + Lifecycle(RunHitherBatch, block) + [CmExited]
    case RunHitherCmFactory => [FactoryCalled] + Lifecycle(RunHitherCm, block)
    case RunHitherBatchCmFactory => [FactoryCalled] + ([CmEntered] + Lifecycle(RunHitherBatch, block) + [CmExited])
  }

  /** How many other variants a variant's code goes through. */
  function Nesting(v: Variant): nat {
    match v
    case RunHither => 0
    case RunHitherBatch => 0
    case RunHitherCmFactory => 2
    case _ => 1
  }

  function Opening(v: Variant): seq<Step> {
    (if VariantMode(v) in {FactoryMode, CmFactoryMode} then [FactoryCalled] else [])
    + (if VariantMode(v) in {CmMode, CmFactoryMode} then [CmEntered] else [])
    + [PipeOpened(if IsBatch(v) then BatchCallback else UnbatchedCallback)]
  }

  function Closing(v: Variant): seq<Step> {
    [PipeClosed] + (if VariantMode(v) in {CmMode, CmFactoryMode} then [CmExited] else [])
  }

  /** One layer around a run that already has one layer: the layers can be regrouped. */
  lemma TwoLayers(a: Step, b: Step, block: seq<Step>, c: seq<Step>, d: seq<Step>)
    ensures [a] + ([b] + block + c) + d == [a, b] + block + (c + d)
  {
    assert [a] + [b] == [a, b];
  }

  /** Two layers around a run that already has one layer. */
  lemma ThreeLayers(f: Step, a: Step, b: Step, block: seq<Step>, c: seq<Step>, d: seq<Step>)
    ensures [f] + ([a] + ([b] + block + c) + d) == [f, a, b] + block + (c + d)
  {
    TwoLayers(a, b, block, c, d);
    assert [f] + [a, b] == [f, a, b];
  }

  /**
   * Every variant runs the block inside: the factory is called first when
   * there is one, the callback's context is entered before the sender is
   * yielded and exited after the block and the pipe, and non-batch
   * variants hand the pipe the unbatching handler.
   */
  lemma LifecycleShape(v: Variant, block: seq<Step>)
    ensures Lifecycle(v, block) == Opening(v) + block + Closing(v)
  {
    var u := PipeOpened(UnbatchedCallback);
    var b := PipeOpened(BatchCallback);
    match v
    case RunHither =>
      assert Opening(v) == [u] && Closing(v) == [PipeClosed];
    case RunHitherBatch =>
      assert Opening(v) == [b] && Closing(v) == [PipeClosed];
    case RunHitherFactory =>
      assert Opening(v) == [FactoryCalled, u] && Closing(v) == [PipeClosed];
      TwoLayers(FactoryCalled, u, block, [PipeClosed], []);
    case RunHitherBatchFactory =>
      assert Opening(v) == [FactoryCalled, b] && Closing(v) == [PipeClosed];
      TwoLayers(FactoryCalled, b, block, [PipeClosed], []);
    case RunHitherCm =>
      assert Opening(v) == [CmEntered, u] && Closing(v) == [PipeClosed, CmExited];
      TwoLayers(CmEntered, u, block, [PipeClosed], [CmExited]);
    case RunHitherBatchCm =>
      assert Opening(v) == [CmEntered, b] && Closing(v) == [PipeClosed, CmExited];
      TwoLayers(CmEntered, b, block, [PipeClosed], [CmExited]);
    case RunHitherCmFactory =>
      assert Opening(v) == [FactoryCalled, CmEntered, u] && Closing(v) == [PipeClosed, CmExited];
      assert Lifecycle(RunHitherCm, block) == [CmEntered] + ([u] + block + [PipeClosed]) + [CmExited];
      ThreeLayers(FactoryCalled, CmEntered, u, block, [PipeClosed], [CmExited]);
    case RunHitherBatchCmFactory =>
      assert Opening(v) == [FactoryCalled, CmEntered, b] && Closing(v) == [PipeClosed, CmExited];
      ThreeLayers(FactoryCalled, CmEntered, b, block, [PipeClosed], [CmExited]);
  }

  /** How many times `x` occurs in `s`. */
  function Occurrences(s: seq<Step>, x: Step): nat {
    if s == [] then 0 else (if s[0] == x then 1 else 0) + Occurrences(s[1..], x)
  }

  lemma {:induction false} OccurrencesAppend(a: seq<Step>, b: seq<Step>, x: Step)
    ensures Occurrences(a + b, x) == Occurrences(a, x) + Occurrences(b, x)
  {
    if a != [] {
      assert (a + b)[1..] == a[1..] + b;
      OccurrencesAppend(a[1..], b, x);
    } else {
      assert a + b == b;
    }
  }

  lemma {:induction false} OccurrencesAbsent(s: seq<Step>, x: Step)
    requires x !in s
    ensures Occurrences(s, x) == 0
  {
    if s != [] {
      OccurrencesAbsent(s[1..], x);
    }
  }

  lemma OccurrencesSingle(a: Step, x: Step)
    ensures Occurrences([a], x) == if a == x then 1 else 0
  {
    assert [a][1..] == [];
  }

  /** Each layer of a variant contributes its own step once. */
  lemma LayerOccurrences(v: Variant, x: Step)
    ensures var m := VariantMode(v);
      var p := PipeOpened(if IsBatch(v) then BatchCallback else UnbatchedCallback);
      && Occurrences(Opening(v), x) ==
           (if m in {FactoryMode, CmFactoryMode} && x == FactoryCalled then 1 else 0)
           + (if m in {CmMode, CmFactoryMode} && x == CmEntered then 1 else 0)
           + (if x == p then 1 else 0)
      && Occurrences(Closing(v), x) ==
           (if x == PipeClosed then 1 else 0) + (if m in {CmMode, CmFactoryMode} && x == CmExited then 1 else 0)
  {
    var m := VariantMode(v);
    var p := PipeOpened(if IsBatch(v) then BatchCallback else UnbatchedCallback);
    var fs: seq<Step> := if m in {FactoryMode, CmFactoryMode} then [FactoryCalled] else [];
    var cs: seq<Step> := if m in {CmMode, CmFactoryMode} then [CmEntered] else [];
    var xs: seq<Step> := if m in {CmMode, CmFactoryMode} then [CmExited] else [];
    assert Opening(v) == fs + cs + [p];
    assert Closing(v) == [PipeClosed] + xs;
    OccurrencesAppend(fs + cs, [p], x);
    OccurrencesAppend(fs, cs, x);
    OccurrencesAppend([PipeClosed], xs, x);
    OccurrencesSingle(FactoryCalled, x);
    OccurrencesSingle(CmEntered, x);
    OccurrencesSingle(CmExited, x);
    OccurrencesSingle(p, x);
    OccurrencesSingle(PipeClosed, x);
  }

  /** A step of the block does not change how often the layers' steps occur. */
  lemma OccurrencesAround(v: Variant, block: seq<Step>, x: Step)
    requires x !in block
    ensures Occurrences(Lifecycle(v, block), x) == Occurrences(Opening(v), x) + Occurrences(Closing(v), x)
  {
    LifecycleShape(v, block);
    OccurrencesAppend(Opening(v) + block, Closing(v), x);
    OccurrencesAppend(Opening(v), block, x);
    OccurrencesAbsent(block, x);
  }

  /** A factory is called exactly once, the other variants call none. */
  lemma FactoryCalledOnce(v: Variant, block: seq<Step>)
    requires FactoryCalled !in block
    ensures Occurrences(Lifecycle(v, block), FactoryCalled) == (if VariantMode(v) in {FactoryMode, CmFactoryMode} then 1 else 0)
  {
    OccurrencesAround(v, block, FactoryCalled);
    LayerOccurrences(v, FactoryCalled);
  }

  /** The context of a cm variant is entered exactly once and exited exactly once. */
  lemma CmEnteredAndExitedOnce(v: Variant, block: seq<Step>)
    requires CmEntered !in block && CmExited !in block
    ensures var n := if VariantMode(v) in {CmMode, CmFactoryMode} then 1 else 0;
      Occurrences(Lifecycle(v, block), CmEntered) == n && Occurrences(Lifecycle(v, block), CmExited) == n
  {
    OccurrencesAround(v, block, CmEntered);
    OccurrencesAround(v, block, CmExited);
    LayerOccurrences(v, CmEntered);
    LayerOccurrences(v, CmExited);
  }

  /** `_batches_of_one(send_batch)(*args, **kwargs)`: the list handed to `send_batch`. */
  function BatchOfOne(args: seq<int>, kwargs: map<string, int>): seq<Params> {
    [Params(args, kwargs)]
  }

  /** The lists a block's sender calls hand to `send_batch`, one per call. */
  function SentBatches(calls: seq<Params>): (batches: seq<seq<Params>>)
    ensures |batches| == |calls|
    ensures forall i :: 0 <= i < |calls| ==> batches[i] == BatchOfOne(calls[i].args, calls[i].kwargs)
  {
    if calls == [] then [] else SentBatches(calls[..|calls| - 1]) + [BatchOfOne(calls[|calls| - 1].args, calls[|calls| - 1].kwargs)]
  }

  /** One call, one one-element list: concatenated, the lists give back the calls in order. */
  lemma {:induction false} BatchesOfOneKeepCalls(calls: seq<Params>)
    ensures BatchPipe.Flatten(SentBatches(calls)) == calls
  {
    if calls != [] {
      var init := calls[..|calls| - 1];
      BatchesOfOneKeepCalls(init);
      assert SentBatches(calls)[..|calls| - 1] == SentBatches(init);
      assert calls == init + [calls[|calls| - 1]];
    }
  }

  /**
   * The calls `_unbatch(callback)(calls)` makes, in list order, when the
   * call on each record in `fails` raises: the records up to the first
   * failing one, and whether one failed.
   */
  function Invocations(calls: seq<Params>, fails: set<Params>): (seq<Params>, bool) {
    if calls == [] then ([], false)
    else if calls[0] in fails then ([calls[0]], true)
    else
      var rest := Invocations(calls[1..], fails);
      ([calls[0]] + rest.0, rest.1)
  }

  /**
   * The callback is called on a prefix of the records; it raised exactly
   * when some record is failing, and then the last call made was the first
   * failing record; otherwise every record was passed, in order.
   */
  lemma {:induction false} InvocationsMeaning(calls: seq<Params>, fails: set<Params>)
    ensures var r := Invocations(calls, fails);
      && r.0 <= calls
      && (r.1 <==> exists i :: 0 <= i < |calls| && calls[i] in fails)
      && (!r.1 ==> r.0 == calls)
      && (r.1 ==> |r.0| > 0 && r.0[|r.0| - 1] in fails)
      && (forall i :: 0 <= i < |r.0| - 1 ==> r.0[i] !in fails)
  {
    if calls != [] && calls[0] !in fails {
      InvocationsMeaning(calls[1..], fails);
      assert forall i :: 1 <= i < |calls| ==> calls[i] == calls[1..][i - 1];
    }
  }

  lemma InvocationsStep(calls: seq<Params>, fails: set<Params>)
    requires calls != []
    ensures calls[0] in fails ==> Invocations(calls, fails) == ([calls[0]], true)
    ensures calls[0] !in fails ==> Invocations(calls, fails).0 == [calls[0]] + Invocations(calls[1..], fails).0
    ensures calls[0] !in fails ==> Invocations(calls, fails).1 == Invocations(calls[1..], fails).1
  {
  }

  /** `_unbatch(fn)(calls)`: awaits `fn(*call.args, **call.kwargs)` for each record in turn. */
  method Unbatch(calls: seq<Params>, fails: set<Params>) returns (invoked: seq<Params>, raised: bool)
    ensures (invoked, raised) == Invocations(calls, fails)
  {
    invoked, raised := [], false;
    var i := 0;
    assert calls[0..] == calls;
    while i < |calls|
      invariant 0 <= i <= |calls| && invoked == calls[..i]
      invariant Invocations(calls, fails).0 == invoked + Invocations(calls[i..], fails).0
      invariant Invocations(calls, fails).1 == Invocations(calls[i..], fails).1
    {
      InvocationsStep(calls[i..], fails);
      assert calls[i..][0] == calls[i] && calls[i..][1..] == calls[i + 1..];
      assert calls[..i + 1] == invoked + [calls[i]];
      if calls[i] in fails {
        invoked, raised := invoked + [calls[i]], true;
        return;
      }
      invoked := invoked + [calls[i]];
      i := i + 1;
    }
    assert invoked + [] == invoked;
  }

  /**
   * `(_unbatch(fn)(a + b))`: the records of `a` first; those of `b` only
   * when no record of `a` raised.
   */
  lemma {:induction false} InvocationsAppend(a: seq<Params>, b: seq<Params>, fails: set<Params>)
    ensures var ra, rb := Invocations(a, fails), Invocations(b, fails);
      Invocations(a + b, fails) == if ra.1 then ra else (ra.0 + rb.0, rb.1)
  {
    if a == [] {
      assert a + b == b && [] + Invocations(b, fails).0 == Invocations(b, fails).0;
    } else {
      assert (a + b)[0] == a[0] && (a + b)[1..] == a[1..] + b;
      InvocationsAppend(a[1..], b, fails);
      if a[0] !in fails {
        var r1 := Invocations(a[1..], fails);
        if !r1.1 {
          assert [a[0]] + (r1.0 + Invocations(b, fails).0) == ([a[0]] + r1.0) + Invocations(b, fails).0;
        }
      }
    }
  }

  /**
   * The calls the callback sees when `send_batch_to` hands the lists
   * `deliveries` to `_unbatch(callback)` one after another, none after a
   * list whose handling raised.
   */
  function Deliveries(deliveries: seq<seq<Params>>, fails: set<Params>): (seq<Params>, bool) {
    if deliveries == [] then ([], false)
    else
      var earlier := Deliveries(deliveries[..|deliveries| - 1], fails);
      if earlier.1 then earlier
      else
        var last := Invocations(deliveries[|deliveries| - 1], fails);
        (earlier.0 + last.0, last.1)
  }

  /** How the records are grouped into lists does not change the calls made. */
  lemma {:induction false} DeliveriesIgnoreGrouping(deliveries: seq<seq<Params>>, fails: set<Params>)
    ensures Deliveries(deliveries, fails) == Invocations(BatchPipe.Flatten(deliveries), fails)
  {
    if deliveries != [] {
      var init := deliveries[..|deliveries| - 1];
      DeliveriesIgnoreGrouping(init, fails);
      InvocationsAppend(BatchPipe.Flatten(init), deliveries[|deliveries| - 1], fails);
    }
  }

  /**
   * Non-batch variants: whatever grouping the pipe delivers, as long as it
   * hands on the sent records in order, the callback is called on a prefix
   * of the sent calls, one call per record in send order, stopping right
   * after the first call that raises; once every sent record is delivered
   * and none raises, it was called on each sent call exactly once.
   */
  lemma {:induction false} CallsArriveOneByOne(calls: seq<Params>, deliveries: seq<seq<Params>>, fails: set<Params>)
    requires BatchPipe.Flatten(deliveries) <= BatchPipe.Flatten(SentBatches(calls))
    ensures var r, handed := Deliveries(deliveries, fails), BatchPipe.Flatten(deliveries);
      && r.0 <= handed <= calls
      && (r.1 <==> exists i :: 0 <= i < |handed| && handed[i] in fails)
      && (!r.1 ==> r.0 == handed)
      && (r.1 ==> |r.0| > 0 && r.0[|r.0| - 1] in fails)
      && (forall i :: 0 <= i < |r.0| - 1 ==> r.0[i] !in fails)
    ensures BatchPipe.Flatten(deliveries) == BatchPipe.Flatten(SentBatches(calls))
      && (forall i :: 0 <= i < |calls| ==> calls[i] !in fails)
      ==> Deliveries(deliveries, fails) == (calls, false)
  {
    BatchesOfOneKeepCalls(calls);
    DeliveriesIgnoreGrouping(deliveries, fails);
    InvocationsMeaning(BatchPipe.Flatten(deliveries), fails);
  }
}
