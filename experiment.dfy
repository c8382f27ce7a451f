/**
 * src/mini/experiment.py: guard registration on an `Experiment`, `thither`'s
 * resolution of the function options, and the nesting of guards around a
 * remote function's body by `remote` and `_wrap_with_guard`.
 *
 * The experiment's guard list is an object of its own (class GuardList):
 * `thither` captures that object, not a copy, so a guard registered after
 * decoration still applies when the function is called.
 */
module Experiment {
  import opened Wrappers
  import opened Guards

  /** A Python list of guards: shared by reference and appended in place. */
  class GuardList {
    var items: seq<GuardCm>

    constructor (items: seq<GuardCm>)
      ensures this.items == items
    {
      this.items := items;
    }

    method Append(g: GuardCm)
      modifies this
      ensures items == old(items) + [g]
    {
      items := items + [g];
    }
  }

  /** The decorators `guard(placement=...)` hands back: `self.guard`, `_guard_before`, `_guard_after`. */
  datatype Registrar = WrapRegistrar | BeforeRegistrar | AfterRegistrar

  /** What `guard(...)` returns: the guard it registered, or a registrar. */
  datatype Registered = GuardRegistered(guard: GuardCm) | RegistrarReturned(registrar: Registrar)

  /** `guard(placement=...)` without a guard: the matching registrar, or a ValueError. */
  function Placement(placement: string): (r: Result<Registrar, string>)
    ensures r == Ok(WrapRegistrar) <==> placement == "wrap"
    ensures r == Ok(BeforeRegistrar) <==> placement == "before"
    ensures r == Ok(AfterRegistrar) <==> placement == "after"
    ensures r.Err? ==> r.error == "Invalid placement: " + placement
  {
    if placement == "wrap" then Ok(WrapRegistrar)
    else if placement == "before" then Ok(BeforeRegistrar)
    else if placement == "after" then Ok(AfterRegistrar)
    else Err("Invalid placement: " + placement)
  }

  /** Mount paths to volumes, each volume identified by a number. */
  type Volumes = map<string, nat>

  /**
   * The keyword arguments `thither` passes to `modal.App.function`, as far
   * as it looks at them. `image`: None when the key is absent, Some(None)
   * when it is given as None. `volumes`: None when absent or None.
   */
  datatype FunctionKwargs = FunctionKwargs(image: Option<Option<nat>>, volumes: Option<Volumes>, rest: map<string, nat>)

  /** `{**defaults, **overrides}`. */
  function MergeVolumes(defaults: Volumes, overrides: Volumes): (m: Volumes)
    ensures forall k :: k in m <==> k in defaults || k in overrides
    ensures forall k :: k in overrides ==> m[k] == overrides[k]
    ensures forall k :: k in defaults && k !in overrides ==> m[k] == defaults[k]
  {
    defaults + overrides
  }

  /**
   * What `decorator` does to the captured kwargs: `image` is set to the
   * experiment's image only when the key is absent, and `volumes` becomes
   * the experiment's volumes overridden by the function's own.
   */
  function ResolveKwargs(kw: FunctionKwargs, image: Option<nat>, volumes: Volumes): (r: FunctionKwargs)
    ensures r.image == (if kw.image.None? then Some(image) else kw.image)
    ensures r.volumes.Some? && r.rest == kw.rest
    ensures r.volumes.value == MergeVolumes(volumes, if kw.volumes.Some? then kw.volumes.value else map[])
  {
    var own := if kw.volumes.Some? then kw.volumes.value else map[];
    FunctionKwargs(if kw.image.None? then Some(image) else kw.image, Some(volumes + own), kw.rest)
  }

  /**
   * The decorator returned by `thither(**kwargs)` mutates the one kwargs
   * dict it closes over, so decorating a second function keeps the image
   * chosen the first time, and merging the same volumes again changes
   * nothing.
   */
  lemma {:induction false} ResolveKwargsTwice(kw: FunctionKwargs, image1: Option<nat>, image2: Option<nat>, volumes: Volumes)
    ensures ResolveKwargs(ResolveKwargs(kw, image1, volumes), image2, volumes) == ResolveKwargs(kw, image1, volumes)
  {
    var once := ResolveKwargs(kw, image1, volumes);
    var twice := ResolveKwargs(once, image2, volumes);
    var own := if kw.volumes.Some? then kw.volumes.value else map[];
    assert once.volumes.value == volumes + own;
    assert twice.volumes.value == volumes + (volumes + own);
    assert volumes + (volumes + own) == volumes + own;
  }

  /**
   * `_wrap_with_guard` as written: `guard()` when `inspect.signature(guard)`
   * reports no parameters, `guard(original_fn)` otherwise.
   */
  function CtorArgsAsWritten(g: GuardCm): nat {
    if ReportedParams(g) == 0 then 0 else 1
  }

  /**
   * The guard built by `after` for a three-parameter callback, `guard_exc()`,
   * takes no arguments, but the signature seen through `__wrapped__` is the
   * callback's, so it is called with `original_fn` and every call of the
   * guarded function raises TypeError before its body runs.
   */
  lemma AfterExcGuardFailsAsWritten(cb: Callback, body: Run)
    requires cb.params == 3
    ensures EnterWith(After(cb), CtorArgsAsWritten(After(cb)), body) == Run([], Raised(TypeError))
  {
    ReportedMatchesAccepted(cb);
  }

  /**
   * `_wrap_with_guard` as intended: `original_fn` is passed exactly when
   * the guard function itself takes a parameter.
   */
  function CtorArgs(g: GuardCm): nat {
    if AcceptedArgs(g) == 0 then 0 else 1
  }

  /**
   * Every guard `before` and `after` build is constructed with exactly the
   * arguments it accepts, so it never fails on construction; the as-written
   * rule agrees with this one except for `guard_exc`.
   */
  lemma CtorArgsFit(cb: Callback, body: Run)
    ensures CtorArgs(Before(cb)) == AcceptedArgs(Before(cb))
    ensures CtorArgs(After(cb)) == AcceptedArgs(After(cb))
    ensures EnterWith(Before(cb), CtorArgs(Before(cb)), body) == Enter(Before(cb), body)
    ensures EnterWith(After(cb), CtorArgs(After(cb)), body) == Enter(After(cb), body)
    ensures CtorArgsAsWritten(Before(cb)) == CtorArgs(Before(cb))
    ensures cb.params != 3 <==> CtorArgsAsWritten(After(cb)) == CtorArgs(After(cb))
  {
    ReportedMatchesAccepted(cb);
  }

  /** For a user's own guard both rules pass `original_fn` exactly when it declares parameters. */
  lemma UserGuardRulesAgree(id: nat, params: nat, enterRaises: Option<Exc>)
    ensures CtorArgsAsWritten(UserGuard(id, params, enterRaises)) == CtorArgs(UserGuard(id, params, enterRaises))
  {
  }

  /** The coroutine `remote` builds: the body, wrapped by one guard after another. */
  datatype Guarded = Fn(body: Run) | Wrapped(guard: GuardCm, inner: Guarded)

  /**
   * Awaiting a guarded function as `_wrap_with_guard` is written: each
   * `wrapped` constructs its guard by the as-written rule and enters it
   * around the next one in.
   */
  function Exec(f: Guarded): Run {
    match f
    case Fn(body) => body
    case Wrapped(g, inner) => EnterWith(g, CtorArgsAsWritten(g), Exec(inner))
  }

  /** Awaiting a guarded function with the guards constructed by the intended rule. */
  function ExecIntended(f: Guarded): Run {
    match f
    case Fn(body) => body
    case Wrapped(g, inner) => EnterWith(g, CtorArgs(g), ExecIntended(inner))
  }

  /** `gs` around `body`, the first guard outermost. */
  function Nest(gs: seq<GuardCm>, body: Run): Guarded {
    if gs == [] then Fn(body) else Wrapped(gs[0], Nest(gs[1..], body))
  }

  lemma NestCons(gs: seq<GuardCm>, body: Run)
    requires gs != []
    ensures Nest(gs, body) == Wrapped(gs[0], Nest(gs[1..], body))
  {
  }

  /** Where the two rules agree on every guard of a list, the guarded function runs the same under both. */
  lemma {:induction false} ExecAsIntended(gs: seq<GuardCm>, body: Run)
    requires forall i :: 0 <= i < |gs| ==> CtorArgsAsWritten(gs[i]) == CtorArgs(gs[i])
    ensures Exec(Nest(gs, body)) == ExecIntended(Nest(gs, body))
  {
    if gs != [] {
      NestCons(gs, body);
      assert forall i :: 0 <= i < |gs| - 1 ==> gs[1..][i] == gs[i + 1];
      ExecAsIntended(gs[1..], body);
    }
  }

  /**
   * On the call path as written, an `after_each` callback taking
   * `(type, exc, tb)` makes every call of a guarded function raise
   * TypeError before the body runs; with the intended rule the guard is
   * entered around the body.
   */
  lemma AfterExcGuardOnCallPath(cb: Callback, body: Run)
    requires cb.params == 3
    ensures Exec(Nest([After(cb)], body)) == Run([], Raised(TypeError))
    ensures ExecIntended(Nest([After(cb)], body)) == Enter(After(cb), body)
  {
    NestCons([After(cb)], body);
    assert [After(cb)][1..] == [];
    AfterExcGuardFailsAsWritten(cb, body);
    CtorArgsFit(cb, body);
  }

  function BeforeAll(cbs: seq<Callback>): (gs: seq<GuardCm>)
    ensures |gs| == |cbs| && forall i :: 0 <= i < |cbs| ==> gs[i] == Before(cbs[i])
  {
    if cbs == [] then [] else [Before(cbs[0])] + BeforeAll(cbs[1..])
  }

  function AfterAll(cbs: seq<Callback>): (gs: seq<GuardCm>)
    ensures |gs| == |cbs| && forall i :: 0 <= i < |cbs| ==> gs[i] == After(cbs[i])
  {
    if cbs == [] then [] else [After(cbs[0])] + AfterAll(cbs[1..])
  }

  /** The arguments `before` and `after` give a callback of 0 or 1 parameters. */
  function PlainArgs(cb: Callback): CallArgs {
    if cb.params == 0 then NoArgs else FnArg
  }

  /** The callbacks' calls in list order. */
  function CallsInOrder(cbs: seq<Callback>): seq<Event> {
    if cbs == [] then [] else [Invoked(cbs[0].id, PlainArgs(cbs[0]))] + CallsInOrder(cbs[1..])
  }

  /** The callbacks' calls in reverse list order. */
  function CallsInReverse(cbs: seq<Callback>): seq<Event> {
    if cbs == [] then [] else CallsInReverse(cbs[1..]) + [Invoked(cbs[0].id, PlainArgs(cbs[0]))]
  }

  /** A before-guard whose callback does not raise records its call, then runs what it wraps. */
  lemma BeforeGuardStep(cb: Callback, inner: Run)
    requires cb.raises.None?
    ensures EnterWith(Before(cb), CtorArgsAsWritten(Before(cb)), inner) == Run([Invoked(cb.id, PlainArgs(cb))] + inner.trace, inner.outcome)
  {
    CtorArgsFit(cb, inner);
  }

  /** Before-guards that do not raise run their callbacks in list order, all before the body. */
  lemma {:induction false} BeforeGuardsRunInOrder(cbs: seq<Callback>, body: Run)
    requires forall i :: 0 <= i < |cbs| ==> cbs[i].raises.None?
    ensures Exec(Nest(BeforeAll(cbs), body)) == Run(CallsInOrder(cbs) + body.trace, body.outcome)
  {
    if cbs != [] {
      var gs := BeforeAll(cbs);
      assert gs[1..] == BeforeAll(cbs[1..]);
      NestCons(gs, body);
      BeforeGuardsRunInOrder(cbs[1..], body);
      BeforeGuardStep(cbs[0], Exec(Nest(gs[1..], body)));
      assert CallsInOrder(cbs) + body.trace
        == [Invoked(cbs[0].id, PlainArgs(cbs[0]))] + (CallsInOrder(cbs[1..]) + body.trace);
    }
  }

  /** After-guards of 0 or 1 parameters that do not raise run their callbacks after the body, innermost first. */
  lemma {:induction false} AfterGuardsRunInReverse(cbs: seq<Callback>, body: Run)
    requires forall i :: 0 <= i < |cbs| ==> cbs[i].raises.None? && cbs[i].params <= 1
    ensures Exec(Nest(AfterAll(cbs), body)) == Run(body.trace + CallsInReverse(cbs), body.outcome)
  {
    if cbs != [] {
      var gs := AfterAll(cbs);
      assert gs[1..] == AfterAll(cbs[1..]);
      AfterGuardsRunInReverse(cbs[1..], body);
      CtorArgsFit(cbs[0], Exec(Nest(gs[1..], body)));
      assert body.trace + CallsInReverse(cbs)
        == (body.trace + CallsInReverse(cbs[1..])) + [Invoked(cbs[0].id, PlainArgs(cbs[0]))];
    }
  }

  /** `remote.remote.aio`: the decorated function, with the guard lists it captured. */
  class Remote {
    const globalGuards: GuardList
    const specificGuards: GuardList
    const fnId: nat
    const kwargs: FunctionKwargs

    constructor (globalGuards: GuardList, specificGuards: GuardList, fnId: nat, kwargs: FunctionKwargs)
      ensures this.globalGuards == globalGuards && this.specificGuards == specificGuards
      ensures this.fnId == fnId && this.kwargs == kwargs
    {
      this.globalGuards := globalGuards;
      this.specificGuards := specificGuards;
      this.fnId := fnId;
      this.kwargs := kwargs;
    }

    /**
     * `remote(*args, **kwargs)`: wraps the body in the specific guards,
     * then the global ones, each list walked in reverse, so that the
     * global guards in registration order come outermost, then the
     * specific ones, then the function.
     */
    method Call(body: Run) returns (r: Run)
      ensures r == Exec(Nest(globalGuards.items + specificGuards.items, body))
    {
      var specific := specificGuards.items;
      var global := globalGuards.items;
      var guarded := Fn(body);
      var i := |specific|;
      while i > 0
        invariant 0 <= i <= |specific|
        invariant guarded == Nest(specific[i..], body)
      {
        i := i - 1;
        NestCons(specific[i..], body);
        assert specific[i..][1..] == specific[i + 1..];
        guarded := Wrapped(specific[i], guarded);
      }
      assert specific[0..] == specific == global[|global|..] + specific;
      var j := |global|;
      while j > 0
        invariant 0 <= j <= |global|
        invariant guarded == Nest(global[j..] + specific, body)
      {
        j := j - 1;
        NestCons(global[j..] + specific, body);
        assert (global[j..] + specific)[1..] == global[j + 1..] + specific;
        guarded := Wrapped(global[j], guarded);
      }
      assert global[0..] == global;
      r := Exec(guarded);
    }
  }

  /** The decorator `thither(guards=..., **kwargs)` returns, with the state it closes over. */
  class Decorator {
    const experiment: Experiment
    const specificGuards: GuardList
    var kwargs: FunctionKwargs

    constructor (experiment: Experiment, specificGuards: GuardList, kwargs: FunctionKwargs)
      ensures this.experiment == experiment && this.specificGuards == specificGuards && this.kwargs == kwargs
    {
      this.experiment := experiment;
      this.specificGuards := specificGuards;
      this.kwargs := kwargs;
    }

    /** `decorator(fn)`: resolves the captured kwargs in place and returns the remote function. */
    method Decorate(fnId: nat) returns (remote: Remote)
      modifies this
      ensures kwargs == ResolveKwargs(old(kwargs), experiment.image, experiment.volumes)
      ensures fresh(remote) && remote.fnId == fnId && remote.kwargs == kwargs
      ensures remote.globalGuards == experiment.guards && remote.specificGuards == specificGuards
    {
      kwargs := ResolveKwargs(kwargs, experiment.image, experiment.volumes);
      remote := new Remote(experiment.guards, specificGuards, fnId, kwargs);
    }
  }

  class Experiment {
    const guards: GuardList
    var volumes: Volumes
    var image: Option<nat>

    constructor ()
      ensures fresh(guards) && guards.items == [] && volumes == map[] && image == None
    {
      guards := new GuardList([]);
      volumes := map[];
      image := None;
    }

    /**
     * `guard(g)` appends `g` and returns it unchanged; `guard(placement=...)`
     * registers nothing and returns the registrar for the placement.
     */
    method Guard(guard: Option<GuardCm>, placement: string) returns (r: Result<Registered, string>)
      modifies guards
      ensures guard.Some? ==> guards.items == old(guards.items) + [guard.value] && r == Ok(GuardRegistered(guard.value))
      ensures guard.None? ==> guards.items == old(guards.items)
      ensures guard.None? ==> (r.Ok? <==> Placement(placement).Ok?)
      ensures guard.None? && r.Ok? ==> r.value == RegistrarReturned(Placement(placement).value)
      ensures guard.None? && r.Err? ==> r.error == "Invalid placement: " + placement
    {
      if guard.Some? {
        guards.Append(guard.value);
        return Ok(GuardRegistered(guard.value));
      }
      var registrar := Placement(placement);
      if registrar.Err? {
        return Err(registrar.error);
      }
      r := Ok(RegistrarReturned(registrar.value));
    }

    /** `_guard_before(callback)`: registers and returns `before(callback)`. */
    method GuardBefore(cb: Callback) returns (g: GuardCm)
      modifies guards
      ensures g == Before(cb) && guards.items == old(guards.items) + [g]
    {
      g := Before(cb);
      guards.Append(g);
    }

    /** `_guard_after(callback)`: registers and returns `after(callback)`. */
    method GuardAfter(cb: Callback) returns (g: GuardCm)
      modifies guards
      ensures g == After(cb) && guards.items == old(guards.items) + [g]
    {
      g := After(cb);
      guards.Append(g);
    }

    /** `before_each(callback)`: registers `before(callback)` but returns the callback itself. */
    method BeforeEach(cb: Callback) returns (r: Callback)
      modifies guards
      ensures r == cb && guards.items == old(guards.items) + [Before(cb)]
    {
      var _ := GuardBefore(cb);
      r := cb;
    }

    /** `after_each(callback)`: registers `after(callback)` but returns the callback itself. */
    method AfterEach(cb: Callback) returns (r: Callback)
      modifies guards
      ensures r == cb && guards.items == old(guards.items) + [After(cb)]
    {
      var _ := GuardAfter(cb);
      r := cb;
    }

    /**
     * `thither(guards=specific, **kwargs)`: captures the experiment's own
     * guard list and `specific or []`, an empty or missing list being
     * replaced by a fresh one.
     */
    method Thither(specific: GuardList?, kwargs: FunctionKwargs) returns (d: Decorator)
      ensures fresh(d) && d.experiment == this && d.kwargs == kwargs
      ensures specific != null && specific.items != [] ==> d.specificGuards == specific
      ensures !(specific != null && specific.items != []) ==> fresh(d.specificGuards) && d.specificGuards.items == []
    {
      var chosen: GuardList;
      if specific != null && specific.items != [] {
        chosen := specific;
      } else {
        chosen := new GuardList([]);
      }
      d := new Decorator(this, chosen, kwargs);
    }
  }

  /**
   * The global list is captured by reference: a guard registered after the
   * function was decorated is still entered when it is called.
   */
  method GuardRegisteredAfterDecorationApplies(g: GuardCm, body: Run) returns (r: Run)
    ensures r == EnterWith(g, CtorArgsAsWritten(g), body)
  {
    var e := new Experiment();
    var d := e.Thither(null, FunctionKwargs(None, None, map[]));
    var remote := d.Decorate(0);
    var _ := e.Guard(Some(g), "wrap");
    r := remote.Call(body);
    assert remote.globalGuards.items + remote.specificGuards.items == [g];
  }

  /**
   * `after_each` with a callback taking `(type, exc, tb)`, registered on
   * the experiment, makes a call of a function it decorated raise
   * TypeError, and the body never runs.
   */
  method AfterEachExcCallRaises(cb: Callback, body: Run) returns (r: Run)
    requires cb.params == 3
    ensures r == Run([], Raised(TypeError))
  {
    var e := new Experiment();
    var d := e.Thither(null, FunctionKwargs(None, None, map[]));
    var remote := d.Decorate(0);
    var _ := e.AfterEach(cb);
    r := remote.Call(body);
    assert remote.globalGuards.items + remote.specificGuards.items == [After(cb)];
    AfterExcGuardOnCallPath(cb, body);
  }
}
