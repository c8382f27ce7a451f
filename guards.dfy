/**
 * src/mini/guards.py: `before` and `after` turn a user callback into a
 * context-manager function whose shape depends on how many parameters the
 * callback takes. Running a guard around a body is modelled as a trace of
 * the callback calls and context-manager entries it makes, plus the outcome
 * (a value, or an exception) that leaves the `with` block.
 */
module Guards {
  import opened Wrappers

  /** An exception: one raised by user code, or a TypeError from a call with the wrong arguments. */
  datatype Exc = Raise(id: nat) | TypeError

  /** A user callback: its identity, its parameter count, and whether calling it raises. */
  datatype Callback = Callback(id: nat, params: nat, raises: Option<Exc>)

  /** The `ExceptionInfo` triple: `(None, None, None)`, or `(type(e), e, e.__traceback__)`. */
  datatype ExcInfo = NoExc | Caught(e: Exc)

  /** The arguments a callback is called with. */
  datatype CallArgs = NoArgs | FnArg | ExcArgs(info: ExcInfo) | FnExcArgs(info: ExcInfo)

  /** What can be seen of a run: callback calls, context managers entered and exited, body steps. */
  datatype Event = Invoked(id: nat, args: CallArgs) | Entered(id: nat) | Exited(id: nat) | Ran(id: nat)

  /** How control leaves a block: returning a value (None when the function falls off its end) or raising. */
  datatype Outcome = Returned(value: Option<int>) | Raised(e: Exc)

  datatype Run = Run(trace: seq<Event>, outcome: Outcome)

  /**
   * A guard context-manager function. The first six are the closures
   * `before` and `after` build (`guard`, `guard_fn`, `guard_exc`,
   * `guard_fn_exc`); UserGuard is one the user wrote, seen only through its
   * parameter count and whether entering it raises.
   */
  datatype GuardCm =
    | BeforeGuard(cb: Callback)
    | BeforeGuardFn(cb: Callback)
    | AfterGuard(cb: Callback)
    | AfterGuardFn(cb: Callback)
    | AfterGuardExc(cb: Callback)
    | AfterGuardFnExc(cb: Callback)
    | UserGuard(id: nat, params: nat, enterRaises: Option<Exc>)

  /** `before(callback)`: `guard()` for a callback without parameters, `guard_fn(fn)` otherwise. */
  function Before(cb: Callback): (g: GuardCm)
    ensures g.BeforeGuard? || g.BeforeGuardFn?
    ensures g.cb == cb && (g.BeforeGuard? <==> cb.params == 0)
  {
    if cb.params == 0 then BeforeGuard(cb) else BeforeGuardFn(cb)
  }

  /** `after(callback)`: the shape for 0, 1 and 3 parameters, and `guard_fn_exc` for any other count. */
  function After(cb: Callback): (g: GuardCm)
    ensures !g.UserGuard? && !g.BeforeGuard? && !g.BeforeGuardFn? && g.cb == cb
    ensures g.AfterGuard? <==> cb.params == 0
    ensures g.AfterGuardFn? <==> cb.params == 1
    ensures g.AfterGuardExc? <==> cb.params == 3
    ensures g.AfterGuardFnExc? <==> cb.params !in {0, 1, 3}
  {
    if cb.params == 0 then AfterGuard(cb)
    else if cb.params == 1 then AfterGuardFn(cb)
    else if cb.params == 3 then AfterGuardExc(cb)
    else AfterGuardFnExc(cb)
  }

  /** How many positional arguments the guard function itself accepts. */
  function AcceptedArgs(g: GuardCm): nat {
    match g
    case BeforeGuard(_) => 0
    case AfterGuard(_) => 0
    case AfterGuardExc(_) => 0
    case BeforeGuardFn(_) => 1
    case AfterGuardFn(_) => 1
    case AfterGuardFnExc(_) => 1
    case UserGuard(_, params, _) => params
  }

  /**
   * The parameter count `inspect.signature` reports for a guard. The
   * closures are decorated with `@wraps(callback)` and `@contextmanager`
   * (which wraps again), and `inspect.signature` follows `__wrapped__`, so
   * for a built guard it reports the callback's own parameters.
   */
  function ReportedParams(g: GuardCm): (n: nat)
    ensures !g.UserGuard? ==> n == g.cb.params
    ensures g.UserGuard? ==> n == g.params
  {
    if g.UserGuard? then g.params else g.cb.params
  }

  /**
   * For every guard `before` and `after` build, except `guard_exc`, the
   * reported count is zero exactly when the guard accepts no arguments.
   */
  lemma ReportedMatchesAccepted(cb: Callback)
    ensures (ReportedParams(Before(cb)) == 0) <==> (AcceptedArgs(Before(cb)) == 0)
    ensures cb.params != 3 ==> ((ReportedParams(After(cb)) == 0) <==> (AcceptedArgs(After(cb)) == 0))
    ensures cb.params == 3 ==> ReportedParams(After(cb)) == 3 && AcceptedArgs(After(cb)) == 0
  {
  }

  function InfoOf(o: Outcome): (info: ExcInfo)
    ensures info.Caught? <==> o.Raised?
    ensures info.Caught? ==> info.e == o.e
  {
    if o.Raised? then Caught(o.e) else NoExc
  }

  /**
   * The generated context manager sees the body's exception and finishes
   * normally, so the `with` block swallows it and the wrapped function
   * falls off its end.
   */
  function Swallow(o: Outcome): (r: Outcome)
    ensures r.Returned?
    ensures o.Returned? ==> r == o
  {
    if o.Raised? then Returned(None) else o
  }

  /** A callback in a `finally`: if it raises, that exception replaces whatever was leaving. */
  function Finally(cb: Callback, o: Outcome): (r: Outcome)
    ensures cb.raises.Some? ==> r == Raised(cb.raises.value)
    ensures cb.raises.None? ==> r == o
  {
    if cb.raises.Some? then Raised(cb.raises.value) else o
  }

  /** `callback(...)` then `yield`: a raising callback keeps the body from running. */
  function RunBefore(cb: Callback, args: CallArgs, inner: Run): Run {
    if cb.raises.Some? then Run([Invoked(cb.id, args)], Raised(cb.raises.value))
    else Run([Invoked(cb.id, args)] + inner.trace, inner.outcome)
  }

  /** `try: yield` then `finally: callback(...)`, with or without the `except BaseException` capture. */
  function RunAfter(cb: Callback, args: CallArgs, swallow: bool, inner: Run): Run {
    Run(inner.trace + [Invoked(cb.id, args)],
        Finally(cb, if swallow then Swallow(inner.outcome) else inner.outcome))
  }

  /** `with g(...): <inner>` once the guard has been constructed with the arguments it accepts. */
  function Enter(g: GuardCm, inner: Run): Run {
    match g
    case BeforeGuard(cb) => RunBefore(cb, NoArgs, inner)
    case BeforeGuardFn(cb) => RunBefore(cb, FnArg, inner)
    case AfterGuard(cb) => RunAfter(cb, NoArgs, false, inner)
    case AfterGuardFn(cb) => RunAfter(cb, FnArg, false, inner)
    case AfterGuardExc(cb) => RunAfter(cb, ExcArgs(InfoOf(inner.outcome)), true, inner)
    case AfterGuardFnExc(cb) => RunAfter(cb, FnExcArgs(InfoOf(inner.outcome)), true, inner)
    case UserGuard(id, _, enterRaises) =>
      if enterRaises.Some? then Run([Entered(id)], Raised(enterRaises.value))
      else Run([Entered(id)] + inner.trace + [Exited(id)], inner.outcome)
  }

  /** `with g(*args): <inner>`: calling the guard with the wrong number of arguments is a TypeError. */
  function EnterWith(g: GuardCm, nargs: nat, inner: Run): (r: Run)
    ensures nargs != AcceptedArgs(g) ==> r == Run([], Raised(TypeError))
    ensures nargs == AcceptedArgs(g) ==> r == Enter(g, inner)
  {
    if nargs != AcceptedArgs(g) then Run([], Raised(TypeError)) else Enter(g, inner)
  }

  /**
   * `before` with a callback without parameters calls `callback()` and then
   * runs the body; with parameters it calls `callback(fn)`; if the callback
   * raises, the body never runs and the callback's exception leaves.
   */
  lemma BeforeRunsCallbackFirst(cb: Callback, inner: Run)
    ensures var args := if cb.params == 0 then NoArgs else FnArg;
      && AcceptedArgs(Before(cb)) == (if cb.params == 0 then 0 else 1)
      && (cb.raises.None? ==> Enter(Before(cb), inner) == Run([Invoked(cb.id, args)] + inner.trace, inner.outcome))
      && (cb.raises.Some? ==> Enter(Before(cb), inner) == Run([Invoked(cb.id, args)], Raised(cb.raises.value)))
  {
  }

  /**
   * `after` with 0 or 1 parameters calls the callback after the body, also
   * when the body raised; the body's exception still leaves unless the
   * callback raises one of its own.
   */
  lemma AfterRunsCallbackInFinally(cb: Callback, inner: Run)
    requires cb.params == 0 || cb.params == 1
    ensures var r := Enter(After(cb), inner);
      && r.trace == inner.trace + [Invoked(cb.id, if cb.params == 0 then NoArgs else FnArg)]
      && r.outcome == (if cb.raises.Some? then Raised(cb.raises.value) else inner.outcome)
  {
  }

  /**
   * `after` with 3 parameters calls `callback(type, exc, tb)`, with any
   * other count but 0 and 1 `callback(fn, type, exc, tb)`; the triple is
   * the body's exception or all None, and the body's exception is
   * swallowed: the block returns None unless the callback raises.
   */
  lemma AfterCapturesException(cb: Callback, inner: Run)
    requires cb.params != 0 && cb.params != 1
    ensures var r := Enter(After(cb), inner);
      var info := InfoOf(inner.outcome);
      && r.trace == inner.trace + [Invoked(cb.id, if cb.params == 3 then ExcArgs(info) else FnExcArgs(info))]
      && (cb.raises.Some? ==> r.outcome == Raised(cb.raises.value))
      && (cb.raises.None? && inner.outcome.Raised? ==> r.outcome == Returned(None))
      && (cb.raises.None? && inner.outcome.Returned? ==> r.outcome == inner.outcome)
  {
  }
}
