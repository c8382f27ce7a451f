/**
 * src/mini/_state.py: the states a remotely executing call goes through,
 * their URN form, and the tracker that checks each reported state against
 * the allowed transitions.
 *
 * URNs are handled at the level of their colon-separated parts: what
 * `parse_urn` returns and `to_urn` is given. The splitting and joining
 * themselves live in mini.urns, which is not part of this model.
 */
module CallState {
  import opened Wrappers

  datatype FunctionState = Guard | Start | Error | End

  function StateName(s: FunctionState): string {
    match s
    case Guard => "guard"
    case Start => "start"
    case Error => "error"
    case End => "end"
  }

  /** Reads a state name; None for any other string. */
  function ParseState(name: string): (r: Option<FunctionState>)
    ensures r.Some? ==> StateName(r.value) == name
    ensures r.None? ==> name !in {"guard", "start", "error", "end"}
  {
    if name == "guard" then Some(Guard)
    else if name == "start" then Some(Start)
    else if name == "error" then Some(Error)
    else if name == "end" then Some(End)
    else None
  }

  lemma ParseStateName(s: FunctionState)
    ensures ParseState(StateName(s)) == Some(s)
  {
  }

  /**
   * The `CallState` dataclass. `state` is a string because the dataclass
   * does not check it: `handle` has its own branch for unknown states.
   */
  datatype CallState = CallState(
    runId: string,
    fnName: string,
    fnId: string,
    callId: string,
    state: string,
    exception: Option<string>)

  /** The parts `to_urn` joins: nine of them, never the exception. */
  function ToUrnParts(c: CallState): (parts: seq<string>)
    ensures |parts| == 9 && parts[8] == c.state
  {
    ["mini", "run", c.runId, "fn", c.fnName, c.fnId, "call", c.callId, c.state]
  }

  datatype UrnError = InvalidCallStateFormat(parts: seq<string>)

  /** The fixed parts of the shape `mini:run:*:fn:*:*:call:*:...`. */
  predicate HasCallShape(parts: seq<string>)
    requires |parts| >= 9
  {
    parts[0] == "mini" && parts[1] == "run" && parts[3] == "fn" && parts[6] == "call"
  }

  /**
   * `CallState.from_urn` after `parse_urn`: nine parts ending in
   * guard/start/end, or ten parts whose ninth is error and whose tenth is
   * the exception; any other shape is a ValueError.
   */
  function FromUrn(parts: seq<string>): (r: Result<CallState, UrnError>)
    ensures r.Ok? <==>
      || (|parts| == 9 && HasCallShape(parts) && parts[8] in {"guard", "start", "end"})
      || (|parts| == 10 && HasCallShape(parts) && parts[8] == "error")
    ensures r.Ok? ==> (r.value.exception.Some? <==> |parts| == 10)
    ensures r.Ok? ==> ToUrnParts(r.value) == parts[..9]
    ensures r.Ok? && |parts| == 10 ==> r.value.exception == Some(parts[9])
  {
    if |parts| == 9 && HasCallShape(parts) && parts[8] in {"guard", "start", "end"} then
      Ok(CallState(parts[2], parts[4], parts[5], parts[7], parts[8], None))
    else if |parts| == 10 && HasCallShape(parts) && parts[8] == "error" then
      Ok(CallState(parts[2], parts[4], parts[5], parts[7], parts[8], Some(parts[9])))
    else
      Err(InvalidCallStateFormat(parts))
  }

  /** Non-error states without an exception survive `to_urn` then `from_urn`. */
  lemma UrnRoundTrip(c: CallState)
    requires c.state in {"guard", "start", "end"} && c.exception.None?
    ensures FromUrn(ToUrnParts(c)) == Ok(c)
  {
  }

  /** An error state does not: its URN has nine parts, and nine-part error URNs are rejected. */
  lemma ErrorUrnDoesNotRoundTrip(c: CallState)
    requires c.state == "error"
    ensures FromUrn(ToUrnParts(c)).Err?
  {
  }

  /** The states a call may be in before entering `s`, None for a call never seen. */
  function AllowedFrom(s: FunctionState): set<Option<FunctionState>> {
    match s
    case Guard => {None}
    case Start => {Some(Guard)}
    case Error => {Some(Guard), Some(Start)}
    case End => {Some(Start), Some(Error)}
  }

  lemma EndIsTerminal(s: FunctionState)
    ensures Some(End) !in AllowedFrom(s)
  {
  }

  lemma GuardOnlyForNewCalls(prev: Option<FunctionState>)
    ensures prev in AllowedFrom(Guard) <==> prev.None?
  {
  }

  /** The state a call ends in after reporting `states` from `prev`, None once one is refused. */
  function Walk(prev: Option<FunctionState>, states: seq<FunctionState>): Option<Option<FunctionState>>
    decreases |states|
  {
    if states == [] then Some(prev)
    else if prev in AllowedFrom(states[0]) then Walk(Some(states[0]), states[1..])
    else None
  }

  /**
   * The life of one call id: the accepted state sequences are exactly the
   * prefixes of guard-start-end, guard-error-end and guard-start-error-end.
   */
  lemma {:induction false} CallLifecycle(states: seq<FunctionState>)
    ensures Walk(None, states).Some? <==>
      || states <= [Guard, Start, End]
      || states <= [Guard, Error, End]
      || states <= [Guard, Start, Error, End]
  {
    if |states| > 0 && states[0] == Guard {
      var t := states[1..];
      assert Walk(None, states) == Walk(Some(Guard), t);
      if |t| > 0 && t[0] == Start {
        var u := t[1..];
        assert Walk(Some(Guard), t) == Walk(Some(Start), u);
        if |u| > 0 && u[0] == Error {
          var v := u[1..];
          assert Walk(Some(Start), u) == Walk(Some(Error), v);
          if |v| > 0 && v[0] == End {
            var w := v[1..];
            assert Walk(Some(Error), v) == Walk(Some(End), w);
            if |w| > 0 { EndIsTerminal(w[0]); }
            assert states == [Guard, Start, Error, End] + w;
          }
        } else if |u| > 0 && u[0] == End {
          var v := u[1..];
          assert Walk(Some(Start), u) == Walk(Some(End), v);
          if |v| > 0 { EndIsTerminal(v[0]); }
          assert states == [Guard, Start, End] + v;
        }
      } else if |t| > 0 && t[0] == Error {
        var u := t[1..];
        assert Walk(Some(Guard), t) == Walk(Some(Error), u);
        if |u| > 0 && u[0] == End {
          var v := u[1..];
          assert Walk(Some(Error), u) == Walk(Some(End), v);
          if |v| > 0 { EndIsTerminal(v[0]); }
          assert states == [Guard, Error, End] + v;
        }
      }
    }
  }

  /** How many tracked calls are currently in `s`. */
  function Tally(calls: map<string, FunctionState>, s: FunctionState): nat {
    |set id | id in calls && calls[id] == s|
  }

  /** The call ids in `s` after moving `id` to `st`. */
  lemma InStateAfterUpdate(calls: map<string, FunctionState>, moved: map<string, FunctionState>, id: string, st: FunctionState, s: FunctionState)
    requires moved == calls[id := st]
    ensures (set k | k in moved && moved[k] == s)
         == (set k | k in calls && calls[k] == s) - {id} + (if s == st then {id} else {})
  {
  }

  /** Moving one call id to `st` moves exactly one unit of the tallies. */
  lemma TallyAfterUpdate(calls: map<string, FunctionState>, id: string, st: FunctionState, s: FunctionState)
    ensures Tally(calls[id := st], s) ==
      Tally(calls, s) - (if id in calls && calls[id] == s then 1 else 0) + (if s == st then 1 else 0)
  {
    InStateAfterUpdate(calls, calls[id := st], id, st, s);
    var before := set k | k in calls && calls[k] == s;
    CardinalityAfterSwap(before, id, s == st);
  }

  /** Taking one element out of a set and possibly putting it back changes its size by at most one each way. */
  lemma CardinalityAfterSwap<T>(before: set<T>, x: T, putBack: bool)
    ensures |before - {x} + (if putBack then {x} else {})| ==
      |before| - (if x in before then 1 else 0) + (if putBack then 1 else 0)
  {
    var others := before - {x};
    if x in before {
      assert before == others + {x};
    }
  }

  /** A `defaultdict(int)` read: a state that is not a key counts 0. */
  function CountIn(counts: map<FunctionState, int>, s: FunctionState): int {
    if s in counts then counts[s] else 0
  }

  /** The counts after one call moves from `prev` (if it was tracked) to `st`. */
  function MovedCounts(counts: map<FunctionState, int>, prev: Option<FunctionState>, st: FunctionState): map<FunctionState, int> {
    var left := if prev.Some? then counts[prev.value := CountIn(counts, prev.value) - 1] else counts;
    left[st := CountIn(left, st) + 1]
  }

  /** Counts that tally the calls still tally them after one call moves to `st`. */
  lemma MovedCountsTally(counts: map<FunctionState, int>, calls: map<string, FunctionState>, id: string, prev: Option<FunctionState>, st: FunctionState)
    requires forall s :: CountIn(counts, s) == Tally(calls, s)
    requires prev == if id in calls then Some(calls[id]) else None
    ensures forall s :: CountIn(MovedCounts(counts, prev, st), s) == Tally(calls[id := st], s)
  {
    forall s ensures CountIn(MovedCounts(counts, prev, st), s) == Tally(calls[id := st], s) {
      TallyAfterUpdate(calls, id, st, s);
    }
  }

  datatype CallStateError = InvalidState(name: string) | InvalidTransition(prev: Option<FunctionState>, next: FunctionState)

  /** `CallTracker`: the current state of each call id, per-state counts and every state handled. */
  class CallTracker {
    const runId: string
    var calls: map<string, FunctionState>
    /** A `defaultdict(int)`: a state that is not a key counts 0. */
    var stateCounts: map<FunctionState, int>
    var stateHistory: seq<CallState>

    function Count(s: FunctionState): int
      reads this
    {
      CountIn(stateCounts, s)
    }

    /** `state_counts[s]` equals the number of call ids whose current state is `s`. */
    ghost predicate Valid()
      reads this
    {
      forall s :: CountIn(stateCounts, s) == Tally(calls, s)
    }

    constructor (runId: string)
      ensures Valid() && this.runId == runId
      ensures calls == map[] && stateCounts == map[] && stateHistory == []
    {
      this.runId := runId;
      calls, stateCounts, stateHistory := map[], map[], [];
    }

    /**
     * `handle(state)`: records the state in the history first, then
     * refuses an unknown state or a transition the table does not allow,
     * leaving calls and counts as they were; otherwise moves the call.
     */
    method Handle(state: CallState) returns (r: Result<(), CallStateError>)
      requires Valid()
      modifies this
      ensures Valid()
      ensures stateHistory == old(stateHistory) + [state]
      ensures r.Ok? <==>
        ParseState(state.state).Some? &&
        (if state.callId in old(calls) then Some(old(calls)[state.callId]) else None)
          in AllowedFrom(ParseState(state.state).value)
      ensures r.Err? ==> calls == old(calls) && stateCounts == old(stateCounts)
      ensures r.Ok? ==> calls == old(calls)[state.callId := ParseState(state.state).value]
    {
      stateHistory := stateHistory + [state];
      var parsed := ParseState(state.state);
      if parsed.None? {
        return Err(InvalidState(state.state));
      }
      var st := parsed.value;
      var prev := if state.callId in calls then Some(calls[state.callId]) else None;
      if prev !in AllowedFrom(st) {
        return Err(InvalidTransition(prev, st));
      }
      MovedCountsTally(stateCounts, calls, state.callId, prev, st);
      ghost var counts := stateCounts;
      if prev.Some? {
        stateCounts := stateCounts[prev.value := Count(prev.value) - 1];
      }
      stateCounts := stateCounts[st := Count(st) + 1];
      assert stateCounts == MovedCounts(counts, prev, st);
      calls := calls[state.callId := st];
      r := Ok(());
    }

    /** `any_active()`: some tracked call has not reached `end`. */
    function AnyActive(): (r: bool)
      requires Valid()
      reads this
      ensures r <==> exists id :: id in calls && calls[id] != End
      ensures r <==> Count(Guard) + Count(Start) + Count(Error) > 0
    {
      var active := exists s :: s in calls.Values && s != End;
      assert active <==> exists id :: id in calls && calls[id] != End by {
        if active {
          var s :| s in calls.Values && s != End;
          var id :| id in calls && calls[id] == s;
        }
        if exists id :: id in calls && calls[id] != End {
          var id :| id in calls && calls[id] != End;
          assert calls[id] in calls.Values;
        }
      }
      TallyPositive(calls, Guard);
      TallyPositive(calls, Start);
      TallyPositive(calls, Error);
      active
    }

    /** `any_running()`: `state_counts['start'] > 0`, i.e. some call is in `start`. */
    function AnyRunning(): (r: bool)
      requires Valid()
      reads this
      ensures r <==> exists id :: id in calls && calls[id] == Start
    {
      TallyPositive(calls, Start);
      Count(Start) > 0
    }
  }

  lemma TallyPositive(calls: map<string, FunctionState>, s: FunctionState)
    ensures Tally(calls, s) > 0 <==> exists id :: id in calls && calls[id] == s
  {
    var ids := set id | id in calls && calls[id] == s;
    if exists id :: id in calls && calls[id] == s {
      var id :| id in calls && calls[id] == s;
      assert id in ids;
    }
  }
}
