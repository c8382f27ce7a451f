# z0u/ai-research core, modelled in Dafny

This project models the core of the z0u/ai-research repository and proves what that code promises. The repository runs experiments on Modal. The modelled parts are:

- **The batching pipe** (`src/utils/modal.py`, with an earlier copy in `src/dair/comms.py`). Producers put batches on an in-memory queue and put one token on its `signal` partition. A single consumer loop races a read of `signal` against a stop flag. It then drains at most `MAX_LEN = 5000` items and hands a non-empty drain to the handler. The loop stops when the stop side was in that iteration's `done` set, and then clears every partition. If the handler raises, the loop ends at once without that clear, and the exception surfaces when the scope is left.
- **`mini`**: guards around remote functions (`guards.py`, `experiment.py`), the call-state tracker and its URNs (`_state.py`), and the local callback dispatcher `run_hither` (`hither.py`).
- **Small pure utilities**:
  - the character tokenizer;
  - the `uv tree` requirement parser and both `freeze` variants;
  - the text dataset windows;
  - the concise log formatter;
  - the constrained-integer checks.

Where the source changes state in place, the model uses classes whose methods are proved against pure functions:

- the pipe's queue (`BatchPipe.Pipe`, `DairComms.Consumer`);
- `CallTracker`;
- the experiment's guard list, which the decorated functions share by reference.

Loops in the source are methods with loop invariants: `Remote.Call`, `Unbatch`, `Encode`, `DecodeEach` and `ParseUvTreeOutput`. Everything else is functions and lemmas. Shared helpers are:

- `Wrappers` (Option and Result);
- `PyStrings`: Python's string order, `sorted(set(...))`, `split`, `strip` and `join`.

Inputs standing for I/O or for the outside world:

- **The race.** The result of `asyncio.wait` is an explicit `Race` value.
- **The teardown wait.** How the `wait_for` ended (completed, timed out, raised) is an explicit `Join` value.
- **What `uv tree` prints.** This is a function from a command line to its output.
- **The elapsed time.** It arrives already formatted as text.
- **Introspection results.** `inspect.signature` arity, `iscoroutinefunction`, `isasyncgenfunction` and `hasattr` are fields of the callbacks and targets.
- **Exceptions.** Whether a callback raises is a field of the callback. Whether a batched call raises is a set of failing records. Whether the pipe's handler raises on a turn's batch is an argument of that turn; for the per-item adapter of `send_to`, the values the handler raises on are a set.

## Model

| member | source | states |
|---|---|---|
| BatchPipe.DrainCount | src/utils/modal.py:129 | a non-blocking `get_many(MAX_LEN)` takes `min(n, 5000)` items: never more than the queue holds, never more than MAX_LEN |
| BatchPipe.IterateMeaning | src/utils/modal.py:119-137 | one loop turn: stops iff the stop side is in `done` or the handler raised on a non-empty batch; at most one handler call, made iff data was queued, with the oldest `min(MAX_LEN, len)` items whichever side won; nothing lost or reordered while running; a raising handler leaves the loop before the `clear`, so the rest of the queue stays; on a normal break-out all partitions are empty and the undrained rest is discarded |
| BatchPipe.InvInit | src/utils/modal.py:69-74 | the fresh empty queue satisfies the pipe invariant |
| BatchPipe.InvSend | src/utils/modal.py:101-105 | a producer call keeps the invariant, with its values appended to everything sent |
| BatchPipe.InvRequestStop | src/utils/modal.py:139-141 | `stop()` keeps the invariant |
| BatchPipe.InvIterate | src/utils/modal.py:119-137 | a loop turn keeps the invariant, whatever the handler does: batches non-empty and at most MAX_LEN, delivered values a prefix of the sent ones, delivered followed by queued equal to sent while running and after a handler failure, a normal end only after a stop |
| BatchPipe.RunKeepsInv | src/utils/modal.py:91-141 | every interleaving of producer calls, stop and loop turns from the empty queue ends in a state satisfying the invariant |
| BatchPipe.DeliveredInSendOrder | src/utils/modal.py:102-137 | over any interleaving, the concatenation of handed batches is a prefix of the concatenation of sent values, in send order; every batch is non-empty and at most MAX_LEN; after a handler failure the undelivered values are still queued; the loop ends normally only after stop was requested |
| BatchPipe.FinalIterationDeliversBacklog | src/utils/modal.py:128-137 | a turn whose race shows the stop side, with at most MAX_LEN values queued, hands all of them to the handler and ends the loop, whether or not the handler then raises |
| BatchPipe.LateStopGetsAnotherIteration | src/utils/modal.py:133-137 | a stop set after a signal-only race does not end that turn; the next turn can see the stop side and then drains the backlog |
| BatchPipe.BacklogBeyondMaxLenStalls | src/utils/modal.py:119-129 | a signal-won turn that drains every token while more than MAX_LEN values are queued leaves the rest queued with no token, so only a stop (or another producer call) can start a further turn |
| BatchPipe.BacklogStallExample | src/utils/modal.py:102-129 | 5001 values sent in one call leave one value queued with no signal token after the first wake |
| BatchPipe.StopWinDiscardsBacklog | src/utils/modal.py:128-137 | a stop win with more than MAX_LEN values queued delivers only the oldest MAX_LEN; a returning handler lets the `clear` discard the rest, a raising one leaves it queued |
| BatchPipe.Teardown | src/utils/modal.py:78-88 | leaving `send_batch_to`: a timeout re-raises with the trailing note under "throw" and only warns otherwise; other consumer exceptions propagate; a completed wait lets the block's own outcome through |
| BatchPipe.HandlerFailureSurfacesAtTeardown | src/utils/modal.py:78-88 | when the loop ended because the handler raised, leaving the scope raises that exception in place of the block's outcome; a `TimeoutError` from the handler gets the trailing note under "throw" and is only logged otherwise |
| BatchPipe.CoerceToAsync | src/utils/modal.py:208-216 | a coroutine function is returned unchanged, anything else wrapped; both call the same function |
| BatchPipe.ProduceOne | src/utils/modal.py:200-205 | `produce_one(value)` appends exactly `[value]` and one signal token, nothing else |
| BatchPipe.ConsumeFromBatchMeaning | src/utils/modal.py:219-227 | the per-item handler is awaited on the values of the batch in order; the adapter raises iff some value fails, and then its calls stop at the first failing value |
| BatchPipe.ItemCallsAreFlattened | src/utils/modal.py:219-227 | over the delivered batches the per-item handler sees a prefix of their concatenation, and all of it when no value fails |
| BatchPipe.ItemsSeenInSendOrder | src/utils/modal.py:192-227 | through `send_to`, the per-item handler sees a prefix of the sent values, in send order, whichever values it raises on |
| BatchPipe.Pipe.constructor | src/utils/modal.py:69-74 | the queue starts empty, the flag clear, no handler calls |
| BatchPipe.Pipe.Send | src/utils/modal.py:91-107 | `produce_batch` appends the values in order to the data partition and exactly one token to `signal`; nothing else changes |
| BatchPipe.Pipe.SendOne | src/utils/modal.py:200-205 | the single-item producer is `produce_batch([value])` |
| BatchPipe.Pipe.Stop | src/utils/modal.py:139-141 | `stop()` only sets the flag |
| BatchPipe.Pipe.Step | src/utils/modal.py:119-137 | one loop turn in place returns the drained batch, whether the handler was called (iff non-empty) and whether the loop ended (iff the stop side won or the handler raised); the new state is `Iterate` of the old |
| BatchPipe.Pipe.Close | src/utils/modal.py:78-88 | the `finally` always calls `stop()` and then applies the errors policy; for a loop that already ended, a normal end lets the block's outcome through and a stored handler exception surfaces (a `TimeoutError` with the trailing note under "throw", only logged otherwise) |
| DairComms.Consume | src/dair/comms.py:93-120 | the earlier loop turn has the same queue protocol as `Iterate`, a raising handler included; it makes at most one handler call, made iff data was drained, awaited iff the handler is a coroutine function |
| DairComms.Produce | src/dair/comms.py:77-91 | `produce` is the same queue update as the later `produce_batch` |
| DairComms.SendToHandlerReceivesLists | src/dair/comms.py:185-189 | `send_to` hands the per-item handler whole drained lists: two values sent singly arrive as one call with `[a, b]` |
| DairComms.Teardown | src/dair/comms.py:126-136 | the flag is set and the errors policy is the same as the later copy's |
| DairComms.CallsMatchStep | src/dair/comms.py:109-114 | a loop turn appends at most the one call it makes, so the recorded calls stay one per delivered batch, each with its batch and awaited iff the handler is async |
| DairComms.Consumer.constructor | src/dair/comms.py:73-74 | the handler kind is fixed once, before the loop |
| DairComms.Consumer.Step | src/dair/comms.py:98-120 | one turn in place appends exactly the calls `Consume` makes, the one that raised included, and keeps every recorded call matching a delivered batch and the fixed handler kind; the loop ends iff the stop side won or the handler raised |
| CallState.ParseState | src/mini/_state.py:65-74 | only `guard`, `start`, `error` and `end` are states; anything else is rejected |
| CallState.ParseStateName | src/mini/_state.py:65-74 | every state's name reads back as that state |
| CallState.ToUrnParts | src/mini/_state.py:27-29 | `to_urn` emits nine parts ending in the state, never the exception |
| CallState.FromUrn | src/mini/_state.py:36-49 | accepted iff nine parts with guard/start/end or ten parts with error, both of the fixed `mini:run:*:fn:*:*:call:*` shape; there is an exception iff there are ten parts, and it is the tenth; otherwise an invalid-format error |
| CallState.UrnRoundTrip | src/mini/_state.py:27-47 | non-error states without an exception survive `to_urn` then `from_urn` |
| CallState.ErrorUrnDoesNotRoundTrip | src/mini/_state.py:27-47 | an error state's URN is rejected by `from_urn` |
| CallState.EndIsTerminal | src/mini/_state.py:65-72 | no state may follow `end` |
| CallState.GuardOnlyForNewCalls | src/mini/_state.py:65-66 | `guard` is allowed iff the call id has never been seen |
| CallState.CallLifecycle | src/mini/_state.py:61-84 | the state sequences one call id can report without error are exactly the prefixes of guard-start-end, guard-error-end and guard-start-error-end |
| CallState.InStateAfterUpdate | src/mini/_state.py:81-84 | moving one call id changes the set of ids in each state by that id only |
| CallState.TallyAfterUpdate | src/mini/_state.py:81-84 | the decrement of the old state and the increment of the new keep every tally equal to the number of ids in that state |
| CallState.MovedCountsTally | src/mini/_state.py:81-84 | counts that equal the number of calls per state still do after the decrement and increment of one move |
| CallState.TallyPositive | src/mini/_state.py:90-92 | a tally is positive iff some call is in that state |
| CallState.CallTracker.constructor | src/mini/_state.py:55-59 | a new tracker has no calls, zero counts and an empty history |
| CallState.CallTracker.Handle | src/mini/_state.py:61-84 | every handled state is appended to the history, rejected ones too; accepted iff the name is a state and the call's previous state is allowed; on rejection calls and counts do not change; on acceptance only that call moves; counts keep equal to the number of calls per state |
| CallState.CallTracker.AnyActive | src/mini/_state.py:86-88 | true iff some tracked call is not at `end`, which is iff the guard, start and error counts sum above zero |
| CallState.CallTracker.AnyRunning | src/mini/_state.py:90-92 | true iff some call is in `start` |
| Guards.Before | src/mini/guards.py:19-40 | a zero-parameter callback gives the argument-less `guard`, any other the `guard_fn(fn)` shape |
| Guards.After | src/mini/guards.py:53-111 | the 0, 1 and 3 parameter callbacks get their own shapes, every other count gets `guard_fn_exc` |
| Guards.ReportedParams | src/mini/guards.py:24-26 | `inspect.signature` of a built guard reports the callback's parameters, because `@wraps` and `@contextmanager` set `__wrapped__` |
| Guards.ReportedMatchesAccepted | src/mini/guards.py:81-95 | the reported count is zero iff the guard takes no argument, for every built guard except `guard_exc`, which reports 3 and takes none |
| Guards.InfoOf | src/mini/guards.py:87-91 | the exception triple is all None iff the body did not raise, otherwise it carries the body's exception |
| Guards.Swallow | src/mini/guards.py:88-93 | catching the exception and finishing the generator means the block returns normally |
| Guards.Finally | src/mini/guards.py:61-64 | a callback raising in `finally` replaces whatever was leaving; otherwise the outcome passes through |
| Guards.EnterWith | src/mini/experiment.py:261-262 | calling a guard with a different number of arguments than it takes is a TypeError before anything runs |
| Guards.BeforeRunsCallbackFirst | src/mini/guards.py:19-40 | `before` calls `callback()` or `callback(fn)` and then runs the body; if the callback raises, the body never runs |
| Guards.AfterRunsCallbackInFinally | src/mini/guards.py:55-79 | `after` with 0 or 1 parameters calls the callback after the body even when it raised, and the body's exception still propagates unless the callback raises |
| Guards.AfterCapturesException | src/mini/guards.py:81-111 | `after` with 3 parameters passes `(type, exc, tb)` or three Nones; with other counts it passes `fn` first; the body's exception is swallowed |
| Experiment.GuardList.Append | src/mini/experiment.py:134 | a guard is appended at the end of the shared list |
| Experiment.Placement | src/mini/experiment.py:137-144 | `wrap`, `before` and `after` pick their registrar; any other placement is `Invalid placement: <placement>` |
| Experiment.MergeVolumes | src/mini/experiment.py:222-223 | `{**self.volumes, **volumes}`: per-function entries override experiment-wide ones with the same key |
| Experiment.ResolveKwargs | src/mini/experiment.py:219-223 | `image` defaults to the experiment's only when absent, volumes are merged, other kwargs are kept |
| Experiment.ResolveKwargsTwice | src/mini/experiment.py:218-223 | resolving the shared kwargs a second time, as a second decoration does, with the same experiment volumes, changes nothing, and the first image stays |
| Experiment.AfterExcGuardFailsAsWritten | src/mini/experiment.py:256-262 | as written, a guard from `after_each` with a three-parameter callback is called with `original_fn`, which it does not accept, so the guarded function raises TypeError |
| Experiment.CtorArgsFit | src/mini/experiment.py:256-262 | passing `original_fn` iff the guard itself takes a parameter constructs every built guard with the arguments it accepts; this agrees with the as-written rule exactly when the guard is not `guard_exc` |
| Experiment.UserGuardRulesAgree | src/mini/experiment.py:256-262 | for a user's own guard both rules pass `original_fn` exactly when it declares parameters |
| Experiment.ExecAsIntended | src/mini/experiment.py:256-262 | a guarded function runs the same under the as-written and the intended rule when the two agree on every guard |
| Experiment.AfterExcGuardOnCallPath | src/mini/experiment.py:227-262 | on the call path as written, an `after` guard for a `(type, exc, tb)` callback raises TypeError before the body; with the intended rule it is entered around the body |
| Experiment.NestCons | src/mini/experiment.py:231-235 | wrapping in reverse makes the first guard the outermost |
| Experiment.BeforeGuardStep | src/mini/guards.py:19-40 | a `before` guard whose callback does not raise, constructed as `_wrap_with_guard` does, records the callback's call and then runs what it wraps unchanged |
| Experiment.BeforeGuardsRunInOrder | src/mini/experiment.py:228-237 | on the call path as written, non-raising `before` guards call their callbacks in registration order, then the body runs |
| Experiment.AfterGuardsRunInReverse | src/mini/experiment.py:228-237 | on the call path as written, non-raising `after` guards of at most one parameter run after the body, innermost first |
| Experiment.Remote.Call | src/mini/experiment.py:227-262 | the two reversed loops nest the global guards in registration order outermost, then the specific ones, then the function; each guard is constructed by `_wrap_with_guard`'s rule as written |
| Experiment.Decorator.Decorate | src/mini/experiment.py:218-239 | decorating resolves the shared kwargs in place and builds a remote that holds the experiment's guard list itself, not a copy |
| Experiment.Experiment.constructor | src/mini/experiment.py:88-94 | no guards, no volumes, no image |
| Experiment.Experiment.Guard | src/mini/experiment.py:120-144 | with a guard, it is appended and returned unchanged; without one, the placement picks a registrar or fails, and the list is untouched |
| Experiment.Experiment.GuardBefore | src/mini/experiment.py:151-154 | appends and returns `before(callback)` |
| Experiment.Experiment.GuardAfter | src/mini/experiment.py:165-168 | appends and returns `after(callback)` |
| Experiment.Experiment.BeforeEach | src/mini/experiment.py:170-174 | registers `before(callback)` and returns the original callback |
| Experiment.Experiment.AfterEach | src/mini/experiment.py:176-182 | registers `after(callback)` and returns the original callback |
| Experiment.Experiment.Thither | src/mini/experiment.py:215-216 | a non-empty guard list is used as given; a missing or empty one becomes a fresh empty list |
| Experiment.GuardRegisteredAfterDecorationApplies | src/mini/experiment.py:215-234 | a guard registered after decoration still wraps the call, because the list is captured by reference; it is constructed by the as-written rule |
| Experiment.AfterEachExcCallRaises | src/mini/experiment.py:176-262 | after `after_each` with a `(type, exc, tb)` callback, every call of a function the experiment decorated raises TypeError and the body never runs |
| Hither.ParseMode | src/mini/hither.py:152-173 | exactly `callback`, `factory`, `cm` and `cm_factory` are modes |
| Hither.DetectMode | src/mini/hither.py:139-149 | with no mode, an object with `__aenter__` and `__aexit__` is `cm`, else an async-generator function is `cm_factory`, else `callback`; `factory` is never detected |
| Hither.RunHitherDispatch | src/mini/hither.py:124-173 | a valid or detected mode selects a variant of that mode and batch flag; any other mode is `Invalid mode: <mode>` in both branches |
| Hither.EachVariantHasOnePair | src/mini/hither.py:152-173 | each of the eight variants is selected by exactly one batch flag and mode name |
| Hither.LifecycleShape | src/mini/hither.py:177-241 | every variant opens its layers, runs the block, and closes them in reverse |
| Hither.FactoryCalledOnce | src/mini/hither.py:187-241 | factory variants call the factory exactly once, the others never |
| Hither.CmEnteredAndExitedOnce | src/mini/hither.py:211-241 | context-manager variants enter the context once before the block and exit it once after; the others never |
| Hither.SentBatches | src/mini/hither.py:244-250 | each call becomes a one-element list holding its `Params` |
| Hither.BatchesOfOneKeepCalls | src/mini/hither.py:244-250 | the one-element batches flatten back to exactly the calls made |
| Hither.InvocationsMeaning | src/mini/hither.py:253-259 | `_unbatch` calls the callback with a prefix of the records in list order; it raises iff some record fails, and then stops at the first failing one |
| Hither.InvocationsStep | src/mini/hither.py:255-257 | one record is handled before the rest, and a failing one ends the loop |
| Hither.Unbatch | src/mini/hither.py:253-259 | the for-loop makes exactly those calls and raises exactly then |
| Hither.CallsArriveOneByOne | src/mini/hither.py:177-184 | for any grouping of the sent records into delivered lists, the non-batch callback is called on a prefix of the sent calls, once per record in send order, stopping right after the first call that raises; once all are delivered and none raises, on each call exactly once |
| Hither.InvocationsAppend | src/mini/hither.py:253-259 | `_unbatch` on two lists in a row makes the calls of the first, then those of the second only if the first did not raise |
| Hither.DeliveriesIgnoreGrouping | src/mini/hither.py:177-184 | handing the records to `_unbatch(callback)` in any grouping makes the same calls as handing them over in one list |
| Tokenizer.NewTokenizer | src/experiment/data/tokenizer.py:9-14 | the vocabulary is strictly sorted and holds exactly the configured tokens; `vocab_size` is its length; `stoi` and `itos` number it from 0 |
| Tokenizer.VocabularyIsSortedSet | src/experiment/data/tokenizer.py:10-11 | the vocabulary is the one strictly sorted list of the configured tokens, `sorted(set(...))` |
| Tokenizer.StoiItosInverse | src/experiment/data/tokenizer.py:13-14 | `stoi` and `itos` are inverse bijections between the vocabulary and `0 .. vocab_size - 1` |
| Tokenizer.EncodeText | src/experiment/data/tokenizer.py:27 | a text encodes iff each of its characters is in `stoi`, to one index per character |
| Tokenizer.EncodeTextFirstUnknown | src/experiment/data/tokenizer.py:27 | a failing text raises KeyError for its first character that is not in `stoi` |
| Tokenizer.Encode | src/experiment/data/tokenizer.py:24-28 | `encode` keeps the batch length and each text's length and maps every character to its index; it fails iff some text has an unknown character, with the error of the first failing text |
| Tokenizer.DecodeIds | src/experiment/data/tokenizer.py:35 | one fragment per id, with `''` for an unknown id |
| Tokenizer.DecodeEach | src/experiment/data/tokenizer.py:31-36 | the loop decodes every row, in order |
| Tokenizer.Decode | src/experiment/data/tokenizer.py:39-41 | each row of `decode_each` is joined |
| Tokenizer.RoundTrip | src/experiment/data/tokenizer.py:24-41 | decoding the encoding of a text gives the text back whenever all its characters are in the vocabulary |
| Tokenizer.FromString | src/experiment/data/tokenizer.py:18-21 | the vocabulary is exactly the distinct characters of the string |
| Tokenizer.FromStringEncodesItsString | src/experiment/data/tokenizer.py:18-28 | encoding the string a tokenizer was built from never fails, and decoding restores it |
| UvTree.MatchAtIsPattern | src/utils/requirements.py:69-74 | the match attempt at a position succeeds iff the pattern matches there; the name must end where the name characters end, and the version is the longest non-space run |
| UvTree.SearchMeaning | src/utils/requirements.py:74 | `re.search` finds no match iff the pattern matches nowhere, and otherwise returns the leftmost match with the greedy version |
| UvTree.RequirementMeaning | src/utils/requirements.py:73-78 | a line contributes a pin iff the pattern matches in it; the pin is `name==version` with both parts non-empty |
| UvTree.FoundMeaning | src/utils/requirements.py:73-78 | the collected pins are exactly the pins of the lines; lines without a match contribute nothing |
| UvTree.ParsedMeaning | src/ml_util/requirements.py:45-66 | the result is strictly sorted, so free of duplicates, and holds exactly the pins of the (possibly first-less) lines; the older copy of the parser is identical |
| UvTree.ParsedArePins | src/utils/requirements.py:76-80 | every returned entry is `name==version` |
| UvTree.SortedSet | src/utils/requirements.py:80 | `sorted()` of a set is strictly sorted with exactly the set's elements |
| UvTree.CollectPins | src/utils/requirements.py:73-78 | the loop's set holds exactly the pins of the lines |
| UvTree.ParseUvTreeOutput | src/utils/requirements.py:59-80 | the strip, split, optional first-line skip, per-line search and set accumulation return exactly `Parsed` |
| UtilsRequirements.ConstraintsFlags | src/utils/requirements.py:46-50 | `--no-dedupe`, then `--no-dev` iff not dev and `--no-group=local` iff not local |
| UtilsRequirements.Freeze | src/utils/requirements.py:17-56 | packages with `all` raise ValueError, and no packages without `all` return `[]`, both before any command; otherwise an all-groups command and a constrained command run, and the second one's output, parsed with `ignore_first=all`, is returned |
| UtilsRequirements.FreezeFlags | src/utils/requirements.py:46-52 | the selecting command has `--no-dev` iff not dev and `--no-group=local` iff not local, and never `--all-groups` |
| UtilsRequirements.PackageOptsRepeated | src/utils/requirements.py:41-52 | with packages, each `--package` option appears twice in the selecting command |
| MlUtilRequirements.Freeze | src/ml_util/requirements.py:14-42 | the same ValueError and early `[]`; otherwise one `uv tree` command with the package options and `--no-dev` unless dev, parsed with the first line dropped iff `all` |
| MlUtilRequirements.FreezeDevFlag | src/ml_util/requirements.py:36-37 | the command has `--no-dev` iff not dev |
| Dataset.Slice | src/experiment/data/dataset.py:22-23 | Python slicing clamps bounds past the end |
| Dataset.WindowAt | src/experiment/data/dataset.py:21-24 | below `__len__`, `x` and `y` have exactly `block_size` elements, `x[i] = data[idx+i]`, `y[i] = data[idx+i+1]`, so `y[i] = x[i+1]` |
| Dataset.LastElementNeverTarget | src/experiment/data/dataset.py:18-24 | at every valid index `y` reads no further than `len(data) - 2`, so the last element is never a target |
| Dataset.WindowAtLenIsComplete | src/experiment/data/dataset.py:18-24 | the window at `idx == __len__` would still be complete and would end on the last element: `__len__` leaves out one full window |
| Dataset.ShortWindowsPastTheEnd | src/experiment/data/dataset.py:21-24 | indices past the complete windows give a short `y` |
| ConciseLog.PadRight | src/utils/logging.py:35 | `{prefix:15s}` left-aligns and pads with spaces to at least 15 characters, never cutting |
| ConciseLog.EmptyPartIffEmptyComponent | src/utils/logging.py:31 | `split('.')` yields an empty component iff the name is empty, starts or ends with a dot, or has two dots in a row |
| ConciseLog.JoinSingles | src/utils/logging.py:31 | joining one-letter strings with dots puts the letters at even positions and dots between |
| ConciseLog.AbbreviateMeaning | src/utils/logging.py:31 | the module name abbreviates to the first letter of each component, joined by dots, and fails with IndexError iff a component is empty |
| ConciseLog.FormatMeaning | src/utils/logging.py:28-35 | formatting fails iff the level name is empty or the module name has an empty component; otherwise the line is `L elapsed abbr:`, padded to 15 and never cut, then the message with no separator |
| ConciseLog.PaddedLine | src/utils/logging.py:35 | the message follows the padded prefix directly |
| ParamTypes.MultipleChecks | src/utils/param_types.py:12-28 | the IntX8, IntX32 and IntX64 checks hold exactly for the multiples of 8, 32 and 64 |
| ParamTypes.IntX64Implies | src/utils/param_types.py:12-28 | a value passing IntX64 passes IntX32 and IntX8 |
| ParamTypes.BitAnd | src/utils/param_types.py:32 | `a & b` is at most each operand |
| ParamTypes.PowerOf2Correct | src/utils/param_types.py:30-34 | for positive `v`, `(v & (v - 1)) == 0` iff `v` is a power of two |

## Left out

- Each consumer iteration of the batching pipe is one atomic step. A producer call that lands between the race and the drain is modelled as landing before or after the whole step. What this loses: in the source the drain can take such a value while its token stays on `signal`, so the next turn wakes on that token and drains nothing.
- What happens to the pending signal read or the consumer task after a timeout is not modelled. Python cancels it in `asyncio.wait_for`.
- Modal itself (`modal.Queue`, `App.run`, `app.function`) is not modelled; the queue is an in-memory sequence with a token count. The `asyncio` scheduling, the `trailing_timeout` timing and the log messages are left out too.
- Log streaming is I/O and is not modelled: `run` in src/utils/modal.py and src/dair/comms.py, and `run_with_logs` in src/mini/experiment.py. src/ai_eggs/comms.py is not part of this model either: its behaviour depends on task cancellation at exit.
- `mini.urns` (URN splitting, joining and `CallState.matches`) and `mini.local_dispatch` are not part of this model. URNs are handled as the list of their parts.
- `Hither.Deliveries`: `send_batch_to` comes from `mini.local_dispatch`, so how it groups the sent lists is left open. The model assumes only that it hands on the sent records in order, as a prefix of them, and hands over no list after one whose handling raised.
- `any_running` reads the `defaultdict`, which inserts a zero count for `start`. The insertion is not observable through the tracker's methods and is not modelled.
- A user guard that is a context manager is opaque. It is entered and exited around the block, entering may raise, and it never suppresses an exception.
- A callback called with the wrong number of arguments by a built guard is not modelled. An example is a two-parameter callback in `after`, which is called with four arguments.
- The `functools.wraps` metadata is not modelled, beyond the `__wrapped__` link that `inspect.signature` follows.
- `Unbatch`: `fn` is left abstract. A call raises iff its `Params` record is in a given set of failing records.
- The parser is restricted to ASCII. Non-ASCII letters that IGNORECASE folds into `[A-Z]`, and Unicode whitespace beyond ASCII in `\s` and `strip()`, are not modelled.
- The subprocess calls of both `freeze` functions are not run; the output of `uv tree` is an input. A failing command (`check=True`) and the "Selected n of m" log line are left out.
- Floats are not modelled: `ZeroToOne`, the ceil in `OverlappingRandomSampler`, and the `.1f` formatting of the elapsed time, which arrives as text.
- Pydantic is not modelled: `validate_call` and `PositiveInt`. The model states the boolean each `AfterValidator` lambda returns, on positive values. As the lambdas are written, pydantic uses the returned boolean as the validated value instead of rejecting a failing one; that is outside the model.
- `Dataset.Len`: Python's `len()` raises ValueError when `__len__` is negative. The model keeps the raw `int`, and `GetItem` takes a non-negative index only.
- Torch and numerics code (the GPT model, training, series, the learning-rate finder plots) and `src/experiment/config.py` are not modelled, and neither are main.py and the test helpers.

## Findings

| source | as written | input that shows it | evidently intended | confidence | as-written member | corrected member |
|---|---|---|---|---|---|---|
| src/mini/experiment.py:256-262 | `_wrap_with_guard` passes `original_fn` when `inspect.signature(guard)` reports parameters. For the guards built by `after`, `inspect.signature` follows `__wrapped__` to the user's callback. | `after_each(cb)` with a callback taking `(type, exc, tb)`: the guard `guard_exc()` takes no argument, but its signature shows three, so `guard(original_fn)` raises TypeError on every call of a guarded function | pass `original_fn` exactly when the guard function itself takes a parameter | not executed; high — follows from `@wraps` setting `__wrapped__` and `inspect.signature` following it by default | Experiment.AfterEachExcCallRaises | Experiment.CtorArgsFit |

The call path `Exec`, which `Remote.Call` uses, follows the code as written. `ExecIntended` applies the corrected rule, and `ExecAsIntended` shows that the two run a guarded function the same way whenever they agree on every guard, which holds for every guard other than `guard_exc`.
