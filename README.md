# acast-test-helpers, modelled in Dafny

This project models the core of acast-test-helpers, a set of helpers for
browser tests run under mocha. The model covers three parts.

- **The asynchronous action chain** (`src/async.js`). `setupAsync` installs two
  hooks. The before-hook creates a module-level promise chain, `testPromise`.
  `andThen`, `waitUntil`, `waitMillis` and `waitUntilChange` append steps to
  that chain. The after-hook drains the chain against a race timer set to the
  test's timeout, then fails the test with:
  - the chain's rejection, or
  - when the timer fires first, the chain's current `errorMessage`.

  Polling retries every 100 milliseconds. A throwing predicate counts as falsy
  and leaves its message behind.
- **The fake `fetch` registry** (`src/fetch.js`). A fake `window.fetch`
  records each call under its path. `fetchRespond(path)` hands out the oldest
  waiting call of that path, which the test then resolves or rejects.
- **The fake XMLHttpRequest stubber** (`src/xhr/stubber.js` and its older copy
  `src/xhr-stubber.js`) and the front end `src/xhr/index.js`. Every request
  made through the fake constructor is recorded. `findXhr` returns the newest
  request that is still open with the given method and url. A time-out
  diagnostic lists the distinct keys of the open requests.

Modules:
- `Js` (`js.dfy`): JavaScript values, their truthiness and `String(v)`, `join`,
  ASCII lower-casing, and the Option and Result wrappers.
- `Async` (`async.dfy`).
- `Fetch` (`fetch.dfy`).
- `XhrRequest` (`xhr_request.dfy`): the request objects the stubbers record, and
  the `match` criteria.
- `XhrStubber` (`xhr_stubber.dfy`) and `LegacyXhrStubber`
  (`xhr_stubber_legacy.dfy`): the two copies of `fakehr`.
- `Xhr` (`xhr.dfy`).

Module state that the source mutates is modelled as a class whose methods
change its fields:
- `Async.AsyncTools`: `testPromise`, the mocha timeouts, pending timers, and the
  closure variables of `waitUntilChange`;
- `Fetch.FakeFetch`: `pathToPromisesMap`, `window.fetch`, the handed-out
  promises;
- `XhrStubber.Fakehr`, `LegacyXhrStubber.Fakehr`: `requests` and
  `window.XMLHttpRequest`. The array `requests` refers to is an object of its
  own (`XhrRequest.RequestList`), so emptying it in place is visible to every
  holder;
- `Xhr.XhrFaking`: `isFakingXhr` over the stubber singleton.

The loops of the source are `while` loops proved against specification
functions:
- polling against `Async.Poll`;
- draining the chain against `Async.Run`;
- the `fetch` diagnostic against `Fetch.Labels`;
- the XHR diagnostic against `Xhr.Dedup` and `Xhr.ActiveKeys`;
- the backwards search of `match`.

Properties of those functions are proved as lemmas.

Time in the async model is counted in milliseconds from the start of the
after-hook:
- The race timer is due at the test's timeout (`deadline`). A timer due at `t`
  fires before it exactly when `t < deadline`. The race timer was started
  first, so it wins a tie.
- User callbacks (predicates, samplers, `andThen` callbacks, lazy error
  messages) are functions of the chained value and of the current time. That
  is how the page they observe, including `setTimeout` callbacks in the test
  body, changes over time.
- User code that throws is a `Throw(message)` completion.

Two facts about the library that the model follows:
- The "not found" diagnostic of `fetchRespond` groups waiting calls by path, in
  the order each path was first fetched (src/fetch.js:55-59). After fetching
  `/a`, `/b`, `/a` it lists `'/a', '/a', '/b'`.
- The `andThen` usage error is the text at src/async.js:73-75. Some test files
  in tests/async/ expect other texts, which come from an `asyncIt` helper that
  `src/async.js` does not define.

`Js.Join`, `Js.IntToString`, `Js.ToJsString` and `Js.ErrorText` stand in for
JavaScript built-ins the contracts depend on: `Array.prototype.join`
(src/fetch.js:60, src/xhr/index.js:97), number-to-string conversion in template
strings (src/async.js:140), and `new Error(v).message` (src/async.js:30).

## Model

| member | source | states |
|---|---|---|
| Async.AsyncTools.constructor | src/async.js:1 | the module starts with no chain and no timers pending |
| Async.AsyncTools.BeforeEach | src/async.js:11-16 | an empty resolved chain (no error message, no timeout handle) is created only when none exists; an existing chain and all other state are left as they were |
| Async.AsyncTools.AndThenStep | src/async.js:71-79 | without a chain it fails with the setupAsync usage message and nothing changes; otherwise exactly one step is appended at the tail, the tail being a new promise with no error message or handle, and nothing runs |
| Async.AsyncTools.AndThen | src/async.js:71-79 | `andThen(doThis)` appends exactly one `Then(doThis)` step, or fails with the usage message leaving no chain |
| Async.AsyncTools.WaitUntil | src/async.js:112-127 | appends one polling step whose message is the given one, or the default naming the function's source when omitted |
| Async.AsyncTools.WaitMillis | src/async.js:136-144 | appends one waiting step for the given milliseconds |
| Async.AsyncTools.WaitUntilChange | src/async.js:160-178 | takes two fresh closure variables and appends the three steps capture / poll-for-difference / read-latest, with the given or default message |
| Async.AsyncTools.ResolveWhenPredicateReturnsTruthy | src/async.js:81-96 | the polling loop yields exactly the result of `Poll`; each falsy attempt starts one poll timer and records its handle; on resolution no timer it started is pending, on losing the race exactly the last poll timer is, and it is the chain's handle |
| Async.AsyncTools.ExecuteStep | src/async.js:116-177 | running one step changes the chain's message, clock, value and closure variables as `StepSpec` says; timers are left pending only when the race is lost |
| Async.AsyncTools.AfterEach | src/async.js:18-50 | no chain: nothing happens; otherwise the hook settles as `Settlement` of the chain against the test's timeout, and in every case the chain is gone, the hook's timeout is restored to the test's, and the poll and race timers are cleared (no timer remains that was not pending before) |
| Async.PollResolvesAtFirstTruthy | src/async.js:81-96 | the first attempt is immediate; the poll resolves with the value of the first truthy attempt, all earlier ones falsy or throwing, every attempt called with the same chained value 100 ms apart; when it resolves nothing, every attempt due before the race timer was falsy and the next one would be due at or after it |
| Async.PollKeepsLastException | src/async.js:83-87 | after polling the message is the "last exception that was caught" text of the latest throwing attempt, or the starting message when no attempt threw |
| Async.PollStoresLastSample | src/async.js:172-175 | the `waitUntilChange` poll keeps the baseline sample and, when it resolves, holds in `newValue` the sample of the truthy attempt |
| Async.RunAppend | src/async.js:78 | steps run in the order they were registered: running `s1 + s2` is running `s1` then `s2` |
| Async.RunHalted | src/async.js:33-41 | once the chain is rejected or has lost the race no further step runs |
| Async.SynchronousStepsNeverTimeOut | src/async.js:26-41 | a chain of steps that set no timer never loses the race, whatever the timeout, and takes no time |
| Async.TimeoutHappensInAWait | src/async.js:119-141 | a chain that loses the race lost it in a started `waitUntil` or `waitMillis` step, after which nothing ran; a `waitMillis` step leaves its own message, so the latest started wait's message is the one reported |
| Async.WaitUntilStepSettles | src/async.js:112-127 | a `waitUntil` step never rejects; it resolves with the first truthy return of the predicate called with the chained value, or loses the race after every attempt due before it was falsy |
| Async.WaitUntilChangeResolvesWithNewSample | src/async.js:164-177 | `waitUntilChange` passes the chained value to every sample and resolves with the first sample `!==` the first one taken, never with that one, every earlier sample having equalled it or thrown; when the race is lost every sample due before it equalled the first or threw; a throwing first sample rejects the chain |
| Async.FourThenZeroChangesOnce | tests/async/waitUntilChange.test.js:5-15 | a value that is 4 and becomes 0 after 10 ms is seen to change on the second attempt, resolving with 0 |
| Async.AndThenWithoutSetupThrows | tests/helpers-test.js:8-12 | `andThen` before `setupAsync` throws the usage error and registers no chain |
| Async.StepsRunInRegistrationOrder | src/async.js:78 | three callbacks appending "0", "1", "2" resolve the chain with "012" |
| Async.WaitUntilPassesItsValueOn | tests/async/waitUntil.test.js:73-79 | `waitUntil(() => 'the value, yo')` hands that value to the next `andThen` |
| Async.WaitUntilPollsUntilTruthy | tests/async/waitUntil.test.js:5-17 | a value that turns true after 200 ms resolves the chain with true |
| Async.WaitUntilChangeSeesNewValue | tests/async/waitUntilChange.test.js:5-15 | the full hook cycle around `waitUntilChange` resolves with the new value 0 |
| Async.TimeoutUsesLazyMessage | tests/async/waitUntil.test.js:31-34 | a function given as message is called when the race timer fires: `() => 13 + 37` fails the test with "50" |
| Async.LazyMessageReportedOnTimeout | src/async.js:53-58 | for every `waitUntil` whose function never returns truthy and never throws, the test fails with `getErrorMessage()` read when the race timer fires: a plain message as given, a function called at that moment |
| Async.GetErrorMessage | src/async.js:53-58 | definition: a function-valued message is called at the given time, any other value is used as it is |
| Async.Delay | src/async.js:141 | definition: the delay `setTimeout` waits, a negative one counting as zero |
| Js.Truthy | src/async.js:89 | definition: `!!v`; undefined, null, false, 0 and "" are falsy, everything else truthy |
| Async.TimeoutReportsLastException | tests/async/waitUntil.test.js:26-29 | a predicate that always throws fails the test with the caught-exception text of that throw |
| Async.WaitMillisTimesOut | src/async.js:136-144 | a `waitMillis` longer than the test's timeout fails the test with the waitMillis message |
| Fetch.FakeFetch.constructor | src/fetch.js:23-24 | nothing set up, `window.fetch` the page's own |
| Fetch.FakeFetch.SetupFakeFetch | src/fetch.js:90-95 | the registry becomes empty, forgetting earlier calls, the current `window.fetch` is saved and a fresh spy installed |
| Fetch.FakeFetch.TeardownFakeFetch | src/fetch.js:101-104 | the saved `window.fetch` is put back and the registry is dropped |
| Fetch.FakeFetch.Fetch | src/fetch.js:26-43 | a call adds one new pending promise at the end of its path's list, registering the path when new, and leaves every other path's list unchanged |
| Fetch.FakeFetch.GetFormattedPathsAwaitingResolution | src/fetch.js:53-61 | the diagnostic is the quoted key once per waiting call, keys in insertion order, joined by ", " |
| Fetch.FakeFetch.ThrowIfNotSetUp | src/fetch.js:63-73 | fails with the set-up message exactly when no registry exists |
| Fetch.FakeFetch.ThrowIfPathIsNotAwaitingResolution | src/fetch.js:75-81 | fails exactly when the path has no waiting call, with the not-found message listing every waiting call |
| Fetch.FakeFetch.FetchRespond | src/fetch.js:118-123 | before set-up or after teardown it throws the set-up message; with no waiting call it throws the not-found message and changes nothing; otherwise it removes and returns the oldest waiting call of that path (FIFO), other paths unchanged |
| Fetch.FakeFetch.ResolveWith | src/fetch.js:125-140 | a non-number status throws and settles nothing; otherwise the promise is fulfilled with that status, `ok` exactly for 200..299, and the body, unless it was already settled |
| Fetch.FakeFetch.RejectWith | src/fetch.js:141-143 | the promise is rejected with the error unless already settled; nothing else changes |
| Fetch.FakeFetch.PathIsAwaitingResolution | src/fetch.js:45-47 | definition: the path is a key of the registry with a non-empty list |
| Fetch.AwaitingIffListed | src/fetch.js:45-81 | a path is awaiting resolution exactly when the diagnostic lists it, so the not-found message never names the missing path among the waiting ones |
| Fetch.QuoteInjective | src/fetch.js:57 | distinct paths get distinct labels in the diagnostic |
| Fetch.LabelsAppend | src/fetch.js:55-59 | the diagnostic lists all the calls of earlier-inserted keys before those of later ones |
| Fetch.LabelsCount | src/fetch.js:53-61 | the diagnostic names each path exactly as many times as it has calls waiting and names no other path |
| Fetch.FetchRespondInOrder | tests/fetch/fetch.test.js:149-155 | after n fetches of a path, n `fetchRespond` calls hand out the calls in fetch order and the next one throws the not-found error with an empty list |
| Fetch.ResolveFulfilsFetch | src/fetch.js:125-140 | `resolveWith(200, body)` fulfils the caller's promise with an ok response carrying the body |
| Js.LowerAscii | src/xhr/stubber.js:93 | lower-casing keeps the length and lower-cases each ASCII letter |
| XhrRequest.Matches | src/xhr/stubber.js:92-97 | definition: the four criteria of `match`, the same in both copies: method equal after lower-casing, url identical, readyState identical, and the request body identical when a truthy one is asked for |
| XhrRequest.WantedState | src/xhr/stubber.js:85-87 | definition: the readyState asked for, 1 when it is `undefined` |
| XhrRequest.RequestList.Push | src/xhr/stubber.js:53 | `push` adds the request as the last element of that array |
| XhrRequest.RequestList.Pop | src/xhr/stubber.js:68 | `pop` removes and returns the last element of that array |
| XhrRequest.FakeRequest.constructor | src/xhr/stubber.js:34-37 | a request made, opened and sent keeps its method, url and body and is OPENED (readyState 1) |
| XhrRequest.FakeRequest.Respond | tests/xhr/xhr.test.js:66-74 | responding sets status, headers and body and moves the request to readyState 4 |
| XhrRequest.FakeRequest.RespondWithJson | src/xhr/stubber.js:38-43 | responds with the status, exactly the header Content-Type: application/json, and the payload |
| XhrStubber.Fakehr.constructor | src/xhr/stubber.js:49-51 | as loaded, no request list exists and the native constructor is installed |
| XhrStubber.Fakehr.AddRequest | src/xhr/stubber.js:52-54 | the request is appended at the end of the array `requests` refers to |
| XhrStubber.Fakehr.NewRequest | src/xhr/stubber.js:34-36 | every constructed request registers itself exactly once, at the end |
| XhrStubber.Fakehr.Start | src/xhr/stubber.js:55-58 | an existing array is kept (the same object), a new empty one created only if absent, and the fake constructor installed |
| XhrStubber.Fakehr.Stop | src/xhr/stubber.js:59-61 | the native constructor is restored, the list kept |
| XhrStubber.Fakehr.Clear | src/xhr/stubber.js:62-70 | the array `requests` refers to is emptied by popping, and `requests` still refers to it, so every holder of that array sees it empty |
| XhrStubber.Fakehr.Reset | src/xhr/stubber.js:71-74 | native constructor restored, and the same array, now empty |
| XhrStubber.ResetEmptiesTheSharedArray | src/xhr/stubber.js:62-74 | a reference to the array taken before `reset` sees it emptied |
| XhrStubber.Fakehr.Match | src/xhr/stubber.js:84-102 | null exactly when no request meets the criteria (method ignoring case, exact url, readyState defaulting to 1, body when a truthy one is given); otherwise a matching request with no later one matching, i.e. the highest-index match |
| LegacyXhrStubber.Fakehr.constructor | src/xhr-stubber.js:18-20 | as loaded, no list and the native constructor |
| LegacyXhrStubber.Fakehr.AddRequest | src/xhr-stubber.js:21-23 | the request is appended at the end |
| LegacyXhrStubber.Fakehr.NewRequest | src/xhr-stubber.js:5-7 | each constructed request registers itself once, at the end |
| LegacyXhrStubber.Fakehr.Start | src/xhr-stubber.js:24-27 | an existing array is kept (the same object), a new empty one created only if absent, and the fake constructor installed |
| LegacyXhrStubber.Fakehr.Stop | src/xhr-stubber.js:28-30 | the native constructor is restored |
| LegacyXhrStubber.Fakehr.Clear | src/xhr-stubber.js:31-39 | the array `requests` refers to is emptied by popping, and `requests` still refers to it |
| LegacyXhrStubber.Fakehr.Reset | src/xhr-stubber.js:40-43 | native constructor restored, and the same array, now empty |
| LegacyXhrStubber.Fakehr.Match | src/xhr-stubber.js:53-67 | the newest request meeting the criteria, or `undefined` (None) exactly when none does |
| Xhr.XhrFaking.constructor | src/xhr/index.js:24 | faking starts off |
| Xhr.XhrFaking.StartFakingXhr | src/xhr/index.js:29-32 | the stubber is started (its list kept) and the flag set |
| Xhr.XhrFaking.StopFakingXhr | src/xhr/index.js:37-45 | fails with its usage message and changes nothing when not faking; otherwise the stubber is reset (the same array emptied, native constructor back) and the flag cleared |
| Xhr.XhrFaking.FindXhr | src/xhr/index.js:53-60 | throws its usage message exactly when not faking; otherwise it is `match(method, url)` with readyState 1: null exactly when no open request has that method and url, else the newest such request |
| Xhr.XhrFaking.CreateErrorMessageForXhr | src/xhr/index.js:87-102 | the diagnostic is the not-found prefix followed by the deduplicated keys of the open requests joined by newlines |
| Xhr.ActiveKeysMembers | src/xhr/index.js:88-94 | a key is listed exactly when some request with readyState 1 is stored under that `method url` key |
| Xhr.DedupMembers | src/xhr/index.js:92-97 | deduplication keeps every key and adds none |
| Xhr.DedupDistinct | src/xhr/index.js:92-97 | each key is listed once |
| Xhr.DedupFirstSeenOrder | src/xhr/index.js:92-97 | keys are listed in order of first appearance |
| Xhr.DiagnosticListsOpenKeys | src/xhr/index.js:87-102 | the listed keys are exactly those of the open requests, each once |
| Xhr.FindAfterStopThrows | tests/xhr/xhr.test.js:12-19 | after start then stop, `findXhr` throws its usage message |
| Xhr.FindSentRequest | tests/xhr/xhr.test.js:27-32 | a request just sent is the one `findXhr` returns |
| Xhr.RespondedRequestIsNotFound | tests/xhr/xhr.test.js:34-41 | once responded to (readyState 4), the request is no longer found: null |

## Left out

- Real promises and timers. The chain is drained as a sequence of steps, and
  time is a millisecond clock. A timer fires exactly after its delay; browser
  clamping of nested timers and timer drift are not modelled. `setTimeout`
  delays above the 32-bit limit are not modelled either.
- The start time of the chain. In the library the chain can start running as
  soon as the test body returns, before the after-hook. The model starts it
  when the race timer starts.
- Async.AsyncTools.AfterEach: after a lost race the library's chain is not
  stopped if a `waitMillis` timer is pending. When the chain settles later,
  its own clean-up nulls the chain of whichever test is running then. The
  model ends the chain at the race.
- The `waitMillis` timer itself is not among the tracked timers, because the
  library never clears it.
- Async.AsyncTools.AndThen: calling the helpers from inside a running step is
  not modelled. Every step is registered before the after-hook starts.
- Callbacks that return promises, and `andThen` given a non-function, are not
  modelled. A callback's result becomes the chained value as it is.
- A lazy error message that itself throws is not modelled.
- Async.WaitUntilStepSettles: a thrown value is modelled as an Error carrying
  a message. The library reads `e.message`. If a predicate throws `null` or
  `undefined`, that read is a TypeError. On the first attempt it rejects the
  chain; on a later attempt it escapes from a timer callback. Neither case is
  modelled. A thrown string yields "…caught: undefined"; that is not
  modelled either.
- Async.PollKeepsLastException: modelled only for thrown Errors, as above.
- Async.WaitUntilChangeResolvesWithNewSample: a sampler is a function of the
  chained value and the time. So the capture and the first poll, made at the
  same instant, give equal samples. Two cases are therefore not modelled:
  - samplers with effects of their own, such as `() => n++`;
  - samplers that return a fresh object per call, such as `() => ({})`.

  The library resolves both on the first poll.
- `waitUntilXhrExists` (src/xhr/index.js:80-85) is not a member of its own. It
  is `waitUntil` polling `findXhr`, with `createErrorMessageForXhr` as its lazy
  message. The model's callbacks are functions of time and value, not of the
  stubber's mutable state, so the composition is not expressed.
- src/fetch-async.js and src/smoke.js are not part of this model. They are thin
  wrappers over `waitUntil`, `fetchRespond` and the real `fetch`.
- src/acceptance.js, src/redux-mock-store-helpers.js and src/index.js are not
  part of this model: DOM events, a foreign library, and re-exports.
- The `statusText` table, `JSON.stringify` of payloads, `sinon.spy` and the
  internals of the fake request library are not modelled. A payload is kept as
  the value given. A spy is an identity.
- Fetch.FakeFetch.Fetch: calling the fake `fetch` after `teardownFakeFetch` is
  a TypeError in the library. The model requires the registry to exist.
- Fetch.FakeFetch.ThrowIfPathIsNotAwaitingResolution: before set-up its
  `path in pathToPromisesMap` is a TypeError in the library. The helper is
  private and `fetchRespond` calls it only after `throwIfNotSetUp`, so the
  model requires the registry to exist.
- XhrStubber.Fakehr.AddRequest, Match, Clear, Reset: before the first `start`,
  the library's list is `undefined` and these throw a TypeError. The model
  requires the list to exist. The legacy copy is treated the same way.
- Xhr.XhrFaking.CreateErrorMessageForXhr: before the first `start` it throws a
  TypeError on `stubber.requests.filter`. The model requires the list to exist.
- JavaScript object quirks are not modelled:
  - prototype keys such as `toString` in `pathToPromisesMap`;
  - integer-like keys being enumerated first.

  Paths are kept in insertion order.
- Numbers are integers: NaN, fractions and -0 are not modelled. A NaN status is
  a number for `resolveWith`; the model cannot express it.
- Full Unicode lower-casing is not modelled. `match` compares methods
  lower-cased on ASCII letters only.
- Reading an unopened request's method in `match` is not modelled: every
  recorded request is opened when it is made.
