/**
 * The asynchronous action chain (src/async.js). Test code registers steps
 * on a single module-level chain; the after-hook drains it while a race
 * timer set to the test's timeout runs, and fails the test with the chain's
 * rejection or, if the timer wins, with the chain's current error message.
 *
 * Time is a clock in milliseconds since the after-hook started. Callbacks are
 * functions of the chained value and of that clock, which is how the state
 * of the page they look at changes over time. A timer due at time `t` fires
 * before the race timer exactly when `t < deadline`: the race timer was
 * started first, so on a tie it wins.
 */
module Async {
  import opened Js

  const POLL_INTERVAL_MILLISECONDS := 100

  const ANDTHEN_WITHOUT_SETUP_MESSAGE :=
    "acast-test-helpers#andThen(): You cannot use andThen() unless you call setupAsync() at the root of the appropriate describe()!"

  const CAUGHT_EXCEPTION_PREFIX :=
    "acast-test-helpers#waitUntil() timed out. This is the last exception that was caught: "

  /** The default `errorMessage` of `waitUntil`; `source` is the text of the polled function. */
  function WaitUntilDefaultMessage(source: string): string {
    "acast-test-helpers#waitUntil() timed out since the following function never returned a truthy value within the timeout: " + source
  }

  /** The default `errorMessage` of `waitUntilChange`. */
  function WaitUntilChangeDefaultMessage(source: string): string {
    "acast-test-helpers#waitUntilChange() timed out since the return value of the following function never changed: " + source
  }

  /** The `errorMessage` a `waitMillis` step installs when it starts. */
  function WaitMillisMessage(milliseconds: int): string {
    "acast-test-helpers#waitMillis() timed out while waiting " + IntToString(milliseconds) + " milliseconds"
  }

  /** A user function: called with the chained value at a time, it returns or throws. */
  type Callback = (JsValue, int) -> Completion

  /** `testPromise.errorMessage`: a value, or a function called when the race timer fires. */
  datatype ErrorMessage = Plain(value: JsValue) | Lazy(evaluate: int -> JsValue)

  /** The message installed when a polled function throws. */
  function Caught(message: string): ErrorMessage {
    Plain(Str(CAUGHT_EXCEPTION_PREFIX + message))
  }

  /** `getErrorMessage()` at time `now`: a function is called, anything else is used as it is. */
  function GetErrorMessage(m: ErrorMessage, now: int): JsValue {
    match m
    case Plain(v) => v
    case Lazy(f) => f(now)
  }

  /**
   * The closure variables `initialValue` and `newValue` of each
   * `waitUntilChange` call, by slot number; an unassigned one is undefined.
   */
  type Slots = map<nat, JsValue>

  function Get(slots: Slots, k: nat): JsValue {
    if k in slots then slots[k] else Undefined
  }

  /**
   * What `resolveWhenPredicateReturnsTruthy` polls: a user function, or the
   * function `waitUntilChange` builds, which stores a fresh sample in
   * `latest` and reports whether it is `!==` the sample in `initial`.
   */
  datatype Predicate =
    | UserPredicate(call: Callback)
    | SampleDiffers(sample: Callback, initial: nat, latest: nat)

  /** The two closure variables of `waitUntilChange` are distinct. */
  predicate WellFormed(p: Predicate) {
    p.SampleDiffers? ==> p.initial != p.latest
  }

  /** One call of the polled function, with the slots it leaves behind. */
  function Evaluate(p: Predicate, chainedValue: JsValue, now: int, slots: Slots): (Completion, Slots) {
    match p
    case UserPredicate(call) => (call(chainedValue, now), slots)
    case SampleDiffers(sample, initial, latest) =>
      match sample(chainedValue, now)
      case Throw(m) => (Throw(m), slots)
      case Return(x) => (Return(Bool(x != Get(slots, initial))), slots[latest := x])
  }

  function Attempt(p: Predicate, chainedValue: JsValue, now: int, slots: Slots): Completion {
    Evaluate(p, chainedValue, now, slots).0
  }

  /** The `k`-th attempt of a poll that starts at `start`. */
  function AttemptAt(p: Predicate, chainedValue: JsValue, start: int, k: nat, slots: Slots): Completion {
    Attempt(p, chainedValue, start + 100 * k, slots)
  }

  /** An attempt that counts as truthy: a throw counts as `false`. */
  predicate Succeeds(c: Completion) {
    c.Return? && Truthy(c.value)
  }

  /**
   * Where polling stops: with the truthy value found, or with none when
   * the race timer is due before the next attempt; `retries` is the number
   * of attempts after the first.
   */
  datatype Polled = Polled(found: Option<JsValue>, retries: nat, message: ErrorMessage, slots: Slots)

  /**
   * `resolveWhenPredicateReturnsTruthy(predicate, resolve, chainedValue)`
   * from time `now`: one attempt at once, and one further attempt a poll
   * interval after each falsy or throwing one.
   */
  function Poll(p: Predicate, chainedValue: JsValue, now: int, deadline: int, message: ErrorMessage, slots: Slots): Polled
    decreases deadline - now
  {
    var (c, after) := Evaluate(p, chainedValue, now, slots);
    var message' := if c.Throw? then Caught(c.message) else message;
    if Succeeds(c) then Polled(Some(c.value), 0, message', after)
    else if now + POLL_INTERVAL_MILLISECONDS < deadline then
      var r := Poll(p, chainedValue, now + POLL_INTERVAL_MILLISECONDS, deadline, message', after);
      r.(retries := r.retries + 1)
    else Polled(None, 0, message', after)
  }

  /** A call of a slot-writing function leaves the baseline sample alone. */
  lemma EvaluateKeepsBaseline(p: Predicate, chainedValue: JsValue, now: int, slots: Slots)
    requires WellFormed(p) && p.SampleDiffers?
    ensures Get(Evaluate(p, chainedValue, now, slots).1, p.initial) == Get(slots, p.initial)
  {
  }

  /** Attempts depend on the slots only through the baseline sample. */
  lemma AttemptFrame(p: Predicate, chainedValue: JsValue, now: int, s1: Slots, s2: Slots)
    requires p.SampleDiffers? ==> Get(s1, p.initial) == Get(s2, p.initial)
    ensures Attempt(p, chainedValue, now, s1) == Attempt(p, chainedValue, now, s2)
  {
  }

  /** The attempts of a retry, due at `next`, are the later attempts of the poll it continues. */
  lemma ShiftAttempts(p: Predicate, chainedValue: JsValue, now: int, next: int, slots: Slots)
    requires WellFormed(p) && next == now + 100
    ensures forall k: nat ::
              AttemptAt(p, chainedValue, next, k, Evaluate(p, chainedValue, now, slots).1)
                == AttemptAt(p, chainedValue, now, k + 1, slots)
  {
    var after := Evaluate(p, chainedValue, now, slots).1;
    if p.SampleDiffers? {
      EvaluateKeepsBaseline(p, chainedValue, now, slots);
    }
    forall k: nat
      ensures AttemptAt(p, chainedValue, next, k, after) == AttemptAt(p, chainedValue, now, k + 1, slots)
    {
      AttemptFrame(p, chainedValue, next + 100 * k, after, slots);
    }
  }

  /**
   * Polling resolves with the value of the first truthy attempt, every
   * attempt receiving the same chained value. When the race timer wins,
   * every attempt due before it was falsy; the first attempt is made at
   * once whatever the deadline.
   */
  lemma {:induction false} PollResolvesAtFirstTruthy(p: Predicate, chainedValue: JsValue, now: int, deadline: int, message: ErrorMessage, slots: Slots)
    requires WellFormed(p)
    ensures var r := Poll(p, chainedValue, now, deadline, message, slots);
      && (r.retries == 0 || now + 100 * r.retries < deadline)
      && (r.found.Some? ==>
            && AttemptAt(p, chainedValue, now, r.retries, slots) == Return(r.found.value)
            && Truthy(r.found.value)
            && forall k: nat :: k < r.retries ==> !Succeeds(AttemptAt(p, chainedValue, now, k, slots)))
      && (r.found.None? ==>
            && now + 100 * (r.retries + 1) >= deadline
            && forall k: nat :: (k == 0 || now + 100 * k < deadline) ==> !Succeeds(AttemptAt(p, chainedValue, now, k, slots)))
    decreases deadline - now
  {
    var next := now + 100;
    var (c, after) := Evaluate(p, chainedValue, now, slots);
    var message' := if c.Throw? then Caught(c.message) else message;
    assert AttemptAt(p, chainedValue, now, 0, slots) == c;
    if !Succeeds(c) && next < deadline {
      PollResolvesAtFirstTruthy(p, chainedValue, next, deadline, message', after);
      ShiftAttempts(p, chainedValue, now, next, slots);
      var r' := Poll(p, chainedValue, next, deadline, message', after);
      var r := Poll(p, chainedValue, now, deadline, message, slots);
      assert r == r'.(retries := r'.retries + 1);
      if r.found.Some? {
        assert AttemptAt(p, chainedValue, next, r'.retries, after) == AttemptAt(p, chainedValue, now, r.retries, slots);
        forall k: nat | k < r.retries
          ensures !Succeeds(AttemptAt(p, chainedValue, now, k, slots))
        {
          if k > 0 {
            assert AttemptAt(p, chainedValue, next, k - 1, after) == AttemptAt(p, chainedValue, now, k, slots);
          }
        }
      } else {
        forall k: nat | k == 0 || now + 100 * k < deadline
          ensures !Succeeds(AttemptAt(p, chainedValue, now, k, slots))
        {
          if k > 0 {
            assert AttemptAt(p, chainedValue, next, k - 1, after) == AttemptAt(p, chainedValue, now, k, slots);
          }
        }
      }
    }
  }

  /**
   * The function `waitUntilChange` polls resolves only after storing, in
   * `latest`, the sample taken on its truthy attempt; the baseline is kept.
   */
  lemma {:induction false} PollStoresLastSample(sample: Callback, initial: nat, latest: nat, chainedValue: JsValue, now: int, deadline: int, message: ErrorMessage, slots: Slots)
    requires initial != latest
    ensures var r := Poll(SampleDiffers(sample, initial, latest), chainedValue, now, deadline, message, slots);
      && Get(r.slots, initial) == Get(slots, initial)
      && (r.found.Some? ==> sample(chainedValue, now + 100 * r.retries) == Return(Get(r.slots, latest)))
    decreases deadline - now
  {
    var p := SampleDiffers(sample, initial, latest);
    var (c, after) := Evaluate(p, chainedValue, now, slots);
    var message' := if c.Throw? then Caught(c.message) else message;
    if !Succeeds(c) && now + 100 < deadline {
      PollStoresLastSample(sample, initial, latest, chainedValue, now + 100, deadline, message', after);
    }
  }

  /**
   * The error message polling leaves: the last caught exception's, when an
   * attempt threw, and otherwise the message it started with.
   */
  lemma {:induction false} PollKeepsLastException(p: Predicate, chainedValue: JsValue, now: int, deadline: int, message: ErrorMessage, slots: Slots)
    requires WellFormed(p)
    ensures var r := Poll(p, chainedValue, now, deadline, message, slots);
      && ((forall k: nat :: k <= r.retries ==> !AttemptAt(p, chainedValue, now, k, slots).Throw?) ==> r.message == message)
      && (forall k: nat :: k <= r.retries && AttemptAt(p, chainedValue, now, k, slots).Throw?
            && (forall j: nat :: k < j <= r.retries ==> !AttemptAt(p, chainedValue, now, j, slots).Throw?)
            ==> r.message == Caught(AttemptAt(p, chainedValue, now, k, slots).message))
    decreases deadline - now
  {
    var next := now + 100;
    var (c, after) := Evaluate(p, chainedValue, now, slots);
    var message' := if c.Throw? then Caught(c.message) else message;
    assert AttemptAt(p, chainedValue, now, 0, slots) == c;
    if !Succeeds(c) && next < deadline {
      PollKeepsLastException(p, chainedValue, next, deadline, message', after);
      ShiftAttempts(p, chainedValue, now, next, slots);
      var r' := Poll(p, chainedValue, next, deadline, message', after);
      var r := Poll(p, chainedValue, now, deadline, message, slots);
      assert r == r'.(retries := r'.retries + 1);
      if forall k: nat :: k <= r.retries ==> !AttemptAt(p, chainedValue, now, k, slots).Throw? {
        forall j: nat | j <= r'.retries
          ensures !AttemptAt(p, chainedValue, next, j, after).Throw?
        {
          assert AttemptAt(p, chainedValue, next, j, after) == AttemptAt(p, chainedValue, now, j + 1, slots);
        }
      }
      forall k: nat | k <= r.retries && AttemptAt(p, chainedValue, now, k, slots).Throw?
          && (forall j: nat :: k < j <= r.retries ==> !AttemptAt(p, chainedValue, now, j, slots).Throw?)
        ensures r.message == Caught(AttemptAt(p, chainedValue, now, k, slots).message)
      {
        if k == 0 {
          forall j: nat | j <= r'.retries
            ensures !AttemptAt(p, chainedValue, next, j, after).Throw?
          {
            assert AttemptAt(p, chainedValue, next, j, after) == AttemptAt(p, chainedValue, now, j + 1, slots);
          }
        } else {
          assert AttemptAt(p, chainedValue, next, k - 1, after) == AttemptAt(p, chainedValue, now, k, slots);
          forall j: nat | k - 1 < j <= r'.retries
            ensures !AttemptAt(p, chainedValue, next, j, after).Throw?
          {
            assert AttemptAt(p, chainedValue, next, j, after) == AttemptAt(p, chainedValue, now, j + 1, slots);
          }
        }
      }
    }
  }

  /**
   * One registered step, as the callback `andThen` receives: a user
   * callback, the polling of `waitUntil`, the timer of `waitMillis`, or one
   * of the two plain callbacks `waitUntilChange` adds around its poll.
   */
  datatype Step =
    | Then(action: Callback)
    | AwaitTruthy(condition: Predicate, message: ErrorMessage)
    | Sleep(milliseconds: int)
    | CaptureSample(sample: Callback, into: nat)
    | ReadSample(from: nat)

  /** The steps `waitUntilChange` registers, with its closure variables in two slots. */
  function ChangeSteps(sample: Callback, message: ErrorMessage, initial: nat, latest: nat): seq<Step> {
    [CaptureSample(sample, initial), AwaitTruthy(SampleDiffers(sample, initial, latest), message), ReadSample(latest)]
  }

  /** `testPromise`: its registered steps and the two properties the helpers set on it. */
  datatype Chain = Chain(steps: seq<Step>, errorMessage: ErrorMessage, timeoutHandle: Option<nat>)

  datatype Status = Running | Failed(reason: string) | TimedOut

  /** The chain while it is drained: status, chained value, clock, error message and closure variables. */
  datatype Exec = Exec(status: Status, value: JsValue, now: int, message: ErrorMessage, slots: Slots)

  /** `setTimeout` treats a negative delay as zero. */
  function Delay(milliseconds: int): nat {
    if milliseconds < 0 then 0 else milliseconds
  }

  /** One step against the race timer due at `deadline`; a settled chain skips every step. */
  function StepSpec(step: Step, e: Exec, deadline: int): Exec {
    if !e.status.Running? then e
    else match step
      case Then(action) =>
        (match action(e.value, e.now)
         case Return(x) => e.(value := x)
         case Throw(m) => e.(status := Failed(m)))
      case CaptureSample(sample, into) =>
        (match sample(e.value, e.now)
         case Return(x) => e.(slots := e.slots[into := x])
         case Throw(m) => e.(status := Failed(m)))
      case ReadSample(from) => e.(value := Get(e.slots, from))
      case Sleep(milliseconds) =>
        var message := Plain(Str(WaitMillisMessage(milliseconds)));
        if e.now + Delay(milliseconds) < deadline then
          e.(value := Undefined, now := e.now + Delay(milliseconds), message := message)
        else e.(status := TimedOut, message := message)
      case AwaitTruthy(p, message) =>
        var r := Poll(p, e.value, e.now, deadline, message, e.slots);
        var now := e.now + 100 * r.retries;
        match r.found
        case Some(x) => Exec(Running, x, now, r.message, r.slots)
        case None => Exec(TimedOut, e.value, now, r.message, r.slots)
  }

  /** The steps, in order. */
  function Run(steps: seq<Step>, e: Exec, deadline: int): Exec {
    if steps == [] then e
    else StepSpec(steps[|steps| - 1], Run(steps[..|steps| - 1], e, deadline), deadline)
  }

  /** Running two lists of steps one after the other is running them joined. */
  lemma {:induction false} RunAppend(s1: seq<Step>, s2: seq<Step>, e: Exec, deadline: int)
    ensures Run(s1 + s2, e, deadline) == Run(s2, Run(s1, e, deadline), deadline)
  {
    if s2 == [] {
      assert s1 + s2 == s1;
    } else {
      var all := s1 + s2;
      assert all[..|all| - 1] == s1 + s2[..|s2| - 1];
      assert all[|all| - 1] == s2[|s2| - 1];
      RunAppend(s1, s2[..|s2| - 1], e, deadline);
    }
  }

  /** Once the chain is rejected or the race is lost, no further step runs. */
  lemma {:induction false} RunHalted(steps: seq<Step>, e: Exec, deadline: int)
    requires !e.status.Running?
    ensures Run(steps, e, deadline) == e
  {
    if steps != [] {
      RunHalted(steps[..|steps| - 1], e, deadline);
    }
  }

  /** A step registered last runs last. */
  lemma RunStep(steps: seq<Step>, step: Step, e: Exec, deadline: int)
    ensures Run(steps + [step], e, deadline) == StepSpec(step, Run(steps, e, deadline), deadline)
  {
    assert (steps + [step])[..|steps|] == steps;
  }

  /** A step that sets no timer. */
  predicate Synchronous(step: Step) {
    step.Then? || step.CaptureSample? || step.ReadSample?
  }

  /** A chain whose steps set no timer never loses the race and takes no time. */
  lemma {:induction false} SynchronousStepsNeverTimeOut(steps: seq<Step>, e: Exec, deadline: int)
    requires !e.status.TimedOut?
    requires forall i :: 0 <= i < |steps| ==> Synchronous(steps[i])
    ensures !Run(steps, e, deadline).status.TimedOut?
    ensures Run(steps, e, deadline).now == e.now
  {
    if steps != [] {
      SynchronousStepsNeverTimeOut(steps[..|steps| - 1], e, deadline);
    }
  }

  /**
   * A chain that loses the race lost it in a `waitUntil` or `waitMillis`
   * step that had started; nothing after that step ran, and a `waitMillis`
   * step leaves its own message in place.
   */
  lemma {:induction false} TimeoutHappensInAWait(steps: seq<Step>, e: Exec, deadline: int)
    requires e.status.Running?
    requires Run(steps, e, deadline).status.TimedOut?
    ensures exists i :: 0 <= i < |steps|
              && (steps[i].AwaitTruthy? || steps[i].Sleep?)
              && Run(steps[..i], e, deadline).status.Running?
              && Run(steps, e, deadline) == StepSpec(steps[i], Run(steps[..i], e, deadline), deadline)
              && (steps[i].Sleep? ==> Run(steps, e, deadline).message == Plain(Str(WaitMillisMessage(steps[i].milliseconds))))
  {
    var n := |steps| - 1;
    var before := Run(steps[..n], e, deadline);
    if before.status.Running? {
      assert steps[..n + 1] == steps;
    } else {
      TimeoutHappensInAWait(steps[..n], e, deadline);
      var i :| 0 <= i < n
                && (steps[..n][i].AwaitTruthy? || steps[..n][i].Sleep?)
                && Run(steps[..n][..i], e, deadline).status.Running?
                && Run(steps[..n], e, deadline) == StepSpec(steps[..n][i], Run(steps[..n][..i], e, deadline), deadline)
                && (steps[..n][i].Sleep? ==> Run(steps[..n], e, deadline).message == Plain(Str(WaitMillisMessage(steps[..n][i].milliseconds))));
      assert steps[..n][..i] == steps[..i] && steps[..n][i] == steps[i];
    }
  }

  /**
   * A `waitUntil` step resolves with the first truthy return of its
   * function, called with the chained value at each attempt, or loses the
   * race after every attempt due before it was falsy; a throwing function
   * never rejects the chain.
   */
  lemma WaitUntilStepSettles(f: Callback, message: ErrorMessage, e: Exec, deadline: int)
    requires e.status.Running?
    ensures var e' := StepSpec(AwaitTruthy(UserPredicate(f), message), e, deadline);
      && (e'.status.Running? || e'.status.TimedOut?)
      && (e'.status.Running? ==>
            exists n: nat :: e'.now == e.now + 100 * n
              && f(e.value, e'.now) == Return(e'.value) && Truthy(e'.value)
              && forall k: nat :: k < n ==> !Succeeds(AttemptAt(UserPredicate(f), e.value, e.now, k, e.slots)))
      && (e'.status.TimedOut? ==>
            forall k: nat :: (k == 0 || e.now + 100 * k < deadline) ==> !Succeeds(AttemptAt(UserPredicate(f), e.value, e.now, k, e.slots)))
  {
    var p := UserPredicate(f);
    PollResolvesAtFirstTruthy(p, e.value, e.now, deadline, message, e.slots);
    var r := Poll(p, e.value, e.now, deadline, message, e.slots);
    if r.found.Some? {
      assert AttemptAt(p, e.value, e.now, r.retries, e.slots) == f(e.value, e.now + 100 * r.retries);
    }
  }

  /**
   * `waitUntilChange`: the chained value is passed to every sample; the
   * steps resolve with the first sample that is `!==` the one taken first,
   * never with that one, and every sample polled before it threw or equalled
   * the first; when the race is lost, every sample due before it threw or
   * equalled the first. A throwing first sample rejects the chain.
   */
  lemma WaitUntilChangeResolvesWithNewSample(sample: Callback, message: ErrorMessage, initial: nat, latest: nat, e: Exec, deadline: int)
    requires initial != latest && e.status.Running?
    ensures var e' := Run(ChangeSteps(sample, message, initial, latest), e, deadline);
      match sample(e.value, e.now)
      case Throw(m) => e'.status == Failed(m)
      case Return(baseline) =>
        && (e'.status.Running? || e'.status.TimedOut?)
        && (e'.status.Running? ==>
              exists n: nat :: e'.now == e.now + 100 * n
                && sample(e.value, e'.now) == Return(e'.value)
                && e'.value != baseline
                && forall k: nat :: k < n ==> SampleAt(sample, e.value, e.now, k) == Return(baseline) || SampleAt(sample, e.value, e.now, k).Throw?)
        && (e'.status.TimedOut? ==>
              forall k: nat :: (k == 0 || e.now + 100 * k < deadline) ==>
                SampleAt(sample, e.value, e.now, k) == Return(baseline) || SampleAt(sample, e.value, e.now, k).Throw?)
  {
    var steps := ChangeSteps(sample, message, initial, latest);
    assert steps[..2][..1] == steps[..1] && steps[..1][..0] == [] && steps[..3] == steps;
    match sample(e.value, e.now)
    case Throw(m) => {
      assert Run(steps[..1], e, deadline) == StepSpec(steps[0], e, deadline);
      assert steps == steps[..1] + steps[1..];
      RunAppend(steps[..1], steps[1..], e, deadline);
      RunHalted(steps[1..], StepSpec(steps[0], e, deadline), deadline);
    }
    case Return(baseline) => {
      var p := SampleDiffers(sample, initial, latest);
      var e1 := e.(slots := e.slots[initial := baseline]);
      assert Run(steps[..1], e, deadline) == e1;
      PollResolvesAtFirstTruthy(p, e.value, e.now, deadline, message, e1.slots);
      PollStoresLastSample(sample, initial, latest, e.value, e.now, deadline, message, e1.slots);
      var r := Poll(p, e.value, e.now, deadline, message, e1.slots);
      var e' := Run(steps, e, deadline);
      if r.found.Some? {
        var n := r.retries;
        forall k: nat | k < n
          ensures SampleAt(sample, e.value, e.now, k) == Return(baseline) || SampleAt(sample, e.value, e.now, k).Throw?
        {
          assert !Succeeds(AttemptAt(p, e.value, e.now, k, e1.slots));
        }
        assert AttemptAt(p, e.value, e.now, n, e1.slots) == Return(Bool(true));
      } else {
        forall k: nat | k == 0 || e.now + 100 * k < deadline
          ensures SampleAt(sample, e.value, e.now, k) == Return(baseline) || SampleAt(sample, e.value, e.now, k).Throw?
        {
          assert !Succeeds(AttemptAt(p, e.value, e.now, k, e1.slots));
        }
      }
    }
  }

  /** The `k`-th sample of a `waitUntilChange` poll that starts at `start`. */
  function SampleAt(sample: Callback, chainedValue: JsValue, start: int, k: nat): Completion {
    sample(chainedValue, start + 100 * k)
  }

  /** How the after-hook ends: nothing to do, the chain's value, or a failure with a message. */
  datatype HookResult = Done | Resolved(value: JsValue) | Rejected(reason: string)

  /**
   * The settlement of a chain drained against a race timer of `deadline`
   * milliseconds: its value, its rejection, or `new Error(getErrorMessage())`.
   */
  function Settlement(chain: Chain, deadline: int, slots: Slots): HookResult {
    var e := Run(chain.steps, Exec(Running, Undefined, 0, chain.errorMessage, slots), deadline);
    match e.status
    case Running => Resolved(e.value)
    case Failed(m) => Rejected(m)
    case TimedOut => Rejected(ErrorText(GetErrorMessage(e.message, deadline)))
  }

  /**
   * A `waitUntil` whose function never returns a truthy value and never
   * throws fails the test with its message as read when the race timer
   * fires: a function given as message is called then, at the deadline.
   */
  lemma LazyMessageReportedOnTimeout(f: Callback, message: ErrorMessage, deadline: int, slots: Slots)
    requires forall v, t :: f(v, t).Return? && !Truthy(f(v, t).value)
    ensures Settlement(Chain([AwaitTruthy(UserPredicate(f), message)], Plain(Undefined), None), deadline, slots)
            == Rejected(ErrorText(GetErrorMessage(message, deadline)))
  {
    var p := UserPredicate(f);
    var steps := [AwaitTruthy(p, message)];
    var e := Exec(Running, Undefined, 0, Plain(Undefined), slots);
    assert steps[..0] == [];
    assert Run(steps, e, deadline) == StepSpec(steps[0], e, deadline);
    PollResolvesAtFirstTruthy(p, Undefined, 0, deadline, message, slots);
    PollKeepsLastException(p, Undefined, 0, deadline, message, slots);
    var r := Poll(p, Undefined, 0, deadline, message, slots);
    assert !Succeeds(AttemptAt(p, Undefined, 0, r.retries, slots));
    forall k: nat | k <= r.retries
      ensures !AttemptAt(p, Undefined, 0, k, slots).Throw?
    {
      assert AttemptAt(p, Undefined, 0, k, slots) == f(Undefined, 100 * k);
    }
  }

  function HandleSet(handle: Option<nat>): set<nat> {
    if handle.Some? then {handle.value} else {}
  }

  /**
   * The module's state and the test runner's: `testPromise`, the current
   * test's and the after-hook's mocha timeouts, the timers pending, and the
   * closure variables of the `waitUntilChange` calls made so far.
   */
  class AsyncTools {
    var testPromise: Option<Chain>
    var testTimeout: int
    var hookTimeout: int
    var activeTimers: set<nat>
    var nextTimer: nat
    var slots: Slots
    var nextSlot: nat

    /** Every pending timer has a handle already given out. */
    ghost predicate Valid()
      reads this
    {
      forall h :: h in activeTimers ==> h < nextTimer
    }

    /** Everything but the chain. */
    ghost function Surroundings(): (int, int, set<nat>, nat, Slots, nat)
      reads this
    {
      (testTimeout, hookTimeout, activeTimers, nextTimer, slots, nextSlot)
    }

    /** The module as loaded, in a runner whose test and hook timeouts are given. */
    constructor (testTimeout: int, hookTimeout: int)
      ensures Valid() && testPromise.None? && activeTimers == {} && slots == map[] && nextSlot == 0
      ensures this.testTimeout == testTimeout && this.hookTimeout == hookTimeout
    {
      testPromise := None;
      this.testTimeout := testTimeout;
      this.hookTimeout := hookTimeout;
      activeTimers := {};
      nextTimer := 0;
      slots := map[];
      nextSlot := 0;
    }

    /** The before-hook of `setupAsync`: an empty resolved chain, unless one exists. */
    method BeforeEach()
      modifies this
      ensures old(testPromise).Some? ==> testPromise == old(testPromise)
      ensures old(testPromise).None? ==> testPromise == Some(Chain([], Plain(Undefined), None))
      ensures Surroundings() == old(Surroundings())
    {
      if testPromise.Some? {
        return;
      }
      testPromise := Some(Chain([], Plain(Undefined), None));
    }

    /**
     * `andThen` with the callback a helper builds: throws when there is no
     * chain; otherwise the chain becomes `testPromise.then(callback)`, a new
     * promise carrying neither error message nor timeout handle. Nothing runs.
     */
    method AndThenStep(step: Step) returns (o: Outcome)
      modifies this
      ensures old(testPromise).None? ==> o == Fail(ANDTHEN_WITHOUT_SETUP_MESSAGE) && testPromise.None?
      ensures old(testPromise).Some? ==>
                o == Pass && testPromise == Some(Chain(old(testPromise).value.steps + [step], Plain(Undefined), None))
      ensures Surroundings() == old(Surroundings())
    {
      if testPromise.None? {
        return Fail(ANDTHEN_WITHOUT_SETUP_MESSAGE);
      }
      testPromise := Some(Chain(testPromise.value.steps + [step], Plain(Undefined), None));
      return Pass;
    }

    /** `andThen(doThis)`. */
    method AndThen(doThis: Callback) returns (o: Outcome)
      modifies this
      ensures old(testPromise).None? ==> o == Fail(ANDTHEN_WITHOUT_SETUP_MESSAGE) && testPromise.None?
      ensures old(testPromise).Some? ==>
                o == Pass && testPromise == Some(Chain(old(testPromise).value.steps + [Then(doThis)], Plain(Undefined), None))
      ensures Surroundings() == old(Surroundings())
    {
      o := AndThenStep(Then(doThis));
    }

    /** `waitUntil(thisReturnsTruthy, errorMessage)`; `None` is an omitted or `undefined` message. */
    method WaitUntil(thisReturnsTruthy: Callback, errorMessage: Option<ErrorMessage>, source: string) returns (o: Outcome)
      modifies this
      ensures old(testPromise).None? ==> o == Fail(ANDTHEN_WITHOUT_SETUP_MESSAGE) && testPromise.None?
      ensures old(testPromise).Some? ==>
                var step := AwaitTruthy(UserPredicate(thisReturnsTruthy), errorMessage.GetOr(Plain(Str(WaitUntilDefaultMessage(source)))));
                o == Pass && testPromise == Some(Chain(old(testPromise).value.steps + [step], Plain(Undefined), None))
      ensures Surroundings() == old(Surroundings())
    {
      var message := errorMessage.GetOr(Plain(Str(WaitUntilDefaultMessage(source))));
      o := AndThenStep(AwaitTruthy(UserPredicate(thisReturnsTruthy), message));
    }

    /** `waitMillis(milliseconds)`. */
    method WaitMillis(milliseconds: int) returns (o: Outcome)
      modifies this
      ensures old(testPromise).None? ==> o == Fail(ANDTHEN_WITHOUT_SETUP_MESSAGE) && testPromise.None?
      ensures old(testPromise).Some? ==>
                o == Pass && testPromise == Some(Chain(old(testPromise).value.steps + [Sleep(milliseconds)], Plain(Undefined), None))
      ensures Surroundings() == old(Surroundings())
    {
      o := AndThenStep(Sleep(milliseconds));
    }

    /**
     * `waitUntilChange(predicate, errorMessage)`: two fresh closure
     * variables, then three steps; the first `andThen` that throws ends it.
     */
    method WaitUntilChange(sampler: Callback, errorMessage: Option<ErrorMessage>, source: string) returns (o: Outcome)
      modifies this
      ensures old(testPromise).None? ==> o == Fail(ANDTHEN_WITHOUT_SETUP_MESSAGE) && testPromise.None?
      ensures old(testPromise).Some? ==>
                var steps := ChangeSteps(sampler, errorMessage.GetOr(Plain(Str(WaitUntilChangeDefaultMessage(source)))), old(nextSlot), old(nextSlot) + 1);
                o == Pass && testPromise == Some(Chain(old(testPromise).value.steps + steps, Plain(Undefined), None))
      ensures nextSlot == old(nextSlot) + 2
      ensures testTimeout == old(testTimeout) && hookTimeout == old(hookTimeout) && slots == old(slots)
      ensures activeTimers == old(activeTimers) && nextTimer == old(nextTimer)
    {
      var initial := nextSlot;
      var latest := nextSlot + 1;
      nextSlot := nextSlot + 2;
      var message := errorMessage.GetOr(Plain(Str(WaitUntilChangeDefaultMessage(source))));
      o := AndThenStep(CaptureSample(sampler, initial));
      if o.Fail? {
        return;
      }
      o := AndThenStep(AwaitTruthy(SampleDiffers(sampler, initial, latest), message));
      o := AndThenStep(ReadSample(latest));
      ghost var added := ChangeSteps(sampler, message, initial, latest);
      assert old(testPromise).value.steps + [added[0]] + [added[1]] + [added[2]] == old(testPromise).value.steps + added;
    }

    /**
     * `resolveWhenPredicateReturnsTruthy`, from time `start` with the race
     * timer due at `deadline`: each falsy or throwing attempt starts one poll
     * timer and records its handle on the chain; a throw also replaces the
     * chain's error message. Polling stops at the first truthy value, or
     * when the race timer is due first, leaving that last poll timer pending.
     */
    method ResolveWhenPredicateReturnsTruthy(p: Predicate, chainedValue: JsValue, start: int, deadline: int)
      returns (found: Option<JsValue>, retries: nat)
      requires Valid() && testPromise.Some?
      modifies this
      ensures Valid() && testPromise.Some? && testPromise.value.steps == old(testPromise.value.steps)
      ensures Poll(p, chainedValue, start, deadline, old(testPromise.value.errorMessage), old(slots))
                == Polled(found, retries, testPromise.value.errorMessage, slots)
      ensures found.Some? ==> activeTimers == old(activeTimers)
      ensures found.None? ==>
                testPromise.value.timeoutHandle.Some?
                && activeTimers == old(activeTimers) + {testPromise.value.timeoutHandle.value}
      ensures testTimeout == old(testTimeout) && hookTimeout == old(hookTimeout) && nextSlot == old(nextSlot)
    {
      ghost var total := Poll(p, chainedValue, start, deadline, testPromise.value.errorMessage, slots);
      var now := start;
      retries := 0;
      while true
        invariant Valid() && testPromise.Some? && testPromise.value.steps == old(testPromise.value.steps)
        invariant now == start + 100 * retries
        invariant activeTimers == old(activeTimers)
        invariant testTimeout == old(testTimeout) && hookTimeout == old(hookTimeout) && nextSlot == old(nextSlot)
        invariant var r := Poll(p, chainedValue, now, deadline, testPromise.value.errorMessage, slots);
                  total == r.(retries := r.retries + retries)
        decreases deadline - now
      {
        var evaluated := Evaluate(p, chainedValue, now, slots);
        var c := evaluated.0;
        slots := evaluated.1;
        var returnValue: JsValue;
        if c.Throw? {
          testPromise := Some(testPromise.value.(errorMessage := Caught(c.message)));
          returnValue := Bool(false);
        } else {
          returnValue := c.value;
        }
        if Truthy(returnValue) {
          return Some(returnValue), retries;
        }
        var handle := nextTimer;
        nextTimer := nextTimer + 1;
        activeTimers := activeTimers + {handle};
        testPromise := Some(testPromise.value.(timeoutHandle := Some(handle)));
        if now + POLL_INTERVAL_MILLISECONDS >= deadline {
          // the race timer fires before this poll timer
          return None, retries;
        }
        activeTimers := activeTimers - {handle};
        now := now + POLL_INTERVAL_MILLISECONDS;
        retries := retries + 1;
      }
    }

    /** Runs one step while the chain is still running, at time `now` with the chained `value`. */
    method ExecuteStep(step: Step, deadline: int, value: JsValue, now: int)
      returns (status': Status, value': JsValue, now': int)
      requires Valid() && testPromise.Some?
      modifies this
      ensures Valid() && testPromise.Some? && testPromise.value.steps == old(testPromise.value.steps)
      ensures Exec(status', value', now', testPromise.value.errorMessage, slots)
                == StepSpec(step, Exec(Running, value, now, old(testPromise.value.errorMessage), old(slots)), deadline)
      ensures !status'.TimedOut? ==> activeTimers == old(activeTimers)
      ensures status'.TimedOut? ==> activeTimers <= old(activeTimers) + HandleSet(testPromise.value.timeoutHandle)
      ensures testTimeout == old(testTimeout) && hookTimeout == old(hookTimeout) && nextSlot == old(nextSlot)
    {
      match step
      case Then(action) =>
        var c := action(value, now);
        if c.Throw? {
          return Failed(c.message), value, now;
        }
        return Running, c.value, now;
      case CaptureSample(sample, into) =>
        var c := sample(value, now);
        if c.Throw? {
          return Failed(c.message), value, now;
        }
        slots := slots[into := c.value];
        return Running, value, now;
      case ReadSample(from) =>
        return Running, Get(slots, from), now;
      case Sleep(milliseconds) =>
        testPromise := Some(testPromise.value.(errorMessage := Plain(Str(WaitMillisMessage(milliseconds)))));
        if now + Delay(milliseconds) < deadline {
          return Running, Undefined, now + Delay(milliseconds);
        }
        return TimedOut, value, now;
      case AwaitTruthy(p, message) =>
        testPromise := Some(testPromise.value.(errorMessage := message));
        var found, retries := ResolveWhenPredicateReturnsTruthy(p, value, now, deadline);
        if found.Some? {
          return Running, found.value, now + 100 * retries;
        }
        return TimedOut, value, now + 100 * retries;
    }

    /**
     * The after-hook of `setupAsync`: nothing without a chain; otherwise it
     * takes over the test's timeout (disabling its own), drains the chain
     * against a race timer, and on every outcome cleans up: the chain's poll
     * timer and the race timer cleared, the chain gone, its own timeout back.
     */
    method AfterEach() returns (result: HookResult)
      requires Valid()
      modifies this
      ensures Valid()
      ensures old(testPromise).None? ==> result == Done && Surroundings() == old(Surroundings()) && testPromise.None?
      ensures old(testPromise).Some? ==>
                && result == Settlement(old(testPromise).value, old(testTimeout), old(slots))
                && testPromise.None?
                && hookTimeout == old(testTimeout) && testTimeout == old(testTimeout)
                && activeTimers <= old(activeTimers)
    {
      if testPromise.None? {
        return Done;
      }
      var deadline := testTimeout;
      hookTimeout := 0;
      var race := nextTimer;
      nextTimer := nextTimer + 1;
      activeTimers := activeTimers + {race};
      var steps := testPromise.value.steps;
      ghost var start := Exec(Running, Undefined, 0, testPromise.value.errorMessage, slots);
      var status := Running;
      var value := Undefined;
      var now := 0;
      var i := 0;
      while i < |steps| && status.Running?
        invariant 0 <= i <= |steps|
        invariant Valid() && testPromise.Some? && testPromise.value.steps == steps
        invariant Exec(status, value, now, testPromise.value.errorMessage, slots) == Run(steps[..i], start, deadline)
        invariant status.Running? ==> activeTimers == old(activeTimers) + {race}
        invariant !status.Running? ==> activeTimers <= old(activeTimers) + {race} + HandleSet(testPromise.value.timeoutHandle)
        invariant testTimeout == deadline && race !in old(activeTimers)
      {
        status, value, now := ExecuteStep(steps[i], deadline, value, now);
        assert steps[..i + 1][..i] == steps[..i];
        i := i + 1;
      }
      assert steps == steps[..i] + steps[i..];
      RunAppend(steps[..i], steps[i..], start, deadline);
      if !status.Running? {
        RunHalted(steps[i..], Run(steps[..i], start, deadline), deadline);
      } else {
        assert steps[i..] == [];
      }
      var errorText := "";
      if status.TimedOut? {
        errorText := ErrorText(GetErrorMessage(testPromise.value.errorMessage, deadline));
      }
      // cleanUp
      var handle := testPromise.value.timeoutHandle;
      if handle.Some? {
        activeTimers := activeTimers - {handle.value};
      }
      testPromise := None;
      activeTimers := activeTimers - {race};
      hookTimeout := deadline;
      match status
      case Running => result := Resolved(value);
      case Failed(m) => result := Rejected(m);
      case TimedOut => result := Rejected(errorText);
    }
  }

  /** Without `setupAsync`, `andThen` throws its usage error and registers nothing. */
  method AndThenWithoutSetupThrows() returns (o: Outcome, chain: Option<Chain>)
    ensures o == Fail(ANDTHEN_WITHOUT_SETUP_MESSAGE) && chain.None?
  {
    var tools := new AsyncTools(2000, 2000);
    o := tools.AndThen((v: JsValue, now: int) => Return(Undefined));
    chain := tools.testPromise;
  }

  /** Appends `suffix` to a string chained value. */
  function Appending(suffix: string): Callback {
    (v: JsValue, now: int) => if v.Str? then Return(Str(v.s + suffix)) else Return(Str(suffix))
  }

  /**
   * Callbacks registered with `andThen` run only in the after-hook, in the
   * order they were registered. Each appends its digit to the chained value,
   * which here stands for a variable the callbacks share.
   */
  method StepsRunInRegistrationOrder() returns (registered: seq<Step>, result: HookResult)
    ensures |registered| == 3 && result == Resolved(Str("012"))
  {
    var tools := new AsyncTools(2000, 2000);
    tools.BeforeEach();
    var o := tools.AndThen(Appending("0"));
    o := tools.AndThen(Appending("1"));
    o := tools.AndThen(Appending("2"));
    registered := tools.testPromise.value.steps;
    assert tools.testPromise == Some(Chain(registered, Plain(Undefined), None));
    assert tools.testTimeout == 2000 && tools.slots == map[];
    result := tools.AfterEach();
    var e := Exec(Running, Undefined, 0, Plain(Undefined), map[]);
    RunStep([], Then(Appending("0")), e, 2000);
    RunStep([Then(Appending("0"))], Then(Appending("1")), e, 2000);
    RunStep([Then(Appending("0")), Then(Appending("1"))], Then(Appending("2")), e, 2000);
    assert registered == [Then(Appending("0")), Then(Appending("1"))] + [Then(Appending("2"))];
    assert "0" + "1" == "01" && "01" + "2" == "012";
    assert Run([Then(Appending("0"))], e, 2000) == e.(value := Str("0"));
    assert Run([Then(Appending("0")), Then(Appending("1"))], e, 2000) == e.(value := Str("01"));
    assert Run(registered, e, 2000) == e.(value := Str("012"));
  }

  /** `waitUntil` passes the truthy value on to the next step. */
  method WaitUntilPassesItsValueOn() returns (result: HookResult)
    ensures result == Resolved(Str("the value, yo"))
  {
    var tools := new AsyncTools(2000, 2000);
    tools.BeforeEach();
    var f := (v: JsValue, now: int) => Return(Str("the value, yo"));
    var message := Plain(Str(WaitUntilDefaultMessage("() => 'the value, yo'")));
    var pass := (v: JsValue, now: int) => Return(v);
    var o := tools.WaitUntil(f, None, "() => 'the value, yo'");
    o := tools.AndThen(pass);
    result := tools.AfterEach();
    var e := Exec(Running, Undefined, 0, Plain(Undefined), map[]);
    RunStep([], AwaitTruthy(UserPredicate(f), message), e, 2000);
    RunStep([AwaitTruthy(UserPredicate(f), message)], Then(pass), e, 2000);
    assert Poll(UserPredicate(f), Undefined, 0, 2000, message, map[]) == Polled(Some(Str("the value, yo")), 0, message, map[]);
  }

  /** A value that turns true 200 milliseconds on is seen by the third attempt. */
  method WaitUntilPollsUntilTruthy() returns (result: HookResult)
    ensures result == Resolved(Bool(true))
  {
    var tools := new AsyncTools(2000, 2000);
    tools.BeforeEach();
    var f := (v: JsValue, now: int) => Return(Bool(now >= 200));
    var message := Plain(Str(WaitUntilDefaultMessage("() => value")));
    var o := tools.WaitUntil(f, None, "() => value");
    result := tools.AfterEach();
    var e := Exec(Running, Undefined, 0, Plain(Undefined), map[]);
    RunStep([], AwaitTruthy(UserPredicate(f), message), e, 2000);
    assert Poll(UserPredicate(f), Undefined, 200, 2000, message, map[]) == Polled(Some(Bool(true)), 0, message, map[]);
    assert Poll(UserPredicate(f), Undefined, 100, 2000, message, map[]) == Polled(Some(Bool(true)), 1, message, map[]);
    assert Poll(UserPredicate(f), Undefined, 0, 2000, message, map[]) == Polled(Some(Bool(true)), 2, message, map[]);
  }

  /** A page value that is 4 and becomes 0 after 10 milliseconds. */
  function FourThenZero(v: JsValue, now: int): Completion {
    Return(Num(if now < 10 then 4 else 0))
  }

  /** The three steps of `waitUntilChange(FourThenZero)` resolve with 0 at the second attempt. */
  lemma FourThenZeroChangesOnce(message: ErrorMessage)
    ensures Run(ChangeSteps(FourThenZero, message, 0, 1), Exec(Running, Undefined, 0, Plain(Undefined), map[]), 2000)
              == Exec(Running, Num(0), 100, message, map[0 := Num(4), 1 := Num(0)])
  {
    var e := Exec(Running, Undefined, 0, Plain(Undefined), map[]);
    var p := SampleDiffers(FourThenZero, 0, 1);
    var baseline := map[0 := Num(4)];
    RunStep([], CaptureSample(FourThenZero, 0), e, 2000);
    assert Run([CaptureSample(FourThenZero, 0)], e, 2000) == e.(slots := baseline);
    var second := Poll(p, Undefined, 100, 2000, message, baseline[1 := Num(4)]);
    assert second == Polled(Some(Bool(true)), 0, message, baseline[1 := Num(4)][1 := Num(0)]);
    assert baseline[1 := Num(4)][1 := Num(0)] == map[0 := Num(4), 1 := Num(0)];
    assert Poll(p, Undefined, 0, 2000, message, baseline) == second.(retries := 1);
    RunStep([CaptureSample(FourThenZero, 0)], AwaitTruthy(p, message), e, 2000);
    RunStep([CaptureSample(FourThenZero, 0), AwaitTruthy(p, message)], ReadSample(1), e, 2000);
    assert ChangeSteps(FourThenZero, message, 0, 1) == [CaptureSample(FourThenZero, 0), AwaitTruthy(p, message)] + [ReadSample(1)];
  }

  /** A value that changes from 4 to 0 after 10 milliseconds: the chain resolves with 0. */
  method WaitUntilChangeSeesNewValue() returns (result: HookResult)
    ensures result == Resolved(Num(0))
  {
    var tools := new AsyncTools(2000, 2000);
    tools.BeforeEach();
    var o := tools.WaitUntilChange(FourThenZero, None, "() => value");
    var message := Plain(Str(WaitUntilChangeDefaultMessage("() => value")));
    assert [] + ChangeSteps(FourThenZero, message, 0, 1) == ChangeSteps(FourThenZero, message, 0, 1);
    result := tools.AfterEach();
    FourThenZeroChangesOnce(message);
  }

  /** A message given as a function is called only when the race timer fires. */
  method TimeoutUsesLazyMessage() returns (result: HookResult)
    ensures result == Rejected("50")
  {
    var tools := new AsyncTools(250, 2000);
    tools.BeforeEach();
    var f := (v: JsValue, now: int) => Return(Bool(false));
    var message := Lazy((now: int) => Num(13 + 37));
    var o := tools.WaitUntil(f, Some(message), "() => false");
    result := tools.AfterEach();
    var e := Exec(Running, Undefined, 0, Plain(Undefined), map[]);
    RunStep([], AwaitTruthy(UserPredicate(f), message), e, 250);
    assert Poll(UserPredicate(f), Undefined, 200, 250, message, map[]) == Polled(None, 0, message, map[]);
    assert Poll(UserPredicate(f), Undefined, 100, 250, message, map[]) == Polled(None, 1, message, map[]);
    assert Poll(UserPredicate(f), Undefined, 0, 250, message, map[]) == Polled(None, 2, message, map[]);
    assert IntToString(50) == "50";
  }

  /** When every attempt throws, the test fails with the last exception's message. */
  method TimeoutReportsLastException() returns (result: HookResult)
    ensures result == Rejected(CAUGHT_EXCEPTION_PREFIX + "expected 'foo' to equal 'bar'")
  {
    var tools := new AsyncTools(250, 2000);
    tools.BeforeEach();
    var f := (v: JsValue, now: int) => Throw("expected 'foo' to equal 'bar'");
    var message := Plain(Str(WaitUntilDefaultMessage("() => expect('foo').to.equal('bar')")));
    var o := tools.WaitUntil(f, None, "() => expect('foo').to.equal('bar')");
    result := tools.AfterEach();
    var e := Exec(Running, Undefined, 0, Plain(Undefined), map[]);
    RunStep([], AwaitTruthy(UserPredicate(f), message), e, 250);
    var caught := Caught("expected 'foo' to equal 'bar'");
    assert Poll(UserPredicate(f), Undefined, 200, 250, caught, map[]) == Polled(None, 0, caught, map[]);
    assert Poll(UserPredicate(f), Undefined, 100, 250, caught, map[]) == Polled(None, 1, caught, map[]);
    assert Poll(UserPredicate(f), Undefined, 0, 250, message, map[]) == Polled(None, 2, caught, map[]);
  }

  /** A `waitMillis` longer than the test's timeout fails the test with its own message. */
  method WaitMillisTimesOut() returns (result: HookResult)
    ensures result == Rejected(WaitMillisMessage(1337))
  {
    var tools := new AsyncTools(1000, 2000);
    tools.BeforeEach();
    var o := tools.WaitMillis(1337);
    result := tools.AfterEach();
    RunStep([], Sleep(1337), Exec(Running, Undefined, 0, Plain(Undefined), map[]), 1000);
  }
}
