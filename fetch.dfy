/**
 * The fake `fetch` registry: a fake `window.fetch` records every call by
 * path, and `fetchRespond(path)` hands out the oldest call for that path so
 * that the test can resolve or reject its promise.
 */
module Fetch {
  import opened Js

  const NOT_SET_UP_MESSAGE :=
    "acast-test-helpers#fetchRespond(): fetchRespond has to be called after setupFakeFetch() and before teardownFakeFetch()"

  const STATUS_NOT_A_NUMBER_MESSAGE :=
    "First argument to `resolveWith` must be a number representing the response status."

  /** The message thrown when `path` has no call waiting, given the formatted list of waiting calls. */
  function NotFoundMessage(path: string, listing: string): string {
    "acast-test-helpers#fetchRespond(): Could not find '" + path + "' among the fetched paths: [" + listing + "]"
  }

  function Quote(path: string): string {
    "'" + path + "'"
  }

  /** `n` copies of `x`. */
  function Repeat(x: string, n: nat): (r: seq<string>)
    ensures |r| == n
    ensures forall i :: 0 <= i < n ==> r[i] == x
  {
    if n == 0 then [] else Repeat(x, n - 1) + [x]
  }

  /** How many calls of `path` are waiting. */
  function Waiting(pending: map<string, seq<nat>>, path: string): nat {
    if path in pending then |pending[path]| else 0
  }

  /**
   * The labels the diagnostic lists: one quoted key per waiting call, the keys
   * taken in the order in which they were first fetched.
   */
  function Labels(paths: seq<string>, pending: map<string, seq<nat>>): seq<string>
  {
    if paths == [] then []
    else
      var key := paths[|paths| - 1];
      Labels(paths[..|paths| - 1], pending) + Repeat(Quote(key), Waiting(pending, key))
  }

  /** What `window.fetch` holds: some value of the page, or one of the spies made by setupFakeFetch. */
  datatype FetchBinding = Global(value: JsValue) | Spy(instance: nat)

  /** The response-like value `resolveWith` fulfils a fetch promise with; `json()` yields `body`. */
  datatype Response = Response(status: int, ok: bool, body: JsValue)

  datatype PromiseState = Pending | Fulfilled(response: Response) | Rejected(reason: JsValue)

  /**
   * The module state of the fake fetch. `live` says that `pathToPromisesMap`
   * is an object; its keys are `paths` (in insertion order) and the list under
   * each key is `pending[key]`: the promises, oldest first, that still wait
   * for `fetchRespond`. Every promise the fake fetch handed out is a position
   * in `promises`; its resolve and reject functions settle that position.
   */
  class FakeFetch {
    var windowFetch: FetchBinding
    var originalFetch: FetchBinding
    var spies: nat
    var live: bool
    var paths: seq<string>
    var pending: map<string, seq<nat>>
    var promises: seq<PromiseState>

    ghost predicate Valid()
      reads this
    {
      && NoDuplicates(paths)
      && (forall k :: k in pending <==> k in paths)
      && (forall k, i :: k in pending && 0 <= i < |pending[k]| ==> pending[k][i] < |promises|)
      && (!live ==> paths == [])
    }

    /** The module as loaded: `window.fetch` is `page`, nothing is set up yet. */
    constructor (page: JsValue)
      ensures Valid() && !live && promises == [] && spies == 0
      ensures windowFetch == Global(page) && originalFetch == Global(Undefined)
    {
      windowFetch := Global(page);
      originalFetch := Global(Undefined);
      spies := 0;
      live := false;
      paths := [];
      pending := map[];
      promises := [];
    }

    /** Starts an empty registry, saves `window.fetch` and installs a fresh spy. */
    method SetupFakeFetch()
      modifies this
      ensures Valid() && live && paths == [] && pending == map[]
      ensures originalFetch == old(windowFetch) && windowFetch == Spy(old(spies)) && spies == old(spies) + 1
      ensures promises == old(promises)
    {
      pending := map[];
      paths := [];
      live := true;
      originalFetch := windowFetch;
      windowFetch := Spy(spies);
      spies := spies + 1;
    }

    /** Puts back the saved `window.fetch` and drops the registry. */
    method TeardownFakeFetch()
      modifies this
      ensures Valid() && !live && paths == [] && pending == map[]
      ensures windowFetch == old(originalFetch) && originalFetch == old(originalFetch)
      ensures spies == old(spies) && promises == old(promises)
    {
      windowFetch := originalFetch;
      live := false;
      paths := [];
      pending := map[];
    }

    /** The fake `fetch(path)`: a new pending promise, queued last under `path`. */
    method Fetch(path: string) returns (promise: nat)
      requires Valid() && live
      modifies this
      ensures Valid() && live
      ensures promise == |old(promises)| && promises == old(promises) + [Pending]
      ensures path in pending && pending[path] == (if path in old(pending) then old(pending[path]) else []) + [promise]
      ensures forall k :: k in old(pending) && k != path ==> k in pending && pending[k] == old(pending[k])
      ensures paths == if path in old(pending) then old(paths) else old(paths) + [path]
      ensures windowFetch == old(windowFetch) && originalFetch == old(originalFetch) && spies == old(spies)
    {
      promise := |promises|;
      promises := promises + [Pending];
      var list := if path in pending then pending[path] else [];
      if path !in pending {
        paths := paths + [path];
      }
      pending := pending[path := list + [promise]];
    }

    predicate PathIsAwaitingResolution(path: string)
      reads this
    {
      path in pending && |pending[path]| > 0
    }

    /** The diagnostic list of every waiting call: `'<path>'` per call, joined by ", ". */
    method GetFormattedPathsAwaitingResolution() returns (listing: string)
      requires Valid()
      ensures listing == Join(Labels(paths, pending), ", ")
    {
      var result: seq<string> := [];
      var i := 0;
      while i < |paths|
        invariant 0 <= i <= |paths|
        invariant result == Labels(paths[..i], pending)
      {
        var key := paths[i];
        var entries := pending[key];
        var j := 0;
        while j < |entries|
          invariant 0 <= j <= |entries|
          invariant result == Labels(paths[..i], pending) + Repeat(Quote(key), j)
        {
          result := result + [Quote(key)];
          j := j + 1;
        }
        assert paths[..i + 1][..i] == paths[..i];
        i := i + 1;
      }
      assert paths[..|paths|] == paths;
      listing := Join(result, ", ");
    }

    method ThrowIfNotSetUp() returns (r: Outcome)
      ensures r.Pass? <==> live
      ensures r.Fail? ==> r.message == NOT_SET_UP_MESSAGE
    {
      r := if !live then Fail(NOT_SET_UP_MESSAGE) else Pass;
    }

    method ThrowIfPathIsNotAwaitingResolution(path: string) returns (r: Outcome)
      requires Valid() && live
      ensures r.Pass? <==> PathIsAwaitingResolution(path)
      ensures r.Fail? ==> r.message == NotFoundMessage(path, Join(Labels(paths, pending), ", "))
    {
      if !PathIsAwaitingResolution(path) {
        var listing := GetFormattedPathsAwaitingResolution();
        return Fail(NotFoundMessage(path, listing));
      }
      return Pass;
    }

    /**
     * `fetchRespond(path)`: takes the oldest waiting call of `path` off its
     * list and returns its promise, which `ResolveWith`/`RejectWith` settle.
     */
    method FetchRespond(path: string) returns (r: Result<nat>)
      requires Valid()
      modifies this
      ensures Valid()
      ensures !old(live) ==> r == Err(NOT_SET_UP_MESSAGE)
      ensures old(live) && !old(PathIsAwaitingResolution(path)) ==>
                r == Err(NotFoundMessage(path, Join(old(Labels(paths, pending)), ", ")))
      ensures old(live) && old(PathIsAwaitingResolution(path)) ==>
                && r == Ok(old(pending[path][0]))
                && pending == old(pending)[path := old(pending[path][1..])]
      ensures r.Ok? ==> r.value < |promises|
      ensures r.Err? ==> pending == old(pending)
      ensures paths == old(paths) && live == old(live) && promises == old(promises)
      ensures windowFetch == old(windowFetch) && originalFetch == old(originalFetch) && spies == old(spies)
    {
      var setUp := ThrowIfNotSetUp();
      if setUp.Fail? {
        return Err(setUp.message);
      }
      var awaiting := ThrowIfPathIsNotAwaitingResolution(path);
      if awaiting.Fail? {
        return Err(awaiting.message);
      }
      var entries := pending[path];
      pending := pending[path := entries[1..]];
      r := Ok(entries[0]);
    }

    /**
     * `resolveWith(status, body)` on the handle of `promise`: a non-number
     * status throws; otherwise the promise is fulfilled, unless it has already
     * been settled, with that status, `ok` for 200..299 and `body` as JSON.
     */
    method ResolveWith(promise: nat, status: JsValue, body: JsValue) returns (r: Outcome)
      requires Valid() && promise < |promises|
      modifies this
      ensures Valid()
      ensures !status.Num? ==> r == Fail(STATUS_NOT_A_NUMBER_MESSAGE) && promises == old(promises)
      ensures status.Num? ==>
                && r == Pass
                && |promises| == |old(promises)|
                && (forall i :: 0 <= i < |promises| && i != promise ==> promises[i] == old(promises[i]))
                && promises[promise] == (if old(promises[promise]).Pending?
                                         then Fulfilled(Response(status.n, 200 <= status.n <= 299, body))
                                         else old(promises[promise]))
      ensures paths == old(paths) && pending == old(pending) && live == old(live)
      ensures windowFetch == old(windowFetch) && originalFetch == old(originalFetch) && spies == old(spies)
    {
      if !status.Num? {
        return Fail(STATUS_NOT_A_NUMBER_MESSAGE);
      }
      var response := Response(status.n, status.n >= 200 && status.n <= 299, body);
      if promises[promise].Pending? {
        promises := promises[promise := Fulfilled(response)];
      }
      r := Pass;
    }

    /** `rejectWith(error)` on the handle of `promise`: rejects it unless already settled. */
    method RejectWith(promise: nat, error: JsValue)
      requires Valid() && promise < |promises|
      modifies this
      ensures Valid()
      ensures |promises| == |old(promises)|
      ensures forall i :: 0 <= i < |promises| && i != promise ==> promises[i] == old(promises[i])
      ensures promises[promise] == if old(promises[promise]).Pending? then Rejected(error) else old(promises[promise])
      ensures paths == old(paths) && pending == old(pending) && live == old(live)
      ensures windowFetch == old(windowFetch) && originalFetch == old(originalFetch) && spies == old(spies)
    {
      if promises[promise].Pending? {
        promises := promises[promise := Rejected(error)];
      }
    }
  }

  /** Distinct paths are listed under distinct labels. */
  lemma QuoteInjective(a: string, b: string)
    requires Quote(a) == Quote(b)
    ensures a == b
  {
    assert a == Quote(a)[1..|Quote(a)| - 1];
    assert b == Quote(b)[1..|Quote(b)| - 1];
  }

  /** `Repeat(x, n)` holds `x` exactly `n` times. */
  lemma {:induction false} RepeatCount(x: string, n: nat, y: string)
    ensures multiset(Repeat(x, n))[y] == if x == y then n else 0
  {
    if n > 0 {
      RepeatCount(x, n - 1, y);
    }
  }

  /** The diagnostic of keys `p1` then `p2` lists all the calls of `p1` first: keys in insertion order. */
  lemma {:induction false} LabelsAppend(p1: seq<string>, p2: seq<string>, pending: map<string, seq<nat>>)
    ensures Labels(p1 + p2, pending) == Labels(p1, pending) + Labels(p2, pending)
  {
    if p2 == [] {
      assert p1 + p2 == p1;
    } else {
      var last := p2[|p2| - 1];
      assert (p1 + p2)[..|p1 + p2| - 1] == p1 + p2[..|p2| - 1];
      LabelsAppend(p1, p2[..|p2| - 1], pending);
    }
  }

  /**
   * Over distinct keys, the diagnostic names each path exactly as many times
   * as it has calls waiting, and names no other path.
   */
  lemma {:induction false} LabelsCount(paths: seq<string>, pending: map<string, seq<nat>>, path: string)
    requires NoDuplicates(paths)
    ensures multiset(Labels(paths, pending))[Quote(path)] == if path in paths then Waiting(pending, path) else 0
  {
    if paths != [] {
      var init, key := paths[..|paths| - 1], paths[|paths| - 1];
      assert paths == init + [key];
      assert NoDuplicates(init);
      LabelsCount(init, pending, path);
      RepeatCount(Quote(key), Waiting(pending, key), Quote(path));
      if Quote(key) == Quote(path) {
        QuoteInjective(key, path);
        assert path !in init;
      }
    }
  }

  /**
   * A path is awaiting resolution exactly when the diagnostic lists it, so
   * the not-found message never names the path it reports as missing.
   */
  lemma AwaitingIffListed(f: FakeFetch, path: string)
    requires f.Valid()
    ensures f.PathIsAwaitingResolution(path) <==> Quote(path) in Labels(f.paths, f.pending)
  {
    LabelsCount(f.paths, f.pending, path);
  }

  /**
   * The registry of a path fetched `n` times and answered `n` times: the k-th
   * `fetchRespond` hands out the k-th call's promise, and one more throws the
   * not-found error with an empty list.
   */
  method FetchRespondInOrder(path: string, n: nat) returns (responded: seq<nat>, extra: Result<nat>)
    ensures |responded| == n
    ensures forall k :: 0 <= k < n ==> responded[k] == k
    ensures extra == Err(NotFoundMessage(path, ""))
  {
    var f := new FakeFetch(Undefined);
    f.SetupFakeFetch();
    var fetched: seq<nat> := [];
    var i := 0;
    while i < n
      invariant 0 <= i <= n && f.Valid() && f.live
      invariant |fetched| == i && |f.promises| == i
      invariant forall k :: 0 <= k < i ==> fetched[k] == k
      invariant f.paths == (if i == 0 then [] else [path])
      invariant f.pending == (if i == 0 then map[] else map[path := fetched])
    {
      var p := f.Fetch(path);
      fetched := fetched + [p];
      i := i + 1;
    }
    responded := [];
    var j := 0;
    while j < n
      invariant 0 <= j <= n && f.Valid() && f.live
      invariant f.paths == (if n == 0 then [] else [path])
      invariant f.pending == (if n == 0 then map[] else map[path := fetched[j..]])
      invariant responded == fetched[..j]
    {
      var r := f.FetchRespond(path);
      responded := responded + [r.value];
      j := j + 1;
    }
    extra := f.FetchRespond(path);
    assert Labels(f.paths, f.pending) == [];
  }

  /** A fetched path answered with `resolveWith(200, body)` fulfils the caller's promise with an ok response. */
  method ResolveFulfilsFetch(path: string, body: JsValue) returns (state: PromiseState)
    ensures state == Fulfilled(Response(200, true, body))
  {
    var f := new FakeFetch(Undefined);
    f.SetupFakeFetch();
    var promise := f.Fetch(path);
    var handle := f.FetchRespond(path);
    var outcome := f.ResolveWith(handle.value, Num(200), body);
    state := f.promises[promise];
  }
}
