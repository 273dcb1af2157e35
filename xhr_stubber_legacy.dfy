/**
 * The older copy of the request stubber `fakehr` (src/xhr-stubber.js). It
 * keeps its own list and its own view of the global constructor, and differs
 * from the newer copy only in what `match` gives back when nothing matches.
 */
module LegacyXhrStubber {
  import opened Js
  import opened XhrRequest

  /**
   * `requests` is the array `this.requests` refers to; before the first
   * `start` it is `undefined` (null).
   */
  class Fakehr {
    var requests: RequestList?
    var windowXhr: XhrConstructor

    /** The stubber as loaded: no list yet, the native constructor in place. */
    constructor ()
      ensures requests == null && windowXhr == NativeRequest
    {
      requests := null;
      windowXhr := NativeRequest;
    }

    method AddRequest(r: FakeRequest)
      requires requests != null
      modifies requests
      ensures requests.items == old(requests.items) + [r]
    {
      requests.Push(r);
    }

    /**
     * A request made through the fake constructor (the `FakeRequest`
     * function), then opened and sent: it registers itself, exactly once.
     */
    method NewRequest(httpMethod: string, url: string, requestBody: JsValue) returns (r: FakeRequest)
      requires requests != null
      modifies requests
      ensures fresh(r) && r.httpMethod == httpMethod && r.url == url && r.requestBody == requestBody
      ensures r.readyState == OPENED
      ensures requests.items == old(requests.items) + [r] && multiset(requests.items)[r] == 1
    {
      r := new FakeRequest(httpMethod, url, requestBody);
      assert r !in old(requests.items);
      AddRequest(r);
    }

    /** Keeps an existing list (creating an empty one only if there is none) and installs FakeRequest. */
    method Start()
      modifies this
      ensures old(requests) != null ==> requests == old(requests)
      ensures old(requests) == null ==> fresh(requests) && requests.items == []
      ensures requests != null && windowXhr == FakeRequestConstructor
    {
      if requests == null {
        requests := new RequestList();
      }
      windowXhr := FakeRequestConstructor;
    }

    /** Puts back the native constructor; the list is kept. */
    method Stop()
      modifies this
      ensures windowXhr == NativeRequest && requests == old(requests)
    {
      windowXhr := NativeRequest;
    }

    /** Empties the array itself, by popping its last element until none is left. */
    method Clear()
      requires requests != null
      modifies requests
      ensures requests.items == []
    {
      var list := requests;
      while |list.items| > 0
        invariant list.items == old(list.items)[..|list.items|]
        decreases |list.items|
      {
        var removed := list.Pop();
      }
    }

    /** `stop` followed by `clear`. */
    method Reset()
      requires requests != null
      modifies this, requests
      ensures requests == old(requests) && requests.items == [] && windowXhr == NativeRequest
    {
      Stop();
      Clear();
    }

    /**
     * The newest request meeting the criteria of `Matches` (readyState
     * OPENED when none is given); `None` is the `undefined` the loop falls
     * through to when none does.
     */
    method Match(httpMethod: string, url: string, requestBody: JsValue, readyState: Option<int>) returns (r: Option<FakeRequest>)
      requires requests != null
      ensures r.None? <==>
                forall j :: 0 <= j < |requests.items| ==> !Matches(requests.items[j], httpMethod, url, requestBody, WantedState(readyState))
      ensures r.Some? ==>
                exists i :: 0 <= i < |requests.items| && requests.items[i] == r.value
                  && Matches(r.value, httpMethod, url, requestBody, WantedState(readyState))
                  && forall j :: i < j < |requests.items| ==> !Matches(requests.items[j], httpMethod, url, requestBody, WantedState(readyState))
    {
      var state := if readyState.None? then OPENED else readyState.value;
      var items := requests.items;
      var i := |items| - 1;
      while i >= 0
        invariant -1 <= i < |items|
        invariant forall j :: i < j < |items| ==> !Matches(items[j], httpMethod, url, requestBody, state)
      {
        var request := items[i];
        if Matches(request, httpMethod, url, requestBody, state) {
          return Some(request);
        }
        i := i - 1;
      }
      return None;
    }
  }
}
