/**
 * The XHR front end (src/xhr/index.js): a flag saying whether faking is on,
 * over the shared stubber, and the diagnostic listing the distinct
 * `method url` keys of the requests still waiting for an answer.
 */
module Xhr {
  import opened Js
  import opened XhrRequest
  import opened XhrStubber

  const STOP_BEFORE_START_MESSAGE := "stopFakingXhr can only be used after call to startFakingXhr!"
  const FIND_OUTSIDE_FAKING_MESSAGE := "findXhr can only be used between calls to startFakingXhr and stopFakingXhr!"

  /** The keys of the requests whose readyState is OPENED, in list order, repeats kept. */
  function ActiveKeys(rs: seq<FakeRequest>): seq<string>
    reads rs
  {
    if rs == [] then []
    else
      var r := rs[|rs| - 1];
      ActiveKeys(rs[..|rs| - 1]) + (if r.readyState == OPENED then [RequestKey(r)] else [])
  }

  /**
   * The keys of a `Map` after `set` has been called with each element of `s`
   * in turn: setting a key already present keeps its place.
   */
  function Dedup(s: seq<string>): seq<string>
  {
    if s == [] then []
    else
      var d := Dedup(s[..|s| - 1]);
      if s[|s| - 1] in d then d else d + [s[|s| - 1]]
  }

  /** The index of the first occurrence of `x` in `s`. */
  function FirstIndex(s: seq<string>, x: string): (r: nat)
    requires x in s
    ensures r < |s| && s[r] == x && x !in s[..r]
  {
    if x in s[..|s| - 1] then FirstIndex(s[..|s| - 1], x) else |s| - 1
  }

  function NotFoundMessage(httpMethod: string, url: string, active: seq<string>): string {
    "XHR not found: '" + httpMethod + " " + url + "'. Active requests are:\n" + Join(active, "\n")
  }

  /** A key is listed exactly when some request still OPENED is made under that key. */
  lemma {:induction false} ActiveKeysMembers(rs: seq<FakeRequest>, k: string)
    ensures k in ActiveKeys(rs) <==> exists i :: 0 <= i < |rs| && rs[i].readyState == OPENED && RequestKey(rs[i]) == k
  {
    if rs != [] {
      var init := rs[..|rs| - 1];
      ActiveKeysMembers(init, k);
      if exists i :: 0 <= i < |rs| && rs[i].readyState == OPENED && RequestKey(rs[i]) == k {
        var i :| 0 <= i < |rs| && rs[i].readyState == OPENED && RequestKey(rs[i]) == k;
        if i < |rs| - 1 {
          assert init[i] == rs[i];
        }
      }
      if k in ActiveKeys(init) {
        var i :| 0 <= i < |init| && init[i].readyState == OPENED && RequestKey(init[i]) == k;
        assert rs[i] == init[i];
      }
    }
  }

  /** Deduplication keeps every key and invents none. */
  lemma {:induction false} DedupMembers(s: seq<string>, x: string)
    ensures x in Dedup(s) <==> x in s
  {
    if s != [] {
      var init := s[..|s| - 1];
      DedupMembers(init, x);
      assert s == init + [s[|s| - 1]];
    }
  }

  /** Each key is listed once. */
  lemma {:induction false} DedupDistinct(s: seq<string>)
    ensures NoDuplicates(Dedup(s))
  {
    if s != [] {
      DedupDistinct(s[..|s| - 1]);
    }
  }

  /** Keys are listed in the order of their first occurrence. */
  lemma {:induction false} DedupFirstSeenOrder(s: seq<string>)
    ensures forall x :: x in Dedup(s) ==> x in s
    ensures forall i, j :: 0 <= i < j < |Dedup(s)| ==> FirstIndex(s, Dedup(s)[i]) < FirstIndex(s, Dedup(s)[j])
  {
    forall x | x in Dedup(s)
      ensures x in s
    {
      DedupMembers(s, x);
    }
    if s != [] {
      var init := s[..|s| - 1];
      var last := s[|s| - 1];
      DedupFirstSeenOrder(init);
      var d := Dedup(init);
      forall x | x in init
        ensures FirstIndex(s, x) == FirstIndex(init, x)
      {
      }
      if last !in d {
        forall i, j | 0 <= i < j < |Dedup(s)|
          ensures FirstIndex(s, Dedup(s)[i]) < FirstIndex(s, Dedup(s)[j])
        {
          if j < |d| {
            assert Dedup(s)[i] == d[i] && Dedup(s)[j] == d[j];
          } else {
            assert Dedup(s)[i] == d[i];
            assert Dedup(s)[j] == last;
            DedupMembers(init, last);
            assert FirstIndex(s, last) == |s| - 1;
          }
        }
      }
    }
  }

  /**
   * The module's state: `isFakingXhr`, and the stubber singleton. Faking is
   * only on after `start`, so the stubber's list then exists.
   */
  class XhrFaking {
    var isFakingXhr: bool
    const stubber: Fakehr

    ghost predicate Valid()
      reads this, stubber
    {
      isFakingXhr ==> stubber.requests != null
    }

    /** The module as loaded: not faking, the stubber untouched. */
    constructor ()
      ensures Valid() && !isFakingXhr && fresh(stubber)
      ensures stubber.requests == null && stubber.windowXhr == NativeRequest
    {
      isFakingXhr := false;
      stubber := new Fakehr();
    }

    /** `startFakingXhr`: the stubber installs FakeRequest and faking is on. */
    method StartFakingXhr()
      requires Valid()
      modifies this, stubber
      ensures Valid() && isFakingXhr
      ensures old(stubber.requests) != null ==> stubber.requests == old(stubber.requests)
      ensures old(stubber.requests) == null ==> fresh(stubber.requests) && stubber.requests.items == []
      ensures stubber.windowXhr == FakeRequestConstructor
    {
      stubber.Start();
      isFakingXhr := true;
    }

    /** `stopFakingXhr`: throws unless faking is on; otherwise resets the stubber and turns faking off. */
    method StopFakingXhr() returns (o: Outcome)
      requires Valid()
      modifies this, stubber, stubber.requests
      ensures Valid() && !isFakingXhr
      ensures !old(isFakingXhr) ==>
                && o == Fail(STOP_BEFORE_START_MESSAGE) && unchanged(stubber)
                && (stubber.requests != null ==> stubber.requests.items == old(stubber.requests.items))
      ensures old(isFakingXhr) ==>
                && o == Pass && stubber.requests == old(stubber.requests)
                && stubber.requests.items == [] && stubber.windowXhr == NativeRequest
    {
      if !isFakingXhr {
        return Fail(STOP_BEFORE_START_MESSAGE);
      }
      stubber.Reset();
      isFakingXhr := false;
      return Pass;
    }

    /**
     * `findXhr(method, url)`: throws outside faking; inside, the newest
     * still-open request with that method (ignoring case) and url, or null.
     */
    method FindXhr(httpMethod: string, url: string) returns (r: Result<FakeRequest?>)
      requires Valid()
      ensures isFakingXhr <==> r.Ok?
      ensures !isFakingXhr ==> r == Err(FIND_OUTSIDE_FAKING_MESSAGE)
      ensures r.Ok? ==> (r.value == null <==>
                forall j :: 0 <= j < |stubber.requests.items| ==> !Matches(stubber.requests.items[j], httpMethod, url, Undefined, OPENED))
      ensures r.Ok? && r.value != null ==>
                exists i :: 0 <= i < |stubber.requests.items| && stubber.requests.items[i] == r.value
                  && r.value.readyState == OPENED
                  && LowerAscii(r.value.httpMethod) == LowerAscii(httpMethod) && r.value.url == url
                  && forall j :: i < j < |stubber.requests.items| ==> !Matches(stubber.requests.items[j], httpMethod, url, Undefined, OPENED)
    {
      if !isFakingXhr {
        return Err(FIND_OUTSIDE_FAKING_MESSAGE);
      }
      var found := stubber.Match(httpMethod, url, Undefined, None);
      return Ok(found);
    }

    /**
     * `createErrorMessageForXhr`: the missing key, then the distinct keys of
     * the OPENED requests, one per line, in the order each was first seen.
     */
    method CreateErrorMessageForXhr(httpMethod: string, url: string) returns (msg: string)
      requires stubber.requests != null
      ensures msg == NotFoundMessage(httpMethod, url, Dedup(ActiveKeys(stubber.requests.items)))
    {
      var requests := stubber.requests.items;
      var keys: seq<string> := [];
      var i := 0;
      while i < |requests|
        invariant 0 <= i <= |requests|
        invariant keys == Dedup(ActiveKeys(requests[..i]))
      {
        var request := requests[i];
        assert requests[..i + 1][..i] == requests[..i] && requests[..i + 1][i] == request;
        ghost var active := ActiveKeys(requests[..i]);
        if request.readyState == OPENED {
          var key := RequestKey(request);
          assert ActiveKeys(requests[..i + 1]) == active + [key];
          assert (active + [key])[..|active|] == active && (active + [key])[|active|] == key;
          assert Dedup(active + [key]) == if key in keys then keys else keys + [key];
          if key !in keys {
            keys := keys + [key];
          }
        } else {
          assert ActiveKeys(requests[..i + 1]) == active;
        }
        i := i + 1;
      }
      assert requests[..i] == requests;
      msg := NotFoundMessage(httpMethod, url, keys);
    }
  }

  /** The diagnostic names exactly the keys of the requests still OPENED, each once. */
  lemma DiagnosticListsOpenKeys(rs: seq<FakeRequest>, k: string)
    ensures k in Dedup(ActiveKeys(rs)) <==> exists i :: 0 <= i < |rs| && rs[i].readyState == OPENED && RequestKey(rs[i]) == k
    ensures NoDuplicates(Dedup(ActiveKeys(rs)))
  {
    DedupMembers(ActiveKeys(rs), k);
    ActiveKeysMembers(rs, k);
    DedupDistinct(ActiveKeys(rs));
  }

  /** Faking stopped again after a start: `findXhr` throws. */
  method FindAfterStopThrows() returns (r: Result<FakeRequest?>)
    ensures r == Err(FIND_OUTSIDE_FAKING_MESSAGE)
  {
    var xhr := new XhrFaking();
    xhr.StartFakingXhr();
    var stopped := xhr.StopFakingXhr();
    r := xhr.FindXhr("POST", "whatever/endpoint");
  }

  /** A request just sent is the one `findXhr` gives back. */
  method FindSentRequest() returns (sent: FakeRequest, r: Result<FakeRequest?>)
    ensures r.Ok? && r.value == sent
  {
    var xhr := new XhrFaking();
    xhr.StartFakingXhr();
    sent := xhr.stubber.NewRequest("POST", "some/endpoint", Undefined);
    assert xhr.stubber.requests.items == [sent];
    assert Matches(sent, "POST", "some/endpoint", Undefined, OPENED);
    r := xhr.FindXhr("POST", "some/endpoint");
  }

  /** Once answered, a request is no longer found. */
  method RespondedRequestIsNotFound() returns (r: Result<FakeRequest?>)
    ensures r == Ok(null)
  {
    var xhr := new XhrFaking();
    xhr.StartFakingXhr();
    var sent := xhr.stubber.NewRequest("POST", "some/endpoint", Undefined);
    sent.RespondWithJson(200, Obj(0));
    assert xhr.stubber.requests.items == [sent];
    r := xhr.FindXhr("POST", "some/endpoint");
  }
}
