/**
 * The fake XMLHttpRequest objects the stubbers record, and the criteria the
 * stubbers' `match` applies to them.
 */
module XhrRequest {
  import opened Js

  /** readyState of a request opened and sent but not yet answered. */
  const OPENED := 1
  /** readyState of a request that has been answered. */
  const DONE := 4

  /**
   * A request made through the fake constructor, opened with a method and
   * `url` and sent with `requestBody`. Answering it moves it to `DONE`.
   */
  class FakeRequest {
    var httpMethod: string
    var url: string
    var readyState: int
    var requestBody: JsValue
    var status: int
    var responseHeaders: map<string, string>
    var responseBody: JsValue

    /** `new FakeRequest()` followed by `open(method, url)` and `send(requestBody)`. */
    constructor (httpMethod: string, url: string, requestBody: JsValue)
      ensures this.httpMethod == httpMethod && this.url == url && this.requestBody == requestBody
      ensures readyState == OPENED
    {
      this.httpMethod := httpMethod;
      this.url := url;
      this.requestBody := requestBody;
      readyState := OPENED;
      status := 0;
      responseHeaders := map[];
      responseBody := Undefined;
    }

    /** `respond(status, headers, body)` of the fake request library: the request is done. */
    method Respond(status: int, headers: map<string, string>, body: JsValue)
      modifies this
      ensures readyState == DONE && this.status == status && responseHeaders == headers && responseBody == body
      ensures httpMethod == old(httpMethod) && url == old(url) && requestBody == old(requestBody)
    {
      this.status := status;
      responseHeaders := headers;
      responseBody := body;
      readyState := DONE;
    }

    /** `respondWithJson(status, payload)`: answers with `status`, a JSON content type and `payload` as body. */
    method RespondWithJson(status: int, payload: JsValue)
      modifies this
      ensures readyState == DONE && this.status == status && responseBody == payload
      ensures responseHeaders == map["Content-Type" := "application/json"]
      ensures httpMethod == old(httpMethod) && url == old(url) && requestBody == old(requestBody)
    {
      Respond(status, map["Content-Type" := "application/json"], payload);
    }
  }

  /** What `window.XMLHttpRequest` holds: the browser's constructor, or FakeRequest. */
  datatype XhrConstructor = NativeRequest | FakeRequestConstructor

  /**
   * The array object a stubber's `requests` property refers to. It is an
   * object of its own, so whoever holds it sees what `push` and `pop` do.
   */
  class RequestList {
    var items: seq<FakeRequest>

    /** A new empty array, `[]`. */
    constructor ()
      ensures items == []
    {
      items := [];
    }

    /** `push(r)`: `r` becomes the last element. */
    method Push(r: FakeRequest)
      modifies this
      ensures items == old(items) + [r]
    {
      items := items + [r];
    }

    /** `pop()`: the last element is removed and returned. */
    method Pop() returns (last: FakeRequest)
      requires |items| > 0
      modifies this
      ensures last == old(items)[|old(items)| - 1]
      ensures items == old(items)[..|old(items)| - 1]
    {
      last := items[|items| - 1];
      items := items[..|items| - 1];
    }
  }

  /** The readyState `match` looks for: the one given, or OPENED when it is `undefined`. */
  function WantedState(readyState: Option<int>): int {
    readyState.GetOr(OPENED)
  }

  /**
   * The four criteria of `match`: the method ignoring case, the exact url, the
   * readyState, and the request body when a truthy one is asked for.
   */
  predicate Matches(r: FakeRequest, httpMethod: string, url: string, requestBody: JsValue, readyState: int)
    reads r
  {
    && LowerAscii(r.httpMethod) == LowerAscii(httpMethod)
    && r.url == url
    && r.readyState == readyState
    && (!Truthy(requestBody) || r.requestBody == requestBody)
  }

  /** The key a request is listed under in the XHR time-out diagnostic. */
  function RequestKey(r: FakeRequest): string
    reads r
  {
    r.httpMethod + " " + r.url
  }
}
