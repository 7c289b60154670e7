/**
 * The shared HTTP client of the front end (frontend/src/api.ts): the readable
 * message extracted from a failed request, the bearer header a request
 * carries, and the global reaction to a 401 response. The transport itself is
 * not modelled; a request's outcome is a `Response` value.
 */
module Api {
  import opened Maybe

  /**
   * What the pages can see of a failed request: the HTTP status (absent for a
   * network error), the `detail` and `message` fields of the JSON body, and
   * the client error's own `message`.
   */
  datatype ApiError = ApiError(
    status: Option<int>,
    detail: Option<string>,
    bodyMessage: Option<string>,
    message: Option<string>)

  /** The outcome of one request: the response body, or the error it was rejected with. */
  datatype Response<T> = Ok(data: T) | Failed(error: ApiError)

  /** A string operand of `||` is truthy when it is present and not empty. */
  predicate Truthy(v: Option<string>) {
    v.Some? && v.value != ""
  }

  /** The index of the first truthy candidate, or `|vs|` when there is none. */
  function FirstTruthyIndex(vs: seq<Option<string>>): (k: nat)
    ensures k <= |vs|
    ensures k < |vs| ==> Truthy(vs[k])
    ensures forall j :: 0 <= j < k ==> !Truthy(vs[j])
  {
    if vs == [] then 0
    else if Truthy(vs[0]) then 0
    else 1 + FirstTruthyIndex(vs[1..])
  }

  /**
   * `a || b || ... || fallback` over optional strings: the first truthy
   * candidate, and `fallback` (whatever it is) when none is truthy.
   */
  function OrChain(vs: seq<Option<string>>, fallback: string): (r: string)
    ensures (forall j :: 0 <= j < |vs| ==> !Truthy(vs[j])) ==> r == fallback
    ensures forall k :: (0 <= k < |vs| && Truthy(vs[k]) && (forall j :: 0 <= j < k ==> !Truthy(vs[j])))
                          ==> r == vs[k].value
    ensures fallback != "" ==> r != ""
  {
    var k := FirstTruthyIndex(vs);
    if k < |vs| then vs[k].value else fallback
  }

  const DefaultFallback: string := "Something went wrong"

  /** `getApiError`: response `detail`, else response `message`, else the error's `message`, else `fallback`. */
  function GetApiError(e: ApiError, fallback: string): (r: string)
    ensures Truthy(e.detail) ==> r == e.detail.value
    ensures !Truthy(e.detail) && Truthy(e.bodyMessage) ==> r == e.bodyMessage.value
    ensures !Truthy(e.detail) && !Truthy(e.bodyMessage) && Truthy(e.message) ==> r == e.message.value
    ensures !Truthy(e.detail) && !Truthy(e.bodyMessage) && !Truthy(e.message) ==> r == fallback
  {
    var vs := [e.detail, e.bodyMessage, e.message];
    assert vs[0] == e.detail && vs[1] == e.bodyMessage && vs[2] == e.message;
    OrChain(vs, fallback)
  }

  /** `getApiError(err)` called without a fallback: a message is always there to show. */
  function GetApiErrorDefault(e: ApiError): (r: string)
    ensures r != ""
    ensures !Truthy(e.detail) && !Truthy(e.bodyMessage) && !Truthy(e.message) ==> r == DefaultFallback
  {
    GetApiError(e, DefaultFallback)
  }

  /** The pattern every page uses in its `catch`: `e?.response?.data?.detail || fallback`. */
  function DetailOr(e: ApiError, fallback: string): (r: string)
    ensures Truthy(e.detail) ==> r == e.detail.value
    ensures !Truthy(e.detail) ==> r == fallback
  {
    OrChain([e.detail], fallback)
  }

  /**
   * A page's own message agrees with `getApiError` whenever the body has a
   * detail, and otherwise shows the page's fallback where `getApiError` would
   * look further.
   */
  lemma DetailOrRefinesGetApiError(e: ApiError, fallback: string)
    ensures Truthy(e.detail) ==> DetailOr(e, fallback) == GetApiError(e, fallback)
    ensures (!Truthy(e.detail) && !Truthy(e.bodyMessage) && !Truthy(e.message))
              ==> DetailOr(e, fallback) == GetApiError(e, fallback)
  {
  }

  const AuthorizationHeader: string := "Authorization"
  const LoginPath: string := "/login"

  /**
   * The request interceptor: with a non-empty stored token the request gets
   * `Authorization: Bearer <token>`; otherwise its headers are left as they are.
   */
  function AttachToken(headers: map<string, string>, token: Option<string>): (h: map<string, string>)
    ensures Truthy(token) ==> AuthorizationHeader in h && h[AuthorizationHeader] == "Bearer " + token.value
    ensures Truthy(token) ==> forall k :: k != AuthorizationHeader ==> (k in h <==> k in headers)
    ensures Truthy(token) ==> forall k :: k in headers && k != AuthorizationHeader ==> h[k] == headers[k]
    ensures !Truthy(token) ==> h == headers
  {
    if Truthy(token) then headers[AuthorizationHeader := "Bearer " + token.value] else headers
  }

  /** The browser state the interceptors touch: the stored token and the location. */
  class Browser {
    var token: Option<string>
    var pathname: string
    var href: string

    constructor (token: Option<string>, pathname: string)
      ensures this.token == token && this.pathname == pathname && href == pathname
    {
      this.token := token;
      this.pathname := pathname;
      this.href := pathname;
    }

    /** The headers a request is sent with, from the token stored now. */
    function RequestHeaders(headers: map<string, string>): (h: map<string, string>)
      reads this
      ensures h == AttachToken(headers, token)
    {
      AttachToken(headers, token)
    }

    /**
     * The response interceptor's error path: a 401 outside the login page
     * removes the token and sends the browser to the login page; anything else
     * leaves both alone. The error is always passed on to the caller.
     */
    method OnResponseError(err: ApiError) returns (rejected: ApiError)
      modifies this`token, this`href
      ensures rejected == err
      ensures err.status == Some(401) && old(pathname) != LoginPath ==> token == None && href == LoginPath
      ensures !(err.status == Some(401) && old(pathname) != LoginPath) ==> token == old(token) && href == old(href)
    {
      if err.status == Some(401) {
        if pathname != LoginPath {
          token := None;
          href := LoginPath;
        }
      }
      rejected := err;
    }
  }
}
