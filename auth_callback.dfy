/** The OAuth callback route (app/auth/callback/route.ts): exchanges the
    `code` query parameter for a session and redirects either to the page
    named by `next` or to the auth error page. The session exchange, the
    environment and the forwarded-host header are inputs. */
module AuthCallback {
  import opened Wrappers
  import opened JsText
  import opened WebForm

  const ErrorPage := "/auth/auth-code-error"
  const DefaultNext := "/dashboard"

  /** What the handler reads from the request: the URL's origin, its query
      parameters (decoded, in order), the x-forwarded-host header and
      NODE_ENV. */
  datatype Request = Request(origin: string, query: seq<(string, string)>,
                             forwardedHost: Option<string>, nodeEnv: Option<string>)

  /** The response: the redirect location, and the code handed to
      `exchangeCodeForSession`, if the exchange was attempted. */
  datatype Response = Response(location: string, exchanged: Option<string>)

  /** `searchParams.get('next') ?? '/dashboard'`. */
  function Next(query: seq<(string, string)>): string {
    Get(query, "next").GetOr(DefaultNext)
  }

  /** The location after a successful exchange. */
  function SuccessTarget(request: Request, next: string): string {
    if request.nodeEnv == Some("development") then request.origin + next
    else if request.forwardedHost.Some? && Truthy(request.forwardedHost.value) then
      "https://" + request.forwardedHost.value + next
    else request.origin + next
  }

  /** The first "code" parameter, when it is non-empty: the code the
      handler exchanges. */
  function CodeToExchange(query: seq<(string, string)>): Option<string> {
    match Get(query, "code")
    case Some(code) => if Truthy(code) then Some(code) else None
    case None => None
  }

  /** `GET`: `exchange(code)` holds when the exchange returns no error. */
  function Callback(request: Request, exchange: string -> bool): Response {
    var next := Next(request.query);
    match CodeToExchange(request.query)
    case Some(code) =>
      if exchange(code) then Response(SuccessTarget(request, next), Some(code))
      else Response(request.origin + ErrorPage, Some(code))
    case None =>
      Response(request.origin + ErrorPage, None)
  }

  /** Without a non-empty code the handler redirects to the error page and
      never calls the exchange, so its outcome cannot depend on it. */
  lemma NoCodeNoExchange(request: Request, exchange: string -> bool, other: string -> bool)
    requires Get(request.query, "code") == None || Get(request.query, "code") == Some("")
    ensures Callback(request, exchange) == Response(request.origin + ErrorPage, None)
    ensures Callback(request, exchange) == Callback(request, other)
  {
  }

  /** Only the first "code" parameter is read: an empty one hides a later
      non-empty one. */
  lemma FirstCodeDecides(origin: string, exchange: string -> bool)
    ensures Callback(Request(origin, [("code", ""), ("code", "abc")], None, None), exchange)
      == Response(origin + ErrorPage, None)
  {
  }

  /** A rejected code leads to the same error page, after the exchange was
      attempted with that code. */
  lemma FailedExchangeShowsErrorPage(request: Request, exchange: string -> bool, code: string)
    requires Get(request.query, "code") == Some(code) && code != []
    requires !exchange(code)
    ensures Callback(request, exchange) == Response(request.origin + ErrorPage, Some(code))
  {
  }

  /** After a successful exchange the location always ends with `next` and
      starts with the origin or with "https://" and the forwarded host: in
      development the origin, whatever the header says; elsewhere the
      forwarded host when the header is non-empty, else the origin. */
  lemma SuccessRedirectsToNext(request: Request, exchange: string -> bool, code: string)
    requires Get(request.query, "code") == Some(code) && code != []
    requires exchange(code)
    ensures var r := Callback(request, exchange);
      var next := Next(request.query);
      && r.exchanged == Some(code)
      && EndsWith(r.location, next)
      && (request.nodeEnv == Some("development") ==> r.location == request.origin + next)
      && (request.nodeEnv != Some("development") && request.forwardedHost.Some? && request.forwardedHost.value != [] ==>
            r.location == "https://" + request.forwardedHost.value + next)
      && (request.nodeEnv != Some("development") && (request.forwardedHost.None? || request.forwardedHost.value == []) ==>
            r.location == request.origin + next)
  {
    var next := Next(request.query);
    var location := Callback(request, exchange).location;
    var head := location[..|location| - |next|];
    assert location == head + next;
  }

  /** In development the x-forwarded-host header is ignored. */
  lemma DevelopmentIgnoresForwardedHost(request: Request, exchange: string -> bool, host: Option<string>)
    requires request.nodeEnv == Some("development")
    ensures Callback(request.(forwardedHost := host), exchange) == Callback(request, exchange)
  {
  }

  /** `next` defaults to "/dashboard" only when the parameter is absent; a
      present value, even an empty one, is kept. */
  lemma NextKeepsGivenValue(query: seq<(string, string)>)
    ensures (forall i :: 0 <= i < |query| ==> query[i].0 != "next") ==> Next(query) == DefaultNext
    ensures Next([("next", "")] + query) == ""
  {
  }
}
