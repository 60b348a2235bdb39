/** The dispatch decision of the `request` handler and the login endpoint's answer. */
module Routing {
  import opened Common
  import opened Auth

  /** `process.env.PASSWORD || "admin"` when `PASSWORD` is unset or empty. */
  const DEFAULT_PASSWORD: string := "admin"

  /** The `Set-Cookie` header value a successful login sends. */
  const SET_COOKIE: string := SESSION_PAIR + "; HttpOnly; Path=/;"

  /** Which branch of the `request` handler a request reaches. */
  datatype Handler =
    | ImageUpdate      // POST /imageUpdate, public
    | LoginSubmit      // POST /login, public
    | LoginPage        // GET /login, public
    | RedirectToLogin  // unauthorised / or /index.html
    | Unauthorized     // any other unauthorised request
    | IndexPage        // GET /
    | SavedImage       // GET /saveImage.jpg...
    | LabelQuery       // GET /labels
    | NotAllowed       // everything else
  {
    /** The branches that sit before the cookie check. */
    predicate Public()
    {
      ImageUpdate? || LoginSubmit? || LoginPage?
    }

    /** The branches below the cookie check. */
    predicate Protected()
    {
      IndexPage? || SavedImage? || LabelQuery? || NotAllowed?
    }
  }

  /** The requests the handler serves without looking at the cookie. */
  predicate IsPublicRoute(verb: string, url: string)
  {
    || (verb == "POST" && (url == "/imageUpdate" || url == "/login"))
    || (verb == "GET" && url == "/login")
  }

  /** The URLs an unauthorised browser is sent to the login page from. */
  predicate IsViewerPage(url: string)
  {
    url == "/" || url == "/index.html"
  }

  /** `s.startsWith(prefix)`. */
  predicate StartsWith(s: string, prefix: string)
  {
    |prefix| <= |s| && s[..|prefix|] == prefix
  }

  /** The order of the `if` chain in the `request` handler. */
  function Route(verb: string, url: string, authorized: bool): (h: Handler)
    ensures h.Public() <==> IsPublicRoute(verb, url)
    ensures h == ImageUpdate <==> verb == "POST" && url == "/imageUpdate"
    ensures h == LoginSubmit <==> verb == "POST" && url == "/login"
    ensures h == LoginPage <==> verb == "GET" && url == "/login"
    ensures h.Protected() ==> authorized
    ensures h == RedirectToLogin <==> !authorized && IsViewerPage(url)
    ensures h == Unauthorized <==> !authorized && !IsPublicRoute(verb, url) && !IsViewerPage(url)
    ensures h == IndexPage <==> authorized && verb == "GET" && url == "/"
    ensures h == SavedImage <==> authorized && verb == "GET" && StartsWith(url, "/saveImage.jpg")
    ensures h == LabelQuery <==> authorized && verb == "GET" && url == "/labels"
    ensures h == NotAllowed <==>
      (authorized && !IsPublicRoute(verb, url) &&
       !(verb == "GET" && (url == "/" || StartsWith(url, "/saveImage.jpg") || url == "/labels")))
  {
    if verb == "POST" && url == "/imageUpdate" then ImageUpdate
    else if verb == "POST" && url == "/login" then LoginSubmit
    else if verb == "GET" && url == "/login" then LoginPage
    else if !authorized then
      (if url == "/" || url == "/index.html" then RedirectToLogin else Unauthorized)
    else if verb == "GET" && url == "/" then IndexPage
    else if verb == "GET" && StartsWith(url, "/saveImage.jpg") then SavedImage
    else if verb == "GET" && url == "/labels" then LabelQuery
    else NotAllowed
  }

  /** The public routes are decided before the cookie is read. */
  lemma PublicRoutesIgnoreCookie(verb: string, url: string)
    requires IsPublicRoute(verb, url)
    ensures Route(verb, url, true) == Route(verb, url, false)
  {
  }

  /** `/index.html` is redirected to the login page when unauthorised but, once
      authorised, falls through to the 405 branch: only `/` serves the viewer page. */
  lemma IndexHtmlNotServed()
    ensures forall verb :: Route(verb, "/index.html", false) == RedirectToLogin
    ensures forall verb :: Route(verb, "/index.html", true) == NotAllowed
  {
  }

  /** What `response.end` sends, with JSON and base64 left abstract. */
  datatype Body =
    | NoBody
    | Text(text: string)
    | Page(content: Bytes)
    | Jpeg(image: Bytes)
    | LabelsJson(labels: seq<Label>)
    | LoginJson(success: bool)
    | ErrorJson(message: string)

  /** `response.writeHead(status, headers)` followed by `response.end(body)`. */
  datatype Response = Response(status: nat, headers: map<string, string>, body: Body)

  const JSON_HEADERS: map<string, string> := map["Content-Type" := "application/json"]

  /** The outcome of `JSON.parse(body)` followed by `const { password } = ...`: a syntax
      error, a parse to `null` (whose destructuring throws), or a value whose `password`
      property is a string or not. */
  datatype LoginBody = Malformed | JsonNull | Json(password: Option<string>)

  /** `process.env.PASSWORD || "admin"`. */
  function ConfiguredPassword(env: Option<string>): (p: string)
    ensures p != ""
    ensures env.Some? && env.value != "" ==> p == env.value
    ensures env.None? || env == Some("") ==> p == DEFAULT_PASSWORD
  {
    if env.Some? && env.value != "" then env.value else DEFAULT_PASSWORD
  }

  /** The `end` handler of `POST /login`. */
  function LoginResponse(body: LoginBody, password: string): (r: Response)
    ensures r.status in {200, 400, 401}
    ensures r.status == 200 <==> body == Json(Some(password))
    ensures r.status == 400 <==> body.Malformed? || body.JsonNull?
    ensures "Set-Cookie" in r.headers <==> r.status == 200
    ensures "Set-Cookie" in r.headers ==> r.headers["Set-Cookie"] == SET_COOKIE
  {
    match body
    case Malformed => Response(400, map[], Text("Bad Request"))
    case JsonNull => Response(400, map[], Text("Bad Request"))
    case Json(given) =>
      if given == Some(password) then
        Response(200, map["Set-Cookie" := SET_COOKIE, "Content-Type" := "application/json"], LoginJson(true))
      else
        Response(401, JSON_HEADERS, LoginJson(false))
  }

  /** The configured password is never empty, so an empty password never logs in. */
  lemma EmptyPasswordRefused(env: Option<string>)
    ensures LoginResponse(Json(Some("")), ConfiguredPassword(env)).status == 401
  {
  }
}
