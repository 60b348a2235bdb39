/** The whole `request` handler as a function of the process-wide frame state: what it
    answers, what the state becomes and what is broadcast. */
module Dispatch {
  import opened Common
  import opened Auth
  import opened Chunks
  import opened Labels
  import opened Routing

  /** The module-level `currentImageBuffer` and `currentLabels`. */
  datatype Frame = Frame(image: Option<Bytes>, labels: seq<Label>)

  /** The JSON message `broadcastUpdate` sends, base64 left abstract. */
  datatype Payload = Payload(kind: string, image: Option<Bytes>, labels: seq<Label>)

  /** What `client.labelDetection` yields: its `labelAnnotations` (possibly absent), or
      the error it throws. */
  datatype Classification = Annotated(annotations: Option<seq<Annotation>>) | Failed(message: string)

  /** A request as far as the handler looks at it. */
  datatype Request = Request(verb: string, url: string, cookie: Option<string>, body: seq<Bytes>)

  /** The outcomes of the calls the model does not see: the classifier, `JSON.parse` of
      the login body, and the reads of `login.html` and `index.html`. */
  datatype Externals = Externals(
    classifier: Classification,
    login: LoginBody,
    loginPage: Option<Bytes>,
    indexPage: Option<Bytes>)

  /** One handled request: the new state, the response and the broadcast message, if any. */
  datatype Outcome = Outcome(after: Frame, response: Response, broadcast: Option<Payload>)

  /** The message `broadcastUpdate` builds from the current state. */
  function FramePayload(f: Frame): (p: Payload)
    ensures p.kind == "frame"
    ensures p.image.None? <==> f.image.None?
    ensures p.image.Some? ==> p.image.value == f.image.value
    ensures p.labels == f.labels
  {
    Payload("frame", f.image, f.labels)
  }

  /** The handler a request reaches. */
  function HandlerFor(req: Request): Handler
  {
    Route(req.verb, req.url, IsAuthorized(req.cookie))
  }

  /** The `end` handler of `POST /imageUpdate`: the image is replaced first, the labels
      only when the classifier answers, and the state is broadcast on both paths. */
  function UploadStep(chunks: seq<Bytes>, c: Classification, before: Frame): (o: Outcome)
    ensures o.after.image == Some(Concat(chunks))
    ensures c.Annotated? ==> o.after.labels == Projected(c.annotations)
    ensures c.Failed? ==> o.after.labels == before.labels
    ensures o.response.status == (if c.Annotated? then 200 else 500)
    ensures c.Annotated? ==> o.response.body == LabelsJson(o.after.labels)
    ensures c.Failed? ==> o.response.body == ErrorJson(c.message)
    ensures o.broadcast == Some(FramePayload(o.after))
  {
    var image := Some(Concat(chunks));
    match c
    case Annotated(annotations) =>
      var labels := Projected(annotations);
      Outcome(Frame(image, labels), Response(200, JSON_HEADERS, LabelsJson(labels)),
              Some(FramePayload(Frame(image, labels))))
    case Failed(message) =>
      Outcome(Frame(image, before.labels), Response(500, JSON_HEADERS, ErrorJson(message)),
              Some(FramePayload(Frame(image, before.labels))))
  }

  /** `fs.readFile` of an HTML page: 500 on error, the page otherwise. */
  function PageResponse(page: Option<Bytes>, name: string): Response
  {
    match page
    case None => Response(500, map[], Text("Error loading " + name))
    case Some(content) => Response(200, map["Content-Type" := "text/html"], Page(content))
  }

  /** The answer of every branch other than the upload, none of which touches the state. */
  function Answer(h: Handler, state: Frame, ext: Externals, password: string): (r: Response)
    requires h != ImageUpdate
    ensures h == LoginSubmit ==> r == LoginResponse(ext.login, password)
    ensures h == LoginPage ==> (r.status == 200 <==> ext.loginPage.Some?) && r.status in {200, 500}
    ensures h == IndexPage ==> (r.status == 200 <==> ext.indexPage.Some?) && r.status in {200, 500}
    ensures h == RedirectToLogin ==> r.status == 302 && r.headers == map["Location" := "/login"] && r.body == NoBody
    ensures h == Unauthorized ==> r.status == 401 && r.body == Text("Unauthorized")
    ensures h == SavedImage ==> (r.status == 200 <==> state.image.Some?) && r.status in {200, 404}
    ensures h == SavedImage && state.image.Some? ==> r.body == Jpeg(state.image.value)
    ensures h == LabelQuery ==> r.status == 200 && r.body == LabelsJson(state.labels)
    ensures h == NotAllowed ==> r.status == 405
  {
    match h
    case LoginSubmit => LoginResponse(ext.login, password)
    case LoginPage => PageResponse(ext.loginPage, "login.html")
    case RedirectToLogin => Response(302, map["Location" := "/login"], NoBody)
    case Unauthorized => Response(401, map[], Text("Unauthorized"))
    case IndexPage => PageResponse(ext.indexPage, "index.html")
    case SavedImage =>
      if state.image.Some? then Response(200, map["Content-Type" := "image/jpeg"], Jpeg(state.image.value))
      else Response(404, map[], Text("No image received yet"))
    case LabelQuery => Response(200, JSON_HEADERS, LabelsJson(state.labels))
    case NotAllowed => Response(405, map["Content-Type" := "text/plain"], Text("Method Not Allowed"))
  }

  /** One request through the `request` handler. */
  function Step(before: Frame, req: Request, ext: Externals, password: string): (o: Outcome)
    ensures o.broadcast.Some? <==> req.verb == "POST" && req.url == "/imageUpdate"
    ensures HandlerFor(req) != ImageUpdate ==> o.after == before
    ensures !IsAuthorized(req.cookie) && !IsPublicRoute(req.verb, req.url) ==>
      o.after == before && o.response.status in {302, 401}
    ensures "Set-Cookie" in o.response.headers <==>
      req.verb == "POST" && req.url == "/login" && ext.login == Json(Some(password))
    ensures o.response.body.LabelsJson? ==> o.response.body.labels == o.after.labels
  {
    var h := HandlerFor(req);
    if h == ImageUpdate then UploadStep(req.body, ext.classifier, before)
    else Outcome(before, Answer(h, before, ext, password), None)
  }

  /** A browser that logs in with the configured password and sends the cookie back, alone
      or among other cookies, then reads the current labels. */
  lemma LoginThenReadLabels(state: Frame, ext: Externals, password: string, before: string, after: string)
    requires ext.login == Json(Some(password))
    ensures var login := Step(state, Request("POST", "/login", None, []), ext, password);
      && login.response.status == 200
      && login.after == state
      && login.response.headers["Set-Cookie"][..|SESSION_PAIR|] == SESSION_PAIR
    ensures var view := Step(state, Request("GET", "/labels", Some(before + SESSION_PAIR + after), []), ext, password);
      view.response == Response(200, JSON_HEADERS, LabelsJson(state.labels)) && view.after == state
  {
    PairAnywhereAuthorizes(before, after);
  }

  /** After any upload, even an empty one or one the classifier rejects, an authorised
      `GET /saveImage.jpg...` returns exactly the uploaded bytes: an empty `Buffer` is
      still a stored image. */
  lemma UploadThenFetch(state: Frame, chunks: seq<Bytes>, ext: Externals, password: string, cookie: Option<string>, query: string)
    requires IsAuthorized(cookie)
    ensures var up := Step(state, Request("POST", "/imageUpdate", None, chunks), ext, password);
      var fetch := Step(up.after, Request("GET", "/saveImage.jpg" + query, cookie, []), ext, password);
      && fetch.response.status == 200
      && fetch.response.body == Jpeg(Concat(chunks))
      && fetch.after == up.after
  {
  }
}
