# Vision server coordination layer, modelled in Dafny

This project models the request-handling core of `vision-server.js`, a small Node server
that receives JPEG frames from a camera board over `POST /imageUpdate`, sends each frame
to a label classifier, keeps the latest frame and its labels in two module-level variables,
pushes them to every open WebSocket viewer, and serves them to browsers that carry a fixed
session cookie.

What is modelled, module by module:

- `Common`: bytes, `Option`, labels `{description, score}` and classifier annotations.
- `Auth`: `isAuthorized`, a substring search of the Cookie header for
  `cameraview_auth=authenticated_session`, specified against "occurs at some position".
- `Chunks`: the upload body, pushed chunk by chunk and joined in order (`Buffer.concat`).
- `Labels`: the end of `labelAPI`, which projects each annotation to `{description, score}`
  by pushing in a loop, and yields `[]` when the classifier returns no annotations.
- `Routing`: the order of the `request` handler's `if` chain as a pure `Route` function,
  the password configuration (`PASSWORD || "admin"`) and the `POST /login` answer.
- `Dispatch`: the whole handler as a pure step over the frame state
  (`currentImageBuffer`, `currentLabels`). It gives the response, the new state and the
  broadcast message, if any.
- `Server`: the in-place version. A `Server` class holds the two variables as fields, and a
  `Client` class holds a WebSocket's `readyState` and the messages sent to it. The methods
  `BroadcastUpdate`, `HandleUpload` and `Handle` are proved against the pure step.

The classifier's answer, the outcome of `JSON.parse` on the login body and the results of
reading `login.html` and `index.html` are inputs (`Dispatch.Externals`). The set of
connected WebSocket clients is a parameter.

Notes on behaviour the model makes explicit:

- A Node `Buffer` is truthy even when empty. So after any upload, even one with no body or
  one the classifier rejects, the stored image is present: the broadcast's image is not
  null and `GET /saveImage.jpg` answers 200 (`Dispatch.UploadThenFetch`).
- The cookie check is a plain substring test. The pair is accepted anywhere in the
  header, even inside another cookie's value (`Auth.PairAnywhereAuthorizes`).
- An unauthorised `GET /index.html` is redirected to the login page. Once authorised, the
  same request falls through to 405, because only `/` serves the viewer page
  (`Routing.IndexHtmlNotServed`).
- `JSON.parse("null")` succeeds, but destructuring its result throws, so the answer is 400.
  A body whose `password` is missing or not a string gets 401.
- An empty `PASSWORD` variable falls back to `admin`, so an empty password never logs in.

## Model

| member | source | states |
|---|---|---|
| `Auth.IncludesFrom` | vision-server.js:25 | the scan from a position is true exactly when the needle occurs at some position at or after it |
| `Auth.Includes` | vision-server.js:25 | `includes` is true exactly when the needle occurs somewhere in the string |
| `Auth.IsAuthorized` | vision-server.js:23-29 | authorised exactly when a Cookie header is present and contains `cameraview_auth=authenticated_session` at some position |
| `Auth.PairAnywhereAuthorizes` | vision-server.js:20-25 | any header with the session pair inside it, whatever text surrounds it, is authorised |
| `Auth.ShortHeaderRefused` | vision-server.js:23-29 | a header shorter than the session pair is refused |
| `Chunks.ConcatAppend` | vision-server.js:57 | joining one more chunk appends its bytes at the end of the frame |
| `Chunks.ConcatInOrder` | vision-server.js:50-57 | in the joined frame, chunk i's bytes come after all earlier chunks and before all later ones |
| `Chunks.ConcatLength` | vision-server.js:57-58 | the frame's size is the sum of the chunk sizes |
| `Chunks.Receive` | vision-server.js:50-57 | pushing each `data` chunk and joining them yields the in-order concatenation |
| `Labels.ProjectAll` | vision-server.js:187-190 | the projection keeps length and order, and maps each annotation to its description and score |
| `Labels.Projected` | vision-server.js:185-192 | absent annotations give no labels; present ones give one label per annotation, in order, with the same description and score |
| `Labels.LabelApi` | vision-server.js:165-192 | the push loop over the annotations returns exactly the projection |
| `Routing.Route` | vision-server.js:46-161 | `POST /imageUpdate`, `POST /login` and `GET /login` reach the upload, login-submit and login-page handlers whatever the cookie; protected handlers are reached only when authorised; unauthorised requests get a redirect exactly for `/` and `/index.html`, otherwise 401; the image route is a prefix match on `/saveImage.jpg`; every other authorised request gets the 405 handler |
| `Routing.PublicRoutesIgnoreCookie` | vision-server.js:47-119 | upload and login are routed the same with or without the cookie |
| `Routing.IndexHtmlNotServed` | vision-server.js:122-160 | for every method, `/index.html` is redirected when unauthorised but gets 405 when authorised |
| `Routing.ConfiguredPassword` | vision-server.js:19 | the password is the `PASSWORD` variable when it is set and non-empty, otherwise `admin`, and is never empty |
| `Routing.LoginResponse` | vision-server.js:84-105 | 200 with the session Set-Cookie exactly when the parsed password equals the configured one; 400 exactly when the body does not parse or parses to null; 401 otherwise |
| `Routing.EmptyPasswordRefused` | vision-server.js:19-90 | an empty password never logs in |
| `Dispatch.FramePayload` | vision-server.js:33-37 | the message has type `frame`, the current labels, and a null image exactly when no image is stored |
| `Dispatch.UploadStep` | vision-server.js:55-78 | the image becomes the concatenated body whatever the classifier does; on success the labels become the projection and the answer is 200 with them; on failure the labels keep their old value and the answer is 500; one broadcast of the new state happens on both paths |
| `Dispatch.Answer` | vision-server.js:84-161 | login, page, redirect, 401, image (200 exactly when an image is stored, else 404), labels (200 with the current labels) and 405 answers |
| `Dispatch.Step` | vision-server.js:46-162 | a broadcast happens exactly for `POST /imageUpdate`, and only uploads change the state; an unauthorised non-public request gets 302 or 401 and changes nothing; a Set-Cookie is sent exactly for `POST /login` with the right password |
| `Dispatch.LoginThenReadLabels` | vision-server.js:84-156 | logging in with the right password returns the cookie, and a request carrying that pair reads the current labels |
| `Dispatch.UploadThenFetch` | vision-server.js:57-153 | after any upload, an authorised `GET /saveImage.jpg...` returns exactly the uploaded bytes |
| `Server.Delivered` | vision-server.js:39-43 | an open client receives the message once, any other client receives nothing |
| `Server.Server.constructor` | vision-server.js:15-19 | the server starts with no image, no labels and the configured password |
| `Server.Server.BroadcastUpdate` | vision-server.js:32-44 | one payload from the current state is appended to the outbox of every open client; other clients' outboxes and all ready states are unchanged |
| `Server.Server.HandleUpload` | vision-server.js:48-80 | updating the fields in place, the new state, the response and the messages delivered are those of the pure upload step |
| `Server.Server.Handle` | vision-server.js:46-162 | the new state, the response and the messages delivered are those of the pure step for every request |

## Left out

- The Node `http` server, the `ws` server, `server.listen`, the port and the `dotenv` loading. The environment's `PASSWORD` is a constructor parameter.
- How clients connect and disconnect, and how a send succeeds or fails. A client is its `readyState` plus the list of messages sent to it.
- `fs.readFile` of `login.html` and `index.html`. Each read is an input that is either the page or an error, giving 200 or 500.
- The Google Cloud Vision client, the parsing of `GOOGLE_CREDENTIALS_JSON` and `labelDetection`. These are foreign network calls. The classifier's answer is an input: the annotation list (possibly absent) or an error message.
- `JSON.parse`, `JSON.stringify` and base64. Response bodies and the broadcast payload are datatypes. The login body is an input giving the parse outcome. Building the login body text from its chunks is not modelled.
- Label scores are floats. They are carried as opaque values and are never computed with.
- Console logging.
- Interleaving across the `await` of the classifier. The image is stored before the classifier is called, so any request served during that call (`GET /saveImage.jpg`, `GET /labels`, another upload and its broadcast) sees the new image with the old labels, and a second upload can replace the image before the first one's labels arrive. The model makes each upload one atomic step and runs requests one at a time.
- Response header order and the exact wire format of each response.
