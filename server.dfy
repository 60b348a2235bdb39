/** The running server: the module-level frame state updated in place, and the WebSocket
    clients that `broadcastUpdate` sends to. */
module Server {
  import opened Common
  import opened Auth
  import opened Chunks
  import opened Labels
  import opened Routing
  import opened Dispatch

  /** A WebSocket's `readyState`. */
  datatype ReadyState = Connecting | Open | Closing | Closed

  /** The messages a client with state `state` receives when `broadcast` is sent: one copy
      when it is open, none otherwise. */
  function Delivered(state: ReadyState, broadcast: Option<Payload>): (d: seq<Payload>)
    ensures |d| <= 1
    ensures d != [] <==> state == Open && broadcast.Some?
    ensures d != [] ==> d[0] == broadcast.value
  {
    if state == Open && broadcast.Some? then [broadcast.value] else []
  }

  /** A connected WebSocket: its state and the messages sent to it so far. */
  class Client {
    var readyState: ReadyState
    var outbox: seq<Payload>

    constructor (state: ReadyState)
      ensures readyState == state && outbox == []
    {
      readyState := state;
      outbox := [];
    }
  }

  class Server {
    /** `SERVER_PASSWORD`. */
    const password: string
    /** `currentImageBuffer`. */
    var image: Option<Bytes>
    /** `currentLabels`. */
    var labels: seq<Label>

    function State(): Frame
      reads this
    {
      Frame(image, labels)
    }

    /** Start-up: no image, no labels, the password from the environment. */
    constructor (env: Option<string>)
      ensures password == ConfiguredPassword(env)
      ensures State() == Frame(None, [])
    {
      password := ConfiguredPassword(env);
      image := None;
      labels := [];
    }

    /** `broadcastUpdate`: one payload built from the current state, sent to every open
        client and to no other. */
    method BroadcastUpdate(clients: set<Client>)
      modifies clients
      ensures forall c :: c in clients ==> c.readyState == old(c.readyState)
      ensures forall c :: c in clients ==>
        c.outbox == old(c.outbox) + Delivered(old(c.readyState), Some(FramePayload(State())))
    {
      var data := FramePayload(State());
      var rest := clients;
      while rest != {}
        invariant rest <= clients
        invariant forall c :: c in clients ==> c.readyState == old(c.readyState)
        invariant forall c :: c in clients - rest ==>
          c.outbox == old(c.outbox) + Delivered(old(c.readyState), Some(data))
        invariant forall c :: c in rest ==> c.outbox == old(c.outbox)
        decreases rest
      {
        var client :| client in rest;
        if client.readyState == Open {
          client.outbox := client.outbox + [data];
        }
        rest := rest - {client};
      }
    }

    /** The `POST /imageUpdate` branch from the first `data` event to the response. */
    method HandleUpload(chunks: seq<Bytes>, classifier: Classification, clients: set<Client>)
      returns (response: Response)
      modifies this, clients
      ensures var o := UploadStep(chunks, classifier, old(State()));
        && State() == o.after
        && response == o.response
        && (forall c :: c in clients ==> c.readyState == old(c.readyState))
        && (forall c :: c in clients ==> c.outbox == old(c.outbox) + Delivered(old(c.readyState), o.broadcast))
    {
      var buffer := Receive(chunks);
      image := Some(buffer);
      match classifier
      case Annotated(annotations) =>
        var result := LabelApi(annotations);
        labels := result;
        BroadcastUpdate(clients);
        response := Response(200, JSON_HEADERS, LabelsJson(result));
      case Failed(message) =>
        BroadcastUpdate(clients);
        response := Response(500, JSON_HEADERS, ErrorJson(message));
    }

    /** The `request` handler. */
    method Handle(request: Request, ext: Externals, clients: set<Client>) returns (response: Response)
      modifies this, clients
      ensures var o := Step(old(State()), request, ext, password);
        && State() == o.after
        && response == o.response
        && (forall c :: c in clients ==> c.readyState == old(c.readyState))
        && (forall c :: c in clients ==> c.outbox == old(c.outbox) + Delivered(old(c.readyState), o.broadcast))
    {
      var handler := Route(request.verb, request.url, IsAuthorized(request.cookie));
      if handler == ImageUpdate {
        response := HandleUpload(request.body, ext.classifier, clients);
      } else {
        response := Answer(handler, State(), ext, password);
      }
    }
  }
}
