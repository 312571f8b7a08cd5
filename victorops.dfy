/** The Alertmanager-to-VictorOps translation handler (the `victorops` HTTP
    handler of translators/victorops.go): it validates the decoded webhook and
    the two credential query parameters, then turns a "firing" notification
    into one VictorOps alert per Alertmanager alert, and a "resolved" one into
    a single RECOVERY message, posting each to the VictorOps REST endpoint and
    reporting the outcome on the response writer.

    The webhook decoding, json.Marshal, http.Post with the decoding of its
    answer, and the clock are not modelled; their outcomes are the inputs of
    an Env. */
module VictorOps {
  import opened Wrappers
  import opened Text
  import opened Http

  newtype uint64 = x: int | 0 <= x < 0x1_0000_0000_0000_0000
  newtype int64 = x: int | -0x8000_0000_0000_0000 <= x < 0x8000_0000_0000_0000

  // ----- The inbound Alertmanager webhook -----

  /** One label or annotation. A Go map is modelled as the sequence of its
      entries in the order the range loop visits them. */
  datatype Pair = Pair(key: string, value: string)

  datatype Alert = Alert(labels: seq<Pair>, annotations: seq<Pair>, startsAt: int64, generatorURL: string)

  /** The notification body; a null alert list decodes to the empty one. */
  datatype Data = Data(status: string, groupLabels: seq<Pair>, externalURL: string, alerts: seq<Alert>)

  /** The webhook message: its data part is absent when the body carried none of its fields. */
  datatype WebhookMessage = WebhookMessage(data: Option<Data>, groupKey: uint64)

  /** The request body after decoding: an error, or the message. */
  datatype Request = Undecodable(err: string) | Decoded(message: WebhookMessage)

  // ----- The outbound VictorOps REST records -----

  datatype Post = Post(
    messageType: string,
    entityID: string,
    timestamp: int64,
    stateStartTime: int64,  // 0 is left out of the JSON body
    stateMessage: string,
    monitoringTool: string,
    entityDisplayName: string,
    ackMessage: string,
    ackAuthor: string)

  datatype VictorOpsResponse = VictorOpsResponse(result: string, entityID: string, message: string)

  /** What one http.Post gives back: a transport error, or a status code with
      the decoded response record (and the decoding error, if decoding failed:
      the record then holds whatever was decoded before the failure). */
  datatype Outcome =
    | TransportError(err: string)
    | Answered(statusCode: nat, decodeError: Option<string>, response: VictorOpsResponse)

  /** Everything the handler takes from outside its own code: the clock, the
      outcome of json.Marshal, and the outcome of the n-th POST it issues. */
  datatype Env = Env(now: int64, marshalError: Option<string>, network: nat -> Outcome)

  /** A POST issued to url with post as its JSON body. */
  datatype Dispatch = Dispatch(url: string, post: Post)

  /** What the handler does to the response writer: WriteHeader(code) followed
      by a Fprintf of text, or a Fprintf alone. */
  datatype Event = Fail(code: int, text: string) | Note(text: string)

  /** The POSTs issued and the writes made, in order. */
  datatype Run = Run(posts: seq<Dispatch>, events: seq<Event>)

  // ----- Constants -----

  const ApiKeyParam := "api_key"
  const RoutingKeyParam := "routing_key"
  const MessageTypeLabel := "victorops_message_type"
  const DefaultMessageType := "CRITICAL"
  const RecoveryMessageType := "RECOVERY"
  const RecoveredStateMessage := "Entity recovered"
  const MonitoringTool := "Prometheus Alertmanager"
  const AlertEndpoint := "https://alert.victorops.com/integrations/generic/20131114/alert/"

  const MissingFieldsText := "Missing fields request body"
  const MissingParamsText := "requires query parameters '" + ApiKeyParam + "' and '" + RoutingKeyParam + "'"

  function UndecodableRequestText(err: string): string { "Could not decode Alertmanager request body: " + err }
  function TransportFailureText(err: string): string { "Failed post to VictorOps REST api: " + err }
  function UndecodableResponseText(err: string): string { "Could not decode VictorOps response body: " + err }
  function MarshalFailureText(err: string): string { "Failed to marshall victoropsPost: " + err }
  function UnknownStatusText(status: string): string { "Unknown Alertmanager status: " + status }

  /** The firing path's report of a rejected POST: the status code, then the
      message VictorOps gave. */
  function RejectionNote(code: nat, message: string): string {
    "Unexpected status code " + Decimal(code) + " from VictorOps: " + message
  }

  /** The resolved path's report of a rejected POST: its format has a single
      verb, which the message fills. */
  function ResolvedRejectionNote(message: string): string {
    "Unexpected status code " + message + " from VictorOps: "
  }

  // ----- Pure helpers -----

  /** The first value of a query parameter, or "" when it has none. */
  function QueryValue(query: map<string, seq<string>>, name: string): (v: string)
    ensures v != "" ==> name in query && |query[name]| > 0 && v == query[name][0]
    ensures name in query && |query[name]| > 0 ==> v == query[name][0]
  {
    if name in query && |query[name]| > 0 then query[name][0] else ""
  }

  /** Go's m[key] on a string map: the value stored under key, "" when there is none. */
  function Lookup(pairs: seq<Pair>, key: string): string
    decreases |pairs|
  {
    if pairs == [] then ""
    else if pairs[0].key == key then pairs[0].value
    else Lookup(pairs[1..], key)
  }

  predicate UniqueKeys(pairs: seq<Pair>) {
    forall i, j | 0 <= i < j < |pairs| :: pairs[i].key != pairs[j].key
  }

  /** The message type of a firing alert: its victorops_message_type label
      when that is non-empty, CRITICAL otherwise. */
  function MessageType(alert: Alert): string
  {
    var chosen := Lookup(alert.labels, MessageTypeLabel);
    if chosen != "" then chosen else DefaultMessageType
  }

  function Line(p: Pair): string {
    p.key + ": " + p.value + "\n"
  }

  /** The lines of a map's entries, in iteration order. */
  function Lines(pairs: seq<Pair>): string
    decreases |pairs|
  {
    if pairs == [] then "" else Lines(pairs[..|pairs| - 1]) + Line(pairs[|pairs| - 1])
  }

  function Trailer(alert: Alert, externalURL: string): string {
    "Prometheus: " + alert.generatorURL + "\n" + "Alertmanager: " + externalURL
  }

  /** The state message of a firing alert: a line per annotation, a line per
      label, then the two source URLs. */
  function StateMessage(alert: Alert, externalURL: string): string {
    Lines(alert.annotations) + Lines(alert.labels) + Trailer(alert, externalURL)
  }

  /** strconv.FormatUint(groupKey, 10). */
  function EntityID(groupKey: uint64): string {
    Decimal(groupKey as int)
  }

  function Values(pairs: seq<Pair>): (vs: seq<string>)
    ensures |vs| == |pairs| && forall i | 0 <= i < |pairs| :: vs[i] == pairs[i].value
  {
    seq(|pairs|, i requires 0 <= i < |pairs| => pairs[i].value)
  }

  /** strings.Join(groupLabels.Values(), ":"). */
  function DisplayName(groupLabels: seq<Pair>): string {
    Join(Values(groupLabels), ':')
  }

  function AlertURL(apiKey: string, routingKey: string): string {
    AlertEndpoint + apiKey + "/" + routingKey
  }

  /** The two keys a VictorOps alert URL carries in its path. */
  function KeysOf(url: string): Option<(string, string)> {
    if |url| < |AlertEndpoint| || url[..|AlertEndpoint|] != AlertEndpoint then None
    else
      var rest := url[|AlertEndpoint|..];
      var k := IndexOf(rest, '/');
      if k == |rest| then None else Some((rest[..k], rest[k + 1..]))
  }

  function FiringPost(alert: Alert, groupKey: uint64, displayName: string, externalURL: string, now: int64): Post {
    Post(MessageType(alert), EntityID(groupKey), now, alert.startsAt, StateMessage(alert, externalURL),
         MonitoringTool, displayName, "", "")
  }

  function RecoveryPost(groupKey: uint64, displayName: string, now: int64): Post {
    Post(RecoveryMessageType, EntityID(groupKey), now, 0, RecoveredStateMessage,
         MonitoringTool, displayName, "", "")
  }

  /** The POST is answered with a 2xx status code. */
  predicate Accepted(o: Outcome) {
    o.Answered? && Is2xx(o.statusCode)
  }

  /** resp.StatusCode/100 == 2. */
  function Is2xx(code: nat): (ok: bool)
    ensures ok <==> 200 <= code < 300
  {
    code / 100 == 2
  }

  // ----- The handler as a function of its inputs -----

  /** The message the firing loop builds for each alert, in order. */
  function FiringPosts(d: Data, groupKey: uint64, now: int64): seq<Post> {
    seq(|d.alerts|, j requires 0 <= j < |d.alerts| =>
      FiringPost(d.alerts[j], groupKey, DisplayName(d.groupLabels), d.externalURL, now))
  }

  /** What the firing loop does with message i: the POST it issues (none
      when marshalling fails), its writes, and whether the loop goes on to
      the next alert. Message i is the i-th POST of the request. */
  datatype Step = Step(posts: seq<Dispatch>, events: seq<Event>, proceed: bool)

  function AlertStep(messages: seq<Post>, url: string, env: Env, i: nat): Step
    requires i < |messages|
  {
    if env.marshalError.Some? then Step([], [Fail(StatusInternalServerError, MarshalFailureText(env.marshalError.value))], false)
    else
      var sent := [Dispatch(url, messages[i])];
      match env.network(i)
      case TransportError(err) => Step(sent, [Fail(StatusBadGateway, TransportFailureText(err))], false)
      case Answered(code, decodeError, response) =>
        var note := if decodeError.Some? then [Note(UndecodableResponseText(decodeError.value))] else [];
        if !Is2xx(code) then Step(sent, note + [Fail(StatusBadGateway, RejectionNote(code, response.message))], false)
        else Step(sent, note, true)
  }

  /** The firing loop from message i on. */
  function Firing(messages: seq<Post>, url: string, env: Env, i: nat): Run
    requires i <= |messages|
    decreases |messages| - i
  {
    if i == |messages| then Run([], [])
    else
      var step := AlertStep(messages, url, env, i);
      if !step.proceed then Run(step.posts, step.events)
      else
        var rest := Firing(messages, url, env, i + 1);
        Run(step.posts + rest.posts, step.events + rest.events)
  }

  /** The resolved branch: one RECOVERY message. */
  function Resolved(d: Data, groupKey: uint64, url: string, env: Env): Run {
    if env.marshalError.Some? then Run([], [Fail(StatusInternalServerError, MarshalFailureText(env.marshalError.value))])
    else
      var sent := Dispatch(url, RecoveryPost(groupKey, DisplayName(d.groupLabels), env.now));
      match env.network(0)
      case TransportError(err) => Run([sent], [Fail(StatusBadGateway, TransportFailureText(err))])
      case Answered(code, decodeError, response) =>
        if decodeError.Some? then Run([sent], [Fail(StatusBadGateway, UndecodableResponseText(decodeError.value))])
        else if !Is2xx(code) then Run([sent], [Fail(StatusBadGateway, ResolvedRejectionNote(response.message))])
        else Run([sent], [])
  }

  /** The whole handler: validation, then the branch on the status. */
  function Translate(req: Request, query: map<string, seq<string>>, env: Env): (r: Run)
    ensures r.posts != [] ==>
      req.Decoded? && req.message.data.Some?
      && QueryValue(query, ApiKeyParam) != "" && QueryValue(query, RoutingKeyParam) != ""
      && (req.message.data.value.status == "firing" || req.message.data.value.status == "resolved")
  {
    match req
    case Undecodable(err) => Run([], [Fail(StatusBadRequest, UndecodableRequestText(err))])
    case Decoded(wm) =>
      if wm.data.None? then Run([], [Fail(StatusBadRequest, MissingFieldsText)])
      else
        var apiKey := QueryValue(query, ApiKeyParam);
        var routingKey := QueryValue(query, RoutingKeyParam);
        if apiKey == "" || routingKey == "" then Run([], [Fail(StatusBadRequest, MissingParamsText)])
        else
          var d := wm.data.value;
          var url := AlertURL(apiKey, routingKey);
          if d.status == "firing" then Firing(FiringPosts(d, wm.groupKey, env.now), url, env, 0)
          else if d.status == "resolved" then Resolved(d, wm.groupKey, url, env)
          else Run([], [Fail(StatusBadRequest, UnknownStatusText(d.status))])
  }

  // ----- What the writes do to the response writer -----

  function Apply(w: Writer, e: Event): Writer {
    match e
    case Fail(code, text) => w.WithHeader(code).WithBody(text)
    case Note(text) => w.WithBody(text)
  }

  function Replay(w: Writer, events: seq<Event>): Writer
    decreases |events|
  {
    if events == [] then w else Apply(Replay(w, events[..|events| - 1]), events[|events| - 1])
  }

  /** The response the client receives for these writes. */
  function Reply(events: seq<Event>): Writer {
    Replay(Unwritten, events)
  }

  lemma {:induction false} ReplayAppend(w: Writer, first: seq<Event>, second: seq<Event>)
    ensures Replay(w, first + second) == Replay(Replay(w, first), second)
    decreases |second|
  {
    if second == [] {
      assert first + second == first;
    } else {
      var init := second[..|second| - 1];
      ReplayAppend(w, first, init);
      assert (first + second)[..|first + second| - 1] == first + init;
    }
  }

  // ----- The handler itself -----

  /** The state message built as the source builds it, line by line. */
  method BuildStateMessage(alert: Alert, externalURL: string) returns (msg: string)
    ensures msg == StateMessage(alert, externalURL)
  {
    msg := "";
    for k := 0 to |alert.annotations|
      invariant msg == Lines(alert.annotations[..k])
    {
      assert alert.annotations[..k + 1][..k] == alert.annotations[..k];
      msg := msg + Line(alert.annotations[k]);
    }
    assert alert.annotations[..|alert.annotations|] == alert.annotations;
    ghost var annotationLines := msg;
    for k := 0 to |alert.labels|
      invariant msg == annotationLines + Lines(alert.labels[..k])
    {
      assert alert.labels[..k + 1][..k] == alert.labels[..k];
      msg := msg + Line(alert.labels[k]);
    }
    assert alert.labels[..|alert.labels|] == alert.labels;
    msg := msg + "Prometheus: " + alert.generatorURL + "\n";
    msg := msg + "Alertmanager: " + externalURL;
  }

  /** The victorops handler: answers on rw and returns the POSTs it issued. */
  method Handle(rw: ResponseWriter, req: Request, query: map<string, seq<string>>, env: Env)
    returns (posts: seq<Dispatch>)
    modifies rw
    ensures posts == Translate(req, query, env).posts
    ensures rw.State() == Replay(old(rw.State()), Translate(req, query, env).events)
  {
    posts := [];
    if req.Undecodable? {
      rw.WriteHeader(StatusBadRequest);
      rw.Write(UndecodableRequestText(req.err));
      return;
    }
    var wm := req.message;
    if wm.data.None? {
      rw.WriteHeader(StatusBadRequest);
      rw.Write(MissingFieldsText);
      return;
    }
    var apiKey := "";
    var routingKey := "";
    if ApiKeyParam in query && |query[ApiKeyParam]| > 0 {
      apiKey := query[ApiKeyParam][0];
    }
    if RoutingKeyParam in query && |query[RoutingKeyParam]| > 0 {
      routingKey := query[RoutingKeyParam][0];
    }
    if apiKey == "" || routingKey == "" {
      rw.WriteHeader(StatusBadRequest);
      rw.Write(MissingParamsText);
      return;
    }

    var d := wm.data.value;
    var status := d.status;
    var groupKey := wm.groupKey;
    var url := AlertEndpoint + apiKey + "/" + routingKey;
    assert url == AlertURL(apiKey, routingKey);

    if status == "firing" {
      posts := PostFiring(rw, d, groupKey, url, env);
    } else if status == "resolved" {
      posts := PostRecovery(rw, d, groupKey, url, env);
    } else {
      rw.WriteHeader(StatusBadRequest);
      rw.Write(UnknownStatusText(status));
      return;
    }
  }

  /** The firing branch: one POST per alert, in order, until the first failure. */
  method PostFiring(rw: ResponseWriter, d: Data, groupKey: uint64, url: string, env: Env)
    returns (posts: seq<Dispatch>)
    modifies rw
    ensures posts == Firing(FiringPosts(d, groupKey, env.now), url, env, 0).posts
    ensures rw.State() == Replay(old(rw.State()), Firing(FiringPosts(d, groupKey, env.now), url, env, 0).events)
  {
    ghost var w0 := rw.State();
    ghost var spec := Firing(FiringPosts(d, groupKey, env.now), url, env, 0);
    ghost var events: seq<Event> := [];
    var displayName := Join(Values(d.groupLabels), ':');
    posts := [];
    var i := 0;
    while i < |d.alerts|
      invariant i <= |d.alerts|
      invariant spec.posts == posts + Firing(FiringPosts(d, groupKey, env.now), url, env, i).posts
      invariant spec.events == events + Firing(FiringPosts(d, groupKey, env.now), url, env, i).events
      invariant rw.State() == Replay(w0, events)
      decreases |d.alerts| - i
    {
      ghost var step := AlertStep(FiringPosts(d, groupKey, env.now), url, env, i);
      var sent, proceed := PostAlert(rw, d, groupKey, displayName, url, env, i);
      ReplayAppend(w0, events, step.events);
      if !proceed {
        FiringStop(FiringPosts(d, groupKey, env.now), url, env, i, spec, posts, events);
        posts := posts + sent;
        events := events + step.events;
        return;
      }
      FiringAdvance(FiringPosts(d, groupKey, env.now), url, env, i, spec, posts, events);
      posts := posts + sent;
      events := events + step.events;
      i := i + 1;
    }
    assert events + [] == events;
  }

  lemma FiringAdvance(messages: seq<Post>, url: string, env: Env, i: nat, spec: Run, posts: seq<Dispatch>, events: seq<Event>)
    requires i < |messages| && AlertStep(messages, url, env, i).proceed
    requires spec.posts == posts + Firing(messages, url, env, i).posts
    requires spec.events == events + Firing(messages, url, env, i).events
    ensures spec.posts == (posts + AlertStep(messages, url, env, i).posts) + Firing(messages, url, env, i + 1).posts
    ensures spec.events == (events + AlertStep(messages, url, env, i).events) + Firing(messages, url, env, i + 1).events
  {
  }

  lemma FiringStop(messages: seq<Post>, url: string, env: Env, i: nat, spec: Run, posts: seq<Dispatch>, events: seq<Event>)
    requires i < |messages| && !AlertStep(messages, url, env, i).proceed
    requires spec.posts == posts + Firing(messages, url, env, i).posts
    requires spec.events == events + Firing(messages, url, env, i).events
    ensures spec.posts == posts + AlertStep(messages, url, env, i).posts
    ensures spec.events == events + AlertStep(messages, url, env, i).events
  {
  }

  /** The body of the firing loop for alert i. */
  method PostAlert(rw: ResponseWriter, d: Data, groupKey: uint64, displayName: string, url: string, env: Env, i: nat)
    returns (sent: seq<Dispatch>, proceed: bool)
    requires i < |d.alerts| && displayName == DisplayName(d.groupLabels)
    modifies rw
    ensures sent == AlertStep(FiringPosts(d, groupKey, env.now), url, env, i).posts
    ensures proceed == AlertStep(FiringPosts(d, groupKey, env.now), url, env, i).proceed
    ensures rw.State() == Replay(old(rw.State()), AlertStep(FiringPosts(d, groupKey, env.now), url, env, i).events)
  {
    var alert := d.alerts[i];
    var messageType := DefaultMessageType;
    if Lookup(alert.labels, MessageTypeLabel) != "" {
      messageType := Lookup(alert.labels, MessageTypeLabel);
    }
    var stateMessage := BuildStateMessage(alert, d.externalURL);
    var vp := Post(messageType, EntityID(groupKey), env.now, alert.startsAt, stateMessage,
                   MonitoringTool, displayName, "", "");
    assert vp == FiringPosts(d, groupKey, env.now)[i];
    sent, proceed := [], false;
    if env.marshalError.None? {
      sent := [Dispatch(url, vp)];
      match env.network(i)
      case TransportError(err) =>
        rw.WriteHeader(StatusBadGateway);
        rw.Write(TransportFailureText(err));
        return;
      case Answered(code, decodeError, response) =>
        if decodeError.Some? {
          rw.Write(UndecodableResponseText(decodeError.value));
        }
        ghost var w1 := rw.State();
        if code / 100 != 2 {
          rw.WriteHeader(StatusBadGateway);
          rw.Write(RejectionNote(code, response.message));
          ghost var note := if decodeError.Some? then [Note(UndecodableResponseText(decodeError.value))] else [];
          assert w1 == Replay(old(rw.State()), note);
          ReplayAppend(old(rw.State()), note, [Fail(StatusBadGateway, RejectionNote(code, response.message))]);
          return;
        }
        proceed := true;
    } else {
      rw.WriteHeader(StatusInternalServerError);
      rw.Write(MarshalFailureText(env.marshalError.value));
      return;
    }
  }

  /** The resolved branch: a single RECOVERY POST. */
  method PostRecovery(rw: ResponseWriter, d: Data, groupKey: uint64, url: string, env: Env)
    returns (posts: seq<Dispatch>)
    modifies rw
    ensures posts == Resolved(d, groupKey, url, env).posts
    ensures rw.State() == Replay(old(rw.State()), Resolved(d, groupKey, url, env).events)
  {
    var displayName := Join(Values(d.groupLabels), ':');
    var vp := Post(RecoveryMessageType, EntityID(groupKey), env.now, 0, RecoveredStateMessage,
                   MonitoringTool, displayName, "", "");
    posts := [];
    if env.marshalError.None? {
      posts := [Dispatch(url, vp)];
      match env.network(0)
      case TransportError(err) =>
        rw.WriteHeader(StatusBadGateway);
        rw.Write(TransportFailureText(err));
        return;
      case Answered(code, decodeError, response) =>
        if decodeError.Some? {
          rw.WriteHeader(StatusBadGateway);
          rw.Write(UndecodableResponseText(decodeError.value));
          return;
        }
        if code / 100 != 2 {
          rw.WriteHeader(StatusBadGateway);
          rw.Write(ResolvedRejectionNote(response.message));
          return;
        }
    } else {
      rw.WriteHeader(StatusInternalServerError);
      rw.Write(MarshalFailureText(env.marshalError.value));
      return;
    }
  }
}
