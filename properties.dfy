/** What the victorops handler guarantees, stated over its model Translate:
    validation before any POST, the branch on the status, the contents of
    every outbound message, the order of the firing POSTs and the stop at the
    first failure, and the status the caller finally sees. */
module VictorOpsProperties {
  import opened Wrappers
  import opened Text
  import opened Http
  import opened VictorOps

  // ----- The response writer -----

  /** The status fixed by the first write: its WriteHeader code, or 200 for a
      bare Fprintf or no write at all. */
  function FirstStatus(events: seq<Event>): int {
    if events == [] then StatusOK
    else match events[0]
      case Fail(code, _) => code
      case Note(_) => StatusOK
  }

  /** The texts of the writes, in order. */
  function Texts(events: seq<Event>): string
    decreases |events|
  {
    if events == [] then "" else Texts(events[..|events| - 1]) + events[|events| - 1].text
  }

  /** The client sees the status of the first write and every text written. */
  lemma {:induction false} ReplyContents(events: seq<Event>)
    ensures Reply(events).Status() == FirstStatus(events)
    ensures events != [] ==> Reply(events).wroteHeader
    ensures Reply(events).body == Texts(events)
    decreases |events|
  {
    if events != [] {
      var init := events[..|events| - 1];
      ReplyContents(init);
      if init != [] {
        assert init[0] == events[0];
      }
    }
  }

  /** Once the header is out, no later write changes the status. */
  lemma {:induction false} CommittedStatusKept(w: Writer, events: seq<Event>)
    requires w.wroteHeader
    ensures Replay(w, events).Status() == w.Status()
    ensures Replay(w, events).wroteHeader
    decreases |events|
  {
    if events != [] {
      CommittedStatusKept(w, events[..|events| - 1]);
    }
  }

  // ----- Validation -----

  /** The request passed every check made before the status is looked at. */
  predicate Admitted(req: Request, query: map<string, seq<string>>) {
    req.Decoded? && req.message.data.Some?
    && QueryValue(query, ApiKeyParam) != "" && QueryValue(query, RoutingKeyParam) != ""
  }

  /** A body that does not decode, or that carries no data, is answered 400 and nothing is posted. */
  lemma MalformedBodyRejected(req: Request, query: map<string, seq<string>>, env: Env)
    requires req.Undecodable? || req.message.data.None?
    ensures Translate(req, query, env).posts == []
    ensures Reply(Translate(req, query, env).events).Status() == StatusBadRequest
    ensures req.Decoded? ==> Reply(Translate(req, query, env).events).body == MissingFieldsText
    ensures req.Undecodable? ==> Reply(Translate(req, query, env).events).body == UndecodableRequestText(req.err)
  {
    ReplyContents(Translate(req, query, env).events);
  }

  /** A missing or empty api_key or routing_key is answered 400, naming both
      parameters, and nothing is posted, whatever the status. */
  lemma MissingCredentialsRejected(req: Request, query: map<string, seq<string>>, env: Env)
    requires req.Decoded? && req.message.data.Some?
    requires ApiKeyParam !in query || query[ApiKeyParam] == [] || query[ApiKeyParam][0] == ""
          || RoutingKeyParam !in query || query[RoutingKeyParam] == [] || query[RoutingKeyParam][0] == ""
    ensures Translate(req, query, env).posts == []
    ensures Reply(Translate(req, query, env).events).Status() == StatusBadRequest
    ensures Reply(Translate(req, query, env).events).body == "requires query parameters 'api_key' and 'routing_key'"
  {
    ReplyContents(Translate(req, query, env).events);
  }

  /** A status other than firing or resolved is answered 400 and nothing is posted. */
  lemma UnknownStatusRejected(req: Request, query: map<string, seq<string>>, env: Env)
    requires Admitted(req, query)
    requires req.message.data.value.status != "firing" && req.message.data.value.status != "resolved"
    ensures Translate(req, query, env).posts == []
    ensures Reply(Translate(req, query, env).events).Status() == StatusBadRequest
    ensures Reply(Translate(req, query, env).events).body == "Unknown Alertmanager status: " + req.message.data.value.status
  {
    ReplyContents(Translate(req, query, env).events);
  }

  /** A failing json.Marshal is answered 500 before anything is posted, in both branches. */
  lemma MarshalFailureIs500(req: Request, query: map<string, seq<string>>, env: Env)
    requires Admitted(req, query) && env.marshalError.Some?
    requires var d := req.message.data.value;
      d.status == "resolved" || (d.status == "firing" && |d.alerts| > 0)
    ensures Translate(req, query, env).posts == []
    ensures Reply(Translate(req, query, env).events).Status() == StatusInternalServerError
    ensures Reply(Translate(req, query, env).events).body == MarshalFailureText(env.marshalError.value)
  {
    ReplyContents(Translate(req, query, env).events);
  }

  // ----- The outbound messages -----

  /** Go's map index: a non-empty result is the value of an entry with that
      key, and a key without an entry gives "". */
  lemma {:induction false} LookupSound(pairs: seq<Pair>, key: string)
    ensures Lookup(pairs, key) != "" ==> Pair(key, Lookup(pairs, key)) in pairs
    ensures (forall i | 0 <= i < |pairs| :: pairs[i].key != key) ==> Lookup(pairs, key) == ""
    decreases |pairs|
  {
    if pairs != [] && pairs[0].key != key {
      LookupSound(pairs[1..], key);
      assert forall i | 0 <= i < |pairs| - 1 :: pairs[1..][i] == pairs[i + 1];
    }
  }

  /** The message type is never empty: CRITICAL or the value of a victorops_message_type label. */
  lemma MessageTypeChoices(alert: Alert)
    ensures MessageType(alert) != ""
    ensures MessageType(alert) == "CRITICAL" || Pair("victorops_message_type", MessageType(alert)) in alert.labels
  {
    LookupSound(alert.labels, MessageTypeLabel);
  }

  lemma {:induction false} LookupFindsEntry(pairs: seq<Pair>, key: string, value: string)
    requires UniqueKeys(pairs) && Pair(key, value) in pairs
    ensures Lookup(pairs, key) == value
    decreases |pairs|
  {
    if pairs[0].key != key {
      assert Pair(key, value) in pairs[1..];
      LookupFindsEntry(pairs[1..], key, value);
    }
  }

  /** A non-empty victorops_message_type label sets the message type. */
  lemma MessageTypeFromLabel(alert: Alert, t: string)
    requires UniqueKeys(alert.labels) && Pair(MessageTypeLabel, t) in alert.labels && t != ""
    ensures MessageType(alert) == t
  {
    LookupFindsEntry(alert.labels, MessageTypeLabel, t);
  }

  /** Without such a label, or with an empty one, the type is CRITICAL. */
  lemma MessageTypeDefault(alert: Alert)
    requires forall i | 0 <= i < |alert.labels| :: alert.labels[i].key == MessageTypeLabel ==> alert.labels[i].value == ""
    ensures MessageType(alert) == "CRITICAL"
  {
    LookupSound(alert.labels, MessageTypeLabel);
  }

  lemma {:induction false} LinesAppend(a: seq<Pair>, b: seq<Pair>)
    ensures Lines(a + b) == Lines(a) + Lines(b)
    decreases |b|
  {
    if b == [] {
      assert a + b == a;
    } else {
      LinesAppend(a, b[..|b| - 1]);
      assert (a + b)[..|a + b| - 1] == a + b[..|b| - 1];
    }
  }

  /** The line of the i-th entry follows the lines of the entries before it. */
  lemma LinesHaveEntry(pairs: seq<Pair>, i: nat)
    requires i < |pairs|
    ensures OccursAt(Line(pairs[i]), Lines(pairs), |Lines(pairs[..i])|)
  {
    assert pairs == pairs[..i] + [pairs[i]] + pairs[i + 1..];
    LinesAppend(pairs[..i] + [pairs[i]], pairs[i + 1..]);
    LinesAppend(pairs[..i], [pairs[i]]);
    assert Lines([pairs[i]]) == Line(pairs[i]) by {
      assert [pairs[i]][..0] == [];
    }
  }

  /** The state message holds the line "k: v\n" of every annotation, all of
      them within the annotation block that opens it. */
  lemma StateMessageListsAnnotations(alert: Alert, externalURL: string)
    ensures var msg := StateMessage(alert, externalURL);
      forall p | p in alert.annotations ::
        exists j: nat :: OccursAt(Line(p), msg, j) && j + |Line(p)| <= |Lines(alert.annotations)|
  {
    var msg := StateMessage(alert, externalURL);
    var a := Lines(alert.annotations);
    assert msg == a + (Lines(alert.labels) + Trailer(alert, externalURL));
    forall p | p in alert.annotations
      ensures exists j: nat :: OccursAt(Line(p), msg, j) && j + |Line(p)| <= |a|
    {
      var i :| 0 <= i < |alert.annotations| && alert.annotations[i] == p;
      LinesHaveEntry(alert.annotations, i);
      var j := |Lines(alert.annotations[..i])|;
      assert msg[j..j + |Line(p)|] == a[j..j + |Line(p)|];
      assert OccursAt(Line(p), msg, j);
    }
  }

  /** The state message holds the line "k: v\n" of every label, each after
      every annotation line. */
  lemma StateMessageListsLabels(alert: Alert, externalURL: string)
    ensures var msg := StateMessage(alert, externalURL);
      forall p | p in alert.labels ::
        exists j: nat :: OccursAt(Line(p), msg, j) && |Lines(alert.annotations)| <= j
  {
    var msg := StateMessage(alert, externalURL);
    var a, l := Lines(alert.annotations), Lines(alert.labels);
    forall p | p in alert.labels
      ensures exists j: nat :: OccursAt(Line(p), msg, j) && |a| <= j
    {
      var i :| 0 <= i < |alert.labels| && alert.labels[i] == p;
      LinesHaveEntry(alert.labels, i);
      var j := |Lines(alert.labels[..i])|;
      assert msg[|a| + j..|a| + j + |Line(p)|] == l[j..j + |Line(p)|];
      assert OccursAt(Line(p), msg, |a| + j);
    }
  }

  /** The state message ends with the two source URLs. */
  lemma StateMessageEndsWithSources(alert: Alert, externalURL: string)
    ensures var msg := StateMessage(alert, externalURL);
      var tail := "Prometheus: " + alert.generatorURL + "\n" + "Alertmanager: " + externalURL;
      |tail| <= |msg| && msg[|msg| - |tail|..] == tail
  {
  }

  /** The group key's decimal numeral reads back as the group key. */
  lemma EntityIDRoundTrip(groupKey: uint64)
    ensures AllDigits(EntityID(groupKey)) && ParseDecimal(EntityID(groupKey)) == groupKey as int
  {
    DecimalRoundTrip(groupKey as int);
  }

  /** The display name splits back into the group-label values, when none holds a colon. */
  lemma DisplayNameRecoversValues(groupLabels: seq<Pair>)
    requires |groupLabels| >= 1
    requires forall i | 0 <= i < |groupLabels| :: ':' !in groupLabels[i].value
    ensures Split(DisplayName(groupLabels), ':') == Values(groupLabels)
  {
    SplitJoin(Values(groupLabels), ':');
  }

  /** The alert URL carries the api key and the routing key as its last two path segments. */
  lemma AlertURLCarriesKeys(apiKey: string, routingKey: string)
    requires '/' !in apiKey
    ensures KeysOf(AlertURL(apiKey, routingKey)) == Some((apiKey, routingKey))
  {
    var url := AlertURL(apiKey, routingKey);
    assert url[..|AlertEndpoint|] == AlertEndpoint;
    var rest := url[|AlertEndpoint|..];
    assert rest == apiKey + ['/'] + routingKey;
    FirstSeparator(apiKey, '/', routingKey);
    assert rest[..|apiKey|] == apiKey;
    assert rest[|apiKey| + 1..] == routingKey;
  }

  /** The keys are not escaped: an api_key holding '/' gives the same URL
      as a different split of the two keys. */
  lemma AlertURLAmbiguous()
    ensures AlertURL("a/b", "c") == AlertURL("a", "b/c")
    ensures KeysOf(AlertURL("a/b", "c")) == Some(("a", "b/c"))
  {
    AlertURLCarriesKeys("a", "b/c");
  }

  // ----- The firing loop -----

  /** The POSTs of the loop from message i are the messages from i on, in
      order, each sent once to the same URL. */
  lemma {:induction false} FiringPostsFollowMessages(messages: seq<Post>, url: string, env: Env, i: nat)
    requires i <= |messages|
    ensures |Firing(messages, url, env, i).posts| <= |messages| - i
    ensures forall j | 0 <= j < |Firing(messages, url, env, i).posts| ::
      Firing(messages, url, env, i).posts[j] == Dispatch(url, messages[i + j])
    decreases |messages| - i
  {
    if i < |messages| && AlertStep(messages, url, env, i).proceed {
      var r, rest := Firing(messages, url, env, i), Firing(messages, url, env, i + 1);
      FiringPostsFollowMessages(messages, url, env, i + 1);
      assert r.posts == AlertStep(messages, url, env, i).posts + rest.posts;
      forall j | 1 <= j < |r.posts|
        ensures r.posts[j] == Dispatch(url, messages[i + j])
      {
        assert r.posts[j] == rest.posts[j - 1];
      }
    }
  }

  /** Every POST but the last was accepted; and when the loop posted fewer
      than all its messages, marshalling failed or its last POST was not accepted. */
  lemma {:induction false} FiringStopsAtFirstFailure(messages: seq<Post>, url: string, env: Env, i: nat)
    requires i <= |messages|
    ensures var r := Firing(messages, url, env, i);
      forall j | i <= j < i + |r.posts| - 1 :: Accepted(env.network(j))
    ensures var r := Firing(messages, url, env, i);
      |r.posts| < |messages| - i ==>
        (env.marshalError.Some? && r.posts == []) || (r.posts != [] && !Accepted(env.network(i + |r.posts| - 1)))
    decreases |messages| - i
  {
    if i < |messages| && AlertStep(messages, url, env, i).proceed {
      var r, rest := Firing(messages, url, env, i), Firing(messages, url, env, i + 1);
      FiringStopsAtFirstFailure(messages, url, env, i + 1);
      assert |AlertStep(messages, url, env, i).posts| == 1;
      assert r.posts == AlertStep(messages, url, env, i).posts + rest.posts;
    }
  }

  /** When every POST is accepted, every message is posted and only bare notes are written. */
  lemma {:induction false} FiringAllAccepted(messages: seq<Post>, url: string, env: Env, i: nat)
    requires i <= |messages| && env.marshalError.None?
    requires forall j | i <= j < |messages| :: Accepted(env.network(j))
    ensures |Firing(messages, url, env, i).posts| == |messages| - i
    ensures forall k | 0 <= k < |Firing(messages, url, env, i).events| :: Firing(messages, url, env, i).events[k].Note?
    decreases |messages| - i
  {
    if i < |messages| {
      var step := AlertStep(messages, url, env, i);
      FiringAllAccepted(messages, url, env, i + 1);
      assert step.proceed && |step.posts| == 1;
      assert forall k | 0 <= k < |step.events| :: step.events[k].Note?;
    }
  }

  /** Accepted POSTs that decode cleanly write nothing: the loop's writes are those from message f on. */
  lemma {:induction false} FiringQuietUntil(messages: seq<Post>, url: string, env: Env, i: nat, f: nat)
    requires i <= f < |messages| && env.marshalError.None?
    requires forall j | i <= j < f :: Accepted(env.network(j)) && env.network(j).decodeError.None?
    ensures Firing(messages, url, env, i).events == Firing(messages, url, env, f).events
    ensures |Firing(messages, url, env, i).posts| == f - i + |Firing(messages, url, env, f).posts|
    decreases f - i
  {
    if i < f {
      FiringQuietUntil(messages, url, env, i + 1, f);
      var step := AlertStep(messages, url, env, i);
      assert step.proceed && step.events == [] && |step.posts| == 1;
    }
  }

  /** The firing loop, once the POST for message f is rejected after all
      earlier ones were accepted, ends with a WriteHeader(502). */
  lemma {:induction false} FiringEndsInFailure(messages: seq<Post>, url: string, env: Env, i: nat, f: nat)
    requires i <= f < |messages| && env.marshalError.None?
    requires forall j | i <= j < f :: Accepted(env.network(j))
    requires !Accepted(env.network(f))
    ensures var r := Firing(messages, url, env, i);
      |r.posts| == f - i + 1 && r.events != [] && r.events[|r.events| - 1].Fail?
      && r.events[|r.events| - 1].code == StatusBadGateway
    decreases f - i
  {
    if i < f {
      FiringEndsInFailure(messages, url, env, i + 1, f);
      var step := AlertStep(messages, url, env, i);
      assert step.proceed && |step.posts| == 1;
    }
  }

  /** In the firing branch the handler runs the loop over one message per
      alert, with the credentials' URL. */
  lemma FiringBranch(req: Request, query: map<string, seq<string>>, env: Env)
    requires Admitted(req, query) && req.message.data.value.status == "firing"
    ensures Translate(req, query, env)
      == Firing(FiringPosts(req.message.data.value, req.message.groupKey, env.now),
                AlertURL(QueryValue(query, ApiKeyParam), QueryValue(query, RoutingKeyParam)), env, 0)
  {
  }

  /** Firing: the j-th POST carries the j-th alert, with its message type,
      state message and start time, stamped with the current time; no more
      POSTs than alerts, and none after the first one not accepted. */
  lemma FiringPostsInOrder(req: Request, query: map<string, seq<string>>, env: Env)
    requires Admitted(req, query) && req.message.data.value.status == "firing"
    ensures var d, r := req.message.data.value, Translate(req, query, env);
      |r.posts| <= |d.alerts|
      && (forall j | 0 <= j < |r.posts| ::
            r.posts[j].post.messageType == MessageType(d.alerts[j])
            && r.posts[j].post.stateMessage == StateMessage(d.alerts[j], d.externalURL)
            && r.posts[j].post.stateStartTime == d.alerts[j].startsAt
            && r.posts[j].post.timestamp == env.now)
      && (forall j | 0 <= j < |r.posts| - 1 :: Accepted(env.network(j)))
  {
    var d := req.message.data.value;
    var url := AlertURL(QueryValue(query, ApiKeyParam), QueryValue(query, RoutingKeyParam));
    var messages := FiringPosts(d, req.message.groupKey, env.now);
    FiringBranch(req, query, env);
    FiringPostsFollowMessages(messages, url, env, 0);
    FiringStopsAtFirstFailure(messages, url, env, 0);
  }

  /** Firing with every POST accepted: one POST per alert and an implicit 200
      (zero alerts: no POST, no write). */
  lemma FiringAllAcceptedIs200(req: Request, query: map<string, seq<string>>, env: Env)
    requires Admitted(req, query) && req.message.data.value.status == "firing"
    requires env.marshalError.None? || req.message.data.value.alerts == []
    requires forall j | 0 <= j < |req.message.data.value.alerts| :: Accepted(env.network(j))
    ensures |Translate(req, query, env).posts| == |req.message.data.value.alerts|
    ensures Reply(Translate(req, query, env).events).Status() == StatusOK
    ensures req.message.data.value.alerts == [] ==> Translate(req, query, env) == Run([], [])
  {
    var d := req.message.data.value;
    var url := AlertURL(QueryValue(query, ApiKeyParam), QueryValue(query, RoutingKeyParam));
    FiringBranch(req, query, env);
    var r := Translate(req, query, env);
    if d.alerts != [] {
      FiringAllAccepted(FiringPosts(d, req.message.groupKey, env.now), url, env, 0);
    }
    ReplyContents(r.events);
  }

  /** Firing: when the POST for alert f fails (transport error, or a non-2xx
      status with a readable body) after every earlier POST was accepted with
      a readable body, f + 1 POSTs are issued and the caller gets 502 with
      the transport error, or the code and VictorOps' message, as body. */
  lemma FiringFailureIs502(req: Request, query: map<string, seq<string>>, env: Env, f: nat)
    requires Admitted(req, query) && req.message.data.value.status == "firing" && env.marshalError.None?
    requires f < |req.message.data.value.alerts|
    requires forall j | 0 <= j < f :: Accepted(env.network(j)) && env.network(j).decodeError.None?
    requires env.network(f).TransportError?
          || (env.network(f).decodeError.None? && !Is2xx(env.network(f).statusCode))
    ensures |Translate(req, query, env).posts| == f + 1
    ensures Reply(Translate(req, query, env).events).Status() == StatusBadGateway
    ensures Reply(Translate(req, query, env).events).body
      == if env.network(f).TransportError? then TransportFailureText(env.network(f).err)
         else RejectionNote(env.network(f).statusCode, env.network(f).response.message)
  {
    var d := req.message.data.value;
    var url := AlertURL(QueryValue(query, ApiKeyParam), QueryValue(query, RoutingKeyParam));
    FiringBranch(req, query, env);
    FiringQuietUntil(FiringPosts(d, req.message.groupKey, env.now), url, env, 0, f);
    ReplyContents(Translate(req, query, env).events);
  }

  /** Accepted POSTs write at most bare notes: the writes of the loop from
      message i are some notes followed by the writes from message f on. */
  lemma {:induction false} FiringAcceptedUntil(messages: seq<Post>, url: string, env: Env, i: nat, f: nat)
    requires i <= f <= |messages| && env.marshalError.None?
    requires forall j | i <= j < f :: Accepted(env.network(j))
    ensures var r, s := Firing(messages, url, env, i), Firing(messages, url, env, f);
      |s.events| <= |r.events| && r.events[|r.events| - |s.events|..] == s.events
      && (forall m | 0 <= m < |r.events| - |s.events| :: r.events[m].Note?)
      && |r.posts| == f - i + |s.posts|
    decreases f - i
  {
    if i < f {
      FiringAcceptedUntil(messages, url, env, i + 1, f);
      var step := AlertStep(messages, url, env, i);
      var r, rest, s := Firing(messages, url, env, i), Firing(messages, url, env, i + 1), Firing(messages, url, env, f);
      assert step.proceed && |step.posts| == 1;
      assert forall m | 0 <= m < |step.events| :: step.events[m].Note?;
      assert r.events == step.events + rest.events;
      assert r.events[|r.events| - |s.events|..] == rest.events[|rest.events| - |s.events|..];
      forall m | 0 <= m < |r.events| - |s.events|
        ensures r.events[m].Note?
      {
        if m >= |step.events| {
          assert r.events[m] == rest.events[m - |step.events|];
        }
      }
    }
  }

  /** Firing: an accepted POST whose response body does not decode is only
      reported in the body, after nothing but other bare notes, and the loop
      goes on to post the next alert. */
  lemma FiringToleratesUndecodableResponse(req: Request, query: map<string, seq<string>>, env: Env, f: nat)
    requires Admitted(req, query) && req.message.data.value.status == "firing" && env.marshalError.None?
    requires f + 1 < |req.message.data.value.alerts|
    requires forall j | 0 <= j <= f :: Accepted(env.network(j))
    requires env.network(f).Answered? && env.network(f).decodeError.Some?
    ensures var r := Translate(req, query, env);
      |r.posts| >= f + 2
      && exists k: nat | k < |r.events| ::
           r.events[k] == Note(UndecodableResponseText(env.network(f).decodeError.value))
           && forall m | 0 <= m < k :: r.events[m].Note?
  {
    var d := req.message.data.value;
    var url := AlertURL(QueryValue(query, ApiKeyParam), QueryValue(query, RoutingKeyParam));
    var messages := FiringPosts(d, req.message.groupKey, env.now);
    FiringBranch(req, query, env);
    FiringAcceptedUntil(messages, url, env, 0, f);
    var r, s := Translate(req, query, env), Firing(messages, url, env, f);
    var step, next := AlertStep(messages, url, env, f), AlertStep(messages, url, env, f + 1);
    assert step.proceed && |step.posts| == 1;
    assert step.events == [Note(UndecodableResponseText(env.network(f).decodeError.value))];
    assert |next.posts| == 1;
    assert |Firing(messages, url, env, f + 1).posts| >= 1;
    var k := |r.events| - |s.events|;
    assert s.events[0] == step.events[0];
    assert r.events[k] == s.events[0];
  }

  // ----- The resolved branch -----

  /** Resolved: exactly one RECOVERY message, with the fixed state message and
      no state start time; anything but an accepted POST with a readable body
      is answered 502, with the reason as body. */
  lemma ResolvedSendsOneRecovery(req: Request, query: map<string, seq<string>>, env: Env)
    requires Admitted(req, query) && req.message.data.value.status == "resolved" && env.marshalError.None?
    ensures var r := Translate(req, query, env);
      |r.posts| == 1
      && r.posts[0].url == AlertURL(QueryValue(query, ApiKeyParam), QueryValue(query, RoutingKeyParam))
      && r.posts[0].post.messageType == "RECOVERY"
      && r.posts[0].post.stateMessage == "Entity recovered"
      && r.posts[0].post.stateStartTime == 0
      && r.posts[0].post.timestamp == env.now
    ensures Reply(Translate(req, query, env).events).Status()
      == if Accepted(env.network(0)) && env.network(0).decodeError.None? then StatusOK else StatusBadGateway
    ensures Reply(Translate(req, query, env).events).body
      == match env.network(0)
         case TransportError(err) => TransportFailureText(err)
         case Answered(code, decodeError, response) =>
           if decodeError.Some? then UndecodableResponseText(decodeError.value)
           else if !Is2xx(code) then ResolvedRejectionNote(response.message)
           else ""
  {
    ReplyContents(Translate(req, query, env).events);
  }

  /** Resolved: the outcome does not depend on the alerts, however many there are. */
  lemma ResolvedIgnoresAlerts(d: Data, groupKey: uint64, alerts: seq<Alert>, query: map<string, seq<string>>, env: Env)
    requires d.status == "resolved"
    ensures Translate(Decoded(WebhookMessage(Some(d), groupKey)), query, env)
         == Translate(Decoded(WebhookMessage(Some(d.(alerts := alerts)), groupKey)), query, env)
  {
  }

  // ----- Both branches -----

  /** Every POST goes to the credentials' URL and names the group: the
      decimal group key as entity id, the colon-joined group-label values as
      display name, and Prometheus Alertmanager as monitoring tool. */
  lemma EveryPostIdentifiesGroup(req: Request, query: map<string, seq<string>>, env: Env)
    requires Admitted(req, query)
    ensures var r, d := Translate(req, query, env), req.message.data.value;
      forall k | 0 <= k < |r.posts| ::
        r.posts[k].url == AlertEndpoint + QueryValue(query, ApiKeyParam) + "/" + QueryValue(query, RoutingKeyParam)
        && r.posts[k].post.entityID == Decimal(req.message.groupKey as int)
        && r.posts[k].post.entityDisplayName == Join(Values(d.groupLabels), ':')
        && r.posts[k].post.monitoringTool == "Prometheus Alertmanager"
  {
    var d := req.message.data.value;
    if d.status == "firing" {
      FiringBranch(req, query, env);
      FiringPostsFollowMessages(FiringPosts(d, req.message.groupKey, env.now),
        AlertURL(QueryValue(query, ApiKeyParam), QueryValue(query, RoutingKeyParam)), env, 0);
    }
  }
}
