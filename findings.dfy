/** Two places where the handler does not do what its own code evidently
    means to do, each shown on the model as written, beside a corrected
    definition with the intended property proved about it. */
module Findings {
  import opened Wrappers
  import opened Text
  import opened Http
  import opened VictorOps
  import opened VictorOpsProperties

  // ----- A rejected firing POST whose body cannot be decoded answers 200 -----

  /** As written: a firing POST answered with a non-2xx status and an
      undecodable body first prints the decode note, which commits status
      200, so the WriteHeader(502) that follows is ignored and the caller
      sees 200 although the alert was rejected. */
  lemma DecodeNoteMasksRejection(req: Request, query: map<string, seq<string>>, env: Env, f: nat)
    requires Admitted(req, query) && req.message.data.value.status == "firing"
    requires env.marshalError.None? && f < |req.message.data.value.alerts|
    requires forall j | 0 <= j < f :: Accepted(env.network(j)) && env.network(j).decodeError.None?
    requires env.network(f).Answered? && !Is2xx(env.network(f).statusCode) && env.network(f).decodeError.Some?
    ensures var r := Translate(req, query, env);
      |r.posts| == f + 1
      && r.events != [] && r.events[|r.events| - 1].Fail?
      && r.events[|r.events| - 1].code == StatusBadGateway
      && Reply(r.events).Status() == StatusOK
  {
    var d := req.message.data.value;
    var url := AlertURL(QueryValue(query, ApiKeyParam), QueryValue(query, RoutingKeyParam));
    var messages := FiringPosts(d, req.message.groupKey, env.now);
    FiringBranch(req, query, env);
    FiringQuietUntil(messages, url, env, 0, f);
    var step := AlertStep(messages, url, env, f);
    assert !step.proceed && |step.posts| == 1 && step.events[0].Note?;
    ReplyContents(Translate(req, query, env).events);
  }

  /** As written, more widely: once the first POST's answer fails to
      decode, whatever happens to it or to any later alert (a rejection, a
      transport error, a marshal failure) the caller sees 200. */
  lemma DecodeNoteMasksLaterFailures(req: Request, query: map<string, seq<string>>, env: Env)
    requires Admitted(req, query) && req.message.data.value.status == "firing"
    requires env.marshalError.None? && req.message.data.value.alerts != []
    requires env.network(0).Answered? && env.network(0).decodeError.Some?
    ensures Reply(Translate(req, query, env).events).Status() == StatusOK
  {
    var d := req.message.data.value;
    var url := AlertURL(QueryValue(query, ApiKeyParam), QueryValue(query, RoutingKeyParam));
    var messages := FiringPosts(d, req.message.groupKey, env.now);
    FiringBranch(req, query, env);
    var step := AlertStep(messages, url, env, 0);
    assert step.events[0].Note?;
    assert Translate(req, query, env).events[0] == step.events[0];
    ReplyContents(Translate(req, query, env).events);
  }

  /** Corrected: the handler settles its status before writing any text, so
      a run that ends in a failure answers with that failure's code; the
      texts are written as before. */
  function HeaderFirstReply(events: seq<Event>): Writer {
    if events != [] && events[|events| - 1].Fail? then Replay(Unwritten.WithHeader(events[|events| - 1].code), events)
    else Reply(events)
  }

  /** Replaying onto a writer appends the texts to what it already holds. */
  lemma {:induction false} ReplayBody(w: Writer, events: seq<Event>)
    ensures Replay(w, events).body == w.body + Texts(events)
    decreases |events|
  {
    if events != [] {
      ReplayBody(w, events[..|events| - 1]);
    }
  }

  /** With the correction the caller sees 502 exactly when a POST was not
      accepted: when the POST for alert f fails after every earlier one was
      accepted, the status is 502 whatever was printed before, and the body
      is unchanged. */
  lemma HeaderFirstReportsRejection(req: Request, query: map<string, seq<string>>, env: Env, f: nat)
    requires Admitted(req, query) && req.message.data.value.status == "firing" && env.marshalError.None?
    requires f < |req.message.data.value.alerts|
    requires forall j | 0 <= j < f :: Accepted(env.network(j))
    requires !Accepted(env.network(f))
    ensures HeaderFirstReply(Translate(req, query, env).events).Status() == StatusBadGateway
    ensures HeaderFirstReply(Translate(req, query, env).events).body == Reply(Translate(req, query, env).events).body
  {
    var d := req.message.data.value;
    var url := AlertURL(QueryValue(query, ApiKeyParam), QueryValue(query, RoutingKeyParam));
    var events := Translate(req, query, env).events;
    FiringBranch(req, query, env);
    FiringEndsInFailure(FiringPosts(d, req.message.groupKey, env.now), url, env, 0, f);
    var w := Unwritten.WithHeader(StatusBadGateway);
    CommittedStatusKept(w, events);
    ReplayBody(w, events);
    ReplayBody(Unwritten, events);
  }

  /** With the correction, a firing request whose POSTs are all accepted
      still answers 200. */
  lemma HeaderFirstKeepsSuccess(req: Request, query: map<string, seq<string>>, env: Env)
    requires Admitted(req, query) && req.message.data.value.status == "firing" && env.marshalError.None?
    requires forall j | 0 <= j < |req.message.data.value.alerts| :: Accepted(env.network(j))
    ensures HeaderFirstReply(Translate(req, query, env).events).Status() == StatusOK
  {
    var d := req.message.data.value;
    var url := AlertURL(QueryValue(query, ApiKeyParam), QueryValue(query, RoutingKeyParam));
    FiringBranch(req, query, env);
    FiringAllAccepted(FiringPosts(d, req.message.groupKey, env.now), url, env, 0);
    ReplyContents(Translate(req, query, env).events);
  }

  // ----- A rejected RECOVERY reports the message where the code belongs -----

  /** As written: the resolved branch's rejection text has one verb, filled
      with the response message, so two different rejection codes with the
      same message produce the same reply. */
  lemma ResolvedRejectionHidesCode(req: Request, query: map<string, seq<string>>, env1: Env, env2: Env)
    requires Admitted(req, query) && req.message.data.value.status == "resolved"
    requires env1.marshalError.None? && env2.marshalError.None?
    requires env1.network(0).Answered? && env1.network(0).decodeError.None? && !Is2xx(env1.network(0).statusCode)
    requires env2.network(0).Answered? && env2.network(0).decodeError.None? && !Is2xx(env2.network(0).statusCode)
    requires env1.network(0).response == env2.network(0).response
    ensures Reply(Translate(req, query, env1).events) == Reply(Translate(req, query, env2).events)
    ensures Reply(Translate(req, query, env1).events).Status() == StatusBadGateway
  {
    ReplyContents(Translate(req, query, env1).events);
  }

  /** A run of digits ended by a non-digit has one length however the text goes on. */
  lemma DigitRunLength(d1: string, rest1: string, d2: string, rest2: string)
    requires AllDigits(d1) && AllDigits(d2)
    requires rest1 != [] && !IsDigit(rest1[0]) && rest2 != [] && !IsDigit(rest2[0])
    requires d1 + rest1 == d2 + rest2
    ensures |d1| == |d2|
  {
    DigitAt(d1, rest1, |d2|);
    DigitAt(d2, rest2, |d1|);
    FollowerAt(d1, rest1);
    FollowerAt(d2, rest2);
  }

  lemma DigitAt(d: string, rest: string, k: nat)
    requires AllDigits(d)
    ensures k < |d| ==> IsDigit((d + rest)[k])
  {
  }

  lemma FollowerAt(d: string, rest: string)
    ensures rest != [] ==> (d + rest)[|d|] == rest[0]
  {
  }

  /** Corrected: the text the firing branch uses names the code and the
      message, and both can be read back from it. */
  lemma RejectionNoteIdentifiesCode(code1: nat, message1: string, code2: nat, message2: string)
    requires RejectionNote(code1, message1) == RejectionNote(code2, message2)
    ensures code1 == code2 && message1 == message2
  {
    var prefix, suffix := "Unexpected status code ", " from VictorOps: ";
    var d1, d2 := Decimal(code1), Decimal(code2);
    var s1, s2 := prefix + d1 + suffix + message1, prefix + d2 + suffix + message2;
    assert s1 == s2;
    assert d1 + (suffix + message1) == s1[|prefix|..];
    assert d2 + (suffix + message2) == s2[|prefix|..];
    DigitRunLength(d1, suffix + message1, d2, suffix + message2);
    assert d1 == s1[|prefix|..|prefix| + |d1|];
    assert d2 == s2[|prefix|..|prefix| + |d2|];
    DecimalInjective(code1, code2);
    assert message1 == s1[|prefix| + |d1| + |suffix|..];
    assert message2 == s2[|prefix| + |d2| + |suffix|..];
  }
}
