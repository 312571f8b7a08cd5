# am-rest-translator: the VictorOps handler, modelled in Dafny

am-rest-translator is a small HTTP service that receives Alertmanager webhook
notifications and forwards them to the VictorOps REST alert endpoint. Its
only logic is the `victorops` handler in `translators/victorops.go`:

- It decodes the webhook.
- It rejects a body without data, or a request whose `api_key` or
  `routing_key` query parameter is missing or empty.
- It branches on the notification status:
  - `firing` posts one VictorOps alert per Alertmanager alert, stopping at the
    first failure.
  - `resolved` posts a single `RECOVERY` message.
  - Any other status is rejected.
- It reports the outcome on the `http.ResponseWriter`.

The project has six modules:

- `Wrappers` (`wrappers.dfy`): `Option`.
- `Text` (`text.dfy`): `strconv.FormatUint(n, 10)` as `Decimal`, with its
  inverse `ParseDecimal`. `strings.Join` with its partner `Split`: a split
  undoes a join of one or more parts that hold no separator, and a join
  undoes any split.
- `Http` (`http.dfy`): the response writer, both as a value (`Writer`) and as
  a mutable `ResponseWriter` class. The first `WriteHeader`, or the first body
  write (which implies 200), fixes the status; a later `WriteHeader` is
  ignored; no write at all means 200.
- `VictorOps` (`victorops.dfy`):
  - The inbound and outbound records.
  - The handler as a function of its inputs, `Translate`. It gives back the
    POSTs issued and the writes made to the response writer.
  - The imperative handler `Handle`, with its firing loop (`PostFiring`,
    `PostAlert`) and its state-message loops (`BuildStateMessage`). Each is
    proved to do exactly what `Translate` says.
- `VictorOpsProperties` (`properties.dfy`): what the handler guarantees,
  stated over `Translate` and the writer it leaves behind.
- `Findings` (`findings.dfy`): two places where the handler as written
  disagrees with its evident intent.

Everything outside the handler's own code is an input, an `Env`:

- the clock (`now`);
- the outcome of `json.Marshal` (`marshalError`);
- the outcome of the n-th `http.Post`, with the decoding of its answer
  (`network(n)`).

The decoded webhook is a `Request`.

## Model

| member | source | states |
|---|---|---|
| Text.Decimal | translators/victorops.go:150 | The entity id numeral is non-empty and all digits, and has no leading zero unless it is "0". |
| Text.DecimalRoundTrip | translators/victorops.go:150 | Reading back the decimal numeral of a group key gives the group key. |
| Text.DecimalInjective | translators/victorops.go:150 | Distinct group keys get distinct entity ids. |
| Text.SplitJoin | translators/victorops.go:126 | Joining one or more values with ":" loses nothing when no value holds ":"; splitting gives them back. (No labels and one empty label both give "".) |
| Text.JoinSplit | translators/victorops.go:126 | Join and Split are inverse in the other direction too. |
| Http.Writer.WithHeader | translators/victorops.go:183 | WriteHeader sets the status only when nothing was sent yet; otherwise the status stays. |
| Http.Writer.WithBody | translators/victorops.go:177 | A body write commits the current status (200 if none) and appends its text. |
| Http.ResponseWriter.WriteHeader | translators/victorops.go:183 | The mutable writer's new state is the old one after WriteHeader. |
| Http.ResponseWriter.Write | translators/victorops.go:177 | The mutable writer's new state is the old one after a body write. |
| VictorOps.QueryValue | translators/victorops.go:106-113 | A parameter's value is its first value when present and non-empty, "" otherwise. |
| VictorOps.Values | translators/victorops.go:126 | The group-label values, one per label, in label order. |
| VictorOps.Is2xx | translators/victorops.go:181 | `StatusCode/100 == 2` holds exactly for 200..299. |
| VictorOps.Translate | translators/victorops.go:88-250 | The handler as a function: a POST is issued only for a decoded request with data, both credentials and status firing or resolved. Its branches are stated by the VictorOpsProperties lemmas below. |
| VictorOps.AlertStep | translators/victorops.go:157-194 | One alert of the loop: marshal, POST, decode note, status check. Stated by FiringStopsAtFirstFailure, FiringAcceptedUntil, FiringEndsInFailure. |
| VictorOps.Firing | translators/victorops.go:130-195 | The loop from alert i on, stopping at the first failure. Stated by FiringPostsFollowMessages, FiringStopsAtFirstFailure, FiringAllAccepted, FiringEndsInFailure. |
| VictorOps.Resolved | translators/victorops.go:196-243 | The resolved branch. Stated by ResolvedSendsOneRecovery and ResolvedIgnoresAlerts. |
| VictorOps.Lookup | translators/victorops.go:133 | Go's `m[key]` on a label map. Stated by LookupSound and LookupFindsEntry. |
| VictorOps.MessageType | translators/victorops.go:131-135 | The message type of a firing alert. Stated by MessageTypeChoices, MessageTypeFromLabel, MessageTypeDefault. |
| VictorOps.Lines | translators/victorops.go:138-143 | The `k: v\n` lines of a map's entries. Stated by LinesAppend and LinesHaveEntry. |
| VictorOps.Trailer | translators/victorops.go:144-145 | The two source-URL lines. Stated by StateMessageEndsWithSources. |
| VictorOps.StateMessage | translators/victorops.go:137-145 | The state message. Stated by StateMessageListsAnnotations, StateMessageListsLabels, StateMessageEndsWithSources, and computed by BuildStateMessage. |
| VictorOps.FiringPost | translators/victorops.go:148-156 | The firing message of one alert. Stated by FiringPostsInOrder and EveryPostIdentifiesGroup. |
| VictorOps.RecoveryPost | translators/victorops.go:197-204 | The RECOVERY message. Stated by ResolvedSendsOneRecovery and EveryPostIdentifiesGroup. |
| VictorOps.EntityID | translators/victorops.go:150 | The group key in decimal. Stated by EntityIDRoundTrip and Text.DecimalInjective. |
| VictorOps.DisplayName | translators/victorops.go:126 | The ":"-joined group-label values. Stated by DisplayNameRecoversValues. |
| VictorOps.AlertURL | translators/victorops.go:161 | The POST URL. Stated by AlertURLCarriesKeys and AlertURLAmbiguous. |
| VictorOps.RejectionNote | translators/victorops.go:184 | The firing rejection text. Stated by FiringFailureIs502 and Findings.RejectionNoteIdentifiesCode. |
| VictorOps.ResolvedRejectionNote | translators/victorops.go:233 | The resolved rejection text, as written. Stated by ResolvedSendsOneRecovery and Findings.ResolvedRejectionHidesCode. |
| VictorOps.BuildStateMessage | translators/victorops.go:137-145 | The string accumulated by the two range loops plus the two URL lines is the state message. |
| VictorOps.Handle | translators/victorops.go:88-250 | The handler issues exactly the POSTs of `Translate`, and leaves the writer as `Translate`'s writes would. |
| VictorOps.PostFiring | translators/victorops.go:128-195 | The alert loop issues the POSTs and writes of the firing branch, stopping where it does. |
| VictorOps.PostAlert | translators/victorops.go:130-194 | One iteration: the alert's message is built, marshalled and posted, and the loop stops on failure. |
| VictorOps.PostRecovery | translators/victorops.go:196-243 | The resolved branch issues one RECOVERY POST and the writes of `Resolved`. |
| VictorOps.ReplayAppend | translators/victorops.go:174-186 | Writes made in two stretches leave the writer as if made in one. |
| VictorOpsProperties.ReplyContents | translators/victorops.go:174-186 | The client sees the status of the first write (200 for a bare Fprintf or none) and every text written. |
| VictorOpsProperties.CommittedStatusKept | translators/victorops.go:183 | Once the header is out, no later write changes the status. |
| VictorOpsProperties.MalformedBodyRejected | translators/victorops.go:93-104 | An undecodable body or one without data gets 400 and no POST; the body is the decoding error's text or "Missing fields request body". |
| VictorOpsProperties.MissingCredentialsRejected | translators/victorops.go:105-121 | A missing or empty api_key or routing_key gets 400 naming both parameters, and no POST, whatever the status. |
| VictorOpsProperties.UnknownStatusRejected | translators/victorops.go:244-248 | A status other than firing or resolved gets 400 "Unknown Alertmanager status: …" and no POST. |
| VictorOpsProperties.MarshalFailureIs500 | translators/victorops.go:188-193 | A marshal failure gets 500 with "Failed to marshall victoropsPost: " and the error as body, in both branches (also lines 237-242). With one marshal outcome per request it fails on the first message, so no POST is issued. |
| VictorOpsProperties.LookupSound | translators/victorops.go:133 | A label lookup gives the value of an entry with that key, or "" when there is none. |
| VictorOpsProperties.LookupFindsEntry | translators/victorops.go:133 | With distinct keys, the lookup of a present key gives its value. |
| VictorOpsProperties.MessageTypeChoices | translators/victorops.go:131-135 | The message type is never empty: CRITICAL or a victorops_message_type label's value. |
| VictorOpsProperties.MessageTypeFromLabel | translators/victorops.go:131-135 | A non-empty victorops_message_type label sets the message type. |
| VictorOpsProperties.MessageTypeDefault | translators/victorops.go:131-135 | Without such a label, or with an empty one, the type is CRITICAL. |
| VictorOpsProperties.LinesAppend | translators/victorops.go:138-143 | The lines of two runs of entries are the lines of the first followed by those of the second. |
| VictorOpsProperties.LinesHaveEntry | translators/victorops.go:138-143 | Each entry's line `k: v\n` appears right after the lines of the entries before it. |
| VictorOpsProperties.StateMessageListsAnnotations | translators/victorops.go:138-140 | The state message holds the line of every annotation, inside the annotation block at its start. |
| VictorOpsProperties.StateMessageListsLabels | translators/victorops.go:141-143 | It holds the line of every label, after all annotation lines. |
| VictorOpsProperties.StateMessageEndsWithSources | translators/victorops.go:144-145 | It ends with exactly "Prometheus: " + generator URL + "\n" + "Alertmanager: " + external URL. |
| VictorOpsProperties.EntityIDRoundTrip | translators/victorops.go:150 | The entity id is all digits and reads back as the group key. |
| VictorOpsProperties.DisplayNameRecoversValues | translators/victorops.go:126 | With at least one group label and no ":" in any value, the display name splits at ":" back into the group-label values. |
| VictorOpsProperties.AlertURLCarriesKeys | translators/victorops.go:161 | The POST URL is the fixed endpoint followed by api_key "/" routing_key; when api_key holds no "/", both keys can be read back. |
| VictorOpsProperties.AlertURLAmbiguous | translators/victorops.go:161 | The keys are not escaped: api_key "a/b" with routing_key "c" gives the same URL as "a" with "b/c", and reads back as the latter. |
| VictorOpsProperties.FiringPostsFollowMessages | translators/victorops.go:130-161 | The loop's POSTs are the alerts' messages in input order, one each, to the same URL. |
| VictorOpsProperties.FiringStopsAtFirstFailure | translators/victorops.go:163-186 | Every POST but the last was accepted; fewer POSTs than alerts means marshalling failed or the last one was not accepted. |
| VictorOpsProperties.FiringAllAccepted | translators/victorops.go:130-195 | When every POST is accepted, every alert is posted and only bare notes are written. |
| VictorOpsProperties.FiringQuietUntil | translators/victorops.go:170-186 | Accepted POSTs with readable answers write nothing. |
| VictorOpsProperties.FiringEndsInFailure | translators/victorops.go:181-186 | After accepted POSTs, the first one not accepted ends the loop with a 502 write, f + 1 POSTs in all. |
| VictorOpsProperties.FiringPostsInOrder | translators/victorops.go:130-156 | The j-th POST carries the j-th alert's message type, state message and start time, stamped with the current time. There are no more POSTs than alerts, and none after the first one not accepted. |
| VictorOpsProperties.FiringAllAcceptedIs200 | translators/victorops.go:128-195 | All POSTs accepted means one POST per alert and status 200; zero alerts means no POST and no write. |
| VictorOpsProperties.FiringFailureIs502 | translators/victorops.go:163-186 | A transport error, or a rejection with a readable answer, after clean acceptances gives f + 1 POSTs and 502. The body is the transport error's text, or "Unexpected status code <code> from VictorOps: <message>". |
| VictorOpsProperties.FiringAcceptedUntil | translators/victorops.go:170-186 | Accepted POSTs write nothing but bare notes: the loop's writes are notes followed by the writes from the first unaccepted message on. |
| VictorOpsProperties.FiringToleratesUndecodableResponse | translators/victorops.go:170-186 | In the firing path, when POSTs 0..f are accepted and the answer to POST f does not decode, that is reported as a bare note with only notes before it, and POST f + 1 is still issued. |
| VictorOpsProperties.ResolvedSendsOneRecovery | translators/victorops.go:196-235 | Resolved: exactly one RECOVERY POST, with state message "Entity recovered" and no start time. A transport error, an unreadable answer or a non-2xx status each give 502, with the transport error, the decoding error or the rejection text as body; otherwise 200 with an empty body. |
| VictorOpsProperties.ResolvedIgnoresAlerts | translators/victorops.go:196-243 | The resolved outcome does not depend on the alerts. |
| VictorOpsProperties.EveryPostIdentifiesGroup | translators/victorops.go:148-161 | Every POST, in both branches, has the decimal group key as entity id and the ":"-joined group-label values as display name. It names Prometheus Alertmanager as the monitoring tool and goes to the credentials' URL. |
| Findings.DecodeNoteMasksRejection | translators/victorops.go:174-186 | As written: when POSTs 0..f-1 are accepted with readable answers and POST f is rejected with an unreadable answer, f + 1 POSTs are issued and the run ends in a 502 write, yet the client sees 200. |
| Findings.DecodeNoteMasksLaterFailures | translators/victorops.go:174-186 | As written: once the first POST's answer does not decode, the client sees 200 whatever fails afterwards, on that alert or a later one. |
| Findings.ReplayBody | translators/victorops.go:177 | Writes append their texts to what the writer already holds. |
| Findings.HeaderFirstReply | translators/victorops.go:174-186 | The corrected reply, with the status settled before any text. Stated by HeaderFirstReportsRejection and HeaderFirstKeepsSuccess. |
| Findings.HeaderFirstReportsRejection | translators/victorops.go:181-186 | Corrected: when the status is settled before any text, a rejected firing POST is always answered 502, with the same body. |
| Findings.HeaderFirstKeepsSuccess | translators/victorops.go:128-195 | Corrected: a run whose POSTs are all accepted is still answered 200. |
| Findings.ResolvedRejectionHidesCode | translators/victorops.go:229-234 | As written: two different rejection codes with the same message give the same reply. |
| Findings.RejectionNoteIdentifiesCode | translators/victorops.go:181-184 | Corrected: the firing path's rejection text determines both the code and the message. |

## Left out

- JSON decoding of the webhook (lines 91-93) and of the VictorOps answer (lines 171-173, 219-221) is library code. A `Request` is the decoded webhook or the decoding error. An `Outcome` carries the decoded answer and the decoding error, if any.
- `json.Marshal` (lines 158, 206) is one outcome, `Env.marshalError`, shared by every call of a request. A per-call outcome is not modelled, so the model does not capture a marshal failure on alert k after k POSTs.
- The URL of line 161 joins the keys unescaped, so an api_key holding "/" cannot be told apart from a different split of the keys (`AlertURLAmbiguous`); the read-back lemma `AlertURLCarriesKeys` holds for api keys without "/".
- `http.Post` and its transport (lines 161, 209) are the oracle `Env.network`, indexed by the POST's position in the request. Closing of response bodies and connection reuse are not modelled.
- `time.Now()` (lines 151, 200) is one value, `Env.now`, for the whole request. The source reads the clock once per alert. `alert.StartsAt.Unix()` (line 152) is the given integer `startsAt`.
- Logging (logrus), `main.go` and `translators/translators.go` (server start-up and route registration) are not part of this model.
- Go map iteration order (lines 138, 141): labels and annotations are sequences of entries, visited in the order given. Order-dependent results hold for that order; the state-message properties are stated per entry, whatever the order.
- VictorOps.Values: Alertmanager's `KV.Values()` (line 126) returns the values sorted by key, with `alertname` first. The model takes the group labels' values in the order the sequence gives them, so `DisplayName` matches line 126 only when the group labels are given in that order. For example, labels b=1 and a=2 in that order give "1:2", where the source gives "2:1".
- VictorOps.Lookup: it models Go's `m[key]` on a map as the first entry with that key. The lemma that a present key gives its value (`LookupFindsEntry`) assumes distinct keys, as a Go map has.
- The JSON field tags (`omitempty`): a zero `stateStartTime` is taken to mean "omitted". The acknowledgement fields are always empty strings.
- Null alerts: the code checks only that the data part is present (line 99), and a null alert list decodes to an empty one. So `firing` with no alerts posts nothing and answers 200, and `resolved` still sends its RECOVERY message; the model does the same.
- Concurrency between requests: each request is independent and shares nothing.

## Findings

| source | as written | input that shows it | evidently intended | confidence | as-written member | corrected member |
|---|---|---|---|---|---|---|
| translators/victorops.go:174-186 | When a firing POST's answer does not decode, line 177 writes the note to the body with no header. That commits status 200, so the `WriteHeader(502)` at line 183 has no effect, and neither has any later `WriteHeader` for a later alert's transport error, rejection or marshal failure (`DecodeNoteMasksLaterFailures`). | firing, one alert, POST answered 500 with a body that is not JSON: the caller gets 200 with the 502 text in the body. Also: two alerts, the first accepted with an unreadable answer, the second hit by a transport error: 2 POSTs and 200 | A rejected alert is answered 502, as it is when the answer decodes | medium (not executed) | Findings.DecodeNoteMasksRejection | Findings.HeaderFirstReportsRejection |
| translators/victorops.go:231-233 | The resolved rejection text has one `%v`, filled with the response message. The status code is never printed, and the message lands where the code belongs. | resolved, POST answered 404 or 500 with message "m": both replies are "Unexpected status code m from VictorOps: " | The text names the code and the message, as at line 184 | high (not executed) | Findings.ResolvedRejectionHidesCode | Findings.RejectionNoteIdentifiesCode |

The handler model (`Translate`, `Handle`) follows the code as written. The corrected members say what the evidently intended version guarantees.
