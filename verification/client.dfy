/**
 * The event-ingestion client: construction, the five event verbs and
 * `batch`. Each verb validates, shapes its payload and hands it to the
 * request path; a verb that fails validation issues no request at all.
 */
module Client {
  import opened Basics
  import opened Values
  import opened Errors
  import opened Config
  import opened Ambient
  import opened Validation
  import opened Payload
  import opened Transport

  /** A constructed client: its settings, write key and trimmed host. */
  datatype Client = Client(settings: Settings, writeKey: string, host: string)

  /** The five single-event verbs. */
  datatype Verb = IdentifyVerb | TrackVerb | PageVerb | ScreenVerb | GroupVerb

  /** An HTTP request the client issues; every event request is a POST. */
  datatype Request = Request(endpoint: string, payload: Array)

  const WriteKeyRequired := "Write key is required"
  const BatchEmptyMessage := "At least one event is required"
  const AppsPath := "/api/public/apps/"

  /** The constructor: an empty write key (missing, "" or "0") is a configuration error. */
  function Connect(s: Settings): (r: Result<Client>)
    ensures r.Err? <==> EmptyString(s.writeKey.GetOr(""))
    ensures r.Err? ==> r.error == ConfigurationError(WriteKeyRequired)
    ensures r.Ok? ==> r.value.settings == s && r.value.writeKey == s.writeKey.value
    ensures r.Ok? ==> r.value.host == Host(s)
  {
    var key := s.writeKey.GetOr("");
    if EmptyString(key) then Err(ConfigurationError(WriteKeyRequired))
    else Ok(Client(s, key, Host(s)))
  }

  /** The last path segment of a verb's endpoint, also the job type that names it. */
  function VerbName(v: Verb): string {
    match v
    case IdentifyVerb => "identify"
    case TrackVerb => "track"
    case PageVerb => "page"
    case ScreenVerb => "screen"
    case GroupVerb => "group"
  }

  function Validate(v: Verb, data: Array): (r: Result<()>)
    ensures r.Err? ==> r.error.Validation?
    ensures !HasIdentity(data) ==> r == Err(MissingRequired(IdentityField))
  {
    match v
    case TrackVerb => ValidateWithField(data, "event")
    case GroupVerb => ValidateWithField(data, "groupId")
    case _ => ValidateIdentity(data)
  }

  /** The page verb's properties: the caller's, with `url`, `path`, `referrer`
      and `title` forced from the top-level data (null when absent). */
  function PageProperties(data: Array): (r: Result<Array>)
    ensures r.Ok? <==> AsArray(GetOr(data, "properties", EmptyArray)).Some?
    ensures r.Ok? ==> forall k :: k in {"url", "path", "referrer", "title"} ==> k in r.value && r.value[k] == Get(data, k)
    ensures r.Ok? ==> forall k :: k in r.value && k !in {"url", "path", "referrer", "title"} ==>
                                    k in AsArray(GetOr(data, "properties", EmptyArray)).value
    ensures r.Ok? ==> var given := AsArray(GetOr(data, "properties", EmptyArray)).value;
                      forall k :: k in given && k !in {"url", "path", "referrer", "title"} ==>
                                    k in r.value && r.value[k] == given[k]
  {
    match AsArray(GetOr(data, "properties", EmptyArray))
    case None => Err(TypeError("array_merge(): Argument #1 must be of type array"))
    case Some(given) =>
      Ok(Merge(given, map["url" := Get(data, "url"), "path" := Get(data, "path"),
                          "referrer" := Get(data, "referrer"), "title" := Get(data, "title")]))
  }

  /** The fields each verb adds on top of the defaults. */
  function EventData(v: Verb, data: Array): (r: Result<Array>)
    requires v == TrackVerb ==> "event" in data
    requires v == GroupVerb ==> "groupId" in data
    ensures r.Ok? <==> v != PageVerb || PageProperties(data).Ok?
    ensures r.Ok? ==> r.value.Keys <= {"userId", "anonymousId", "traits", "event", "properties", "name", "groupId"}
    ensures r.Ok? ==> "userId" in r.value && r.value["userId"] == Get(data, "userId")
    ensures r.Ok? ==> "anonymousId" in r.value && r.value["anonymousId"] == Get(data, "anonymousId")
    ensures r.Ok? && v == PageVerb ==> "properties" in r.value && r.value["properties"] == Map(PageProperties(data).value)
  {
    var ids := map["userId" := Get(data, "userId"), "anonymousId" := Get(data, "anonymousId")];
    match v
    case IdentifyVerb => Ok(ids["traits" := GetOr(data, "traits", EmptyArray)])
    case TrackVerb => Ok(ids["event" := data["event"]]["properties" := GetOr(data, "properties", EmptyArray)])
    case PageVerb =>
      var properties :- PageProperties(data);
      Ok(ids["name" := Get(data, "name")]["properties" := Map(properties)])
    case ScreenVerb => Ok(ids["name" := Get(data, "name")]["properties" := GetOr(data, "properties", EmptyArray)])
    case GroupVerb => Ok(ids["groupId" := data["groupId"]]["traits" := GetOr(data, "traits", EmptyArray)])
  }

  /** Validation, then payload shaping, for one verb. */
  function Prepare(c: Client, env: Surroundings, v: Verb, data: Array): (r: Result<Request>)
    ensures !HasIdentity(data) ==> r == Err(MissingRequired(IdentityField))
    ensures Validate(v, data).Err? ==> r == Err(Validate(v, data).error)
    ensures r.Ok? ==> r.value.endpoint == AppsPath + VerbName(v)
  {
    var _ :- Validate(v, data);
    var eventData :- EventData(v, data);
    var payload :- BuildPayload(c.settings, env, env.messageIds(0), data, eventData);
    Ok(Request(AppsPath + VerbName(v), payload))
  }

  /** Issues a prepared request, or raises the preparation error without any request. */
  function Deliver(c: Client, prepared: Result<Request>, outcomes: seq<Outcome>): (r: Sent)
    requires MaxAttempts(c.settings) <= |outcomes|
    ensures prepared.Err? ==> r == Sent(Err(prepared.error), 0, [])
    ensures prepared.Ok? ==> r == Send(c.settings, outcomes)
  {
    match prepared
    case Err(e) => Sent(Err(e), 0, [])
    case Ok(_) => Send(c.settings, outcomes)
  }

  /** `identify`, `track`, `page`, `screen` or `group` on the client. */
  function Call(c: Client, env: Surroundings, v: Verb, data: Array, outcomes: seq<Outcome>): Sent
    requires MaxAttempts(c.settings) <= |outcomes|
  {
    Deliver(c, Prepare(c, env, v, data), outcomes)
  }

  /** The `array_map` over a batch: every item is the payload built from the
      event alone, the i-th under the i-th message id. It fails exactly when
      some event's context is not an array. */
  function BuildItems(c: Client, env: Surroundings, events: seq<Array>): (r: Result<seq<Value>>)
    ensures r.Ok? <==> BatchItemsBuild(c, env, events)
    ensures r.Err? ==> r.error == ContextTypeError
    ensures r.Ok? ==> |r.value| == |events|
    ensures r.Ok? ==> forall i :: 0 <= i < |events| ==>
              r.value[i].Map? &&
              BuildPayload(c.settings, env, env.messageIds(i), events[i], events[i]) == Ok(r.value[i].m)
  {
    if BatchItemsBuild(c, env, events) then
      Ok(seq(|events|, i requires 0 <= i < |events| =>
                          Map(BuildPayload(c.settings, env, env.messageIds(i), events[i], events[i]).value)))
    else Err(ContextTypeError)
  }

  function BatchLimitMessage(limit: int): string {
    "Batch size cannot exceed " + IntToString(limit) + " events"
  }

  /** `batch($events)`: between one and the configured size (default 100) events. */
  function PrepareBatch(c: Client, env: Surroundings, events: seq<Array>): (r: Result<Request>)
    ensures |events| == 0 ==> r == Err(Multiple(map["events" := [BatchEmptyMessage]]))
    ensures 0 < |events| && |events| > BatchSize(c.settings) ==>
              r == Err(Multiple(map["events" := [BatchLimitMessage(BatchSize(c.settings))]]))
    ensures r.Ok? ==> 0 < |events| <= BatchSize(c.settings)
    ensures r.Ok? ==> r.value.endpoint == AppsPath + "batch" && r.value.payload.Keys == {"batch"}
    ensures r.Ok? ==> r.value.payload["batch"].List? && |r.value.payload["batch"].items| == |events|
    ensures r.Ok? ==> BuildItems(c, env, events) == Ok(r.value.payload["batch"].items)
    ensures r.Ok? <==> 0 < |events| <= BatchSize(c.settings) && BatchItemsBuild(c, env, events)
    ensures 0 < |events| <= BatchSize(c.settings) && !BatchItemsBuild(c, env, events) ==> r == Err(ContextTypeError)
  {
    if |events| == 0 then Err(Multiple(map["events" := [BatchEmptyMessage]]))
    else if |events| > BatchSize(c.settings) then
      Err(Multiple(map["events" := [BatchLimitMessage(BatchSize(c.settings))]]))
    else
      var items :- BuildItems(c, env, events);
      Ok(Request(AppsPath + "batch", map["batch" := List(items)]))
  }

  function Batch(c: Client, env: Surroundings, events: seq<Array>, outcomes: seq<Outcome>): Sent
    requires MaxAttempts(c.settings) <= |outcomes|
  {
    Deliver(c, PrepareBatch(c, env, events), outcomes)
  }

  /* ---------- properties relating the verbs to their parts ---------- */

  /** Every verb refuses to send an event without identity: the identity rule's
      error, and not a single request. */
  lemma NoIdentityNoRequest(c: Client, env: Surroundings, v: Verb, data: Array, outcomes: seq<Outcome>)
    requires MaxAttempts(c.settings) <= |outcomes|
    requires !HasIdentity(data)
    ensures Call(c, env, v, data, outcomes) == Sent(Err(MissingRequired(IdentityField)), 0, [])
  {
  }

  /** A prepared request passed validation and carries the payload built
      from the verb's event data. */
  lemma PreparedIsBuilt(c: Client, env: Surroundings, v: Verb, data: Array)
    requires Prepare(c, env, v, data).Ok?
    ensures Validate(v, data).Ok? && HasIdentity(data)
    ensures v == TrackVerb ==> "event" in data
    ensures v == GroupVerb ==> "groupId" in data
    ensures EventData(v, data).Ok?
    ensures BuildPayload(c.settings, env, env.messageIds(0), data, EventData(v, data).value).Ok?
    ensures Prepare(c, env, v, data).value.payload
            == BuildPayload(c.settings, env, env.messageIds(0), data, EventData(v, data).value).value
  {
  }

  /** What a single-event verb needs to get as far as a request: its
      validation passes, a page's properties are an array, and the context is
      an array whenever one is due. */
  predicate Preparable(c: Client, v: Verb, data: Array) {
    && Validate(v, data).Ok?
    && (v == PageVerb ==> AsArray(GetOr(data, "properties", EmptyArray)).Some?)
    && (ContextEnabled(c.settings) ==> AsArray(GetOr(data, "context", EmptyArray)).Some?)
  }

  /** A verb is prepared exactly when it is preparable: validation, the page
      properties and the context are the only ways to fail before a request. */
  lemma PrepareSucceeds(c: Client, env: Surroundings, v: Verb, data: Array)
    ensures Prepare(c, env, v, data).Ok? <==> Preparable(c, v, data)
  {
    if Preparable(c, v, data) {
      assert v == TrackVerb ==> "event" in data;
      assert v == GroupVerb ==> "groupId" in data;
    }
  }

  /** A prepared single-event payload always carries an `anonymousId` key, null or not,
      and at least one of the two identifiers in it is non-empty. */
  lemma PreparedPayloadCarriesIdentity(c: Client, env: Surroundings, v: Verb, data: Array)
    requires Preparable(c, v, data)
    ensures Prepare(c, env, v, data).Ok?
    ensures var p := Prepare(c, env, v, data).value.payload;
            && "anonymousId" in p && "messageId" in p
            && (("userId" in p && !IsEmpty(p["userId"])) || !IsEmpty(p["anonymousId"]))
  {
    PrepareSucceeds(c, env, v, data);
    PreparedIsBuilt(c, env, v, data);
    var eventData := EventData(v, data).value;
    var p := BuildPayload(c.settings, env, env.messageIds(0), data, eventData).value;
    PayloadKeepsEventFields(c.settings, env, env.messageIds(0), data, eventData);
    PayloadDefaults(c.settings, env, env.messageIds(0), data, eventData);
    assert "anonymousId" in p && p["anonymousId"] == Get(data, "anonymousId");
    if !IsEmpty(Get(data, "userId")) {
      assert "userId" in p && p["userId"] == Get(data, "userId");
    }
  }

  /** The page payload's properties hold `url`, `path`, `referrer` and `title`
      from the top-level data, overriding whatever the caller put there. */
  lemma PagePropertiesForced(c: Client, env: Surroundings, data: Array)
    requires Preparable(c, PageVerb, data)
    ensures Prepare(c, env, PageVerb, data).Ok?
    ensures var p := Prepare(c, env, PageVerb, data).value.payload;
            && "properties" in p && p["properties"].Map?
            && forall k :: k in {"url", "path", "referrer", "title"} ==>
                 k in p["properties"].m && p["properties"].m[k] == Get(data, k)
  {
    PrepareSucceeds(c, env, PageVerb, data);
    PreparedIsBuilt(c, env, PageVerb, data);
    var eventData := EventData(PageVerb, data).value;
    var p := BuildPayload(c.settings, env, env.messageIds(0), data, eventData).value;
    PayloadKeepsEventFields(c.settings, env, env.messageIds(0), data, eventData);
    assert p["properties"] == Map(PageProperties(data).value);
  }

  /** A batch of exactly the configured size is accepted (all its items built),
      one more is refused, and the refusal names the limit. */
  lemma BatchSizeBoundary(c: Client, env: Surroundings, events: seq<Array>)
    requires 0 < |events| && BatchItemsBuild(c, env, events)
    ensures |events| <= BatchSize(c.settings) ==> PrepareBatch(c, env, events).Ok?
    ensures |events| > BatchSize(c.settings) ==>
              var e := PrepareBatch(c, env, events).error;
              e.Validation? && ParseInt(e.errors["events"][0][25..|e.errors["events"][0]| - 7]) == Some(BatchSize(c.settings))
  {
    if |events| > BatchSize(c.settings) {
      var n := BatchSize(c.settings);
      var m := BatchLimitMessage(n);
      assert m[25..|m| - 7] == IntToString(n);
      IntToStringRoundTrip(n);
    }
  }

  /** Every item of the batch has an array (or no) context where one is needed. */
  predicate BatchItemsBuild(c: Client, env: Surroundings, events: seq<Array>) {
    !ContextEnabled(c.settings) || forall i :: 0 <= i < |events| ==> AsArray(GetOr(events[i], "context", EmptyArray)).Some?
  }

  /** Each batch item is built from the item itself, so its own `type` (and
      every other non-null field) survives into the payload. */
  lemma BatchItemKeepsType(c: Client, env: Surroundings, events: seq<Array>, i: nat)
    requires PrepareBatch(c, env, events).Ok?
    requires i < |events| && "type" in events[i] && events[i]["type"] != Null
    ensures var items := PrepareBatch(c, env, events).value.payload["batch"].items;
            items[i].Map? && "type" in items[i].m && items[i].m["type"] == events[i]["type"]
  {
    PayloadKeepsEventFields(c.settings, env, env.messageIds(i), events[i], events[i]);
  }
}
