/**
 * The wire envelope the event client builds for every event (`buildPayload`
 * and `buildContext`): fresh `messageId`/`timestamp` defaults, the event's
 * own fields on top, an optional `context`, and a top-level null filter that
 * spares `anonymousId` and `context`, which the remote service requires.
 */
module Payload {
  import opened Basics
  import opened Values
  import opened Errors
  import opened Config
  import opened Ambient

  /** The two keys the null filter keeps even when they hold null. */
  const Spared: set<string> := {"anonymousId", "context"}

  /** The request-derived value `buildContext` writes under an enrichment key. */
  function Enrichment(env: Surroundings, key: string): Value {
    if key == "ip" then env.ip
    else if key == "userAgent" then env.userAgent
    else if key == "timezone" then env.timezone
    else env.locale
  }

  /** `buildContext`: in the console the caller's context as is; otherwise the
      enabled request-derived keys written over it. */
  function BuildContext(s: Settings, env: Surroundings, custom: Array): (r: Array)
    ensures env.console ==> r == custom
    ensures !env.console ==> forall k :: k in r <==> k in custom || k in EnrichmentKeys(s)
    ensures !env.console ==> forall k :: k in EnrichmentKeys(s) ==> r[k] == Enrichment(env, k)
    ensures forall k :: k in custom && k !in EnrichmentKeys(s) ==> r[k] == custom[k]
  {
    if env.console then custom
    else
      var c1 := if s.contextIp.GetOr(true) then custom["ip" := env.ip] else custom;
      var c2 := if s.contextUserAgent.GetOr(true) then c1["userAgent" := env.userAgent] else c1;
      var c3 := if s.contextTimezone.GetOr(true) then c2["timezone" := env.timezone] else c2;
      if s.contextLocale.GetOr(true) then c3["locale" := env.locale] else c3
  }

  /** The error PHP raises when `buildContext` is handed something other than an array. */
  const ContextTypeError := TypeError("buildContext(): Argument #1 ($customContext) must be of type array")

  /** `$input['context'] ?? []`, which must be a PHP array to reach `buildContext`. */
  function CustomContext(input: Array): (r: Result<Array>)
    ensures r.Ok? <==> AsArray(GetOr(input, "context", EmptyArray)).Some?
  {
    match AsArray(GetOr(input, "context", EmptyArray))
    case Some(c) => Ok(c)
    case None => Err(ContextTypeError)
  }

  /** The final `array_filter`: drop every null except under the spared keys. */
  function DropNulls(p: Array): (r: Array)
    ensures forall k :: k in r <==> k in p && (p[k] != Null || k in Spared)
    ensures forall k :: k in r ==> r[k] == p[k]
  {
    map k | k in p && (p[k] != Null || k in Spared) :: p[k]
  }

  /** `buildPayload($input, $eventData)`, with `messageId` the UUID this call
      would generate. It fails only when a context is due and the caller's is
      not an array; when enabled, the context is always present. */
  function BuildPayload(s: Settings, env: Surroundings, messageId: string, input: Array, eventData: Array): (r: Result<Array>)
    ensures r.Ok? <==> !ContextEnabled(s) || AsArray(GetOr(input, "context", EmptyArray)).Some?
    ensures r.Ok? && ContextEnabled(s) ==>
              "context" in r.value && r.value["context"] == Map(BuildContext(s, env, CustomContext(input).value))
    ensures r.Ok? && !ContextEnabled(s) ==> ("context" in r.value <==> "context" in eventData)
  {
    var merged := Merge(Defaults(env, messageId, input), eventData);
    if ContextEnabled(s) then
      var custom :- CustomContext(input);
      Ok(DropNulls(merged["context" := Map(BuildContext(s, env, custom))]))
    else Ok(DropNulls(merged))
  }

  /** The two fields `buildPayload` fills in unless the event data has them. */
  function Defaults(env: Surroundings, messageId: string, input: Array): (d: Array)
    ensures d.Keys == {"messageId", "timestamp"}
    ensures d["messageId"] == GetOr(input, "messageId", Str(messageId))
    ensures d["timestamp"] == GetOr(input, "timestamp", Str(env.now))
  {
    map["messageId" := GetOr(input, "messageId", Str(messageId)),
        "timestamp" := GetOr(input, "timestamp", Str(env.now))]
  }

  /** What a built payload holds besides its context: the event's non-null
      fields unchanged, no other null than a spared one, and nothing invented
      beyond the two defaults. */
  lemma PayloadKeepsEventFields(s: Settings, env: Surroundings, messageId: string, input: Array, eventData: Array)
    requires BuildPayload(s, env, messageId, input, eventData).Ok?
    ensures var p := BuildPayload(s, env, messageId, input, eventData).value;
            && (forall k :: k in p && p[k] == Null ==> k in Spared)
            && (forall k :: k in p ==> k in eventData || k in {"messageId", "timestamp", "context"})
            && (forall k ::
                  k in eventData && (eventData[k] != Null || k in Spared) && !(k == "context" && ContextEnabled(s)) ==>
                  k in p && p[k] == eventData[k])
            && (forall k :: k in eventData && eventData[k] == Null && k !in Spared ==> k !in p)
  {
  }

  /** The message id and timestamp: the event's own if it has them, else the
      caller's non-null ones, else a fresh id and the current time. */
  lemma PayloadDefaults(s: Settings, env: Surroundings, messageId: string, input: Array, eventData: Array)
    requires BuildPayload(s, env, messageId, input, eventData).Ok?
    ensures var p := BuildPayload(s, env, messageId, input, eventData).value;
            && ("messageId" !in eventData ==> "messageId" in p && p["messageId"] == GetOr(input, "messageId", Str(messageId)))
            && ("timestamp" !in eventData ==> "timestamp" in p && p["timestamp"] == GetOr(input, "timestamp", Str(env.now)))
  {
  }

  /** Two payloads built from the same event agree on every key, except that
      `messageId` and `timestamp` may differ where the event leaves them to be
      generated. */
  predicate SameUpToFreshValues(p: Array, q: Array, own: Array) {
    && p.Keys == q.Keys
    && forall k :: k in p && (k !in {"messageId", "timestamp"} || k in own) ==> p[k] == q[k]
  }

  /** Building a payload again later, with a new clock reading and a new
      UUID but the same request, changes at most the generated `messageId` and
      `timestamp`: an event that sets either keeps it. */
  lemma ResendDiffersOnlyInFreshValues(s: Settings, env: Surroundings, later: Surroundings,
                                       messageId: string, laterId: string, input: Array, eventData: Array)
    requires later == env.(now := later.now, messageIds := later.messageIds)
    ensures BuildPayload(s, env, messageId, input, eventData).Ok? <==> BuildPayload(s, later, laterId, input, eventData).Ok?
    ensures BuildPayload(s, env, messageId, input, eventData).Ok? ==>
              var p := BuildPayload(s, env, messageId, input, eventData).value;
              var q := BuildPayload(s, later, laterId, input, eventData).value;
              && SameUpToFreshValues(p, q, eventData)
              && (forall k :: k in p && k in {"messageId", "timestamp"} && k in input && input[k] != Null ==> p[k] == q[k])
  {
    var m1 := Merge(Defaults(env, messageId, input), eventData);
    var m2 := Merge(Defaults(later, laterId, input), eventData);
    assert m1.Keys == m2.Keys;
    assert forall k :: k in m1 ==> (m1[k] == Null <==> m2[k] == Null);
    assert forall k :: k in m1 && (k !in {"messageId", "timestamp"} || k in eventData || (k in input && input[k] != Null)) ==>
                       m1[k] == m2[k];
    if ContextEnabled(s) {
      if CustomContext(input).Ok? {
        var context := Map(BuildContext(s, env, CustomContext(input).value));
        assert context == Map(BuildContext(s, later, CustomContext(input).value));
        DropNullsAgree(m1["context" := context], m2["context" := context], input, eventData);
      }
    } else {
      DropNullsAgree(m1, m2, input, eventData);
    }
  }

  /** The null filter keeps two maps in step when they agree on which keys
      hold null and on every value outside the generated ones. */
  lemma DropNullsAgree(x: Array, y: Array, input: Array, own: Array)
    requires x.Keys == y.Keys
    requires forall k :: k in x ==> (x[k] == Null <==> y[k] == Null)
    requires forall k :: k in x && (k !in {"messageId", "timestamp"} || k in own || (k in input && input[k] != Null)) ==>
                           x[k] == y[k]
    ensures SameUpToFreshValues(DropNulls(x), DropNulls(y), own)
    ensures forall k :: k in DropNulls(x) && k in input && input[k] != Null ==> DropNulls(x)[k] == DropNulls(y)[k]
  {
  }

  /** With enrichment enabled, a console run sends exactly the caller's context,
      while a web run overwrites the caller's keys with the enabled request values. */
  lemma ContextInConsoleIsCallerContext(s: Settings, env: Surroundings, messageId: string, input: Array, eventData: Array)
    requires ContextEnabled(s)
    requires "context" in input && input["context"].Map?
    ensures var r := BuildPayload(s, env, messageId, input, eventData);
            && r.Ok?
            && (env.console ==> r.value["context"] == input["context"])
            && (!env.console ==> forall k :: k in EnrichmentKeys(s) ==> r.value["context"].m[k] == Enrichment(env, k))
  {
  }
}
