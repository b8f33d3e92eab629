/**
 * The model-event trait (`TracksDittofeedEvents`): when auto-tracking of
 * model events is on, creating, updating or deleting a model identifies
 * its user and tracks a named event through the facade. The automatic
 * path swallows every failure; `trackCustomEvent` lets them through.
 */
module ModelTracking {
  import opened Basics
  import opened Values
  import opened Errors
  import opened Config
  import opened Ambient
  import opened Manager
  import FakeFacade
  import Client

  /** What the trait reads of an Eloquent model. */
  datatype Model = Model(
    /** `get_class($this)` and `class_basename($this)`. */
    className: string,
    basename: string,
    /** `$this->getKey()`. */
    key: Value,
    /** `$this->dittofeedEvents`, empty when the model declares none. */
    eventNames: map<string, Option<string>>,
    /** What `dittofeedProperties` or `getDittofeedProperties()` returns, if the model has either. */
    customProperties: Option<Array>,
    /** Whether the model has `getAuthIdentifier` (is a user itself). */
    authenticatable: bool,
    /** The key of `$this->user`, when that relation exists and holds a model. */
    relatedUserKey: Option<Value>,
    /** `$this->user_id`, null when unset. */
    userIdAttribute: Value,
    /** `getDittofeedTraits()`. */
    traits: Array)

  /** The facade as the trait sees it: a verb call and its answer or exception. */
  type Facade = Args -> Result<Array>

  /** The model events the trait hooks into. */
  const HookedEvents: seq<string> := ["created", "updated", "deleted"]

  /** `bootTracksDittofeedEvents`: the model events that get a listener. */
  function Hooks(s: Settings): (r: seq<string>)
    ensures r == [] || r == HookedEvents
    ensures r != [] <==> Truthy(s.autoTrackEnabled) && Truthy(s.autoTrackModelEvents)
  {
    if !Truthy(s.autoTrackEnabled) || !Truthy(s.autoTrackModelEvents) then [] else HookedEvents
  }

  /** PHP's `(string)` cast: strings as they are, integers as their canonical
      decimal text, true as "1", null and false as "", arrays as "Array". */
  function StringCast(v: Value): (r: string)
    ensures v.Str? ==> r == v.s
    ensures v.Int? ==> r == IntToString(v.i) && ParseInt(r) == Some(v.i)
    ensures v == Bool(true) ==> r == "1"
    ensures v == Null || v == Bool(false) ==> r == ""
    ensures v.Map? || v.List? ==> r == "Array"
  {
    match v
    case Null => ""
    case Bool(b) => if b then "1" else ""
    case Int(i) => IntToStringRoundTrip(i); IntToString(i)
    case Str(s) => s
    case _ => "Array"
  }

  /** `getDittofeedEventName`: a set entry of the model's mapping wins;
      otherwise the three hooked events get "<Basename> Created/Updated/Deleted". */
  function EventName(model: Model, eventType: string): (r: Option<string>)
    ensures eventType in model.eventNames && model.eventNames[eventType].Some? ==> r == model.eventNames[eventType]
    ensures !(eventType in model.eventNames && model.eventNames[eventType].Some?) ==>
              (r.Some? <==> eventType in HookedEvents)
  {
    if eventType in model.eventNames && model.eventNames[eventType].Some? then model.eventNames[eventType]
    else if eventType == "created" then Some(model.basename + " Created")
    else if eventType == "updated" then Some(model.basename + " Updated")
    else if eventType == "deleted" then Some(model.basename + " Deleted")
    else None
  }

  /** `getDittofeedEventProperties`: type, key and event type, with the
      model's own properties merged over them. */
  function EventProperties(model: Model, eventType: string): (r: Array)
    ensures r.Keys == {"model_type", "model_id", "event_type"} + (if model.customProperties.Some? then model.customProperties.value.Keys else {})
    ensures model.customProperties.Some? ==> forall k :: k in model.customProperties.value ==> r[k] == model.customProperties.value[k]
    ensures "event_type" !in model.customProperties.GetOr(map[]) ==> r["event_type"] == Str(eventType)
  {
    var base := map["model_type" := Str(model.className), "model_id" := model.key, "event_type" := Str(eventType)];
    Merge(base, model.customProperties.GetOr(map[]))
  }

  /** `getDittofeedUserId`: the model's own key if it is a user, else its
      user's key, else its `user_id`, else the authenticated user, else null. */
  function UserId(model: Model, env: Surroundings): (r: Option<string>)
    ensures model.authenticatable ==> r == Some(StringCast(model.key))
    ensures !model.authenticatable && model.relatedUserKey.Some? ==> r == Some(StringCast(model.relatedUserKey.value))
    ensures !model.authenticatable && model.relatedUserKey.None? && model.userIdAttribute != Null ==>
              r == Some(StringCast(model.userIdAttribute))
    ensures !model.authenticatable && model.relatedUserKey.None? && model.userIdAttribute == Null ==> r == env.authId
  {
    if model.authenticatable then Some(StringCast(model.key))
    else if model.relatedUserKey.Some? then Some(StringCast(model.relatedUserKey.value))
    else if model.userIdAttribute != Null then Some(StringCast(model.userIdAttribute))
    else env.authId
  }

  /** The facade calls a trait method made, and how the method itself ended. */
  datatype Tracked = Tracked(calls: seq<Args>, result: Result<()>)

  /** `trackDittofeedEvent($eventType)`: nothing for a falsy event name;
      otherwise identify, then track. A failing identify does not stop the
      track, and no failure escapes. */
  function TrackEvent(model: Model, env: Surroundings, eventType: string, facade: Facade): (r: Tracked)
    ensures r.result == Ok(())
    ensures |r.calls| == 0 <==> EventName(model, eventType).None? || EmptyString(EventName(model, eventType).value)
    ensures |r.calls| > 0 ==> r.calls == [IdentifyArgs(UserId(model, env), model.traits, None),
                                        TrackArgs(EventName(model, eventType).value, EventProperties(model, eventType),
                                                  UserId(model, env), None)]
  {
    match EventName(model, eventType)
    case None => Tracked([], Ok(()))
    case Some(name) =>
      if EmptyString(name) then Tracked([], Ok(()))
      else
        var userId := UserId(model, env);
        var identify := IdentifyArgs(userId, model.traits, None);
        var _ := facade(identify);
        var track := TrackArgs(name, EventProperties(model, eventType), userId, None);
        var _ := facade(track);
        Tracked([identify, track], Ok(()))
  }

  /** `trackCustomEvent($event, $properties)`: one track call with the caller's
      properties over the `custom` defaults; its failure is the method's failure. */
  function TrackCustomEvent(model: Model, env: Surroundings, event: string, properties: Array, facade: Facade): (r: Tracked)
    ensures |r.calls| == 1 && r.calls[0].TrackArgs? && r.calls[0].event == event
    ensures r.calls[0].userId == UserId(model, env)
    ensures r.result.Err? <==> facade(r.calls[0]).Err?
    ensures r.result.Err? ==> r.result.error == facade(r.calls[0]).error
  {
    var call := TrackArgs(event, Merge(EventProperties(model, "custom"), properties), UserId(model, env), None);
    match facade(call)
    case Err(e) => Tracked([call], Err(e))
    case Ok(_) => Tracked([call], Ok(()))
  }

  /** The fake after it has received the given calls in order. */
  function Replay(f: FakeFacade.Fake, calls: seq<Args>): FakeFacade.Fake
    decreases |calls|
  {
    if |calls| == 0 then f else Replay(FakeFacade.Call(f, calls[0]).fake, calls[1..])
  }

  /* ---------- properties ---------- */

  /** A model without a mapping gets a default name for each hooked event,
      and no event at all for any other type. */
  lemma DefaultEventNames(model: Model, env: Surroundings, eventType: string, facade: Facade)
    requires model.eventNames == map[]
    ensures eventType == "created" ==> EventName(model, eventType) == Some(model.basename + " Created")
    ensures eventType == "updated" ==> EventName(model, eventType) == Some(model.basename + " Updated")
    ensures eventType == "deleted" ==> EventName(model, eventType) == Some(model.basename + " Deleted")
    ensures eventType !in HookedEvents ==> TrackEvent(model, env, eventType, facade).calls == []
  {
  }

  /** The automatic path is insensitive to the facade: whatever identify or
      track answer, the same two calls are made and the method returns normally. */
  lemma FailuresAreSwallowed(model: Model, env: Surroundings, eventType: string, facade: Facade, other: Facade)
    ensures TrackEvent(model, env, eventType, facade) == TrackEvent(model, env, eventType, other)
  {
  }

  /** A model that carries its own user (as a user, through a relation or a
      `user_id`) is attributed to that user whoever is logged in. */
  lemma OwnUserBeatsAuth(model: Model, env: Surroundings, other: Surroundings)
    requires model.authenticatable || model.relatedUserKey.Some? || model.userIdAttribute != Null
    ensures UserId(model, env) == UserId(model, other)
    ensures UserId(model, env).Some?
  {
  }

  /** In `trackCustomEvent` the caller's properties win over the model's
      defaults, and defaults the caller leaves alone are kept. */
  lemma CallerPropertiesWin(model: Model, env: Surroundings, event: string, properties: Array, facade: Facade)
    ensures var sent := TrackCustomEvent(model, env, event, properties, facade).calls[0].properties;
            && (forall k :: k in properties ==> k in sent && sent[k] == properties[k])
            && (forall k :: k in EventProperties(model, "custom") && k !in properties ==>
                  k in sent && sent[k] == EventProperties(model, "custom")[k])
  {
  }

  /** A tracked model event, replayed against the test double, satisfies both
      `assertIdentified` for the model's user and traits and `assertTracked`
      for the event name, properties and user. */
  lemma TrackedEventIsAssertable(model: Model, env: Surroundings, eventType: string, facade: Facade, f: FakeFacade.Fake)
    requires EventName(model, eventType).Some? && !EmptyString(EventName(model, eventType).value)
    ensures var g := Replay(f, TrackEvent(model, env, eventType, facade).calls);
            && FakeFacade.AssertIdentified(g, UserId(model, env), Some(model.traits))
            && FakeFacade.AssertTracked(g, EventName(model, eventType).value, Some(EventProperties(model, eventType)),
                                        UserId(model, env))
  {
    var userId := UserId(model, env);
    var identify := IdentifyArgs(userId, model.traits, None);
    var track := TrackArgs(EventName(model, eventType).value, EventProperties(model, eventType), userId, None);
    assert TrackEvent(model, env, eventType, facade).calls == [identify, track];
    ReplayTwo(f, identify, track);
    FakeFacade.IdentifyThenAssertIdentified(f, userId, model.traits, None);
    var f1 := FakeFacade.Call(f, identify).fake;
    FakeFacade.TrackThenAssertTracked(f1, track.event, track.properties, userId, None);
    var f2 := FakeFacade.Call(f1, track).fake;
    assert FakeFacade.LogOf(f2, Client.IdentifyVerb) == FakeFacade.LogOf(f1, Client.IdentifyVerb);
  }

  /** Replaying two calls is making the first, then the second. */
  lemma ReplayTwo(f: FakeFacade.Fake, a: Args, b: Args)
    ensures Replay(f, [a, b]) == FakeFacade.Call(FakeFacade.Call(f, a).fake, b).fake
  {
    var g := FakeFacade.Call(f, a).fake;
    assert [a, b][1..] == [b];
    assert Replay(f, [a, b]) == Replay(g, [b]);
    assert [b][1..] == [];
    assert Replay(g, [b]) == Replay(FakeFacade.Call(g, b).fake, []);
  }
}
