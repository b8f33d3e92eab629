/**
 * The test double that replaces the manager behind the facade
 * (`FakeDittofeed`): every verb appends one record to its own log and
 * answers `{success, fake}`; the assertions are predicates over the logs.
 */
module FakeFacade {
  import opened Basics
  import opened Values
  import Client
  import opened Manager

  /** The six call logs. A record is the verb's arguments under their
      parameter names; a batch is logged as the list it was given. */
  datatype Fake = Fake(identifyCalls: seq<Array>, trackCalls: seq<Array>, pageCalls: seq<Array>,
                       screenCalls: seq<Array>, groupCalls: seq<Array>, batchCalls: seq<seq<Array>>)

  /** A fake nobody has called yet. */
  const Fresh := Fake([], [], [], [], [], [])

  const FakeReply: Array := map["success" := Bool(true), "fake" := Bool(true)]

  /** The fake after a call, and what the call answered. */
  datatype Faked = Faked(fake: Fake, reply: Array)

  /** An optional PHP array as a value: null when absent. */
  function OfArray(a: Option<Array>): (v: Value)
    ensures a.None? <==> v == Null
    ensures a.Some? ==> v == Map(a.value)
  {
    match a
    case None => Null
    case Some(m) => Map(m)
  }

  /** The record `compact(...)` makes of a verb's arguments; null arguments are kept. */
  function Entry(a: Args): (e: Array)
    ensures "userId" in e && "anonymousId" in e
    ensures e["userId"] == OfOption(a.userId) && e["anonymousId"] == OfOption(a.anonymousId)
  {
    var ids := map["userId" := OfOption(a.userId), "anonymousId" := OfOption(a.anonymousId)];
    match a
    case IdentifyArgs(_, traits, _) => ids["traits" := Map(traits)]
    case TrackArgs(event, properties, _, _) => ids["event" := Str(event)]["properties" := Map(properties)]
    case PageArgs(name, properties, _, _) => ids["name" := OfOption(name)]["properties" := Map(properties)]
    case ScreenArgs(name, properties, _, _) => ids["name" := OfOption(name)]["properties" := Map(properties)]
    case GroupArgs(groupId, traits, _, _) => ids["groupId" := Str(groupId)]["traits" := Map(traits)]
  }

  /** The log a verb writes to. */
  function LogOf(f: Fake, v: Client.Verb): seq<Array> {
    match v
    case IdentifyVerb => f.identifyCalls
    case TrackVerb => f.trackCalls
    case PageVerb => f.pageCalls
    case ScreenVerb => f.screenCalls
    case GroupVerb => f.groupCalls
  }

  /** `identify`, `track`, `page`, `screen` or `group` on the fake. */
  function Call(f: Fake, a: Args): (r: Faked)
    ensures r.reply == FakeReply
    ensures LogOf(r.fake, VerbOfArgs(a)) == LogOf(f, VerbOfArgs(a)) + [Entry(a)]
    ensures forall v :: v != VerbOfArgs(a) ==> LogOf(r.fake, v) == LogOf(f, v)
    ensures r.fake.batchCalls == f.batchCalls
  {
    var e := Entry(a);
    var g :=
      match a
      case IdentifyArgs(_, _, _) => f.(identifyCalls := f.identifyCalls + [e])
      case TrackArgs(_, _, _, _) => f.(trackCalls := f.trackCalls + [e])
      case PageArgs(_, _, _, _) => f.(pageCalls := f.pageCalls + [e])
      case ScreenArgs(_, _, _, _) => f.(screenCalls := f.screenCalls + [e])
      case GroupArgs(_, _, _, _) => f.(groupCalls := f.groupCalls + [e]);
    Faked(g, FakeReply)
  }

  /** `batch($events)` on the fake. */
  function Batch(f: Fake, events: seq<Array>): (r: Faked)
    ensures r.reply == FakeReply
    ensures r.fake.batchCalls == f.batchCalls + [events]
    ensures forall v :: LogOf(r.fake, v) == LogOf(f, v)
  {
    Faked(f.(batchCalls := f.batchCalls + [events]), FakeReply)
  }

  /* ---------- the assertions ---------- */

  /** `filterCalls`: a null criterion matches anything; any other needs the
      record's field set (non-null) and identical. */
  predicate Matches(call: Array, criteria: Array) {
    forall k :: k in criteria && criteria[k] != Null ==> k in call && call[k] != Null && call[k] == criteria[k]
  }

  function FilterCalls(calls: seq<Array>, criteria: Array): (r: seq<Array>)
    ensures |r| <= |calls|
    ensures forall c :: c in r <==> c in calls && Matches(c, criteria)
  {
    if |calls| == 0 then []
    else
      var rest := FilterCalls(calls[1..], criteria);
      assert forall c :: c in calls <==> c == calls[0] || c in calls[1..];
      if Matches(calls[0], criteria) then [calls[0]] + rest else rest
  }

  /** `assertIdentified($userId, $traits)`: identify was called, and when a
      criterion is given some call matches it. */
  predicate AssertIdentified(f: Fake, userId: Option<string>, traits: Option<Array>) {
    && |f.identifyCalls| > 0
    && ((userId.Some? || traits.Some?) ==>
          |FilterCalls(f.identifyCalls, map["userId" := OfOption(userId), "traits" := OfArray(traits)])| > 0)
  }

  predicate AssertNotIdentified(f: Fake) {
    |f.identifyCalls| == 0
  }

  /** One track record against `assertTracked`'s criteria: the event always,
      properties and user id only when given. */
  predicate TrackMatches(call: Array, event: string, properties: Option<Array>, userId: Option<string>) {
    && Get(call, "event") == Str(event)
    && (properties.Some? ==> Get(call, "properties") == Map(properties.value))
    && (userId.Some? ==> Get(call, "userId") == Str(userId.value))
  }

  predicate AssertTracked(f: Fake, event: string, properties: Option<Array>, userId: Option<string>) {
    exists i :: 0 <= i < |f.trackCalls| && TrackMatches(f.trackCalls[i], event, properties, userId)
  }

  predicate AssertNotTracked(f: Fake, event: string) {
    forall i :: 0 <= i < |f.trackCalls| ==> Get(f.trackCalls[i], "event") != Str(event)
  }

  predicate AssertPageViewed(f: Fake, name: Option<string>, properties: Option<Array>) {
    && |f.pageCalls| > 0
    && ((name.Some? || properties.Some?) ==>
          |FilterCalls(f.pageCalls, map["name" := OfOption(name), "properties" := OfArray(properties)])| > 0)
  }

  predicate AssertScreenViewed(f: Fake, name: Option<string>, properties: Option<Array>) {
    && |f.screenCalls| > 0
    && ((name.Some? || properties.Some?) ==>
          |FilterCalls(f.screenCalls, map["name" := OfOption(name), "properties" := OfArray(properties)])| > 0)
  }

  predicate GroupMatches(call: Array, groupId: string, traits: Option<Array>, userId: Option<string>) {
    && Get(call, "groupId") == Str(groupId)
    && (traits.Some? ==> Get(call, "traits") == Map(traits.value))
    && (userId.Some? ==> Get(call, "userId") == Str(userId.value))
  }

  predicate AssertGrouped(f: Fake, groupId: string, traits: Option<Array>, userId: Option<string>) {
    exists i :: 0 <= i < |f.groupCalls| && GroupMatches(f.groupCalls[i], groupId, traits, userId)
  }

  predicate AssertIdentifyCount(f: Fake, count: int) {
    |f.identifyCalls| == count
  }

  predicate AssertTrackCount(f: Fake, count: int) {
    |f.trackCalls| == count
  }

  function TotalCalls(f: Fake): nat {
    |f.identifyCalls| + |f.trackCalls| + |f.pageCalls| + |f.screenCalls| + |f.groupCalls| + |f.batchCalls|
  }

  predicate AssertNothingCalled(f: Fake) {
    TotalCalls(f) == 0
  }

  /* ---------- properties ---------- */

  /** Criteria that are all null filter nothing out. */
  lemma {:induction false} NullCriteriaMatchAll(calls: seq<Array>, criteria: Array)
    requires forall k :: k in criteria ==> criteria[k] == Null
    ensures FilterCalls(calls, criteria) == calls
    decreases |calls|
  {
    if |calls| > 0 {
      NullCriteriaMatchAll(calls[1..], criteria);
      assert [calls[0]] + calls[1..] == calls;
    }
  }

  /** A track call is found by `assertTracked` with its own event, properties
      and user id, and the track count goes up by exactly one. */
  lemma TrackThenAssertTracked(f: Fake, event: string, properties: Array, userId: Option<string>, anonymousId: Option<string>)
    ensures var g := Call(f, TrackArgs(event, properties, userId, anonymousId)).fake;
            && AssertTracked(g, event, Some(properties), userId)
            && !AssertNotTracked(g, event)
            && AssertTrackCount(g, |f.trackCalls| + 1)
            && AssertIdentifyCount(g, |f.identifyCalls|)
  {
    var a := TrackArgs(event, properties, userId, anonymousId);
    var g := Call(f, a).fake;
    assert LogOf(g, Client.TrackVerb) == f.trackCalls + [Entry(a)];
    assert g.trackCalls[|f.trackCalls|] == Entry(a);
    assert TrackMatches(g.trackCalls[|f.trackCalls|], event, Some(properties), userId);
    assert LogOf(g, Client.IdentifyVerb) == f.identifyCalls;
  }

  /** A group call is found by `assertGrouped` with its own group id, traits and user id. */
  lemma GroupThenAssertGrouped(f: Fake, groupId: string, traits: Array, userId: Option<string>, anonymousId: Option<string>)
    ensures var g := Call(f, GroupArgs(groupId, traits, userId, anonymousId)).fake;
            AssertGrouped(g, groupId, Some(traits), userId)
  {
    var a := GroupArgs(groupId, traits, userId, anonymousId);
    var g := Call(f, a).fake;
    assert LogOf(g, Client.GroupVerb) == f.groupCalls + [Entry(a)];
    assert GroupMatches(g.groupCalls[|f.groupCalls|], groupId, Some(traits), userId);
  }

  /** An identify call is found by `assertIdentified` with its own user id and traits. */
  lemma IdentifyThenAssertIdentified(f: Fake, userId: Option<string>, traits: Array, anonymousId: Option<string>)
    ensures var g := Call(f, IdentifyArgs(userId, traits, anonymousId)).fake;
            AssertIdentified(g, userId, Some(traits)) && !AssertNotIdentified(g)
  {
    var a := IdentifyArgs(userId, traits, anonymousId);
    var g := Call(f, a).fake;
    assert LogOf(g, Client.IdentifyVerb) == f.identifyCalls + [Entry(a)];
    var criteria := map["userId" := OfOption(userId), "traits" := OfArray(Some(traits))];
    assert Matches(Entry(a), criteria);
    assert Entry(a) in g.identifyCalls;
    assert Entry(a) in FilterCalls(g.identifyCalls, criteria);
  }

  /** A page call is found by `assertPageViewed` with its own name and properties. */
  lemma PageThenAssertPageViewed(f: Fake, name: Option<string>, properties: Array, userId: Option<string>, anonymousId: Option<string>)
    ensures var g := Call(f, PageArgs(name, properties, userId, anonymousId)).fake;
            AssertPageViewed(g, name, Some(properties))
  {
    var a := PageArgs(name, properties, userId, anonymousId);
    var g := Call(f, a).fake;
    assert LogOf(g, Client.PageVerb) == f.pageCalls + [Entry(a)];
    var criteria := map["name" := OfOption(name), "properties" := OfArray(Some(properties))];
    assert Matches(Entry(a), criteria);
    assert Entry(a) in g.pageCalls;
    assert Entry(a) in FilterCalls(g.pageCalls, criteria);
  }

  /** `assertNotTracked($e)` holds exactly when `assertTracked($e)` without
      further criteria fails. */
  lemma NotTrackedIsNegation(f: Fake, event: string)
    ensures AssertNotTracked(f, event) <==> !AssertTracked(f, event, None, None)
  {
  }

  /** `assertNothingCalled` holds exactly for a fake nobody called, and fails
      after any verb or batch. */
  lemma NothingCalledIffFresh(f: Fake, a: Args, events: seq<Array>)
    ensures AssertNothingCalled(f) <==> f == Fresh
    ensures !AssertNothingCalled(Call(f, a).fake)
    ensures !AssertNothingCalled(Batch(f, events).fake)
  {
    var g := Call(f, a).fake;
    assert |LogOf(g, VerbOfArgs(a))| > 0;
  }

  /** The count assertions count calls: an identify call raises the identify
      count by one and leaves the track count alone, and the other way round. */
  lemma CountsFollowCalls(f: Fake, a: Args, n: int)
    ensures a.IdentifyArgs? ==>
              (AssertIdentifyCount(Call(f, a).fake, n + 1) <==> AssertIdentifyCount(f, n))
              && (AssertTrackCount(Call(f, a).fake, n) <==> AssertTrackCount(f, n))
    ensures a.TrackArgs? ==>
              (AssertTrackCount(Call(f, a).fake, n + 1) <==> AssertTrackCount(f, n))
              && (AssertIdentifyCount(Call(f, a).fake, n) <==> AssertIdentifyCount(f, n))
    ensures TotalCalls(Call(f, a).fake) == TotalCalls(f) + 1
  {
    var g := Call(f, a).fake;
    assert LogOf(g, Client.IdentifyVerb) == g.identifyCalls && LogOf(f, Client.IdentifyVerb) == f.identifyCalls;
    assert LogOf(g, Client.TrackVerb) == g.trackCalls && LogOf(f, Client.TrackVerb) == f.trackCalls;
  }
}
