/**
 * The manager behind the facade (`DittofeedManager`): it fills in the
 * identifiers a caller left out, assembles each verb's data, and either
 * sends it through the event client or hands it to the job queue. Batches
 * and flushes always go straight to the client.
 */
module Manager {
  import opened Basics
  import opened Values
  import opened Errors
  import opened Config
  import opened Ambient
  import opened Transport
  import opened Jobs
  import Client
  import EventQueue
  import Admin

  /** A custom user-id resolver: a closure over the surroundings of the call. */
  type Resolver = Surroundings -> Option<string>

  /** The event client, the optional admin client and the optional resolver;
      the configuration is the client's. */
  datatype Manager = Manager(client: Client.Client, admin: Option<Admin.AdminClient>, resolver: Option<Resolver>)

  const AdminNotConfigured :=
    "Admin client is not configured. Please set DITTOFEED_ADMIN_KEY and DITTOFEED_WORKSPACE_ID in your environment."

  /** What every verb answers when it queues instead of sending. */
  const QueuedReply: Array := map["success" := Bool(true), "queued" := Bool(true)]

  /** The constructor: the event client must build; the admin client is tried
      only with an admin key set and, if it fails, simply left absent. */
  function New(s: Settings, resolver: Option<Resolver>): (r: Result<Manager>)
    ensures r.Err? <==> Client.Connect(s).Err?
    ensures r.Err? ==> r.error == Client.Connect(s).error
    ensures r.Ok? ==> r.value.client == Client.Connect(s).value
    ensures r.Ok? ==> (r.value.admin.Some? <==> Admin.Connect(s).Ok?)
    ensures r.Ok? && r.value.admin.Some? ==> r.value.admin.value == Admin.Connect(s).value
    ensures r.Ok? ==> (r.value.resolver.Some? <==> resolver.Some?)
  {
    var client :- Client.Connect(s);
    var admin :=
      if EmptyString(s.adminKey.GetOr("")) then None
      else match Admin.Connect(s)
           case Ok(a) => Some(a)
           case Err(_) => None;
    Ok(Manager(client, admin, resolver))
  }

  function ConfigOf(m: Manager): Settings {
    m.client.settings
  }

  /* ---------- identity ---------- */

  /** `resolveUserId()`: the custom resolver when one is set, else the
      authenticated user's id, else nothing. */
  function ResolveUserId(m: Manager, env: Surroundings): (r: Option<string>)
    ensures m.resolver.Some? ==> r == m.resolver.value(env)
    ensures m.resolver.None? ==> r == env.authId
  {
    match m.resolver
    case Some(resolve) => resolve(env)
    case None => env.authId
  }

  /** The cookie `getAnonymousId` queues: name, value and lifetime in minutes. */
  datatype Cookie = Cookie(name: string, value: string, minutes: int)

  /** An anonymous id, and the cookie queued to remember it (if a new one was made). */
  datatype Anonymous = Anonymous(id: Option<string>, cookie: Option<Cookie>)

  /** `getAnonymousId()`: none in the console; the cookie when it is truthy;
      otherwise a fresh UUID, which is also queued as the cookie. */
  function GetAnonymousId(m: Manager, env: Surroundings): (r: Anonymous)
    ensures env.console <==> r.id.None?
    ensures r.cookie.Some? ==> r.id == Some(r.cookie.value.value) && r.cookie.value.name == CookieName(ConfigOf(m))
    ensures !env.console && env.cookie.Some? && !EmptyString(env.cookie.value) ==> r == Anonymous(env.cookie, None)
    ensures r.cookie.Some? <==> !env.console && (env.cookie.None? || EmptyString(env.cookie.value))
  {
    if env.console then Anonymous(None, None)
    else if env.cookie.Some? && !EmptyString(env.cookie.value) then Anonymous(env.cookie, None)
    else
      var s := ConfigOf(m);
      Anonymous(Some(env.freshAnonymousId), Some(Cookie(CookieName(s), env.freshAnonymousId, CookieLifetime(s))))
  }

  /* ---------- the verbs ---------- */

  /** The arguments of the five verbs, as the facade receives them. */
  datatype Args =
    | IdentifyArgs(userId: Option<string>, traits: Array, anonymousId: Option<string>)
    | TrackArgs(event: string, properties: Array, userId: Option<string>, anonymousId: Option<string>)
    | PageArgs(name: Option<string>, properties: Array, userId: Option<string>, anonymousId: Option<string>)
    | ScreenArgs(name: Option<string>, properties: Array, userId: Option<string>, anonymousId: Option<string>)
    | GroupArgs(groupId: string, traits: Array, userId: Option<string>, anonymousId: Option<string>)

  function VerbOfArgs(a: Args): Client.Verb {
    match a
    case IdentifyArgs(_, _, _) => Client.IdentifyVerb
    case TrackArgs(_, _, _, _) => Client.TrackVerb
    case PageArgs(_, _, _, _) => Client.PageVerb
    case ScreenArgs(_, _, _, _) => Client.ScreenVerb
    case GroupArgs(_, _, _, _) => Client.GroupVerb
  }

  /** The data a verb hands on, and the cookie its anonymous-id lookup queued. */
  datatype Assembled = Assembled(data: Array, cookie: Option<Cookie>)

  /** The data array each verb builds: an explicit id wins, and only a missing
      one is looked up; a page outside the console also carries the request's
      url, path and referrer, and its name as title. */
  function Assemble(m: Manager, env: Surroundings, a: Args): (r: Assembled)
    ensures "userId" in r.data && "anonymousId" in r.data
    ensures r.data["userId"] == OfOption(if a.userId.Some? then a.userId else ResolveUserId(m, env))
    ensures a.anonymousId.Some? ==> r.data["anonymousId"] == Str(a.anonymousId.value) && r.cookie.None?
    ensures a.anonymousId.None? ==>
              r.data["anonymousId"] == OfOption(GetAnonymousId(m, env).id) && r.cookie == GetAnonymousId(m, env).cookie
  {
    var userId := if a.userId.Some? then a.userId else ResolveUserId(m, env);
    var anonymous := if a.anonymousId.Some? then Anonymous(a.anonymousId, None) else GetAnonymousId(m, env);
    var ids := map["userId" := OfOption(userId), "anonymousId" := OfOption(anonymous.id)];
    var data :=
      match a
      case IdentifyArgs(_, traits, _) => ids["traits" := Map(traits)]
      case TrackArgs(event, properties, _, _) => ids["event" := Str(event)]["properties" := Map(properties)]
      case PageArgs(name, properties, _, _) =>
        var page := ids["name" := OfOption(name)]["properties" := Map(properties)];
        if env.console then page
        else page["url" := Str(env.fullUrl)]["path" := Str(env.path)]
                 ["referrer" := OfOption(env.referer)]["title" := OfOption(name)]
      case ScreenArgs(name, properties, _, _) => ids["name" := OfOption(name)]["properties" := Map(properties)]
      case GroupArgs(groupId, traits, _, _) => ids["groupId" := Str(groupId)]["traits" := Map(traits)];
    Assembled(data, anonymous.cookie)
  }

  /** What a manager call produced: the client's answer (or the queued reply),
      the job it dispatched, and the cookie it queued. */
  datatype Reply = Reply(sent: Sent, job: Option<Job>, cookie: Option<Cookie>)

  /** `identify`, `track`, `page`, `screen` and `group` on the manager. */
  function Dispatch(m: Manager, env: Surroundings, a: Args, outcomes: seq<Outcome>): (r: Reply)
    requires MaxAttempts(ConfigOf(m)) <= |outcomes|
    ensures r.cookie == Assemble(m, env, a).cookie
    ensures QueueEnabled(ConfigOf(m)) ==>
              r.sent == Sent(Ok(QueuedReply), 0, []) && r.job == Some(Job(Client.VerbName(VerbOfArgs(a)), Assemble(m, env, a).data))
    ensures !QueueEnabled(ConfigOf(m)) ==>
              r.job.None? && r.sent == Client.Call(m.client, env, VerbOfArgs(a), Assemble(m, env, a).data, outcomes)
  {
    var assembled := Assemble(m, env, a);
    if QueueEnabled(ConfigOf(m)) then
      Reply(Sent(Ok(QueuedReply), 0, []), Some(Job(Client.VerbName(VerbOfArgs(a)), assembled.data)), assembled.cookie)
    else
      Reply(Client.Call(m.client, env, VerbOfArgs(a), assembled.data, outcomes), None, assembled.cookie)
  }

  /** `batch($events)`: straight to the client, queueing or not. */
  function Batch(m: Manager, env: Surroundings, events: seq<Array>, outcomes: seq<Outcome>): (r: Reply)
    requires MaxAttempts(ConfigOf(m)) <= |outcomes|
    ensures r.job.None? && r.cookie.None?
    ensures r.sent == Client.Batch(m.client, env, events, outcomes)
  {
    Reply(Client.Batch(m.client, env, events, outcomes), None, None)
  }

  /** `flush()`: the client's own flush of its queue. */
  function Flush(m: Manager, env: Surroundings, queue: seq<Array>, outcomes: seq<Outcome>): (r: EventQueue.Step)
    requires MaxAttempts(ConfigOf(m)) <= |outcomes|
    ensures r == EventQueue.Flush(m.client, env, queue, outcomes)
  {
    EventQueue.Flush(m.client, env, queue, outcomes)
  }

  /** `admin()`: the admin client, or a runtime error when there is none. */
  function AdminClientOf(m: Manager): (r: Result<Admin.AdminClient>)
    ensures m.admin.Some? <==> r.Ok?
    ensures m.admin.Some? ==> r.value == m.admin.value
    ensures m.admin.None? ==> r == Err(Runtime(AdminNotConfigured))
  {
    match m.admin
    case Some(a) => Ok(a)
    case None => Err(Runtime(AdminNotConfigured))
  }

  /** `resolveUserIdUsing($callback)`: the same manager with the new resolver. */
  function ResolveUserIdUsing(m: Manager, resolver: Resolver): (r: Manager)
    ensures r.client == m.client && r.admin == m.admin
    ensures forall env :: ResolveUserId(r, env) == resolver(env)
  {
    m.(resolver := Some(resolver))
  }

  /* ---------- properties ---------- */

  /** A manager built from a configuration holds the client that configuration builds. */
  predicate Built(m: Manager) {
    Client.Connect(ConfigOf(m)) == Ok(m.client)
  }

  /** User id precedence: the explicit argument, else the resolver, else the
      authenticated user, else null. */
  lemma UserIdPrecedence(m: Manager, env: Surroundings, a: Args)
    ensures var userId := Assemble(m, env, a).data["userId"];
            && (a.userId.Some? ==> userId == Str(a.userId.value))
            && (a.userId.None? && m.resolver.Some? ==> userId == OfOption(m.resolver.value(env)))
            && (a.userId.None? && m.resolver.None? && env.authId.Some? ==> userId == Str(env.authId.value))
            && (a.userId.None? && m.resolver.None? && env.authId.None? ==> userId == Null)
  {
  }

  /** Anonymous id precedence: the explicit argument, else null in the console,
      else a truthy cookie, else a fresh UUID that is also queued as the cookie. */
  lemma AnonymousIdPrecedence(m: Manager, env: Surroundings, a: Args)
    ensures var r := Assemble(m, env, a);
            && (a.anonymousId.Some? ==> r.data["anonymousId"] == Str(a.anonymousId.value) && r.cookie.None?)
            && (a.anonymousId.None? && env.console ==> r.data["anonymousId"] == Null && r.cookie.None?)
            && (a.anonymousId.None? && !env.console && env.cookie.Some? && !EmptyString(env.cookie.value) ==>
                  r.data["anonymousId"] == Str(env.cookie.value) && r.cookie.None?)
            && (a.anonymousId.None? && !env.console && (env.cookie.None? || EmptyString(env.cookie.value)) ==>
                  r.data["anonymousId"] == Str(env.freshAnonymousId)
                  && r.cookie == Some(Cookie(CookieName(ConfigOf(m)), env.freshAnonymousId, CookieLifetime(ConfigOf(m)))))
  {
  }

  /** Once the queued cookie comes back with the next request, the same
      anonymous id is used again and no further cookie is queued. */
  lemma AnonymousIdIsStable(m: Manager, env: Surroundings, next: Surroundings)
    requires !env.console && !EmptyString(env.freshAnonymousId)
    requires GetAnonymousId(m, env).cookie.Some?
    requires !next.console && next.cookie == Some(GetAnonymousId(m, env).cookie.value.value)
    ensures GetAnonymousId(m, next) == Anonymous(GetAnonymousId(m, env).id, None)
  {
  }

  /** With both identifiers given, a verb other than page looks nothing up: its
      data and cookie are the same in any surroundings. */
  lemma ExplicitIdsIgnoreSurroundings(m: Manager, env: Surroundings, other: Surroundings, a: Args)
    requires !a.PageArgs? && a.userId.Some? && a.anonymousId.Some?
    ensures Assemble(m, env, a) == Assemble(m, other, a)
  {
  }

  /** A page call outside the console carries the request's url, path and
      referrer, and always its name as title; in the console it carries none of them. */
  lemma PageInWebContext(m: Manager, env: Surroundings, a: Args)
    requires a.PageArgs?
    ensures var data := Assemble(m, env, a).data;
            && (!env.console ==>
                  && data["url"] == Str(env.fullUrl) && data["path"] == Str(env.path)
                  && data["referrer"] == OfOption(env.referer) && data["title"] == OfOption(a.name))
            && (env.console ==> "url" !in data && "path" !in data && "referrer" !in data && "title" !in data)
  {
  }

  /** With queueing on, every verb answers `{success, queued}` at once, without
      any request and without validation: even an event the client would
      refuse for lack of identity is accepted here. */
  lemma QueueingDefersValidation(m: Manager, env: Surroundings, a: Args, outcomes: seq<Outcome>)
    requires MaxAttempts(ConfigOf(m)) <= |outcomes|
    requires QueueEnabled(ConfigOf(m))
    requires env.console && a.userId.None? && a.anonymousId.None? && ResolveUserId(m, env).None?
    ensures Dispatch(m, env, a, outcomes).sent == Sent(Ok(QueuedReply), 0, [])
    ensures Client.Call(m.client, env, VerbOfArgs(a), Assemble(m, env, a).data, outcomes).result
            == Err(MissingRequired(Validation.IdentityField))
  {
    var data := Assemble(m, env, a).data;
    assert !Validation.HasIdentity(data);
    Client.NoIdentityNoRequest(m.client, env, VerbOfArgs(a), data, outcomes);
  }

  /** The job a queueing manager dispatches, run later under the same
      configuration, makes exactly the client call a synchronous manager
      makes at once (in the surroundings of the moment it runs). */
  lemma QueuedJobReplaysCall(m: Manager, env: Surroundings, later: Surroundings, a: Args, outcomes: seq<Outcome>)
    requires MaxAttempts(ConfigOf(m)) <= |outcomes|
    requires Built(m) && QueueEnabled(ConfigOf(m))
    ensures var job := Dispatch(m, env, a, outcomes).job.value;
            Handle(job, ConfigOf(m), later, outcomes)
            == Client.Call(m.client, later, VerbOfArgs(a), Assemble(m, env, a).data, outcomes)
  {
    VerbNameRoundTrip(VerbOfArgs(a));
  }

  /** The admin client's absence surfaces only when it is asked for: a manager
      with an admin key but no workspace builds, and `admin()` then fails. */
  lemma AdminFailureDeferred(s: Settings, resolver: Option<Resolver>)
    requires Client.Connect(s).Ok?
    ensures New(s, resolver).Ok?
    ensures AdminClientOf(New(s, resolver).value).Ok? <==>
              !EmptyString(s.adminKey.GetOr("")) && !EmptyString(s.workspaceId.GetOr(""))
  {
  }
}
