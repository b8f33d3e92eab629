/**
 * The admin API wrapper: construction guards, one route per operation under
 * `/api/admin/workspaces/{workspaceId}/`, and a single request per call with
 * no retry, classified like the event client's failures.
 */
module Admin {
  import opened Basics
  import opened Values
  import opened Errors
  import opened Config
  import opened Transport

  datatype AdminClient = AdminClient(settings: Settings, adminKey: string, workspaceId: string, host: string)

  const AdminKeyRequired := "Admin key is required for admin operations"
  const WorkspaceRequired := "Workspace ID is required for admin operations"
  const WorkspacesPath := "/api/admin/workspaces/"
  const AdminCommunicationPrefix := "Failed to communicate with Dittofeed Admin API: "

  /** The constructor: the admin key is checked before the workspace id; an
      empty one (missing, "" or "0") is a configuration error. */
  function Connect(s: Settings): (r: Result<AdminClient>)
    ensures EmptyString(s.adminKey.GetOr("")) ==> r == Err(ConfigurationError(AdminKeyRequired))
    ensures !EmptyString(s.adminKey.GetOr("")) && EmptyString(s.workspaceId.GetOr("")) ==>
              r == Err(ConfigurationError(WorkspaceRequired))
    ensures r.Ok? <==> !EmptyString(s.adminKey.GetOr("")) && !EmptyString(s.workspaceId.GetOr(""))
    ensures r.Ok? ==> r.value == AdminClient(s, s.adminKey.value, s.workspaceId.value, Host(s))
  {
    var key := s.adminKey.GetOr("");
    var workspace := s.workspaceId.GetOr("");
    if EmptyString(key) then Err(ConfigurationError(AdminKeyRequired))
    else if EmptyString(workspace) then Err(ConfigurationError(WorkspaceRequired))
    else Ok(AdminClient(s, key, workspace, Host(s)))
  }

  /** The admin client authenticates with a bearer token. */
  function AuthorizationHeader(a: AdminClient): (h: string)
    ensures |h| == |a.adminKey| + 7
    ensures h[..7] == "Bearer " && h[7..] == a.adminKey
  {
    "Bearer " + a.adminKey
  }

  datatype Method = Get | Post | Put | Delete

  datatype Resource = Templates | Segments | Journeys | UserProperties | Users | Broadcasts

  function ResourceName(r: Resource): string {
    match r
    case Templates => "templates"
    case Segments => "segments"
    case Journeys => "journeys"
    case UserProperties => "user-properties"
    case Users => "users"
    case Broadcasts => "broadcasts"
  }

  /** The public methods of the admin client. */
  datatype Operation =
    | GetTemplates | CreateTemplate(data: Array) | GetTemplate(id: string)
    | UpdateTemplate(id: string, data: Array) | DeleteTemplate(id: string)
    | GetSegments | CreateSegment(data: Array) | GetSegment(id: string)
    | UpdateSegment(id: string, data: Array) | DeleteSegment(id: string)
    | GetJourneys | CreateJourney(data: Array) | GetJourney(id: string)
    | UpdateJourney(id: string, data: Array) | DeleteJourney(id: string)
    | GetUserProperties | CreateUserProperty(data: Array)
    | DeleteUserData(id: string)
    | SendBroadcast(data: Array) | GetBroadcasts | GetBroadcast(id: string)

  /** Where an operation goes: method, resource, optional id, optional JSON body. */
  datatype Route = Route(httpMethod: Method, resource: Resource, id: Option<string>, body: Option<Array>)

  function RouteOf(op: Operation): Route {
    match op
    case GetTemplates => Route(Get, Templates, None, None)
    case CreateTemplate(data) => Route(Post, Templates, None, Some(data))
    case GetTemplate(id) => Route(Get, Templates, Some(id), None)
    case UpdateTemplate(id, data) => Route(Put, Templates, Some(id), Some(data))
    case DeleteTemplate(id) => Route(Delete, Templates, Some(id), None)
    case GetSegments => Route(Get, Segments, None, None)
    case CreateSegment(data) => Route(Post, Segments, None, Some(data))
    case GetSegment(id) => Route(Get, Segments, Some(id), None)
    case UpdateSegment(id, data) => Route(Put, Segments, Some(id), Some(data))
    case DeleteSegment(id) => Route(Delete, Segments, Some(id), None)
    case GetJourneys => Route(Get, Journeys, None, None)
    case CreateJourney(data) => Route(Post, Journeys, None, Some(data))
    case GetJourney(id) => Route(Get, Journeys, Some(id), None)
    case UpdateJourney(id, data) => Route(Put, Journeys, Some(id), Some(data))
    case DeleteJourney(id) => Route(Delete, Journeys, Some(id), None)
    case GetUserProperties => Route(Get, UserProperties, None, None)
    case CreateUserProperty(data) => Route(Post, UserProperties, None, Some(data))
    case DeleteUserData(id) => Route(Delete, Users, Some(id), None)
    case SendBroadcast(data) => Route(Post, Broadcasts, None, Some(data))
    case GetBroadcasts => Route(Get, Broadcasts, None, None)
    case GetBroadcast(id) => Route(Get, Broadcasts, Some(id), None)
  }

  /** The request path of a route in a workspace. */
  function Endpoint(workspaceId: string, resource: Resource, id: Option<string>): string {
    WorkspacesPath + workspaceId + "/" + ResourceName(resource)
    + (if id.Some? then "/" + id.value else "")
  }

  /** The HTTP request an operation issues. */
  datatype HttpCall = HttpCall(httpMethod: Method, endpoint: string, json: Option<Array>)

  /** The outcome of one admin call: the request made (none in testing mode) and
      what the call returned or raised. */
  datatype AdminSent = AdminSent(call: Option<HttpCall>, result: Result<Array>)

  /** `makeRequest` of the admin client: one attempt against the one outcome. */
  function Request(a: AdminClient, op: Operation, outcome: Outcome): (r: AdminSent)
    ensures Testing(a.settings) ==> r == AdminSent(None, Ok(TestingReply))
    ensures !Testing(a.settings) ==> r.call.Some?
    ensures outcome.Delivered? && !Testing(a.settings) ==> r.result == Ok(outcome.body.GetOr(SuccessReply))
    ensures outcome.TransportError? && !Testing(a.settings) ==>
              r.result == Err(NetworkError(AdminCommunicationPrefix + outcome.text))
  {
    if Testing(a.settings) then AdminSent(None, Ok(TestingReply))
    else
      var route := RouteOf(op);
      var call := HttpCall(route.httpMethod, Endpoint(a.workspaceId, route.resource, route.id), route.body);
      match outcome
      case Delivered(body) => AdminSent(Some(call), Ok(body.GetOr(SuccessReply)))
      case HttpError(status, body, bodyMessage, text) =>
        AdminSent(Some(call), Err(Classify(status, ExceptionMessage(status, body, bodyMessage, text))))
      case TransportError(text) => AdminSent(Some(call), Err(NetworkError(AdminCommunicationPrefix + text)))
  }

  /* ---------- routing properties ---------- */

  /** A JSON body goes out exactly for the operations that take data, and the
      method follows the verb of the operation's name. */
  lemma RouteMethodAndBody(op: Operation)
    ensures RouteOf(op).body.Some? <==>
              op.CreateTemplate? || op.UpdateTemplate? || op.CreateSegment? || op.UpdateSegment? ||
              op.CreateJourney? || op.UpdateJourney? || op.CreateUserProperty? || op.SendBroadcast?
    ensures RouteOf(op).body.Some? ==> RouteOf(op).body.value == op.data
    ensures RouteOf(op).httpMethod == Put <==> op.UpdateTemplate? || op.UpdateSegment? || op.UpdateJourney?
    ensures RouteOf(op).httpMethod == Delete <==> op.DeleteTemplate? || op.DeleteSegment? || op.DeleteJourney? || op.DeleteUserData?
    ensures RouteOf(op).httpMethod == Post <==> RouteOf(op).body.Some? && RouteOf(op).httpMethod != Put
    ensures RouteOf(op).id.Some? ==> RouteOf(op).id.value == op.id
  {
  }

  /** Reads a resource back from its path segment. */
  function ResourceFromName(name: string): Option<Resource> {
    if name == "templates" then Some(Templates)
    else if name == "segments" then Some(Segments)
    else if name == "journeys" then Some(Journeys)
    else if name == "user-properties" then Some(UserProperties)
    else if name == "users" then Some(Users)
    else if name == "broadcasts" then Some(Broadcasts)
    else None
  }

  /** The position of the first `c` in `s`, if any. */
  function IndexOf(s: string, c: char): (r: Option<nat>)
    ensures r.Some? ==> r.value < |s| && s[r.value] == c && forall j :: 0 <= j < r.value ==> s[j] != c
    ensures r.None? ==> forall j :: 0 <= j < |s| ==> s[j] != c
  {
    if |s| == 0 then None
    else if s[0] == c then Some(0)
    else match IndexOf(s[1..], c)
      case None => None
      case Some(i) => Some(i + 1)
  }

  /** Reads the resource and id back from an admin request path. */
  function ParseEndpoint(workspaceId: string, path: string): Option<(Resource, Option<string>)> {
    var head := WorkspacesPath + workspaceId + "/";
    if !(head <= path) then None
    else
      var rest := path[|head|..];
      match IndexOf(rest, '/')
      case None =>
        (match ResourceFromName(rest)
         case None => None
         case Some(r) => Some((r, None)))
      case Some(i) =>
        (match ResourceFromName(rest[..i])
         case None => None
         case Some(r) => Some((r, Some(rest[i + 1..]))))
  }

  lemma ResourceNameRoundTrip(r: Resource)
    ensures ResourceFromName(ResourceName(r)) == Some(r)
    ensures forall j :: 0 <= j < |ResourceName(r)| ==> ResourceName(r)[j] != '/'
  {
  }

  lemma {:induction false} IndexOfFirst(a: string, c: char, b: string)
    requires forall j :: 0 <= j < |a| ==> a[j] != c
    ensures IndexOf(a + [c] + b, c) == Some(|a|)
    decreases |a|
  {
    if |a| > 0 {
      assert (a + [c] + b)[1..] == a[1..] + [c] + b;
      IndexOfFirst(a[1..], c, b);
    }
  }

  /** Paths are unambiguous: the path an operation targets determines its
      resource and id (an id may itself contain '/', resource names never do). */
  lemma EndpointRoundTrip(workspaceId: string, resource: Resource, id: Option<string>)
    ensures ParseEndpoint(workspaceId, Endpoint(workspaceId, resource, id)) == Some((resource, id))
  {
    var head := WorkspacesPath + workspaceId + "/";
    var name := ResourceName(resource);
    ResourceNameRoundTrip(resource);
    var tail := if id.Some? then "/" + id.value else "";
    var path := Endpoint(workspaceId, resource, id);
    assert path == head + (name + tail);
    assert head <= path;
    var rest := path[|head|..];
    assert rest == name + tail;
    if id.Some? {
      assert rest == name + ['/'] + id.value;
      IndexOfFirst(name, '/', id.value);
      assert rest[..|name|] == name;
      assert rest[|name| + 1..] == id.value;
    } else {
      assert rest == name;
    }
  }

  /** Within a workspace, the request an operation makes identifies it: two
      operations with the same method, path and body are the same operation.
      The path alone does not suffice, since reading, updating and deleting one
      template share it; the method tells them apart. */
  lemma RequestIdentifiesOperation(workspaceId: string, a: Operation, b: Operation)
    ensures (&& RouteOf(a).httpMethod == RouteOf(b).httpMethod
             && Endpoint(workspaceId, RouteOf(a).resource, RouteOf(a).id) == Endpoint(workspaceId, RouteOf(b).resource, RouteOf(b).id)
             && RouteOf(a).body == RouteOf(b).body)
            <==> a == b
    ensures Endpoint(workspaceId, RouteOf(GetTemplate("t")).resource, RouteOf(GetTemplate("t")).id)
            == Endpoint(workspaceId, RouteOf(DeleteTemplate("t")).resource, RouteOf(DeleteTemplate("t")).id)
  {
    var ra := RouteOf(a);
    var rb := RouteOf(b);
    if Endpoint(workspaceId, ra.resource, ra.id) == Endpoint(workspaceId, rb.resource, rb.id) {
      EndpointRoundTrip(workspaceId, ra.resource, ra.id);
      EndpointRoundTrip(workspaceId, rb.resource, rb.id);
      assert ra.resource == rb.resource && ra.id == rb.id;
    }
  }

  /** The admin client classifies a failed response exactly as the event client
      classifies its final failure, and never retries. */
  lemma SameClassificationAsEventClient(a: AdminClient, op: Operation, outcome: Outcome)
    requires !Testing(a.settings) && !outcome.TransportError?
    ensures Request(a, op, outcome).result == Verdict(outcome)
    ensures Request(a, op, outcome).call ==
              Some(HttpCall(RouteOf(op).httpMethod, Endpoint(a.workspaceId, RouteOf(op).resource, RouteOf(op).id), RouteOf(op).body))
  {
  }
}
