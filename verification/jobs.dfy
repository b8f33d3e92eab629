/**
 * The queued job (`SendDittofeedEvent`): it stores an event type and its
 * data, and when run builds a fresh client from the configuration of that
 * moment and calls the client verb the type names. Every failure is
 * rethrown, so the queue worker sees it and may retry the job.
 */
module Jobs {
  import opened Basics
  import opened Values
  import opened Errors
  import opened Config
  import opened Ambient
  import opened Transport
  import Client
  import Validation

  datatype Job = Job(eventType: string, data: Array)

  /** The dispatch table of `handle`: the five verb names, nothing else. */
  function VerbOf(eventType: string): (r: Option<Client.Verb>)
    ensures r.Some? ==> Client.VerbName(r.value) == eventType
    ensures r.None? ==> forall v :: Client.VerbName(v) != eventType
  {
    if eventType == "identify" then Some(Client.IdentifyVerb)
    else if eventType == "track" then Some(Client.TrackVerb)
    else if eventType == "page" then Some(Client.PageVerb)
    else if eventType == "screen" then Some(Client.ScreenVerb)
    else if eventType == "group" then Some(Client.GroupVerb)
    else None
  }

  function UnknownTypeMessage(eventType: string): string {
    "Unknown event type: " + eventType
  }

  /** `handle()`: construct the client (its error escapes first), then dispatch;
      whatever the client raises is raised again unchanged. */
  function Handle(job: Job, s: Settings, env: Surroundings, outcomes: seq<Outcome>): (r: Sent)
    requires MaxAttempts(s) <= |outcomes|
    ensures Client.Connect(s).Err? ==> r == Sent(Err(Client.Connect(s).error), 0, [])
    ensures Client.Connect(s).Ok? && VerbOf(job.eventType).None? ==>
              r == Sent(Err(InvalidArgument(UnknownTypeMessage(job.eventType))), 0, [])
    ensures Client.Connect(s).Ok? && VerbOf(job.eventType).Some? ==>
              r == Client.Call(Client.Connect(s).value, env, VerbOf(job.eventType).value, job.data, outcomes)
  {
    match Client.Connect(s)
    case Err(e) => Sent(Err(e), 0, [])
    case Ok(c) =>
      match VerbOf(job.eventType)
      case None => Sent(Err(InvalidArgument(UnknownTypeMessage(job.eventType))), 0, [])
      case Some(v) => Client.Call(c, env, v, job.data, outcomes)
  }

  /** Every verb's name leads back to that verb, so a job queued under a verb's
      name runs that verb. */
  lemma VerbNameRoundTrip(v: Client.Verb)
    ensures VerbOf(Client.VerbName(v)) == Some(v)
  {
  }

  /** `batch` is not a job type: such a job fails without any request, and the
      message names the type. */
  lemma BatchIsNotAJobType(s: Settings, env: Surroundings, data: Array, outcomes: seq<Outcome>)
    requires MaxAttempts(s) <= |outcomes|
    requires Client.Connect(s).Ok?
    ensures var r := Handle(Job("batch", data), s, env, outcomes);
            && r.attempts == 0
            && r.result.Err? && r.result.error.InvalidArgument?
            && r.result.error.message[|"Unknown event type: "|..] == "batch"
  {
  }

  /** A job never turns a failure into success: it succeeds exactly when the
      client call it makes succeeds, and otherwise reports that call's error. */
  lemma FailuresAreRethrown(job: Job, s: Settings, env: Surroundings, outcomes: seq<Outcome>)
    requires MaxAttempts(s) <= |outcomes|
    requires Client.Connect(s).Ok? && VerbOf(job.eventType).Some?
    ensures var call := Client.Call(Client.Connect(s).value, env, VerbOf(job.eventType).value, job.data, outcomes);
            Handle(job, s, env, outcomes).result == call.result
  {
  }

  /** A job whose data lacks both identifiers is refused when it runs, at the
      client's identity check; queueing it did not validate it. */
  lemma LateValidation(job: Job, s: Settings, env: Surroundings, outcomes: seq<Outcome>)
    requires MaxAttempts(s) <= |outcomes|
    requires Client.Connect(s).Ok? && VerbOf(job.eventType).Some?
    requires !Validation.HasIdentity(job.data)
    ensures Handle(job, s, env, outcomes) == Sent(Err(MissingRequired(Validation.IdentityField)), 0, [])
  {
    Client.NoIdentityNoRequest(Client.Connect(s).value, env, VerbOf(job.eventType).value, job.data, outcomes);
  }
}
