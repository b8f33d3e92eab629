/**
 * The event client's in-memory queue (`queueEvent`, `shouldFlushQueue`,
 * `flush`) as a state machine over the sequence of pending records. A
 * flush sends the whole queue as one batch and clears it only when that
 * batch succeeds; otherwise the queue is kept and the error propagates.
 */
module EventQueue {
  import opened Values
  import opened Errors
  import opened Config
  import opened Ambient
  import opened Transport
  import opened Client
  import opened Payload

  /** The queue after an operation, and the request it made (if any). */
  datatype Step = Step(queue: seq<Array>, sent: Sent)

  /** What an operation that makes no request reports. */
  const Quiet := Sent(Ok(map[]), 0, [])

  /** The record `queueEvent` appends: `['type' => $type]` merged with the data,
      so a `type` key in the data wins. */
  function Record(eventType: string, data: Array): (r: Array)
    ensures r.Keys == data.Keys + {"type"}
    ensures r["type"] == if "type" in data then data["type"] else Str(eventType)
    ensures forall k :: k in data ==> r[k] == data[k]
  {
    Merge(map["type" := Str(eventType)], data)
  }

  /** `shouldFlushQueue`: auto-flush is on and the queue has reached the batch size. */
  predicate ShouldFlush(s: Settings, queue: seq<Array>) {
    AutoFlush(s) && |queue| >= BatchSize(s)
  }

  /** `flush()`. */
  function Flush(c: Client, env: Surroundings, queue: seq<Array>, outcomes: seq<Outcome>): (r: Step)
    requires MaxAttempts(c.settings) <= |outcomes|
    ensures |queue| == 0 ==> r == Step(queue, Quiet)
    ensures |queue| > 0 ==> r.sent == Batch(c, env, queue, outcomes)
    ensures r.sent.result.Ok? ==> r.queue == []
    ensures r.sent.result.Err? ==> r.queue == queue
  {
    if |queue| == 0 then Step(queue, Quiet)
    else
      var sent := Batch(c, env, queue, outcomes);
      if sent.result.Ok? then Step([], sent) else Step(queue, sent)
  }

  /** `queueEvent($type, $data)`: append one record, then flush if due. */
  function QueueEvent(c: Client, env: Surroundings, queue: seq<Array>, eventType: string, data: Array,
                      outcomes: seq<Outcome>): (r: Step)
    requires MaxAttempts(c.settings) <= |outcomes|
    ensures var appended := queue + [Record(eventType, data)];
            && (!ShouldFlush(c.settings, appended) ==> r == Step(appended, Quiet))
            && (ShouldFlush(c.settings, appended) ==> r == Flush(c, env, appended, outcomes))
    ensures r.sent.result.Ok? ==> r.queue == [] || r.queue == queue + [Record(eventType, data)]
  {
    var appended := queue + [Record(eventType, data)];
    if ShouldFlush(c.settings, appended) then Flush(c, env, appended, outcomes)
    else Step(appended, Quiet)
  }

  /** With auto-flush on, a `queueEvent` that returns normally leaves fewer
      records queued than the batch size: either it did not need to flush, or
      the flush succeeded and emptied the queue (a flush can only succeed when
      the batch size admits at least the one record just queued). */
  lemma QueueStaysBelowBatchSize(c: Client, env: Surroundings, queue: seq<Array>, eventType: string, data: Array,
                                 outcomes: seq<Outcome>)
    requires MaxAttempts(c.settings) <= |outcomes|
    requires AutoFlush(c.settings)
    requires QueueEvent(c, env, queue, eventType, data, outcomes).sent.result.Ok?
    ensures |QueueEvent(c, env, queue, eventType, data, outcomes).queue| < BatchSize(c.settings)
  {
    var appended := queue + [Record(eventType, data)];
    if ShouldFlush(c.settings, appended) {
      assert PrepareBatch(c, env, appended).Ok?;
    }
  }

  /** With auto-flush off, a queue longer than the batch size can never be
      flushed: every attempt fails validation, sends nothing and keeps the queue. */
  lemma OverfullQueueNeverFlushes(c: Client, env: Surroundings, queue: seq<Array>, outcomes: seq<Outcome>)
    requires MaxAttempts(c.settings) <= |outcomes|
    requires |queue| > BatchSize(c.settings) && |queue| > 0
    ensures var r := Flush(c, env, queue, outcomes);
            && r.queue == queue
            && r.sent.attempts == 0
            && r.sent.result == Err(Multiple(map["events" := [BatchLimitMessage(BatchSize(c.settings))]]))
  {
  }

  /** A failed flush leaves the queue as it was, so the next flush sends the
      same events again: delivery is at least once. The retry runs later, with a
      new clock reading and new UUIDs, so an item may differ from its first
      sending in `messageId` and `timestamp`, but only where the event did not
      carry its own. */
  lemma FailedFlushResendsSameBatch(c: Client, env: Surroundings, later: Surroundings, queue: seq<Array>,
                                    first: seq<Outcome>)
    requires MaxAttempts(c.settings) <= |first|
    requires Flush(c, env, queue, first).sent.result.Err?
    requires later == env.(now := later.now, messageIds := later.messageIds)
    ensures Flush(c, env, queue, first).queue == queue
    ensures PrepareBatch(c, env, queue).Ok? <==> PrepareBatch(c, later, queue).Ok?
    ensures PrepareBatch(c, env, queue).Ok? ==>
              var before := PrepareBatch(c, env, queue).value.payload["batch"].items;
              var again := PrepareBatch(c, later, queue).value.payload["batch"].items;
              && |before| == |again| == |queue|
              && forall i :: 0 <= i < |queue| ==>
                   before[i].Map? && again[i].Map? && SameUpToFreshValues(before[i].m, again[i].m, queue[i])
  {
    if PrepareBatch(c, env, queue).Ok? {
      var before := PrepareBatch(c, env, queue).value.payload["batch"].items;
      var again := PrepareBatch(c, later, queue).value.payload["batch"].items;
      forall i | 0 <= i < |queue|
        ensures before[i].Map? && again[i].Map? && SameUpToFreshValues(before[i].m, again[i].m, queue[i])
      {
        ResendDiffersOnlyInFreshValues(c.settings, env, later, env.messageIds(i), later.messageIds(i), queue[i], queue[i]);
      }
    }
  }

  /** With auto-flush on, the record that fills the queue up to the batch size
      triggers one batch of all the queued records. The queue is emptied exactly
      when that batch succeeds; in testing mode it always does, without a request,
      once every record's context can be built. */
  lemma FillingTheQueueFlushesIt(c: Client, env: Surroundings, queue: seq<Array>, eventType: string, data: Array,
                                 outcomes: seq<Outcome>)
    requires MaxAttempts(c.settings) <= |outcomes|
    requires AutoFlush(c.settings)
    requires |queue| + 1 == BatchSize(c.settings)
    ensures var appended := queue + [Record(eventType, data)];
            var r := QueueEvent(c, env, queue, eventType, data, outcomes);
            && r.sent == Batch(c, env, appended, outcomes)
            && (r.queue == [] <==> r.sent.result.Ok?)
            && (r.sent.result.Err? ==> r.queue == appended)
    ensures Testing(c.settings) && BatchItemsBuild(c, env, queue + [Record(eventType, data)]) ==>
              var r := QueueEvent(c, env, queue, eventType, data, outcomes);
              r.queue == [] && r.sent == Sent(Ok(TestingReply), 0, [])
  {
  }
}
