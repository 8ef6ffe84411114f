/** The message envelope, its payloads, and the two constant tables every service shares:
    the relay's routing table and the registry of supported event versions. */
module Messages {
  import opened Prelude

  type Id = string

  datatype Verdict = Approved | Rejected

  /** The JSON payloads of the pipeline. `Unreadable` stands for every payload
      that class-validator would reject. */
  datatype Payload =
    | Job(postId: Id, content: string)
    | Completed(postId: Id, verdict: Verdict, categories: seq<string>, authorId: Option<Id>)
    | Unreadable

  datatype Envelope = Envelope(
    messageId: Id,
    correlationId: Id,
    eventType: string,
    eventVersion: int,
    occurredAt: int,
    source: string,
    payload: Payload)

  const JOB_EVENT := "moderation.job"
  const COMPLETED_EVENT := "moderation.completed"
  const JOB_QUEUE := "moderation.job"
  const COMPLETED_TOPIC := "moderation-completed-events"

  datatype Broker = RabbitMq | Kafka

  datatype Route = Route(broker: Broker, destination: string)

  const RELAY_ROUTING: map<string, Route> := map[
    JOB_EVENT := Route(RabbitMq, JOB_QUEUE),
    COMPLETED_EVENT := Route(Kafka, COMPLETED_TOPIC)
  ]

  /** A call that succeeds, or errs after or before taking effect. */
  datatype Reply = Ok | Error(applied: bool)

  predicate TakesEffect(reply: Reply) {
    reply.Ok? || reply.applied
  }

  /** How a database transaction ends. `FailsAfter` commits, but the client sees an error. */
  datatype Db = Commits | FailsBefore | FailsAfter

  /** What a handler's promise does: resolve, or throw so that the message comes back. */
  datatype Ending = Returns | Throws

  /** The classifier's answer, once parsed. */
  datatype Classification = Classification(verdict: Verdict, categories: seq<string>)

  const EVENT_VERSIONS: map<string, int> := map[JOB_EVENT := 1, COMPLETED_EVENT := 1]

  /** What every JavaScript object literal inherits. Looked up in the table of versions these names give
      a function or an object, and no version number compares greater than one. */
  const INHERITED_NAMES := {
    "constructor", "hasOwnProperty", "isPrototypeOf", "propertyIsEnumerable", "toLocaleString", "toString", "valueOf",
    "__proto__", "__defineGetter__", "__defineSetter__", "__lookupGetter__", "__lookupSetter__"
  }

  /** A consumer refuses unknown event types and versions from the future. */
  predicate SupportedEventVersion(eventType: string, eventVersion: int) {
    (eventType in EVENT_VERSIONS && eventVersion <= EVENT_VERSIONS[eventType]) || eventType in INHERITED_NAMES
  }

  /** Both event types stand at version 1; earlier versions pass as well. */
  lemma VersionsPass(eventVersion: int)
    ensures SupportedEventVersion("moderation.job", eventVersion) <==> eventVersion <= 1
    ensures SupportedEventVersion("moderation.completed", eventVersion) <==> eventVersion <= 1
  {
  }

  const MAX_CONTENT := 10000

  predicate ValidJob(payload: Payload) {
    payload.Job? && payload.postId != "" && |payload.content| <= MAX_CONTENT
  }

  predicate ValidCompleted(payload: Payload) {
    payload.Completed? && payload.postId != ""
  }
}
