/** The dead-letter graph: which three queues a queue needs, with which arguments, and where the
    broker sends a message that is rejected or whose time is up. */
module QueueTopology {
  import opened Prelude

  const MAX_DELIVERIES := 5
  const RETRY_TTL_MS := 15000

  /** Arguments of a durable queue; the dead-letter exchange is always the default one, so the
      routing key names the target queue. */
  datatype QueueArgs = QueueArgs(messageTtl: Option<nat>, deadLetterTo: Option<string>)

  type Declared = map<string, QueueArgs>

  function DeadLetterQueueName(queue: string): string {
    queue + ".dlq"
  }

  function RetryQueueName(queue: string): string {
    queue + ".retry"
  }

  const PLAIN := QueueArgs(None, None)

  function RetryArgs(queue: string): QueueArgs {
    QueueArgs(Some(RETRY_TTL_MS), Some(queue))
  }

  function MainArgs(queue: string): QueueArgs {
    QueueArgs(None, Some(RetryQueueName(queue)))
  }

  /** assertQueue: None is the broker's 406 on arguments that differ from the first declaration. */
  function Declare(d: Declared, name: string, args: QueueArgs): Option<Declared> {
    if name in d && d[name] != args then None else Some(d[name := args])
  }

  /** The three names are different, whatever the queue is called. */
  lemma NamesDiffer(queue: string)
    ensures queue != RetryQueueName(queue) && queue != DeadLetterQueueName(queue)
    ensures RetryQueueName(queue) != DeadLetterQueueName(queue)
  {
    assert |RetryQueueName(queue)| == |queue| + 6 && |DeadLetterQueueName(queue)| == |queue| + 4;
  }

  /** All three queues stand with the arguments every party agrees on. */
  ghost predicate Stands(d: Declared, queue: string) {
    && DeadLetterQueueName(queue) in d && d[DeadLetterQueueName(queue)] == PLAIN
    && RetryQueueName(queue) in d && d[RetryQueueName(queue)] == RetryArgs(queue)
    && queue in d && d[queue] == MainArgs(queue)
  }

  /** A queue with other arguments under one of the three names makes the declaration fail. */
  ghost predicate Clashes(d: Declared, queue: string) {
    || (DeadLetterQueueName(queue) in d && d[DeadLetterQueueName(queue)] != PLAIN)
    || (RetryQueueName(queue) in d && d[RetryQueueName(queue)] != RetryArgs(queue))
    || (queue in d && d[queue] != MainArgs(queue))
  }

  class Broker {
    var declared: Declared

    constructor ()
      ensures declared == map[]
    {
      declared := map[];
    }

    method AssertQueue(name: string, args: QueueArgs) returns (ok: bool)
      modifies this
      ensures ok <==> Declare(old(declared), name, args).Some?
      ensures declared == if ok then Declare(old(declared), name, args).value else old(declared)
    {
      if name in declared && declared[name] != args {
        return false;
      }
      declared := declared[name := args];
      return true;
    }

    /** Declares the three queues in order. It succeeds exactly when nothing clashes, and running it
        again, by any publisher or consumer, succeeds and changes nothing. */
    method AssertQueueTopology(queue: string) returns (ok: bool)
      modifies this
      ensures ok <==> !Clashes(old(declared), queue)
      ensures ok ==> Stands(declared, queue)
      ensures Stands(old(declared), queue) ==> ok && declared == old(declared)
      ensures forall name :: name in old(declared) ==> name in declared && declared[name] == old(declared)[name]
    {
      NamesDiffer(queue);
      ok := AssertQueue(DeadLetterQueueName(queue), PLAIN);
      if !ok { return; }
      ok := AssertQueue(RetryQueueName(queue), RetryArgs(queue));
      if !ok { return; }
      ok := AssertQueue(queue, MainArgs(queue));
    }
  }

  /** Where the broker moves a message that leaves `queue` by rejection or expiry. */
  function DeadLettersTo(d: Declared, queue: string): Option<string> {
    if queue in d then d[queue].deadLetterTo else None
  }

  /** After how many milliseconds a message leaves the queue by expiry. */
  function ExpiresAfter(d: Declared, queue: string): Option<nat> {
    if queue in d then d[queue].messageTtl else None
  }

  /** Rejected on the main queue, expired on the retry queue: back on the main queue. The DLQ is a
      dead end, and only the consumer's own send can reach it. Messages expire in the retry queue, and
      nowhere else. */
  lemma RetryIsACycle(d: Declared, queue: string)
    requires Stands(d, queue)
    ensures DeadLettersTo(d, queue) == Some(RetryQueueName(queue))
    ensures DeadLettersTo(d, RetryQueueName(queue)) == Some(queue)
    ensures DeadLettersTo(d, DeadLetterQueueName(queue)) == None
    ensures DeadLettersTo(d, queue) != Some(DeadLetterQueueName(queue))
    ensures ExpiresAfter(d, RetryQueueName(queue)) == Some(15000)
    ensures ExpiresAfter(d, queue) == None && ExpiresAfter(d, DeadLetterQueueName(queue)) == None
  {
    NamesDiffer(queue);
  }
}
