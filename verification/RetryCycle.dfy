/** One RabbitMQ queue with its retry queue and its DLQ, any number of consumers, and connections
    that drop deliveries at any moment.

    Every message the broker accepts is a separate entity. `ready`, `unacked` and `retry` hold it;
    `handled` and `parked` are the messages acked after their handler resolved and after the DLQ
    send. The counters are history: rejections from the main queue, deliveries lost to connection
    drops, handler starts, and steps taken. */
module RetryCycle {
  import opened Prelude
  import opened Messages
  import opened QueueTopology

  type MsgId = nat

  datatype XDeath = XDeath(queue: string, reason: string, count: nat)

  /** What JSON.parse makes of a body. `Null` is the one value that the handler, and then the consumer's
      own error log, cannot read. */
  datatype Body = Malformed | Null | Parsed(envelope: Envelope)

  datatype Msg = Msg(body: Body, headers: seq<XDeath>)

  /** How far the consumer is with a delivery. `Settled` is a handler that ended, or a body that
      did not parse; the ack or nack that follows may still be lost. `Stranded` is a delivery whose
      callback threw for good: neither ack nor nack will follow. */
  datatype Phase = Delivered | Running | Settled(ok: bool) | DlqSent | Stranded

  datatype Held = Held(msg: Msg, phase: Phase)

  datatype DlqCopy = DlqCopy(id: MsgId, msg: Msg)

  datatype Tally = Tally(rejected: nat, lost: nat, started: nat, steps: nat)

  datatype State = State(
    queue: string,
    accepted: map<MsgId, Body>,
    ready: map<MsgId, Msg>,
    unacked: map<MsgId, Held>,
    retry: map<MsgId, Msg>,
    handled: set<MsgId>,
    parked: set<MsgId>,
    dlq: seq<DlqCopy>,
    tally: map<MsgId, Tally>)

  datatype Step =
    | Accept(id: MsgId, body: Body, headers: seq<XDeath>)
    | Deliver(id: MsgId)
    | Begin(id: MsgId)
    | Settle(id: MsgId, ok: bool)
    | Ack(id: MsgId)
    | Nack(id: MsgId)
    | Expire(id: MsgId)
    | Lose(id: MsgId)

  const REJECTED := "rejected"
  const EXPIRED := "expired"

  function New(queue: string): State {
    State(queue, map[], map[], map[], map[], {}, {}, [], map[])
  }

  // ----- x-death -----

  /** The count of the first entry for this queue and reason, 0 if there is none. */
  function DeathCount(headers: seq<XDeath>, queue: string, reason: string): nat {
    if headers == [] then 0
    else if headers[0].queue == queue && headers[0].reason == reason then headers[0].count
    else DeathCount(headers[1..], queue, reason)
  }

  function DeliveryFailures(msg: Msg, queue: string): nat {
    DeathCount(msg.headers, queue, REJECTED)
  }

  function Without(headers: seq<XDeath>, queue: string, reason: string): seq<XDeath> {
    if headers == [] then [] else
      (if headers[0].queue == queue && headers[0].reason == reason then [] else [headers[0]])
      + Without(headers[1..], queue, reason)
  }

  /** The broker dead-letters a message: its entry for this queue and reason moves to the front
      with its count raised by one. */
  function Die(msg: Msg, queue: string, reason: string): Msg {
    msg.(headers := [XDeath(queue, reason, DeathCount(msg.headers, queue, reason) + 1)]
                    + Without(msg.headers, queue, reason))
  }

  lemma {:induction false} WithoutOther(headers: seq<XDeath>, queue: string, reason: string, q: string, r: string)
    requires q != queue || r != reason
    ensures DeathCount(Without(headers, queue, reason), q, r) == DeathCount(headers, q, r)
  {
    if headers != [] {
      WithoutOther(headers[1..], queue, reason, q, r);
      var kept := Without(headers[1..], queue, reason);
      assert ([headers[0]] + kept)[1..] == kept;
      assert [] + kept == kept;
    }
  }

  /** The entry the consumer reads counts exactly the rejections from its own queue: one more death
      on (queue, reason) adds one there and leaves every other entry alone. */
  lemma DeathsAreCounted(msg: Msg, queue: string, reason: string, q: string, r: string)
    ensures DeathCount(Die(msg, queue, reason).headers, q, r) ==
            DeathCount(msg.headers, q, r) + if q == queue && r == reason then 1 else 0
  {
    var rest := Without(msg.headers, queue, reason);
    assert Die(msg, queue, reason).headers[1..] == rest;
    if q != queue || r != reason {
      WithoutOther(msg.headers, queue, reason, q, r);
    }
  }

  // ----- the machine -----

  function PhaseAfterBegin(msg: Msg, queue: string): Phase {
    if DeliveryFailures(msg, queue) >= MAX_DELIVERIES then DlqSent
    else if msg.body.Malformed? then Settled(false)
    else if msg.body.Null? then Stranded
    else Running
  }

  predicate Can(s: State, step: Step) {
    match step
    case Accept(id, _, headers) => id !in s.accepted && DeathCount(headers, s.queue, REJECTED) == 0
    case Deliver(id) => id in s.ready
    case Begin(id) => id in s.unacked && s.unacked[id].phase.Delivered?
    case Settle(id, _) => id in s.unacked && s.unacked[id].phase.Running?
    case Ack(id) => id in s.unacked && (s.unacked[id].phase == Settled(true) || s.unacked[id].phase.DlqSent?)
    case Nack(id) => id in s.unacked && s.unacked[id].phase == Settled(false)
    case Expire(id) => id in s.retry
    case Lose(id) => id in s.unacked
  }

  /** The callback gets as far as the handler. */
  predicate CallsHandler(s: State, id: MsgId) {
    id in s.unacked &&
    var phase := PhaseAfterBegin(s.unacked[id].msg, s.queue);
    phase.Running? || phase.Stranded?
  }

  function Count(s: State, step: Step): map<MsgId, Tally> {
    if step.Accept? then s.tally[step.id := Tally(0, 0, 0, 0)]
    else if step.id !in s.tally then s.tally
    else
      var t := s.tally[step.id];
      s.tally[step.id := Tally(
        if step.Nack? then t.rejected + 1 else t.rejected,
        if step.Lose? then t.lost + 1 else t.lost,
        if step.Begin? && CallsHandler(s, step.id) then t.started + 1 else t.started,
        t.steps + 1)]
  }

  function Do(s: State, step: Step): State
    requires Can(s, step)
  {
    var s := s.(tally := Count(s, step));
    match step
    case Accept(id, body, headers) => s.(accepted := s.accepted[id := body], ready := s.ready[id := Msg(body, headers)])
    case Deliver(id) => s.(ready := s.ready - {id}, unacked := s.unacked[id := Held(s.ready[id], Delivered)])
    case Begin(id) =>
      var msg := s.unacked[id].msg;
      var phase := PhaseAfterBegin(msg, s.queue);
      s.(unacked := s.unacked[id := Held(msg, phase)],
         dlq := if phase.DlqSent? then s.dlq + [DlqCopy(id, msg)] else s.dlq)
    case Settle(id, ok) => s.(unacked := s.unacked[id := s.unacked[id].(phase := Settled(ok))])
    case Ack(id) =>
      if s.unacked[id].phase.DlqSent? then s.(unacked := s.unacked - {id}, parked := s.parked + {id})
      else s.(unacked := s.unacked - {id}, handled := s.handled + {id})
    case Nack(id) =>
      s.(unacked := s.unacked - {id}, retry := s.retry[id := Die(s.unacked[id].msg, s.queue, REJECTED)])
    case Expire(id) =>
      s.(retry := s.retry - {id}, ready := s.ready[id := Die(s.retry[id], RetryQueueName(s.queue), EXPIRED)])
    case Lose(id) => s.(unacked := s.unacked - {id}, ready := s.ready[id := s.unacked[id].msg])
  }

  ghost predicate Admissible(s: State, steps: seq<Step>)
    decreases |steps|
  {
    steps == [] || (Can(s, steps[0]) && Admissible(Do(s, steps[0]), steps[1..]))
  }

  ghost function Exec(s: State, steps: seq<Step>): State
    requires Admissible(s, steps)
    decreases |steps|
  {
    if steps == [] then s else Exec(Do(s, steps[0]), steps[1..])
  }

  // ----- invariants -----

  function PlaceCount(s: State, id: MsgId): nat {
    (if id in s.ready then 1 else 0) + (if id in s.unacked then 1 else 0) + (if id in s.retry then 1 else 0)
    + (if id in s.handled then 1 else 0) + (if id in s.parked then 1 else 0)
  }

  /** Each accepted message is in exactly one place. */
  ghost predicate Partition(s: State) {
    forall id :: PlaceCount(s, id) == (if id in s.accepted then 1 else 0) && (id in s.tally <==> id in s.accepted)
  }

  ghost predicate MsgOk(s: State, id: MsgId, msg: Msg) {
    && id in s.accepted && msg.body == s.accepted[id]
    && id in s.tally && DeliveryFailures(msg, s.queue) == s.tally[id].rejected <= MAX_DELIVERIES
  }

  predicate Started(phase: Phase) {
    phase.Running? || phase.Settled? || phase.Stranded?
  }

  ghost predicate HeldOk(s: State, id: MsgId, held: Held) {
    && MsgOk(s, id, held.msg)
    && (Started(held.phase) ==> s.tally[id].rejected < MAX_DELIVERIES)
    && (held.phase.Stranded? ==> held.msg.body.Null?)
    && (held.phase.DlqSent? ==> s.tally[id].rejected == MAX_DELIVERIES && InDlq(s.dlq, id))
  }

  ghost predicate InDlq(dlq: seq<DlqCopy>, id: MsgId) {
    exists c :: c in dlq && c.id == id
  }

  ghost predicate Places(s: State) {
    && (forall id :: id in s.ready ==> MsgOk(s, id, s.ready[id]))
    && (forall id :: id in s.retry ==> MsgOk(s, id, s.retry[id]))
    && (forall id :: id in s.unacked ==> HeldOk(s, id, s.unacked[id]))
    && (forall id :: id in s.handled ==> id in s.tally && s.tally[id].rejected < MAX_DELIVERIES)
    && (forall id :: id in s.parked ==> id in s.tally && s.tally[id].rejected == MAX_DELIVERIES && InDlq(s.dlq, id))
  }

  /** DLQ copies keep the body and the headers of a message that used up its deliveries. */
  ghost predicate DlqOk(s: State) {
    forall c :: c in s.dlq ==> MsgOk(s, c.id, c.msg) && s.tally[c.id].rejected == MAX_DELIVERIES
  }

  /** One handler start is unaccounted for while it runs and after it resolved. */
  ghost function Open(s: State, id: MsgId): nat {
    if id in s.handled || (id in s.unacked && Started(s.unacked[id].phase)) then 1 else 0
  }

  /** The steps a message can still take if no further delivery of it is lost. */
  ghost function Rank(s: State, id: MsgId): int
    requires id in s.tally
  {
    var left := 5 * (MAX_DELIVERIES - s.tally[id].rejected);
    if id in s.ready then left + 3
    else if id in s.retry then left + 4
    else if id in s.unacked then
      match s.unacked[id].phase
      case Delivered => left + 2
      case Running => left + 1
      case Stranded => left + 1
      case Settled(_) => left
      case DlqSent => 1
    else 0
  }

  ghost predicate Bounded(s: State) {
    forall id :: id in s.tally ==> BoundOk(s, id)
  }

  ghost predicate BoundOk(s: State, id: MsgId) {
    && id in s.tally
    && s.tally[id].started <= s.tally[id].rejected + s.tally[id].lost + Open(s, id)
    && s.tally[id].steps + Rank(s, id) <= 5 * MAX_DELIVERIES + 3 + 4 * s.tally[id].lost
  }

  ghost predicate Inv(s: State) {
    Partition(s) && Places(s) && DlqOk(s) && Bounded(s)
  }

  /** A step moves its own message and leaves every other where it was. */
  lemma OthersStay(s: State, step: Step, id: MsgId)
    requires Can(s, step) && id != step.id
    ensures var s' := Do(s, step);
      && (id in s'.ready <==> id in s.ready) && (id in s.ready ==> s'.ready[id] == s.ready[id])
      && (id in s'.retry <==> id in s.retry) && (id in s.retry ==> s'.retry[id] == s.retry[id])
      && (id in s'.unacked <==> id in s.unacked) && (id in s.unacked ==> s'.unacked[id] == s.unacked[id])
      && (id in s'.handled <==> id in s.handled) && (id in s'.parked <==> id in s.parked)
      && (id in s'.tally <==> id in s.tally) && (id in s.tally ==> s'.tally[id] == s.tally[id])
      && (id in s'.accepted <==> id in s.accepted) && (id in s.accepted ==> s'.accepted[id] == s.accepted[id])
  {
  }

  lemma StepKeepsPartition(s: State, step: Step)
    requires Inv(s) && Can(s, step)
    ensures Partition(Do(s, step))
  {
    var s' := Do(s, step);
    forall id
      ensures PlaceCount(s', id) == (if id in s'.accepted then 1 else 0) && (id in s'.tally <==> id in s'.accepted)
    {
      assert PlaceCount(s, id) == if id in s.accepted then 1 else 0;
      if id != step.id {
        OthersStay(s, step, id);
      }
    }
  }

  /** Wherever the message of a step is afterwards, it is there in order. */
  ghost predicate PlaceOk(s: State, id: MsgId) {
    && (id in s.ready ==> MsgOk(s, id, s.ready[id]))
    && (id in s.retry ==> MsgOk(s, id, s.retry[id]))
    && (id in s.unacked ==> HeldOk(s, id, s.unacked[id]))
    && (id in s.handled ==> id in s.tally && s.tally[id].rejected < MAX_DELIVERIES)
    && (id in s.parked ==> id in s.tally && s.tally[id].rejected == MAX_DELIVERIES && InDlq(s.dlq, id))
  }

  lemma PlaceOf(s: State, id: MsgId)
    requires Inv(s)
    ensures PlaceOk(s, id) && PlaceCount(s, id) == if id in s.accepted then 1 else 0
  {
  }

  lemma QueuePlace(s: State, step: Step)
    requires PlaceOk(s, step.id) && PlaceCount(s, step.id) == if step.id in s.accepted then 1 else 0
    requires Can(s, step) && (step.Accept? || step.Deliver? || step.Lose?)
    ensures PlaceOk(Do(s, step), step.id)
  {
  }

  lemma BeginPlace(s: State, step: Step)
    requires PlaceOk(s, step.id) && PlaceCount(s, step.id) == 1 && Can(s, step) && step.Begin?
    ensures PlaceOk(Do(s, step), step.id)
  {
    var copy := DlqCopy(step.id, s.unacked[step.id].msg);
    assert copy in s.dlq + [copy];
  }

  lemma SettledPlace(s: State, step: Step)
    requires PlaceOk(s, step.id) && PlaceCount(s, step.id) == 1 && Can(s, step) && (step.Settle? || step.Ack?)
    ensures PlaceOk(Do(s, step), step.id)
  {
  }

  lemma DeadPlace(s: State, step: Step)
    requires PlaceOk(s, step.id) && PlaceCount(s, step.id) == 1 && Can(s, step) && (step.Nack? || step.Expire?)
    ensures PlaceOk(Do(s, step), step.id)
  {
    if step.Nack? {
      DeathsAreCounted(s.unacked[step.id].msg, s.queue, REJECTED, s.queue, REJECTED);
    } else {
      NamesDiffer(s.queue);
      DeathsAreCounted(s.retry[step.id], RetryQueueName(s.queue), EXPIRED, s.queue, REJECTED);
    }
  }

  lemma OwnPlace(s: State, step: Step)
    requires Inv(s) && Can(s, step)
    ensures PlaceOk(Do(s, step), step.id)
  {
    PlaceOf(s, step.id);
    match step {
      case Begin(_) => BeginPlace(s, step);
      case Settle(_, _) => SettledPlace(s, step);
      case Ack(_) => SettledPlace(s, step);
      case Nack(_) => DeadPlace(s, step);
      case Expire(_) => DeadPlace(s, step);
      case _ => QueuePlace(s, step);
    }
  }

  lemma DlqGrows(s: State, step: Step)
    requires Can(s, step)
    ensures forall c :: c in s.dlq ==> c in Do(s, step).dlq
    ensures forall id :: InDlq(s.dlq, id) ==> InDlq(Do(s, step).dlq, id)
  {
    forall id | InDlq(s.dlq, id) ensures InDlq(Do(s, step).dlq, id) {
      var c :| c in s.dlq && c.id == id;
      assert c in Do(s, step).dlq;
    }
  }

  lemma StepKeepsPlaces(s: State, step: Step)
    requires Inv(s) && Can(s, step)
    ensures Places(Do(s, step))
  {
    var s' := Do(s, step);
    OwnPlace(s, step);
    forall id ensures PlaceOk(s', id) {
      if id != step.id {
        PlaceOf(s, id);
        OtherPlace(s, step, id);
      }
    }
    AllPlaces(s');
  }

  lemma OtherPlace(s: State, step: Step, id: MsgId)
    requires PlaceOk(s, id) && Can(s, step) && id != step.id
    ensures PlaceOk(Do(s, step), id)
  {
    OthersStay(s, step, id);
    if InDlq(s.dlq, id) {
      DlqGrows(s, step);
    }
  }

  lemma AllPlaces(s: State)
    requires forall id :: PlaceOk(s, id)
    ensures Places(s)
  {
    forall id | id in s.ready ensures MsgOk(s, id, s.ready[id]) { assert PlaceOk(s, id); }
    forall id | id in s.retry ensures MsgOk(s, id, s.retry[id]) { assert PlaceOk(s, id); }
    forall id | id in s.unacked ensures HeldOk(s, id, s.unacked[id]) { assert PlaceOk(s, id); }
    forall id | id in s.handled ensures id in s.tally && s.tally[id].rejected < MAX_DELIVERIES {
      assert PlaceOk(s, id);
    }
    forall id | id in s.parked ensures id in s.tally && s.tally[id].rejected == MAX_DELIVERIES && InDlq(s.dlq, id) {
      assert PlaceOk(s, id);
    }
  }

  lemma StepKeepsDlq(s: State, step: Step)
    requires Inv(s) && Can(s, step)
    ensures DlqOk(Do(s, step))
  {
    forall c | c in Do(s, step).dlq
      ensures MsgOk(Do(s, step), c.id, c.msg) && Do(s, step).tally[c.id].rejected == MAX_DELIVERIES
    {
      StepKeepsCopy(s, step, c);
    }
  }

  lemma StepKeepsCopy(s: State, step: Step, c: DlqCopy)
    requires Inv(s) && Can(s, step) && c in Do(s, step).dlq
    ensures MsgOk(Do(s, step), c.id, c.msg) && Do(s, step).tally[c.id].rejected == MAX_DELIVERIES
  {
    if c in s.dlq {
      assert MsgOk(s, c.id, c.msg) && s.tally[c.id].rejected == MAX_DELIVERIES;
      if c.id != step.id {
        OthersStay(s, step, c.id);
      } else {
        ParkedStays(s, step);
      }
    } else {
      NewCopy(s, step, c);
    }
  }

  lemma NewCopy(s: State, step: Step, c: DlqCopy)
    requires Places(s) && Can(s, step) && c in Do(s, step).dlq && c !in s.dlq
    ensures MsgOk(Do(s, step), c.id, c.msg) && Do(s, step).tally[c.id].rejected == MAX_DELIVERIES
  {
    assert HeldOk(s, c.id, s.unacked[c.id]);
  }

  /** A message that used up its deliveries is not rejected again. */
  lemma ParkedStays(s: State, step: Step)
    requires Inv(s) && Can(s, step) && step.id in s.accepted && s.tally[step.id].rejected == MAX_DELIVERIES
    ensures var s' := Do(s, step);
      step.id in s'.tally && s'.tally[step.id].rejected == MAX_DELIVERIES
      && step.id in s'.accepted && s'.accepted[step.id] == s.accepted[step.id]
  {
    forall id | id in s.unacked ensures HeldOk(s, id, s.unacked[id]) {}
  }

  lemma StepKeepsBounds(s: State, step: Step)
    requires Inv(s) && Can(s, step)
    ensures Bounded(Do(s, step))
  {
    var s' := Do(s, step);
    forall id | id in s'.tally
      ensures BoundOk(s', id)
    {
      if id != step.id {
        OtherBounds(s, step, id);
      } else {
        OwnBounds(s, step);
      }
    }
  }

  lemma OtherBounds(s: State, step: Step, id: MsgId)
    requires Bounded(s) && Can(s, step) && id != step.id && id in Do(s, step).tally
    ensures BoundOk(Do(s, step), id)
  {
    OthersStay(s, step, id);
    assert BoundOk(s, id);
  }

  lemma NewBounds(s: State, step: Step)
    requires Can(s, step) && step.Accept? && PlaceCount(s, step.id) == 0
    ensures BoundOk(Do(s, step), step.id)
  {
  }

  /** A message takes one step: of its rank, unless the delivery is lost, at least one unit is gone. */
  lemma QueueBounds(s: State, step: Step)
    requires BoundOk(s, step.id) && PlaceOk(s, step.id) && PlaceCount(s, step.id) == 1
    requires Can(s, step) && (step.Deliver? || step.Expire? || step.Lose?)
    ensures BoundOk(Do(s, step), step.id)
    ensures !step.Lose? ==> Rank(Do(s, step), step.id) < Rank(s, step.id)
  {
  }

  lemma HandlerBounds(s: State, step: Step)
    requires BoundOk(s, step.id) && PlaceOk(s, step.id) && PlaceCount(s, step.id) == 1
    requires Can(s, step) && (step.Begin? || step.Settle?)
    ensures BoundOk(Do(s, step), step.id) && Rank(Do(s, step), step.id) < Rank(s, step.id)
  {
  }

  lemma ReplyBounds(s: State, step: Step)
    requires BoundOk(s, step.id) && PlaceOk(s, step.id) && PlaceCount(s, step.id) == 1
    requires Can(s, step) && (step.Ack? || step.Nack?)
    ensures BoundOk(Do(s, step), step.id) && Rank(Do(s, step), step.id) < Rank(s, step.id)
  {
  }

  lemma OwnBounds(s: State, step: Step)
    requires Inv(s) && Can(s, step)
    ensures BoundOk(Do(s, step), step.id)
    ensures !step.Accept? && !step.Lose? ==> step.id in s.tally && Rank(Do(s, step), step.id) < Rank(s, step.id)
  {
    PlaceOf(s, step.id);
    match step {
      case Accept(_, _, _) => NewBounds(s, step);
      case Begin(_) => HandlerBounds(s, step);
      case Settle(_, _) => HandlerBounds(s, step);
      case Ack(_) => ReplyBounds(s, step);
      case Nack(_) => ReplyBounds(s, step);
      case _ => QueueBounds(s, step);
    }
  }

  lemma StepKeepsInv(s: State, step: Step)
    requires Inv(s) && Can(s, step)
    ensures Inv(Do(s, step))
  {
    StepKeepsPartition(s, step);
    StepKeepsPlaces(s, step);
    StepKeepsDlq(s, step);
    StepKeepsBounds(s, step);
  }

  lemma {:induction false} RunKeepsInv(s: State, steps: seq<Step>)
    requires Inv(s) && Admissible(s, steps)
    ensures Inv(Exec(s, steps)) && Exec(s, steps).queue == s.queue
    decreases |steps|
  {
    if steps != [] {
      StepKeepsInv(s, steps[0]);
      RunKeepsInv(Do(s, steps[0]), steps[1..]);
    }
  }

  // ----- what holds of every run -----

  /** Nothing accepted is ever lost or duplicated: a message is ready, unacked, in retry, acked
      after its handler resolved, or acked with a copy in the DLQ, and only one of these. */
  lemma Conservation(queue: string, steps: seq<Step>)
    requires Admissible(New(queue), steps)
    ensures var s := Exec(New(queue), steps);
      && s.accepted.Keys == s.ready.Keys + s.unacked.Keys + s.retry.Keys + s.handled + s.parked
      && |s.accepted.Keys| == |s.ready.Keys| + |s.unacked.Keys| + |s.retry.Keys| + |s.handled| + |s.parked|
      && (forall id :: id in s.parked ==> InDlq(s.dlq, id))
  {
    RunKeepsInv(New(queue), steps);
    PartsOf(Exec(New(queue), steps));
  }

  lemma PartsOf(s: State)
    requires Inv(s)
    ensures s.accepted.Keys == s.ready.Keys + s.unacked.Keys + s.retry.Keys + s.handled + s.parked
    ensures |s.accepted.Keys| == |s.ready.Keys| + |s.unacked.Keys| + |s.retry.Keys| + |s.handled| + |s.parked|
  {
    forall id
      ensures id in s.accepted <==>
          id in s.ready || id in s.unacked || id in s.retry || id in s.handled || id in s.parked
      ensures id in s.ready ==> id !in s.unacked
      ensures id in s.retry ==> id !in s.ready && id !in s.unacked
      ensures id in s.handled ==> id !in s.ready && id !in s.unacked && id !in s.retry
      ensures id in s.parked ==> id !in s.ready && id !in s.unacked && id !in s.retry && id !in s.handled
    {
      assert PlaceCount(s, id) == if id in s.accepted then 1 else 0;
    }
    CountParts(s.accepted.Keys, s.ready.Keys, s.unacked.Keys, s.retry.Keys, s.handled, s.parked);
  }

  lemma CountParts(all: set<MsgId>, a: set<MsgId>, b: set<MsgId>, c: set<MsgId>, d: set<MsgId>, e: set<MsgId>)
    requires forall id :: id in all <==> id in a || id in b || id in c || id in d || id in e
    requires forall id :: id in a ==> id !in b
    requires forall id :: id in c ==> id !in a && id !in b
    requires forall id :: id in d ==> id !in a && id !in b && id !in c
    requires forall id :: id in e ==> id !in a && id !in b && id !in c && id !in d
    ensures all == a + b + c + d + e
    ensures |all| == |a| + |b| + |c| + |d| + |e|
  {
    assert all == a + b + c + d + e;
    assert |a + b| == |a| + |b|;
    assert |a + b + c| == |a + b| + |c|;
    assert |a + b + c + d| == |a + b + c| + |d|;
  }

  /** Only poison reaches the DLQ: each copy is a message that was rejected MAX_DELIVERIES times
      from its main queue, with its body and its x-death header. */
  lemma OnlyPoisonInDlq(queue: string, steps: seq<Step>, c: DlqCopy)
    requires Admissible(New(queue), steps) && c in Exec(New(queue), steps).dlq
    ensures var s := Exec(New(queue), steps);
      && c.id in s.accepted && c.msg.body == s.accepted[c.id]
      && c.id in s.tally && s.tally[c.id].rejected == MAX_DELIVERIES == DeliveryFailures(c.msg, queue)
  {
    RunKeepsInv(New(queue), steps);
    assert MsgOk(Exec(New(queue), steps), c.id, c.msg);
  }

  /** With k deliveries lost to connection drops, a message's handler starts at most
      MAX_DELIVERIES + k times, and the message takes a bounded number of steps in all. */
  lemma RetryBound(queue: string, steps: seq<Step>, id: MsgId)
    requires Admissible(New(queue), steps) && id in Exec(New(queue), steps).accepted
    ensures var s := Exec(New(queue), steps);
      && id in s.tally
      && s.tally[id].started <= MAX_DELIVERIES + s.tally[id].lost
      && s.tally[id].steps <= 5 * MAX_DELIVERIES + 3 + 4 * s.tally[id].lost
  {
    RunKeepsInv(New(queue), steps);
    var s := Exec(New(queue), steps);
    assert PlaceCount(s, id) == 1 && id in s.tally;
    if id in s.unacked {
      assert HeldOk(s, id, s.unacked[id]);
    } else if id in s.ready {
      assert MsgOk(s, id, s.ready[id]);
    } else if id in s.retry {
      assert MsgOk(s, id, s.retry[id]);
    }
  }

  /** The message is acked after its handler resolved, or acked with a copy in the DLQ. */
  ghost predicate Rests(s: State, id: MsgId) {
    id in s.handled || (id in s.parked && InDlq(s.dlq, id))
  }

  ghost predicate StrandedAt(s: State, id: MsgId) {
    id in s.unacked && s.unacked[id].phase.Stranded?
  }

  /** In every reachable state a message rests, or some step of it other than a loss is enabled, unless
      it is stranded; and only the body null is ever stranded. */
  lemma NeverStuck(queue: string, steps: seq<Step>, id: MsgId)
    requires Admissible(New(queue), steps) && id in Exec(New(queue), steps).accepted
    ensures var s := Exec(New(queue), steps);
      && (Rests(s, id) || (exists step :: Can(s, step) && step.id == id && !step.Lose?) <==> !StrandedAt(s, id))
      && (StrandedAt(s, id) ==> s.accepted[id].Null?)
  {
    RunKeepsInv(New(queue), steps);
    StuckIsStranded(Exec(New(queue), steps), id);
  }

  lemma StuckIsStranded(s: State, id: MsgId)
    requires Inv(s) && id in s.accepted
    ensures Rests(s, id) || (exists step :: Can(s, step) && step.id == id && !step.Lose?) <==> !StrandedAt(s, id)
    ensures StrandedAt(s, id) ==> s.accepted[id].Null?
  {
    PlaceOf(s, id);
    if !Rests(s, id) && !StrandedAt(s, id) {
      Enabled(s, id);
    }
  }

  lemma Enabled(s: State, id: MsgId)
    requires Inv(s) && id in s.accepted && !Rests(s, id) && !StrandedAt(s, id)
    ensures exists step :: Can(s, step) && step.id == id && !step.Lose? && !step.Accept?
  {
    PlaceOf(s, id);
    if id in s.ready {
      assert Can(s, Deliver(id));
    } else if id in s.retry {
      assert Can(s, Expire(id));
    } else {
      match s.unacked[id].phase {
        case Delivered => assert Can(s, Begin(id));
        case Running => assert Can(s, Settle(id, true));
        case Settled(ok) => if ok { assert Can(s, Ack(id)); } else { assert Can(s, Nack(id)); }
        case DlqSent => assert Can(s, Ack(id));
      }
    }
  }

  // ----- the body null -----

  ghost predicate NoLoss(steps: seq<Step>) {
    forall step :: step in steps ==> !step.Lose?
  }

  /** Without another lost delivery the message can come to rest. */
  ghost predicate CanRest(s: State, id: MsgId) {
    exists steps :: Admissible(s, steps) && NoLoss(steps) && Rests(Exec(s, steps), id)
  }

  lemma RestAfter(s: State, step: Step, id: MsgId)
    requires Can(s, step) && !step.Lose? && CanRest(Do(s, step), id)
    ensures CanRest(s, id)
  {
    var rest :| Admissible(Do(s, step), rest) && NoLoss(rest) && Rests(Exec(Do(s, step), rest), id);
    var steps := [step] + rest;
    assert steps[0] == step && steps[1..] == rest;
    assert Admissible(s, steps) && NoLoss(steps) && Rests(Exec(s, steps), id);
  }

  lemma RankIsNatural(s: State, id: MsgId)
    requires Inv(s) && id in s.accepted
    ensures id in s.tally && Rank(s, id) >= 0
  {
    PlaceOf(s, id);
  }

  lemma {:induction false} ReadableRests(s: State, id: MsgId)
    requires Inv(s) && id in s.accepted && !s.accepted[id].Null?
    ensures CanRest(s, id)
    decreases if id in s.tally then Rank(s, id) else 0
  {
    if Rests(s, id) {
      assert Admissible(s, []) && Exec(s, []) == s && NoLoss([]);
    } else {
      PlaceOf(s, id);
      Enabled(s, id);
      var step :| Can(s, step) && step.id == id && !step.Lose? && !step.Accept?;
      StepKeepsInv(s, step);
      OwnBounds(s, step);
      RankIsNatural(s, id);
      RankIsNatural(Do(s, step), id);
      ReadableRests(Do(s, step), id);
      RestAfter(s, step, id);
    }
  }

  /** A null body is ready, or delivered, or stranded. */
  ghost predicate NullOk(s: State, id: MsgId) {
    id in s.accepted && s.accepted[id].Null? ==>
      && id in s.tally && s.tally[id].rejected == 0
      && (id in s.ready || (id in s.unacked && (s.unacked[id].phase.Delivered? || s.unacked[id].phase.Stranded?)))
  }

  lemma StepKeepsNull(s: State, step: Step, id: MsgId)
    requires Inv(s) && Can(s, step) && NullOk(s, id)
    ensures NullOk(Do(s, step), id)
  {
    PlaceOf(s, id);
    if step.id != id {
      OthersStay(s, step, id);
    }
  }

  lemma {:induction false} RunKeepsNull(s: State, steps: seq<Step>, id: MsgId)
    requires Inv(s) && Admissible(s, steps) && NullOk(s, id)
    ensures Inv(Exec(s, steps)) && NullOk(Exec(s, steps), id)
    decreases |steps|
  {
    if steps != [] {
      StepKeepsInv(s, steps[0]);
      StepKeepsNull(s, steps[0], id);
      RunKeepsNull(Do(s, steps[0]), steps[1..], id);
    }
  }

  lemma NullNeverRests(s: State, id: MsgId)
    requires Inv(s) && id in s.accepted && s.accepted[id].Null? && NullOk(s, id)
    ensures !Rests(s, id)
  {
    PlaceOf(s, id);
  }

  lemma {:induction false} AcceptedForGood(s: State, steps: seq<Step>, id: MsgId)
    requires Admissible(s, steps) && id in s.accepted
    ensures id in Exec(s, steps).accepted && Exec(s, steps).accepted[id] == s.accepted[id]
    decreases |steps|
  {
    if steps != [] {
      AcceptedForGood(Do(s, steps[0]), steps[1..], id);
    }
  }

  ghost predicate NeverRests(s: State, id: MsgId) {
    forall steps :: Admissible(s, steps) ==> !Rests(Exec(s, steps), id)
  }

  /** From every reachable state a message can come to rest without another lost delivery if and only if
      its body is not null; a null body never rests, whatever is lost. */
  lemma RestsUnlessNull(queue: string, steps: seq<Step>, id: MsgId)
    requires Admissible(New(queue), steps) && id in Exec(New(queue), steps).accepted
    ensures CanRest(Exec(New(queue), steps), id) <==> !Exec(New(queue), steps).accepted[id].Null?
    ensures Exec(New(queue), steps).accepted[id].Null? ==> NeverRests(Exec(New(queue), steps), id)
  {
    RunKeepsNull(New(queue), steps, id);
    var s := Exec(New(queue), steps);
    if s.accepted[id].Null? {
      forall more | Admissible(s, more) ensures !Rests(Exec(s, more), id) {
        RunKeepsNull(s, more, id);
        AcceptedForGood(s, more, id);
        NullNeverRests(Exec(s, more), id);
      }
    } else {
      ReadableRests(s, id);
    }
  }

  lemma ExecCons(s: State, step: Step, rest: seq<Step>)
    requires Can(s, step) && Admissible(Do(s, step), rest)
    ensures Admissible(s, [step] + rest) && Exec(s, [step] + rest) == Exec(Do(s, step), rest)
  {
    assert ([step] + rest)[1..] == rest;
  }

  ghost predicate OnlyLossMoves(s: State, id: MsgId) {
    forall step :: Can(s, step) && step.id == id ==> step == Lose(id)
  }

  /** It does happen, on the first delivery. Only a lost connection then moves the message, and it comes
      back uncounted. */
  lemma NullIsStranded(queue: string, id: MsgId)
    ensures var steps := [Accept(id, Null, []), Deliver(id), Begin(id)];
      && Admissible(New(queue), steps) && StrandedAt(Exec(New(queue), steps), id)
      && OnlyLossMoves(Exec(New(queue), steps), id)
      && Can(Exec(New(queue), steps), Lose(id))
      && ReadyUncounted(Do(Exec(New(queue), steps), Lose(id)), id)
  {
    var s1 := Do(New(queue), Accept(id, Null, []));
    var s2 := Do(s1, Deliver(id));
    var s3 := Do(s2, Begin(id));
    ExecCons(s2, Begin(id), []);
    ExecCons(s1, Deliver(id), [Begin(id)]);
    ExecCons(New(queue), Accept(id, Null, []), [Deliver(id), Begin(id)]);
    assert [Begin(id)] + [] == [Begin(id)] && [Deliver(id)] + [Begin(id)] == [Deliver(id), Begin(id)];
    assert [Accept(id, Null, [])] + [Deliver(id), Begin(id)] == [Accept(id, Null, []), Deliver(id), Begin(id)];
    assert Exec(New(queue), [Accept(id, Null, []), Deliver(id), Begin(id)]) == s3;
  }

  predicate ReadyUncounted(s: State, id: MsgId) {
    id in s.ready && id in s.tally && s.tally[id].rejected == 0
  }

  // ----- the moves are the declared ones -----

  /** The broker queue that holds a message. */
  function QueueOf(s: State, id: MsgId): Option<string> {
    if id in s.ready || id in s.unacked then Some(s.queue)
    else if id in s.retry then Some(RetryQueueName(s.queue))
    else None
  }

  /** Rejection and expiry move a message exactly where the declared queue arguments dead-letter it. */
  lemma MovesFollowTopology(s: State, step: Step, d: Declared)
    requires Inv(s) && Can(s, step) && Stands(d, s.queue) && (step.Nack? || step.Expire?)
    ensures QueueOf(s, step.id).Some?
    ensures QueueOf(Do(s, step), step.id) == DeadLettersTo(d, QueueOf(s, step.id).value)
  {
    assert PlaceCount(s, step.id) == 1;
    RetryIsACycle(d, s.queue);
  }
}
