/** handleMessage in its own form: the consumer's callback for one delivery, issuing its commands on
    the channel the delivery came from, proved to be a run of the retry machine. */
module RabbitHandler {
  import opened QueueTopology
  import opened RetryCycle

  /** The machine's steps for one delivery whose handler resolves or throws. */
  function HandleSteps(msg: Msg, queue: string, id: MsgId, resolves: bool): seq<Step> {
    match PhaseAfterBegin(msg, queue)
    case DlqSent => [Begin(id), Ack(id)]
    case Running => [Begin(id), Settle(id, resolves), if resolves then Ack(id) else Nack(id)]
    case Stranded => [Begin(id)]
    case _ => [Begin(id), Nack(id)]
  }

  /** Where one undisturbed delivery leaves the broker. */
  function AfterHandling(s: State, id: MsgId, resolves: bool): State
    requires id in s.unacked && id in s.tally
  {
    var msg, t := s.unacked[id].msg, s.tally[id];
    if DeliveryFailures(msg, s.queue) >= MAX_DELIVERIES then
      s.(unacked := s.unacked - {id}, dlq := s.dlq + [DlqCopy(id, msg)], parked := s.parked + {id},
         tally := s.tally[id := t.(steps := t.steps + 2)])
    else if msg.body.Malformed? then
      s.(unacked := s.unacked - {id}, retry := s.retry[id := Die(msg, s.queue, REJECTED)],
         tally := s.tally[id := t.(rejected := t.rejected + 1, steps := t.steps + 2)])
    else if msg.body.Null? then
      s.(unacked := s.unacked[id := Held(msg, Stranded)],
         tally := s.tally[id := t.(started := t.started + 1, steps := t.steps + 1)])
    else if resolves then
      s.(unacked := s.unacked - {id}, handled := s.handled + {id},
         tally := s.tally[id := t.(started := t.started + 1, steps := t.steps + 3)])
    else
      s.(unacked := s.unacked - {id}, retry := s.retry[id := Die(msg, s.queue, REJECTED)],
         tally := s.tally[id := t.(rejected := t.rejected + 1, started := t.started + 1, steps := t.steps + 3)])
  }

  lemma HandlingOneStep(s: State, id: MsgId)
    requires Can(s, Begin(id))
    ensures Admissible(s, [Begin(id)]) && Exec(s, [Begin(id)]) == Do(s, Begin(id))
  {
    ExecCons(s, Begin(id), []);
    assert [Begin(id)] + [] == [Begin(id)];
  }

  lemma HandlingTwoSteps(s: State, id: MsgId, last: Step)
    requires Can(s, Begin(id)) && Can(Do(s, Begin(id)), last)
    ensures Admissible(s, [Begin(id), last]) && Exec(s, [Begin(id), last]) == Do(Do(s, Begin(id)), last)
  {
    ExecCons(Do(s, Begin(id)), last, []);
    ExecCons(s, Begin(id), [last]);
    assert [last] + [] == [last] && [Begin(id)] + [last] == [Begin(id), last];
  }

  lemma HandlingThreeSteps(s: State, id: MsgId, mid: Step, last: Step)
    requires Can(s, Begin(id)) && Can(Do(s, Begin(id)), mid) && Can(Do(Do(s, Begin(id)), mid), last)
    ensures Admissible(s, [Begin(id), mid, last])
    ensures Exec(s, [Begin(id), mid, last]) == Do(Do(Do(s, Begin(id)), mid), last)
  {
    var s1 := Do(s, Begin(id));
    ExecCons(Do(s1, mid), last, []);
    ExecCons(s1, mid, [last]);
    ExecCons(s, Begin(id), [mid, last]);
    assert [last] + [] == [last] && [mid] + [last] == [mid, last]
        && [Begin(id)] + [mid, last] == [Begin(id), mid, last];
  }

  lemma Overwrite<V>(m: map<MsgId, V>, id: MsgId, v: V, w: V)
    ensures m[id := v] - {id} == m - {id} && m[id := v][id := w] == m[id := w]
  {
  }

  lemma PoisonState(s: State, id: MsgId, resolves: bool)
    requires Can(s, Begin(id)) && id in s.tally && PhaseAfterBegin(s.unacked[id].msg, s.queue).DlqSent?
    ensures Can(Do(s, Begin(id)), Ack(id)) && Do(Do(s, Begin(id)), Ack(id)) == AfterHandling(s, id, resolves)
  {
    var t, held := s.tally[id], s.unacked[id];
    Overwrite(s.unacked, id, Held(held.msg, DlqSent), held);
    Overwrite(s.tally, id, t.(steps := t.steps + 1), t.(steps := t.steps + 2));
  }

  lemma MalformedState(s: State, id: MsgId, resolves: bool)
    requires Can(s, Begin(id)) && id in s.tally && PhaseAfterBegin(s.unacked[id].msg, s.queue).Settled?
    ensures Can(Do(s, Begin(id)), Nack(id)) && Do(Do(s, Begin(id)), Nack(id)) == AfterHandling(s, id, resolves)
  {
    var t, held := s.tally[id], s.unacked[id];
    Overwrite(s.unacked, id, Held(held.msg, Settled(false)), held);
    Overwrite(s.tally, id, t.(steps := t.steps + 1), t.(rejected := t.rejected + 1, steps := t.steps + 2));
  }

  /** After Begin and Settle only the delivery's phase and its tally differ. */
  lemma SettledState(s: State, id: MsgId, resolves: bool)
    requires Can(s, Begin(id)) && id in s.tally && PhaseAfterBegin(s.unacked[id].msg, s.queue).Running?
    ensures Can(Do(s, Begin(id)), Settle(id, resolves))
    ensures var t := s.tally[id];
      Do(Do(s, Begin(id)), Settle(id, resolves)) ==
      s.(unacked := s.unacked[id := Held(s.unacked[id].msg, Settled(resolves))],
         tally := s.tally[id := t.(started := t.started + 1, steps := t.steps + 2)])
  {
    var t, held := s.tally[id], s.unacked[id];
    Overwrite(s.unacked, id, Held(held.msg, Running), Held(held.msg, Settled(resolves)));
    Overwrite(s.tally, id, t.(started := t.started + 1, steps := t.steps + 1),
              t.(started := t.started + 1, steps := t.steps + 2));
  }

  lemma HandledState(s: State, id: MsgId, resolves: bool, s2: State)
    requires Can(s, Begin(id)) && id in s.tally && PhaseAfterBegin(s.unacked[id].msg, s.queue).Running?
    requires var t := s.tally[id];
      s2 == s.(unacked := s.unacked[id := Held(s.unacked[id].msg, Settled(resolves))],
               tally := s.tally[id := t.(started := t.started + 1, steps := t.steps + 2)])
    ensures var last := if resolves then Ack(id) else Nack(id);
      Can(s2, last) && Do(s2, last) == AfterHandling(s, id, resolves)
  {
    var t, held := s.tally[id], s.unacked[id];
    var t2 := t.(started := t.started + 1, steps := t.steps + 2);
    Overwrite(s.unacked, id, Held(held.msg, Settled(resolves)), held);
    var t3 := t2.(rejected := if resolves then t.rejected else t.rejected + 1, steps := t.steps + 3);
    Overwrite(s.tally, id, t2, t3);
  }

  lemma StrandedRun(s: State, id: MsgId, resolves: bool)
    requires Can(s, Begin(id)) && id in s.tally && PhaseAfterBegin(s.unacked[id].msg, s.queue).Stranded?
    ensures Admissible(s, [Begin(id)]) && Exec(s, [Begin(id)]) == AfterHandling(s, id, resolves)
  {
    StrandedState(s, id, resolves);
    HandlingOneStep(s, id);
  }

  lemma StrandedState(s: State, id: MsgId, resolves: bool)
    requires Can(s, Begin(id)) && id in s.tally && PhaseAfterBegin(s.unacked[id].msg, s.queue).Stranded?
    ensures Do(s, Begin(id)) == AfterHandling(s, id, resolves)
  {
  }

  lemma HandledRun(s: State, id: MsgId, resolves: bool)
    requires Can(s, Begin(id)) && id in s.tally && PhaseAfterBegin(s.unacked[id].msg, s.queue).Running?
    ensures var steps := [Begin(id), Settle(id, resolves), if resolves then Ack(id) else Nack(id)];
      Admissible(s, steps) && Exec(s, steps) == AfterHandling(s, id, resolves)
  {
    SettledState(s, id, resolves);
    HandledState(s, id, resolves, Do(Do(s, Begin(id)), Settle(id, resolves)));
    HandlingThreeSteps(s, id, Settle(id, resolves), if resolves then Ack(id) else Nack(id));
  }

  lemma ShortRun(s: State, id: MsgId, resolves: bool, last: Step)
    requires Can(s, Begin(id)) && id in s.tally
    requires var phase := PhaseAfterBegin(s.unacked[id].msg, s.queue);
      (phase.DlqSent? && last == Ack(id)) || (phase.Settled? && last == Nack(id))
    ensures Admissible(s, [Begin(id), last]) && Exec(s, [Begin(id), last]) == AfterHandling(s, id, resolves)
  {
    if last.Ack? {
      PoisonState(s, id, resolves);
    } else {
      MalformedState(s, id, resolves);
    }
    HandlingTwoSteps(s, id, last);
  }

  /** The closed form is what the machine reaches. */
  lemma HandlingIsARun(s: State, id: MsgId, resolves: bool)
    requires Can(s, Begin(id)) && id in s.tally
    ensures var steps := HandleSteps(s.unacked[id].msg, s.queue, id, resolves);
      Admissible(s, steps) && Exec(s, steps) == AfterHandling(s, id, resolves)
  {
    match PhaseAfterBegin(s.unacked[id].msg, s.queue) {
      case DlqSent => ShortRun(s, id, resolves, Ack(id));
      case Settled(_) => ShortRun(s, id, resolves, Nack(id));
      case Running => HandledRun(s, id, resolves);
      case Stranded => StrandedRun(s, id, resolves);
    }
  }

  /** The broker's side of one queue as a channel sees it. */
  class Channel {
    const queue: string
    var ready: map<MsgId, Msg>
    var unacked: map<MsgId, Held>
    var retry: map<MsgId, Msg>
    var dlq: seq<DlqCopy>
    ghost var accepted: map<MsgId, Body>
    ghost var handled: set<MsgId>
    ghost var parked: set<MsgId>
    ghost var tally: map<MsgId, Tally>

    ghost function Abs(): State
      reads this
    {
      State(queue, accepted, ready, unacked, retry, handled, parked, dlq, tally)
    }

    constructor (queue: string)
      ensures Abs() == New(queue)
    {
      this.queue := queue;
      ready, unacked, retry, dlq := map[], map[], map[], [];
      accepted, handled, parked, tally := map[], {}, {}, map[];
    }

    method SendToDlq(id: MsgId, msg: Msg)
      modifies this`dlq
      ensures dlq == old(dlq) + [DlqCopy(id, msg)]
    {
      dlq := dlq + [DlqCopy(id, msg)];
    }

    method AckDelivery(id: MsgId, ghost inDlq: bool)
      modifies this`unacked, this`handled, this`parked
      ensures unacked == old(unacked) - {id}
      ensures handled == if inDlq then old(handled) else old(handled) + {id}
      ensures parked == if inDlq then old(parked) + {id} else old(parked)
    {
      unacked := unacked - {id};
      if inDlq {
        parked := parked + {id};
      } else {
        handled := handled + {id};
      }
    }

    /** nack(msg, false, false): the broker dead-letters the delivery to the retry queue. */
    method NackDelivery(id: MsgId)
      requires id in unacked
      modifies this`unacked, this`retry
      ensures unacked == old(unacked) - {id}
      ensures retry == old(retry)[id := Die(old(unacked)[id].msg, queue, REJECTED)]
    {
      retry := retry[id := Die(unacked[id].msg, queue, REJECTED)];
      unacked := unacked - {id};
    }

    /** The consumer callback. `resolves` says how the handler ends, if it is called at all. The callback
        acks or nacks unless the body is null: reading null makes the handler throw, and then the error
        log throws as well, before the nack. */
    method HandleMessage(id: MsgId, resolves: bool) returns (called: bool, settled: bool)
      requires Can(Abs(), Begin(id)) && id in tally
      modifies this
      ensures Abs() == AfterHandling(old(Abs()), id, resolves)
      ensures var msg := old(unacked)[id].msg;
        && (called <==> DeliveryFailures(msg, queue) < MAX_DELIVERIES && !msg.body.Malformed?)
        && (settled <==> DeliveryFailures(msg, queue) >= MAX_DELIVERIES || !msg.body.Null?)
      ensures settled <==> id !in unacked
      ensures var msg := old(unacked)[id].msg;
        && ready == old(ready)
        && dlq == old(dlq) + (if DeliveryFailures(msg, queue) >= MAX_DELIVERIES then [DlqCopy(id, msg)] else [])
        && (settled && DeliveryFailures(msg, queue) < MAX_DELIVERIES ==>
              if called && resolves then retry == old(retry) && handled == old(handled) + {id}
              else retry == old(retry)[id := Die(msg, queue, "rejected")] && handled == old(handled))
      ensures var steps := HandleSteps(old(unacked)[id].msg, queue, id, resolves);
        Admissible(old(Abs()), steps) && Abs() == Exec(old(Abs()), steps)
    {
      HandlingIsARun(Abs(), id, resolves);
      var msg := unacked[id].msg;
      var failures := DeliveryFailures(msg, queue);
      if failures >= MAX_DELIVERIES {
        Park(id, msg);
        return false, true;
      }
      if msg.body.Malformed? {
        Reject(id);
        return false, true;
      }
      if msg.body.Null? {
        Strand(id);
        return true, false;
      }
      ReplyTo(id, resolves);
      return true, true;
    }

    /** A message with no delivery left is sent to the DLQ and acked. */
    method Park(id: MsgId, msg: Msg)
      requires id in tally
      modifies this
      ensures Abs() == old(Abs()).(unacked := old(unacked) - {id}, dlq := old(dlq) + [DlqCopy(id, msg)],
                                   parked := old(parked) + {id},
                                   tally := old(tally)[id := old(tally)[id].(steps := old(tally)[id].steps + 2)])
    {
      SendToDlq(id, msg);
      AckDelivery(id, true);
      tally := tally[id := tally[id].(steps := tally[id].steps + 2)];
    }

    /** A body that does not parse is nacked. */
    method Reject(id: MsgId)
      requires id in unacked && id in tally
      modifies this
      ensures var msg, t := old(unacked)[id].msg, old(tally)[id];
        Abs() == old(Abs()).(unacked := old(unacked) - {id}, retry := old(retry)[id := Die(msg, queue, REJECTED)],
                             tally := old(tally)[id := t.(rejected := t.rejected + 1, steps := t.steps + 2)])
    {
      ghost var t := tally[id];
      NackDelivery(id);
      tally := tally[id := t.(rejected := t.rejected + 1, steps := t.steps + 2)];
    }

    /** The callback throws out of its own catch block: the delivery stays unacked. */
    method Strand(id: MsgId)
      requires id in unacked && id in tally
      modifies this
      ensures var msg, t := old(unacked)[id].msg, old(tally)[id];
        Abs() == old(Abs()).(unacked := old(unacked)[id := Held(msg, Stranded)],
                             tally := old(tally)[id := t.(started := t.started + 1, steps := t.steps + 1)])
    {
      ghost var t := tally[id];
      unacked := unacked[id := Held(unacked[id].msg, Stranded)];
      tally := tally[id := t.(started := t.started + 1, steps := t.steps + 1)];
    }

    /** What follows the handler: an ack if it resolved, a nack if it threw. */
    method ReplyTo(id: MsgId, resolves: bool)
      requires id in unacked && id in tally
      modifies this
      ensures var held, t := old(unacked)[id], old(tally)[id];
        Abs() == if resolves then
                   old(Abs()).(unacked := old(unacked) - {id}, handled := old(handled) + {id},
                               tally := old(tally)[id := t.(started := t.started + 1, steps := t.steps + 3)])
                 else
                   var t3 := t.(rejected := t.rejected + 1, started := t.started + 1, steps := t.steps + 3);
                   old(Abs()).(unacked := old(unacked) - {id}, tally := old(tally)[id := t3],
                               retry := old(retry)[id := Die(held.msg, queue, REJECTED)])
    {
      ghost var t := tally[id];
      if resolves {
        AckDelivery(id, false);
        tally := tally[id := t.(started := t.started + 1, steps := t.steps + 3)];
      } else {
        NackDelivery(id);
        tally := tally[id := t.(rejected := t.rejected + 1, started := t.started + 1, steps := t.steps + 3)];
      }
    }
  }
}
