/** The RabbitMQ publisher: the same connection handling with nothing to replay, and a publish() that
    fails fast instead of buffering. */
module RabbitPublisher {
  import opened Prelude
  import opened Reconnect
  import ReconnectRuns
  import opened RabbitConnection

  datatype Sent = Sent(channel: ChanId, destination: string, message: string)

  /** The publisher never calls consume(). */
  ghost predicate PublisherRun(steps: seq<Step>) {
    forall step :: step in steps ==> !step.Consume? && !step.Consuming? && !step.ConsumeFailed?
  }

  ghost predicate NothingToReplay(s: State) {
    s.subs == 0 && s.calls == map[] && forall k :: k in s.tasks ==> !s.tasks[k].Replaying?
  }

  lemma {:induction false} NeverReplays(s: State, steps: seq<Step>)
    requires Inv(s) && NothingToReplay(s) && Admissible(s, steps) && PublisherRun(steps)
    ensures NothingToReplay(Exec(s, steps)) && Inv(Exec(s, steps))
    decreases |steps|
  {
    if steps != [] {
      StepKeepsInv(s, steps[0]);
      assert steps[0] in steps;
      StillNothing(s, steps[0]);
      NeverReplays(Do(s, steps[0]), steps[1..]);
    }
  }

  lemma StillNothing(s: State, step: Step)
    requires NothingToReplay(s) && Can(s, step)
    requires !step.Consume? && !step.Consuming? && !step.ConsumeFailed?
    ensures NothingToReplay(Do(s, step))
  {
    if step.Dialed? || step.ChannelOpened? || step.Replayed? {
      StillNoTask(s, step);
    } else if step.ConnClosed? || step.ChanClosed? {
      StillNoneClosed(s, step);
    } else {
      StillNoOther(s, step);
    }
  }

  lemma StillNoneClosed(s: State, step: Step)
    requires NothingToReplay(s) && Can(s, step) && (step.ConnClosed? || step.ChanClosed?)
    ensures NothingToReplay(Do(s, step))
  {
    if step.ConnClosed? {
      ClosedOnce(s, step.conn, step.t);
    }
  }

  lemma StillNoOther(s: State, step: Step)
    requires NothingToReplay(s) && Can(s, step)
    requires step.Fire? || step.TornDown? || step.Rejected? || step.Cancelled? || step.Destroy?
    ensures NothingToReplay(Do(s, step))
  {
  }

  lemma StillNoTask(s: State, step: Step)
    requires NothingToReplay(s) && Can(s, step) && (step.Dialed? || step.ChannelOpened? || step.Replayed?)
    ensures NothingToReplay(Do(s, step))
  {
  }

  /** publish() finds no channel only while the outage is being repaired or the service is shutting
      down: a connect is in flight or a reconnect is scheduled. When neither is, the channel is set and
      open. */
  lemma FailsFastOnlyInOutage(c: ConnId, ch: ChanId, steps: seq<Step>)
    requires Admissible(Connected(c, ch), steps) && PublisherRun(steps)
    ensures var s := Exec(Connected(c, ch), steps);
      && (s.channel.None? ==> s.closing || |s.tasks| == 1 || |s.armed| == 1)
      && (!s.closing && s.tasks == map[] && s.armed == {} ==> Live(s))
      && NothingToReplay(s)
  {
    NeverReplays(Connected(c, ch), steps);
    ReconnectRuns.NoSilentZombie(c, ch, steps);
  }

  /** The connection as publish() meets it: in order, with nothing to replay, and open if set. */
  ghost predicate LinkOk(s: State) {
    Inv(s) && ReconnectRuns.HeldIsOpen(s) && NothingToReplay(s)
  }

  lemma LinkStays(s: State, steps: seq<Step>)
    requires LinkOk(s) && Admissible(s, steps) && PublisherRun(steps)
    ensures LinkOk(Exec(s, steps))
  {
    NeverReplays(s, steps);
    ReconnectRuns.RunKeepsOpen(s, steps);
  }

  /** A connect is in flight, or a reconnect is scheduled once. */
  ghost predicate Repairing(s: State) {
    |s.tasks| == 1 || |s.armed| == 1
  }

  lemma OutageIsRepaired(s: State)
    requires Inv(s) && s.channel.None? && !s.closing
    ensures Repairing(s)
  {
    ReconnectRuns.TaskCount(s);
  }

  /** What the outside decides while the topology is being declared: how the declaration ends, and the
      connection's fields when it has. */
  datatype Meanwhile = Meanwhile(declared: bool, connection: Option<ConnId>, channel: Option<ChanId>, closing: bool,
                                 timer: Option<TimerId>)

  ghost predicate Reaches(s: State, steps: seq<Step>, m: Meanwhile) {
    && Admissible(s, steps) && PublisherRun(steps)
    && var s' := Exec(s, steps);
       s'.connection == m.connection && s'.channel == m.channel && s'.closing == m.closing && s'.timer == m.timer
  }

  class RabbitMqPublisher {
    const link: RabbitMqConnection
    var sent: seq<Sent>

    constructor (link: RabbitMqConnection)
      ensures this.link == link && sent == []
    {
      this.link, sent := link, [];
    }

    /** publish() up to the await in assertQueueTopology. False is the thrown error: before shutdown it
        means that the outage is being repaired. True means that the channel is open now. */
    method BeginPublish() returns (ok: bool)
      requires LinkOk(link.Abs())
      ensures !link.closing ==> (ok <==> link.channel.Some? && link.channel.value in link.openChans)
      ensures !ok && !link.closing ==> Repairing(link.Abs())
      ensures link.closing ==> (ok <==> link.channel.Some?)
    {
      ok := link.channel.Some?;
      if !ok && !link.closing {
        OutageIsRepaired(link.Abs());
      }
    }

    /** After the declaration, which may have failed. The channel is read again, and may be gone or
        replaced by now; one that died after destroy throws (`open` is what the library knows). */
    method FinishPublish(destination: string, message: string, declared: bool, open: bool) returns (ok: bool)
      requires LinkOk(link.Abs()) && (open <==> Live(link.Abs()))
      modifies this
      ensures ok ==> declared && link.channel.Some? && link.channel.value in link.openChans
      ensures ok ==> sent == old(sent) + [Sent(link.channel.value, destination, message)]
      ensures !ok ==> sent == old(sent)
      ensures !ok && declared && !link.closing ==> link.channel.None? && Repairing(link.Abs())
    {
      if !declared || link.channel.None? || !open {
        if declared && !link.closing {
          OutageIsRepaired(link.Abs());
        }
        return false;
      }
      sent := sent + [Sent(link.channel.value, destination, message)];
      return true;
    }

    /** publish(), with anything the connection may go through during its await. If it resolves, exactly
        one message went to a channel that is open at that moment. If it rejects, nothing was sent or
        buffered, and before shutdown either the declaration failed or the outage is being repaired. */
    method Publish(destination: string, message: string, m: Meanwhile, open: bool, ghost steps: seq<Step>)
        returns (ok: bool)
      requires LinkOk(link.Abs()) && link.subscriptions == [] && Reaches(link.Abs(), steps, m)
      requires open <==> Live(Exec(link.Abs(), steps))
      modifies this, link
      ensures LinkOk(link.Abs())
      ensures link.Abs() == if old(link.channel).Some? then Exec(old(link.Abs()), steps) else old(link.Abs())
      ensures ok ==> link.channel.Some? && link.channel.value in link.openChans
      ensures ok ==> sent == old(sent) + [Sent(link.channel.value, destination, message)]
      ensures !ok ==> sent == old(sent)
      ensures !ok && !link.closing && m.declared ==> link.channel.None? && Repairing(link.Abs())
    {
      var begun := BeginPublish();
      if !begun {
        return false;
      }
      LinkStays(link.Abs(), steps);
      link.Elapse(steps, m.connection, m.channel, m.closing, m.timer, []);
      ok := FinishPublish(destination, message, m.declared, open);
    }
  }
}
