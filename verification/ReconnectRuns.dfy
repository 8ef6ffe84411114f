/** What the connection manager guarantees over every run after the first connect. */
module ReconnectRuns {
  import opened Prelude
  import opened Reconnect

  lemma {:induction false} RunKeepsInv(s: State, steps: seq<Step>)
    requires Inv(s) && Admissible(s, steps)
    ensures Inv(Exec(s, steps))
    decreases |steps|
  {
    if steps != [] {
      StepKeepsInv(s, steps[0]);
      RunKeepsInv(Do(s, steps[0]), steps[1..]);
    }
  }

  lemma TaskCount(s: State)
    requires OneTask(s)
    ensures |s.tasks| <= 1 && (s.tasks != map[] ==> |s.tasks| == 1)
  {
    if s.tasks != map[] {
      var k :| k in s.tasks;
      assert s.tasks == map[k := s.tasks[k]];
    }
  }

  /** A close event of a connection the object no longer refers to arms nothing and drops nothing of
      what the object holds. */
  lemma StaleCloseIsIdle(s: State, c: ConnId, t: TimerId)
    requires Inv(s) && Can(s, ConnClosed(c, t))
    requires s.connection != Some(c) && (s.channel.Some? ==> s.owner[s.channel.value] != c)
    ensures var s' := Do(s, ConnClosed(c, t));
      && s'.armed == s.armed && s'.timer == s.timer && s'.channel == s.channel && s'.connection == s.connection
      && (Live(s) ==> Live(s'))
  {
    ClosedOnce(s, c, t);
  }

  /** Losing the connection in use always leads to a reconnect: the channel is dropped at once and a
      timer is armed. */
  lemma LiveCloseSchedules(s: State, c: ConnId, t: TimerId)
    requires Inv(s) && !s.closing && Can(s, ConnClosed(c, t)) && s.connection == Some(c)
    ensures var s' := Do(s, ConnClosed(c, t));
      s'.channel.None? && s'.timer.Some? && s'.armed == {s'.timer.value}
  {
    ClosedOnce(s, c, t);
    StepKeepsInv(s, ConnClosed(c, t));
  }

  // ----- the channel in use is open -----

  /** Until destroy, a channel the object holds is open: it is unset in the event that closes it. */
  ghost predicate HeldIsOpen(s: State) {
    !s.closing && s.channel.Some? ==> s.channel.value in s.openChans
  }

  lemma StepKeepsOpen(s: State, step: Step)
    requires Inv(s) && HeldIsOpen(s) && Can(s, step)
    ensures HeldIsOpen(Do(s, step))
  {
    if step.ConnClosed? {
      ClosedOnce(s, step.conn, step.t);
    } else if step.TornDown? {
      OnlyTask(s, step.task);
    }
  }

  lemma {:induction false} RunKeepsOpen(s: State, steps: seq<Step>)
    requires Inv(s) && HeldIsOpen(s) && Admissible(s, steps)
    ensures Inv(Exec(s, steps)) && HeldIsOpen(Exec(s, steps))
    decreases |steps|
  {
    if steps != [] {
      StepKeepsInv(s, steps[0]);
      StepKeepsOpen(s, steps[0]);
      RunKeepsOpen(Do(s, steps[0]), steps[1..]);
    }
  }

  // ----- counting consumers -----

  ghost predicate CallsOk(s: State) {
    && (forall call :: call in s.calls ==> s.calls[call].sub < s.subs && s.calls[call].chan in s.owner)
    && (forall a, b :: a in s.calls && b in s.calls && s.calls[a].sub == s.calls[b].sub ==> a == b)
    && (forall p :: p in s.overlapped ==> p.0 in s.owner && p.1 < s.subs)
    && ReplaysOk(s)
  }

  /** A consume() of subscription n is in flight on this channel. */
  ghost function Pending(s: State, ch: ChanId, n: nat): nat {
    if exists call :: call in s.calls && s.calls[call] == Call(ch, n) then 1 else 0
  }

  /** The replay loop on this channel has subscription n still ahead. */
  ghost function Ahead(s: State, ch: ChanId, n: nat): nat {
    if exists k :: k in s.tasks && s.tasks[k].Replaying? && s.tasks[k].chan == ch
        && s.tasks[k].next <= n < s.subs then 1 else 0
  }

  /** The consumers a subscription ends up with. */
  ghost function Share(s: State, ch: ChanId, n: nat): nat {
    if n >= s.subs then 0 else if (ch, n) in s.overlapped then 2 else 1
  }

  ghost predicate InUse(s: State) {
    !s.closing && Live(s) && s.channel.value in s.consumers && s.channel.value in s.cancelled
  }

  /** Every consumer due on the channel is there, or was cancelled, or is still to come. */
  ghost predicate Due(s: State, ch: ChanId, n: nat)
    requires ch in s.consumers && ch in s.cancelled
  {
    s.consumers[ch][n] + s.cancelled[ch][n] + Pending(s, ch, n) + Ahead(s, ch, n) == Share(s, ch, n)
  }

  ghost predicate Counted(s: State) {
    InUse(s) ==> forall n: nat :: Due(s, s.channel.value, n)
  }

  ghost predicate Full(s: State) {
    Inv(s) && CallsOk(s) && Counted(s)
  }

  lemma CallsStep(s: State, step: Step)
    requires Inv(s) && CallsOk(s) && Can(s, step)
    ensures CallsOk(Do(s, step))
  {
    if step.Consume? || step.Consuming? || step.ConsumeFailed? {
      ConsumeKeepsCalls(s, step);
    } else if step.ConnClosed? || step.ChanClosed? {
      ClosingKeepsCalls(s, step);
    } else {
      TasksKeepCalls(s, step);
    }
  }

  lemma ClosingKeepsCalls(s: State, step: Step)
    requires CallsOk(s) && Can(s, step) && (step.ConnClosed? || step.ChanClosed?)
    ensures CallsOk(Do(s, step))
  {
    ClosingKeepsOwners(s, step);
    SameCalls(s, Do(s, step));
  }

  lemma ClosingKeepsOwners(s: State, step: Step)
    requires Can(s, step) && (step.ConnClosed? || step.ChanClosed?)
    ensures SameOwners(s, Do(s, step)) && Do(s, step).tasks == s.tasks
  {
    if step.ConnClosed? {
      ClosedOnce(s, step.conn, step.t);
    }
  }

  ghost predicate SameOwners(s: State, s': State) {
    s'.calls == s.calls && s'.subs == s.subs && s'.overlapped == s.overlapped && s.owner.Keys <= s'.owner.Keys
  }

  ghost predicate ReplaysOk(s: State) {
    forall k :: k in s.tasks && s.tasks[k].Replaying? ==> s.tasks[k].next < s.subs
  }

  lemma SameCalls(s: State, s': State)
    requires CallsOk(s) && SameOwners(s, s') && ReplaysOk(s')
    ensures CallsOk(s')
  {
  }

  lemma TasksKeepCalls(s: State, step: Step)
    requires CallsOk(s) && Can(s, step)
    requires !step.ConnClosed? && !step.ChanClosed? && !step.Consume? && !step.Consuming? && !step.ConsumeFailed?
    ensures CallsOk(Do(s, step))
  {
    if step.ChannelOpened? {
      OpenedKeepsOwners(s, step);
    } else if step.Replayed? {
      ReplayKeepsOwners(s, step);
    } else {
      TasksKeepOwners(s, step);
    }
    SameCalls(s, Do(s, step));
  }

  lemma TasksKeepOwners(s: State, step: Step)
    requires ReplaysOk(s) && Can(s, step)
    requires step.Fire? || step.TornDown? || step.Dialed? || step.Rejected? || step.Cancelled? || step.Destroy?
    ensures SameOwners(s, Do(s, step)) && ReplaysOk(Do(s, step))
  {
  }

  lemma OpenedKeepsOwners(s: State, step: Step)
    requires ReplaysOk(s) && Can(s, step) && step.ChannelOpened?
    ensures SameOwners(s, Do(s, step)) && ReplaysOk(Do(s, step))
  {
    var s' := Do(s, step);
    assert s'.owner == s.owner[step.chan := s.tasks[step.task].conn] && SameOwners(s, s');
    OpenedReplays(s, step);
  }

  lemma OpenedReplays(s: State, step: Step)
    requires ReplaysOk(s) && Can(s, step) && step.ChannelOpened?
    ensures ReplaysOk(Do(s, step))
  {
  }

  lemma ReplayKeepsOwners(s: State, step: Step)
    requires ReplaysOk(s) && Can(s, step) && step.Replayed?
    ensures SameOwners(s, Do(s, step)) && ReplaysOk(Do(s, step))
  {
  }

  lemma ConsumeKeepsCalls(s: State, step: Step)
    requires Inv(s) && CallsOk(s) && Can(s, step) && (step.Consume? || step.Consuming? || step.ConsumeFailed?)
    ensures CallsOk(Do(s, step))
  {
    if step.Consume? {
      NewCall(s, step);
    } else {
      CallEnded(s, step);
    }
  }

  lemma NewCall(s: State, step: Step)
    requires CallsOk(s) && Can(s, step) && step.Consume? && s.channel.value in s.owner
    ensures CallsOk(Do(s, step))
  {
  }

  lemma CallEnded(s: State, step: Step)
    requires CallsOk(s) && Can(s, step) && (step.Consuming? || step.ConsumeFailed?)
    ensures CallsOk(Do(s, step))
  {
  }

  /** While the channel in use is set, a connect() in flight is replaying onto it. */
  lemma TaskReplays(s: State, k: TaskId)
    requires Inv(s) && !s.closing && Live(s) && k in s.tasks
    ensures s.tasks[k].Replaying? && s.tasks[k].chan == s.channel.value
    ensures s.tasks == map[k := s.tasks[k]]
  {
    assert TaskOk(s, s.tasks[k]);
  }

  lemma AheadOf(s: State, ch: ChanId, k: TaskId, n: nat)
    requires s.tasks.Keys == {k} && s.tasks[k].Replaying? && s.tasks[k].chan == ch
    ensures Ahead(s, ch, n) == if s.tasks[k].next <= n < s.subs then 1 else 0
  {
  }

  lemma NothingAhead(s: State, ch: ChanId, n: nat)
    requires s.tasks == map[]
    ensures Ahead(s, ch, n) == 0
  {
  }

  lemma ClosedCounted(s: State, step: Step)
    requires Full(s) && Can(s, step) && (step.ConnClosed? || step.ChanClosed?)
    ensures Counted(Do(s, step))
  {
    if step.ConnClosed? { ClosedOnce(s, step.conn, step.t); }
    var s' := Do(s, step);
    if InUse(s') {
      SameCounts(s, s');
    }
  }

  lemma SameCounts(s: State, s': State)
    requires Counted(s) && InUse(s) && s'.channel == s.channel && s'.consumers == s.consumers
    requires s'.overlapped == s.overlapped && s'.cancelled == s.cancelled
    requires s'.subs == s.subs && s'.calls == s.calls && s'.tasks == s.tasks
    ensures Counted(s')
  {
    var ch := s.channel.value;
    forall n: nat ensures Due(s', ch, n) {
      assert Due(s, ch, n);
      SameWaits(s, s', ch, n);
    }
  }

  /** What is pending and ahead is read off the calls, the tasks and the number of subscriptions. */
  lemma SameWaits(s: State, s': State, ch: ChanId, n: nat)
    requires s'.subs == s.subs && s'.calls == s.calls && s'.tasks == s.tasks
    ensures Pending(s', ch, n) == Pending(s, ch, n) && Ahead(s', ch, n) == Ahead(s, ch, n)
  {
  }

  lemma OpenedCounted(s: State, step: Step)
    requires Full(s) && Can(s, step) && step.ChannelOpened?
    ensures Counted(Do(s, step))
  {
    var s', ch := Do(s, step), step.chan;
    OnlyTask(s, step.task);
    forall n: nat ensures Due(s', ch, n) {
      assert Pending(s', ch, n) == 0;
      assert (ch, n) !in s.overlapped;
      if s.subs == 0 {
        NothingAhead(s', ch, n);
      } else {
        AheadOf(s', ch, step.task, n);
      }
    }
  }

  lemma ReplayedCounted(s: State, step: Step)
    requires Full(s) && Can(s, step) && step.Replayed?
    ensures Counted(Do(s, step))
  {
    var s', task := Do(s, step), s.tasks[step.task];
    OnlyTask(s, step.task);
    if InUse(s') {
      var ch := task.chan;
      assert s.channel == Some(ch);
      forall n: nat ensures Due(s', ch, n) {
        assert Due(s, ch, n);
        AheadOf(s, ch, step.task, n);
        ReplayMovesOn(s, step, n);
        assert task.next < s.subs;
        assert Pending(s', ch, n) == Pending(s, ch, n);
      }
    }
  }

  lemma ReplayMovesOn(s: State, step: Step, n: nat)
    requires Inv(s) && Can(s, step) && step.Replayed?
    ensures Ahead(Do(s, step), s.tasks[step.task].chan, n) == if s.tasks[step.task].next < n < s.subs then 1 else 0
  {
    var s', task := Do(s, step), s.tasks[step.task];
    OnlyTask(s, step.task);
    if task.next + 1 < s.subs {
      AheadOf(s', task.chan, step.task, n);
    } else {
      assert s'.tasks == map[];
      NothingAhead(s', task.chan, n);
    }
  }

  lemma ConsumeCounted(s: State, step: Step)
    requires Full(s) && Can(s, step) && step.Consume?
    ensures Counted(Do(s, step))
  {
    var s', ch := Do(s, step), s.channel.value;
    if InUse(s') {
      forall n: nat ensures Due(s', ch, n) {
        assert Due(s, ch, n);
        ConsumePends(s, step, n);
        ConsumeAhead(s, step, n);
      }
    }
  }

  lemma ConsumePends(s: State, step: Step, n: nat)
    requires CallsOk(s) && Can(s, step) && step.Consume?
    ensures Pending(Do(s, step), s.channel.value, n) == if n == s.subs then 1 else Pending(s, s.channel.value, n)
    ensures Pending(s, s.channel.value, s.subs) == 0
  {
    var s', ch := Do(s, step), s.channel.value;
    assert s'.calls[step.call] == Call(ch, s.subs);
    if call :| call in s.calls && s.calls[call] == Call(ch, n) {
      assert s'.calls[call] == Call(ch, n);
    }
  }

  lemma ConsumeAhead(s: State, step: Step, n: nat)
    requires Inv(s) && CallsOk(s) && !s.closing && Live(s) && Can(s, step) && step.Consume?
    ensures var ch := s.channel.value;
      Ahead(Do(s, step), ch, n) == if n == s.subs then (if ReplayingOn(s, ch) then 1 else 0) else Ahead(s, ch, n)
  {
    var s', ch := Do(s, step), s.channel.value;
    if s.tasks == map[] {
      NothingAhead(s', ch, n);
      NothingAhead(s, ch, n);
      assert !ReplayingOn(s, ch);
    } else {
      var k :| k in s.tasks;
      TaskReplays(s, k);
      AheadOf(s, ch, k, n);
      AheadOf(s', ch, k, n);
      assert ReplayingOn(s, ch);
    }
  }

  lemma ConsumingCounted(s: State, step: Step)
    requires Full(s) && Can(s, step) && (step.Consuming? || step.ConsumeFailed?)
    ensures Counted(Do(s, step))
  {
    if InUse(Do(s, step)) {
      forall n: nat ensures Due(Do(s, step), s.channel.value, n) {
        assert Due(s, s.channel.value, n);
        ConsumingDue(s, step, s.channel.value, n);
      }
    }
  }

  lemma ConsumingDue(s: State, step: Step, ch: ChanId, n: nat)
    requires ch in s.openChans && ch in s.consumers && ch in s.cancelled && Due(s, ch, n)
    requires CallsOk(s) && Can(s, step) && (step.Consuming? || step.ConsumeFailed?)
    ensures ch in Do(s, step).consumers && ch in Do(s, step).cancelled && Due(Do(s, step), ch, n)
  {
    CallEnds(s, step, ch, n);
    assert Ahead(Do(s, step), ch, n) == Ahead(s, ch, n);
  }

  lemma CallEnds(s: State, step: Step, ch: ChanId, n: nat)
    requires CallsOk(s) && Can(s, step) && (step.Consuming? || step.ConsumeFailed?)
    ensures Pending(Do(s, step), ch, n) == if s.calls[step.call] == Call(ch, n) then 0 else Pending(s, ch, n)
    ensures s.calls[step.call] == Call(ch, n) ==> Pending(s, ch, n) == 1
  {
    var s' := Do(s, step);
    if other :| other in s.calls && s.calls[other] == Call(ch, n) && other != step.call {
      assert s'.calls[other] == Call(ch, n);
    }
  }

  lemma CancelledCounted(s: State, step: Step)
    requires Full(s) && Can(s, step) && step.Cancelled?
    ensures Counted(Do(s, step))
  {
    if InUse(Do(s, step)) {
      forall n: nat ensures Due(Do(s, step), s.channel.value, n) {
        assert Due(s, s.channel.value, n);
        CancelledDue(s, step, s.channel.value, n);
      }
    }
  }

  lemma CancelledDue(s: State, step: Step, ch: ChanId, n: nat)
    requires ch in s.consumers && ch in s.cancelled && Due(s, ch, n) && Can(s, step) && step.Cancelled?
    ensures ch in Do(s, step).consumers && ch in Do(s, step).cancelled && Due(Do(s, step), ch, n)
  {
    SameWaits(s, Do(s, step), ch, n);
  }

  lemma StepKeepsFull(s: State, step: Step)
    requires Full(s) && Can(s, step)
    ensures Full(Do(s, step))
  {
    StepKeepsInv(s, step);
    CallsStep(s, step);
    match step {
      case ConnClosed(_, _) => ClosedCounted(s, step);
      case ChanClosed(_, _) => ClosedCounted(s, step);
      case ChannelOpened(_, _) => OpenedCounted(s, step);
      case Replayed(_) => ReplayedCounted(s, step);
      case Consume(_) => ConsumeCounted(s, step);
      case Consuming(_) => ConsumingCounted(s, step);
      case ConsumeFailed(_) => ConsumingCounted(s, step);
      case Cancelled(_, _) => CancelledCounted(s, step);
      case _ => UnsetCounted(s, step);
    }
  }

  /** After the remaining steps the channel is unset or the service is closing. */
  lemma UnsetCounted(s: State, step: Step)
    requires Full(s) && Can(s, step)
    requires step.Fire? || step.TornDown? || step.Dialed? || step.Rejected? || step.Destroy?
    ensures Counted(Do(s, step))
  {
    if step.TornDown? || step.Dialed? || step.Rejected? {
      OnlyTask(s, step.task);
    }
  }

  lemma {:induction false} RunKeepsFull(s: State, steps: seq<Step>)
    requires Full(s) && Admissible(s, steps)
    ensures Full(Exec(s, steps))
    decreases |steps|
  {
    if steps != [] {
      StepKeepsFull(s, steps[0]);
      RunKeepsFull(Do(s, steps[0]), steps[1..]);
    }
  }

  /** The channel in use is open, no connect() and no consume() on it is in flight. */
  ghost predicate Settled(s: State) {
    InUse(s) && s.tasks == map[] && forall call :: call in s.calls ==> s.calls[call].chan != s.channel.value
  }

  lemma ConnectedFull(c: ConnId, ch: ChanId)
    ensures Full(Connected(c, ch)) && HeldIsOpen(Connected(c, ch))
  {
    var s := Connected(c, ch);
    forall n: nat ensures Due(s, ch, n) {
      assert Pending(s, ch, n) == 0;
      NothingAhead(s, ch, n);
    }
  }

  /** In every reachable state whose calls have settled, the consumers on the channel in use are two for
      each subscription that was registered during its replay and one for every other, less those the
      broker cancelled there. */
  lemma ConsumersExact(c: ConnId, ch: ChanId, steps: seq<Step>, n: nat)
    requires Admissible(Connected(c, ch), steps) && Settled(Exec(Connected(c, ch), steps))
    ensures var s := Exec(Connected(c, ch), steps);
      s.consumers[s.channel.value][n] + s.cancelled[s.channel.value][n] ==
        if n >= s.subs then 0 else if (s.channel.value, n) in s.overlapped then 2 else 1
  {
    ConnectedFull(c, ch);
    RunKeepsFull(Connected(c, ch), steps);
    var s := Exec(Connected(c, ch), steps);
    assert Due(s, s.channel.value, n);
    assert Pending(s, s.channel.value, n) == 0;
    NothingAhead(s, s.channel.value, n);
  }

  /** The cancellations on the channel took exactly the surplus consumers of the overlapped subscriptions. */
  ghost predicate SurplusCancelled(s: State, ch: ChanId)
    requires ch in s.cancelled
  {
    forall n: nat :: s.cancelled[ch][n] == if (ch, n) in s.overlapped then 1 else 0
  }

  /** So the channel in use has exactly one consumer per subscription if and only if the cancellations took
      the surplus of the overlaps: where nothing was cancelled, if and only if nothing overlapped, and
      where nothing overlapped, if and only if nothing was cancelled. */
  lemma OneConsumerPerSubscription(c: ConnId, ch: ChanId, steps: seq<Step>)
    requires Admissible(Connected(c, ch), steps) && Settled(Exec(Connected(c, ch), steps))
    ensures var s := Exec(Connected(c, ch), steps);
      && (OneEach(s, s.channel.value) <==> SurplusCancelled(s, s.channel.value))
      && (s.cancelled[s.channel.value] == multiset{} ==>
            (OneEach(s, s.channel.value) <==> forall n: nat :: (s.channel.value, n) !in s.overlapped))
      && ((forall n: nat :: (s.channel.value, n) !in s.overlapped) ==>
            (OneEach(s, s.channel.value) <==> s.cancelled[s.channel.value] == multiset{}))
  {
    var s := Exec(Connected(c, ch), steps);
    ConnectedFull(c, ch);
    RunKeepsFull(Connected(c, ch), steps);
    forall n: nat ensures SettledCount(s, n) {
      ConsumersExact(c, ch, steps, n);
      assert Due(s, s.channel.value, n);
    }
    OneEachExact(s);
  }

  ghost predicate OneEach(s: State, ch: ChanId)
    requires ch in s.consumers
  {
    forall n: nat :: s.consumers[ch][n] == if n < s.subs then 1 else 0
  }

  ghost predicate SettledCount(s: State, n: nat)
    requires InUse(s)
  {
    s.consumers[s.channel.value][n] + s.cancelled[s.channel.value][n] == Share(s, s.channel.value, n)
  }

  lemma OneEachExact(s: State)
    requires InUse(s) && CallsOk(s) && forall n: nat :: SettledCount(s, n)
    ensures var ch := s.channel.value;
      && (OneEach(s, ch) <==> SurplusCancelled(s, ch))
      && (s.cancelled[ch] == multiset{} ==> (OneEach(s, ch) <==> forall n: nat :: (ch, n) !in s.overlapped))
      && ((forall n: nat :: (ch, n) !in s.overlapped) ==> (OneEach(s, ch) <==> s.cancelled[ch] == multiset{}))
  {
    var ch := s.channel.value;
    forall n: nat
      ensures s.consumers[ch][n] == (if n < s.subs then 1 else 0) <==>
          s.cancelled[ch][n] == if (ch, n) in s.overlapped then 1 else 0
    {
      assert SettledCount(s, n);
    }
    assert OneEach(s, ch) <==> SurplusCancelled(s, ch);
    if s.cancelled[ch] != multiset{} {
      var n :| n in s.cancelled[ch];
      assert s.cancelled[ch][n] != 0;
    }
  }

  // ----- zombies -----

  /** Nobody receives what is sent to the subscription, and no consume() of it is under way. */
  ghost predicate Unserved(s: State, ch: ChanId, n: nat)
    requires ch in s.consumers
  {
    n < s.subs && s.consumers[ch][n] == 0 && Pending(s, ch, n) == 0
  }

  /** Until destroy the service has an open channel, one connect in flight, or one armed timer; two timers
      are never armed, and none is after destroy. And when no repair is under way, a registered
      subscription goes unserved if and only if the broker cancelled all its consumers on the channel:
      that is the one silent zombie there is. */
  lemma NoSilentZombie(c: ConnId, ch: ChanId, steps: seq<Step>)
    requires Admissible(Connected(c, ch), steps)
    ensures var s := Exec(Connected(c, ch), steps);
      && (!s.closing ==> Live(s) || |s.tasks| == 1 || |s.armed| == 1)
      && |s.armed| <= 1 && |s.tasks| <= 1
      && (s.closing ==> s.armed == {})
      && (!s.closing && s.tasks == map[] && s.armed == {} ==>
            && Live(s) && s.channel.value in s.consumers && s.channel.value in s.cancelled
            && forall n: nat :: n < s.subs && Pending(s, s.channel.value, n) == 0 ==>
                 (Unserved(s, s.channel.value, n) <==> s.cancelled[s.channel.value][n] == Share(s, s.channel.value, n)))
  {
    ConnectedFull(c, ch);
    RunKeepsFull(Connected(c, ch), steps);
    TaskCount(Exec(Connected(c, ch), steps));
    UnservedExact(Exec(Connected(c, ch), steps));
  }

  lemma UnservedExact(s: State)
    requires Full(s) && !s.closing && s.tasks == map[] && s.armed == {} ==> Live(s)
    ensures Full(s) && !s.closing && s.tasks == map[] && s.armed == {} ==>
      && s.channel.value in s.consumers && s.channel.value in s.cancelled
      && forall n: nat :: n < s.subs && Pending(s, s.channel.value, n) == 0 ==>
           (Unserved(s, s.channel.value, n) <==> s.cancelled[s.channel.value][n] == Share(s, s.channel.value, n))
  {
    if Full(s) && !s.closing && s.tasks == map[] && s.armed == {} {
      var ch := s.channel.value;
      forall n: nat | n < s.subs && Pending(s, ch, n) == 0
        ensures Unserved(s, ch, n) <==> s.cancelled[ch][n] == Share(s, ch, n)
      {
        assert Due(s, ch, n);
        NothingAhead(s, ch, n);
      }
    }
  }

  // ----- overlaps happen -----

  lemma ExecCons(s: State, step: Step, rest: seq<Step>)
    requires Can(s, step) && Admissible(Do(s, step), rest)
    ensures Admissible(s, [step] + rest) && Exec(s, [step] + rest) == Exec(Do(s, step), rest)
  {
    assert ([step] + rest)[1..] == rest;
  }

  /** All is quiet, and one registered subscription consumes twice on the channel in use. */
  ghost predicate Doubled(s: State) {
    Settled(s) && exists n: nat :: n < s.subs && s.consumers[s.channel.value][n] == 2
  }

  /** All is quiet with one consumer each, although a consume() overlapped the replay: the broker cancelled
      the surplus one. */
  ghost predicate Mended(s: State) {
    Settled(s) && OneEach(s, s.channel.value) && s.cancelled[s.channel.value] != multiset{}
    && exists n: nat :: (s.channel.value, n) in s.overlapped
  }

  /** A run leads to a doubled consumer, or to one that was doubled and cancelled again. */
  ghost predicate CanDouble(s: State, mended: bool) {
    exists steps :: Admissible(s, steps) && if mended then Mended(Exec(s, steps)) else Doubled(Exec(s, steps))
  }

  lemma DoubleAfter(s: State, step: Step, mended: bool)
    requires Can(s, step) && CanDouble(Do(s, step), mended)
    ensures CanDouble(s, mended)
  {
    var rest :| Admissible(Do(s, step), rest) &&
      if mended then Mended(Exec(Do(s, step), rest)) else Doubled(Exec(Do(s, step), rest));
    ExecCons(s, step, rest);
    assert Admissible(s, [step] + rest);
  }

  /** One subscription is being replayed on channel 1, task 0 is at it. */
  ghost predicate Replaying1(s: State, ch: ChanId) {
    && s.tasks.Keys == {0} && s.tasks[0].Replaying? && s.tasks[0].chan == ch && s.tasks[0].next == 0 && s.subs == 1
    && s.channel == Some(ch) && ch in s.openChans && !s.closing && ch in s.consumers && s.calls == map[]
    && s.consumers[ch] == multiset{} && ch in s.cancelled && s.cancelled[ch] == multiset{}
  }

  lemma EndDoubled(s: State, ch: ChanId, mended: bool)
    requires s.channel == Some(ch) && ch in s.openChans && !s.closing && ch in s.consumers && ch in s.cancelled
    requires s.tasks == map[] && s.calls == map[] && s.subs == 2 && (ch, 1) in s.overlapped
    requires s.consumers[ch] == multiset{0, 1, 1} && s.cancelled[ch] == multiset{}
    ensures CanDouble(s, mended)
  {
    if mended {
      var s1 := Do(s, Cancelled(ch, 1));
      assert s1.consumers[ch] == multiset{0, 1};
      assert s1.cancelled[ch][1] == 1;
      assert Mended(s1);
      assert Admissible(s1, []) && Exec(s1, []) == s1;
      DoubleAfter(s, Cancelled(ch, 1), mended);
    } else {
      assert s.consumers[ch][1] == 2;
      assert Doubled(s);
      assert Admissible(s, []) && Exec(s, []) == s;
    }
  }

  lemma ReplayCanDouble(s: State, ch: ChanId, mended: bool)
    requires Replaying1(s, ch)
    ensures CanDouble(s, mended)
  {
    var s1 := Do(s, Consume(0));
    var s2 := Do(s1, Replayed(0));
    assert s2.tasks.Keys == {0} && s2.tasks[0].next == 1 && s2.subs == 2;
    var s3 := Do(s2, Replayed(0));
    assert s3.tasks == map[] && s3.calls == map[0 := Call(ch, 1)];
    var s4 := Do(s3, Consuming(0));
    assert s4.calls == map[] && s4.consumers[ch] == multiset{0, 1, 1};
    EndDoubled(s4, ch, mended);
    DoubleAfter(s3, Consuming(0), mended);
    DoubleAfter(s2, Replayed(0), mended);
    DoubleAfter(s1, Replayed(0), mended);
    DoubleAfter(s, Consume(0), mended);
  }

  /** From the first connect on: subscribe, lose the connection, reconnect, and subscribe again while
      the first subscription is being replayed. */
  lemma OverlapDoubles(c: ConnId, ch: ChanId, mended: bool)
    ensures CanDouble(Connected(c, ch), mended)
  {
    var s0 := Connected(c, ch);
    var s1 := Do(s0, Consume(0));
    var s2 := Do(s1, Consuming(0));
    var s3 := Do(s2, ConnClosed(c, 0));
    assert s3.timer == Some(0) && s3.armed == {0} && s3.tasks == map[];
    ReconnectCanDouble(s3, c, ch, mended);
    DoubleAfter(s2, ConnClosed(c, 0), mended);
    DoubleAfter(s1, Consuming(0), mended);
    DoubleAfter(s0, Consume(0), mended);
  }

  lemma ReconnectCanDouble(s: State, c: ConnId, ch: ChanId, mended: bool)
    requires s.armed == {0} && s.tasks == map[] && s.subs == 1 && s.calls == map[] && !s.closing
    requires s.owner == map[ch := c] && s.openConns == {} && s.connection == Some(c)
    ensures CanDouble(s, mended)
  {
    var s1 := Do(s, Fire(0, 0));
    var s2 := Do(s1, TornDown(0));
    DialCanDouble(s2, c, ch, mended);
    DoubleAfter(s1, TornDown(0), mended);
    DoubleAfter(s, Fire(0, 0), mended);
  }

  lemma DialCanDouble(s: State, c: ConnId, ch: ChanId, mended: bool)
    requires s.tasks == map[0 := Dialing] && s.subs == 1 && s.calls == map[] && !s.closing
    requires s.owner == map[ch := c] && s.openConns == {}
    ensures CanDouble(s, mended)
  {
    var s1 := Do(s, Dialed(0, c + 1));
    var s2 := Do(s1, ChannelOpened(0, ch + 1));
    ReplayCanDouble(s2, ch + 1, mended);
    DoubleAfter(s1, ChannelOpened(0, ch + 1), mended);
    DoubleAfter(s, Dialed(0, c + 1), mended);
  }

  // ----- cancellations happen -----

  /** All is quiet, and one registered subscription has no consumer on the open channel. */
  ghost predicate SilentZombie(s: State) {
    Settled(s) && s.armed == {} && exists n: nat :: n < s.subs && s.consumers[s.channel.value][n] == 0
  }

  /** From the first connect on: subscribe, and the broker cancels the consumer. Nothing reconnects. */
  lemma CancellationSilences(c: ConnId, ch: ChanId)
    ensures exists steps :: Admissible(Connected(c, ch), steps) && SilentZombie(Exec(Connected(c, ch), steps))
  {
    var s0 := Connected(c, ch);
    var s1 := Do(s0, Consume(0));
    var s2 := Do(s1, Consuming(0));
    assert s2.consumers[ch] == multiset{0} && s2.calls == map[];
    var s3 := Do(s2, Cancelled(ch, 0));
    assert s3.consumers[ch][0] == 0 && s3.calls == map[];
    assert SilentZombie(s3);
    ExecCons(s2, Cancelled(ch, 0), []);
    ExecCons(s1, Consuming(0), [Cancelled(ch, 0)] + []);
    ExecCons(s0, Consume(0), [Consuming(0)] + ([Cancelled(ch, 0)] + []));
    assert Exec(s0, [Consume(0)] + ([Consuming(0)] + ([Cancelled(ch, 0)] + []))) == s3;
  }

  /** Subscription n is silent: its channel is open, nothing repairs it, no consume() of it is in flight. */
  ghost predicate Silent(s: State, ch: ChanId, n: nat) {
    && s.channel == Some(ch) && ch in s.openChans && ch in s.consumers && !s.closing
    && s.tasks == map[] && s.armed == {} && s.timer.None?
    && n < s.subs && s.consumers[ch][n] == 0
    && forall call :: call in s.calls ==> s.calls[call] != Call(ch, n)
  }

  predicate EndsChannel(step: Step) {
    step.ConnClosed? || step.ChanClosed? || step.Destroy?
  }

  lemma SilentStep(s: State, step: Step, ch: ChanId, n: nat)
    requires Silent(s, ch, n) && Can(s, step) && !EndsChannel(step)
    ensures Silent(Do(s, step), ch, n)
  {
  }

  /** And the subscription stays silent, whatever else happens, until a connection or channel closes or
      the service shuts down. */
  lemma {:induction false} SilentForGood(s: State, steps: seq<Step>, ch: ChanId, n: nat)
    requires Silent(s, ch, n) && Admissible(s, steps) && forall step :: step in steps ==> !EndsChannel(step)
    ensures Silent(Exec(s, steps), ch, n)
    decreases |steps|
  {
    if steps != [] {
      assert steps[0] in steps;
      SilentStep(s, steps[0], ch, n);
      SilentForGood(Do(s, steps[0]), steps[1..], ch, n);
    }
  }
}
