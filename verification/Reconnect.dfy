/** The connection manager of the RabbitMQ consumer after its first connect: one step is what runs
    between two awaits, or an event the client library delivers. The publisher is the same machine
    without subscriptions.

    `connection`, `channel`, `closing`, `timer` and `subs` are the object's fields. `armed` are the
    timers the runtime really holds, `openConns` and `openChans` what is really open, `owner` the
    connection of each channel, `consumers` how often each subscription consumes on a channel,
    `tasks` the connect() calls in flight and `calls` the consume() calls in flight. `overlapped` is
    history: the subscriptions registered on a channel while the replay loop was running on it.
    `cancelled` is history too: how many consumers of each subscription the broker cancelled on a
    channel. */
module Reconnect {
  import opened Prelude

  type ConnId = nat
  type ChanId = nat
  type TimerId = nat
  type TaskId = nat
  type CallId = nat

  /** Where a connect() call is waiting. */
  datatype Task =
    | TearingDown(prior: Option<ConnId>)
    | Dialing
    | Opening(conn: ConnId)
    | Replaying(conn: ConnId, chan: ChanId, next: nat)

  datatype Call = Call(chan: ChanId, sub: nat)

  datatype State = State(
    connection: Option<ConnId>,
    channel: Option<ChanId>,
    closing: bool,
    timer: Option<TimerId>,
    subs: nat,
    armed: set<TimerId>,
    openConns: set<ConnId>,
    openChans: set<ChanId>,
    owner: map<ChanId, ConnId>,
    consumers: map<ChanId, multiset<nat>>,
    tasks: map<TaskId, Task>,
    calls: map<CallId, Call>,
    overlapped: set<(ChanId, nat)>,
    cancelled: map<ChanId, multiset<nat>>)

  /** Steps that may arm a timer carry the handle setTimeout would return. */
  datatype Step =
    | ConnClosed(conn: ConnId, t: TimerId)
    | ChanClosed(chan: ChanId, t: TimerId)
    | Fire(timer: TimerId, task: TaskId)
    | TornDown(task: TaskId)
    | Dialed(task: TaskId, conn: ConnId)
    | ChannelOpened(task: TaskId, chan: ChanId)
    | Replayed(task: TaskId)
    | Rejected(task: TaskId, t: TimerId)
    | Consume(call: CallId)
    | Consuming(call: CallId)
    | ConsumeFailed(call: CallId)
    | Cancelled(chan: ChanId, sub: nat)
    | Destroy

  /** Right after the first connect: no subscription yet, one open channel. */
  function Connected(c: ConnId, ch: ChanId): State {
    State(Some(c), Some(ch), false, None, 0, {}, {c}, {ch}, map[ch := c], map[ch := multiset{}], map[], map[], {},
          map[ch := multiset{}])
  }

  /** Nothing a connect() waits for is dead. */
  predicate Alive(s: State, task: Task) {
    match task
    case TearingDown(_) => true
    case Dialing => true
    case Opening(c) => c in s.openConns
    case Replaying(_, ch, _) => ch in s.openChans
  }

  function Schedule(s: State, t: TimerId): State {
    if s.closing || s.timer.Some? then s
    else s.(channel := None, timer := Some(t), armed := s.armed + {t})
  }

  /** The synchronous part of teardown(). */
  function Forget(s: State): State {
    s.(connection := None, channel := None)
  }

  function ChansOf(s: State, c: ConnId): set<ChanId> {
    set ch | ch in s.openChans && ch in s.owner && s.owner[ch] == c
  }

  function DropConn(s: State, c: ConnId): State {
    s.(openConns := s.openConns - {c}, openChans := s.openChans - ChansOf(s, c))
  }

  /** Both close listeners: first the channel's, then the connection's. */
  function OnConnClosed(s: State, c: ConnId, t: TimerId): State {
    var dropped := DropConn(s, c);
    var s1 := if s.channel.Some? && s.channel.value in ChansOf(s, c) then Schedule(dropped, t) else dropped;
    if s1.connection == Some(c) then Schedule(s1, t) else s1
  }

  function OnChanClosed(s: State, ch: ChanId, t: TimerId): State {
    var dropped := s.(openChans := s.openChans - {ch});
    if s.channel == Some(ch) then Schedule(dropped, t) else dropped
  }

  /** connect() goes on after its await: replay the next subscription, or return. */
  function Continue(s: State, task: TaskId, c: ConnId, ch: ChanId, next: nat): State {
    if next < s.subs then s.(tasks := s.tasks[task := Replaying(c, ch, next)]) else s.(tasks := s.tasks - {task})
  }

  ghost predicate ReplayingOn(s: State, ch: ChanId) {
    exists k :: k in s.tasks && s.tasks[k].Replaying? && s.tasks[k].chan == ch
  }

  /** `Cancelled` is the broker ending a consumer, for instance because its queue was deleted; the
      callback gets null and returns. `Fire` carries the assumption that a dead connection's pending calls
      reject before the delay is over. */
  ghost predicate Can(s: State, step: Step) {
    match step
    case ConnClosed(c, t) => c in s.openConns && t !in s.armed
    case ChanClosed(ch, t) => ch in s.openChans && t !in s.armed
    case Fire(timer, task) => timer in s.armed && task !in s.tasks && forall k :: k in s.tasks ==> Alive(s, s.tasks[k])
    case TornDown(task) => task in s.tasks && s.tasks[task].TearingDown?
    case Dialed(task, c) => task in s.tasks && s.tasks[task].Dialing? && c !in s.openConns && c !in s.owner.Values
    case ChannelOpened(task, ch) =>
      task in s.tasks && s.tasks[task].Opening? && s.tasks[task].conn in s.openConns && ch !in s.owner
    case Replayed(task) =>
      && task in s.tasks && s.tasks[task].Replaying?
      && s.tasks[task].chan in s.openChans && s.tasks[task].chan in s.consumers
    case Rejected(task, t) => task in s.tasks && !s.tasks[task].TearingDown? && t !in s.armed
    case Consume(call) => call !in s.calls && s.channel.Some?
    case Consuming(call) => call in s.calls && s.calls[call].chan in s.openChans && s.calls[call].chan in s.consumers
    case ConsumeFailed(call) => call in s.calls && s.calls[call].chan !in s.openChans
    case Cancelled(ch, sub) => ch in s.openChans && ch in s.consumers && ch in s.cancelled && sub in s.consumers[ch]
    case Destroy => true
  }

  function AddConsumer(s: State, ch: ChanId, sub: nat): State
    requires ch in s.consumers
  {
    s.(consumers := s.consumers[ch := s.consumers[ch] + multiset{sub}])
  }

  ghost function Do(s: State, step: Step): State
    requires Can(s, step)
  {
    match step
    case ConnClosed(c, t) => OnConnClosed(s, c, t)
    case ChanClosed(ch, t) => OnChanClosed(s, ch, t)
    case Fire(timer, task) =>
      Forget(s.(armed := s.armed - {timer}, timer := None, tasks := s.tasks[task := TearingDown(s.connection)]))
    case TornDown(task) =>
      var s1 := if s.tasks[task].prior.Some? then DropConn(s, s.tasks[task].prior.value) else s;
      s1.(tasks := s.tasks[task := Dialing])
    case Dialed(task, c) =>
      s.(connection := Some(c), openConns := s.openConns + {c}, tasks := s.tasks[task := Opening(c)])
    case ChannelOpened(task, ch) =>
      var c := s.tasks[task].conn;
      Continue(s.(channel := Some(ch), openChans := s.openChans + {ch}, owner := s.owner[ch := c],
                  consumers := s.consumers[ch := multiset{}], cancelled := s.cancelled[ch := multiset{}]),
               task, c, ch, 0)
    case Replayed(task) =>
      var Replaying(c, ch, next) := s.tasks[task];
      Continue(AddConsumer(s, ch, next), task, c, ch, next + 1)
    case Rejected(task, t) => Schedule(s.(tasks := s.tasks - {task}), t)
    case Consume(call) =>
      var ch := s.channel.value;
      s.(subs := s.subs + 1, calls := s.calls[call := Call(ch, s.subs)],
         overlapped := if ReplayingOn(s, ch) then s.overlapped + {(ch, s.subs)} else s.overlapped)
    case Consuming(call) =>
      AddConsumer(s, s.calls[call].chan, s.calls[call].sub).(calls := s.calls - {call})
    case ConsumeFailed(call) => s.(calls := s.calls - {call})
    case Cancelled(ch, sub) =>
      s.(consumers := s.consumers[ch := s.consumers[ch] - multiset{sub}],
         cancelled := s.cancelled[ch := s.cancelled[ch] + multiset{sub}])
    case Destroy =>
      Forget(s.(closing := true, armed := if s.timer.Some? then s.armed - {s.timer.value} else s.armed, timer := None))
  }

  ghost predicate Admissible(s: State, steps: seq<Step>)
    decreases |steps|
  {
    steps == [] || (Can(s, steps[0]) && Admissible(Do(s, steps[0]), steps[1..]))
  }

  ghost function Exec(s: State, steps: seq<Step>): State
    requires Admissible(s, steps)
    decreases |steps|
  {
    if steps == [] then s else Exec(Do(s, steps[0]), steps[1..])
  }

  // ----- timers and zombies -----

  ghost predicate TimersOk(s: State) {
    s.armed == (if s.timer.Some? then {s.timer.value} else {}) && (s.closing ==> s.timer.None?)
  }

  ghost predicate OneTask(s: State) {
    forall a, b :: a in s.tasks && b in s.tasks ==> a == b
  }

  ghost predicate Live(s: State) {
    s.channel.Some? && s.channel.value in s.openChans
  }

  ghost predicate NoZombie(s: State) {
    s.closing || Live(s) || s.tasks != map[] || s.timer.Some?
  }

  /** The object's fields name what its connect() call is working on. After destroy they are unset
      until the call in flight sets them again. */
  ghost predicate TaskOk(s: State, task: Task) {
    match task
    case TearingDown(_) => s.connection.None? && s.channel.None?
    case Dialing => s.connection.None? && s.channel.None?
    case Opening(c) => s.channel.None? && (s.connection == Some(c) || s.closing)
    case Replaying(c, ch, _) =>
      && ch in s.owner && s.owner[ch] == c
      && (s.channel == Some(ch) || (s.channel.None? && (s.timer.Some? || s.closing)))
      && (s.connection == Some(c) || s.closing)
  }

  /** While a timer is armed, the channel is dropped and a connect() in flight is already dead. */
  ghost predicate ArmedOk(s: State) {
    s.timer.Some? ==> s.channel.None? && forall k :: k in s.tasks ==> !Alive(s, s.tasks[k])
  }

  ghost predicate ChannelsOk(s: State) {
    && (forall ch :: ch in s.openChans ==> ch in s.owner && s.owner[ch] in s.openConns)
    && (s.channel.Some? ==> s.channel.value in s.owner)
    && s.consumers.Keys == s.cancelled.Keys == s.owner.Keys
  }

  ghost predicate Inv(s: State) {
    && TimersOk(s) && OneTask(s) && NoZombie(s) && ArmedOk(s) && ChannelsOk(s)
    && (forall k :: k in s.tasks ==> TaskOk(s, s.tasks[k]))
  }

  /** A close event that is not stale schedules once, a stale one only drops what died. */
  lemma ClosedOnce(s: State, c: ConnId, t: TimerId)
    ensures var hit := s.connection == Some(c) || (s.channel.Some? && s.channel.value in ChansOf(s, c));
      OnConnClosed(s, c, t) == if hit then Schedule(DropConn(s, c), t) else DropConn(s, c)
  {
  }

  /** Everything but NoZombie and ArmedOk survives when connections and channels die. */
  ghost predicate Base(s: State) {
    && TimersOk(s) && OneTask(s) && ChannelsOk(s)
    && (forall k :: k in s.tasks ==> TaskOk(s, s.tasks[k]))
  }

  lemma ScheduleKeepsInv(s: State, t: TimerId)
    requires Base(s) && t !in s.armed
    requires s.timer.Some? ==> s.channel.None?
    requires forall k :: k in s.tasks && !s.closing ==>
        !Alive(s, s.tasks[k]) && (s.tasks[k].Opening? || s.tasks[k].Replaying?)
    ensures Inv(Schedule(s, t))
  {
    var s' := Schedule(s, t);
    forall k | k in s'.tasks ensures TaskOk(s', s'.tasks[k]) {
      assert TaskOk(s, s.tasks[k]);
    }
  }

  lemma DropKeepsBase(s: State, conns: set<ConnId>, chans: set<ChanId>)
    requires Base(s)
    requires forall ch :: ch in s.openChans && ch in s.owner && s.owner[ch] in conns ==> ch in chans
    ensures Base(s.(openConns := s.openConns - conns, openChans := s.openChans - chans))
  {
    var s' := s.(openConns := s.openConns - conns, openChans := s.openChans - chans);
    forall k | k in s'.tasks ensures TaskOk(s', s'.tasks[k]) {
      assert TaskOk(s, s.tasks[k]);
    }
  }

  lemma ConnClosedKeepsInv(s: State, c: ConnId, t: TimerId)
    requires Inv(s) && Can(s, ConnClosed(c, t))
    ensures Inv(Do(s, ConnClosed(c, t)))
  {
    var dropped := DropConn(s, c);
    ClosedOnce(s, c, t);
    DropKeepsBase(s, {c}, ChansOf(s, c));
    if s.connection == Some(c) || (s.channel.Some? && s.channel.value in ChansOf(s, c)) {
      forall k | k in s.tasks && !s.closing
        ensures !Alive(dropped, s.tasks[k]) && (s.tasks[k].Opening? || s.tasks[k].Replaying?)
      {
        assert TaskOk(s, s.tasks[k]);
      }
      ScheduleKeepsInv(dropped, t);
    } else {
      StaleKeepsInv(s, dropped);
    }
  }

  /** What died was nothing this object refers to. */
  lemma StaleKeepsInv(s: State, s': State)
    requires Inv(s) && Base(s') && s' == s.(openConns := s'.openConns, openChans := s'.openChans)
    requires s'.openConns <= s.openConns && s'.openChans <= s.openChans
    requires Live(s) ==> Live(s')
    ensures Inv(s')
  {
    if s'.timer.Some? {
      forall k | k in s'.tasks ensures !Alive(s', s'.tasks[k]) {
        assert !Alive(s, s.tasks[k]);
      }
    }
  }

  lemma ChanClosedKeepsInv(s: State, ch: ChanId, t: TimerId)
    requires Inv(s) && Can(s, ChanClosed(ch, t))
    ensures Inv(Do(s, ChanClosed(ch, t)))
  {
    var dropped := s.(openChans := s.openChans - {ch});
    DropKeepsBase(s, {}, {ch});
    assert s.openConns - {} == s.openConns;
    if s.channel == Some(ch) {
      forall k | k in s.tasks && !s.closing
        ensures !Alive(dropped, s.tasks[k]) && (s.tasks[k].Opening? || s.tasks[k].Replaying?)
      {
        assert TaskOk(s, s.tasks[k]);
      }
      ScheduleKeepsInv(dropped, t);
    } else {
      StaleKeepsInv(s, dropped);
    }
  }

  lemma FireKeepsInv(s: State, step: Step)
    requires Inv(s) && Can(s, step) && step.Fire?
    ensures Inv(Do(s, step))
  {
    assert s.timer.Some?;
    assert s.tasks == map[];
  }

  lemma OnlyTask(s: State, task: TaskId)
    requires Inv(s) && task in s.tasks
    ensures s.tasks == map[task := s.tasks[task]] && TaskOk(s, s.tasks[task])
  {
  }

  lemma TornDownKeepsInv(s: State, task: TaskId)
    requires Inv(s) && Can(s, TornDown(task))
    ensures Inv(Do(s, TornDown(task)))
  {
    OnlyTask(s, task);
    assert s.timer.None?;
  }

  lemma DialedKeepsInv(s: State, task: TaskId, c: ConnId)
    requires Inv(s) && Can(s, Dialed(task, c))
    ensures Inv(Do(s, Dialed(task, c)))
  {
    OnlyTask(s, task);
    assert s.timer.None?;
  }

  /** A new channel of an open connection. */
  ghost predicate AddsChannel(s: State, s': State, ch: ChanId, c: ConnId) {
    && s'.channel == Some(ch) && s'.openConns == s.openConns && s'.openChans == s.openChans + {ch}
    && s'.owner == s.owner[ch := c] && s'.consumers == s.consumers[ch := multiset{}]
    && s'.cancelled == s.cancelled[ch := multiset{}]
  }

  lemma OpenedAdds(s: State, task: TaskId, ch: ChanId)
    requires Can(s, ChannelOpened(task, ch))
    ensures AddsChannel(s, Do(s, ChannelOpened(task, ch)), ch, s.tasks[task].conn)
  {
  }

  lemma AddedKeys<V>(m: map<ChanId, V>, ch: ChanId, v: V)
    ensures m[ch := v].Keys == m.Keys + {ch}
  {
  }

  lemma AddedOwner(chans: set<ChanId>, conns: set<ConnId>, owner: map<ChanId, ConnId>, ch: ChanId, c: ConnId)
    requires c in conns && ch !in owner && forall x :: x in chans ==> x in owner && owner[x] in conns
    ensures forall x :: x in chans + {ch} ==> x in owner[ch := c] && owner[ch := c][x] in conns
  {
  }

  lemma AddedChannelsOk(s: State, s': State, ch: ChanId, c: ConnId)
    requires ChannelsOk(s) && AddsChannel(s, s', ch, c) && c in s.openConns && ch !in s.owner
    ensures ChannelsOk(s')
  {
    AddedKeys(s.owner, ch, c);
    AddedKeys(s.consumers, ch, multiset{});
    AddedKeys(s.cancelled, ch, multiset{});
    AddedOwner(s.openChans, s.openConns, s.owner, ch, c);
  }

  lemma OpenedKeepsChannels(s: State, task: TaskId, ch: ChanId)
    requires ChannelsOk(s) && Can(s, ChannelOpened(task, ch))
    ensures ChannelsOk(Do(s, ChannelOpened(task, ch)))
  {
    OpenedAdds(s, task, ch);
    AddedChannelsOk(s, Do(s, ChannelOpened(task, ch)), ch, s.tasks[task].conn);
  }

  /** With no timer armed, the invariant is about the channels and the one task. */
  lemma QuietInv(s: State)
    requires s.timer.None? && s.armed == {} && ChannelsOk(s) && NoZombie(s) && OneTask(s)
    requires forall k :: k in s.tasks ==> TaskOk(s, s.tasks[k])
    ensures Inv(s)
  {
  }

  lemma ChannelOpenedKeepsInv(s: State, task: TaskId, ch: ChanId)
    requires Inv(s) && Can(s, ChannelOpened(task, ch))
    ensures Inv(Do(s, ChannelOpened(task, ch)))
  {
    var s' := Do(s, ChannelOpened(task, ch));
    OnlyTask(s, task);
    NoTimerAt(s, task);
    OpenedKeepsChannels(s, task, ch);
    OpenedTask(s, task, ch);
    QuietInv(s');
  }

  lemma OpenedTask(s: State, task: TaskId, ch: ChanId)
    requires Can(s, ChannelOpened(task, ch)) && s.tasks == map[task := s.tasks[task]] && TaskOk(s, s.tasks[task])
    ensures var s' := Do(s, ChannelOpened(task, ch));
      && s'.timer == s.timer && s'.armed == s.armed && NoZombie(s') && OneTask(s')
      && forall k :: k in s'.tasks ==> TaskOk(s', s'.tasks[k])
  {
    OpenedAdds(s, task, ch);
    OpenedFields(s, task, ch);
    OpenedTasksOk(s, Do(s, ChannelOpened(task, ch)), task, ch);
  }

  lemma OpenedFields(s: State, task: TaskId, ch: ChanId)
    requires Can(s, ChannelOpened(task, ch)) && s.tasks == map[task := s.tasks[task]]
    ensures var s' := Do(s, ChannelOpened(task, ch));
      && s'.timer == s.timer && s'.armed == s.armed && s'.connection == s.connection && s'.closing == s.closing
      && s'.tasks == if s.subs > 0 then map[task := Replaying(s.tasks[task].conn, ch, 0)] else map[]
  {
  }

  lemma OpenedTasksOk(s: State, s': State, task: TaskId, ch: ChanId)
    requires task in s.tasks && s.tasks[task].Opening? && TaskOk(s, s.tasks[task])
    requires AddsChannel(s, s', ch, s.tasks[task].conn) && s'.connection == s.connection && s'.closing == s.closing
    requires s'.tasks == if s.subs > 0 then map[task := Replaying(s.tasks[task].conn, ch, 0)] else map[]
    ensures NoZombie(s') && OneTask(s') && forall k :: k in s'.tasks ==> TaskOk(s', s'.tasks[k])
  {
  }

  /** A connect() that is still alive has no timer beside it. */
  lemma NoTimerAt(s: State, task: TaskId)
    requires Inv(s) && task in s.tasks && Alive(s, s.tasks[task])
    ensures s.timer.None?
  {
  }

  lemma ReplayedKeepsInv(s: State, task: TaskId)
    requires Inv(s) && Can(s, Replayed(task))
    ensures Inv(Do(s, Replayed(task)))
  {
    OnlyTask(s, task);
    NoTimerAt(s, task);
    ReplayedKeepsChannels(s, task);
    ReplayedTask(s, task);
    QuietInv(Do(s, Replayed(task)));
  }

  lemma ReplayedTask(s: State, task: TaskId)
    requires Can(s, Replayed(task)) && s.tasks == map[task := s.tasks[task]] && TaskOk(s, s.tasks[task])
    requires s.timer.None?
    ensures var s' := Do(s, Replayed(task));
      && s'.timer == s.timer && s'.armed == s.armed && NoZombie(s') && OneTask(s')
      && forall k :: k in s'.tasks ==> TaskOk(s', s'.tasks[k])
  {
    var s', t := Do(s, Replayed(task)), s.tasks[task];
    assert s'.tasks == if t.next + 1 < s.subs then map[task := Replaying(t.conn, t.chan, t.next + 1)] else map[];
  }

  lemma ReplayedKeepsChannels(s: State, task: TaskId)
    requires ChannelsOk(s) && Can(s, Replayed(task))
    ensures ChannelsOk(Do(s, Replayed(task)))
  {
  }

  lemma RejectedKeepsInv(s: State, task: TaskId, t: TimerId)
    requires Inv(s) && Can(s, Rejected(task, t))
    ensures Inv(Do(s, Rejected(task, t)))
  {
    OnlyTask(s, task);
    ScheduleKeepsInv(s.(tasks := s.tasks - {task}), t);
  }

  lemma OtherKeepsInv(s: State, step: Step)
    requires Inv(s) && Can(s, step)
    requires step.Consume? || step.Consuming? || step.ConsumeFailed? || step.Cancelled?
    ensures Inv(Do(s, step))
  {
    var s' := Do(s, step);
    forall k | k in s'.tasks ensures TaskOk(s', s'.tasks[k]) {
      assert TaskOk(s, s.tasks[k]);
    }
    if s'.timer.Some? {
      forall k | k in s'.tasks ensures !Alive(s', s'.tasks[k]) {
        assert !Alive(s, s.tasks[k]);
      }
    }
  }

  lemma DestroyKeepsInv(s: State)
    requires Inv(s)
    ensures Inv(Do(s, Destroy))
  {
    var s' := Do(s, Destroy);
    forall k | k in s'.tasks ensures TaskOk(s', s'.tasks[k]) {
      assert TaskOk(s, s.tasks[k]);
    }
  }

  lemma StepKeepsInv(s: State, step: Step)
    requires Inv(s) && Can(s, step)
    ensures Inv(Do(s, step))
  {
    match step {
      case ConnClosed(c, t) => ConnClosedKeepsInv(s, c, t);
      case ChanClosed(ch, t) => ChanClosedKeepsInv(s, ch, t);
      case Fire(_, _) => FireKeepsInv(s, step);
      case Consume(_) => OtherKeepsInv(s, step);
      case Consuming(_) => OtherKeepsInv(s, step);
      case ConsumeFailed(_) => OtherKeepsInv(s, step);
      case Cancelled(_, _) => OtherKeepsInv(s, step);
      case Destroy => DestroyKeepsInv(s);
      case TornDown(task) => TornDownKeepsInv(s, task);
      case Dialed(task, c) => DialedKeepsInv(s, task, c);
      case ChannelOpened(task, ch) => ChannelOpenedKeepsInv(s, task, ch);
      case Replayed(task) => ReplayedKeepsInv(s, task);
      case Rejected(task, t) => RejectedKeepsInv(s, task, t);
    }
  }
}
