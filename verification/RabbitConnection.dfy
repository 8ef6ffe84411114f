/** The RabbitMQ consumer's connection handling in its own form: the object's fields and one method
    per synchronous stretch of its async functions, each proved to be a step of the machine. */
module RabbitConnection {
  import opened Prelude
  import opened Reconnect

  class RabbitMqConnection {
    var connection: Option<ConnId>
    var channel: Option<ChanId>
    var closing: bool
    var reconnectTimer: Option<TimerId>
    var subscriptions: seq<string>
    // the runtime, the broker and the suspended calls
    ghost var armed: set<TimerId>
    ghost var openConns: set<ConnId>
    ghost var openChans: set<ChanId>
    ghost var owner: map<ChanId, ConnId>
    ghost var consumers: map<ChanId, multiset<nat>>
    ghost var tasks: map<TaskId, Task>
    ghost var calls: map<CallId, Call>
    ghost var overlapped: set<(ChanId, nat)>
    ghost var cancelled: map<ChanId, multiset<nat>>

    ghost function Abs(): State
      reads this
    {
      State(connection, channel, closing, reconnectTimer, |subscriptions|, armed, openConns, openChans,
            owner, consumers, tasks, calls, overlapped, cancelled)
    }

    /** onModuleInit's connect() has succeeded. */
    constructor (c: ConnId, ch: ChanId)
      ensures Abs() == Connected(c, ch) && Inv(Abs())
    {
      connection, channel, closing, reconnectTimer, subscriptions := Some(c), Some(ch), false, None, [];
      armed, openConns, openChans := {}, {c}, {ch};
      owner, consumers := map[ch := c], map[ch := multiset{}];
      tasks, calls, overlapped, cancelled := map[], map[], {}, map[ch := multiset{}];
    }

    /** `t` is the handle setTimeout would return. */
    method ScheduleReconnect(t: TimerId)
      modifies this`channel, this`reconnectTimer, this`armed
      ensures Abs() == Schedule(old(Abs()), t)
      ensures if old(closing) || old(reconnectTimer).Some? then channel == old(channel)
              else channel == None && reconnectTimer == Some(t)
    {
      if closing || reconnectTimer.Some? {
        return;
      }
      channel := None;
      reconnectTimer := Some(t);
      armed := armed + {t};
    }

    /** A connection is gone, and its channels with it. */
    ghost method ConnectionDies(c: ConnId)
      modifies this`openConns, this`openChans
      ensures Abs() == DropConn(old(Abs()), c)
    {
      openConns, openChans := openConns - {c}, openChans - ChansOf(Abs(), c);
    }

    /** The 'close' events a dying connection raises: first its channels', then its own. `mine` says
        whether the channel in use is one of them. */
    method OnConnectionClose(c: ConnId, mine: bool, t: TimerId)
      requires Can(Abs(), ConnClosed(c, t))
      requires mine <==> channel.Some? && channel.value in ChansOf(Abs(), c)
      modifies this
      ensures Abs() == Do(old(Abs()), ConnClosed(c, t))
      ensures (mine || old(connection) == Some(c)) && !old(closing) && old(reconnectTimer).None? ==>
        channel == None && reconnectTimer == Some(t)
      ensures !mine && old(connection) != Some(c) ==> channel == old(channel) && reconnectTimer == old(reconnectTimer)
    {
      ConnectionDies(c);
      if mine {
        ScheduleReconnect(t);
      }
      if connection == Some(c) {
        ScheduleReconnect(t);
      }
    }

    method OnChannelClose(ch: ChanId, t: TimerId)
      requires Can(Abs(), ChanClosed(ch, t))
      modifies this
      ensures Abs() == Do(old(Abs()), ChanClosed(ch, t))
      ensures old(channel) == Some(ch) && !old(closing) && old(reconnectTimer).None? ==>
        channel == None && reconnectTimer == Some(t)
      ensures old(channel) != Some(ch) ==> channel == old(channel) && reconnectTimer == old(reconnectTimer)
    {
      openChans := openChans - {ch};
      if channel == Some(ch) {
        ScheduleReconnect(t);
      }
    }

    /** The timer callback up to the await in teardown(). */
    method OnTimer(timer: TimerId, task: TaskId)
      requires Can(Abs(), Fire(timer, task))
      modifies this
      ensures Abs() == Do(old(Abs()), Fire(timer, task))
      ensures connection == None && channel == None && reconnectTimer == None && subscriptions == old(subscriptions)
    {
      armed := armed - {timer};
      reconnectTimer := None;
      tasks := tasks[task := TearingDown(connection)];
      connection := None;
      channel := None;
    }

    method OnDialed(task: TaskId, c: ConnId)
      requires Can(Abs(), Dialed(task, c))
      modifies this
      ensures Abs() == Do(old(Abs()), Dialed(task, c))
      ensures connection == Some(c) && channel == old(channel) && subscriptions == old(subscriptions)
    {
      connection := Some(c);
      openConns := openConns + {c};
      tasks := tasks[task := Opening(c)];
    }

    /** createChannel resolved: the replay loop runs to its first await, or connect() returns.
        `first` is the subscription it starts with. */
    method OnChannelOpened(task: TaskId, ch: ChanId) returns (first: Option<string>)
      requires Can(Abs(), ChannelOpened(task, ch))
      modifies this
      ensures Abs() == Do(old(Abs()), ChannelOpened(task, ch))
      ensures channel == Some(ch) && subscriptions == old(subscriptions)
      ensures first == if subscriptions == [] then None else Some(subscriptions[0])
    {
      ghost var c := tasks[task].conn;
      NewChannel(c, ch);
      channel := Some(ch);
      first := GoOn(task, c, ch, 0);
    }

    /** The broker's side of createChannel. */
    ghost method NewChannel(c: ConnId, ch: ChanId)
      modifies this`openChans, this`owner, this`consumers, this`cancelled
      ensures Abs() == old(Abs()).(openChans := old(openChans) + {ch}, owner := old(owner)[ch := c],
                                   consumers := old(consumers)[ch := multiset{}],
                                   cancelled := old(cancelled)[ch := multiset{}])
    {
      openChans, owner := openChans + {ch}, owner[ch := c];
      consumers, cancelled := consumers[ch := multiset{}], cancelled[ch := multiset{}];
    }

    /** The replay loop runs on to its next await, or connect() returns. */
    method GoOn(ghost task: TaskId, ghost c: ConnId, ghost ch: ChanId, next: nat) returns (following: Option<string>)
      modifies this`tasks
      ensures Abs() == Continue(old(Abs()), task, c, ch, next)
      ensures following == if next < |subscriptions| then Some(subscriptions[next]) else None
    {
      if next < |subscriptions| {
        tasks := tasks[task := Replaying(c, ch, next)];
        return Some(subscriptions[next]);
      }
      tasks := tasks - {task};
      return None;
    }

    /** One startConsume of the replay loop resolved. */
    method OnReplayed(task: TaskId, next: nat) returns (following: Option<string>)
      requires Can(Abs(), Replayed(task)) && tasks[task].next == next
      modifies this
      ensures Abs() == Do(old(Abs()), Replayed(task))
      ensures following == if next + 1 < |subscriptions| then Some(subscriptions[next + 1]) else None
    {
      ghost var c, ch := tasks[task].conn, tasks[task].chan;
      consumers := consumers[ch := consumers[ch] + multiset{next}];
      following := GoOn(task, c, ch, next + 1);
    }

    /** connect() rejected, and its catch handler runs. */
    method OnConnectRejected(task: TaskId, t: TimerId)
      requires Can(Abs(), Rejected(task, t))
      modifies this
      ensures Abs() == Do(old(Abs()), Rejected(task, t))
    {
      tasks := tasks - {task};
      ScheduleReconnect(t);
    }

    /** consume() up to its await. False is the error that there is no channel; nothing is registered
        then. */
    method ConsumeQueue(call: CallId, queue: string) returns (ok: bool)
      requires call !in calls
      modifies this
      ensures ok <==> old(channel).Some?
      ensures !ok ==> Abs() == old(Abs()) && subscriptions == old(subscriptions)
      ensures ok ==> subscriptions == old(subscriptions) + [queue]
      ensures ok ==> Can(old(Abs()), Consume(call)) && Abs() == Do(old(Abs()), Consume(call))
    {
      if channel.None? {
        return false;
      }
      overlapped := if ReplayingOn(Abs(), channel.value) then overlapped + {(channel.value, |subscriptions|)}
                    else overlapped;
      calls := calls[call := Call(channel.value, |subscriptions|)];
      subscriptions := subscriptions + [queue];
      return true;
    }

    /** The consumer callback gets null: the broker cancelled the consumer. It returns, and nothing of the
        object changes. */
    method OnConsumerCancelled(ghost ch: ChanId, ghost sub: nat)
      requires Can(Abs(), Cancelled(ch, sub))
      modifies this`consumers, this`cancelled
      ensures Abs() == Do(old(Abs()), Cancelled(ch, sub))
    {
      consumers := consumers[ch := consumers[ch] - multiset{sub}];
      cancelled := cancelled[ch := cancelled[ch] + multiset{sub}];
    }

    method OnModuleDestroy()
      modifies this
      ensures Abs() == Do(old(Abs()), Destroy)
      ensures closing && connection == None && channel == None && reconnectTimer == None
    {
      closing := true;
      if reconnectTimer.Some? {
        armed := armed - {reconnectTimer.value};
        reconnectTimer := None;
      }
      connection := None;
      channel := None;
    }

    /** Whatever the runtime and the library do while a caller of this object awaits something. */
    method Elapse(ghost steps: seq<Step>, connection': Option<ConnId>, channel': Option<ChanId>, closing': bool,
                  reconnectTimer': Option<TimerId>, registered: seq<string>)
      requires Admissible(Abs(), steps)
      requires var s := Exec(Abs(), steps);
        && connection' == s.connection && channel' == s.channel && closing' == s.closing && reconnectTimer' == s.timer
        && |subscriptions| + |registered| == s.subs
      modifies this
      ensures Abs() == Exec(old(Abs()), steps) && subscriptions == old(subscriptions) + registered
    {
      ghost var s := Exec(Abs(), steps);
      connection, channel, closing, reconnectTimer := connection', channel', closing', reconnectTimer';
      subscriptions := subscriptions + registered;
      Outside(s);
    }

    /** The runtime, the broker and the suspended calls move on. */
    ghost method Outside(s: State)
      modifies this`armed, this`openConns, this`openChans, this`owner, this`consumers, this`tasks, this`calls,
        this`overlapped, this`cancelled
      ensures Abs() == s.(connection := connection, channel := channel, closing := closing, timer := reconnectTimer,
                          subs := |subscriptions|)
    {
      armed, openConns, openChans, owner := s.armed, s.openConns, s.openChans, s.owner;
      consumers, tasks, calls, overlapped, cancelled := s.consumers, s.tasks, s.calls, s.overlapped, s.cancelled;
    }
  }
}
