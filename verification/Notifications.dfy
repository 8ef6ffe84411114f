/** The notification service: which sockets are registered under which user, and who receives a
    verdict. The registry machine is checked against the bare history of connections, and the three
    classes are checked against the machine's functions. */
module Notifications {
  import opened Prelude
  import opened Messages

  type Socket = nat

  type Registry = map<Id, seq<Socket>>

  datatype Notice = Notice(postId: Id, verdict: Verdict, categories: seq<string>)

  /** One event at the service: a socket connects with the user its token names, if the token is there
      and valid; a socket disconnects; Kafka delivers an envelope. */
  datatype Step =
    | Connect(socket: Socket, userId: Option<Id>)
    | Disconnect(socket: Socket)
    | Deliver(envelope: Envelope)

  /** `data` is the user id stored with each socket. */
  datatype Hub = Hub(registry: Registry, data: map<Socket, Id>, inbox: map<Socket, seq<Notice>>)

  // ----- the registry's operations -----

  function Registered(registry: Registry, userId: Id): seq<Socket> {
    if userId in registry then registry[userId] else []
  }

  function Joined(registry: Registry, userId: Id, socket: Socket): Registry {
    if socket in Registered(registry, userId) then registry
    else registry[userId := Registered(registry, userId) + [socket]]
  }

  function Without(sockets: seq<Socket>, socket: Socket): seq<Socket> {
    if sockets == [] then [] else
      Without(sockets[..|sockets| - 1], socket)
      + if sockets[|sockets| - 1] == socket then [] else [sockets[|sockets| - 1]]
  }

  function Parted(registry: Registry, userId: Id, socket: Socket): Registry {
    var rest := Without(Registered(registry, userId), socket);
    if userId !in registry then registry
    else if rest == [] then registry - {userId}
    else registry[userId := rest]
  }

  /** Every user listed has a socket, and none twice. */
  ghost predicate Tidy(registry: Registry) {
    forall u :: u in registry ==> registry[u] != [] && Distinct(registry[u])
  }

  lemma {:induction false} WithoutExact(sockets: seq<Socket>, socket: Socket)
    ensures forall s :: s in Without(sockets, socket) <==> s in sockets && s != socket
    ensures Distinct(sockets) ==> Distinct(Without(sockets, socket))
  {
    if sockets != [] {
      var rest, last := sockets[..|sockets| - 1], sockets[|sockets| - 1];
      assert sockets == rest + [last];
      WithoutExact(rest, socket);
      if Distinct(sockets) {
        assert last !in rest;
        Grown(Without(rest, socket), last);
      }
    }
  }

  lemma RegisterExact(registry: Registry, userId: Id, socket: Socket, u: Id, s: Socket)
    requires Tidy(registry)
    ensures Tidy(Joined(registry, userId, socket))
    ensures s in Registered(Joined(registry, userId, socket), u) <==>
        s in Registered(registry, u) || (u == userId && s == socket)
  {
    Grown(Registered(registry, userId), socket);
  }

  lemma UnregisterExact(registry: Registry, userId: Id, socket: Socket, u: Id, s: Socket)
    requires Tidy(registry)
    ensures Tidy(Parted(registry, userId, socket))
    ensures s in Registered(Parted(registry, userId, socket), u) <==>
        s in Registered(registry, u) && !(u == userId && s == socket)
  {
    WithoutExact(Registered(registry, userId), socket);
  }

  // ----- pushing a verdict -----

  /** The user an envelope is pushed to; None where the handler skips, throws or drops it. */
  function Addressee(e: Envelope): Option<Id> {
    if SupportedEventVersion(e.eventType, e.eventVersion) && ValidCompleted(e.payload)
       && e.payload.authorId.Some? && e.payload.authorId.value != ""
    then e.payload.authorId else None
  }

  function NoticeOf(e: Envelope): Notice
    requires Addressee(e).Some?
  {
    Notice(e.payload.postId, e.payload.verdict, e.payload.categories)
  }

  function Inbox(inbox: map<Socket, seq<Notice>>, socket: Socket): seq<Notice> {
    if socket in inbox then inbox[socket] else []
  }

  function Emit(inbox: map<Socket, seq<Notice>>, socket: Socket, notice: Notice): map<Socket, seq<Notice>> {
    inbox[socket := Inbox(inbox, socket) + [notice]]
  }

  function EmitAll(inbox: map<Socket, seq<Notice>>, sockets: seq<Socket>, notice: Notice): map<Socket, seq<Notice>> {
    if sockets == [] then inbox
    else Emit(EmitAll(inbox, sockets[..|sockets| - 1], notice), sockets[|sockets| - 1], notice)
  }

  /** Each listed socket receives the notice once, no other socket receives anything. */
  lemma {:induction false} EmitAllExact(inbox: map<Socket, seq<Notice>>, sockets: seq<Socket>, notice: Notice,
                                        s: Socket)
    requires Distinct(sockets)
    ensures Inbox(EmitAll(inbox, sockets, notice), s) == Inbox(inbox, s) + if s in sockets then [notice] else []
  {
    if sockets != [] {
      var rest, last := sockets[..|sockets| - 1], sockets[|sockets| - 1];
      assert sockets == rest + [last];
      EmitAllExact(inbox, rest, notice, s);
      assert last !in rest;
    }
  }

  // ----- the machine -----

  const START := Hub(map[], map[], map[])

  function Do(h: Hub, step: Step): Hub {
    match step
    case Connect(socket, None) => h
    case Connect(socket, Some(userId)) =>
      h.(data := h.data[socket := userId], registry := Joined(h.registry, userId, socket))
    case Disconnect(socket) =>
      if socket in h.data && h.data[socket] != ""
      then h.(registry := Parted(h.registry, h.data[socket], socket))
      else h
    case Deliver(e) =>
      match Addressee(e)
      case None => h
      case Some(userId) => h.(inbox := EmitAll(h.inbox, Registered(h.registry, userId), NoticeOf(e)))
  }

  function Run(steps: seq<Step>): Hub {
    if steps == [] then START else Do(Run(steps[..|steps| - 1]), steps[|steps| - 1])
  }

  /** A socket object connects once. */
  ghost predicate Admissible(steps: seq<Step>) {
    forall i, j :: 0 <= i < j < |steps| && steps[i].Connect? && steps[j].Connect? ==> steps[i].socket != steps[j].socket
  }

  // ----- the bare history -----

  /** The user this socket authenticated as. */
  function Owner(steps: seq<Step>, s: Socket): Option<Id> {
    if steps == [] then None
    else if steps[|steps| - 1].Connect? && steps[|steps| - 1].socket == s then steps[|steps| - 1].userId
    else Owner(steps[..|steps| - 1], s)
  }

  /** It has disconnected since. */
  predicate Gone(steps: seq<Step>, s: Socket) {
    steps != [] &&
    var rest, last := steps[..|steps| - 1], steps[|steps| - 1];
    Gone(rest, s) || (last.Disconnect? && last.socket == s && Owner(rest, s).Some?)
  }

  /** What a socket should receive: every delivery addressed to its user while it was connected. */
  function Expected(steps: seq<Step>, s: Socket): seq<Notice> {
    if steps == [] then [] else
      var rest, last := steps[..|steps| - 1], steps[|steps| - 1];
      Expected(rest, s) +
      if last.Deliver? && !Gone(rest, s) && Owner(rest, s).Some? && ConcernsUser(last.envelope, Owner(rest, s).value)
      then [Notice(last.envelope.payload.postId, last.envelope.payload.verdict, last.envelope.payload.categories)]
      else []
  }

  /** A readable verdict on a post of this user. */
  predicate ConcernsUser(e: Envelope, userId: Id) {
    && SupportedEventVersion(e.eventType, e.eventVersion) && ValidCompleted(e.payload)
    && e.payload.authorId == Some(userId) && userId != ""
  }

  // ----- invariants -----

  ghost predicate DataOk(steps: seq<Step>, h: Hub) {
    forall s :: Owner(steps, s) == if s in h.data then Some(h.data[s]) else None
  }

  ghost predicate RegistryOk(steps: seq<Step>, h: Hub) {
    && Tidy(h.registry)
    && forall u, s :: s in Registered(h.registry, u) <==> Owner(steps, s) == Some(u) && (!Gone(steps, s) || u == "")
  }

  lemma {:induction false} FirstConnect(steps: seq<Step>, s: Socket)
    requires forall i :: 0 <= i < |steps| && steps[i].Connect? ==> steps[i].socket != s
    ensures Owner(steps, s).None? && !Gone(steps, s)
  {
    if steps != [] {
      FirstConnect(steps[..|steps| - 1], s);
    }
  }

  /** What one more Connect adds to the history. */
  lemma OwnerAfter(rest: seq<Step>, steps: seq<Step>, socket: Socket, userId: Option<Id>, s: Socket)
    requires steps == rest + [Connect(socket, userId)] && Admissible(steps)
    ensures Owner(steps, s) == if s == socket then userId else Owner(rest, s)
    ensures Gone(steps, s) <==> Gone(rest, s)
    ensures Owner(rest, socket).None? && !Gone(rest, socket)
  {
    assert steps[..|steps| - 1] == rest;
    assert forall i :: 0 <= i < |rest| ==> rest[i] == steps[i];
    assert steps[|rest|] == Connect(socket, userId);
    FirstConnect(rest, socket);
  }

  lemma ConnectKeepsData(rest: seq<Step>, steps: seq<Step>, h: Hub, socket: Socket, userId: Option<Id>)
    requires steps == rest + [Connect(socket, userId)] && Admissible(steps) && DataOk(rest, h)
    ensures DataOk(steps, Do(h, Connect(socket, userId)))
  {
    var h' := Do(h, Connect(socket, userId));
    forall s ensures Owner(steps, s) == if s in h'.data then Some(h'.data[s]) else None {
      OwnerAfter(rest, steps, socket, userId, s);
    }
  }

  lemma ConnectKeepsRegistry(rest: seq<Step>, steps: seq<Step>, h: Hub, socket: Socket, userId: Option<Id>)
    requires steps == rest + [Connect(socket, userId)] && Admissible(steps) && RegistryOk(rest, h)
    ensures RegistryOk(steps, Do(h, Connect(socket, userId)))
  {
    var registry := Do(h, Connect(socket, userId)).registry;
    if userId.Some? {
      RegisterExact(h.registry, userId.value, socket, "", socket);
    }
    forall u, s ensures s in Registered(registry, u) <==> Owner(steps, s) == Some(u) && (!Gone(steps, s) || u == "") {
      OwnerAfter(rest, steps, socket, userId, s);
      if userId.Some? {
        RegisterExact(h.registry, userId.value, socket, u, s);
      }
    }
  }

  lemma DisconnectKeeps(rest: seq<Step>, steps: seq<Step>, h: Hub, socket: Socket)
    requires steps == rest + [Disconnect(socket)]
    requires DataOk(rest, h) && RegistryOk(rest, h)
    ensures DataOk(steps, Do(h, Disconnect(socket))) && RegistryOk(steps, Do(h, Disconnect(socket)))
  {
    assert steps[..|steps| - 1] == rest;
    if socket in h.data && h.data[socket] != "" {
      var userId := h.data[socket];
      assert Tidy(Do(h, Disconnect(socket)).registry) by {
        UnregisterExact(h.registry, userId, socket, "", socket);
      }
      forall u, s
        ensures s in Registered(Parted(h.registry, userId, socket), u) <==>
            Owner(steps, s) == Some(u) && (!Gone(steps, s) || u == "")
      {
        UnregisterExact(h.registry, userId, socket, u, s);
        GoneAfter(rest, steps, socket, s);
      }
    } else {
      forall s
        ensures Owner(steps, s) == Owner(rest, s)
        ensures Gone(steps, s) <==> Gone(rest, s) || (s == socket && Owner(rest, s).Some?)
      {
        GoneAfter(rest, steps, socket, s);
      }
    }
  }

  lemma GoneAfter(rest: seq<Step>, steps: seq<Step>, socket: Socket, s: Socket)
    requires steps == rest + [Disconnect(socket)]
    ensures Owner(steps, s) == Owner(rest, s)
    ensures Gone(steps, s) <==> Gone(rest, s) || (s == socket && Owner(rest, s).Some?)
  {
    assert steps[..|steps| - 1] == rest;
  }

  lemma {:induction false} RunKeeps(steps: seq<Step>)
    requires Admissible(steps)
    ensures DataOk(steps, Run(steps)) && RegistryOk(steps, Run(steps))
  {
    if steps != [] {
      var rest, last := steps[..|steps| - 1], steps[|steps| - 1];
      assert steps == rest + [last];
      RunKeeps(rest);
      match last
      case Connect(socket, userId) =>
        ConnectKeepsData(rest, steps, Run(rest), socket, userId);
        ConnectKeepsRegistry(rest, steps, Run(rest), socket, userId);
      case Disconnect(socket) => DisconnectKeeps(rest, steps, Run(rest), socket);
      case Deliver(e) =>
    }
  }

  // ----- theorems -----

  /** After any history a socket is registered under a user exactly if it authenticated as that user
      and has not disconnected, except that a token naming the empty user id is registered for good:
      the disconnect handler takes an empty id for no id. No user is kept without sockets. */
  lemma RegistryIsHistory(steps: seq<Step>, u: Id, s: Socket)
    requires Admissible(steps)
    ensures s in Registered(Run(steps).registry, u) <==> Owner(steps, s) == Some(u) && (!Gone(steps, s) || u == "")
    ensures u in Run(steps).registry ==> exists t :: t in Registered(Run(steps).registry, u)
  {
    RunKeeps(steps);
    if u in Run(steps).registry {
      assert Run(steps).registry[u][0] in Registered(Run(steps).registry, u);
    }
  }

  /** When a socket connected. */
  function ConnectedAt(steps: seq<Step>, s: Socket): nat {
    if steps == [] || (steps[|steps| - 1].Connect? && steps[|steps| - 1].socket == s) then |steps|
    else ConnectedAt(steps[..|steps| - 1], s)
  }

  ghost predicate InOrder(steps: seq<Step>, sockets: seq<Socket>) {
    forall i, j :: 0 <= i < j < |sockets| ==> ConnectedAt(steps, sockets[i]) < ConnectedAt(steps, sockets[j])
  }

  lemma {:induction false} WithoutInOrder(steps: seq<Step>, sockets: seq<Socket>, socket: Socket)
    requires InOrder(steps, sockets)
    ensures InOrder(steps, Without(sockets, socket))
  {
    if sockets != [] {
      var rest, last := sockets[..|sockets| - 1], sockets[|sockets| - 1];
      WithoutInOrder(steps, rest, socket);
      WithoutExact(rest, socket);
      forall s | s in Without(rest, socket) ensures ConnectedAt(steps, s) < ConnectedAt(steps, last) || last == socket {
        var i :| 0 <= i < |rest| && rest[i] == s;
        assert sockets[i] == s;
      }
    }
  }

  lemma {:induction false} ConnectedInside(steps: seq<Step>, s: Socket)
    ensures ConnectedAt(steps, s) <= |steps|
  {
    if steps != [] {
      ConnectedInside(steps[..|steps| - 1], s);
    }
  }

  lemma JoinedInOrder(rest: seq<Step>, steps: seq<Step>, registry: Registry, socket: Socket, userId: Id, u: Id)
    requires steps == rest + [Connect(socket, Some(userId))] && InOrder(rest, Registered(registry, u))
    requires forall v :: socket !in Registered(registry, v)
    ensures InOrder(steps, Registered(Joined(registry, userId, socket), u))
  {
    assert steps[..|steps| - 1] == rest;
    var before, after := Registered(registry, u), Registered(Joined(registry, userId, socket), u);
    forall i | 0 <= i < |before| ensures ConnectedAt(steps, before[i]) == ConnectedAt(rest, before[i]) <= |rest| {
      assert before[i] in before;
      ConnectedInside(rest, before[i]);
    }
  }

  /** getSockets lists a user's sockets in the order in which they connected, none twice. */
  lemma {:induction false} SocketsInOrder(steps: seq<Step>, u: Id)
    requires Admissible(steps)
    ensures InOrder(steps, Registered(Run(steps).registry, u))
  {
    if steps != [] {
      var rest, last := steps[..|steps| - 1], steps[|steps| - 1];
      assert steps == rest + [last];
      SocketsInOrder(rest, u);
      var before := Registered(Run(rest).registry, u);
      if last.Connect? {
        if last.userId.Some? {
          NewSocket(rest, steps, last.socket, last.userId);
          JoinedInOrder(rest, steps, Run(rest).registry, last.socket, last.userId.value, u);
        } else {
          NewSocket(rest, steps, last.socket, last.userId);
          SameOrder(rest, steps, before);
        }
      } else {
        if last.Disconnect? && last.socket in Run(rest).data && Run(rest).data[last.socket] == u {
          WithoutInOrder(rest, before, last.socket);
        }
        SameOrder(rest, steps, Registered(Run(steps).registry, u));
      }
    }
  }

  lemma NewSocket(rest: seq<Step>, steps: seq<Step>, socket: Socket, userId: Option<Id>)
    requires steps == rest + [Connect(socket, userId)] && Admissible(steps)
    ensures forall v :: socket !in Registered(Run(rest).registry, v)
  {
    OwnerAfter(rest, steps, socket, userId, socket);
    forall v ensures socket !in Registered(Run(rest).registry, v) {
      RegistryIsHistory(rest, v, socket);
    }
  }

  lemma SameOrder(rest: seq<Step>, steps: seq<Step>, sockets: seq<Socket>)
    requires steps != [] && rest == steps[..|steps| - 1] && InOrder(rest, sockets)
    requires steps[|steps| - 1].Connect? ==> steps[|steps| - 1].socket !in sockets
    ensures InOrder(steps, sockets)
  {
    forall i | 0 <= i < |sockets| ensures ConnectedAt(steps, sockets[i]) == ConnectedAt(rest, sockets[i]) {
      assert sockets[i] in sockets;
    }
  }

  /** Every socket receives, in order and once per delivery, exactly the verdicts addressed to its user
      while it was connected. What an empty user id leaves behind in the registry receives nothing. */
  lemma {:induction false} InboxIsHistory(steps: seq<Step>, s: Socket)
    requires Admissible(steps)
    ensures Inbox(Run(steps).inbox, s) == Expected(steps, s)
  {
    if steps != [] {
      var rest, last := steps[..|steps| - 1], steps[|steps| - 1];
      InboxIsHistory(rest, s);
      if last.Deliver? {
        RunKeeps(rest);
        DeliveryReaches(rest, Run(rest), last.envelope, s);
      }
    }
  }

  /** One delivery reaches the socket exactly if it concerns the user it is connected as. */
  lemma DeliveryReaches(rest: seq<Step>, h: Hub, e: Envelope, s: Socket)
    requires RegistryOk(rest, h)
    ensures var reached := !Gone(rest, s) && Owner(rest, s).Some? && ConcernsUser(e, Owner(rest, s).value);
      Inbox(Do(h, Deliver(e)).inbox, s) == Inbox(h.inbox, s) +
        if reached then [Notice(e.payload.postId, e.payload.verdict, e.payload.categories)] else []
  {
    if Addressee(e).Some? {
      var sockets := Registered(h.registry, Addressee(e).value);
      assert Distinct(sockets);
      EmitAllExact(h.inbox, sockets, NoticeOf(e), s);
    }
  }

  // ----- the classes -----

  class SocketRegistry {
    var sockets: Registry

    constructor ()
      ensures sockets == map[]
    {
      sockets := map[];
    }

    method Register(userId: Id, socket: Socket)
      modifies this
      ensures sockets == Joined(old(sockets), userId, socket)
    {
      if userId in sockets {
        if socket !in sockets[userId] {
          sockets := sockets[userId := sockets[userId] + [socket]];
        }
        return;
      }
      sockets := sockets[userId := [socket]];
      assert Registered(old(sockets), userId) + [socket] == [socket];
    }

    method Unregister(userId: Id, socket: Socket)
      modifies this
      ensures sockets == Parted(old(sockets), userId, socket)
    {
      if userId !in sockets {
        return;
      }
      sockets := sockets[userId := Without(sockets[userId], socket)];
      if |sockets[userId]| == 0 {
        sockets := sockets - {userId};
      }
    }

    method GetSockets(userId: Id) returns (found: seq<Socket>)
      ensures found == Registered(sockets, userId)
    {
      found := if userId in sockets then sockets[userId] else [];
    }
  }

  /** The socket server's side of each connection. */
  class SocketServer {
    var data: map<Socket, Id>
    var inbox: map<Socket, seq<Notice>>
    var closed: set<Socket>

    constructor ()
      ensures data == map[] && inbox == map[] && closed == {}
    {
      data, inbox, closed := map[], map[], {};
    }
  }

  ghost function HubOf(registry: SocketRegistry, server: SocketServer): Hub
    reads registry, server
  {
    Hub(registry.sockets, server.data, server.inbox)
  }

  class NotificationsGateway {
    const registry: SocketRegistry
    const server: SocketServer

    constructor (registry: SocketRegistry, server: SocketServer)
      ensures this.registry == registry && this.server == server
    {
      this.registry, this.server := registry, server;
    }

    /** `userId` is what the token in the handshake verifies to; None if it is missing or invalid. */
    method HandleConnection(client: Socket, userId: Option<Id>)
      modifies registry, server
      ensures HubOf(registry, server) == Do(old(HubOf(registry, server)), Connect(client, userId))
      ensures server.closed == old(server.closed) + if userId.None? then {client} else {}
    {
      if userId.None? {
        server.closed := server.closed + {client};
        return;
      }
      server.data := server.data[client := userId.value];
      registry.Register(userId.value, client);
    }

    method HandleDisconnect(client: Socket)
      modifies registry
      ensures HubOf(registry, server) == Do(old(HubOf(registry, server)), Disconnect(client))
    {
      if client in server.data && server.data[client] != "" {
        registry.Unregister(server.data[client], client);
      }
    }
  }

  class ModerationPushService {
    const registry: SocketRegistry
    const server: SocketServer

    constructor (registry: SocketRegistry, server: SocketServer)
      ensures this.registry == registry && this.server == server
    {
      this.registry, this.server := registry, server;
    }

    /** Throws, so that the offset stays, exactly for a supported event with an invalid payload. */
    method Handle(e: Envelope) returns (ending: Ending)
      modifies server
      ensures HubOf(registry, server) == Do(old(HubOf(registry, server)), Deliver(e))
      ensures server.closed == old(server.closed)
      ensures ending.Throws? <==> SupportedEventVersion(e.eventType, e.eventVersion) && !ValidCompleted(e.payload)
    {
      if !SupportedEventVersion(e.eventType, e.eventVersion) {
        return Returns;
      }
      if !ValidCompleted(e.payload) {
        return Throws;
      }
      if e.payload.authorId.None? || e.payload.authorId.value == "" {
        return Returns;
      }
      var sockets := registry.GetSockets(e.payload.authorId.value);
      if |sockets| == 0 {
        return Returns;
      }
      ghost var before := server.inbox;
      for i := 0 to |sockets|
        invariant server.inbox == EmitAll(before, sockets[..i], NoticeOf(e))
        invariant server.data == old(server.data) && server.closed == old(server.closed)
      {
        assert sockets[..i + 1][..i] == sockets[..i];
        server.inbox := Emit(server.inbox, sockets[i],
                             Notice(e.payload.postId, e.payload.verdict, e.payload.categories));
      }
      assert sockets[..|sockets|] == sockets;
      return Returns;
    }
  }
}
