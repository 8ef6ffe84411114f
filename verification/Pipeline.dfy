/** The whole pipeline: the content database with its relays, the AI worker, both brokers and the
    notification service. Brokers redeliver at will: an envelope a broker ever accepted may reach its
    consumer any number of times, at any later moment. The theorems say where every event comes from. */
module Pipeline {
  import opened Prelude
  import opened Messages
  import Content
  import Outbox

  type Socket = nat

  /** A verdict the AI worker published, and the job it was computed for. */
  datatype Result = Result(envelope: Envelope, job: Envelope)

  datatype Emit = Emit(socket: Socket, userId: Id, payload: Payload)

  /** `owner` is history: the user each socket authenticated as when it connected. */
  datatype World = World(
    content: Content.State,
    results: seq<Result>,
    owner: map<Socket, Id>,
    registry: map<Id, set<Socket>>,
    emits: seq<Emit>)

  datatype Step =
    | Content(step: Content.Step)
    | AiRun(job: Envelope, messageId: Id, verdict: Verdict, categories: seq<string>, at: int)
    | Connect(userId: Id, socket: Socket)
    | Disconnect(userId: Id, socket: Socket)
    | Push(event: Envelope, sockets: seq<Socket>)

  const START := World(Content.EMPTY, [], map[], map[], [])

  /** The broker behind this route accepted the envelope at some time. */
  ghost predicate Accepted(w: World, envelope: Envelope, route: Route) {
    exists d :: d in w.content.outbox.log && d.envelope == envelope && d.route == route
  }

  const JOB_ROUTE := Route(RabbitMq, JOB_QUEUE)
  const EVENT_ROUTE := Route(Kafka, COMPLETED_TOPIC)

  /** The envelope the AI worker publishes for a job. */
  function ResultOf(job: Envelope, messageId: Id, verdict: Verdict, categories: seq<string>, at: int): Envelope
    requires job.payload.Job?
  {
    Envelope(messageId, job.correlationId, COMPLETED_EVENT, 1, at, "ai-processing-service",
             Completed(job.payload.postId, verdict, categories, None))
  }

  function Sockets(w: World, userId: Id): set<Socket> {
    if userId in w.registry then w.registry[userId] else {}
  }

  ghost predicate Can(w: World, step: Step) {
    match step
    case Content(step) =>
      && Content.Can(w.content, step)
      && (step.Verdict? ==> exists r :: r in w.results && r.envelope == step.result)
    case AiRun(job, messageId, _, _, _) =>
      && Accepted(w, job, JOB_ROUTE)
      && SupportedEventVersion(job.eventType, job.eventVersion) && ValidJob(job.payload)
      && (forall r :: r in w.results ==> r.envelope.messageId != messageId)
    case Connect(_, socket) => socket !in w.owner
    case Disconnect(_, _) => true
    case Push(event, sockets) =>
      && Accepted(w, event, EVENT_ROUTE)
      && SupportedEventVersion(event.eventType, event.eventVersion) && ValidCompleted(event.payload)
      && event.payload.authorId.Some?
      && Distinct(sockets) && Elements(sockets) == Sockets(w, event.payload.authorId.value)
  }

  function EmitsOf(event: Envelope, sockets: seq<Socket>): seq<Emit>
    requires event.payload.Completed? && event.payload.authorId.Some?
  {
    seq(|sockets|, i requires 0 <= i < |sockets| => Emit(sockets[i], event.payload.authorId.value, event.payload))
  }

  ghost function Do(w: World, step: Step): World
    requires Can(w, step)
  {
    match step
    case Content(step) => w.(content := Content.Do(w.content, step))
    case AiRun(job, messageId, verdict, categories, at) =>
      w.(results := w.results + [Result(ResultOf(job, messageId, verdict, categories, at), job)])
    case Connect(userId, socket) =>
      w.(owner := w.owner[socket := userId], registry := w.registry[userId := Sockets(w, userId) + {socket}])
    case Disconnect(userId, socket) =>
      w.(registry := w.registry[userId := Sockets(w, userId) - {socket}])
    case Push(event, sockets) => w.(emits := w.emits + EmitsOf(event, sockets))
  }

  ghost predicate Admissible(w: World, steps: seq<Step>)
    decreases |steps|
  {
    steps == [] || (Can(w, steps[0]) && Admissible(Do(w, steps[0]), steps[1..]))
  }

  ghost function Exec(w: World, steps: seq<Step>): World
    requires Admissible(w, steps)
    decreases |steps|
  {
    if steps == [] then w else Exec(Do(w, steps[0]), steps[1..])
  }

  // ----- invariants -----

  /** What a broker accepted is a row, envelope for envelope, on the route of its type. */
  ghost predicate FromRow(rows: map<Id, Outbox.Row>, d: Outbox.Delivery) {
    && d.envelope.messageId in rows
    && Outbox.EnvelopeOf(d.envelope.messageId, rows[d.envelope.messageId]) == d.envelope
    && d.envelope.eventType in RELAY_ROUTING && d.route == RELAY_ROUTING[d.envelope.eventType]
  }

  ghost predicate LogOk(o: Outbox.State) {
    forall d :: d in o.log ==> FromRow(o.rows, d)
  }

  /** A result is what the worker computes for the job row of a created post. */
  ghost predicate ResultOk(created: map<Id, Content.Creation>, r: Result) {
    && r.job.payload.Job?
    && r.job.payload.postId in created
    && created[r.job.payload.postId].rowId == r.job.messageId
    && created[r.job.payload.postId].correlationId == r.job.correlationId
    && created[r.job.payload.postId].content == r.job.payload.content
    && r.envelope.payload.Completed?
    && r.envelope.payload.postId == r.job.payload.postId
    && r.envelope.correlationId == r.job.correlationId
    && r.job == JobOf(r.job.payload.postId, created[r.job.payload.postId])
  }

  /** The job a creation asks for, as its envelope on the queue. */
  function JobOf(postId: Id, c: Content.Creation): Envelope {
    Envelope(c.rowId, c.correlationId, "moderation.job", 1, c.at, "content-service", Job(postId, c.content))
  }

  ghost predicate ResultsOk(w: World) {
    && (forall r :: r in w.results ==> ResultOk(w.content.created, r))
    && (forall a :: a in w.content.applied ==> exists r :: r in w.results && r.envelope == a.result)
  }

  ghost predicate SocketsOk(w: World) {
    && (forall u, s :: u in w.registry && s in w.registry[u] ==> s in w.owner && w.owner[s] == u)
    && (forall e :: e in w.emits ==> EmitOk(w, e))
  }

  ghost predicate EmitOk(w: World, e: Emit) {
    && e.payload.Completed?
    && e.socket in w.owner && w.owner[e.socket] == e.userId
    && e.payload.postId in w.content.created && w.content.created[e.payload.postId].authorId == e.userId
  }

  ghost predicate Inv(w: World) {
    Content.Inv(w.content) && LogOk(w.content.outbox) && ResultsOk(w) && SocketsOk(w)
  }

  lemma RelayKeepsLog(o: Outbox.State, step: Outbox.Step)
    requires Outbox.Inv(o) && LogOk(o) && Outbox.Can(o, step)
    ensures LogOk(Outbox.Do(o, step))
  {
    var o' := Outbox.Do(o, step);
    Outbox.LogOfStep(o, step);
    forall d | d in o'.log ensures FromRow(o'.rows, d) {
      if d in o.log {
        assert FromRow(o.rows, d);
      } else if !step.Late? {
        assert d in Outbox.Sends(o, step);
        assert Outbox.TxLocks(o.rows, o.txs[step.poll]);
      }
    }
  }

  lemma ContentKeepsLog(c: Content.State, step: Content.Step)
    requires Content.Inv(c) && LogOk(c.outbox) && Content.Can(c, step)
    ensures LogOk(Content.Do(c, step).outbox)
  {
    match step {
      case Create(postId, creation) =>
        RelayKeepsLog(c.outbox, Outbox.Step.Insert(creation.rowId, Content.JobRow(postId, creation)));
      case Verdict(result, rowId, at) =>
        if Content.OutcomeOf(c, result).Takes? {
          var a := Content.Applied(result, rowId, c.posts[result.payload.postId].authorId, at);
          RelayKeepsLog(c.outbox, Outbox.Step.Insert(rowId, Content.CompletedRow(a)));
        }
      case Relay(step) => RelayKeepsLog(c.outbox, step);
      case _ =>
    }
  }

  /** Content steps only ever add creations, and add applied verdicts only by `Verdict`. */
  lemma ContentGrows(c: Content.State, step: Content.Step)
    requires Content.Can(c, step)
    ensures var c' := Content.Do(c, step);
      && (forall p :: p in c.created ==> p in c'.created && c'.created[p] == c.created[p])
      && (forall a :: a in c'.applied ==> a in c.applied || (step.Verdict? && a.result == step.result))
  {
  }

  lemma ContentKeepsInv(w: World, step: Content.Step)
    requires Inv(w) && Can(w, Step.Content(step))
    ensures Inv(Do(w, Step.Content(step)))
  {
    var w' := Do(w, Step.Content(step));
    Content.StepKeepsInv(w.content, step);
    ContentKeepsLog(w.content, step);
    ContentGrows(w.content, step);
    forall r | r in w'.results ensures ResultOk(w'.content.created, r) {
      assert ResultOk(w.content.created, r);
    }
    forall e | e in w'.emits ensures EmitOk(w', e) {
      assert EmitOk(w, e);
    }
  }

  /** A job that reached the worker is the job row of a created post. */
  lemma JobOrigin(c: Content.State, d: Outbox.Delivery)
    requires Content.Inv(c) && LogOk(c.outbox) && d in c.outbox.log && d.route == JOB_ROUTE && d.envelope.payload.Job?
    ensures var p := d.envelope.payload.postId;
      && p in c.created && c.created[p].rowId == d.envelope.messageId
      && c.created[p].correlationId == d.envelope.correlationId
      && c.created[p].content == d.envelope.payload.content
      && d.envelope == JobOf(p, c.created[p])
  {
    assert FromRow(c.outbox.rows, d);
    var row := c.outbox.rows[d.envelope.messageId];
    assert RELAY_ROUTING[COMPLETED_EVENT] == EVENT_ROUTE && EVENT_ROUTE != JOB_ROUTE;
    assert row.eventType == JOB_EVENT && row.payload == d.envelope.payload;
    var creation := c.created[row.payload.postId];
    assert Content.JobWritten(c.outbox.rows, row.payload.postId, creation);
  }

  lemma AiRunKeepsInv(w: World, step: Step)
    requires Inv(w) && Can(w, step) && step.AiRun?
    ensures Inv(Do(w, step))
  {
    var w' := Do(w, step);
    var d :| d in w.content.outbox.log && d.envelope == step.job && d.route == JOB_ROUTE;
    JobOrigin(w.content, d);
    AddedResult(w, w', w'.results[|w.results|]);
  }

  lemma AddedResult(w: World, w': World, last: Result)
    requires ResultsOk(w) && SocketsOk(w) && ResultOk(w.content.created, last)
    requires w' == w.(results := w.results + [last])
    ensures ResultsOk(w') && SocketsOk(w')
  {
    forall a | a in w'.content.applied ensures exists r :: r in w'.results && r.envelope == a.result {
      var r :| r in w.results && r.envelope == a.result;
      assert r in w'.results;
    }
    forall e | e in w'.emits ensures EmitOk(w', e) {
      assert EmitOk(w, e);
    }
  }

  ghost predicate IsEventOf(c: Content.State, a: Content.Applied, event: Envelope) {
    && a in c.applied && a.result.payload.Completed?
    && event == Outbox.EnvelopeOf(a.rowId, Content.CompletedRow(a))
    && a.result.payload.postId in c.created && c.created[a.result.payload.postId].authorId == a.authorId
  }

  /** An event on the Kafka topic is the row of an applied verdict, and carries its post's author. */
  lemma EventOrigin(c: Content.State, d: Outbox.Delivery)
    requires Content.Inv(c) && LogOk(c.outbox) && d in c.outbox.log && d.route == EVENT_ROUTE
    ensures exists a :: IsEventOf(c, a, d.envelope)
  {
    assert FromRow(c.outbox.rows, d);
    var id := d.envelope.messageId;
    assert RELAY_ROUTING[JOB_EVENT] == JOB_ROUTE && EVENT_ROUTE != JOB_ROUTE;
    assert id in Content.CompletedRows(c.outbox.rows);
    var k :| 0 <= k < |c.applied| && Content.RowIds(c.applied)[k] == id;
    assert c.applied[k] in c.applied && Content.AppliedOk(c.applied[k], c.outbox.rows, c.created);
    assert IsEventOf(c, c.applied[k], d.envelope);
  }

  lemma PushKeepsInv(w: World, step: Step)
    requires Inv(w) && Can(w, step) && step.Push?
    ensures Inv(Do(w, step))
  {
    var w' := Do(w, step);
    var d :| d in w.content.outbox.log && d.envelope == step.event && d.route == EVENT_ROUTE;
    EventOrigin(w.content, d);
    var a :| IsEventOf(w.content, a, step.event);
    PushKeepsSockets(w, w', step.event, step.sockets, a);
  }

  lemma PushKeepsSockets(w: World, w': World, event: Envelope, sockets: seq<Socket>, a: Content.Applied)
    requires SocketsOk(w) && IsEventOf(w.content, a, event)
    requires event.payload.authorId.Some? && Elements(sockets) == Sockets(w, event.payload.authorId.value)
    requires w' == w.(emits := w.emits + EmitsOf(event, sockets))
    ensures SocketsOk(w')
  {
    forall e | e in w'.emits ensures EmitOk(w', e) {
      if e in w.emits {
        assert EmitOk(w, e);
      } else {
        assert e.socket in Elements(sockets);
      }
    }
  }

  lemma SocketStepKeepsInv(w: World, step: Step)
    requires Inv(w) && Can(w, step) && (step.Connect? || step.Disconnect?)
    ensures Inv(Do(w, step))
  {
    var w' := Do(w, step);
    forall e | e in w'.emits ensures EmitOk(w', e) {
      assert EmitOk(w, e);
    }
  }

  lemma StepKeepsInv(w: World, step: Step)
    requires Inv(w) && Can(w, step)
    ensures Inv(Do(w, step))
  {
    match step {
      case Content(step) => ContentKeepsInv(w, step);
      case AiRun(_, _, _, _, _) => AiRunKeepsInv(w, step);
      case Connect(_, _) => SocketStepKeepsInv(w, step);
      case Disconnect(_, _) => SocketStepKeepsInv(w, step);
      case Push(_, _) => PushKeepsInv(w, step);
    }
  }

  lemma {:induction false} RunKeepsInv(w: World, steps: seq<Step>)
    requires Inv(w) && Admissible(w, steps)
    ensures Inv(Exec(w, steps))
    decreases |steps|
  {
    if steps != [] {
      StepKeepsInv(w, steps[0]);
      RunKeepsInv(Do(w, steps[0]), steps[1..]);
    }
  }

  lemma StartInv()
    ensures Inv(START)
  {
    Content.EmptyInv();
  }

  // ----- provenance -----

  /** The chain behind one Kafka event: the outbox row is `a`'s, `a` applied the result `r`, `r` was
      computed for the job row of post `p`, and all of them carry that creation's ids. */
  ghost predicate Traced(w: World, event: Envelope, a: Content.Applied, r: Result, p: Id) {
    && a in w.content.applied && a.rowId == event.messageId
    && a.result.messageId in w.content.processed
    && r in w.results && r.envelope == a.result
    && p in w.content.created
    && r.job.messageId == w.content.created[p].rowId
    && event.correlationId == r.envelope.correlationId == r.job.correlationId == w.content.created[p].correlationId
    && event.payload.Completed? && r.envelope.payload.Completed?
    && event.payload.postId == r.envelope.payload.postId == p
    && event.payload.verdict == r.envelope.payload.verdict
    && event.payload.categories == r.envelope.payload.categories
    && event.payload.authorId == Some(w.content.created[p].authorId)
    && event.eventType == "moderation.completed" && event.eventVersion == 1 && event.source == "content-service"
    && event.occurredAt == a.at && r.job == JobOf(p, w.content.created[p])
  }

  /** In every reachable world, every event Kafka accepted can be traced back to one creation. */
  lemma EventsAreTraced(steps: seq<Step>, event: Envelope)
    requires Admissible(START, steps) && Accepted(Exec(START, steps), event, EVENT_ROUTE)
    ensures exists a, r, p :: Traced(Exec(START, steps), event, a, r, p)
  {
    StartInv();
    RunKeepsInv(START, steps);
    EventIsTraced(Exec(START, steps), event);
  }

  lemma EventIsTraced(w: World, event: Envelope)
    requires Inv(w) && Accepted(w, event, EVENT_ROUTE)
    ensures exists a, r, p :: Traced(w, event, a, r, p)
  {
    var c := w.content;
    var d :| d in c.outbox.log && d.envelope == event && d.route == EVENT_ROUTE;
    EventOrigin(c, d);
    var a :| IsEventOf(c, a, event);
    var r :| r in w.results && r.envelope == a.result;
    assert ResultOk(c.created, r);
    var k :| 0 <= k < |c.applied| && c.applied[k] == a;
    assert Content.MessageIds(c.applied)[k] == a.result.messageId;
    assert Traced(w, event, a, r, a.result.payload.postId);
  }

  /** A message id never carries two different events, whatever is republished: what the analytics
      recount relies on. */
  lemma EventIdsAreConsistent(steps: seq<Step>, e: Envelope, f: Envelope)
    requires Admissible(START, steps)
    requires Accepted(Exec(START, steps), e, EVENT_ROUTE) && Accepted(Exec(START, steps), f, EVENT_ROUTE)
    requires e.messageId == f.messageId
    ensures e == f
  {
    StartInv();
    RunKeepsInv(START, steps);
    var o := Exec(START, steps).content.outbox;
    var d :| d in o.log && d.envelope == e && d.route == EVENT_ROUTE;
    var g :| g in o.log && g.envelope == f && g.route == EVENT_ROUTE;
    assert FromRow(o.rows, d) && FromRow(o.rows, g);
  }

  /** The pairing is one to one: an outbox row belongs to one applied result, and a result is
      applied under one row. */
  lemma PairingIsOneToOne(steps: seq<Step>, a: Content.Applied, b: Content.Applied)
    requires Admissible(START, steps)
    requires a in Exec(START, steps).content.applied && b in Exec(START, steps).content.applied
    ensures a.rowId == b.rowId <==> a.result.messageId == b.result.messageId
    ensures a.rowId == b.rowId <==> a == b
  {
    StartInv();
    RunKeepsInv(START, steps);
    AppliedUnique(Exec(START, steps).content, a, b);
  }

  lemma AppliedUnique(c: Content.State, a: Content.Applied, b: Content.Applied)
    requires Content.Inv(c) && a in c.applied && b in c.applied
    ensures a.rowId == b.rowId <==> a.result.messageId == b.result.messageId
    ensures a.rowId == b.rowId <==> a == b
  {
    var i :| 0 <= i < |c.applied| && c.applied[i] == a;
    var j :| 0 <= j < |c.applied| && c.applied[j] == b;
    assert Content.RowIds(c.applied)[i] == a.rowId && Content.RowIds(c.applied)[j] == b.rowId;
    assert Content.MessageIds(c.applied)[i] == a.result.messageId
        && Content.MessageIds(c.applied)[j] == b.result.messageId;
  }

  /** No user is ever sent a verdict on somebody else's post: every socket that received one had
      authenticated as the author the post was created by. */
  lemma EmitsReachTheAuthor(steps: seq<Step>, e: Emit)
    requires Admissible(START, steps) && e in Exec(START, steps).emits
    ensures var w := Exec(START, steps);
      && e.payload.Completed? && e.payload.postId in w.content.created
      && e.socket in w.owner && w.owner[e.socket] == w.content.created[e.payload.postId].authorId
  {
    StartInv();
    RunKeepsInv(START, steps);
    assert EmitOk(Exec(START, steps), e);
  }

  // ----- results and emits, read off the history -----

  /** Step i is the worker's run that computed this result, with the verdict and the categories it found. */
  ghost predicate ComputedBy(steps: seq<Step>, i: int, r: Result) {
    && 0 <= i < |steps| && steps[i].AiRun? && r.job == steps[i].job && r.job.payload.Job?
    && r.envelope == Envelope(
         steps[i].messageId, r.job.correlationId, "moderation.completed", 1, steps[i].at, "ai-processing-service",
         Completed(r.job.payload.postId, steps[i].verdict, steps[i].categories, None))
  }

  ghost predicate Computed(steps: seq<Step>, r: Result) {
    exists i :: ComputedBy(steps, i, r)
  }

  lemma ComputedTail(steps: seq<Step>, r: Result)
    requires steps != []
    ensures Computed(steps, r) <==> ComputedBy(steps, 0, r) || Computed(steps[1..], r)
  {
    if i :| ComputedBy(steps, i, r) {
      assert i > 0 ==> ComputedBy(steps[1..], i - 1, r);
    }
    if i :| ComputedBy(steps[1..], i, r) {
      assert ComputedBy(steps, i + 1, r);
    }
  }

  lemma {:induction false} ResultsFollow(w: World, steps: seq<Step>, r: Result)
    requires Admissible(w, steps)
    ensures r in Exec(w, steps).results <==> r in w.results || Computed(steps, r)
    decreases |steps|
  {
    if steps != [] {
      ResultsFollow(Do(w, steps[0]), steps[1..], r);
      ComputedTail(steps, r);
    }
  }

  /** The results are exactly what the worker's runs computed: each carries the verdict and the categories of
      its run, and the ids of the job it was for. */
  lemma ResultsAreRuns(steps: seq<Step>, r: Result)
    requires Admissible(START, steps)
    ensures r in Exec(START, steps).results <==> exists i :: ComputedBy(steps, i, r)
  {
    ResultsFollow(START, steps, r);
  }

  /** Step i pushes this to the socket. */
  ghost predicate PushedBy(steps: seq<Step>, i: int, e: Emit) {
    && 0 <= i < |steps| && steps[i].Push? && e.socket in steps[i].sockets
    && e.payload == steps[i].event.payload && e.payload.Completed? && e.payload.authorId == Some(e.userId)
  }

  ghost predicate Pushed(steps: seq<Step>, e: Emit) {
    exists i :: PushedBy(steps, i, e)
  }

  lemma PushedTail(steps: seq<Step>, e: Emit)
    requires steps != []
    ensures Pushed(steps, e) <==> PushedBy(steps, 0, e) || Pushed(steps[1..], e)
  {
    if i :| PushedBy(steps, i, e) {
      assert i > 0 ==> PushedBy(steps[1..], i - 1, e);
    }
    if i :| PushedBy(steps[1..], i, e) {
      assert PushedBy(steps, i + 1, e);
    }
  }

  lemma EmitsOfPush(event: Envelope, sockets: seq<Socket>, e: Emit)
    requires event.payload.Completed? && event.payload.authorId.Some?
    ensures e in EmitsOf(event, sockets) <==>
        e.socket in sockets && e.payload == event.payload && Some(e.userId) == event.payload.authorId
  {
    if e.socket in sockets && e.payload == event.payload && Some(e.userId) == event.payload.authorId {
      var i :| 0 <= i < |sockets| && sockets[i] == e.socket;
      assert EmitsOf(event, sockets)[i] == e;
    }
  }

  lemma {:induction false} EmitsFollow(w: World, steps: seq<Step>, e: Emit)
    requires Admissible(w, steps)
    ensures e in Exec(w, steps).emits <==> e in w.emits || Pushed(steps, e)
    decreases |steps|
  {
    if steps != [] {
      if steps[0].Push? {
        EmitsOfPush(steps[0].event, steps[0].sockets, e);
      }
      EmitsFollow(Do(w, steps[0]), steps[1..], e);
      PushedTail(steps, e);
    }
  }

  /** The emits are exactly the pushed events, payload for payload, one for each socket listed. */
  lemma EmitsArePushes(steps: seq<Step>, e: Emit)
    requires Admissible(START, steps)
    ensures e in Exec(START, steps).emits <==> exists i :: PushedBy(steps, i, e)
  {
    EmitsFollow(START, steps, e);
  }
}
