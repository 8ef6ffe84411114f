/** The content service's database: posts, the outbox with its relays, and the dedupe table of the
    verdict consumer. One step is one committed transaction, or one step of a relay poll.
    `created` and `applied` are history: what was ever created, and every verdict that took effect. */
module Content {
  import opened Prelude
  import opened Messages
  import Outbox

  datatype Status = Pending | Approved | Rejected

  datatype Post = Post(authorId: Id, content: string, status: Status)

  /** A post creation: the outbox row it wrote and what it was created with. */
  datatype Creation = Creation(rowId: Id, authorId: Id, content: string, correlationId: Id, at: int)

  /** A verdict that took effect: the result envelope, the outbox row it wrote, the author it found. */
  datatype Applied = Applied(result: Envelope, rowId: Id, authorId: Id, at: int)

  datatype State = State(
    posts: map<Id, Post>,
    outbox: Outbox.State,
    processed: set<Id>,
    created: map<Id, Creation>,
    applied: seq<Applied>)

  datatype Step =
    | Create(postId: Id, creation: Creation)
    | Update(postId: Id, authorId: Id, content: string)
    | Remove(postId: Id, authorId: Id)
    | Verdict(result: Envelope, rowId: Id, at: int)
    | Relay(step: Outbox.Step)

  const EMPTY := State(map[], Outbox.EMPTY, {}, map[], [])

  const SOURCE := "content-service"

  function JobRow(postId: Id, c: Creation): Outbox.Row {
    Outbox.Row(c.correlationId, JOB_EVENT, 1, SOURCE, c.at, Job(postId, c.content), None, 0, None)
  }

  function CompletedRow(a: Applied): Outbox.Row
    requires a.result.payload.Completed?
  {
    var p := a.result.payload;
    Outbox.Row(a.result.correlationId, COMPLETED_EVENT, 1, SOURCE, a.at,
               Completed(p.postId, p.verdict, p.categories, Some(a.authorId)), None, 0, None)
  }

  function StatusOf(verdict: Messages.Verdict): Status {
    match verdict
    case Approved => Status.Approved
    case Rejected => Status.Rejected
  }

  /** How the verdict consumer ends: `Throws` sends the delivery to the retry cycle. */
  datatype Outcome = Takes | Duplicate | Throws

  function OutcomeOf(s: State, result: Envelope): Outcome {
    if !SupportedEventVersion(result.eventType, result.eventVersion) then Outcome.Throws
    else if !ValidCompleted(result.payload) then Outcome.Throws
    else if result.messageId in s.processed then Duplicate
    else if result.payload.postId !in s.posts then Outcome.Throws
    else Takes
  }

  ghost predicate Can(s: State, step: Step) {
    match step
    case Create(postId, c) => postId !in s.created && c.rowId !in s.outbox.rows
    case Update(_, _, _) => true
    case Remove(_, _) => true
    case Verdict(_, rowId, _) => rowId !in s.outbox.rows
    case Relay(step) => !step.Insert? && Outbox.Can(s.outbox, step)
  }

  predicate Owned(s: State, postId: Id, authorId: Id) {
    postId in s.posts && s.posts[postId].authorId == authorId
  }

  ghost function Do(s: State, step: Step): State
    requires Can(s, step)
  {
    match step
    case Create(postId, c) =>
      s.(posts := s.posts[postId := Post(c.authorId, c.content, Pending)],
         outbox := Outbox.Do(s.outbox, Outbox.Step.Insert(c.rowId, JobRow(postId, c))),
         created := s.created[postId := c])
    case Update(postId, authorId, content) =>
      if Owned(s, postId, authorId) then s.(posts := s.posts[postId := s.posts[postId].(content := content)]) else s
    case Remove(postId, authorId) =>
      if Owned(s, postId, authorId) then s.(posts := s.posts - {postId}) else s
    case Verdict(result, rowId, at) =>
      if !OutcomeOf(s, result).Takes? then s else
        var postId := result.payload.postId;
        var a := Applied(result, rowId, s.posts[postId].authorId, at);
        s.(posts := s.posts[postId := s.posts[postId].(status := StatusOf(result.payload.verdict))],
           outbox := Outbox.Do(s.outbox, Outbox.Step.Insert(rowId, CompletedRow(a))),
           processed := s.processed + {result.messageId},
           applied := s.applied + [a])
    case Relay(step) => s.(outbox := Outbox.Do(s.outbox, step))
  }

  ghost predicate Admissible(s: State, steps: seq<Step>)
    decreases |steps|
  {
    steps == [] || (Can(s, steps[0]) && Admissible(Do(s, steps[0]), steps[1..]))
  }

  ghost function Exec(s: State, steps: seq<Step>): State
    requires Admissible(s, steps)
    decreases |steps|
  {
    if steps == [] then s else Exec(Do(s, steps[0]), steps[1..])
  }

  // ----- what every step keeps -----

  function MessageIds(applied: seq<Applied>): seq<Id> {
    seq(|applied|, i requires 0 <= i < |applied| => applied[i].result.messageId)
  }

  function RowIds(applied: seq<Applied>): seq<Id> {
    seq(|applied|, i requires 0 <= i < |applied| => applied[i].rowId)
  }

  function CompletedRows(rows: map<Id, Outbox.Row>): set<Id> {
    set id | id in rows && rows[id].eventType == COMPLETED_EVENT
  }

  function JobRows(rows: map<Id, Outbox.Row>, postId: Id): set<Id> {
    set id | id in rows && rows[id].eventType == JOB_EVENT && rows[id].payload.Job? && rows[id].payload.postId == postId
  }

  /** The verdict last applied to a post, `Pending` if there is none. */
  function LastStatus(applied: seq<Applied>, postId: Id): Status {
    if applied == [] then Pending else
      var a := applied[|applied| - 1];
      if a.result.payload.Completed? && a.result.payload.postId == postId then StatusOf(a.result.payload.verdict)
      else LastStatus(applied[..|applied| - 1], postId)
  }

  ghost predicate PostsOk(posts: map<Id, Post>, created: map<Id, Creation>, applied: seq<Applied>) {
    forall p :: p in posts ==>
      p in created && posts[p].authorId == created[p].authorId && posts[p].status == LastStatus(applied, p)
  }

  ghost predicate JobWritten(rows: map<Id, Outbox.Row>, postId: Id, c: Creation) {
    c.rowId in rows && Outbox.EnvelopeOf(c.rowId, rows[c.rowId]) == Outbox.EnvelopeOf(c.rowId, JobRow(postId, c))
  }

  ghost predicate JobsOk(rows: map<Id, Outbox.Row>, created: map<Id, Creation>) {
    && (forall p :: p in created ==> JobWritten(rows, p, created[p]))
    && (forall id :: id in rows && rows[id].eventType == JOB_EVENT ==>
          rows[id].payload.Job? && rows[id].payload.postId in created && created[rows[id].payload.postId].rowId == id)
  }

  ghost predicate AppliedOk(a: Applied, rows: map<Id, Outbox.Row>, created: map<Id, Creation>) {
    && ValidCompleted(a.result.payload)
    && a.rowId in rows
    && Outbox.EnvelopeOf(a.rowId, rows[a.rowId]) == Outbox.EnvelopeOf(a.rowId, CompletedRow(a))
    && a.result.payload.postId in created && created[a.result.payload.postId].authorId == a.authorId
  }

  ghost predicate VerdictsOk(s: State) {
    && Distinct(MessageIds(s.applied)) && Distinct(RowIds(s.applied))
    && s.processed == Elements(MessageIds(s.applied))
    && CompletedRows(s.outbox.rows) == Elements(RowIds(s.applied))
    && (forall a :: a in s.applied ==> AppliedOk(a, s.outbox.rows, s.created))
  }

  ghost predicate Inv(s: State) {
    && Outbox.Inv(s.outbox)
    && PostsOk(s.posts, s.created, s.applied)
    && JobsOk(s.outbox.rows, s.created)
    && VerdictsOk(s)
    && (forall id :: id in s.outbox.rows ==> s.outbox.rows[id].eventType in {JOB_EVENT, COMPLETED_EVENT})
  }

  /** A relay step changes no row's envelope. */
  lemma RelayKeepsEnvelopes(o: Outbox.State, step: Outbox.Step)
    requires Outbox.Can(o, step) && !step.Insert?
    ensures var o' := Outbox.Do(o, step);
      o'.rows.Keys == o.rows.Keys && forall id :: id in o.rows ==>
          Outbox.EnvelopeOf(id, o'.rows[id]) == Outbox.EnvelopeOf(id, o.rows[id])
  {
  }

  lemma RelayKeepsInv(s: State, step: Outbox.Step)
    requires Inv(s) && Can(s, Relay(step))
    ensures Inv(Do(s, Relay(step)))
  {
    var s' := Do(s, Relay(step));
    Outbox.StepKeepsInv(s.outbox, step);
    RelayKeepsEnvelopes(s.outbox, step);
    SameEnvelopesKeepInv(s, s');
  }

  lemma SameEnvelopesKeepInv(s: State, s': State)
    requires Inv(s) && Outbox.Inv(s'.outbox) && s' == s.(outbox := s'.outbox)
    requires s'.outbox.rows.Keys == s.outbox.rows.Keys
    requires forall id :: id in s.outbox.rows ==>
        Outbox.EnvelopeOf(id, s'.outbox.rows[id]) == Outbox.EnvelopeOf(id, s.outbox.rows[id])
    ensures Inv(s')
  {
    var rows, rows' := s.outbox.rows, s'.outbox.rows;
    SameEnvelopes(rows, rows');
    SameJobs(rows, rows', s.created);
    forall a | a in s.applied ensures AppliedOk(a, rows', s.created) {
      assert AppliedOk(a, rows, s.created);
    }
  }

  lemma SameEnvelopes(rows: map<Id, Outbox.Row>, rows': map<Id, Outbox.Row>)
    requires rows'.Keys == rows.Keys
    requires forall id :: id in rows ==> Outbox.EnvelopeOf(id, rows'[id]) == Outbox.EnvelopeOf(id, rows[id])
    ensures forall id :: id in rows ==>
        rows'[id].eventType == rows[id].eventType && rows'[id].payload == rows[id].payload
    ensures CompletedRows(rows') == CompletedRows(rows)
  {
    forall id | id in rows
      ensures rows'[id].eventType == rows[id].eventType && rows'[id].payload == rows[id].payload
    {
      assert Outbox.EnvelopeOf(id, rows'[id]).eventType == rows'[id].eventType;
    }
  }

  lemma SameJobs(rows: map<Id, Outbox.Row>, rows': map<Id, Outbox.Row>, created: map<Id, Creation>)
    requires JobsOk(rows, created) && rows'.Keys == rows.Keys
    requires forall id :: id in rows ==>
        rows'[id].eventType == rows[id].eventType && rows'[id].payload == rows[id].payload
    requires forall id :: id in rows ==> Outbox.EnvelopeOf(id, rows'[id]) == Outbox.EnvelopeOf(id, rows[id])
    ensures JobsOk(rows', created)
  {
    forall p | p in created ensures JobWritten(rows', p, created[p]) {
      assert JobWritten(rows, p, created[p]);
    }
  }

  lemma CreateKeepsInv(s: State, postId: Id, c: Creation)
    requires Inv(s) && Can(s, Create(postId, c))
    ensures Inv(Do(s, Create(postId, c)))
  {
    var s' := Do(s, Create(postId, c));
    Outbox.StepKeepsInv(s.outbox, Outbox.Step.Insert(c.rowId, JobRow(postId, c)));
    NeverApplied(s, postId);
    CreatedPost(s.posts, s.created, s.applied, postId, c);
    CreatedJob(s.outbox.rows, s.created, postId, c);
    CreatedVerdicts(s, s', postId, c);
  }

  lemma CreatedPost(posts: map<Id, Post>, created: map<Id, Creation>, applied: seq<Applied>, postId: Id, c: Creation)
    requires PostsOk(posts, created, applied) && postId !in created && LastStatus(applied, postId) == Pending
    ensures PostsOk(posts[postId := Post(c.authorId, c.content, Pending)], created[postId := c], applied)
  {
  }

  lemma CreatedJob(rows: map<Id, Outbox.Row>, created: map<Id, Creation>, postId: Id, c: Creation)
    requires JobsOk(rows, created) && postId !in created && c.rowId !in rows
    ensures JobsOk(rows[c.rowId := JobRow(postId, c)], created[postId := c])
  {
  }

  lemma CreatedVerdicts(s: State, s': State, postId: Id, c: Creation)
    requires VerdictsOk(s) && postId !in s.created && c.rowId !in s.outbox.rows
    requires s'.applied == s.applied && s'.processed == s.processed && s'.created == s.created[postId := c]
    requires s'.outbox.rows == s.outbox.rows[c.rowId := JobRow(postId, c)]
    ensures VerdictsOk(s')
  {
    assert CompletedRows(s'.outbox.rows) == CompletedRows(s.outbox.rows);
    forall a | a in s'.applied ensures AppliedOk(a, s'.outbox.rows, s'.created) {
      assert AppliedOk(a, s.outbox.rows, s.created);
    }
  }

  lemma NeverApplied(s: State, postId: Id)
    requires Inv(s) && postId !in s.created
    ensures LastStatus(s.applied, postId) == Pending
  {
    forall a | a in s.applied ensures a.result.payload.Completed? && a.result.payload.postId != postId {
      assert AppliedOk(a, s.outbox.rows, s.created);
    }
    NoVerdictNoStatus(s.applied, postId);
  }

  lemma {:induction false} NoVerdictNoStatus(applied: seq<Applied>, postId: Id)
    requires forall a :: a in applied ==> a.result.payload.Completed? && a.result.payload.postId != postId
    ensures LastStatus(applied, postId) == Pending
  {
    if applied != [] {
      NoVerdictNoStatus(applied[..|applied| - 1], postId);
    }
  }

  lemma VerdictKeepsInv(s: State, result: Envelope, rowId: Id, at: int)
    requires Inv(s) && Can(s, Verdict(result, rowId, at)) && OutcomeOf(s, result).Takes?
    ensures Inv(Do(s, Verdict(result, rowId, at)))
  {
    var s' := Do(s, Verdict(result, rowId, at));
    var postId := result.payload.postId;
    var a := Applied(result, rowId, s.posts[postId].authorId, at);
    Outbox.StepKeepsInv(s.outbox, Outbox.Step.Insert(rowId, CompletedRow(a)));
    VerdictPost(s.posts, s.created, s.applied, a);
    VerdictJobs(s.outbox.rows, s.created, a);
    AppendedVerdict(s, s', a);
  }

  lemma VerdictPost(posts: map<Id, Post>, created: map<Id, Creation>, applied: seq<Applied>, a: Applied)
    requires PostsOk(posts, created, applied) && a.result.payload.Completed? && a.result.payload.postId in posts
    ensures var p := a.result.payload;
      PostsOk(posts[p.postId := posts[p.postId].(status := StatusOf(p.verdict))], created, applied + [a])
  {
    AppendedStatus(applied, a);
  }

  lemma VerdictJobs(rows: map<Id, Outbox.Row>, created: map<Id, Creation>, a: Applied)
    requires JobsOk(rows, created) && a.rowId !in rows && a.result.payload.Completed?
    ensures JobsOk(rows[a.rowId := CompletedRow(a)], created)
  {
  }

  lemma AppendedStatus(applied: seq<Applied>, a: Applied)
    requires a.result.payload.Completed?
    ensures forall p ::
              LastStatus(applied + [a], p) ==
              if p == a.result.payload.postId then StatusOf(a.result.payload.verdict) else LastStatus(applied, p)
  {
    assert (applied + [a])[..|applied|] == applied;
  }

  lemma AppendedVerdict(s: State, s': State, a: Applied)
    requires VerdictsOk(s) && s'.created == s.created && s'.applied == s.applied + [a]
    requires a.rowId !in s.outbox.rows && ValidCompleted(a.result.payload)
    requires s'.outbox.rows == s.outbox.rows[a.rowId := CompletedRow(a)]
    requires a.result.messageId !in s.processed && s'.processed == s.processed + {a.result.messageId}
    requires a.result.payload.postId in s.created && s.created[a.result.payload.postId].authorId == a.authorId
    ensures VerdictsOk(s')
  {
    assert MessageIds(s'.applied) == MessageIds(s.applied) + [a.result.messageId];
    assert RowIds(s'.applied) == RowIds(s.applied) + [a.rowId];
    forall i | 0 <= i < |s.applied| ensures RowIds(s.applied)[i] != a.rowId {
      assert s.applied[i] in s.applied && AppliedOk(s.applied[i], s.outbox.rows, s.created);
    }
    forall i | 0 <= i < |s.applied| ensures MessageIds(s.applied)[i] != a.result.messageId {
      assert MessageIds(s.applied)[i] in MessageIds(s.applied);
    }
    assert CompletedRows(s'.outbox.rows) == CompletedRows(s.outbox.rows) + {a.rowId};
    forall b | b in s'.applied ensures AppliedOk(b, s'.outbox.rows, s'.created) {
      if b in s.applied {
        assert AppliedOk(b, s.outbox.rows, s.created);
      }
    }
  }

  lemma StepKeepsInv(s: State, step: Step)
    requires Inv(s) && Can(s, step)
    ensures Inv(Do(s, step))
  {
    match step {
      case Create(postId, c) => CreateKeepsInv(s, postId, c);
      case Update(_, _, _) =>
      case Remove(_, _) =>
      case Verdict(result, rowId, at) =>
        if OutcomeOf(s, result).Takes? {
          VerdictKeepsInv(s, result, rowId, at);
        }
      case Relay(relayStep) => RelayKeepsInv(s, relayStep);
    }
  }

  lemma {:induction false} RunKeepsInv(s: State, steps: seq<Step>)
    requires Inv(s) && Admissible(s, steps)
    ensures Inv(Exec(s, steps))
    decreases |steps|
  {
    if steps != [] {
      StepKeepsInv(s, steps[0]);
      RunKeepsInv(Do(s, steps[0]), steps[1..]);
    }
  }

  lemma EmptyInv()
    ensures Inv(EMPTY)
  {
    assert MessageIds([]) == [] && RowIds([]) == [];
  }

  // ----- the exactly-once effect -----

  /** Over every run of creates, edits, deletes, redelivered verdicts and relay polls: one
      moderation.completed row per processed message, one job row per post ever created, and every
      live post carries the verdict last applied to it. */
  lemma ExactlyOnceEffect(steps: seq<Step>)
    requires Admissible(EMPTY, steps)
    ensures var s := Exec(EMPTY, steps);
      && |CompletedRows(s.outbox.rows)| == |s.processed| == |s.applied|
      && (forall p :: p in s.created ==> JobRows(s.outbox.rows, p) == {s.created[p].rowId})
      && (forall p :: p in s.posts ==> p in s.created && s.posts[p].status == LastStatus(s.applied, p))
  {
    EmptyInv();
    RunKeepsInv(EMPTY, steps);
    var s := Exec(EMPTY, steps);
    DistinctSize(MessageIds(s.applied));
    DistinctSize(RowIds(s.applied));
    forall p | p in s.created ensures JobRows(s.outbox.rows, p) == {s.created[p].rowId} {
      OneJobRow(s, p);
    }
  }

  lemma OneJobRow(s: State, p: Id)
    requires Inv(s) && p in s.created
    ensures JobRows(s.outbox.rows, p) == {s.created[p].rowId}
  {
    assert JobWritten(s.outbox.rows, p, s.created[p]);
    var id := s.created[p].rowId;
    var row := s.outbox.rows[id];
    assert Outbox.EnvelopeOf(id, row).payload == row.payload && Outbox.EnvelopeOf(id, row).eventType == row.eventType;
    assert id in JobRows(s.outbox.rows, p);
  }

  /** Redelivering a result any number of times, now or later, changes nothing once it took effect. */
  lemma {:induction false} RedeliveryIsIdle(s: State, steps: seq<Step>, result: Envelope, rowId: Id, at: int)
    requires Admissible(s, steps) && result.messageId in s.processed
    requires rowId !in Exec(s, steps).outbox.rows
    ensures Do(Exec(s, steps), Verdict(result, rowId, at)) == Exec(s, steps)
    decreases |steps|
  {
    if steps != [] {
      RedeliveryIsIdle(Do(s, steps[0]), steps[1..], result, rowId, at);
    }
  }

  /** A verdict for a post that was removed leaves no trace, in every continuation: ids are never reused. */
  lemma {:induction false} DeletedStaysDeleted(s: State, steps: seq<Step>, result: Envelope, rowId: Id, at: int)
    requires Admissible(s, steps) && result.payload.Completed?
    requires result.payload.postId in s.created && result.payload.postId !in s.posts
    requires rowId !in Exec(s, steps).outbox.rows
    ensures Do(Exec(s, steps), Verdict(result, rowId, at)) == Exec(s, steps)
    decreases |steps|
  {
    if steps != [] {
      DeletedStaysDeleted(Do(s, steps[0]), steps[1..], result, rowId, at);
    }
  }

  // ----- what the public read API shows -----

  predicate Visible(s: State, postId: Id) {
    postId in s.posts && s.posts[postId].status == Status.Approved
  }

  /** The step replaces the content of the post; somebody else's edit does not. */
  predicate Edits(s: State, step: Step, postId: Id) {
    step.Update? && step.postId == postId && Owned(s, postId, step.authorId)
  }

  ghost predicate Unedited(s: State, steps: seq<Step>, postId: Id)
    requires Admissible(s, steps)
    decreases |steps|
  {
    steps == [] || (!Edits(s, steps[0], postId) && Unedited(Do(s, steps[0]), steps[1..], postId))
  }

  ghost predicate AsCreated(s: State, postId: Id) {
    postId in s.posts ==> postId in s.created && s.posts[postId].content == s.created[postId].content
  }

  /** Only an edit by its author makes a post differ from what its job asked to moderate. */
  lemma StepKeepsContent(s: State, step: Step, postId: Id)
    requires Can(s, step) && AsCreated(s, postId) && !Edits(s, step, postId)
    ensures AsCreated(Do(s, step), postId)
  {
  }

  /** In every run without an edit of the post, what a reader sees is the content its job asked
      to moderate. */
  lemma {:induction false} VisibleContentIsModerated(s: State, steps: seq<Step>, postId: Id)
    requires Admissible(s, steps) && AsCreated(s, postId) && Unedited(s, steps, postId)
    ensures AsCreated(Exec(s, steps), postId)
    decreases |steps|
  {
    if steps != [] {
      StepKeepsContent(s, steps[0], postId);
      VisibleContentIsModerated(Do(s, steps[0]), steps[1..], postId);
    }
  }

  /** An edit keeps the status: the post stays visible, and its content is as created exactly if the edit
      put the first content back. */
  lemma EditKeepsStatus(s: State, postId: Id, content: string)
    requires Inv(s) && Visible(s, postId)
    ensures var s' := Do(s, Update(postId, s.posts[postId].authorId, content));
      && Visible(s', postId) && s'.posts[postId].content == content
      && (AsCreated(s', postId) <==> content == s.created[postId].content)
  {
  }

  predicate Approves(a: Applied, postId: Id) {
    a.result.payload.Completed? && a.result.payload.postId == postId && a.result.payload.verdict.Approved?
  }

  /** An approved post has an applied approval. */
  lemma {:induction false} ApprovedByVerdict(applied: seq<Applied>, postId: Id)
    requires LastStatus(applied, postId) == Status.Approved
    ensures exists a :: a in applied && Approves(a, postId)
  {
    if applied != [] {
      var rest, last := applied[..|applied| - 1], applied[|applied| - 1];
      assert last in applied;
      if !(last.result.payload.Completed? && last.result.payload.postId == postId) {
        ApprovedByVerdict(rest, postId);
        var a :| a in rest && Approves(a, postId);
        assert a in applied;
      }
    }
  }
}
