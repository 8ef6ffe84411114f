/** What readers of approved posts see: exactly when it is what the worker approved. */
module PublicReads {
  import opened Prelude
  import opened Messages
  import Content
  import Outbox
  import opened Pipeline

  ghost predicate Unedited(w: World, steps: seq<Step>, postId: Id)
    requires Admissible(w, steps)
    decreases |steps|
  {
    steps == [] ||
    ((steps[0].Content? ==> !Content.Edits(w.content, steps[0].step, postId))
        && Unedited(Do(w, steps[0]), steps[1..], postId))
  }

  lemma {:induction false} ContentStays(w: World, steps: seq<Step>, postId: Id)
    requires Admissible(w, steps) && Unedited(w, steps, postId) && Content.AsCreated(w.content, postId)
    ensures Content.AsCreated(Exec(w, steps).content, postId)
    decreases |steps|
  {
    if steps != [] {
      if steps[0].Content? {
        Content.StepKeepsContent(w.content, steps[0].step, postId);
      }
      ContentStays(Do(w, steps[0]), steps[1..], postId);
    }
  }

  /** The worker approved this post, and the job it judged carried exactly this content. */
  ghost predicate ApprovedAs(w: World, r: Result, postId: Id, content: string) {
    && r in w.results && r.envelope.payload.Completed? && r.envelope.payload.postId == postId
    && r.envelope.payload.verdict.Approved? && r.job.payload == Job(postId, content)
    && r.envelope.messageId in w.content.processed
  }

  /** Whatever a reader sees of a post that its author never edited was approved as it stands. */
  lemma VisibleWasApproved(steps: seq<Step>, postId: Id)
    requires Admissible(START, steps) && Unedited(START, steps, postId)
    requires Content.Visible(Exec(START, steps).content, postId)
    ensures var w := Exec(START, steps);
      exists r :: ApprovedAs(w, r, postId, w.content.posts[postId].content)
  {
    StartInv();
    VisibleFrom(START, steps, postId);
  }

  lemma VisibleFrom(w: World, steps: seq<Step>, postId: Id)
    requires Inv(w) && Content.AsCreated(w.content, postId) && Admissible(w, steps) && Unedited(w, steps, postId)
    requires Content.Visible(Exec(w, steps).content, postId)
    ensures exists r :: ApprovedAs(Exec(w, steps), r, postId, Exec(w, steps).content.posts[postId].content)
  {
    RunKeepsInv(w, steps);
    ContentStays(w, steps, postId);
    VisibleHasVerdict(Exec(w, steps), postId);
  }

  lemma VisibleHasVerdict(w: World, postId: Id)
    requires Inv(w) && Content.Visible(w.content, postId) && Content.AsCreated(w.content, postId)
    ensures exists r :: ApprovedAs(w, r, postId, w.content.posts[postId].content)
  {
    Content.ApprovedByVerdict(w.content.applied, postId);
    var a :| a in w.content.applied && Content.Approves(a, postId);
    WasProcessed(w.content, a);
    VerdictHasResult(w, a);
    var r :| ApprovedAs(w, r, postId, w.content.created[postId].content);
    assert ApprovedAs(w, r, postId, w.content.posts[postId].content);
  }

  lemma WasProcessed(c: Content.State, a: Content.Applied)
    requires Content.Inv(c) && a in c.applied
    ensures a.result.messageId in c.processed
  {
    var k :| 0 <= k < |c.applied| && c.applied[k] == a;
    assert Content.MessageIds(c.applied)[k] == a.result.messageId;
  }

  lemma VerdictHasResult(w: World, a: Content.Applied)
    requires ResultsOk(w) && a in w.content.applied && a.result.messageId in w.content.processed
    requires a.result.payload.Completed? && a.result.payload.verdict.Approved?
    requires a.result.payload.postId in w.content.created
    ensures exists r :: ApprovedAs(w, r, a.result.payload.postId, w.content.created[a.result.payload.postId].content)
  {
    var r :| r in w.results && r.envelope == a.result;
    assert ResultOk(w.content.created, r);
    assert ApprovedAs(w, r, a.result.payload.postId, w.content.created[a.result.payload.postId].content);
  }

  /** In every reachable world, what a reader sees of a post was approved as it stands if and only if it is
      the content the post was created with. An edit breaks it for as long as the content differs. */
  lemma ApprovedExactlyAsCreated(steps: seq<Step>, postId: Id)
    requires Admissible(START, steps) && Content.Visible(Exec(START, steps).content, postId)
    ensures var w := Exec(START, steps);
      && postId in w.content.created
      && ((exists r :: ApprovedAs(w, r, postId, w.content.posts[postId].content))
          <==> w.content.posts[postId].content == w.content.created[postId].content)
  {
    StartInv();
    RunKeepsInv(START, steps);
    ApprovedExact(Exec(START, steps), postId);
  }

  lemma ApprovedExact(w: World, postId: Id)
    requires Inv(w) && Content.Visible(w.content, postId)
    ensures postId in w.content.created
    ensures (exists r :: ApprovedAs(w, r, postId, w.content.posts[postId].content)) <==>
        Content.AsCreated(w.content, postId)
  {
    if Content.AsCreated(w.content, postId) {
      VisibleHasVerdict(w, postId);
    }
    if r :| ApprovedAs(w, r, postId, w.content.posts[postId].content) {
      assert ResultOk(w.content.created, r);
    }
  }

  // ----- an edited post is visible -----

  /** Readers see the second content of a post that was created with the first. */
  ghost predicate Shows(w: World, postId: Id, first: string, second: string) {
    && Content.Visible(w.content, postId) && w.content.posts[postId].content == second
    && postId in w.content.created && w.content.created[postId].content == first
  }

  ghost predicate CanShow(w: World, postId: Id, first: string, second: string) {
    exists steps :: Admissible(w, steps) && Shows(Exec(w, steps), postId, first, second)
  }

  lemma ShowAfter(w: World, step: Step, postId: Id, first: string, second: string)
    requires Can(w, step) && CanShow(Do(w, step), postId, first, second)
    ensures CanShow(w, postId, first, second)
  {
    var rest :| Admissible(Do(w, step), rest) && Shows(Exec(Do(w, step), rest), postId, first, second);
    var steps := [step] + rest;
    assert steps[0] == step && steps[1..] == rest;
    assert Admissible(w, steps) && Shows(Exec(w, steps), postId, first, second);
  }

  /** One post, waiting for its verdict, and its job row. */
  ghost predicate Waiting(w: World, postId: Id, c: Content.Creation) {
    && w.content.posts == map[postId := Content.Post(c.authorId, c.content, Content.Status.Pending)]
    && w.content.created == map[postId := c] && w.content.processed == {} && w.content.applied == []
    && w.content.outbox.rows == map[c.rowId := Content.JobRow(postId, c)]
    && w.results == []
  }

  lemma EditShows(w: World, postId: Id, c: Content.Creation, second: string)
    requires Content.Visible(w.content, postId) && w.content.posts[postId].authorId == c.authorId
    requires postId in w.content.created && w.content.created[postId].content == c.content
    ensures CanShow(w, postId, c.content, second)
  {
    var step := Step.Content(Content.Update(postId, c.authorId, second));
    assert Shows(Do(w, step), postId, c.content, second);
    assert Admissible(Do(w, step), []) && Exec(Do(w, step), []) == Do(w, step);
    ShowAfter(w, step, postId, c.content, second);
  }

  lemma VerdictShows(w: World, postId: Id, c: Content.Creation, second: string, result: Envelope, rowId: Id)
    requires Waiting(w.(results := []), postId, c) && rowId != c.rowId && postId != ""
    requires result.eventType == COMPLETED_EVENT && result.eventVersion == 1
    requires result.payload == Completed(postId, Approved, [], None)
    requires exists r :: r in w.results && r.envelope == result
    ensures CanShow(w, postId, c.content, second)
  {
    var step := Step.Content(Content.Verdict(result, rowId, c.at));
    assert Content.OutcomeOf(w.content, result).Takes?;
    EditShows(Do(w, step), postId, c, second);
    ShowAfter(w, step, postId, c.content, second);
  }

  lemma JobShows(w: World, postId: Id, c: Content.Creation, second: string, rowId: Id)
    requires Waiting(w, postId, c) && rowId != c.rowId && postId != "" && |c.content| <= MAX_CONTENT
    requires Accepted(w, Outbox.EnvelopeOf(c.rowId, Content.JobRow(postId, c)), JOB_ROUTE)
    ensures CanShow(w, postId, c.content, second)
  {
    var job := Outbox.EnvelopeOf(c.rowId, Content.JobRow(postId, c));
    var step := AiRun(job, rowId, Approved, [], c.at);
    var w' := Do(w, step);
    assert w'.results[0] in w'.results;
    VerdictShows(w', postId, c, second, ResultOf(job, rowId, Approved, [], c.at), rowId);
    ShowAfter(w, step, postId, c.content, second);
  }

  lemma ClaimShows(w: World, postId: Id, c: Content.Creation, second: string, rowId: Id)
    requires Waiting(w, postId, c) && rowId != c.rowId && postId != "" && |c.content| <= MAX_CONTENT
    requires 0 in w.content.outbox.txs
    requires w.content.outbox.txs[0] == Outbox.Tx([c.rowId], map[c.rowId := Content.JobRow(postId, c)], 0, false, map[])
    ensures CanShow(w, postId, c.content, second)
  {
    var step := Step.Content(Content.Relay(Outbox.Step.Publish(0)));
    assert Outbox.Current(w.content.outbox, 0) == c.rowId;
    var d := Outbox.DeliveryOf(w.content.outbox, 0, true);
    assert d in Do(w, step).content.outbox.log;
    JobShows(Do(w, step), postId, c, second, rowId);
    ShowAfter(w, step, postId, c.content, second);
  }

  lemma ClaimedAlone(w: World, postId: Id, c: Content.Creation)
    requires Waiting(w, postId, c) && w.content.outbox.txs == map[]
    ensures var step := Step.Content(Content.Relay(Outbox.Step.Claim(0, [c.rowId])));
      && Can(w, step) && 0 in Do(w, step).content.outbox.txs
      && Do(w, step).content.outbox.txs[0] ==
         Outbox.Tx([c.rowId], map[c.rowId := Content.JobRow(postId, c)], 0, false, map[])
  {
    ClaimedTx(w.content.outbox, c.rowId);
  }

  lemma ClaimedTx(o: Outbox.State, id: Id)
    requires Outbox.Can(o, Outbox.Step.Claim(0, [id])) && o.txs == map[]
    ensures Outbox.Do(o, Outbox.Step.Claim(0, [id])).txs ==
            map[0 := Outbox.Tx([id], map[id := o.rows[id]], 0, false, map[])]
  {
    assert Outbox.Do(o, Outbox.Step.Claim(0, [id])).txs[0].snapshot == map[id := o.rows[id]];
  }

  lemma RowShows(w: World, postId: Id, c: Content.Creation, second: string, rowId: Id)
    requires Waiting(w, postId, c) && rowId != c.rowId && postId != "" && |c.content| <= MAX_CONTENT
    requires w.content.outbox.txs == map[]
    ensures CanShow(w, postId, c.content, second)
  {
    var step := Step.Content(Content.Relay(Outbox.Step.Claim(0, [c.rowId])));
    ClaimedAlone(w, postId, c);
    ClaimShows(Do(w, step), postId, c, second, rowId);
    ShowAfter(w, step, postId, c.content, second);
  }

  ghost predicate ShowsUnapproved(steps: seq<Step>, postId: Id, first: string, second: string) {
    && Admissible(START, steps) && Shows(Exec(START, steps), postId, first, second)
    && !exists r :: ApprovedAs(Exec(START, steps), r, postId, second)
  }

  /** A run from the start: a post is created, its job published and approved, and the author replaces the
      content. Readers see the second content, and nobody approved it. */
  lemma EditedIsVisible(postId: Id, c: Content.Creation, second: string, rowId: Id)
    requires postId != "" && |c.content| <= MAX_CONTENT && second != c.content && rowId != c.rowId
    ensures exists steps :: ShowsUnapproved(steps, postId, c.content, second)
  {
    var step := Step.Content(Content.Create(postId, c));
    RowShows(Do(START, step), postId, c, second, rowId);
    ShowAfter(START, step, postId, c.content, second);
    var steps :| Admissible(START, steps) && Shows(Exec(START, steps), postId, c.content, second);
    ApprovedExactlyAsCreated(steps, postId);
    assert ShowsUnapproved(steps, postId, c.content, second);
  }
}
