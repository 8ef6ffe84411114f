/** What the content service holds, read off the bare history of its steps: which posts live, what they
    say, which verdicts took effect, and how the verdict consumer answers. */
module PostHistory {
  import opened Messages
  import opened Content

  // ----- runs, one step at the end -----

  lemma {:induction false} RunFront(s: State, steps: seq<Step>)
    requires steps != [] && Admissible(s, steps)
    ensures var front, last := steps[..|steps| - 1], steps[|steps| - 1];
      Admissible(s, front) && Can(Exec(s, front), last) && Exec(s, steps) == Do(Exec(s, front), last)
    decreases |steps|
  {
    var front := steps[..|steps| - 1];
    if |steps| == 1 {
      assert steps[1..] == [];
    } else {
      var tail := steps[1..];
      RunFront(Do(s, steps[0]), tail);
      assert front[1..] == tail[..|tail| - 1] && tail[|tail| - 1] == steps[|steps| - 1];
    }
  }

  // ----- who lives -----

  ghost predicate CreatedAt(steps: seq<Step>, i: int, p: Id) {
    0 <= i < |steps| && steps[i].Create? && steps[i].postId == p
  }

  ghost predicate NotRemoved(steps: seq<Step>, i: int, p: Id, author: Id)
    requires 0 <= i < |steps|
  {
    forall j :: i < j < |steps| ==> steps[j] != Step.Remove(p, author)
  }

  /** Created by step i, and not removed since by the author the creation names. */
  ghost predicate LivesFrom(steps: seq<Step>, i: int, p: Id) {
    CreatedAt(steps, i, p) && NotRemoved(steps, i, p, steps[i].creation.authorId)
  }

  ghost predicate Created(steps: seq<Step>, p: Id) {
    exists i :: CreatedAt(steps, i, p)
  }

  ghost predicate Lives(steps: seq<Step>, p: Id) {
    exists i :: LivesFrom(steps, i, p)
  }

  ghost predicate CreatedOk(steps: seq<Step>, s: State, p: Id) {
    && (p in s.created <==> Created(steps, p))
    && (forall i :: CreatedAt(steps, i, p) ==> p in s.created && s.created[p] == steps[i].creation)
  }

  ghost predicate LiveOk(steps: seq<Step>, s: State, p: Id) {
    && (p in s.posts <==> Lives(steps, p))
    && (p in s.posts ==> p in s.created && s.posts[p].authorId == s.created[p].authorId)
  }

  lemma CreatedStep(front: seq<Step>, s: State, last: Step, p: Id)
    requires Can(s, last) && CreatedOk(front, s, p)
    ensures CreatedOk(front + [last], Do(s, last), p)
  {
    var steps := front + [last];
    forall i ensures CreatedAt(steps, i, p) <==> CreatedAt(front, i, p) || (i == |front| && CreatedAt([last], 0, p)) {
      if 0 <= i < |front| {
        assert steps[i] == front[i];
      }
    }
    if last.Create? && last.postId == p {
      assert CreatedAt(steps, |front|, p);
    } else if i :| CreatedAt(front, i, p) {
      assert CreatedAt(steps, i, p);
    }
  }

  /** Every step but a removal by the author leaves a live post alive. */
  lemma LivesStep(front: seq<Step>, last: Step, i: int, p: Id)
    requires 0 <= i < |front|
    ensures LivesFrom(front + [last], i, p) <==>
        LivesFrom(front, i, p) && last != Step.Remove(p, front[i].creation.authorId)
  {
    var steps := front + [last];
    assert forall j :: 0 <= j < |front| ==> steps[j] == front[j];
    assert steps[|front|] == last;
  }

  lemma LiveStep(front: seq<Step>, s: State, last: Step, p: Id)
    requires Can(s, last) && CreatedOk(front, s, p) && LiveOk(front, s, p)
    ensures LiveOk(front + [last], Do(s, last), p)
  {
    var steps, s' := front + [last], Do(s, last);
    if last.Create? && last.postId == p {
      assert LivesFrom(steps, |front|, p);
    } else {
      StillLives(front, last, p);
      OwnRemoval(front, s, p);
      PostsMove(s, last, p);
    }
  }

  /** What a step does to the set of posts. */
  lemma PostsMove(s: State, last: Step, p: Id)
    requires Can(s, last) && !(last.Create? && last.postId == p)
    ensures p in Do(s, last).posts <==> p in s.posts && last != Step.Remove(p, s.posts[p].authorId)
    ensures p in Do(s, last).posts ==> Do(s, last).posts[p].authorId == s.posts[p].authorId
    ensures p in s.created ==> p in Do(s, last).created && Do(s, last).created[p] == s.created[p]
  {
  }

  lemma OwnRemoval(front: seq<Step>, s: State, p: Id)
    requires CreatedOk(front, s, p) && LiveOk(front, s, p)
    ensures p in s.posts ==> forall i :: LivesFrom(front, i, p) ==> front[i].creation.authorId == s.posts[p].authorId
  {
  }

  lemma StillLives(front: seq<Step>, last: Step, p: Id)
    requires !(last.Create? && last.postId == p)
    ensures Lives(front + [last], p) <==>
        exists i :: LivesFrom(front, i, p) && last != Step.Remove(p, front[i].creation.authorId)
  {
    var steps := front + [last];
    if i :| LivesFrom(steps, i, p) {
      assert i < |front|;
      LivesStep(front, last, i, p);
    }
    if i :| LivesFrom(front, i, p) && last != Step.Remove(p, front[i].creation.authorId) {
      LivesStep(front, last, i, p);
    }
  }

  lemma {:induction false} PostsFollow(steps: seq<Step>, p: Id)
    requires Admissible(EMPTY, steps)
    ensures CreatedOk(steps, Exec(EMPTY, steps), p) && LiveOk(steps, Exec(EMPTY, steps), p)
    decreases |steps|
  {
    if steps != [] {
      var front, last := steps[..|steps| - 1], steps[|steps| - 1];
      RunFront(EMPTY, steps);
      PostsFollow(front, p);
      assert steps == front + [last];
      CreatedStep(front, Exec(EMPTY, front), last, p);
      LiveStep(front, Exec(EMPTY, front), last, p);
    }
  }

  /** After any run a post lives if and only if it was created and no removal that carries its creation's
      author came later; `created` holds what its creation said. */
  lemma PostsAreHistory(steps: seq<Step>, p: Id)
    requires Admissible(EMPTY, steps)
    ensures var s := Exec(EMPTY, steps);
      && (p in s.created <==> exists i :: CreatedAt(steps, i, p))
      && (forall i :: CreatedAt(steps, i, p) ==> s.created[p] == steps[i].creation)
      && (p in s.posts <==>
            p in s.created && exists i :: CreatedAt(steps, i, p) && NotRemoved(steps, i, p, s.created[p].authorId))
      && (p in s.posts ==> s.posts[p].authorId == s.created[p].authorId)
  {
    PostsFollow(steps, p);
    var s := Exec(EMPTY, steps);
    if p in s.posts {
      var i :| LivesFrom(steps, i, p);
      assert CreatedAt(steps, i, p);
    }
    if p in s.created {
      if i :| CreatedAt(steps, i, p) && NotRemoved(steps, i, p, s.created[p].authorId) {
        assert LivesFrom(steps, i, p);
      }
    }
  }

  // ----- what a post says -----

  /** Step j wrote this content to the post of this author: it created it, or edited it as him. */
  predicate Wrote(step: Step, p: Id, author: Id, content: string) {
    match step
    case Create(q, c) => q == p && c.authorId == author && c.content == content
    case Update(q, a, text) => q == p && a == author && text == content
    case _ => false
  }

  predicate EditsAs(step: Step, p: Id, author: Id) {
    step.Update? && step.postId == p && step.authorId == author
  }

  /** Step j, the creation by step i or an edit by its author after that, wrote the content, and no edit
      by the author came later. */
  ghost predicate LastWrote(steps: seq<Step>, i: int, j: int, p: Id, content: string) {
    && CreatedAt(steps, i, p) && i <= j < |steps|
    && Wrote(steps[j], p, steps[i].creation.authorId, content)
    && forall k :: j < k < |steps| ==> !EditsAs(steps[k], p, steps[i].creation.authorId)
  }

  ghost predicate Says(steps: seq<Step>, p: Id, content: string) {
    exists i, j :: LastWrote(steps, i, j, p, content)
  }

  lemma SaysStays(front: seq<Step>, s: State, last: Step, p: Id, content: string)
    requires CreatedOk(front, s, p) && p in s.created && Says(front, p, content)
    requires !EditsAs(last, p, s.created[p].authorId)
    ensures Says(front + [last], p, content)
  {
    var steps := front + [last];
    var i, j :| LastWrote(front, i, j, p, content);
    assert CreatedAt(front, i, p);
    assert steps[i] == front[i] && steps[j] == front[j];
    forall k | j < k < |steps| ensures !EditsAs(steps[k], p, steps[i].creation.authorId) {
      if k < |front| {
        assert steps[k] == front[k];
      }
    }
    assert LastWrote(steps, i, j, p, content);
  }

  lemma NowSays(front: seq<Step>, s: State, last: Step, p: Id, content: string)
    requires CreatedOk(front, s, p) && p in s.created && Wrote(last, p, s.created[p].authorId, content) && last.Update?
    ensures Says(front + [last], p, content)
  {
    var steps := front + [last];
    var i :| CreatedAt(front, i, p);
    assert steps[i] == front[i] && steps[|front|] == last;
    assert LastWrote(steps, i, |front|, p, content);
  }

  lemma SaysStep(front: seq<Step>, s: State, last: Step, p: Id)
    requires Can(s, last) && CreatedOk(front, s, p) && LiveOk(front, s, p) && p in Do(s, last).posts
    requires p in s.posts ==> Says(front, p, s.posts[p].content)
    ensures Says(front + [last], p, Do(s, last).posts[p].content)
  {
    var steps := front + [last];
    if last.Create? && last.postId == p {
      assert steps[|front|] == last;
      assert LastWrote(steps, |front|, |front|, p, last.creation.content);
    } else {
      PostsMove(s, last, p);
      ContentMoves(s, last, p);
      if EditsAs(last, p, s.created[p].authorId) {
        NowSays(front, s, last, p, last.content);
      } else {
        SaysStays(front, s, last, p, s.posts[p].content);
      }
    }
  }

  lemma ContentMoves(s: State, last: Step, p: Id)
    requires Can(s, last) && !(last.Create? && last.postId == p) && p in s.posts && p in Do(s, last).posts
    ensures Do(s, last).posts[p].content ==
            if EditsAs(last, p, s.posts[p].authorId) then last.content else s.posts[p].content
  {
  }

  lemma {:induction false} ContentFollows(steps: seq<Step>, p: Id)
    requires Admissible(EMPTY, steps)
    ensures p in Exec(EMPTY, steps).posts ==> Says(steps, p, Exec(EMPTY, steps).posts[p].content)
    decreases |steps|
  {
    if steps != [] {
      var front, last := steps[..|steps| - 1], steps[|steps| - 1];
      RunFront(EMPTY, steps);
      PostsFollow(front, p);
      ContentFollows(front, p);
      assert steps == front + [last];
      if p in Exec(EMPTY, steps).posts {
        SaysStep(front, Exec(EMPTY, front), last, p);
      }
    }
  }

  lemma SaysOneThing(steps: seq<Step>, p: Id, a: string, b: string)
    requires Admissible(EMPTY, steps) && Says(steps, p, a) && Says(steps, p, b)
    ensures a == b
  {
    var i, j :| LastWrote(steps, i, j, p, a);
    var m, n :| LastWrote(steps, m, n, p, b);
    CreatedOnce(steps, i, m, p);
    if steps[j].Create? {
      CreatedOnce(steps, i, j, p);
    }
    if steps[n].Create? {
      CreatedOnce(steps, i, n, p);
    }
  }

  lemma {:induction false} CreatedOnce(steps: seq<Step>, i: int, m: int, p: Id)
    requires Admissible(EMPTY, steps) && CreatedAt(steps, i, p) && CreatedAt(steps, m, p)
    ensures i == m
    decreases |steps|
  {
    var front, last := steps[..|steps| - 1], steps[|steps| - 1];
    RunFront(EMPTY, steps);
    PostsFollow(front, p);
    if i < |front| && m < |front| {
      CreatedOnce(front, i, m, p);
    } else {
      assert !Created(front, p);
      assert forall k :: 0 <= k < |front| ==> steps[k] == front[k];
    }
  }

  /** A live post says what its author wrote last: the content of his last edit, or else of the creation.
      Nobody else's edit counts. */
  lemma ContentIsHistory(steps: seq<Step>, p: Id, content: string)
    requires Admissible(EMPTY, steps) && p in Exec(EMPTY, steps).posts
    ensures Exec(EMPTY, steps).posts[p].content == content <==>
      exists i, j :: LastWrote(steps, i, j, p, content)
  {
    ContentFollows(steps, p);
    if Says(steps, p, content) {
      SaysOneThing(steps, p, content, Exec(EMPTY, steps).posts[p].content);
    }
  }

  // ----- which verdicts took effect -----

  /** A result the consumer can read. */
  predicate Readable(result: Envelope) {
    SupportedEventVersion(result.eventType, result.eventVersion) && ValidCompleted(result.payload)
  }

  ghost predicate Carried(results: seq<Envelope>, id: Id) {
    exists k :: 0 <= k < |results| && results[k].messageId == id
  }

  /** The results that took effect: readable, of an id that none before it had, for a post that lived. */
  ghost function Effective(steps: seq<Step>): seq<Envelope> {
    if steps == [] then [] else
      var front, last := steps[..|steps| - 1], steps[|steps| - 1];
      var before := Effective(front);
      if last.Verdict? && Readable(last.result) && !Carried(before, last.result.messageId)
         && Lives(front, last.result.payload.postId)
      then before + [last.result] else before
  }

  function ResultsOf(applied: seq<Applied>): (results: seq<Envelope>)
    ensures |results| == |applied| && forall k :: 0 <= k < |applied| ==> results[k] == applied[k].result
  {
    seq(|applied|, k requires 0 <= k < |applied| => applied[k].result)
  }

  /** An applied verdict carries this message id. */
  ghost predicate AppliedBefore(applied: seq<Applied>, id: Id) {
    exists a :: a in applied && a.result.messageId == id
  }

  lemma ProcessedIsApplied(s: State, id: Id)
    requires Inv(s)
    ensures id in s.processed <==> AppliedBefore(s.applied, id)
  {
    if id in s.processed {
      var k :| 0 <= k < |s.applied| && MessageIds(s.applied)[k] == id;
      assert s.applied[k] in s.applied;
    }
    if a :| a in s.applied && a.result.messageId == id {
      var k :| 0 <= k < |s.applied| && s.applied[k] == a;
      assert MessageIds(s.applied)[k] == id;
    }
  }

  lemma CarriedIsApplied(applied: seq<Applied>, id: Id)
    ensures Carried(ResultsOf(applied), id) <==> AppliedBefore(applied, id)
  {
    if k :| 0 <= k < |applied| && ResultsOf(applied)[k].messageId == id {
      assert applied[k] in applied;
    }
    if a :| a in applied && a.result.messageId == id {
      var k :| 0 <= k < |applied| && applied[k] == a;
      assert ResultsOf(applied)[k].messageId == id;
    }
  }

  /** How the verdict consumer ends on any result, after any run, if its database call succeeds: it takes
      the result for a duplicate exactly if an applied one had its id; it throws exactly if the result is
      not readable, or the post does not live and no applied result had the id. */
  lemma OutcomeIsHistory(steps: seq<Step>, result: Envelope)
    requires Admissible(EMPTY, steps)
    ensures var applied, outcome := Exec(EMPTY, steps).applied, OutcomeOf(Exec(EMPTY, steps), result);
      && (outcome.Duplicate? <==> Readable(result) && AppliedBefore(applied, result.messageId))
      && (outcome.Throws? <==> Readable(result) ==>
            !AppliedBefore(applied, result.messageId) && !Lives(steps, result.payload.postId))
      && (outcome.Takes? <==>
            Readable(result) && !AppliedBefore(applied, result.messageId) && Lives(steps, result.payload.postId))
  {
    EmptyInv();
    RunKeepsInv(EMPTY, steps);
    ProcessedIsApplied(Exec(EMPTY, steps), result.messageId);
    if Readable(result) {
      PostsFollow(steps, result.payload.postId);
    }
  }

  /** The applied verdicts are exactly those, in order. */
  lemma {:induction false} AppliedIsHistory(steps: seq<Step>)
    requires Admissible(EMPTY, steps)
    ensures ResultsOf(Exec(EMPTY, steps).applied) == Effective(steps)
    decreases |steps|
  {
    if steps != [] {
      var front, last := steps[..|steps| - 1], steps[|steps| - 1];
      RunFront(EMPTY, steps);
      AppliedIsHistory(front);
      if last.Verdict? {
        OutcomeIsHistory(front, last.result);
        CarriedIsApplied(Exec(EMPTY, front).applied, last.result.messageId);
        AppliedMoves(Exec(EMPTY, front), last);
      }
    }
  }

  lemma AppliedMoves(s: State, last: Step)
    requires Can(s, last) && last.Verdict?
    ensures ResultsOf(Do(s, last).applied) ==
            ResultsOf(s.applied) + if OutcomeOf(s, last.result).Takes? then [last.result] else []
  {
  }

  // ----- the status of a post -----

  /** Result k is the last one for the post. */
  ghost predicate LastFor(results: seq<Envelope>, k: int, p: Id) {
    && 0 <= k < |results| && results[k].payload.Completed? && results[k].payload.postId == p
    && forall m :: k < m < |results| && results[m].payload.Completed? ==> results[m].payload.postId != p
  }

  lemma {:induction false} StatusOfLast(applied: seq<Applied>, p: Id)
    requires forall a :: a in applied ==> a.result.payload.Completed?
    ensures LastStatus(applied, p) == Status.Approved <==>
      exists k :: LastFor(ResultsOf(applied), k, p) && ResultsOf(applied)[k].payload.verdict == Messages.Approved
    ensures LastStatus(applied, p) == Status.Rejected <==>
      exists k :: LastFor(ResultsOf(applied), k, p) && ResultsOf(applied)[k].payload.verdict == Messages.Rejected
  {
    if applied != [] {
      var n := |applied| - 1;
      var rest := applied[..n];
      assert applied[n] in applied;
      StatusOfLast(rest, p);
      if applied[n].result.payload.postId == p {
        assert LastFor(ResultsOf(applied), n, p);
        assert forall k :: LastFor(ResultsOf(applied), k, p) ==> k == n;
      } else {
        assert forall k :: LastFor(ResultsOf(applied), k, p) <==> LastFor(ResultsOf(rest), k, p);
      }
    }
  }

  /** A live post carries the verdict of the last result that took effect for it: approved, rejected, or
      pending if there is none. */
  lemma StatusIsHistory(steps: seq<Step>, p: Id)
    requires Admissible(EMPTY, steps) && p in Exec(EMPTY, steps).posts
    ensures var status, results := Exec(EMPTY, steps).posts[p].status, Effective(steps);
      && (status == Status.Approved <==>
            exists k :: LastFor(results, k, p) && results[k].payload.verdict == Messages.Approved)
      && (status == Status.Rejected <==>
            exists k :: LastFor(results, k, p) && results[k].payload.verdict == Messages.Rejected)
  {
    EmptyInv();
    RunKeepsInv(EMPTY, steps);
    AppliedIsHistory(steps);
    var s := Exec(EMPTY, steps);
    forall a | a in s.applied ensures a.result.payload.Completed? {
      assert AppliedOk(a, s.outbox.rows, s.created);
    }
    StatusOfLast(s.applied, p);
  }
}
