/** The AI worker's handler in its own form: one run from version check to done mark or release,
    with every reply of Redis, the classifier and the publisher decided from outside. It is proved
    to be a run of the claim machine. */
module ModerationWorker {
  import opened Prelude
  import opened Messages
  import opened WorkerClaims

  /** Everything a run meets: the claim's reply, the classifier's answer (None when it throws), the
      publish, the done mark, the delete. */
  datatype Weather = Weather(
    claim: Reply,
    answer: Option<Classification>,
    publish: Reply,
    mark: Reply,
    delete: Reply)

  /** The machine's steps for one uninterrupted run. */
  function RunSteps(w: World, run: RunId, job: Envelope, x: Weather): seq<Step> {
    var release := [Release(run, TakesEffect(x.delete))];
    if !SupportedEventVersion(job.eventType, job.eventVersion) then [Refuse(run)]
    else if x.claim.Error? then [ClaimError(run, x.claim.applied)]
    else if job.messageId in w.keys then [Claim(run)]
    else if !ValidJob(job.payload) || x.answer.None? then [Claim(run), Fail(run, false)] + release
    else if x.publish.Error? then [Claim(run), Fail(run, x.publish.applied)] + release
    else if x.mark.Error? then [Claim(run), Publish(run), MarkError(run, x.mark.applied)] + release
    else [Claim(run), Publish(run), MarkDone(run)]
  }

  ghost predicate RunReady(w: World, run: RunId, job: Envelope) {
    && At(w, run, Fresh) && w.runs[run].envelope == job
    && CanEnd(w, run, true) && CanEnd(w, run, false)
  }

  /** The keys one uninterrupted run leaves. A failed run that deletes its key leaves them as they were. */
  function KeysAfter(keys: map<Id, Key>, job: Envelope, x: Weather): map<Id, Key> {
    var id := job.messageId;
    if !SupportedEventVersion(job.eventType, job.eventVersion) then keys
    else if x.claim.Error? then if x.claim.applied && id !in keys then keys[id := Processing] else keys
    else if id in keys then keys
    else if Resolves(keys, job, x) then keys[id := Done]
    else if TakesEffect(x.delete) then keys
    else if Answered(job, x) && x.publish.Ok? && x.mark.applied then keys[id := Done]
    else keys[id := Processing]
  }

  predicate Answered(job: Envelope, x: Weather) {
    ValidJob(job.payload) && x.answer.Some?
  }

  /** The handler's promise resolves: the message is a duplicate, or everything went through. */
  predicate Resolves(keys: map<Id, Key>, job: Envelope, x: Weather) {
    && SupportedEventVersion(job.eventType, job.eventVersion) && x.claim.Ok?
    && (job.messageId in keys || (Answered(job, x) && x.publish.Ok? && x.mark.Ok?))
  }

  /** A result reaches the result queue: published, or accepted although the publish call errs. */
  predicate Publishes(keys: map<Id, Key>, job: Envelope, x: Weather) {
    && SupportedEventVersion(job.eventType, job.eventVersion) && x.claim.Ok?
    && job.messageId !in keys && Answered(job, x) && TakesEffect(x.publish)
  }

  lemma EarlyRun(w: World, run: RunId, job: Envelope, x: Weather)
    requires RunReady(w, run, job) && |RunSteps(w, run, job, x)| == 1
    ensures Admissible(w, RunSteps(w, run, job, x))
    ensures Exec(w, RunSteps(w, run, job, x)).keys == KeysAfter(w.keys, job, x)
    ensures Exec(w, RunSteps(w, run, job, x)).published == w.published
  {
    ExecOne(w, RunSteps(w, run, job, x)[0]);
  }

  lemma FailedRun(w: World, run: RunId, job: Envelope, delivered: bool, deleted: bool)
    requires RunReady(w, run, job) && job.messageId !in w.keys && Supported(job)
    requires delivered ==> ValidJob(job.payload)
    ensures var steps := [Claim(run), Fail(run, delivered), Release(run, deleted)];
      && Admissible(w, steps)
      && Exec(w, steps).keys == (if deleted then w.keys else w.keys[job.messageId := Processing])
      && Exec(w, steps).published == w.published + if delivered then {job.messageId} else {}
  {
    var w1 := Do(w, Claim(run));
    var w2 := Do(w1, Fail(run, delivered));
    assert w2.keys == w.keys[job.messageId := Processing];
    ExecThree(w, Claim(run), Fail(run, delivered), Release(run, deleted));
    assert w.keys[job.messageId := Processing] - {job.messageId} == w.keys;
  }

  lemma MarkedRun(w: World, run: RunId, job: Envelope)
    requires RunReady(w, run, job) && job.messageId !in w.keys && Supported(job) && ValidJob(job.payload)
    ensures var steps := [Claim(run), Publish(run), MarkDone(run)];
      && Admissible(w, steps) && Exec(w, steps).keys == w.keys[job.messageId := Done]
      && Exec(w, steps).published == w.published + {job.messageId}
  {
    var w1 := Do(w, Claim(run));
    assert w1.keys == w.keys[job.messageId := Processing];
    ExecThree(w, Claim(run), Publish(run), MarkDone(run));
    assert w.keys[job.messageId := Processing][job.messageId := Done] == w.keys[job.messageId := Done];
  }

  /** Claimed and published, but the done mark errs. */
  lemma MarkFails(w: World, run: RunId, job: Envelope, applied: bool)
    requires RunReady(w, run, job) && job.messageId !in w.keys && Supported(job) && ValidJob(job.payload)
    ensures var steps := [Claim(run), Publish(run), MarkError(run, applied)];
      && Admissible(w, steps)
      && Exec(w, steps).keys == w.keys[job.messageId := if applied then Done else Processing]
      && Exec(w, steps).published == w.published + {job.messageId}
      && At(Exec(w, steps), run, Failing) && Exec(w, steps).runs[run].job == job.messageId
      && CanEnd(Exec(w, steps), run, false)
  {
    var w1 := Do(w, Claim(run));
    assert w1.keys == w.keys[job.messageId := Processing];
    ExecThree(w, Claim(run), Publish(run), MarkError(run, applied));
  }

  lemma UnmarkedRun(w: World, run: RunId, job: Envelope, applied: bool, deleted: bool)
    requires RunReady(w, run, job) && job.messageId !in w.keys && Supported(job) && ValidJob(job.payload)
    ensures var steps := [Claim(run), Publish(run), MarkError(run, applied)] + [Release(run, deleted)];
      && Admissible(w, steps)
      && Exec(w, steps).keys ==
         (if deleted then w.keys else w.keys[job.messageId := if applied then Done else Processing])
      && Exec(w, steps).published == w.published + {job.messageId}
  {
    var steps := [Claim(run), Publish(run), MarkError(run, applied)];
    MarkFails(w, run, job, applied);
    ReleaseRun(Exec(w, steps), run, deleted);
    ExecAppend(w, steps, [Release(run, deleted)]);
    assert w.keys[job.messageId := if applied then Done else Processing] - {job.messageId} == w.keys;
  }

  lemma ReleaseRun(w: World, run: RunId, deleted: bool)
    requires Can(w, Release(run, deleted))
    ensures Admissible(w, [Release(run, deleted)])
    ensures Exec(w, [Release(run, deleted)]).keys == if deleted then w.keys - {w.runs[run].job} else w.keys
    ensures Exec(w, [Release(run, deleted)]).published == w.published
  {
    ExecOne(w, Release(run, deleted));
  }

  lemma RunLeavesKeys(w: World, run: RunId, job: Envelope, x: Weather)
    requires RunReady(w, run, job)
    ensures Admissible(w, RunSteps(w, run, job, x))
    ensures Exec(w, RunSteps(w, run, job, x)).keys == KeysAfter(w.keys, job, x)
    ensures Exec(w, RunSteps(w, run, job, x)).published ==
            w.published + if Publishes(w.keys, job, x) then {job.messageId} else {}
  {
    if !SupportedEventVersion(job.eventType, job.eventVersion) || x.claim.Error? || job.messageId in w.keys {
      EarlyRun(w, run, job, x);
    } else if !Answered(job, x) || x.publish.Error? {
      var delivered := Answered(job, x) && x.publish.applied;
      FailedRun(w, run, job, delivered, TakesEffect(x.delete));
      assert RunSteps(w, run, job, x) == [Claim(run), Fail(run, delivered), Release(run, TakesEffect(x.delete))];
    } else if x.mark.Error? {
      UnmarkedRun(w, run, job, x.mark.applied, TakesEffect(x.delete));
    } else {
      MarkedRun(w, run, job);
    }
  }

  /** The envelope of a verdict on the result queue. */
  function ResultOf(job: Envelope, answer: Classification, newId: Id, at: int): Envelope
    requires job.payload.Job?
  {
    Envelope(newId, job.correlationId, COMPLETED_EVENT, 1, at, "ai-processing-service",
             Completed(job.payload.postId, answer.verdict, answer.categories, None))
  }

  class Worker {
    var keys: map<Id, Key>
    var results: seq<Envelope>
    /** The machine's state; its keys are this object's. */
    ghost var world: World

    ghost predicate Valid()
      reads this
    {
      keys == world.keys
    }

    constructor (queue: string)
      ensures Valid() && world == New(queue) && results == []
    {
      keys, results, world := map[], [], New(queue);
    }

    /** `newId` is what randomUUID mints. Returns whether the handler's promise resolves. */
    method Handle(run: RunId, job: Envelope, x: Weather, newId: Id, at: int) returns (resolves: bool)
      requires Valid() && RunReady(world, run, job)
      modifies this
      ensures Valid() && keys == KeysAfter(old(keys), job, x)
      ensures var reached := SupportedEventVersion(job.eventType, job.eventVersion) && x.claim.Ok?;
        var claimed := reached && job.messageId !in old(keys);
        var published := claimed && ValidJob(job.payload) && x.answer.Some? && (x.publish.Ok? || x.publish.applied);
        && (resolves <==> reached && (!claimed || (published && x.publish.Ok? && x.mark.Ok?)))
        && results == old(results) + (if published then [ResultOf(job, x.answer.value, newId, at)] else [])
        && world.published == old(world).published + (if published then {job.messageId} else {})
        && (claimed && resolves ==> keys == old(keys)[job.messageId := Done])
        && (claimed && !resolves && (x.delete.Ok? || x.delete.applied) ==> keys == old(keys))
        && (claimed ==> forall id :: id in old(keys) ==> id in keys && keys[id] == old(keys)[id])
        && (reached && !claimed ==> keys == old(keys))
      ensures Admissible(old(world), RunSteps(old(world), run, job, x))
      ensures world == Exec(old(world), RunSteps(old(world), run, job, x))
    {
      RunLeavesKeys(world, run, job, x);
      world := Exec(world, RunSteps(world, run, job, x));
      ghost var before := keys;
      var key := job.messageId;
      if !SupportedEventVersion(job.eventType, job.eventVersion) {
        return false;
      }
      if x.claim.Error? {
        if x.claim.applied && key !in keys {
          keys := keys[key := Processing];
        }
        return false;
      }
      if key in keys {
        return true;
      }
      keys := keys[key := Processing];
      if !ValidJob(job.payload) || x.answer.None? {
        ReleaseClaim(key, x.delete, before);
        return false;
      }
      var c := x.answer.value;
      if x.publish.Ok? || x.publish.applied {
        results := results + [Envelope(newId, job.correlationId, COMPLETED_EVENT, 1, at, "ai-processing-service",
                                       Completed(job.payload.postId, c.verdict, c.categories, None))];
      }
      if x.publish.Error? {
        ReleaseClaim(key, x.delete, before);
        return false;
      }
      if x.mark.Ok? || x.mark.applied {
        keys := keys[key := Done];
      }
      if x.mark.Error? {
        ReleaseClaim(key, x.delete, before);
        return false;
      }
      return true;
    }

    /** Deletes the key after a failure; `before` is the state the claim found. */
    method ReleaseClaim(key: Id, reply: Reply, ghost before: map<Id, Key>)
      requires key !in before && key in keys && keys == before[key := keys[key]]
      modifies this`keys
      ensures keys == if TakesEffect(reply) then before else old(keys)
    {
      if reply.Ok? || reply.applied {
        keys := keys - {key};
      }
    }
  }
}
