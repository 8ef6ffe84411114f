/** The claim machine under a clock, in runs where every handling run finishes within the claim's TTL,
    every done mark succeeds and a rejected publish delivers nothing: exclusion between claim and
    release, and distance between results. */
module ClaimTiming {
  import opened Prelude
  import opened Messages
  import W = WorkerClaims

  const CLAIM_TTL := 300
  const DONE_TTL := 86400

  datatype Result = Result(job: Id, at: int)

  /** `expiry` is when each key runs out, `claimedAt` when each run set its key, `results` what was
      published when. */
  datatype State = State(now: int, world: W.World, expiry: map<Id, int>, claimedAt: map<W.RunId, int>,
                         results: seq<Result>)

  datatype Step = Tick(to: int) | Work(step: W.Step)

  function Start(now: int, queue: string): State {
    State(now, W.New(queue), map[], map[], [])
  }

  /** The run is between claim and release. */
  predicate AtWork(w: W.World, r: W.RunId) {
    r in w.runs && !w.runs[r].phase.Fresh?
  }

  /** SET NX sees no key that has run out. */
  predicate SeesLiveKeys(s: State, job: Id) {
    job in s.world.keys ==> job in s.expiry && s.now < s.expiry[job]
  }

  predicate OnTime(s: State, step: W.Step)
    requires W.Can(s.world, step)
  {
    match step
    case ForgetKey(job) => job in s.world.keys ==> job in s.expiry && s.expiry[job] <= s.now
    case Claim(run) => SeesLiveKeys(s, s.world.runs[run].job)
    case ClaimError(run, _) => SeesLiveKeys(s, s.world.runs[run].job)
    case Fail(_, delivered) => !delivered
    case MarkError(_, _) => false
    case Crash(run) => !s.world.runs[run].phase.Published?
    case _ => true
  }

  ghost predicate Can(s: State, step: Step) {
    match step
    case Tick(to) =>
      to >= s.now && forall r :: AtWork(s.world, r) ==> r in s.claimedAt && to < s.claimedAt[r] + CLAIM_TTL
    case Work(step) => W.Can(s.world, step) && OnTime(s, step)
  }

  /** The key a step sets, and for how long. */
  function Sets(w: W.World, step: W.Step): Option<(Id, int)>
    requires W.Can(w, step)
  {
    match step
    case Claim(run) => if w.runs[run].job in w.keys then None else Some((w.runs[run].job, CLAIM_TTL))
    case ClaimError(run, applied) =>
      if applied && w.runs[run].job !in w.keys then Some((w.runs[run].job, CLAIM_TTL)) else None
    case MarkDone(run) => Some((w.runs[run].job, DONE_TTL))
    case _ => None
  }

  ghost function Do(s: State, step: Step): State
    requires Can(s, step)
  {
    match step
    case Tick(to) => s.(now := to)
    case Work(step) =>
      State(s.now, W.Do(s.world, step),
            match Sets(s.world, step) case None => s.expiry case Some((job, ttl)) => s.expiry[job := s.now + ttl],
            if step.Claim? then s.claimedAt[step.run := s.now] else s.claimedAt,
            if step.Publish? then s.results + [Result(s.world.runs[step.run].job, s.now)] else s.results)
  }

  ghost predicate Admissible(s: State, steps: seq<Step>)
    decreases |steps|
  {
    steps == [] || (Can(s, steps[0]) && Admissible(Do(s, steps[0]), steps[1..]))
  }

  ghost function Exec(s: State, steps: seq<Step>): State
    requires Admissible(s, steps)
    decreases |steps|
  {
    if steps == [] then s else Exec(Do(s, steps[0]), steps[1..])
  }

  // ----- invariants -----

  /** A run between claim and release owns the live key it set. */
  ghost predicate OwnsKey(s: State, r: W.RunId) {
    AtWork(s.world, r) ==>
      var job := s.world.runs[r].job;
      && r in s.claimedAt && s.claimedAt[r] <= s.now < s.claimedAt[r] + CLAIM_TTL
      && job in s.world.keys && s.world.keys[job] == W.Processing
      && job in s.expiry && s.expiry[job] == s.claimedAt[r] + CLAIM_TTL
  }

  ghost predicate Exclusive(w: W.World) {
    forall r, q :: AtWork(w, r) && AtWork(w, q) && w.runs[r].job == w.runs[q].job ==> r == q
  }

  /** A run that published the job still has to mark it. */
  ghost predicate Marking(w: W.World, job: Id) {
    exists r :: AtWork(w, r) && w.runs[r].job == job && w.runs[r].phase.Published?
  }

  ghost predicate DoneUntil(s: State, job: Id, until: int) {
    job in s.world.keys && s.world.keys[job] == W.Done && job in s.expiry && s.expiry[job] >= until
  }

  /** A result is recent only while its run still has to mark it, or while a done key guards it. */
  ghost predicate Guarded(s: State, e: Result) {
    e.at <= s.now && (s.now >= e.at + DONE_TTL || Marking(s.world, e.job) || DoneUntil(s, e.job, e.at + DONE_TTL))
  }

  ghost predicate Spaced(results: seq<Result>) {
    forall i, j :: 0 <= i < j < |results| && results[i].job == results[j].job ==>
        results[j].at >= results[i].at + DONE_TTL
  }

  ghost predicate Inv(s: State) {
    && (forall r :: OwnsKey(s, r)) && Exclusive(s.world)
    && (forall e :: e in s.results ==> Guarded(s, e)) && Spaced(s.results)
  }

  /** What one step of the claim machine does to the runs at work. */
  lemma WorkMoves(w: W.World, step: W.Step, r: W.RunId)
    requires W.Can(w, step)
    ensures AtWork(W.Do(w, step), r) <==>
      (AtWork(w, r) && !((step.MarkDone? || step.Release? || step.Crash?) && step.run == r))
      || (step.Claim? && step.run == r && w.runs[r].job !in w.keys)
    ensures r in W.Do(w, step).runs && r in w.runs ==> W.Do(w, step).runs[r].job == w.runs[r].job
    ensures AtWork(W.Do(w, step), r) && W.Do(w, step).runs[r].phase.Published? ==>
      (AtWork(w, r) && w.runs[r].phase.Published?) || step == W.Publish(r)
    ensures AtWork(w, r) && w.runs[r].phase.Published? && AtWork(W.Do(w, step), r) && !step.MarkError? ==>
      W.Do(w, step).runs[r].phase.Published?
  {
  }

  predicate Deletes(w: W.World, step: W.Step, job: Id)
    requires W.Can(w, step)
  {
    step == W.ForgetKey(job) || (step.Release? && step.deleted && w.runs[step.run].job == job)
  }

  lemma KeyMoves(w: W.World, step: W.Step, job: Id)
    requires W.Can(w, step) && !step.MarkError?
    ensures (job in W.Do(w, step).keys && W.Do(w, step).keys[job] == W.Processing) <==>
      if Sets(w, step).Some? && Sets(w, step).value.0 == job then !step.MarkDone?
      else job in w.keys && w.keys[job] == W.Processing && !Deletes(w, step, job)
    ensures (job in W.Do(w, step).keys && W.Do(w, step).keys[job] == W.Done) <==>
      if Sets(w, step).Some? && Sets(w, step).value.0 == job then step.MarkDone?
      else job in w.keys && w.keys[job] == W.Done && !Deletes(w, step, job)
  {
  }

  lemma OwnerStays(s: State, step: W.Step, r: W.RunId)
    requires Inv(s) && Can(s, Work(step))
    ensures OwnsKey(Do(s, Work(step)), r)
  {
    WorkMoves(s.world, step, r);
    assert OwnsKey(s, r);
    if AtWork(s.world, r) && AtWork(W.Do(s.world, step), r) {
      KeyMoves(s.world, step, s.world.runs[r].job);
      if step.MarkDone? || step.Release? {
        assert AtWork(s.world, step.run);
      }
    }
  }

  lemma ExclusionStays(s: State, step: W.Step)
    requires Inv(s) && Can(s, Work(step))
    ensures Exclusive(W.Do(s.world, step))
  {
    forall r, q | AtWork(W.Do(s.world, step), r) && AtWork(W.Do(s.world, step), q)
        && W.Do(s.world, step).runs[r].job == W.Do(s.world, step).runs[q].job
      ensures r == q
    {
      WorkMoves(s.world, step, r);
      WorkMoves(s.world, step, q);
      assert OwnsKey(s, r) && OwnsKey(s, q);
    }
  }

  lemma GuardStays(s: State, step: W.Step, e: Result)
    requires Inv(s) && Can(s, Work(step)) && e in s.results
    ensures Guarded(Do(s, Work(step)), e)
  {
    assert Guarded(s, e);
    KeyMoves(s.world, step, e.job);
    if s.now < e.at + DONE_TTL {
      if Marking(s.world, e.job) {
        var r :| AtWork(s.world, r) && s.world.runs[r].job == e.job && s.world.runs[r].phase.Published?;
        WorkMoves(s.world, step, r);
        assert AtWork(W.Do(s.world, step), r) ==> Marking(W.Do(s.world, step), e.job);
      } else {
        DoneStays(s, step, e);
      }
    }
  }

  lemma DoneStays(s: State, step: W.Step, e: Result)
    requires Inv(s) && Can(s, Work(step)) && DoneUntil(s, e.job, e.at + DONE_TTL) && s.now < e.at + DONE_TTL
    requires e.at <= s.now
    ensures DoneUntil(Do(s, Work(step)), e.job, e.at + DONE_TTL)
  {
    KeyMoves(s.world, step, e.job);
    if step.Release? || step.MarkDone? {
      assert OwnsKey(s, step.run);
    }
  }

  lemma PublishIsSpaced(s: State, step: W.Step)
    requires Inv(s) && Can(s, Work(step)) && step.Publish?
    ensures Spaced(Do(s, Work(step)).results)
    ensures Guarded(Do(s, Work(step)), Result(s.world.runs[step.run].job, s.now))
  {
    var s', run, job := Do(s, Work(step)), step.run, s.world.runs[step.run].job;
    assert OwnsKey(s, run);
    WorkMoves(s.world, step, run);
    assert Marking(s'.world, job) by {
      assert AtWork(s'.world, run) && s'.world.runs[run].phase.Published?;
    }
    forall i | 0 <= i < |s.results| && s.results[i].job == job ensures s.now >= s.results[i].at + DONE_TTL {
      assert Guarded(s, s.results[i]);
      forall r | AtWork(s.world, r) && s.world.runs[r].job == job ensures !s.world.runs[r].phase.Published? {}
    }
  }

  lemma WorkKeepsInv(s: State, step: W.Step)
    requires Inv(s) && Can(s, Work(step))
    ensures Inv(Do(s, Work(step)))
  {
    var s' := Do(s, Work(step));
    forall r ensures OwnsKey(s', r) { OwnerStays(s, step, r); }
    ExclusionStays(s, step);
    if step.Publish? {
      PublishIsSpaced(s, step);
    }
    forall e | e in s'.results ensures Guarded(s', e) {
      if e in s.results {
        GuardStays(s, step, e);
      }
    }
  }

  lemma TickKeepsInv(s: State, step: Step)
    requires Inv(s) && Can(s, step) && step.Tick?
    ensures Inv(Do(s, step))
  {
    forall r ensures OwnsKey(Do(s, step), r) { assert OwnsKey(s, r); }
    forall e | e in s.results ensures Guarded(Do(s, step), e) { assert Guarded(s, e); }
  }

  lemma {:induction false} RunKeepsInv(s: State, steps: seq<Step>)
    requires Inv(s) && Admissible(s, steps)
    ensures Inv(Exec(s, steps))
    decreases |steps|
  {
    if steps != [] {
      match steps[0] {
        case Tick(_) => TickKeepsInv(s, steps[0]);
        case Work(step) => WorkKeepsInv(s, step);
      }
      RunKeepsInv(Do(s, steps[0]), steps[1..]);
    }
  }

  /** At most one run per message is between claim and release, and two results for one message are
      at least DONE_TTL apart. */
  lemma ClaimExclusion(now: int, queue: string, steps: seq<Step>)
    requires Admissible(Start(now, queue), steps)
    ensures var s := Exec(Start(now, queue), steps);
      && (forall r, q :: AtWork(s.world, r) && AtWork(s.world, q) && s.world.runs[r].job == s.world.runs[q].job ==>
          r == q)
      && (forall i, j :: 0 <= i < j < |s.results| && s.results[i].job == s.results[j].job ==>
            s.results[j].at >= s.results[i].at + DONE_TTL)
  {
    RunKeepsInv(Start(now, queue), steps);
  }

  /** The timed runs are runs of the claim machine, so what holds of those holds here. */
  ghost function WorkOf(steps: seq<Step>): seq<W.Step> {
    if steps == [] then [] else (if steps[0].Work? then [steps[0].step] else []) + WorkOf(steps[1..])
  }

  lemma {:induction false} TimedRunIsARun(s: State, steps: seq<Step>)
    requires Admissible(s, steps)
    ensures W.Admissible(s.world, WorkOf(steps)) && W.Exec(s.world, WorkOf(steps)) == Exec(s, steps).world
    decreases |steps|
  {
    if steps != [] {
      TimedRunIsARun(Do(s, steps[0]), steps[1..]);
      if steps[0].Work? {
        W.ExecOne(s.world, steps[0].step);
        W.ExecAppend(s.world, [steps[0].step], WorkOf(steps[1..]));
      } else {
        assert WorkOf(steps) == WorkOf(steps[1..]);
      }
    }
  }
}
