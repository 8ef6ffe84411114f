/** The AI worker's Redis claim on top of the retry cycle: copies of a job travel through the broker
    while handler runs claim, publish, mark and release its key.

    A run belongs to the delivery that started it until that delivery is lost; then it goes on
    without one. A key may vanish at any moment: `ForgetKey` is its TTL running out. */
module WorkerClaims {
  import opened Prelude
  import opened Messages
  import RetryCycle

  type MsgId = RetryCycle.MsgId
  type RunId = nat

  datatype Key = Processing | Done

  datatype Phase = Fresh | Claimed | Published | Failing

  datatype Run = Run(copy: MsgId, envelope: Envelope, phase: Phase) {
    const job: Id := envelope.messageId
  }

  /** `current` maps each delivery being handled to its run; `published` are the jobs with a result
      on the result queue. */
  datatype World = World(
    broker: RetryCycle.State,
    keys: map<Id, Key>,
    runs: map<RunId, Run>,
    current: map<MsgId, RunId>,
    published: set<Id>)

  datatype Step =
    | Broker(step: RetryCycle.Step)
    | Start(copy: MsgId, run: RunId)
    | Refuse(run: RunId)
    | Claim(run: RunId)
    | ClaimError(run: RunId, applied: bool)
    | Publish(run: RunId)
    | Fail(run: RunId, delivered: bool)
    | MarkDone(run: RunId)
    | MarkError(run: RunId, applied: bool)
    | Release(run: RunId, deleted: bool)
    | ForgetKey(job: Id)
    | Lose(copy: MsgId)
    | Crash(run: RunId)

  function New(queue: string): World {
    World(RetryCycle.New(queue), map[], map[], map[], {})
  }

  function JobOf(s: RetryCycle.State, c: MsgId): Option<Id> {
    if c in s.accepted && s.accepted[c].Parsed? then Some(s.accepted[c].envelope.messageId) else None
  }

  predicate Supported(envelope: Envelope) {
    SupportedEventVersion(envelope.eventType, envelope.eventVersion)
  }

  predicate At(w: World, run: RunId, phase: Phase) {
    run in w.runs && w.runs[run].phase == phase
  }

  predicate Attached(w: World, run: RunId) {
    run in w.runs && w.runs[run].copy in w.current && w.current[w.runs[run].copy] == run
  }

  /** The handler run ends: its promise resolves or rejects, and the consumer settles the delivery
      if the run still has one. */
  predicate CanEnd(w: World, run: RunId, ok: bool) {
    run in w.runs && (Attached(w, run) ==> RetryCycle.Can(w.broker, RetryCycle.Settle(w.runs[run].copy, ok)))
  }

  function End(w: World, run: RunId, ok: bool): World
    requires CanEnd(w, run, ok)
  {
    var copy := w.runs[run].copy;
    if Attached(w, run) then
      w.(broker := RetryCycle.Do(w.broker, RetryCycle.Settle(copy, ok)),
         current := w.current - {copy}, runs := w.runs - {run})
    else
      w.(runs := w.runs - {run})
  }

  predicate Can(w: World, step: Step) {
    match step
    case Broker(b) =>
      && !b.Settle? && !b.Lose? && RetryCycle.Can(w.broker, b)
      && (b.Begin? ==> !RetryCycle.PhaseAfterBegin(w.broker.unacked[b.id].msg, w.broker.queue).Running?)
    case Start(copy, run) =>
      && run !in w.runs
      && RetryCycle.Can(w.broker, RetryCycle.Begin(copy))
      && RetryCycle.PhaseAfterBegin(w.broker.unacked[copy].msg, w.broker.queue).Running?
      && w.broker.unacked[copy].msg.body.Parsed?
    case Refuse(run) => At(w, run, Fresh) && !Supported(w.runs[run].envelope) && CanEnd(w, run, false)
    case Claim(run) => At(w, run, Fresh) && Supported(w.runs[run].envelope) && CanEnd(w, run, true)
    case ClaimError(run, _) => At(w, run, Fresh) && Supported(w.runs[run].envelope) && CanEnd(w, run, false)
    case Publish(run) => At(w, run, Claimed) && ValidJob(w.runs[run].envelope.payload)
    case Fail(run, delivered) => At(w, run, Claimed) && (delivered ==> ValidJob(w.runs[run].envelope.payload))
    case MarkDone(run) => At(w, run, Published) && CanEnd(w, run, true)
    case MarkError(run, _) => At(w, run, Published)
    case Release(run, _) => At(w, run, Failing) && CanEnd(w, run, false)
    case ForgetKey(job) => true
    case Lose(copy) => RetryCycle.Can(w.broker, RetryCycle.Lose(copy))
    case Crash(run) =>
      run in w.runs && (Attached(w, run) ==> RetryCycle.Can(w.broker, RetryCycle.Lose(w.runs[run].copy)))
  }

  function SetPhase(w: World, run: RunId, phase: Phase): World
    requires run in w.runs
  {
    w.(runs := w.runs[run := w.runs[run].(phase := phase)])
  }

  function Do(w: World, step: Step): World
    requires Can(w, step)
  {
    match step
    case Broker(b) => w.(broker := RetryCycle.Do(w.broker, b))
    case Start(copy, run) =>
      var envelope := w.broker.unacked[copy].msg.body.envelope;
      w.(broker := RetryCycle.Do(w.broker, RetryCycle.Begin(copy)),
         runs := w.runs[run := Run(copy, envelope, Fresh)], current := w.current[copy := run])
    case Refuse(run) => End(w, run, false)
    case Claim(run) =>
      var job := w.runs[run].job;
      if job in w.keys then End(w, run, true)
      else SetPhase(w.(keys := w.keys[job := Processing]), run, Claimed)
    case ClaimError(run, applied) =>
      var job := w.runs[run].job;
      var ended := End(w, run, false);
      if applied && job !in w.keys then ended.(keys := w.keys[job := Processing]) else ended
    case Publish(run) => SetPhase(w.(published := w.published + {w.runs[run].job}), run, Published)
    case Fail(run, delivered) =>
      SetPhase(if delivered then w.(published := w.published + {w.runs[run].job}) else w, run, Failing)
    case MarkDone(run) => End(w, run, true).(keys := w.keys[w.runs[run].job := Done])
    case MarkError(run, applied) =>
      SetPhase(if applied then w.(keys := w.keys[w.runs[run].job := Done]) else w, run, Failing)
    case Release(run, deleted) =>
      End(w, run, false).(keys := if deleted then w.keys - {w.runs[run].job} else w.keys)
    case ForgetKey(job) => w.(keys := w.keys - {job})
    case Lose(copy) => w.(broker := RetryCycle.Do(w.broker, RetryCycle.Lose(copy)), current := w.current - {copy})
    case Crash(run) =>
      var copy := w.runs[run].copy;
      if Attached(w, run) then
        w.(broker := RetryCycle.Do(w.broker, RetryCycle.Lose(copy)),
           current := w.current - {copy}, runs := w.runs - {run})
      else
        w.(runs := w.runs - {run})
  }

  ghost predicate Admissible(w: World, steps: seq<Step>)
    decreases |steps|
  {
    steps == [] || (Can(w, steps[0]) && Admissible(Do(w, steps[0]), steps[1..]))
  }

  ghost function Exec(w: World, steps: seq<Step>): World
    requires Admissible(w, steps)
    decreases |steps|
  {
    if steps == [] then w else Exec(Do(w, steps[0]), steps[1..])
  }

  lemma {:induction false} ExecAppend(w: World, a: seq<Step>, b: seq<Step>)
    requires Admissible(w, a) && Admissible(Exec(w, a), b)
    ensures Admissible(w, a + b) && Exec(w, a + b) == Exec(Exec(w, a), b)
    decreases |a|
  {
    if a == [] {
      assert a + b == b;
    } else {
      assert (a + b)[0] == a[0] && (a + b)[1..] == a[1..] + b;
      ExecAppend(Do(w, a[0]), a[1..], b);
    }
  }

  lemma ExecOne(w: World, step: Step)
    requires Can(w, step)
    ensures Admissible(w, [step]) && Exec(w, [step]) == Do(w, step)
  {
    assert [step][1..] == [];
  }

  lemma ExecTwo(w: World, a: Step, b: Step)
    requires Can(w, a) && Can(Do(w, a), b)
    ensures Admissible(w, [a, b]) && Exec(w, [a, b]) == Do(Do(w, a), b)
  {
    ExecOne(w, a);
    ExecOne(Do(w, a), b);
    ExecAppend(w, [a], [b]);
    assert [a] + [b] == [a, b];
  }

  lemma ExecThree(w: World, a: Step, b: Step, c: Step)
    requires Can(w, a) && Can(Do(w, a), b) && Can(Do(Do(w, a), b), c)
    ensures Admissible(w, [a, b, c]) && Exec(w, [a, b, c]) == Do(Do(Do(w, a), b), c)
  {
    ExecTwo(w, a, b);
    ExecOne(Do(Do(w, a), b), c);
    ExecAppend(w, [a, b], [c]);
    assert [a, b] + [c] == [a, b, c];
  }

  // ----- which steps break a claim window -----

  /** The run holds its job's claim and has not published. */
  predicate InWindow(w: World, run: RunId) {
    run in w.runs && (w.runs[run].phase.Claimed? || w.runs[run].phase.Failing?) && w.runs[run].job !in w.published
  }

  /** The run of delivery c is between claim and release. */
  ghost predicate ClaimedBy(w: World, c: MsgId, job: Id) {
    && c in w.current && w.current[c] in w.runs
    && w.runs[w.current[c]].job == job
    && (w.runs[w.current[c]].phase.Claimed? || w.runs[w.current[c]].phase.Failing?)
  }

  /** No other delivery's run is between claim and release of the same job. */
  ghost predicate Alone(w: World, run: RunId)
    requires run in w.runs
  {
    forall c :: ClaimedBy(w, c, w.runs[run].job) ==> w.current[c] == run
  }

  /** The key of an unpublished job rests on this run alone. */
  ghost predicate HoldsKey(w: World, run: RunId) {
    InWindow(w, run) && w.runs[run].job in w.keys && Alone(w, run)
  }

  /** Nobody works on the unpublished job of this run and nothing blocks it. */
  ghost predicate Unclaimed(w: World, run: RunId)
    requires run in w.runs
  {
    w.runs[run].job !in w.keys && w.runs[run].job !in w.published && Alone(w, run)
  }

  /** The ways to break a claim window: the delivery or the worker is lost inside it, the release does
      not delete the key, the claim is made but its reply is lost, or it is made by a run whose
      delivery was lost before. */
  ghost predicate Breaks(w: World, step: Step)
    requires Can(w, step)
  {
    match step
    case Lose(copy) => copy in w.current && HoldsKey(w, w.current[copy])
    case Crash(run) => Attached(w, run) && HoldsKey(w, run)
    case Release(run, deleted) => !deleted && Attached(w, run) && HoldsKey(w, run)
    case ClaimError(run, applied) => applied && Unclaimed(w, run)
    case Claim(run) => !Attached(w, run) && Unclaimed(w, run)
    case _ => false
  }

  /** No step of the run breaks a window. */
  ghost predicate Careful(w: World, steps: seq<Step>)
    requires Admissible(w, steps)
    decreases |steps|
  {
    steps == [] || (!Breaks(w, steps[0]) && Careful(Do(w, steps[0]), steps[1..]))
  }

  // ----- what every step keeps -----

  ghost predicate RunOk(w: World, r: RunId) {
    r in w.runs ==>
      && w.runs[r].copy in w.broker.accepted
      && w.broker.accepted[w.runs[r].copy] == RetryCycle.Parsed(w.runs[r].envelope)
      && (w.runs[r].phase.Published? ==> w.runs[r].job in w.published)
      && (!w.runs[r].phase.Fresh? ==> Supported(w.runs[r].envelope))
  }

  ghost predicate CurrentOk(w: World, c: MsgId) {
    && (c in w.current ==>
          && w.current[c] in w.runs && w.runs[w.current[c]].copy == c
          && c in w.broker.unacked && w.broker.unacked[c].phase.Running?)
    && (c in w.broker.unacked && w.broker.unacked[c].phase.Running? ==> c in w.current)
  }

  ghost predicate Core(w: World) {
    RetryCycle.Inv(w.broker) && (forall c :: CurrentOk(w, c)) && (forall r :: RunOk(w, r))
  }

  /** What the step does to the broker. */
  function BrokerStep(w: World, step: Step): Option<RetryCycle.Step>
    requires Can(w, step)
  {
    match step
    case Broker(b) => Some(b)
    case Start(copy, _) => Some(RetryCycle.Begin(copy))
    case Refuse(run) => SettleOf(w, run, false)
    case Claim(run) => if w.runs[run].job in w.keys then SettleOf(w, run, true) else None
    case ClaimError(run, _) => SettleOf(w, run, false)
    case MarkDone(run) => SettleOf(w, run, true)
    case Release(run, _) => SettleOf(w, run, false)
    case Lose(copy) => Some(RetryCycle.Lose(copy))
    case Crash(run) => if Attached(w, run) then Some(RetryCycle.Lose(w.runs[run].copy)) else None
    case _ => None
  }

  function SettleOf(w: World, run: RunId, ok: bool): Option<RetryCycle.Step>
    requires run in w.runs
  {
    if Attached(w, run) then Some(RetryCycle.Settle(w.runs[run].copy, ok)) else None
  }

  lemma BrokerMoves(w: World, step: Step)
    requires Can(w, step)
    ensures BrokerStep(w, step).Some? ==> RetryCycle.Can(w.broker, BrokerStep(w, step).value)
    ensures Do(w, step).broker ==
      match BrokerStep(w, step) case None => w.broker case Some(b) => RetryCycle.Do(w.broker, b)
  {
  }

  /** The runs a step leaves as they were, and the one it ends, starts or moves on. */
  lemma RunsMove(w: World, step: Step, r: RunId)
    requires Can(w, step) && r in Do(w, step).runs
    ensures r in w.runs ==>
      && Do(w, step).runs[r].copy == w.runs[r].copy && Do(w, step).runs[r].envelope == w.runs[r].envelope
      && (Do(w, step).runs[r].phase.Published? ==> w.runs[r].phase.Published? || w.runs[r].job in Do(w, step).published)
      && (Do(w, step).runs[r].phase.Fresh? || !w.runs[r].phase.Fresh? || Supported(w.runs[r].envelope))
    ensures r !in w.runs ==>
      && step == Start(Do(w, step).runs[r].copy, r) && Do(w, step).runs[r].phase.Fresh?
      && w.broker.unacked[step.copy].msg.body == RetryCycle.Parsed(Do(w, step).runs[r].envelope)
  {
  }

  lemma PublishedGrows(w: World, step: Step)
    requires Can(w, step)
    ensures w.published <= Do(w, step).published
  {
  }

  lemma AcceptedStays(s: RetryCycle.State, b: RetryCycle.Step)
    requires RetryCycle.Can(s, b)
    ensures forall c :: c in s.accepted ==>
        c in RetryCycle.Do(s, b).accepted && RetryCycle.Do(s, b).accepted[c] == s.accepted[c]
    ensures forall c :: c in RetryCycle.Do(s, b).accepted ==> c in s.accepted || (b.Accept? && c == b.id)
  {
  }

  lemma StepKeepsRun(w: World, step: Step, r: RunId)
    requires Core(w) && Can(w, step)
    ensures RunOk(Do(w, step), r)
  {
    BrokerMoves(w, step);
    PublishedGrows(w, step);
    if BrokerStep(w, step).Some? {
      AcceptedStays(w.broker, BrokerStep(w, step).value);
    }
    if r in Do(w, step).runs {
      RunsMove(w, step, r);
      assert RunOk(w, r);
      if r !in w.runs {
        assert RetryCycle.HeldOk(w.broker, step.copy, w.broker.unacked[step.copy]);
      }
    }
  }

  /** How a broker step moves a delivery into or out of its handler. */
  lemma RunningMoves(s: RetryCycle.State, b: RetryCycle.Step, c: MsgId)
    requires RetryCycle.Inv(s) && RetryCycle.Can(s, b)
    ensures var s' := RetryCycle.Do(s, b);
      (c in s'.unacked && s'.unacked[c].phase.Running?) <==>
        if b.Begin? && b.id == c then RetryCycle.PhaseAfterBegin(s.unacked[c].msg, s.queue).Running?
        else c in s.unacked && s.unacked[c].phase.Running? && !((b.Settle? || b.Lose?) && b.id == c)
  {
    assert RetryCycle.PlaceCount(s, c) == if c in s.accepted then 1 else 0;
    if b.Deliver? || b.Begin? {
      assert RetryCycle.PlaceCount(s, b.id) == if b.id in s.accepted then 1 else 0;
    }
  }

  lemma CurrentMoves(w: World, step: Step, c: MsgId)
    requires Core(w) && Can(w, step)
    ensures c in Do(w, step).current <==>
      match BrokerStep(w, step)
      case None => c in w.current
      case Some(b) =>
        if b.Begin? && b.id == c then step.Start? || c in w.current
        else c in w.current && !((b.Settle? || b.Lose?) && b.id == c)
    ensures c in Do(w, step).current && !(step.Start? && c == step.copy) ==>
      c in w.current && Do(w, step).current[c] == w.current[c] && w.current[c] in Do(w, step).runs
    ensures step.Start? && c == step.copy ==> c in Do(w, step).current && Do(w, step).current[c] == step.run
  {
    assert CurrentOk(w, c);
  }

  lemma StepKeepsCurrent(w: World, step: Step, c: MsgId)
    requires Core(w) && Can(w, step)
    ensures CurrentOk(Do(w, step), c)
  {
    assert CurrentOk(w, c);
    BrokerMoves(w, step);
    CurrentMoves(w, step, c);
    if BrokerStep(w, step).Some? {
      RunningMoves(w.broker, BrokerStep(w, step).value, c);
    }
    if c in Do(w, step).current {
      RunsMove(w, step, Do(w, step).current[c]);
    }
  }

  /** Every step, careful or not, keeps runs and deliveries together. */
  lemma StepKeepsCore(w: World, step: Step)
    requires Core(w) && Can(w, step)
    ensures Core(Do(w, step))
  {
    BrokerMoves(w, step);
    if BrokerStep(w, step).Some? {
      RetryCycle.StepKeepsInv(w.broker, BrokerStep(w, step).value);
    }
    forall c ensures CurrentOk(Do(w, step), c) { StepKeepsCurrent(w, step, c); }
    forall r ensures RunOk(Do(w, step), r) { StepKeepsRun(w, step, r); }
  }

  // ----- keys and jobs -----

  /** A key stands for a published job or for a run at work. */
  ghost predicate KeyOk(w: World, job: Id) {
    job in w.keys ==> job in w.published || (w.keys[job] == Processing && exists c :: ClaimedBy(w, c, job))
  }

  /** The broker still has this copy, and it will come back or rest in the DLQ. */
  predicate Holding(s: RetryCycle.State, c: MsgId) {
    || c in s.ready || c in s.retry || c in s.parked
    || (c in s.unacked && s.unacked[c].phase != RetryCycle.Settled(true))
  }

  ghost predicate Covered(w: World, job: Id) {
    job in w.published || exists c :: Holding(w.broker, c) && JobOf(w.broker, c) == Some(job)
  }

  ghost predicate AllCovered(w: World) {
    forall c :: JobOf(w.broker, c).Some? ==> Covered(w, JobOf(w.broker, c).value)
  }

  ghost predicate Inv(w: World) {
    Core(w) && (forall job :: KeyOk(w, job)) && AllCovered(w)
  }

  lemma HoldingStays(s: RetryCycle.State, b: RetryCycle.Step, c: MsgId)
    requires RetryCycle.Can(s, b) && Holding(s, c) && b != RetryCycle.Settle(c, true)
    ensures Holding(RetryCycle.Do(s, b), c)
  {
  }

  lemma CoverStays(w: World, w': World, b: RetryCycle.Step, job: Id)
    requires RetryCycle.Can(w.broker, b) && w'.broker == RetryCycle.Do(w.broker, b) && w.published <= w'.published
    requires job in w.published || exists c ::
        Holding(w.broker, c) && JobOf(w.broker, c) == Some(job) && b != RetryCycle.Settle(c, true)
    ensures Covered(w', job)
  {
    if job !in w.published {
      var c :| Holding(w.broker, c) && JobOf(w.broker, c) == Some(job) && b != RetryCycle.Settle(c, true);
      HoldingStays(w.broker, b, c);
      AcceptedStays(w.broker, b);
      assert Holding(w'.broker, c) && JobOf(w'.broker, c) == Some(job);
    }
  }

  /** A run that resolves has published, or another delivery's run holds the claim that made it a duplicate. */
  lemma ResolvedIsCovered(w: World, step: Step)
    requires Inv(w) && Can(w, step) && BrokerStep(w, step).Some? && BrokerStep(w, step).value.Settle?
    requires BrokerStep(w, step).value.ok
    ensures var c := BrokerStep(w, step).value.id;
      && JobOf(w.broker, c).Some?
      && (JobOf(w.broker, c).value in w.published
          || exists d :: d != c && Holding(w.broker, d) && JobOf(w.broker, d) == JobOf(w.broker, c))
  {
    var run, job := step.run, w.runs[step.run].job;
    assert RunOk(w, run) && KeyOk(w, job);
    if job !in w.published {
      var d :| ClaimedBy(w, d, job);
      assert CurrentOk(w, d) && RunOk(w, w.current[d]);
      assert Holding(w.broker, d) && JobOf(w.broker, d) == Some(job);
    }
  }

  /** Every step, careful or not, leaves every accepted job published or held. */
  lemma StepKeepsCover(w: World, step: Step, job: Id)
    requires Inv(w) && Can(w, step) && Covered(w, job)
    ensures Covered(Do(w, step), job)
  {
    BrokerMoves(w, step);
    PublishedGrows(w, step);
    if job !in w.published {
      var c :| Holding(w.broker, c) && JobOf(w.broker, c) == Some(job);
      if BrokerStep(w, step).None? {
        assert Holding(Do(w, step).broker, c);
      } else {
        var b := BrokerStep(w, step).value;
        if b == RetryCycle.Settle(c, true) {
          ResolvedIsCovered(w, step);
        }
        CoverStays(w, Do(w, step), b, job);
      }
    }
  }

  lemma StepKeepsAllCovered(w: World, step: Step)
    requires Inv(w) && Can(w, step)
    ensures AllCovered(Do(w, step))
  {
    BrokerMoves(w, step);
    forall c | JobOf(Do(w, step).broker, c).Some? ensures Covered(Do(w, step), JobOf(Do(w, step).broker, c).value) {
      var job := JobOf(Do(w, step).broker, c).value;
      if BrokerStep(w, step).Some? {
        AcceptedStays(w.broker, BrokerStep(w, step).value);
      }
      if c in w.broker.accepted {
        assert JobOf(w.broker, c) == Some(job);
        StepKeepsCover(w, step, job);
      } else {
        assert Holding(Do(w, step).broker, c);
      }
    }
  }

  /** The job whose key a step can touch. */
  function JobAt(w: World, step: Step): Option<Id>
    requires Can(w, step)
  {
    match step
    case Broker(_) => None
    case Start(_, _) => None
    case ForgetKey(_) => None
    case Lose(copy) =>
      if copy in w.current && w.current[copy] in w.runs then Some(w.runs[w.current[copy]].job) else None
    case _ => Some(w.runs[step.run].job)
  }

  /** A run at work on another job, or on another delivery of this one, is still at work after the step. */
  lemma ClaimStays(w: World, step: Step, c: MsgId, job: Id)
    requires Core(w) && Can(w, step) && ClaimedBy(w, c, job)
    requires JobAt(w, step) == Some(job) ==> w.current[c] != (if step.Lose? then w.current[step.copy] else step.run)
    ensures ClaimedBy(Do(w, step), c, job)
  {
    assert CurrentOk(w, c);
    if step.Start? {
      assert CurrentOk(w, step.copy);
    }
    if step.Lose? && step.copy in w.current {
      assert CurrentOk(w, step.copy);
    }
  }

  /** Only the run that the step ends or moves can stop being at work on the step's job. */
  lemma OtherKeysStay(w: World, step: Step, job: Id)
    requires Core(w) && Can(w, step) && KeyOk(w, job) && JobAt(w, step) != Some(job)
    ensures KeyOk(Do(w, step), job)
  {
    PublishedGrows(w, step);
    if job in w.keys && job !in w.published {
      var c :| ClaimedBy(w, c, job);
      ClaimStays(w, step, c, job);
    }
  }

  /** The run whose claim the step touches. */
  function RunAt(w: World, step: Step): RunId
    requires Can(w, step) && JobAt(w, step).Some?
  {
    if step.Lose? then w.current[step.copy] else step.run
  }

  /** If another delivery's run is at work, the step's key stays right. */
  lemma BackedKeyStays(w: World, step: Step, d: MsgId)
    requires Core(w) && Can(w, step) && JobAt(w, step).Some? && KeyOk(w, JobAt(w, step).value)
    requires ClaimedBy(w, d, JobAt(w, step).value) && w.current[d] != RunAt(w, step)
    ensures KeyOk(Do(w, step), JobAt(w, step).value)
  {
    PublishedGrows(w, step);
    ClaimStays(w, step, d, JobAt(w, step).value);
    if !step.Lose? {
      assert RunOk(w, step.run);
    }
  }

  lemma SoleClaim(w: World, run: RunId, c: MsgId)
    requires Core(w) && run in w.runs && Alone(w, run) && ClaimedBy(w, c, w.runs[run].job)
    ensures Attached(w, run) && c == w.runs[run].copy && w.current[c] == run
    ensures w.runs[run].phase.Claimed? || w.runs[run].phase.Failing?
  {
    assert CurrentOk(w, c);
  }

  /** The run ends, or loses its delivery: nobody is at work on the job any more. */
  lemma NobodyAfterEnd(w: World, step: Step)
    requires Core(w) && Can(w, step) && JobAt(w, step).Some? && Alone(w, RunAt(w, step))
    requires step.Lose? || step.Crash? || step.Release? || step.Refuse? || step.ClaimError? || step.MarkDone?
      || (step.Claim? && (JobAt(w, step).value in w.keys || !Attached(w, step.run)))
    ensures forall c :: !ClaimedBy(Do(w, step), c, JobAt(w, step).value)
  {
    var run, job := RunAt(w, step), JobAt(w, step).value;
    forall c ensures !ClaimedBy(Do(w, step), c, job) {
      if ClaimedBy(Do(w, step), c, job) {
        if step.Lose? { assert CurrentOk(w, step.copy); }
        assert CurrentOk(w, c);
        assert ClaimedBy(w, c, job);
        SoleClaim(w, run, c);
        assert false;
      }
    }
  }

  lemma LoneKeyAfterEnd(w: World, step: Step)
    requires Core(w) && Can(w, step) && JobAt(w, step).Some? && KeyOk(w, JobAt(w, step).value)
    requires Alone(w, RunAt(w, step))
    requires step.Lose? || step.Crash? || step.Release? || step.Refuse? || step.ClaimError? || step.MarkDone?
      || (step.Claim? && (JobAt(w, step).value in w.keys || !Attached(w, step.run)))
    ensures KeyOk(Do(w, step), JobAt(w, step).value) <==> !Breaks(w, step)
  {
    var run, job := RunAt(w, step), JobAt(w, step).value;
    assert RunOk(w, run);
    NobodyAfterEnd(w, step);
    if step.Lose? { assert CurrentOk(w, step.copy); }
    if job in w.keys && job !in w.published {
      var c :| ClaimedBy(w, c, job);
      SoleClaim(w, run, c);
    }
  }

  /** The run goes on. */
  lemma LoneKeyGoesOn(w: World, step: Step)
    requires Core(w) && Can(w, step) && JobAt(w, step).Some? && KeyOk(w, JobAt(w, step).value)
    requires Alone(w, RunAt(w, step))
    requires step.Publish? || step.Fail? || step.MarkError?
      || (step.Claim? && JobAt(w, step).value !in w.keys && Attached(w, step.run))
    ensures KeyOk(Do(w, step), JobAt(w, step).value)
  {
    var run, job := step.run, JobAt(w, step).value;
    assert RunOk(w, run);
    if step.Claim? {
      assert ClaimedBy(Do(w, step), w.runs[run].copy, job);
    } else if job in w.keys && job !in w.published {
      var c :| ClaimedBy(w, c, job);
      SoleClaim(w, run, c);
      if step.Fail? {
        assert ClaimedBy(Do(w, step), c, job);
      }
    }
  }

  /** The step's own key is right afterwards exactly if the step breaks no window. */
  lemma OwnKey(w: World, step: Step)
    requires Core(w) && Can(w, step) && JobAt(w, step).Some? && KeyOk(w, JobAt(w, step).value)
    ensures KeyOk(Do(w, step), JobAt(w, step).value) <==> !Breaks(w, step)
  {
    if Alone(w, RunAt(w, step)) {
      if step.Publish? || step.Fail? || step.MarkError?
          || (step.Claim? && JobAt(w, step).value !in w.keys && Attached(w, step.run)) {
        LoneKeyGoesOn(w, step);
      } else {
        LoneKeyAfterEnd(w, step);
      }
    } else {
      var d :| ClaimedBy(w, d, w.runs[RunAt(w, step)].job) && w.current[d] != RunAt(w, step);
      BackedKeyStays(w, step, d);
    }
  }

  /** A step keeps the invariant exactly if it breaks no claim window. */
  lemma BreakIsExact(w: World, step: Step)
    requires Inv(w) && Can(w, step)
    ensures Inv(Do(w, step)) <==> !Breaks(w, step)
  {
    StepKeepsCore(w, step);
    StepKeepsAllCovered(w, step);
    forall job | JobAt(w, step) != Some(job) ensures KeyOk(Do(w, step), job) {
      assert KeyOk(w, job);
      OtherKeysStay(w, step, job);
    }
    if JobAt(w, step).Some? {
      assert KeyOk(w, JobAt(w, step).value);
      OwnKey(w, step);
    }
  }

  lemma {:induction false} RunKeepsInv(w: World, steps: seq<Step>)
    requires Inv(w) && Admissible(w, steps) && Careful(w, steps)
    ensures Inv(Exec(w, steps))
    decreases |steps|
  {
    if steps != [] {
      BreakIsExact(w, steps[0]);
      RunKeepsInv(Do(w, steps[0]), steps[1..]);
    }
  }

  /** In every run that breaks no claim window, no accepted job vanishes: it has a published result,
      or some copy of it is ready, unacked, in retry, or acked with a copy in the DLQ. */
  lemma NoJobVanishes(queue: string, steps: seq<Step>, c: MsgId)
    requires Admissible(New(queue), steps) && Careful(New(queue), steps)
    requires JobOf(Exec(New(queue), steps).broker, c).Some?
    ensures var w := Exec(New(queue), steps);
      var job := JobOf(w.broker, c).value;
      || job in w.published
      || exists d :: JobOf(w.broker, d) == Some(job) &&
           (d in w.broker.ready || d in w.broker.unacked || d in w.broker.retry || RetryCycle.InDlq(w.broker.dlq, d))
  {
    NewInv(queue);
    RunKeepsInv(New(queue), steps);
    CoveredIsFound(Exec(New(queue), steps), JobOf(Exec(New(queue), steps).broker, c).value);
  }

  lemma NewInv(queue: string)
    ensures Inv(New(queue))
  {
    assert RetryCycle.Inv(RetryCycle.New(queue));
  }

  lemma CoveredIsFound(w: World, job: Id)
    requires Core(w) && Covered(w, job)
    ensures || job in w.published
            || exists d :: JobOf(w.broker, d) == Some(job) &&
                 (d in w.broker.ready || d in w.broker.unacked || d in w.broker.retry
                     || RetryCycle.InDlq(w.broker.dlq, d))
  {
    if job !in w.published {
      var d :| Holding(w.broker, d) && JobOf(w.broker, d) == Some(job);
      assert d in w.broker.ready || d in w.broker.unacked || d in w.broker.retry || RetryCycle.InDlq(w.broker.dlq, d);
    }
  }
}
