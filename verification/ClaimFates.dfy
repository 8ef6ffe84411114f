/** What breaking a claim window costs. A break leaves the key of a job behind with nobody at work on
    it. From there the job can vanish, and this module says exactly when: if every copy of it was handled
    or has a delivery left. What else has to go wrong is part of the question. */
module ClaimFates {
  import opened Prelude
  import opened Messages
  import RetryCycle
  import opened QueueTopology
  import opened WorkerClaims

  /** The job was accepted, has no result, and no copy of it will ever be handled again. */
  ghost predicate Vanished(w: World, job: Id) {
    && (exists c :: JobOf(w.broker, c) == Some(job))
    && job !in w.published
    && (forall c :: JobOf(w.broker, c) == Some(job) ==>
          c in w.broker.handled && !Holding(w.broker, c) && !RetryCycle.InDlq(w.broker.dlq, c))
    && (forall r :: r in w.runs ==> w.runs[r].job != job)
  }

  // ----- a loss is for good -----

  predicate AcceptsCopy(step: Step, job: Id) {
    step.Broker? && step.step.Accept? && step.step.body.Parsed? && step.step.body.envelope.messageId == job
  }

  lemma NotInDlq(s: RetryCycle.State, c: MsgId)
    requires RetryCycle.Inv(s) && c in s.handled
    ensures !RetryCycle.InDlq(s.dlq, c)
  {
    forall d | d in s.dlq ensures d.id != c {}
  }

  lemma HandledRests(s: RetryCycle.State, b: RetryCycle.Step, c: MsgId)
    requires RetryCycle.Inv(s) && RetryCycle.Can(s, b) && c in s.handled
    ensures var s' := RetryCycle.Do(s, b);
      c in s'.handled && !Holding(s', c) && !RetryCycle.InDlq(s'.dlq, c)
  {
    var s' := RetryCycle.Do(s, b);
    assert RetryCycle.PlaceCount(s, c) == if c in s.accepted then 1 else 0;
    assert b.id != c;
    RetryCycle.OthersStay(s, b, c);
    RetryCycle.StepKeepsInv(s, b);
    assert RetryCycle.PlaceCount(s', c) == if c in s'.accepted then 1 else 0;
    NotInDlq(s', c);
  }

  lemma VanishedStep(w: World, step: Step, job: Id)
    requires Core(w) && Can(w, step) && Vanished(w, job) && !AcceptsCopy(step, job)
    ensures Vanished(Do(w, step), job)
  {
    var w' := Do(w, step);
    BrokerMoves(w, step);
    if BrokerStep(w, step).Some? {
      AcceptedStays(w.broker, BrokerStep(w, step).value);
    }
    forall c | JobOf(w'.broker, c) == Some(job)
      ensures c in w'.broker.handled && !Holding(w'.broker, c) && !RetryCycle.InDlq(w'.broker.dlq, c)
    {
      assert JobOf(w.broker, c) == Some(job);
      if BrokerStep(w, step).Some? {
        HandledRests(w.broker, BrokerStep(w, step).value, c);
      }
    }
    var c :| JobOf(w.broker, c) == Some(job);
    assert JobOf(w'.broker, c) == Some(job);
    VanishedRuns(w, step, job);
  }

  lemma VanishedRuns(w: World, step: Step, job: Id)
    requires Core(w) && Can(w, step) && Vanished(w, job)
    ensures job !in Do(w, step).published
    ensures forall r :: r in Do(w, step).runs ==> Do(w, step).runs[r].job != job
  {
    forall r | r in Do(w, step).runs ensures Do(w, step).runs[r].job != job {
      RunsMove(w, step, r);
      if r !in w.runs {
        assert RetryCycle.HeldOk(w.broker, step.copy, w.broker.unacked[step.copy]);
        assert JobOf(w.broker, step.copy) == Some(Do(w, step).runs[r].job);
        assert RetryCycle.PlaceCount(w.broker, step.copy) == 1;
      }
    }
  }

  /** Whatever happens afterwards, careful or not, a vanished job stays vanished, unless somebody sends
      a new copy of it. */
  lemma {:induction false} VanishedForGood(w: World, steps: seq<Step>, job: Id)
    requires Core(w) && Admissible(w, steps) && Vanished(w, job)
    requires forall step :: step in steps ==> !AcceptsCopy(step, job)
    ensures Vanished(Exec(w, steps), job)
    decreases |steps|
  {
    if steps != [] {
      assert steps[0] in steps;
      VanishedStep(w, steps[0], job);
      StepKeepsCore(w, steps[0]);
      VanishedForGood(Do(w, steps[0]), steps[1..], job);
    }
  }

  // ----- unsupported versions are never lost -----

  ghost predicate InPhase(w: World, c: MsgId, phase: RetryCycle.Phase) {
    c in w.broker.unacked && w.broker.unacked[c].phase == phase
  }

  predicate Unsupported(s: RetryCycle.State, c: MsgId) {
    c in s.accepted && s.accepted[c].Parsed? && !Supported(s.accepted[c].envelope)
  }

  ghost predicate Refused(w: World, c: MsgId) {
    Unsupported(w.broker, c) ==> c !in w.broker.handled && !InPhase(w, c, RetryCycle.Settled(true))
  }

  lemma StepKeepsRefused(w: World, step: Step, c: MsgId)
    requires Core(w) && Can(w, step) && Refused(w, c)
    ensures Refused(Do(w, step), c)
  {
    BrokerMoves(w, step);
    if BrokerStep(w, step).Some? {
      var b := BrokerStep(w, step).value;
      if Unsupported(w.broker, c) && b.Settle? && b.id == c {
        RefusedSettles(w, step, c);
      }
      BrokerRefuses(w.broker, b, c);
    }
  }

  /** The handler of an unsupported version throws. */
  lemma RefusedSettles(w: World, step: Step, c: MsgId)
    requires Core(w) && Can(w, step) && Unsupported(w.broker, c)
    requires BrokerStep(w, step).Some? && BrokerStep(w, step).value.Settle? && BrokerStep(w, step).value.id == c
    ensures !BrokerStep(w, step).value.ok
  {
    assert RunOk(w, step.run);
  }

  /** The copy was not acked as handled, nor did its handler resolve. */
  predicate NotResolved(s: RetryCycle.State, c: MsgId) {
    c !in s.handled && (c in s.unacked ==> s.unacked[c].phase != RetryCycle.Settled(true))
  }

  lemma BrokerRefuses(s: RetryCycle.State, b: RetryCycle.Step, c: MsgId)
    requires RetryCycle.Inv(s) && RetryCycle.Can(s, b) && (Unsupported(s, c) ==> NotResolved(s, c))
    requires Unsupported(s, c) && b.Settle? && b.id == c ==> !b.ok
    ensures var s' := RetryCycle.Do(s, b); Unsupported(s', c) ==> NotResolved(s', c)
  {
    if b.id != c {
      RetryCycle.OthersStay(s, b, c);
    } else {
      RetryCycle.PlaceOf(s, c);
    }
  }

  lemma {:induction false} RunKeepsRefused(w: World, steps: seq<Step>, c: MsgId)
    requires Core(w) && Admissible(w, steps) && Refused(w, c)
    ensures Refused(Exec(w, steps), c)
    decreases |steps|
  {
    if steps != [] {
      StepKeepsCore(w, steps[0]);
      StepKeepsRefused(w, steps[0], c);
      RunKeepsRefused(Do(w, steps[0]), steps[1..], c);
    }
  }

  /** In no run, careful or not, does a job vanish that has a copy of an unsupported version: the
      handler throws before it claims, and the copy goes on to the DLQ. */
  lemma UnsupportedNeverVanishes(queue: string, steps: seq<Step>, c: MsgId)
    requires Admissible(New(queue), steps) && JobOf(Exec(New(queue), steps).broker, c).Some?
    requires !Supported(Exec(New(queue), steps).broker.accepted[c].envelope)
    ensures !Vanished(Exec(New(queue), steps), JobOf(Exec(New(queue), steps).broker, c).value)
  {
    NewInv(queue);
    RunKeepsRefused(New(queue), steps, c);
  }

  // ----- fates -----

  /** What may still go wrong after a break: anything but another break; no further lost delivery; or
      nothing at all. */
  datatype Luck = Any | NoLostDelivery | NoMishap

  predicate LosesDelivery(w: World, step: Step) {
    step.Lose? || (step.Crash? && Attached(w, step.run))
  }

  predicate Mishap(step: Step) {
    step.Lose? || step.Crash? || step.Fail? || step.ClaimError? || step.MarkError? || (step.Release? && !step.deleted)
  }

  predicate Allows(luck: Luck, w: World, step: Step) {
    match luck
    case Any => true
    case NoLostDelivery => !LosesDelivery(w, step)
    case NoMishap => !Mishap(step)
  }

  ghost predicate Spared(w: World, steps: seq<Step>, luck: Luck)
    requires Admissible(w, steps)
    decreases |steps|
  {
    steps == [] || (Allows(luck, w, steps[0]) && Spared(Do(w, steps[0]), steps[1..], luck))
  }

  /** These steps break no window, keep to what `luck` allows, and end with the job vanished. */
  ghost predicate Fate(w: World, steps: seq<Step>, job: Id, luck: Luck) {
    Admissible(w, steps) && Careful(w, steps) && Spared(w, steps, luck) && Vanished(Exec(w, steps), job)
  }

  ghost predicate CanVanish(w: World, job: Id, luck: Luck) {
    exists steps :: Fate(w, steps, job, luck)
  }

  lemma FateAfter(w: World, step: Step, job: Id, luck: Luck)
    requires Can(w, step) && !Breaks(w, step) && Allows(luck, w, step)
    requires CanVanish(Do(w, step), job, luck)
    ensures CanVanish(w, job, luck)
  {
    var rest :| Fate(Do(w, step), rest, job, luck);
    var steps := [step] + rest;
    assert steps[0] == step && steps[1..] == rest;
    assert Fate(w, steps, job, luck);
  }

  lemma {:induction false} AnyIsSpared(w: World, steps: seq<Step>)
    requires Admissible(w, steps)
    ensures Spared(w, steps, Any)
    decreases |steps|
  {
    if steps != [] {
      AnyIsSpared(Do(w, steps[0]), steps[1..]);
    }
  }

  lemma SparedIsEnough(w: World, job: Id, luck: Luck)
    requires CanVanish(w, job, luck)
    ensures CanVanish(w, job, Any)
  {
    var steps :| Fate(w, steps, job, luck);
    AnyIsSpared(w, steps);
    assert Fate(w, steps, job, Any);
  }

  // ----- the copies of an abandoned job -----

  /** The key of an unpublished job stands, and nobody is at work on the job. */
  ghost predicate Abandoned(w: World, job: Id) {
    job in w.keys && job !in w.published && forall d :: !ClaimedBy(w, d, job)
  }

  /** The copy has a delivery left. Unless it may be lost, a rejection that is on its way counts. */
  predicate HasDelivery(s: RetryCycle.State, c: MsgId, luck: Luck) {
    && c in s.tally
    && var rejection := !luck.Any? && c in s.unacked && s.unacked[c].phase == RetryCycle.Settled(false);
       s.tally[c].rejected + (if rejection then 1 else 0) < MAX_DELIVERIES
  }

  /** The copy was acked after its handler resolved, or it has a delivery left that will end so. */
  predicate CopyEnds(s: RetryCycle.State, c: MsgId, luck: Luck) {
    && c in s.accepted && s.accepted[c].Parsed?
    && (c in s.handled || (Supported(s.accepted[c].envelope) && HasDelivery(s, c, luck)))
  }

  ghost predicate CopiesEnd(s: RetryCycle.State, job: Id, luck: Luck) {
    forall c :: JobOf(s, c) == Some(job) ==> CopyEnds(s, c, luck)
  }

  /** No run of the job has claimed and still has to publish. */
  ghost predicate NoneClaimed(w: World, job: Id) {
    forall r :: r in w.runs && w.runs[r].job == job ==> !w.runs[r].phase.Claimed?
  }

  ghost predicate HasCopy(s: RetryCycle.State, job: Id) {
    exists c :: JobOf(s, c) == Some(job)
  }

  ghost predicate Doomed(w: World, job: Id, luck: Luck) {
    && Core(w) && Abandoned(w, job) && HasCopy(w.broker, job) && CopiesEnd(w.broker, job, luck)
    && (luck.NoMishap? ==> NoneClaimed(w, job))
  }

  /** A step that moves copy c on without touching the job's key. */
  predicate MovesOn(w: World, step: Step, c: MsgId)
    requires Can(w, step)
  {
    match step
    case Broker(b) => !b.Accept? && b.id == c
    case Start(copy, _) => copy == c
    case Claim(run) => w.runs[run].job in w.keys && w.runs[run].copy == c
    case Lose(copy) => copy == c && copy !in w.current
    case _ => false
  }

  lemma AbandonedStays(w: World, step: Step, c: MsgId, job: Id)
    requires Abandoned(w, job) && Can(w, step) && MovesOn(w, step, c)
    ensures Abandoned(Do(w, step), job) && !Breaks(w, step)
  {
    forall d ensures !ClaimedBy(Do(w, step), d, job) {
      assert !ClaimedBy(w, d, job);
    }
  }

  lemma NoneClaimedStays(w: World, step: Step, c: MsgId, job: Id)
    requires NoneClaimed(w, job) && Can(w, step) && MovesOn(w, step, c)
    ensures NoneClaimed(Do(w, step), job)
  {
  }

  lemma OtherCopyStays(w: World, step: Step, c: MsgId, d: MsgId, luck: Luck)
    requires Can(w, step) && MovesOn(w, step, c) && d in w.broker.accepted && d != c
    ensures var s' := Do(w, step).broker;
      && d in s'.accepted && (d in s'.handled <==> d in w.broker.handled)
      && (CopyEnds(w.broker, d, luck) ==> CopyEnds(s', d, luck))
  {
    BrokerMoves(w, step);
    if BrokerStep(w, step).Some? {
      RetryCycle.OthersStay(w.broker, BrokerStep(w, step).value, d);
    }
  }

  lemma CopiesStay(w: World, step: Step, c: MsgId, job: Id, luck: Luck)
    requires CopiesEnd(w.broker, job, luck) && HasCopy(w.broker, job) && Can(w, step) && MovesOn(w, step, c)
    requires CopyEnds(Do(w, step).broker, c, luck)
    ensures CopiesEnd(Do(w, step).broker, job, luck) && HasCopy(Do(w, step).broker, job)
    ensures forall d :: d in w.broker.accepted && d != c ==>
      d in Do(w, step).broker.accepted && (d in Do(w, step).broker.handled <==> d in w.broker.handled)
    ensures forall d :: JobOf(Do(w, step).broker, d) == JobOf(w.broker, d)
  {
    BrokerMoves(w, step);
    var s' := Do(w, step).broker;
    if BrokerStep(w, step).Some? {
      AcceptedStays(w.broker, BrokerStep(w, step).value);
    }
    forall d ensures JobOf(s', d) == JobOf(w.broker, d) {}
    forall d | d in w.broker.accepted && d != c
      ensures d in s'.accepted && (d in s'.handled <==> d in w.broker.handled)
      ensures CopyEnds(w.broker, d, luck) ==> CopyEnds(s', d, luck)
    {
      OtherCopyStays(w, step, c, d, luck);
    }
    var d :| JobOf(w.broker, d) == Some(job);
    assert JobOf(s', d) == Some(job);
  }

  lemma DoomedStays(w: World, step: Step, c: MsgId, job: Id, luck: Luck)
    requires Doomed(w, job, luck) && Can(w, step) && MovesOn(w, step, c) && CopyEnds(Do(w, step).broker, c, luck)
    ensures Doomed(Do(w, step), job, luck) && !Breaks(w, step)
  {
    StepKeepsCore(w, step);
    AbandonedStays(w, step, c, job);
    CopiesStay(w, step, c, job, luck);
    if luck.NoMishap? {
      NoneClaimedStays(w, step, c, job);
    }
  }

  // ----- driving a copy to its end -----

  /** The broker step that takes the copy one place further. */
  function Onward(s: RetryCycle.State, c: MsgId): RetryCycle.Step
    requires c in s.unacked
  {
    match s.unacked[c].phase
    case Delivered => RetryCycle.Begin(c)
    case Running => RetryCycle.Settle(c, true)
    case Settled(ok) => if ok then RetryCycle.Ack(c) else RetryCycle.Nack(c)
    case _ => RetryCycle.Ack(c)
  }

  function NextMove(s: RetryCycle.State, c: MsgId): RetryCycle.Step {
    if c in s.ready then RetryCycle.Deliver(c)
    else if c in s.unacked then Onward(s, c)
    else RetryCycle.Expire(c)
  }

  /** The copy is on its way: parsed, not handled yet, with a delivery left. */
  ghost predicate OnItsWay(s: RetryCycle.State, c: MsgId) {
    && RetryCycle.Inv(s) && c in s.accepted && s.accepted[c].Parsed? && c !in s.handled
    && HasDelivery(s, c, NoLostDelivery)
  }

  lemma WayHeld(s: RetryCycle.State, c: MsgId)
    requires OnItsWay(s, c)
    ensures RetryCycle.PlaceOk(s, c) && RetryCycle.PlaceCount(s, c) == 1 && c !in s.parked
    ensures c in s.unacked ==> !s.unacked[c].phase.DlqSent? && !s.unacked[c].phase.Stranded?
  {
    RetryCycle.PlaceOf(s, c);
  }

  lemma NextCan(s: RetryCycle.State, c: MsgId)
    requires OnItsWay(s, c)
    ensures RetryCycle.Can(s, NextMove(s, c)) && NextMove(s, c).id == c
    ensures !NextMove(s, c).Accept? && !NextMove(s, c).Lose? && (NextMove(s, c).Settle? ==> NextMove(s, c).ok)
    ensures NextMove(s, c).Begin? ==> RetryCycle.PhaseAfterBegin(s.unacked[c].msg, s.queue).Running?
  {
    WayHeld(s, c);
  }

  lemma NextEnds(s: RetryCycle.State, c: MsgId)
    requires OnItsWay(s, c)
    ensures RetryCycle.Can(s, NextMove(s, c))
    ensures var s' := RetryCycle.Do(s, NextMove(s, c));
      c in s'.tally && (c in s'.handled || HasDelivery(s', c, NoLostDelivery))
  {
    WayHeld(s, c);
    NextCan(s, c);
  }

  lemma NextRanks(s: RetryCycle.State, c: MsgId)
    requires OnItsWay(s, c) && RetryCycle.Can(s, NextMove(s, c))
    ensures c in s.tally && c in RetryCycle.Do(s, NextMove(s, c)).tally
    ensures 0 <= RetryCycle.Rank(RetryCycle.Do(s, NextMove(s, c)), c) < RetryCycle.Rank(s, c)
  {
    var b := NextMove(s, c);
    NextCan(s, c);
    RetryCycle.OwnBounds(s, b);
    RetryCycle.StepKeepsInv(s, b);
    AcceptedStays(s, b);
    RetryCycle.RankIsNatural(RetryCycle.Do(s, b), c);
  }

  /** The run of a running copy of an abandoned job is fresh: it has not claimed. */
  lemma RunOfCopy(w: World, c: MsgId, job: Id) returns (r: RunId)
    requires Core(w) && Abandoned(w, job) && JobOf(w.broker, c) == Some(job) && InPhase(w, c, RetryCycle.Running)
    ensures At(w, r, Fresh) && Attached(w, r) && w.runs[r].copy == c && w.runs[r].job == job
    ensures w.broker.accepted[c] == RetryCycle.Parsed(w.runs[r].envelope)
  {
    assert CurrentOk(w, c);
    r := w.current[c];
    assert RunOk(w, r) && !ClaimedBy(w, c, job);
  }

  lemma StartMoves(w: World, c: MsgId, r: RunId)
    requires RetryCycle.Can(w.broker, RetryCycle.Begin(c)) && r !in w.runs && w.broker.unacked[c].msg.body.Parsed?
    requires RetryCycle.PhaseAfterBegin(w.broker.unacked[c].msg, w.broker.queue).Running?
    ensures Can(w, Start(c, r)) && BrokerStep(w, Start(c, r)) == Some(RetryCycle.Begin(c)) && MovesOn(w, Start(c, r), c)
  {
  }

  lemma ClaimMoves(w: World, c: MsgId, r: RunId)
    requires InPhase(w, c, RetryCycle.Running) && At(w, r, Fresh) && Attached(w, r) && w.runs[r].copy == c
    requires Supported(w.runs[r].envelope) && w.runs[r].job in w.keys
    ensures Can(w, Claim(r)) && BrokerStep(w, Claim(r)) == Some(RetryCycle.Settle(c, true)) && MovesOn(w, Claim(r), c)
  {
  }

  /** That broker step is a step of the claim machine with no mishap in it: the redelivery starts a run,
      which finds the key and takes its job for a duplicate. */
  lemma Realize(w: World, c: MsgId, job: Id) returns (step: Step)
    requires Core(w) && Abandoned(w, job) && JobOf(w.broker, c) == Some(job) && OnItsWay(w.broker, c)
    requires Supported(w.broker.accepted[c].envelope)
    ensures Can(w, step) && MovesOn(w, step, c) && !Mishap(step) && !LosesDelivery(w, step)
    ensures BrokerStep(w, step) == Some(NextMove(w.broker, c))
  {
    var b := NextMove(w.broker, c);
    WayHeld(w.broker, c);
    NextCan(w.broker, c);
    if b.Begin? {
      var r := FreshNat(w.runs.Keys);
      StartMoves(w, c, r);
      step := Start(c, r);
    } else if b.Settle? {
      var r := RunOfCopy(w, c, job);
      ClaimMoves(w, c, r);
      step := Claim(r);
    } else {
      step := Broker(b);
    }
  }

  ghost function Unhandled(w: World, job: Id): set<MsgId> {
    set c | c in w.broker.accepted && JobOf(w.broker, c) == Some(job) && c !in w.broker.handled
  }

  lemma {:induction false} CopiesVanish(w: World, job: Id, luck: Luck)
    requires Doomed(w, job, luck) && !luck.Any?
    ensures CanVanish(w, job, luck)
    decreases |Unhandled(w, job)|, 1, 0
  {
    if c :| c in Unhandled(w, job) {
      WayOfCopy(w, c, job, luck);
      RetryCycle.RankIsNatural(w.broker, c);
      DriveCopy(w, c, job, luck);
    } else {
      forall c | JobOf(w.broker, c) == Some(job) ensures c in w.broker.handled {
        assert c !in Unhandled(w, job);
      }
      StraysVanish(w, job, luck);
    }
  }

  lemma WayOfCopy(w: World, c: MsgId, job: Id, luck: Luck)
    requires Doomed(w, job, luck) && !luck.Any? && c in Unhandled(w, job)
    ensures OnItsWay(w.broker, c) && Supported(w.broker.accepted[c].envelope)
  {
    assert CopyEnds(w.broker, c, luck);
  }

  lemma MovedCopy(w: World, step: Step, c: MsgId, job: Id, luck: Luck)
    requires Doomed(w, job, luck) && !luck.Any? && c in Unhandled(w, job)
    requires Can(w, step) && MovesOn(w, step, c) && BrokerStep(w, step) == Some(NextMove(w.broker, c))
    ensures Doomed(Do(w, step), job, luck) && !Breaks(w, step)
    ensures Unhandled(Do(w, step), job) == Unhandled(w, job) - if c in Do(w, step).broker.handled then {c} else {}
    ensures c in w.broker.tally && c in Do(w, step).broker.tally
    ensures 0 <= RetryCycle.Rank(Do(w, step).broker, c) < RetryCycle.Rank(w.broker, c)
  {
    WayOfCopy(w, c, job, luck);
    MovedEnds(w, step, c, luck);
    DoomedStays(w, step, c, job, luck);
    OthersUnhandled(w, step, c, job, luck);
  }

  lemma OthersUnhandled(w: World, step: Step, c: MsgId, job: Id, luck: Luck)
    requires CopiesEnd(w.broker, job, luck) && HasCopy(w.broker, job) && c in Unhandled(w, job)
    requires Can(w, step) && MovesOn(w, step, c) && CopyEnds(Do(w, step).broker, c, luck)
    ensures Unhandled(Do(w, step), job) == Unhandled(w, job) - if c in Do(w, step).broker.handled then {c} else {}
  {
    CopiesStay(w, step, c, job, luck);
  }

  lemma MovedEnds(w: World, step: Step, c: MsgId, luck: Luck)
    requires OnItsWay(w.broker, c) && Supported(w.broker.accepted[c].envelope) && !luck.Any?
    requires Can(w, step) && BrokerStep(w, step) == Some(NextMove(w.broker, c))
    ensures CopyEnds(Do(w, step).broker, c, luck)
    ensures c in w.broker.tally && c in Do(w, step).broker.tally
    ensures 0 <= RetryCycle.Rank(Do(w, step).broker, c) < RetryCycle.Rank(w.broker, c)
  {
    BrokerMoves(w, step);
    NextEnds(w.broker, c);
    NextRanks(w.broker, c);
    AcceptedStays(w.broker, NextMove(w.broker, c));
  }

  lemma {:induction false} DriveCopy(w: World, c: MsgId, job: Id, luck: Luck)
    requires Doomed(w, job, luck) && !luck.Any? && c in Unhandled(w, job) && c in w.broker.tally
    requires RetryCycle.Rank(w.broker, c) >= 0
    ensures CanVanish(w, job, luck)
    decreases |Unhandled(w, job)|, 0, RetryCycle.Rank(w.broker, c)
  {
    WayOfCopy(w, c, job, luck);
    var step := Realize(w, c, job);
    MovedCopy(w, step, c, job, luck);
    if c in Do(w, step).broker.handled {
      CopiesVanish(Do(w, step), job, luck);
    } else {
      DriveCopy(Do(w, step), c, job, luck);
    }
    FateAfter(w, step, job, luck);
  }

  // ----- what is left of old runs -----

  /** All copies of the unpublished job were handled. */
  ghost predicate Resting(w: World, job: Id) {
    && Core(w) && job !in w.published && HasCopy(w.broker, job)
    && forall c :: JobOf(w.broker, c) == Some(job) ==> c in w.broker.handled
  }

  lemma StrayIsDetached(w: World, job: Id, r: RunId)
    requires Resting(w, job) && r in w.runs && w.runs[r].job == job
    ensures !Attached(w, r) && !w.runs[r].phase.Published?
  {
    var c := w.runs[r].copy;
    assert RunOk(w, r) && CurrentOk(w, c);
    assert JobOf(w.broker, c) == Some(job);
    RetryCycle.PlaceOf(w.broker, c);
  }

  lemma StrayEnds(w: World, step: Step, job: Id)
    requires Resting(w, job) && Can(w, step)
    requires step.Crash? || step.Release? || step.Refuse? || (step.Claim? && job in w.keys)
    requires w.runs[step.run].job == job
    ensures Resting(Do(w, step), job) && !Breaks(w, step) && !LosesDelivery(w, step)
    ensures Do(w, step).runs == w.runs - {step.run} && |Do(w, step).runs.Keys| < |w.runs.Keys|
    ensures !step.Release? ==> Do(w, step).keys == w.keys
  {
    StrayIsDetached(w, job, step.run);
    StepKeepsCore(w, step);
    assert Do(w, step).runs.Keys == w.runs.Keys - {step.run};
    assert Do(w, step).broker == w.broker;
  }

  lemma NothingLeft(w: World, job: Id, luck: Luck)
    requires Resting(w, job) && forall r :: r in w.runs ==> w.runs[r].job != job
    ensures CanVanish(w, job, luck)
  {
    forall c | JobOf(w.broker, c) == Some(job) ensures !Holding(w.broker, c) && !RetryCycle.InDlq(w.broker.dlq, c) {
      RetryCycle.PlaceOf(w.broker, c);
      NotInDlq(w.broker, c);
    }
    assert Exec(w, []) == w;
    assert Fate(w, [], job, luck);
  }

  lemma {:induction false} CrashStrays(w: World, job: Id)
    requires Resting(w, job)
    ensures CanVanish(w, job, NoLostDelivery)
    decreases |w.runs.Keys|
  {
    if r :| r in w.runs && w.runs[r].job == job {
      StrayIsDetached(w, job, r);
      StrayEnds(w, Crash(r), job);
      CrashStrays(Do(w, Crash(r)), job);
      FateAfter(w, Crash(r), job, NoLostDelivery);
    } else {
      NothingLeft(w, job, NoLostDelivery);
    }
  }

  lemma {:induction false} ReleaseStrays(w: World, job: Id)
    requires Resting(w, job) && forall r :: r in w.runs && w.runs[r].job == job ==> w.runs[r].phase.Failing?
    ensures CanVanish(w, job, NoMishap)
    decreases |w.runs.Keys|
  {
    if r :| r in w.runs && w.runs[r].job == job {
      StrayIsDetached(w, job, r);
      StrayEnds(w, Release(r, true), job);
      ReleaseStrays(Do(w, Release(r, true)), job);
      FateAfter(w, Release(r, true), job, NoMishap);
    } else {
      NothingLeft(w, job, NoMishap);
    }
  }

  lemma {:induction false} FreshStrays(w: World, job: Id)
    requires Resting(w, job) && job in w.keys && NoneClaimed(w, job)
    ensures CanVanish(w, job, NoMishap)
    decreases |w.runs.Keys|
  {
    if r :| At(w, r, Fresh) && w.runs[r].job == job {
      StrayIsDetached(w, job, r);
      var step := if Supported(w.runs[r].envelope) then Claim(r) else Refuse(r);
      StrayEnds(w, step, job);
      FreshStrays(Do(w, step), job);
      FateAfter(w, step, job, NoMishap);
    } else {
      OnlyFailingLeft(w, job);
      ReleaseStrays(w, job);
    }
  }

  lemma OnlyFailingLeft(w: World, job: Id)
    requires Resting(w, job) && NoneClaimed(w, job) && forall r :: At(w, r, Fresh) ==> w.runs[r].job != job
    ensures forall r :: r in w.runs && w.runs[r].job == job ==> w.runs[r].phase.Failing?
  {
    forall r | r in w.runs && w.runs[r].job == job ensures w.runs[r].phase.Failing? {
      StrayIsDetached(w, job, r);
      assert !At(w, r, Fresh);
    }
  }

  lemma StraysVanish(w: World, job: Id, luck: Luck)
    requires Doomed(w, job, luck) && !luck.Any?
    requires forall c :: JobOf(w.broker, c) == Some(job) ==> c in w.broker.handled
    ensures CanVanish(w, job, luck)
  {
    if luck.NoMishap? {
      FreshStrays(w, job);
    } else {
      CrashStrays(w, job);
    }
  }

  // ----- a nack can be lost -----

  ghost function Rejected(w: World, job: Id): set<MsgId> {
    set c | c in w.broker.accepted && JobOf(w.broker, c) == Some(job) && InPhase(w, c, RetryCycle.Settled(false))
  }

  /** The connection takes the nack with it, and the broker requeues the delivery without counting it. */
  lemma NackIsLost(w: World, c: MsgId, job: Id)
    requires Doomed(w, job, Any) && c in Rejected(w, job)
    ensures Can(w, Lose(c)) && MovesOn(w, Lose(c), c) && CopyEnds(Do(w, Lose(c)).broker, c, Any)
    ensures Rejected(Do(w, Lose(c)), job) == Rejected(w, job) - {c}
  {
    assert CurrentOk(w, c) && CopyEnds(w.broker, c, Any);
    RetryCycle.PlaceOf(w.broker, c);
    LostIsReady(w, c);
    assert Rejected(Do(w, Lose(c)), job) == Rejected(w, job) - {c};
  }

  lemma LostIsReady(w: World, c: MsgId)
    requires Can(w, Lose(c))
    ensures var s, s' := w.broker, Do(w, Lose(c)).broker;
      && s'.accepted == s.accepted && s'.handled == s.handled && s'.unacked == s.unacked - {c}
      && (c in s.tally ==> c in s'.tally && s'.tally[c].rejected == s.tally[c].rejected)
  {
  }

  lemma NoneRejected(w: World, job: Id)
    requires CopiesEnd(w.broker, job, Any) && Rejected(w, job) == {}
    ensures CopiesEnd(w.broker, job, NoLostDelivery)
  {
    forall c | JobOf(w.broker, c) == Some(job) ensures CopyEnds(w.broker, c, NoLostDelivery) {
      assert CopyEnds(w.broker, c, Any) && c !in Rejected(w, job);
    }
  }

  lemma {:induction false} DoomedVanishes(w: World, job: Id)
    requires Doomed(w, job, Any)
    ensures CanVanish(w, job, Any)
    decreases |Rejected(w, job)|
  {
    if c :| c in Rejected(w, job) {
      NackIsLost(w, c, job);
      DoomedStays(w, Lose(c), c, job, Any);
      DoomedVanishes(Do(w, Lose(c)), job);
      FateAfter(w, Lose(c), job, Any);
    } else {
      NoneRejected(w, job);
      CopiesVanish(w, job, NoLostDelivery);
      SparedIsEnough(w, job, NoLostDelivery);
    }
  }

  // ----- otherwise it cannot -----

  /** A copy without a delivery left ends in the DLQ. */
  lemma SpentStep(s: RetryCycle.State, b: RetryCycle.Step, c: MsgId, luck: Luck)
    requires RetryCycle.Inv(s) && RetryCycle.Can(s, b) && c in s.tally && c !in s.handled && !HasDelivery(s, c, luck)
    requires !luck.Any? ==> !b.Lose?
    ensures var s' := RetryCycle.Do(s, b); c in s'.tally && c !in s'.handled && !HasDelivery(s', c, luck)
  {
    if b.id != c {
      RetryCycle.OthersStay(s, b, c);
    } else if c in s.unacked {
      assert RetryCycle.HeldOk(s, c, s.unacked[c]);
      assert RetryCycle.PlaceCount(s, c) == 1;
    }
  }

  lemma {:induction false} SpentNeverVanishes(w: World, steps: seq<Step>, c: MsgId, job: Id, luck: Luck)
    requires Core(w) && Admissible(w, steps) && Spared(w, steps, luck)
    requires JobOf(w.broker, c) == Some(job) && c in w.broker.tally && c !in w.broker.handled
    requires !HasDelivery(w.broker, c, luck)
    ensures !Vanished(Exec(w, steps), job)
    decreases |steps|
  {
    if steps != [] {
      StepKeepsCore(w, steps[0]);
      StaysSpent(w, steps[0], c, job, luck);
      SpentNeverVanishes(Do(w, steps[0]), steps[1..], c, job, luck);
    }
  }

  lemma StaysSpent(w: World, step: Step, c: MsgId, job: Id, luck: Luck)
    requires Core(w) && Can(w, step) && Allows(luck, w, step)
    requires JobOf(w.broker, c) == Some(job) && c in w.broker.tally && c !in w.broker.handled
    requires !HasDelivery(w.broker, c, luck)
    ensures var s := Do(w, step).broker;
      JobOf(s, c) == Some(job) && c in s.tally && c !in s.handled && !HasDelivery(s, c, luck)
  {
    BrokerMoves(w, step);
    if BrokerStep(w, step).Some? {
      AcceptedStays(w.broker, BrokerStep(w, step).value);
      AllowedBroker(w, step, luck);
      SpentStep(w.broker, BrokerStep(w, step).value, c, luck);
    }
  }

  lemma AllowedBroker(w: World, step: Step, luck: Luck)
    requires Can(w, step) && Allows(luck, w, step)
    ensures !luck.Any? && BrokerStep(w, step).Some? ==> !BrokerStep(w, step).value.Lose?
  {
  }

  /** A copy of an unsupported version is never handled. */
  lemma RefusedNeverVanishes(w: World, steps: seq<Step>, c: MsgId, job: Id)
    requires Core(w) && Admissible(w, steps) && Refused(w, c) && JobOf(w.broker, c) == Some(job)
    requires !Supported(w.broker.accepted[c].envelope)
    ensures !Vanished(Exec(w, steps), job)
  {
    RunKeepsRefused(w, steps, c);
    CopyIsKept(w, steps, c);
  }

  lemma {:induction false} CopyIsKept(w: World, steps: seq<Step>, c: MsgId)
    requires Admissible(w, steps) && c in w.broker.accepted
    ensures c in Exec(w, steps).broker.accepted && Exec(w, steps).broker.accepted[c] == w.broker.accepted[c]
    decreases |steps|
  {
    if steps != [] {
      BrokerMoves(w, steps[0]);
      if BrokerStep(w, steps[0]).Some? {
        AcceptedStays(w.broker, BrokerStep(w, steps[0]).value);
      }
      CopyIsKept(Do(w, steps[0]), steps[1..], c);
    }
  }

  /** Without a mishap, a run that has claimed publishes. */
  lemma {:induction false} ClaimedNeverVanishes(w: World, steps: seq<Step>, r: RunId, job: Id)
    requires Admissible(w, steps) && Spared(w, steps, NoMishap)
    requires job in w.published || (At(w, r, Claimed) && w.runs[r].job == job)
    ensures !Vanished(Exec(w, steps), job)
    decreases |steps|
  {
    if steps != [] {
      ClaimedNeverVanishes(Do(w, steps[0]), steps[1..], r, job);
    }
  }

  lemma NoFate(w: World, job: Id, luck: Luck)
    requires Core(w) && (forall c :: Refused(w, c))
    requires forall c :: JobOf(w.broker, c) == Some(job) ==> c in w.broker.tally
    requires !CopiesEnd(w.broker, job, luck) || (luck.NoMishap? && !NoneClaimed(w, job))
    ensures !CanVanish(w, job, luck)
  {
    forall steps ensures !Fate(w, steps, job, luck) {
      if Admissible(w, steps) && Spared(w, steps, luck) {
        if !CopiesEnd(w.broker, job, luck) {
          var c :| JobOf(w.broker, c) == Some(job) && !CopyEnds(w.broker, c, luck);
          if Supported(w.broker.accepted[c].envelope) {
            SpentNeverVanishes(w, steps, c, job, luck);
          } else {
            RefusedNeverVanishes(w, steps, c, job);
          }
        } else {
          var r :| r in w.runs && w.runs[r].job == job && w.runs[r].phase.Claimed?;
          ClaimedNeverVanishes(w, steps, r, job);
        }
      }
    }
  }

  // ----- exactly when -----

  lemma BreakAbandons(w: World, step: Step)
    requires Inv(w) && Can(w, step) && Breaks(w, step)
    ensures Abandoned(Do(w, step), w.runs[RunAt(w, step)].job) && Supported(w.runs[RunAt(w, step)].envelope)
  {
    assert RunOk(w, RunAt(w, step)) && KeyOk(w, JobAt(w, step).value);
    OwnKey(w, step);
    NobodyAfterEnd(w, step);
  }

  lemma JobHasCopy(w: World, step: Step)
    requires Inv(w) && Can(w, step) && Breaks(w, step)
    ensures HasCopy(Do(w, step).broker, w.runs[RunAt(w, step)].job)
  {
    var c := w.runs[RunAt(w, step)].copy;
    assert RunOk(w, RunAt(w, step));
    BrokerMoves(w, step);
    if BrokerStep(w, step).Some? {
      AcceptedStays(w.broker, BrokerStep(w, step).value);
    }
    assert JobOf(Do(w, step).broker, c) == Some(w.runs[RunAt(w, step)].job);
  }

  lemma FatalFrom(w: World, step: Step, luck: Luck)
    requires Inv(w) && (forall c :: Refused(w, c)) && Can(w, step) && Breaks(w, step)
    ensures var w', job := Do(w, step), w.runs[RunAt(w, step)].job;
      CanVanish(w', job, luck) <==> CopiesEnd(w'.broker, job, luck) && (luck.NoMishap? ==> NoneClaimed(w', job))
  {
    var w', job := Do(w, step), w.runs[RunAt(w, step)].job;
    StepKeepsCore(w, step);
    BreakAbandons(w, step);
    JobHasCopy(w, step);
    forall c ensures Refused(w', c) {
      StepKeepsRefused(w, step, c);
    }
    forall c | JobOf(w'.broker, c) == Some(job) ensures c in w'.broker.tally {
      RetryCycle.PlaceOf(w'.broker, c);
    }
    if CopiesEnd(w'.broker, job, luck) && (luck.NoMishap? ==> NoneClaimed(w', job)) {
      assert Doomed(w', job, luck);
      if luck.Any? {
        DoomedVanishes(w', job);
      } else {
        CopiesVanish(w', job, luck);
      }
    } else {
      NoFate(w', job, luck);
    }
  }

  /** Over every careful run up to a step that breaks a window: from there the job can vanish without any
      further break if and only if every copy of it was handled or has a delivery left; without any
      further lost delivery, counting a rejection that is on its way; and without any further mishap, if
      moreover no run of the job has claimed and still has to publish. */
  lemma BreakIsFatal(queue: string, steps: seq<Step>, step: Step, luck: Luck)
    requires Admissible(New(queue), steps) && Careful(New(queue), steps)
    requires Can(Exec(New(queue), steps), step) && Breaks(Exec(New(queue), steps), step)
    ensures var w := Exec(New(queue), steps);
      var w', job := Do(w, step), w.runs[RunAt(w, step)].job;
      CanVanish(w', job, luck) <==> CopiesEnd(w'.broker, job, luck) && (luck.NoMishap? ==> NoneClaimed(w', job))
  {
    NewInv(queue);
    RunKeepsInv(New(queue), steps);
    forall c ensures Refused(Exec(New(queue), steps), c) {
      RunKeepsRefused(New(queue), steps, c);
    }
    FatalFrom(Exec(New(queue), steps), step, luck);
  }

  /** What that means, hazard by hazard, for the copy the broken run came from. A lost delivery and a crash
      always leave it one. A release that does not delete and a lost claim reply reject the delivery, and
      leave one without further loss if it was not the last. A claim made after the delivery was lost
      leaves the copy as it is. */
  lemma DeliveriesLeft(w: World, step: Step, luck: Luck)
    requires Inv(w) && Can(w, step) && Breaks(w, step)
    ensures var c := w.runs[RunAt(w, step)].copy;
      && (step.Lose? || step.Crash? ==> HasDelivery(Do(w, step).broker, c, luck))
      && (Attached(w, RunAt(w, step)) && (step.Release? || step.ClaimError?) ==>
            && c in w.broker.tally
            && (HasDelivery(Do(w, step).broker, c, luck) <==>
                luck.Any? || w.broker.tally[c].rejected + 1 < MAX_DELIVERIES))
      && (!Attached(w, RunAt(w, step)) ==> Do(w, step).broker == w.broker)
  {
    var run := RunAt(w, step);
    var c := w.runs[run].copy;
    assert RunOk(w, run) && CurrentOk(w, c);
    if step.Lose? {
      assert CurrentOk(w, step.copy);
    }
    if Attached(w, run) {
      assert RetryCycle.HeldOk(w.broker, c, w.broker.unacked[c]);
    }
  }

  /** And for the runs it leaves: a run that claims too late, or that loses its delivery before it tried to
      publish, still has to publish or fail. Every other break ends its run. */
  lemma StraysLeft(w: World, step: Step)
    requires Inv(w) && Can(w, step) && Breaks(w, step)
    ensures var w', run := Do(w, step), RunAt(w, step);
      && (At(w', run, Claimed) <==> step.Claim? || (step.Lose? && w.runs[run].phase.Claimed?))
      && (forall r :: r != run ==> (At(w', r, Claimed) <==> At(w, r, Claimed)))
  {
  }
}
