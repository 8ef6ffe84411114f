/** Each way of breaking a claim window really can lose a job: one run per way, for any envelope of a
    supported version. */
module ClaimHazards {
  import opened Prelude
  import opened Messages
  import RetryCycle
  import opened WorkerClaims
  import opened ClaimFates

  datatype Hazard = DeliveryLost | WorkerCrashed | ReleaseFailed | ReplyLost | LateClaim

  function Opening(envelope: Envelope): seq<Step> {
    [Broker(RetryCycle.Accept(0, RetryCycle.Parsed(envelope), [])), Broker(RetryCycle.Deliver(0)), Start(0, 0)]
  }

  function LeadIn(h: Hazard): seq<Step> {
    match h
    case DeliveryLost => [Claim(0)]
    case WorkerCrashed => [Claim(0)]
    case ReleaseFailed => [Claim(0), Fail(0, false)]
    case ReplyLost => []
    case LateClaim => [Lose(0)]
  }

  function BreakingStep(h: Hazard): Step {
    match h
    case DeliveryLost => Lose(0)
    case WorkerCrashed => Crash(0)
    case ReleaseFailed => Release(0, false)
    case ReplyLost => ClaimError(0, true)
    case LateClaim => Claim(0)
  }

  ghost predicate Started(w: World, envelope: Envelope) {
    var msg := RetryCycle.Msg(RetryCycle.Parsed(envelope), []);
    && w.broker.accepted == map[0 := RetryCycle.Parsed(envelope)] && w.broker.ready == map[]
    && w.broker.unacked == map[0 := RetryCycle.Held(msg, RetryCycle.Running)]
    && 0 in w.broker.tally && w.broker.tally[0].rejected == 0
    && w.runs == map[0 := Run(0, envelope, Fresh)] && w.current == map[0 := 0] && w.keys == map[] && w.published == {}
  }

  lemma OpeningStarts(queue: string, envelope: Envelope)
    ensures Admissible(New(queue), Opening(envelope)) && Careful(New(queue), Opening(envelope))
    ensures Started(Exec(New(queue), Opening(envelope)), envelope)
  {
    var w0, steps := New(queue), Opening(envelope);
    var w1 := Do(w0, steps[0]);
    var w2 := Do(w1, steps[1]);
    assert w2.broker.unacked
        == map[0 := RetryCycle.Held(RetryCycle.Msg(RetryCycle.Parsed(envelope), []), RetryCycle.Delivered)];
    assert w2.broker.ready == map[];
    ExecThree(w0, steps[0], steps[1], steps[2]);
    CarefulThree(w0, steps[0], steps[1], steps[2]);
  }

  lemma CarefulOne(w: World, a: Step)
    requires Can(w, a) && !Breaks(w, a)
    ensures Admissible(w, [a]) && Careful(w, [a])
  {
    ExecOne(w, a);
    assert [a][1..] == [];
  }

  lemma {:induction false} CarefulAppend(w: World, a: seq<Step>, b: seq<Step>)
    requires Admissible(w, a) && Careful(w, a) && Admissible(Exec(w, a), b) && Careful(Exec(w, a), b)
    ensures Admissible(w, a + b) && Careful(w, a + b)
    decreases |a|
  {
    if a == [] {
      assert a + b == b;
    } else {
      CarefulTail(w, a, b);
      AppendTail(a, b);
      CarefulAppend(Do(w, a[0]), a[1..], b);
      CarefulCons(w, a[0], a[1..] + b);
    }
  }

  lemma AppendTail(a: seq<Step>, b: seq<Step>)
    requires a != []
    ensures a + b == [a[0]] + (a[1..] + b)
  {
  }

  lemma CarefulTail(w: World, a: seq<Step>, b: seq<Step>)
    requires a != [] && Admissible(w, a) && Careful(w, a) && Admissible(Exec(w, a), b) && Careful(Exec(w, a), b)
    ensures var w1 := Do(w, a[0]);
      && !Breaks(w, a[0]) && Admissible(w1, a[1..]) && Careful(w1, a[1..])
      && Admissible(Exec(w1, a[1..]), b) && Careful(Exec(w1, a[1..]), b)
  {
  }

  lemma CarefulCons(w: World, step: Step, rest: seq<Step>)
    requires Can(w, step) && !Breaks(w, step) && Admissible(Do(w, step), rest) && Careful(Do(w, step), rest)
    ensures Admissible(w, [step] + rest) && Careful(w, [step] + rest)
  {
    assert ([step] + rest)[0] == step && ([step] + rest)[1..] == rest;
  }

  lemma CarefulTwo(w: World, a: Step, b: Step)
    requires Can(w, a) && !Breaks(w, a) && Can(Do(w, a), b) && !Breaks(Do(w, a), b)
    ensures Admissible(w, [a, b]) && Careful(w, [a, b])
  {
    CarefulOne(w, a);
    CarefulOne(Do(w, a), b);
    ExecOne(w, a);
    CarefulAppend(w, [a], [b]);
    assert [a] + [b] == [a, b];
  }

  lemma CarefulThree(w: World, a: Step, b: Step, c: Step)
    requires Can(w, a) && !Breaks(w, a) && Can(Do(w, a), b) && !Breaks(Do(w, a), b)
    requires Can(Do(Do(w, a), b), c) && !Breaks(Do(Do(w, a), b), c)
    ensures Admissible(w, [a, b, c]) && Careful(w, [a, b, c])
  {
    CarefulTwo(w, a, b);
    CarefulOne(Do(Do(w, a), b), c);
    ExecTwo(w, a, b);
    CarefulAppend(w, [a, b], [c]);
    assert [a, b] + [c] == [a, b, c];
  }

  /** The breaking step is next. */
  ghost predicate AtBreak(w: World, h: Hazard, envelope: Envelope) {
    && Can(w, BreakingStep(h)) && Breaks(w, BreakingStep(h))
    && w.broker.accepted == map[0 := RetryCycle.Parsed(envelope)]
    && w.runs.Keys == {0} && w.runs[0].copy == 0 && w.runs[0].envelope == envelope && Supported(envelope)
    && RunAt(w, BreakingStep(h)) == 0
    && 0 in w.broker.tally && w.broker.tally[0].rejected == 0
  }

  lemma LeadInLeads(w: World, h: Hazard, envelope: Envelope)
    requires Started(w, envelope) && Supported(envelope)
    ensures Admissible(w, LeadIn(h)) && Careful(w, LeadIn(h)) && AtBreak(Exec(w, LeadIn(h)), h, envelope)
  {
    match h {
      case ReplyLost =>
        assert Exec(w, []) == w;
        NobodyClaims(w, envelope);
      case ReleaseFailed => FailLeads(w, envelope);
      case LateClaim => LoseLeads(w, envelope);
      case _ => ClaimLeads(w, h, envelope);
    }
  }

  lemma NobodyClaims(w: World, envelope: Envelope)
    requires Started(w, envelope)
    ensures forall c :: !ClaimedBy(w, c, envelope.messageId)
  {
  }

  lemma ClaimLeads(w: World, h: Hazard, envelope: Envelope)
    requires Started(w, envelope) && Supported(envelope) && (h.DeliveryLost? || h.WorkerCrashed?)
    ensures Admissible(w, LeadIn(h)) && Careful(w, LeadIn(h)) && AtBreak(Exec(w, LeadIn(h)), h, envelope)
  {
    CarefulOne(w, Claim(0));
    ExecOne(w, Claim(0));
  }

  lemma LoseLeads(w: World, envelope: Envelope)
    requires Started(w, envelope) && Supported(envelope)
    ensures Admissible(w, LeadIn(LateClaim)) && Careful(w, LeadIn(LateClaim))
    ensures AtBreak(Exec(w, LeadIn(LateClaim)), LateClaim, envelope)
  {
    CarefulOne(w, Lose(0));
    ExecOne(w, Lose(0));
    NobodyClaims(w, envelope);
  }

  lemma FailLeads(w: World, envelope: Envelope)
    requires Started(w, envelope) && Supported(envelope)
    ensures var steps := LeadIn(ReleaseFailed);
      Admissible(w, steps) && Careful(w, steps) && AtBreak(Exec(w, steps), ReleaseFailed, envelope)
  {
    CarefulTwo(w, Claim(0), Fail(0, false));
    ExecTwo(w, Claim(0), Fail(0, false));
  }

  /** A run from the empty queue that breaks a window once, at `step`, keeps to what `luck` allows
      afterwards, and ends with the job vanished. */
  ghost predicate LosesJob(queue: string, envelope: Envelope, before: seq<Step>, step: Step, after: seq<Step>,
                           luck: Luck) {
    && Admissible(New(queue), before) && Careful(New(queue), before)
    && Can(Exec(New(queue), before), step) && Breaks(Exec(New(queue), before), step)
    && JobAt(Exec(New(queue), before), step) == Some(envelope.messageId)
    && Fate(Do(Exec(New(queue), before), step), after, envelope.messageId, luck)
  }

  /** A lost delivery and a late claim leave a run behind that has to fail as well. */
  function LuckOf(h: Hazard): Luck {
    if h.DeliveryLost? || h.LateClaim? then NoLostDelivery else NoMishap
  }

  /** For every hazard and every envelope of a supported version there is such a run. */
  lemma EveryHazardLosesJobs(h: Hazard, queue: string, envelope: Envelope)
    requires Supported(envelope)
    ensures exists before, after :: LosesJob(queue, envelope, before, BreakingStep(h), after, LuckOf(h))
  {
    var before := Opening(envelope) + LeadIn(h);
    ReachBreak(h, queue, envelope);
    LosesFrom(Exec(New(queue), before), h, envelope);
    var after :| Fate(Do(Exec(New(queue), before), BreakingStep(h)), after, envelope.messageId, LuckOf(h));
    assert LosesJob(queue, envelope, before, BreakingStep(h), after, LuckOf(h));
  }

  lemma ReachBreak(h: Hazard, queue: string, envelope: Envelope)
    requires Supported(envelope)
    ensures var before := Opening(envelope) + LeadIn(h);
      && Admissible(New(queue), before) && Careful(New(queue), before)
      && Inv(Exec(New(queue), before)) && AtBreak(Exec(New(queue), before), h, envelope)
      && forall c :: Refused(Exec(New(queue), before), c)
  {
    OpeningStarts(queue, envelope);
    LeadInLeads(Exec(New(queue), Opening(envelope)), h, envelope);
    ExecAppend(New(queue), Opening(envelope), LeadIn(h));
    CarefulAppend(New(queue), Opening(envelope), LeadIn(h));
    NewInv(queue);
    RunKeepsInv(New(queue), Opening(envelope) + LeadIn(h));
    forall c ensures Refused(Exec(New(queue), Opening(envelope) + LeadIn(h)), c) {
      RunKeepsRefused(New(queue), Opening(envelope) + LeadIn(h), c);
    }
  }

  lemma LosesFrom(w: World, h: Hazard, envelope: Envelope)
    requires Inv(w) && AtBreak(w, h, envelope) && forall c :: Refused(w, c)
    ensures CanVanish(Do(w, BreakingStep(h)), envelope.messageId, LuckOf(h))
    ensures JobAt(w, BreakingStep(h)) == Some(envelope.messageId)
  {
    DeliveriesLeft(w, BreakingStep(h), LuckOf(h));
    OnlyCopyEnds(w, h, envelope);
    FatalFrom(w, BreakingStep(h), LuckOf(h));
  }

  lemma OnlyCopyEnds(w: World, h: Hazard, envelope: Envelope)
    requires Inv(w) && AtBreak(w, h, envelope)
    requires h.LateClaim? || HasDelivery(Do(w, BreakingStep(h)).broker, 0, LuckOf(h))
    ensures CopiesEnd(Do(w, BreakingStep(h)).broker, envelope.messageId, LuckOf(h))
    ensures LuckOf(h).NoMishap? ==> NoneClaimed(Do(w, BreakingStep(h)), envelope.messageId)
  {
    BreakKeepsCopy(w, h, envelope);
    if LuckOf(h).NoMishap? {
      NobodyLeft(w, h, envelope);
    }
  }

  /** The one copy stays the only one. */
  lemma BreakKeepsCopy(w: World, h: Hazard, envelope: Envelope)
    requires AtBreak(w, h, envelope)
    ensures Do(w, BreakingStep(h)).broker.accepted == w.broker.accepted
    ensures h.LateClaim? ==> Do(w, BreakingStep(h)).broker == w.broker
  {
    BrokerMoves(w, BreakingStep(h));
  }

  lemma NobodyLeft(w: World, h: Hazard, envelope: Envelope)
    requires AtBreak(w, h, envelope) && (h.WorkerCrashed? || h.ReleaseFailed? || h.ReplyLost?)
    ensures NoneClaimed(Do(w, BreakingStep(h)), envelope.messageId)
  {
  }
}
