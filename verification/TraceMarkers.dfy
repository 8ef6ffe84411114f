/** The lines the services log as they hand a request on, and how the dashboard reads them: each line is
    recognised as its own stage, and carries its correlation id into the chains. */
module TraceMarkers {
  import opened Prelude
  import opened Trace
  import opened LatencyChart

  const RELAY := "OutboxRelayService"

  /** The line one stage writes: its service, its logger's context and the text before the mark. */
  datatype Hop =
    | Forwarded(verb: string, path: string, upstream: string)
    | PostCreated(post: string)
    | JobPublished
    | VerdictPublished(verdict: string, post: string)
    | VerdictApplied(post: string, verdict: string)
    | EventPublished
    | TrendAggregated(post: string, verdict: string)
    | VerdictPushed(post: string, sockets: string)

  function StageOfHop(hop: Hop): nat {
    match hop
    case Forwarded(_, _, _) => 0
    case PostCreated(_) => 1
    case JobPublished => 2
    case VerdictPublished(_, _) => 3
    case VerdictApplied(_, _) => 4
    case EventPublished => 5
    case TrendAggregated(_, _) => 6
    case VerdictPushed(_, _) => 7
  }

  function ServiceOf(hop: Hop): string {
    match hop
    case Forwarded(_, _, _) => "api-gateway"
    case PostCreated(_) => "content-service"
    case JobPublished => "content-service"
    case VerdictPublished(_, _) => "ai-processing-service"
    case VerdictApplied(_, _) => "content-service"
    case EventPublished => "content-service"
    case TrendAggregated(_, _) => "analytics-service"
    case VerdictPushed(_, _) => "notification-service"
  }

  function ContextOf(hop: Hop): string {
    match hop
    case Forwarded(_, _, _) => "PostsProxyService"
    case PostCreated(_) => "PostsService"
    case JobPublished => RELAY
    case VerdictPublished(_, _) => "ModerationConsumerService"
    case VerdictApplied(_, _) => "ModerationCompletedConsumerService"
    case EventPublished => RELAY
    case TrendAggregated(_, _) => "TrendsService"
    case VerdictPushed(_, _) => "ModerationPushService"
  }

  const JOB_TEXT := "Published moderation.job to rabbitmq "
  const EVENT_TEXT := "Published moderation.completed to kafka "

  function TextOf(hop: Hop): string {
    match hop
    case Forwarded(verb, path, upstream) => verb + " " + path + " forwarded, upstream " + upstream + " "
    case PostCreated(post) => "Post " + post + " created, outbox row written "
    case JobPublished => JOB_TEXT
    case VerdictPublished(verdict, post) => "Moderation verdict '" + verdict + "' for post " + post + " published "
    case VerdictApplied(post, verdict) => "Post " + post + " status set to '" + verdict + "' "
    case EventPublished => EVENT_TEXT
    case TrendAggregated(post, verdict) => "Trend aggregated for post " + post + " (" + verdict + ") "
    case VerdictPushed(post, sockets) => "Pushed verdict for post " + post + " to " + sockets + " socket(s) "
  }

  function Marker(hop: Hop, correlationId: string, id: string, ts: int): LogEntry {
    LogEntry(id, ts, "log", ServiceOf(hop), ContextOf(hop), TextOf(hop) + MARK + correlationId)
  }

  // ----- substrings -----

  lemma {:induction false} IncludesInside(a: string, part: string, b: string)
    ensures Includes(a + part + b, part)
  {
    var s := a + part + b;
    if a == "" {
      assert s[..|part|] == part;
    } else {
      assert s[1..] == a[1..] + part + b;
      IncludesInside(a[1..], part, b);
    }
  }

  /** A part with a letter that the text lacks is not in it. */
  lemma {:induction false} LacksLetter(s: string, part: string, c: char)
    requires c in part && c !in s
    ensures !Includes(s, part)
  {
    if |part| <= |s| {
      assert forall x :: x in s[..|part|] ==> x in s;
      if s != "" {
        LacksLetter(s[1..], part, c);
      }
    }
  }

  /** A part cannot straddle a letter it does not have. */
  lemma {:induction false} NotAcross(a: string, c: char, b: string, part: string)
    requires c !in part && part != "" && !Includes(a, part)
    ensures Includes(a + [c] + b, part) <==> Includes(b, part)
  {
    var s := a + [c] + b;
    if |part| <= |s| {
      PrefixNotAcross(a, c, b, part);
    }
    if a == "" {
      assert s[1..] == b;
    } else {
      assert s[1..] == a[1..] + [c] + b;
      IncludesTail(a, part);
      NotAcross(a[1..], c, b, part);
    }
    IncludesShorter(s[1..], part);
  }

  lemma PrefixNotAcross(a: string, c: char, b: string, part: string)
    requires c !in part && |part| <= |a + [c] + b| && !Includes(a, part)
    ensures (a + [c] + b)[..|part|] != part
  {
    var s := a + [c] + b;
    if |part| <= |a| {
      assert s[..|part|] == a[..|part|];
    } else {
      assert s[..|part|][|a|] == c;
    }
  }

  lemma IncludesTail(s: string, part: string)
    requires s != "" && !Includes(s, part)
    ensures !Includes(s[1..], part)
  {
    IncludesShorter(s[1..], part);
  }

  lemma {:induction false} IncludesShorter(s: string, part: string)
    ensures Includes(s, part) ==> |part| <= |s|
  {
  }

  // ----- stages -----

  const BEFORE_ID := "correlationId"

  lemma MarkAt(text: string, correlationId: string)
    ensures text + MARK + correlationId == (text + BEFORE_ID) + ['='] + correlationId
  {
    assert MARK == BEFORE_ID + ['='];
  }

  /** The relay's two lines name one broker each; the id may name any. */
  lemma RelayMarkers(correlationId: string)
    ensures Includes(JOB_TEXT + MARK + correlationId, "rabbitmq")
    ensures Includes(JOB_TEXT + MARK + correlationId, "kafka") <==> Includes(correlationId, "kafka")
    ensures Includes(EVENT_TEXT + MARK + correlationId, "kafka")
    ensures Includes(EVENT_TEXT + MARK + correlationId, "rabbitmq") <==> Includes(correlationId, "rabbitmq")
  {
    JobNames(correlationId);
    EventNames(correlationId);
  }

  lemma JobNames(correlationId: string)
    ensures Includes(JOB_TEXT + MARK + correlationId, "rabbitmq")
    ensures Includes(JOB_TEXT + MARK + correlationId, "kafka") <==> Includes(correlationId, "kafka")
  {
    var rest := " " + MARK + correlationId;
    assert JOB_TEXT + MARK + correlationId == "Published moderation.job to " + "rabbitmq" + rest;
    IncludesInside("Published moderation.job to ", "rabbitmq", rest);
    MarkAt(JOB_TEXT, correlationId);
    LacksLetter(JOB_TEXT + BEFORE_ID, "kafka", 'k');
    NotAcross(JOB_TEXT + BEFORE_ID, '=', correlationId, "kafka");
  }

  lemma EventNames(correlationId: string)
    ensures Includes(EVENT_TEXT + MARK + correlationId, "kafka")
    ensures Includes(EVENT_TEXT + MARK + correlationId, "rabbitmq") <==> Includes(correlationId, "rabbitmq")
  {
    var rest := " " + MARK + correlationId;
    assert EVENT_TEXT + MARK + correlationId == "Published moderation.completed to " + "kafka" + rest;
    IncludesInside("Published moderation.completed to ", "kafka", rest);
    MarkAt(EVENT_TEXT, correlationId);
    LacksLetter(EVENT_TEXT + BEFORE_ID, "rabbitmq", 'q');
    NotAcross(EVENT_TEXT + BEFORE_ID, '=', correlationId, "rabbitmq");
  }

  /** Every line is recognised as its own stage and no other, except that a relay line whose correlation id
      names the other broker counts for that one as well. */
  lemma MarkersAreRecognised(hop: Hop, correlationId: string, id: string, ts: int, k: nat)
    requires k < STAGES
    ensures Matches(k, Marker(hop, correlationId, id, ts)) <==>
        k == StageOfHop(hop) || (hop.JobPublished? && k == 5 && Includes(correlationId, "kafka"))
        || (hop.EventPublished? && k == 2 && Includes(correlationId, "rabbitmq"))
    ensures !IsError(Marker(hop, correlationId, id, ts))
  {
    if hop.JobPublished? || hop.EventPublished? {
      RelayIsRecognised(hop, correlationId, id, ts, k);
    }
  }

  lemma RelayIsRecognised(hop: Hop, correlationId: string, id: string, ts: int, k: nat)
    requires k < STAGES && (hop.JobPublished? || hop.EventPublished?)
    ensures Matches(k, Marker(hop, correlationId, id, ts)) <==>
        k == StageOfHop(hop) || (hop.JobPublished? && k == 5 && Includes(correlationId, "kafka"))
        || (hop.EventPublished? && k == 2 && Includes(correlationId, "rabbitmq"))
  {
    RelayMarkers(correlationId);
  }

  /** Some line of stage k is there. */
  ghost predicate Passed(entries: seq<LogEntry>, correlationId: string, k: nat) {
    exists e, hop :: e in entries && IsMarker(e, hop, correlationId) && StageOfHop(hop) == k
  }

  /** One line of every stage, whatever the times and the order, and however often: the trace is settled,
      and every stage of it is done. */
  lemma CompleteTraceSettles(entries: seq<LogEntry>, correlationId: string)
    requires forall e :: e in entries ==> exists hop :: IsMarker(e, hop, correlationId)
    requires forall k: nat :: k < STAGES ==> Passed(entries, correlationId, k)
    ensures IsTraceSettled(TraceOf(entries))
    ensures forall k: nat :: k < STAGES ==> StatusOf(entries, k) == Done
  {
    forall k: nat | k < STAGES ensures StatusOf(entries, k) == Done && Reached(entries, k) {
      assert Passed(entries, correlationId, k);
      var e, hop :| e in entries && IsMarker(e, hop, correlationId) && StageOfHop(hop) == k;
      MarkersAreRecognised(hop, correlationId, e.id, e.ts, k);
      StatusExactly(entries, k);
      forall f | f in entries ensures !IsError(f) {
        var h :| IsMarker(f, h, correlationId);
        MarkersAreRecognised(h, correlationId, f.id, f.ts, k);
      }
    }
    SettledExactly(entries);
  }

  predicate IsMarker(e: LogEntry, hop: Hop, correlationId: string) {
    e == Marker(hop, correlationId, e.id, e.ts)
  }

  // ----- chains -----

  /** The text before the mark holds no mark of its own. */
  predicate Plain(text: string) {
    '=' !in text
  }

  lemma {:induction false} WordIsItsRun(word: string)
    requires forall c :: c in word ==> WordChar(c)
    ensures WordRun(word) == word
  {
    if word != "" {
      WordIsItsRun(word[1..]);
      assert word == [word[0]] + word[1..];
    }
  }

  /** Where the sign of a mark at the start would be, there is none. */
  lemma NoSignThere(text: string, word: string)
    requires text != "" && Plain(text)
    ensures |text + MARK + word| > |BEFORE_ID| && (text + MARK + word)[|BEFORE_ID|] != '='
  {
    var s, n := text + MARK + word, |BEFORE_ID|;
    assert MARK == BEFORE_ID + ['='];
    if n < |text| {
      assert s[n] == text[n];
    } else {
      assert s[n] == BEFORE_ID[n - |text|];
    }
  }

  lemma MarkNotInside(text: string, word: string)
    requires text != "" && Plain(text)
    ensures !StartsWithMark(text + MARK + word)
  {
    NoSignThere(text, word);
  }

  lemma {:induction false} MarkIsFound(text: string, word: string)
    requires Plain(text) && word != "" && forall c :: c in word ==> WordChar(c)
    ensures CorrelationOf(text + MARK + word) == Some(word)
  {
    var s := text + MARK + word;
    if text == "" {
      assert s == MARK + word;
      assert s[..|MARK|] == MARK && s[|MARK|..] == word && s[|MARK|] == word[0];
      WordIsItsRun(word);
    } else {
      MarkNotInside(text, word);
      assert s[1..] == text[1..] + MARK + word;
      MarkIsFound(text[1..], word);
    }
  }

  /** Every line of a request falls into the chain of its correlation id, whenever the id is a word and the
      text before it has no equals sign. */
  lemma MarkersFormAChain(hop: Hop, correlationId: string, id: string, ts: int)
    requires Plain(TextOf(hop)) && correlationId != "" && forall c :: c in correlationId ==> WordChar(c)
    ensures CorrelationOf(Marker(hop, correlationId, id, ts).message) == Some(correlationId)
  {
    MarkIsFound(TextOf(hop), correlationId);
  }
}
