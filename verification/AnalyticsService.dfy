/** The Kafka consumer's per-message step and TrendsService's handler in their own form, proved to be
    steps of the rollup machine. */
module AnalyticsService {
  import opened Messages
  import opened Rollup
  import opened RollupProgress

  /** The analytics database. */
  class TrendsDb {
    var processed: set<Id>
    var table: Table
    ghost var applied: seq<Envelope>

    constructor ()
      ensures processed == {} && table == map[] && applied == []
    {
      processed, table, applied := {}, map[], [];
    }
  }

  class TrendsService {
    const db: TrendsDb

    constructor (db: TrendsDb)
      ensures this.db == db
    {
      this.db := db;
    }

    /** One delivered envelope; `weather` is how its transaction ends. The loop of upserts is the
        transaction's own view of the table, installed on commit. */
    method Handle(e: Envelope, weather: Db) returns (ending: Ending)
      modifies db
      ensures var supported := SupportedEventVersion(e.eventType, e.eventVersion);
        var reached := supported && ValidCompleted(e.payload) && !weather.FailsBefore?;
        var applies := reached && e.messageId !in old(db.processed);
        && (ending.Throws? <==> supported && (!reached || (weather.FailsAfter? && applies)))
        && (applies ==>
              && db.processed == old(db.processed) + {e.messageId}
              && db.table == AddEvent(old(db.table), e)
              && db.applied == old(db.applied) + [e])
        && (!applies ==>
              db.processed == old(db.processed) && db.table == old(db.table) && db.applied == old(db.applied))
    {
      if !SupportedEventVersion(e.eventType, e.eventVersion) {
        return Returns;
      }
      if !ValidCompleted(e.payload) {
        return Throws;
      }
      var date := ToDateOnly(e.occurredAt);
      var categories := if |e.payload.categories| > 0 then e.payload.categories else [UNCATEGORIZED];
      if weather.FailsBefore? {
        return Throws;
      }
      if e.messageId in db.processed {
        return Returns;
      }
      var processed, table := db.processed + {e.messageId}, db.table;
      for i := 0 to |categories|
        invariant table == AddAll(db.table, date, categories[..i], e.payload.verdict)
      {
        var key := Key(date, categories[i], e.payload.verdict);
        assert categories[..i + 1][..i] == categories[..i];
        table := if key in table then table[key := table[key] + 1] else table[key := 1];
      }
      assert categories[..|categories|] == categories;
      db.processed := processed;
      db.table := table;
      db.applied := db.applied + [e];
      return if weather.Commits? then Returns else Throws;
    }
  }

  /** One member of the consumer group, reading one partition. */
  class KafkaConsumer {
    const trends: TrendsService
    var lane: Lane

    constructor (trends: TrendsService, lane: Lane)
      ensures this.trends == trends && this.lane == lane
    {
      this.trends := trends;
      this.lane := lane;
    }

    ghost function Abs(): State
      reads this, trends.db
    {
      State(map[0 := lane], trends.db.processed, trends.db.table, trends.db.applied)
    }

    /** eachMessage on the next record: an empty, malformed or unsupported one is skipped, a throw leaves
        the position where it is, and a duplicate is passed like any other event. */
    method EachMessage(weather: Db)
      requires HasNext(Abs(), 0)
      modifies this, trends.db
      ensures Abs() == Do(old(Abs()), Deliver(0, weather))
      ensures var before, processed := old(lane), old(trends.db.processed);
        lane == before.(position :=
          before.position + if Passes(before.records[before.position], processed, weather) then 1 else 0)
    {
      var record := lane.records[lane.position];
      match record {
        case Empty =>
          lane := lane.(position := lane.position + 1);
        case Malformed =>
          lane := lane.(position := lane.position + 1);
        case Null =>
          // the handler throws, and so does the log line that reports it
        case Event(envelope) =>
          var ending := trends.Handle(envelope, weather);
          if ending.Returns? {
            lane := lane.(position := lane.position + 1);
          }
      }
    }
  }
}
