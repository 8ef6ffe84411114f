/** The content service's two writers in their own form: PostsService and the verdict consumer,
    each proved to take exactly the step of the content machine it stands for. */
module ContentService {
  import opened Prelude
  import opened Messages
  import opened Content
  import Outbox
  import opened OutboxRelay
  import PostHistory

  /** The service's database. The ghost fields are the machine's history. */
  class ContentDb {
    var posts: map<Id, Post>
    var processed: set<Id>
    const store: OutboxStore
    ghost var created: map<Id, Creation>
    ghost var applied: seq<Applied>

    ghost function Abs(): State
      reads this, store
    {
      State(posts, store.Abs(), processed, created, applied)
    }

    constructor ()
      ensures Abs() == EMPTY && fresh(store)
    {
      store := new OutboxStore();
      posts, processed, created, applied := map[], {}, map[], [];
    }

    /** Writes an outbox row inside the open transaction. */
    method InsertRow(id: Id, row: Outbox.Row)
      requires Outbox.Can(store.Abs(), Outbox.Step.Insert(id, row))
      modifies store
      ensures store.Abs() == Outbox.Do(old(store.Abs()), Outbox.Step.Insert(id, row))
    {
      store.rows := store.rows[id := row];
      store.failures := store.failures[id := 0];
    }
  }

  class PostsService {
    const db: ContentDb

    constructor (db: ContentDb)
      ensures this.db == db
    {
      this.db := db;
    }

    /** `postId`, `rowId` and `minted` are the ids the database and randomUUID mint. */
    method CreatePost(postId: Id, rowId: Id, authorId: Id, content: string, correlationId: Option<Id>, minted: Id,
                      at: int)
      requires postId !in db.created && rowId !in db.store.rows
      modifies db, db.store
      ensures var correlated := if correlationId.Some? then correlationId.value else minted;
        var c := Creation(rowId, authorId, content, correlated, at);
        Can(old(db.Abs()), Step.Create(postId, c)) && db.Abs() == Do(old(db.Abs()), Step.Create(postId, c))
      ensures db.posts == old(db.posts)[postId := Post(authorId, content, Pending)]
      ensures var correlated := if correlationId.Some? then correlationId.value else minted;
        db.store.rows == old(db.store.rows)[rowId :=
          Outbox.Row(correlated, JOB_EVENT, 1, "content-service", at, Job(postId, content), None, 0, None)]
    {
      var resolved := match correlationId case Some(id) => id case None => minted;
      ghost var c := Creation(rowId, authorId, content, resolved, at);
      db.posts := db.posts[postId := Post(authorId, content, Pending)];
      var payload := Job(postId, content);
      db.InsertRow(rowId, Outbox.Row(resolved, JOB_EVENT, 1, SOURCE, at, payload, None, 0, None));
      db.created := db.created[postId := c];
    }

    /** None means not found: there is no such post of this author. */
    method UpdatePost(id: Id, authorId: Id, content: string) returns (post: Option<Post>)
      modifies db
      ensures db.Abs() == Do(old(db.Abs()), Step.Update(id, authorId, content))
      ensures post.Some? <==> id in old(db.posts) && old(db.posts)[id].authorId == authorId
      ensures post.Some? ==>
        post.value == old(db.posts)[id].(content := content) && db.posts == old(db.posts)[id := post.value]
      ensures post.None? ==> db.posts == old(db.posts)
    {
      if id !in db.posts || db.posts[id].authorId != authorId {
        return None;
      }
      db.posts := db.posts[id := db.posts[id].(content := content)];
      return Some(db.posts[id]);
    }

    /** False means not found: there is no such post of this author. */
    method RemovePost(id: Id, authorId: Id) returns (found: bool)
      modifies db
      ensures db.Abs() == Do(old(db.Abs()), Step.Remove(id, authorId))
      ensures found <==> id in old(db.posts) && old(db.posts)[id].authorId == authorId
      ensures db.posts == if found then old(db.posts) - {id} else old(db.posts)
    {
      if id !in db.posts || db.posts[id].authorId != authorId {
        return false;
      }
      db.posts := db.posts - {id};
      return true;
    }

    method FindOne(id: Id) returns (post: Option<Post>)
      ensures post.Some? <==> Visible(db.Abs(), id)
      ensures post.Some? ==> post.value == db.posts[id]
    {
      if id in db.posts && db.posts[id].status == Status.Approved {
        return Some(db.posts[id]);
      }
      return None;
    }

    /** One query; `scan` is the order in which the database happens to visit its posts. */
    method FindAll(scan: seq<Id>, skip: nat, take: nat) returns (page: seq<Id>)
      requires Distinct(scan) && Elements(scan) == db.posts.Keys
      ensures forall k :: 0 <= k < |page| ==> Visible(db.Abs(), page[k]) && IsNth(db.posts, scan, page[k], skip + k)
      ensures Distinct(page)
      ensures var all := |set id | id in db.posts && db.posts[id].status == Status.Approved|;
        |page| == if all <= skip then 0 else if all - skip <= take then all - skip else take
    {
      var approved := ApprovedIn(db.posts, scan);
      ApprovedInExact(db.posts, scan);
      DistinctSize(approved);
      assert Elements(approved) == set id | id in db.posts && db.posts[id].status == Status.Approved by {
        assert forall id :: id in scan <==> id in Elements(scan);
      }
      var from := if skip < |approved| then skip else |approved|;
      var to := if take < |approved| - from then from + take else |approved|;
      page := approved[from..to];
      PageIsNth(db.posts, scan, from, to);
    }
  }

  function ApprovedIn(posts: map<Id, Post>, scan: seq<Id>): seq<Id> {
    if scan == [] then [] else
      ApprovedIn(posts, scan[..|scan| - 1]) +
      var id := scan[|scan| - 1]; if id in posts && posts[id].status == Status.Approved then [id] else []
  }

  /** The post is visited by the scan after exactly n approved ones. */
  ghost predicate IsNth(posts: map<Id, Post>, scan: seq<Id>, id: Id, n: nat) {
    exists i :: 0 <= i < |scan| && scan[i] == id && ApprovedBefore(posts, scan, i) == n
  }

  ghost function ApprovedBefore(posts: map<Id, Post>, scan: seq<Id>, i: nat): nat
    requires i <= |scan|
  {
    |set id | id in scan[..i] && id in posts && posts[id].status == Status.Approved|
  }

  lemma PageIsNth(posts: map<Id, Post>, scan: seq<Id>, from: nat, to: nat)
    requires Distinct(scan) && from <= to <= |ApprovedIn(posts, scan)|
    ensures forall k :: 0 <= k < to - from ==> IsNth(posts, scan, ApprovedIn(posts, scan)[from..to][k], from + k)
  {
    forall k | 0 <= k < to - from ensures IsNth(posts, scan, ApprovedIn(posts, scan)[from..to][k], from + k) {
      NthApproved(posts, scan, from + k);
    }
  }

  lemma {:induction false} NthApproved(posts: map<Id, Post>, scan: seq<Id>, n: nat)
    requires Distinct(scan) && n < |ApprovedIn(posts, scan)|
    ensures IsNth(posts, scan, ApprovedIn(posts, scan)[n], n)
  {
    var last, rest := scan[|scan| - 1], scan[..|scan| - 1];
    if n < |ApprovedIn(posts, rest)| {
      NthApproved(posts, rest, n);
      IsNthPrefix(posts, scan, |rest|, ApprovedIn(posts, rest)[n], n);
    } else {
      BeforeLast(posts, rest);
      assert scan[|rest|] == last == ApprovedIn(posts, scan)[n];
      assert ApprovedBefore(posts, scan, |rest|) == n;
    }
  }

  lemma BeforeLast(posts: map<Id, Post>, rest: seq<Id>)
    requires Distinct(rest)
    ensures |set id | id in rest && id in posts && posts[id].status == Status.Approved| == |ApprovedIn(posts, rest)|
  {
    ApprovedInExact(posts, rest);
    DistinctSize(ApprovedIn(posts, rest));
    var approved := set id | id in rest && id in posts && posts[id].status == Status.Approved;
    assert Elements(ApprovedIn(posts, rest)) == approved;
  }

  lemma IsNthPrefix(posts: map<Id, Post>, scan: seq<Id>, m: nat, id: Id, n: nat)
    requires m <= |scan| && IsNth(posts, scan[..m], id, n)
    ensures IsNth(posts, scan, id, n)
  {
    var i :| 0 <= i < m && scan[..m][i] == id && ApprovedBefore(posts, scan[..m], i) == n;
    assert scan[..m][..i] == scan[..i];
    assert scan[i] == id && ApprovedBefore(posts, scan, i) == n;
  }

  lemma {:induction false} ApprovedInExact(posts: map<Id, Post>, scan: seq<Id>)
    requires Distinct(scan)
    ensures Distinct(ApprovedIn(posts, scan))
    ensures forall id :: id in ApprovedIn(posts, scan) <==>
        id in scan && id in posts && posts[id].status == Status.Approved
  {
    if scan != [] {
      var last, rest := scan[|scan| - 1], scan[..|scan| - 1];
      ApprovedInExact(posts, rest);
      assert scan == rest + [last];
      assert last !in rest;
    }
  }

  /** The post approved or rejected, and nothing else of it changed. */
  function WithVerdict(posts: map<Id, Post>, payload: Payload): map<Id, Post>
    requires payload.Completed? && payload.postId in posts
  {
    var post := posts[payload.postId];
    posts[payload.postId := if payload.verdict == Messages.Approved then post.(status := Status.Approved)
                            else post.(status := Status.Rejected)]
  }

  class ModerationCompletedConsumer {
    const db: ContentDb

    constructor (db: ContentDb)
      ensures this.db == db
    {
      this.db := db;
    }

    /** One delivery of a verdict; `weather` is how its transaction ends. The handler throws whenever it
        sees an error, even of a transaction that did commit. */
    method Handle(result: Envelope, rowId: Id, at: int, weather: Db) returns (outcome: Outcome)
      requires rowId !in db.store.rows
      modifies db, db.store
      ensures db.Abs() == if PostHistory.Readable(result) && weather.FailsBefore? then old(db.Abs())
                          else Do(old(db.Abs()), Step.Verdict(result, rowId, at))
      ensures var reached := PostHistory.Readable(result) && !weather.FailsBefore?;
        var known := result.messageId in old(db.processed);
        var effect := reached && !known && result.payload.postId in old(db.posts);
        && (outcome.Duplicate? <==> reached && known)
        && (outcome.Takes? <==> effect && weather.Commits?)
        && (!effect ==> db.Abs() == old(db.Abs()))
        && (effect ==>
              && db.processed == old(db.processed) + {result.messageId}
              && db.posts == WithVerdict(old(db.posts), result.payload))
      ensures Inv(old(db.Abs())) ==>
        (outcome.Duplicate? <==>
           Reaches(result, weather) && PostHistory.AppliedBefore(old(db.applied), result.messageId))
    {
      KnownIsApplied(db.Abs(), result.messageId);
      if !SupportedEventVersion(result.eventType, result.eventVersion) {
        return Outcome.Throws;
      }
      if !ValidCompleted(result.payload) {
        return Outcome.Throws;
      }
      if weather.FailsBefore? {
        return Outcome.Throws;
      }
      outcome := Transact(result, rowId, at);
      if outcome.Takes? && weather.FailsAfter? {
        return Outcome.Throws;
      }
    }

    /** The three writes of the transaction, which a taken message id or a missing post aborts. */
    method Transact(result: Envelope, rowId: Id, at: int) returns (outcome: Outcome)
      requires rowId !in db.store.rows && PostHistory.Readable(result)
      modifies db, db.store
      ensures db.Abs() == Do(old(db.Abs()), Step.Verdict(result, rowId, at))
      ensures outcome.Duplicate? <==> result.messageId in old(db.processed)
      ensures outcome.Takes? <==> result.messageId !in old(db.processed) && result.payload.postId in old(db.posts)
      ensures outcome.Takes? ==>
        && db.processed == old(db.processed) + {result.messageId}
        && db.posts == WithVerdict(old(db.posts), result.payload)
      ensures !outcome.Takes? ==> db.Abs() == old(db.Abs())
    {
      // the transaction's own view, written in order and installed on commit
      if result.messageId in db.processed {
        return Duplicate;
      }
      var processed := db.processed + {result.messageId};
      var postId := result.payload.postId;
      if postId !in db.posts {
        return Outcome.Throws;
      }
      var post := db.posts[postId].(status := StatusOf(result.payload.verdict));
      var payload := Completed(postId, result.payload.verdict, result.payload.categories, Some(post.authorId));
      db.processed := processed;
      db.posts := db.posts[postId := post];
      db.InsertRow(rowId, Outbox.Row(result.correlationId, COMPLETED_EVENT, 1, SOURCE, at, payload, None, 0, None));
      db.applied := db.applied + [Applied(result, rowId, post.authorId, at)];
      return Takes;
    }
  }

  /** The handler gets as far as a transaction that does not fail before it commits. */
  predicate Reaches(result: Envelope, weather: Db) {
    PostHistory.Readable(result) && !weather.FailsBefore?
  }

  lemma KnownIsApplied(s: State, id: Id)
    ensures Inv(s) ==> (id in s.processed <==> PostHistory.AppliedBefore(s.applied, id))
  {
    if Inv(s) {
      PostHistory.ProcessedIsApplied(s, id);
    }
  }
}
