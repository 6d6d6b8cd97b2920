/**
 * One ingestion tick, `scrapeFeeds` in internal/handlers/handlers.go: take the next feed
 * to fetch, mark it fetched, fetch it, then try to store one post per item whose
 * publication date parses.
 *
 * `StepScrape` is the tick as a function of the state before it, `ScrapeFeeds` the
 * imperative procedure proved equal to it, and the lemmas below say which effects a tick
 * has and in which order.
 */
module Scrape {
  import opened Wrappers
  import opened Storage
  import opened Session
  import opened Args
  import Rss

  /** The post that an item with a parsed date becomes. */
  function PostOf(v: Rss.RSSItem, publishedAt: Time, feedId: Id, now: Time): Post {
    Post(v.title, v.link, v.description, publishedAt, feedId, now)
  }

  /** One pass of the item loop: skip an item whose date does not parse, else try to insert it. */
  function IngestItem(sys: Sys, v: Rss.RSSItem, feedId: Id, env: Env): Sys {
    match env.parseDate(v.pubDate)
    case None => sys
    case Some(t) => Issue(sys, CreatePost(PostOf(v, t, feedId, env.now)), env).0 // a failed insert is only logged
  }

  /** The item loop over `items`, in order. */
  function Ingest(sys: Sys, items: seq<Rss.RSSItem>, feedId: Id, env: Env): Sys {
    if items == [] then sys
    else IngestItem(Ingest(sys, items[..|items| - 1], feedId, env), items[|items| - 1], feedId, env)
  }

  /** A tick as a function of the state before it. */
  function StepScrape(sys: Sys, env: Env): (Sys, Outcome) {
    var (s1, a1) := Issue(sys, GetNextFeedToFetch, env);
    match FeedOf(a1)
    case Failure(e) => (s1, Fail(DbFailed(e)))
    case Success(feed) =>
      var (s2, a2) := Issue(s1, MarkFeedFetched(feed.id, env.now), env);
      if a2.Failed? then (s2, Fail(DbFailed(a2.err)))
      else
        var s3 := s2.(trace := s2.trace + [FetchCalled(feed.url)]);
        match Rss.Fetch(env.net, feed.url)
        case Failure(e) => (s3, Fail(FetchFailed(e)))
        case Success(ch) => (Ingest(s3, ch.items, feed.id, env), Ok)
  }

  /** `scrapeFeeds`. The command argument is not used. */
  method ScrapeFeeds(s: State, c: Command, env: Env) returns (out: Outcome)
    modifies s
    ensures (s.View(), out) == StepScrape(old(s.View()), env)
  {
    var a := s.Exec(GetNextFeedToFetch, env);
    var next := FeedOf(a);
    if next.Failure? {
      return Fail(DbFailed(next.error));
    }
    var feed := next.value;
    a := s.Exec(MarkFeedFetched(feed.id, env.now), env);
    if a.Failed? {
      return Fail(DbFailed(a.err));
    }
    s.NoteFetch(feed.url);
    ghost var s3 := s.View();
    var res, err := Rss.FetchFeed(env.net, feed.url);
    if err.Some? {
      return Fail(FetchFailed(err.value));
    }
    ghost var ch := res.Value();
    assert Rss.Fetch(env.net, feed.url) == Success(ch);
    var i := 0;
    while i < res.items.Length
      invariant 0 <= i <= res.items.Length
      invariant res.Value() == ch
      invariant s.View() == Ingest(s3, res.items[..i], feed.id, env)
    {
      assert res.items[..i + 1][..i] == res.items[..i];
      var v := res.items[i];
      var published := env.parseDate(v.pubDate);
      if published.None? {
        i := i + 1;
        continue;
      }
      var _ := s.Exec(CreatePost(PostOf(v, published.value, feed.id, env.now)), env);
      i := i + 1;
    }
    assert res.items[..i] == ch.items;
    out := Ok;
  }

  /** The posts the item loop tries to create: one per item whose date parses, in item order. */
  function PostsToCreate(items: seq<Rss.RSSItem>, feedId: Id, env: Env): seq<Post> {
    if items == [] then []
    else
      (match env.parseDate(items[0].pubDate)
       case None => []
       case Some(t) => [PostOf(items[0], t, feedId, env.now)])
      + PostsToCreate(items[1..], feedId, env)
  }

  /** The insert calls for a list of posts, in order. */
  function InsertCalls(posts: seq<Post>): (r: seq<Effect>)
    ensures |r| == |posts|
    ensures forall i :: 0 <= i < |posts| ==> r[i] == Queried(CreatePost(posts[i]))
  {
    seq(|posts|, i requires 0 <= i < |posts| => Queried(CreatePost(posts[i])))
  }

  lemma {:induction false} PostsToCreateAppend(items: seq<Rss.RSSItem>, v: Rss.RSSItem, feedId: Id, env: Env)
    ensures PostsToCreate(items + [v], feedId, env)
         == PostsToCreate(items, feedId, env) + PostsToCreate([v], feedId, env)
  {
    if items == [] {
      assert items + [v] == [v];
    } else {
      assert (items + [v])[1..] == items[1..] + [v];
      PostsToCreateAppend(items[1..], v, feedId, env);
    }
  }

  /** Every post the loop tries to create belongs to the feed and takes its fields from an item. */
  lemma {:induction false} PostsToCreateShape(items: seq<Rss.RSSItem>, feedId: Id, env: Env)
    ensures |PostsToCreate(items, feedId, env)| <= |items|
    ensures forall p :: p in PostsToCreate(items, feedId, env) ==>
      p.feedId == feedId && p.createdAt == env.now &&
      exists v :: v in items && p.url == v.link && p.title == v.title && p.description == v.description
                 && env.parseDate(v.pubDate) == Some(p.publishedAt)
  {
    if items != [] {
      PostsToCreateShape(items[1..], feedId, env);
      forall p | p in PostsToCreate(items, feedId, env)
        ensures exists v :: v in items && p.url == v.link && p.title == v.title && p.description == v.description
                 && env.parseDate(v.pubDate) == Some(p.publishedAt)
      {
        if p !in PostsToCreate(items[1..], feedId, env) {
          assert items[0] in items;
        } else {
          var v :| v in items[1..] && p.url == v.link && p.title == v.title && p.description == v.description
                 && env.parseDate(v.pubDate) == Some(p.publishedAt);
          assert v in items;
        }
      }
    }
  }

  lemma IngestItemEffects(sys: Sys, v: Rss.RSSItem, feedId: Id, env: Env)
    ensures var s' := IngestItem(sys, v, feedId, env);
      && s'.trace == sys.trace + InsertCalls(PostsToCreate([v], feedId, env))
      && s'.cfg == sys.cfg
      && s'.db == sys.db.(posts := s'.db.posts)
  {
    assert [v][1..] == [];
  }

  /**
   * The item loop issues exactly the inserts of `PostsToCreate`, in order, whatever each
   * insert answers, and changes nothing in the database but its posts.
   */
  lemma {:induction false} IngestEffects(sys: Sys, items: seq<Rss.RSSItem>, feedId: Id, env: Env)
    ensures var s' := Ingest(sys, items, feedId, env);
      && s'.trace == sys.trace + InsertCalls(PostsToCreate(items, feedId, env))
      && s'.cfg == sys.cfg
      && s'.db == sys.db.(posts := s'.db.posts)
  {
    if items != [] {
      var init, v := items[..|items| - 1], items[|items| - 1];
      assert items == init + [v];
      IngestEffects(sys, init, feedId, env);
      IngestItemEffects(Ingest(sys, init, feedId, env), v, feedId, env);
      PostsToCreateAppend(init, v, feedId, env);
      var before := PostsToCreate(init, feedId, env);
      var added := PostsToCreate([v], feedId, env);
      assert InsertCalls(before + added) == InsertCalls(before) + InsertCalls(added);
    }
  }

  /** The posts the item loop adds are the stored ones plus exactly `PostsToCreate`, when their keys are new. */
  ghost predicate FreshKeys(stored: seq<Post>, posts: seq<Post>) {
    && (forall i :: 0 <= i < |posts| ==> !HasPost(stored, posts[i].feedId, posts[i].url))
    && (forall i, j :: 0 <= i < j < |posts| ==>
          posts[i].feedId != posts[j].feedId || posts[i].url != posts[j].url)
  }

  /** The store runs every one of these inserts (none of them hits a fault). */
  ghost predicate InsertsRun(posts: seq<Post>, env: Env) {
    forall i :: 0 <= i < |posts| ==> env.fault(CreatePost(posts[i])).None?
  }

  /** Both hypotheses of the item loop hold of a prefix of the posts when they hold of the whole. */
  lemma HypothesesOfPrefix(stored: seq<Post>, before: seq<Post>, added: seq<Post>, env: Env)
    requires InsertsRun(before + added, env) && FreshKeys(stored, before + added)
    ensures InsertsRun(before, env) && FreshKeys(stored, before)
  {
    var all := before + added;
    forall i | 0 <= i < |before| ensures all[i] == before[i] { }
  }

  /**
   * When the store runs every insert and no post to create collides with a stored one or
   * with another, every item with a parsable date is persisted and no other post is: an item
   * with a bad date is dropped without affecting its siblings.
   */
  lemma {:induction false} IngestPersistsParsable(sys: Sys, items: seq<Rss.RSSItem>, feedId: Id, env: Env)
    requires InsertsRun(PostsToCreate(items, feedId, env), env)
    requires FreshKeys(sys.db.posts, PostsToCreate(items, feedId, env))
    ensures Ingest(sys, items, feedId, env).db.posts == sys.db.posts + PostsToCreate(items, feedId, env)
  {
    if items != [] {
      var init, v := items[..|items| - 1], items[|items| - 1];
      assert items == init + [v];
      PostsToCreateAppend(init, v, feedId, env);
      var before := PostsToCreate(init, feedId, env);
      var added := PostsToCreate([v], feedId, env);
      var all := before + added;
      HypothesesOfPrefix(sys.db.posts, before, added, env);
      IngestPersistsParsable(sys, init, feedId, env);
      IngestEffects(sys, init, feedId, env);
      var mid := Ingest(sys, init, feedId, env);
      assert [v][1..] == [];
      if env.parseDate(v.pubDate).Some? {
        var p := PostOf(v, env.parseDate(v.pubDate).value, feedId, env.now);
        assert added == [p];
        assert all[|all| - 1] == p;
        assert env.fault(CreatePost(p)).None?;
        assert !HasPost(mid.db.posts, p.feedId, p.url) by {
          forall k | 0 <= k < |mid.db.posts| ensures !(mid.db.posts[k].feedId == p.feedId && mid.db.posts[k].url == p.url) {
            if k < |sys.db.posts| {
              assert mid.db.posts[k] == sys.db.posts[k];
            } else {
              assert mid.db.posts[k] == all[k - |sys.db.posts|];
            }
          }
        }
      }
    }
  }

  /** A key stored in a prefix is stored in the whole. */
  lemma HasPostExtends(a: seq<Post>, b: seq<Post>, feedId: Id, url: string)
    requires a <= b && HasPost(a, feedId, url)
    ensures HasPost(b, feedId, url)
  {
    var i :| 0 <= i < |a| && a[i].feedId == feedId && a[i].url == url;
    assert b[i] == a[i];
  }

  /**
   * The item loop keeps the (feed, link) uniqueness of posts, never drops a stored post, and
   * leaves the key of every post it tried to insert stored, unless that insert hit a fault:
   * an item repeated within one fetch, or fetched again later, ends up stored once.
   */
  lemma {:induction false} IngestKeepsUnique(sys: Sys, items: seq<Rss.RSSItem>, feedId: Id, env: Env)
    requires UniquePosts(sys.db.posts)
    ensures var after := Ingest(sys, items, feedId, env).db.posts;
      var tried := PostsToCreate(items, feedId, env);
      && UniquePosts(after)
      && sys.db.posts <= after
      && forall i :: 0 <= i < |tried| && env.fault(CreatePost(tried[i])).None? ==>
           HasPost(after, tried[i].feedId, tried[i].url)
  {
    if items != [] {
      var init, v := items[..|items| - 1], items[|items| - 1];
      assert items == init + [v];
      IngestKeepsUnique(sys, init, feedId, env);
      PostsToCreateAppend(init, v, feedId, env);
      var mid := Ingest(sys, init, feedId, env).db.posts;
      var after := Ingest(sys, items, feedId, env).db.posts;
      var before := PostsToCreate(init, feedId, env);
      var added := PostsToCreate([v], feedId, env);
      var tried := before + added;
      assert [v][1..] == [];
      match env.parseDate(v.pubDate)
      case None =>
        assert added == [];
        assert tried == before;
      case Some(t) =>
        var p := PostOf(v, t, feedId, env.now);
        assert added == [p];
        var st := Ingest(sys, init, feedId, env);
        if env.fault(CreatePost(p)).None? {
          CreatePostKeepsOnePerKey(st.db, p);
          if !HasPost(after, p.feedId, p.url) {
            CountAbsent(after, p.feedId, p.url);
          }
        }
        assert mid <= after;
        forall i | 0 <= i < |before| && env.fault(CreatePost(before[i])).None?
          ensures HasPost(after, before[i].feedId, before[i].url)
        {
          HasPostExtends(mid, after, before[i].feedId, before[i].url);
        }
    }
  }

  /**
   * A tick keeps the (feed, link) uniqueness of posts whatever fails: every stored key is
   * carried by exactly one post afterwards.
   */
  lemma {:induction false} TickKeepsOnePostPerKey(sys: Sys, env: Env)
    requires UniquePosts(sys.db.posts)
    ensures var after := StepScrape(sys, env).0.db.posts;
      && UniquePosts(after)
      && sys.db.posts <= after
      && forall feedId, url :: HasPost(after, feedId, url) ==> CountPosts(after, feedId, url) == 1
  {
    var (s1, a1) := Issue(sys, GetNextFeedToFetch, env);
    assert s1.db == sys.db;
    var after := StepScrape(sys, env).0.db.posts;
    if a1.FeedRow? {
      var feed := a1.feed;
      var (s2, a2) := Issue(s1, MarkFeedFetched(feed.id, env.now), env);
      assert s2.db.posts == sys.db.posts;
      if !a2.Failed? {
        var s3 := s2.(trace := s2.trace + [FetchCalled(feed.url)]);
        if Rss.Fetch(env.net, feed.url).Success? {
          IngestKeepsUnique(s3, Rss.Fetch(env.net, feed.url).value.items, feed.id, env);
        }
      }
    }
    assert UniquePosts(after) && sys.db.posts <= after;
    forall feedId, url | HasPost(after, feedId, url) ensures CountPosts(after, feedId, url) == 1 {
      CountPresent(after, feedId, url);
    }
  }

  /** A tick whose first query fails, or that finds no feed, fails at once and does nothing else. */
  lemma NoFeedFailsFirst(sys: Sys, env: Env)
    requires env.fault(GetNextFeedToFetch).Some? || sys.db.feeds == []
    ensures StepScrape(sys, env) ==
      (sys.(trace := sys.trace + [Queried(GetNextFeedToFetch)]),
       Fail(DbFailed(FaultOr(env, GetNextFeedToFetch, NoRows))))
  {
  }

  /**
   * A tick whose mark fails returns the mark's error before any fetch: the trace ends with
   * the two queries, and nothing in the store has changed.
   */
  lemma MarkFailureStopsBeforeFetch(sys: Sys, env: Env, e: DbError)
    requires env.fault(GetNextFeedToFetch).None? && sys.db.feeds != []
    requires env.fault(MarkFeedFetched(Oldest(sys.db.feeds).id, env.now)) == Some(e)
    ensures StepScrape(sys, env) ==
      (sys.(trace := sys.trace + [Queried(GetNextFeedToFetch),
                                  Queried(MarkFeedFetched(Oldest(sys.db.feeds).id, env.now))]),
       Fail(DbFailed(e)))
  {
    var feed := Oldest(sys.db.feeds);
    var (s1, a1) := Issue(sys, GetNextFeedToFetch, env);
    assert a1 == FeedRow(feed);
    assert s1.trace + [Queried(MarkFeedFetched(feed.id, env.now))] ==
      sys.trace + [Queried(GetNextFeedToFetch), Queried(MarkFeedFetched(feed.id, env.now))];
  }

  /**
   * A tick whose fetch fails has marked the feed fetched first, writes no post, and returns
   * the fetch error: the failing feed still rotates to the back.
   */
  lemma FetchFailureAfterMark(sys: Sys, env: Env, e: Rss.FetchError)
    requires env.fault(GetNextFeedToFetch).None? && sys.db.feeds != []
    requires env.fault(MarkFeedFetched(Oldest(sys.db.feeds).id, env.now)).None?
    requires Rss.Fetch(env.net, Oldest(sys.db.feeds).url) == Failure(e)
    ensures var feed := Oldest(sys.db.feeds);
      StepScrape(sys, env) ==
        (Sys(sys.db.(feeds := MarkFetched(sys.db.feeds, feed.id, env.now)), sys.cfg,
             sys.trace + [Queried(GetNextFeedToFetch), Queried(MarkFeedFetched(feed.id, env.now)),
                          FetchCalled(feed.url)]),
         Fail(FetchFailed(e)))
  {
    var feed := Oldest(sys.db.feeds);
    var (s1, a1) := Issue(sys, GetNextFeedToFetch, env);
    assert a1 == FeedRow(feed);
    var (s2, a2) := Issue(s1, MarkFeedFetched(feed.id, env.now), env);
    assert a2 == Done;
    assert s2.db == sys.db.(feeds := MarkFetched(sys.db.feeds, feed.id, env.now));
    assert s2.trace + [FetchCalled(feed.url)] == sys.trace
      + [Queried(GetNextFeedToFetch), Queried(MarkFeedFetched(feed.id, env.now)), FetchCalled(feed.url)];
  }

  /**
   * A tick whose two queries run and whose fetch succeeds takes the oldest feed, marks it,
   * fetches it, then issues one insert per item with a parsable date, in item order, and
   * returns nil whatever the inserts answer.
   */
  lemma {:induction false} SuccessfulTick(sys: Sys, env: Env, ch: Rss.Channel)
    requires env.fault(GetNextFeedToFetch).None? && sys.db.feeds != []
    requires env.fault(MarkFeedFetched(Oldest(sys.db.feeds).id, env.now)).None?
    requires Rss.Fetch(env.net, Oldest(sys.db.feeds).url) == Success(ch)
    ensures var feed := Oldest(sys.db.feeds);
      var (s', out) := StepScrape(sys, env);
      && out == Ok
      && s'.trace == sys.trace
           + [Queried(GetNextFeedToFetch), Queried(MarkFeedFetched(feed.id, env.now)), FetchCalled(feed.url)]
           + InsertCalls(PostsToCreate(ch.items, feed.id, env))
      && s'.db.feeds == MarkFetched(sys.db.feeds, feed.id, env.now)
      && s'.db.users == sys.db.users && s'.cfg == sys.cfg
  {
    var feed := Oldest(sys.db.feeds);
    var s3 := Sys(sys.db.(feeds := MarkFetched(sys.db.feeds, feed.id, env.now)), sys.cfg,
                  sys.trace + [Queried(GetNextFeedToFetch), Queried(MarkFeedFetched(feed.id, env.now)),
                               FetchCalled(feed.url)]);
    var (s1, a1) := Issue(sys, GetNextFeedToFetch, env);
    assert a1 == FeedRow(feed);
    var (s2, a2) := Issue(s1, MarkFeedFetched(feed.id, env.now), env);
    assert a2 == Done;
    assert s2.trace + [FetchCalled(feed.url)] == s3.trace;
    assert StepScrape(sys, env) == (Ingest(s3, ch.items, feed.id, env), Ok);
    IngestEffects(s3, ch.items, feed.id, env);
  }
}
