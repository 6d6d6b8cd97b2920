/**
 * The relational store that the handlers reach through `database.Queries`.
 *
 * The SQL queries themselves are not part of this model. What the handlers rely on is
 * given here as a reference semantics on a value `Db`: rows live in maps, sequences and
 * sets, uniqueness constraints make inserts fail, and a missing row makes a lookup fail.
 * `Perform(db, q)` is the single place where a query's effect and answer are defined when
 * the store runs it; a query the store cannot run at all (a lost connection, a server
 * error) is decided per query by the session, not here.
 */
module Storage {
  import opened Wrappers

  /** An instant of the wall clock; only its order matters here. */
  type Time = int

  /** A row identity (uuid or serial in the database). */
  type Id = nat

  datatype User = User(id: Id, name: string, createdAt: Time)

  /** A subscribed feed; `lastFetched == None` is a NULL `last_fetched_at`. */
  datatype Feed = Feed(id: Id, name: string, url: string, userId: Id, lastFetched: Option<Time>)

  datatype Follow = Follow(userId: Id, feedId: Id)

  datatype Post = Post(title: string, url: string, description: string,
                       publishedAt: Time, feedId: Id, createdAt: Time)

  /** User names are the keys of `users`; `nextId` is the next identity the store hands out. */
  datatype Db = Db(users: map<string, User>, feeds: seq<Feed>,
                   follows: set<Follow>, posts: seq<Post>, nextId: Id)

  /** Every query the handlers issue, named as the generated query methods, with its arguments. */
  datatype Query =
    | GetUser(name: string)
    | CreateUser(name: string, at: Time)
    | ResetUsers
    | GetUsers
    | GetNextFeedToFetch
    | MarkFeedFetched(feedId: Id, at: Time)
    | CreatePost(post: Post)
    | CreateFeed(name: string, url: string, userId: Id, at: Time)
    | GetFeeds
    | GetUserByID(userId: Id)
    | GetFeedByURL(url: string)
    | CreateFeedFollow(userId: Id, feedId: Id, at: Time)
    | UnfollowFeed(userId: Id, feedId: Id)
    | GetFeedFollowsForUser(userId: Id)
    | GetPostsByUser(name: string, limit: int)

  /** `Unavailable` is any error of the store that the reference semantics does not derive. */
  datatype DbError = Unavailable | NoRows | UniqueViolation

  /** What a query hands back; listings that are only printed answer `Done`. */
  datatype Answer =
    | Done
    | UserRow(user: User)
    | FeedRow(feed: Feed)
    | FeedRows(feeds: seq<Feed>)
    | Failed(err: DbError)

  /** `a` sorts strictly before `b` in "oldest last_fetched_at first, NULLs first" order. */
  predicate FetchedBefore(a: Option<Time>, b: Option<Time>) {
    match a
    case None => b.Some?
    case Some(x) => b.Some? && x < b.value
  }

  /** The feed that "next feed to fetch" returns: no feed was fetched before it (ties go to the first row). */
  function Oldest(feeds: seq<Feed>): (f: Feed)
    requires feeds != []
    ensures f in feeds
    ensures forall g :: g in feeds ==> !FetchedBefore(g.lastFetched, f.lastFetched)
  {
    if |feeds| == 1 then feeds[0]
    else
      var rest := Oldest(feeds[1..]);
      assert forall g :: g in feeds ==> g == feeds[0] || g in feeds[1..];
      if FetchedBefore(rest.lastFetched, feeds[0].lastFetched) then rest else feeds[0]
  }

  /** `UPDATE feeds SET last_fetched_at = at WHERE id = feedId`. */
  function MarkFetched(feeds: seq<Feed>, feedId: Id, at: Time): seq<Feed> {
    seq(|feeds|, i requires 0 <= i < |feeds| =>
      if feeds[i].id == feedId then feeds[i].(lastFetched := Some(at)) else feeds[i])
  }

  /** A post with this (feed, link) key is already stored. */
  predicate HasPost(posts: seq<Post>, feedId: Id, url: string) {
    exists i | 0 <= i < |posts| :: posts[i].feedId == feedId && posts[i].url == url
  }

  /** The (feed, link) uniqueness constraint on posts. */
  ghost predicate UniquePosts(posts: seq<Post>) {
    forall i, j :: 0 <= i < j < |posts| ==>
      posts[i].feedId != posts[j].feedId || posts[i].url != posts[j].url
  }

  /** How many stored posts carry the key (feed, link). */
  function CountPosts(posts: seq<Post>, feedId: Id, url: string): nat {
    if posts == [] then 0
    else CountPosts(posts[..|posts| - 1], feedId, url)
         + (if posts[|posts| - 1].feedId == feedId && posts[|posts| - 1].url == url then 1 else 0)
  }

  function FeedByUrl(feeds: seq<Feed>, url: string): Option<Feed> {
    if feeds == [] then None
    else if feeds[0].url == url then Some(feeds[0])
    else FeedByUrl(feeds[1..], url)
  }

  /** The new database and the answer of one query that the store runs. */
  function Perform(db: Db, q: Query): (Db, Answer) {
    match q
    case GetUser(name) =>
      (db, if name in db.users then UserRow(db.users[name]) else Failed(NoRows))
    case CreateUser(name, at) =>
      if name in db.users then (db, Failed(UniqueViolation))
      else
        var u := User(db.nextId, name, at);
        (db.(users := db.users[name := u], nextId := db.nextId + 1), UserRow(u))
    case ResetUsers =>
      // deleting every user cascades to feeds, follows and posts (an assumed schema)
      (db.(users := map[], feeds := [], follows := {}, posts := []), Done)
    case GetUsers => (db, Done)
    case GetNextFeedToFetch =>
      (db, if db.feeds == [] then Failed(NoRows) else FeedRow(Oldest(db.feeds)))
    case MarkFeedFetched(feedId, at) =>
      (db.(feeds := MarkFetched(db.feeds, feedId, at)), Done)
    case CreatePost(p) =>
      if HasPost(db.posts, p.feedId, p.url) then (db, Failed(UniqueViolation))
      else (db.(posts := db.posts + [p]), Done)
    case CreateFeed(name, url, userId, at) =>
      if FeedByUrl(db.feeds, url).Some? then (db, Failed(UniqueViolation))
      else
        var f := Feed(db.nextId, name, url, userId, None);
        (db.(feeds := db.feeds + [f], nextId := db.nextId + 1), FeedRow(f))
    case GetFeeds => (db, FeedRows(db.feeds))
    case GetUserByID(userId) =>
      (db, if exists n | n in db.users :: db.users[n].id == userId then Done else Failed(NoRows))
    case GetFeedByURL(url) =>
      (db, match FeedByUrl(db.feeds, url) case Some(f) => FeedRow(f) case None => Failed(NoRows))
    case CreateFeedFollow(userId, feedId, at) =>
      if Follow(userId, feedId) in db.follows then (db, Failed(UniqueViolation))
      else (db.(follows := db.follows + {Follow(userId, feedId)}), Done)
    case UnfollowFeed(userId, feedId) =>
      (db.(follows := db.follows - {Follow(userId, feedId)}), Done)
    case GetFeedFollowsForUser(_) => (db, Done)
    case GetPostsByUser(_, _) => (db, Done)
  }

  lemma {:induction false} CountAbsent(posts: seq<Post>, feedId: Id, url: string)
    requires !HasPost(posts, feedId, url)
    ensures CountPosts(posts, feedId, url) == 0
  {
    if posts != [] {
      var init := posts[..|posts| - 1];
      assert !HasPost(init, feedId, url) by {
        forall i | 0 <= i < |init| ensures !(init[i].feedId == feedId && init[i].url == url) {
          assert init[i] == posts[i];
        }
      }
      CountAbsent(init, feedId, url);
    }
  }

  lemma {:induction false} CountPresent(posts: seq<Post>, feedId: Id, url: string)
    requires UniquePosts(posts) && HasPost(posts, feedId, url)
    ensures CountPosts(posts, feedId, url) == 1
  {
    var n := |posts| - 1;
    var init := posts[..n];
    assert UniquePosts(init) by {
      forall i, j | 0 <= i < j < |init|
        ensures init[i].feedId != init[j].feedId || init[i].url != init[j].url
      {
        assert init[i] == posts[i] && init[j] == posts[j];
      }
    }
    if posts[n].feedId == feedId && posts[n].url == url {
      assert !HasPost(init, feedId, url) by {
        forall i | 0 <= i < |init| ensures !(init[i].feedId == feedId && init[i].url == url) {
          assert init[i] == posts[i];
        }
      }
      CountAbsent(init, feedId, url);
    } else {
      assert HasPost(init, feedId, url) by {
        var i :| 0 <= i < |posts| && posts[i].feedId == feedId && posts[i].url == url;
        assert i < n && init[i] == posts[i];
      }
      CountPresent(init, feedId, url);
    }
  }

  /**
   * The uniqueness constraint on posts survives every insert, and after an insert of a key
   * (successful or rejected as a duplicate) exactly one post carries that key.
   */
  lemma CreatePostKeepsOnePerKey(db: Db, p: Post)
    requires UniquePosts(db.posts)
    ensures var (db', a) := Perform(db, CreatePost(p));
      && UniquePosts(db'.posts)
      && CountPosts(db'.posts, p.feedId, p.url) == 1
      && (a == Done <==> !HasPost(db.posts, p.feedId, p.url))
      && (a != Done ==> a == Failed(UniqueViolation) && db' == db)
  {
    var (db', a) := Perform(db, CreatePost(p));
    if !HasPost(db.posts, p.feedId, p.url) {
      var ps := db'.posts;
      assert ps == db.posts + [p];
      assert UniquePosts(ps) by {
        forall i, j | 0 <= i < j < |ps| ensures ps[i].feedId != ps[j].feedId || ps[i].url != ps[j].url {
          if j == |ps| - 1 {
            assert ps[j] == p && ps[i] == db.posts[i];
          } else {
            assert ps[i] == db.posts[i] && ps[j] == db.posts[j];
          }
        }
      }
      assert HasPost(ps, p.feedId, p.url) by { assert ps[|ps| - 1] == p; }
    }
    CountPresent(db'.posts, p.feedId, p.url);
  }

  /**
   * Ingesting the same (feed, link) twice leaves exactly one post with that key: the second
   * insert is rejected by the uniqueness constraint and changes nothing.
   */
  lemma {:induction false} SecondInsertSuppressed(db: Db, p: Post, p': Post)
    requires UniquePosts(db.posts)
    requires p'.feedId == p.feedId && p'.url == p.url
    ensures var db1 := Perform(db, CreatePost(p)).0;
      && Perform(db1, CreatePost(p')) == (db1, Failed(UniqueViolation))
      && CountPosts(db1.posts, p.feedId, p.url) == 1
  {
    CreatePostKeepsOnePerKey(db, p);
    var db1 := Perform(db, CreatePost(p)).0;
    if !HasPost(db.posts, p.feedId, p.url) {
      assert db1.posts[|db1.posts| - 1] == p;
    }
    assert HasPost(db1.posts, p.feedId, p.url);
  }

  /**
   * Rotation: once the feed that "next feed to fetch" returned is marked fetched at an instant
   * later than every recorded fetch, the next query returns a different feed (when there is one).
   */
  lemma MarkedFeedYieldsTurn(feeds: seq<Feed>, at: Time)
    requires |feeds| >= 2
    requires forall i, j :: 0 <= i < |feeds| && 0 <= j < |feeds| && i != j ==> feeds[i].id != feeds[j].id
    requires forall i :: 0 <= i < |feeds| ==> FetchedBefore(feeds[i].lastFetched, Some(at))
    ensures Oldest(MarkFetched(feeds, Oldest(feeds).id, at)).id != Oldest(feeds).id
  {
    var chosen := Oldest(feeds);
    var marked := MarkFetched(feeds, chosen.id, at);
    var k :| 0 <= k < |feeds| && feeds[k] == chosen;
    var other := if k == 0 then 1 else 0;
    assert feeds[other].id != feeds[k].id;
    assert marked[other] == feeds[other];
    assert marked[k].lastFetched == Some(at);
    assert FetchedBefore(marked[other].lastFetched, marked[k].lastFetched);
    var next := Oldest(marked);
    assert marked[other] in marked;
    assert !FetchedBefore(marked[other].lastFetched, next.lastFetched);
    var m :| 0 <= m < |marked| && marked[m] == next;
    assert m != k;
    assert marked[m].id == feeds[m].id != feeds[k].id;
  }

  /** Marking is last-write-wins: the later of two marks is what the row records. */
  lemma {:induction false} MarkTwiceKeepsLatest(feeds: seq<Feed>, feedId: Id, t1: Time, t2: Time)
    ensures var twice := MarkFetched(MarkFetched(feeds, feedId, t1), feedId, t2);
      && |twice| == |feeds|
      && forall i :: 0 <= i < |feeds| ==>
           twice[i] == (if feeds[i].id == feedId then feeds[i].(lastFetched := Some(t2)) else feeds[i])
  {
  }
}
