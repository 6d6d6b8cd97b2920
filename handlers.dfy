/**
 * The command handlers of internal/handlers/handlers.go.
 *
 * A handler is a value of `Handler`; `LoggedIn(h)` is `middlewareLoggedIn` wrapped around
 * the user-taking handler `h`. `Step` gives what a handler does to the session and how it
 * ends, as a function of the session before it; the methods below are the handlers'
 * procedures on a `State`, each proved equal to its step function, and the lemmas say what
 * the steps promise.
 */
module Handlers {
  import opened Wrappers
  import opened Storage
  import opened Session
  import opened Args

  /** The handlers that take the logged-in user as a third argument. */
  datatype UserHandler = AddFeed | FollowFeed | Following | Unfollow | Browse

  /** The registrable handlers; `LoggedIn` is the closure `middlewareLoggedIn` returns. */
  datatype Handler = Logins | Registers | Resets | Users | Agg | Feeds | LoggedIn(inner: UserHandler)

  /** `if err != nil { return err }; return nil` on a query's answer. */
  function Status(a: Answer): (r: Outcome)
    ensures r == Ok <==> !a.Failed?
    ensures a.Failed? ==> r == Fail(DbFailed(a.err))
  {
    if a.Failed? then Fail(DbFailed(a.err)) else Ok
  }

  function StepLogins(sys: Sys, c: Command, env: Env): (Sys, Outcome) {
    if |c.args| == 0 then (sys, Fail(Usage("Expected username")))
    else
      var (s1, a) := Issue(sys, GetUser(c.args[0]), env);
      match UserOf(a)
      case Failure(e) => (s1, Fail(DbFailed(e)))
      case Success(_) => SaveUser(s1, c.args[0], env.configWritable)
  }

  function StepRegisters(sys: Sys, c: Command, env: Env): (Sys, Outcome) {
    if |c.args| == 0 then (sys, Fail(Usage("Expected username")))
    else
      var (s1, a) := Issue(sys, CreateUser(c.args[0], env.now), env);
      match UserOf(a)
      case Failure(e) => (s1, Fail(DbFailed(e)))
      case Success(_) => SaveUser(s1, c.args[0], env.configWritable)
  }

  /**
   * `handlerAgg` up to its ticker loop: exactly one argument, a duration that parses, and
   * a positive one (`time.NewTicker` panics otherwise); it touches nothing before the loop.
   */
  function AggOutcome(c: Command, env: Env): (r: Outcome)
    ensures |c.args| == 0 ==> r == Fail(Usage("Expected arguments"))
    ensures |c.args| > 1 ==> r == Fail(Usage("Too many arguments, expected 1: time"))
    ensures |c.args| == 1 && env.parseDuration(c.args[0]).None? ==> r == Fail(BadDuration(c.args[0]))
    ensures r.Ticking? <==> |c.args| == 1 && env.parseDuration(c.args[0]).Some?
                            && env.parseDuration(c.args[0]).value > 0
    ensures r.Ticking? ==> r.interval == env.parseDuration(c.args[0]).value
    ensures r.Panic? ==> r.kind == NonPositiveInterval
  {
    if |c.args| == 0 then Fail(Usage("Expected arguments"))
    else if |c.args| == 1 then
      match env.parseDuration(c.args[0])
      case None => Fail(BadDuration(c.args[0]))
      case Some(d) => if d <= 0 then Panic(NonPositiveInterval) else Ticking(d)
    else Fail(Usage("Too many arguments, expected 1: time"))
  }

  /** The owner lookups of `handlerFeeds`, one per feed in order, stopping at the first failure. */
  function LookupOwners(sys: Sys, feeds: seq<Feed>, env: Env): (Sys, Outcome)
    decreases |feeds|
  {
    if feeds == [] then (sys, Ok)
    else
      var (s1, a) := Issue(sys, GetUserByID(feeds[0].userId), env);
      if a.Failed? then (s1, Fail(DbFailed(a.err))) else LookupOwners(s1, feeds[1..], env)
  }

  function StepFeeds(sys: Sys, env: Env): (Sys, Outcome) {
    var (s1, a) := Issue(sys, GetFeeds, env);
    match FeedsOf(a)
    case Failure(e) => (s1, Fail(DbFailed(e)))
    case Success(feeds) => LookupOwners(s1, feeds, env)
  }

  /** `handlerAddFeed`: the URL argument is cleaned before the name. */
  function StepAddFeed(sys: Sys, c: Command, u: User, env: Env): (Sys, Outcome) {
    if |c.args| < 2 then (sys, Fail(Usage("Expected name and URL of the feed")))
    else match CleanArg(c.args[1])
      case Failure(p) => (sys, Panic(p))
      case Success(url) =>
        match CleanArg(c.args[0])
        case Failure(p) => (sys, Panic(p))
        case Success(name) =>
          var (s1, a1) := Issue(sys, CreateFeed(name, url, u.id, env.now), env);
          match FeedOf(a1)
          case Failure(e) => (s1, Fail(DbFailed(e)))
          case Success(f) =>
            var (s2, a2) := Issue(s1, CreateFeedFollow(u.id, f.id, env.now), env);
            (s2, Status(a2))
  }

  function StepFollow(sys: Sys, c: Command, u: User, env: Env): (Sys, Outcome) {
    if |c.args| == 0 then (sys, Fail(Usage("Expected URL")))
    else match CleanArg(c.args[0])
      case Failure(p) => (sys, Panic(p))
      case Success(url) =>
        var (s1, a1) := Issue(sys, GetFeedByURL(url), env);
        match FeedOf(a1)
        case Failure(e) => (s1, Fail(DbFailed(e)))
        case Success(f) =>
          var (s2, a2) := Issue(s1, CreateFeedFollow(u.id, f.id, env.now), env);
          (s2, Status(a2))
  }

  function StepUnfollow(sys: Sys, c: Command, u: User, env: Env): (Sys, Outcome) {
    if |c.args| == 0 then (sys, Fail(Usage("Expected URL")))
    else match CleanArg(c.args[0])
      case Failure(p) => (sys, Panic(p))
      case Success(url) =>
        var (s1, a1) := Issue(sys, GetFeedByURL(url), env);
        match FeedOf(a1)
        case Failure(e) => (s1, Fail(DbFailed(e)))
        case Success(f) =>
          var (s2, a2) := Issue(s1, UnfollowFeed(u.id, f.id), env);
          (s2, Status(a2))
  }

  function StepBrowse(sys: Sys, c: Command, u: User, env: Env): (Sys, Outcome) {
    match BrowseLimit(c.args)
    case Failure(p) => (sys, Panic(p))
    case Success(limit) =>
      var (s1, a) := Issue(sys, GetPostsByUser(u.name, limit as int), env);
      (s1, Status(a))
  }

  /** A user-taking handler called with the user `u`. */
  function StepUser(h: UserHandler, sys: Sys, c: Command, u: User, env: Env): (Sys, Outcome) {
    match h
    case AddFeed => StepAddFeed(sys, c, u, env)
    case FollowFeed => StepFollow(sys, c, u, env)
    case Following => var (s1, a) := Issue(sys, GetFeedFollowsForUser(u.id), env); (s1, Status(a))
    case Unfollow => StepUnfollow(sys, c, u, env)
    case Browse => StepBrowse(sys, c, u, env)
  }

  /** A registered handler called on the session `sys` with the command `c`. */
  function Step(h: Handler, sys: Sys, c: Command, env: Env): (Sys, Outcome) {
    match h
    case Logins => StepLogins(sys, c, env)
    case Registers => StepRegisters(sys, c, env)
    case Resets => var (s1, a) := Issue(sys, ResetUsers, env); (s1, Status(a))
    case Users => var (s1, a) := Issue(sys, GetUsers, env); (s1, Status(a))
    case Agg => (sys, AggOutcome(c, env))
    case Feeds => StepFeeds(sys, env)
    case LoggedIn(inner) =>
      var (s1, a) := Issue(sys, GetUser(sys.cfg.currentUserName), env);
      match UserOf(a)
      case Failure(e) => (s1, Fail(DbFailed(e)))
      case Success(u) => StepUser(inner, s1, c, u, env)
  }

  // ---------------------------------------------------------------------------------------
  // The handlers' procedures.

  method HandlerLogins(s: State, c: Command, env: Env) returns (out: Outcome)
    modifies s
    ensures (s.View(), out) == StepLogins(old(s.View()), c, env)
  {
    if |c.args| == 0 {
      return Fail(Usage("Expected username"));
    }
    var a := s.Exec(GetUser(c.args[0]), env);
    var u := UserOf(a);
    if u.Failure? {
      return Fail(DbFailed(u.error));
    }
    out := s.SetUser(c.args[0], env.configWritable);
  }

  method HandlerRegisters(s: State, c: Command, env: Env) returns (out: Outcome)
    modifies s
    ensures (s.View(), out) == StepRegisters(old(s.View()), c, env)
  {
    if |c.args| == 0 {
      return Fail(Usage("Expected username"));
    }
    var a := s.Exec(CreateUser(c.args[0], env.now), env);
    var u := UserOf(a);
    if u.Failure? {
      return Fail(DbFailed(u.error));
    }
    out := s.SetUser(c.args[0], env.configWritable);
  }

  method HandlerResets(s: State, c: Command, env: Env) returns (out: Outcome)
    modifies s
    ensures (s.View(), out) == Step(Resets, old(s.View()), c, env)
  {
    var a := s.Exec(ResetUsers, env);
    out := Status(a);
  }

  method HandlerUsers(s: State, c: Command, env: Env) returns (out: Outcome)
    modifies s
    ensures (s.View(), out) == Step(Users, old(s.View()), c, env)
  {
    var a := s.Exec(GetUsers, env);
    out := Status(a);
  }

  /** `handlerAgg` up to the ticker loop; it changes nothing. */
  method HandlerAgg(c: Command, env: Env) returns (out: Outcome)
    ensures out == AggOutcome(c, env)
  {
    if |c.args| == 0 {
      return Fail(Usage("Expected arguments"));
    } else if |c.args| == 1 {
      var d := env.parseDuration(c.args[0]);
      if d.None? {
        return Fail(BadDuration(c.args[0]));
      }
      if d.value <= 0 {
        return Panic(NonPositiveInterval);
      }
      out := Ticking(d.value);
    } else {
      return Fail(Usage("Too many arguments, expected 1: time"));
    }
  }

  /** `handlerFeeds`, with its loop of owner lookups. */
  method HandlerFeeds(s: State, env: Env) returns (out: Outcome)
    modifies s
    ensures (s.View(), out) == StepFeeds(old(s.View()), env)
  {
    var a := s.Exec(GetFeeds, env);
    var listed := FeedsOf(a);
    if listed.Failure? {
      return Fail(DbFailed(listed.error));
    }
    var feeds := listed.value;
    ghost var goal := LookupOwners(s.View(), feeds, env);
    var i := 0;
    while i < |feeds|
      invariant 0 <= i <= |feeds|
      invariant LookupOwners(s.View(), feeds[i..], env) == goal
    {
      assert feeds[i..][1..] == feeds[i + 1..];
      var b := s.Exec(GetUserByID(feeds[i].userId), env);
      if b.Failed? {
        return Fail(DbFailed(b.err));
      }
      i := i + 1;
    }
    out := Ok;
  }

  method HandlerAddFeed(s: State, c: Command, u: User, env: Env) returns (out: Outcome)
    modifies s
    ensures (s.View(), out) == StepAddFeed(old(s.View()), c, u, env)
  {
    if |c.args| < 2 {
      return Fail(Usage("Expected name and URL of the feed"));
    }
    var url := CleanArg(c.args[1]);
    if url.Failure? {
      return Panic(url.error);
    }
    var name := CleanArg(c.args[0]);
    if name.Failure? {
      return Panic(name.error);
    }
    var a := s.Exec(CreateFeed(name.value, url.value, u.id, env.now), env);
    var created := FeedOf(a);
    if created.Failure? {
      return Fail(DbFailed(created.error));
    }
    a := s.Exec(CreateFeedFollow(u.id, created.value.id, env.now), env);
    out := Status(a);
  }

  method HandlerFollow(s: State, c: Command, u: User, env: Env) returns (out: Outcome)
    modifies s
    ensures (s.View(), out) == StepFollow(old(s.View()), c, u, env)
  {
    if |c.args| == 0 {
      return Fail(Usage("Expected URL"));
    }
    var url := CleanArg(c.args[0]);
    if url.Failure? {
      return Panic(url.error);
    }
    var a := s.Exec(GetFeedByURL(url.value), env);
    var feed := FeedOf(a);
    if feed.Failure? {
      return Fail(DbFailed(feed.error));
    }
    a := s.Exec(CreateFeedFollow(u.id, feed.value.id, env.now), env);
    out := Status(a);
  }

  method HandlerFollowing(s: State, c: Command, u: User, env: Env) returns (out: Outcome)
    modifies s
    ensures (s.View(), out) == StepUser(Following, old(s.View()), c, u, env)
  {
    var a := s.Exec(GetFeedFollowsForUser(u.id), env);
    out := Status(a);
  }

  method HandlerUnfollow(s: State, c: Command, u: User, env: Env) returns (out: Outcome)
    modifies s
    ensures (s.View(), out) == StepUnfollow(old(s.View()), c, u, env)
  {
    if |c.args| == 0 {
      return Fail(Usage("Expected URL"));
    }
    var url := CleanArg(c.args[0]);
    if url.Failure? {
      return Panic(url.error);
    }
    var a := s.Exec(GetFeedByURL(url.value), env);
    var feed := FeedOf(a);
    if feed.Failure? {
      return Fail(DbFailed(feed.error));
    }
    a := s.Exec(UnfollowFeed(u.id, feed.value.id), env);
    out := Status(a);
  }

  method HandlerBrowse(s: State, c: Command, u: User, env: Env) returns (out: Outcome)
    modifies s
    ensures (s.View(), out) == StepBrowse(old(s.View()), c, u, env)
  {
    var limit := ComputeLimit(c.args);
    if limit.Failure? {
      return Panic(limit.error);
    }
    var a := s.Exec(GetPostsByUser(u.name, limit.value as int), env);
    out := Status(a);
  }

  method DispatchUser(h: UserHandler, s: State, c: Command, u: User, env: Env) returns (out: Outcome)
    modifies s
    ensures (s.View(), out) == StepUser(h, old(s.View()), c, u, env)
  {
    match h
    case AddFeed => out := HandlerAddFeed(s, c, u, env);
    case FollowFeed => out := HandlerFollow(s, c, u, env);
    case Following => out := HandlerFollowing(s, c, u, env);
    case Unfollow => out := HandlerUnfollow(s, c, u, env);
    case Browse => out := HandlerBrowse(s, c, u, env);
  }

  /** The closure `middlewareLoggedIn(h)` returns: look up the current user, then call `h`. */
  method MiddlewareLoggedIn(h: UserHandler, s: State, c: Command, env: Env) returns (out: Outcome)
    modifies s
    ensures (s.View(), out) == Step(LoggedIn(h), old(s.View()), c, env)
  {
    var a := s.Exec(GetUser(s.cfg.currentUserName), env);
    var u := UserOf(a);
    if u.Failure? {
      return Fail(DbFailed(u.error));
    }
    out := DispatchUser(h, s, c, u.value, env);
  }

  /** Calling a registered handler. */
  method Call(h: Handler, s: State, c: Command, env: Env) returns (out: Outcome)
    modifies s
    ensures (s.View(), out) == Step(h, old(s.View()), c, env)
  {
    match h
    case Logins => out := HandlerLogins(s, c, env);
    case Registers => out := HandlerRegisters(s, c, env);
    case Resets => out := HandlerResets(s, c, env);
    case Users => out := HandlerUsers(s, c, env);
    case Agg => out := HandlerAgg(c, env);
    case Feeds => out := HandlerFeeds(s, env);
    case LoggedIn(inner) => out := MiddlewareLoggedIn(inner, s, c, env);
  }

  // ---------------------------------------------------------------------------------------
  // What the steps promise.

  /** login and register reject an empty argument list before any storage call. */
  lemma NameRequiredFirst(h: Handler, sys: Sys, c: Command, env: Env)
    requires h == Logins || h == Registers
    requires |c.args| == 0
    ensures Step(h, sys, c, env) == (sys, Fail(Usage("Expected username")))
  {
  }

  /** addfeed rejects fewer than two arguments before cleaning them or calling storage. */
  lemma AddFeedArgumentsFirst(sys: Sys, c: Command, u: User, env: Env)
    requires |c.args| < 2
    ensures StepUser(AddFeed, sys, c, u, env) == (sys, Fail(Usage("Expected name and URL of the feed")))
  {
  }

  /** follow and unfollow reject an empty argument list before cleaning it or calling storage. */
  lemma UrlRequiredFirst(h: UserHandler, sys: Sys, c: Command, u: User, env: Env)
    requires h == FollowFeed || h == Unfollow
    requires |c.args| == 0
    ensures StepUser(h, sys, c, u, env) == (sys, Fail(Usage("Expected URL")))
  {
  }

  /**
   * The middleware whose user lookup fails (no such user, or a fault of the store) returns
   * the lookup's error and never calls the wrapped handler: the result does not depend on
   * which handler it wraps.
   */
  lemma MiddlewareStopsWithoutUser(h: UserHandler, sys: Sys, c: Command, env: Env)
    requires env.fault(GetUser(sys.cfg.currentUserName)).Some? || sys.cfg.currentUserName !in sys.db.users
    ensures Step(LoggedIn(h), sys, c, env) ==
      (sys.(trace := sys.trace + [Queried(GetUser(sys.cfg.currentUserName))]),
       Fail(DbFailed(FaultOr(env, GetUser(sys.cfg.currentUserName), NoRows))))
  {
  }

  /** Otherwise the wrapped handler is called once, after the lookup, with the looked-up user and the command unchanged. */
  lemma MiddlewarePassesUser(h: UserHandler, sys: Sys, c: Command, env: Env)
    requires env.fault(GetUser(sys.cfg.currentUserName)).None? && sys.cfg.currentUserName in sys.db.users
    ensures Step(LoggedIn(h), sys, c, env) ==
      StepUser(h, sys.(trace := sys.trace + [Queried(GetUser(sys.cfg.currentUserName))]), c,
               sys.db.users[sys.cfg.currentUserName], env)
  {
  }

  /** The owner lookups change neither the store nor the configuration, and only append to the trace. */
  lemma {:induction false} LookupOwnersFrame(sys: Sys, feeds: seq<Feed>, env: Env)
    ensures var s' := LookupOwners(sys, feeds, env).0;
      s'.db == sys.db && s'.cfg == sys.cfg && sys.trace <= s'.trace
    decreases |feeds|
  {
    if feeds != [] {
      var s1 := Issue(sys, GetUserByID(feeds[0].userId), env).0;
      LookupOwnersFrame(s1, feeds[1..], env);
    }
  }

  /**
   * Every handler only appends to the trace and never changes the database address; only
   * login and register write the configuration.
   */
  lemma StepFrame(h: Handler, sys: Sys, c: Command, env: Env)
    ensures var s' := Step(h, sys, c, env).0;
      && sys.trace <= s'.trace
      && s'.cfg.dbUrl == sys.cfg.dbUrl
      && (h != Logins && h != Registers ==> s'.cfg == sys.cfg)
  {
    if h == Feeds {
      var (s1, a) := Issue(sys, GetFeeds, env);
      if a.FeedRows? {
        LookupOwnersFrame(s1, a.feeds, env);
      }
    }
  }

  /**
   * login: the current user becomes the argument exactly when the lookup finds that user;
   * the store is unchanged, and the call succeeds when the configuration write does.
   */
  lemma LoginOutcome(sys: Sys, c: Command, env: Env)
    requires |c.args| > 0
    ensures var (s', out) := Step(Logins, sys, c, env);
      var found := env.fault(GetUser(c.args[0])).None? && c.args[0] in sys.db.users;
      && s'.db == sys.db
      && (out == Ok <==> found && env.configWritable)
      && s'.cfg == (if found then sys.cfg.(currentUserName := c.args[0]) else sys.cfg)
      && (!found ==> out == Fail(DbFailed(FaultOr(env, GetUser(c.args[0]), NoRows))))
  {
  }

  /**
   * register: a new name is stored as a user with the next identity and becomes the current
   * user; a taken name is rejected with the uniqueness error (unless the store fails first)
   * and nothing changes. A failed configuration write after a successful insert leaves the
   * user stored.
   */
  lemma RegisterOutcome(sys: Sys, c: Command, env: Env)
    requires |c.args| > 0
    ensures var (s', out) := Step(Registers, sys, c, env);
      var name := c.args[0];
      var isNew := env.fault(CreateUser(name, env.now)).None? && name !in sys.db.users;
      && (out == Ok <==> isNew && env.configWritable)
      && s'.db == (if isNew
                   then sys.db.(users := sys.db.users[name := User(sys.db.nextId, name, env.now)],
                                nextId := sys.db.nextId + 1)
                   else sys.db)
      && s'.cfg == (if isNew then sys.cfg.(currentUserName := name) else sys.cfg)
      && (!isNew ==> out == Fail(DbFailed(FaultOr(env, CreateUser(name, env.now), UniqueViolation))))
  {
  }

  /** A name registered once can then log in, and registering it again is rejected. */
  lemma {:induction false} RegisterThenLogin(sys: Sys, c: Command, env: Env)
    requires |c.args| > 0 && c.args[0] !in sys.db.users && env.configWritable
    requires env.fault(CreateUser(c.args[0], env.now)).None? && env.fault(GetUser(c.args[0])).None?
    ensures var s1 := Step(Registers, sys, c, env).0;
      && Step(Logins, s1, c, env).1 == Ok
      && Step(Logins, s1, c, env).0.cfg.currentUserName == c.args[0]
      && Step(Registers, s1, c, env).1 == Fail(DbFailed(UniqueViolation))
  {
    RegisterOutcome(sys, c, env);
    var s1 := Step(Registers, sys, c, env).0;
    assert c.args[0] in s1.db.users;
    LoginOutcome(s1, c, env);
    RegisterOutcome(s1, c, env);
  }

  /**
   * reset empties every table and keeps the configuration, so the current user name no longer
   * names a user and every logged-in command fails its lookup afterwards.
   */
  lemma {:induction false} ResetLogsEveryoneOut(sys: Sys, c: Command, c': Command, h: UserHandler, env: Env)
    requires env.fault(ResetUsers).None?
    ensures var (s1, out) := Step(Resets, sys, c, env);
      && out == Ok
      && s1.db == sys.db.(users := map[], feeds := [], follows := {}, posts := [])
      && s1.cfg == sys.cfg
      && Step(LoggedIn(h), s1, c', env).1 == Fail(DbFailed(FaultOr(env, GetUser(sys.cfg.currentUserName), NoRows)))
  {
    var s1 := Step(Resets, sys, c, env).0;
    assert s1.db.users == map[];
    MiddlewareStopsWithoutUser(h, s1, c', env);
  }

  /**
   * addfeed with a new URL stores the feed with the cleaned name and URL, owned by the user
   * and never fetched, and makes the user follow it.
   */
  lemma AddFeedCreatesAndFollows(sys: Sys, c: Command, u: User, env: Env)
    requires |c.args| >= 2 && Cleanable(c.args[0]) && Cleanable(c.args[1])
    requires FeedByUrl(sys.db.feeds, CleanInput(c.args[1])).None?
    requires Follow(u.id, sys.db.nextId) !in sys.db.follows
    requires env.fault(CreateFeed(CleanInput(c.args[0]), CleanInput(c.args[1]), u.id, env.now)).None?
    requires env.fault(CreateFeedFollow(u.id, sys.db.nextId, env.now)).None?
    ensures var (s', out) := StepUser(AddFeed, sys, c, u, env);
      var f := Feed(sys.db.nextId, CleanInput(c.args[0]), CleanInput(c.args[1]), u.id, None);
      && out == Ok
      && s'.db == sys.db.(feeds := sys.db.feeds + [f], follows := sys.db.follows + {Follow(u.id, f.id)},
                          nextId := sys.db.nextId + 1)
      && s'.trace == sys.trace + [Queried(CreateFeed(f.name, f.url, u.id, env.now)),
                                  Queried(CreateFeedFollow(u.id, f.id, env.now))]
  {
  }

  /**
   * addfeed with a URL already stored fails with the uniqueness error (unless the store fails
   * first), stores nothing and follows nothing.
   */
  lemma AddFeedRejectsKnownUrl(sys: Sys, c: Command, u: User, env: Env)
    requires |c.args| >= 2 && Cleanable(c.args[0]) && Cleanable(c.args[1])
    requires FeedByUrl(sys.db.feeds, CleanInput(c.args[1])).Some?
    ensures var (s', out) := StepUser(AddFeed, sys, c, u, env);
      && out == Fail(DbFailed(FaultOr(env, CreateFeed(CleanInput(c.args[0]), CleanInput(c.args[1]), u.id, env.now),
                                      UniqueViolation)))
      && s'.db == sys.db
  {
  }

  /** addfeed cleans the URL before the name: a bad URL panics first, and nothing is stored. */
  lemma AddFeedCleansUrlFirst(sys: Sys, c: Command, u: User, env: Env)
    requires |c.args| >= 2 && !Cleanable(c.args[1])
    ensures StepUser(AddFeed, sys, c, u, env) == (sys, Panic(CleanArg(c.args[1]).error))
  {
  }

  /**
   * follow then unfollow of the same feed restores the follows, and both succeed; unfollow
   * of a feed not followed still succeeds.
   */
  lemma {:induction false} FollowThenUnfollow(sys: Sys, c: Command, u: User, env: Env, f: Feed)
    requires |c.args| > 0 && Cleanable(c.args[0])
    requires FeedByUrl(sys.db.feeds, CleanInput(c.args[0])) == Some(f)
    requires Follow(u.id, f.id) !in sys.db.follows
    requires env.fault(GetFeedByURL(CleanInput(c.args[0]))).None?
    requires env.fault(CreateFeedFollow(u.id, f.id, env.now)).None? && env.fault(UnfollowFeed(u.id, f.id)).None?
    ensures var (s1, o1) := StepUser(FollowFeed, sys, c, u, env);
      var (s2, o2) := StepUser(Unfollow, s1, c, u, env);
      && o1 == Ok && s1.db.follows == sys.db.follows + {Follow(u.id, f.id)}
      && o2 == Ok && s2.db == sys.db
      && StepUser(Unfollow, sys, c, u, env).1 == Ok
  {
    var s1 := StepUser(FollowFeed, sys, c, u, env).0;
    assert s1.db.feeds == sys.db.feeds;
    var s2 := StepUser(Unfollow, s1, c, u, env).0;
    assert s2.db.follows == sys.db.follows + {Follow(u.id, f.id)} - {Follow(u.id, f.id)};
    assert s2.db.follows == sys.db.follows;
  }

  /**
   * browse asks for 2 posts without an argument, and for the argument's decimal value when
   * the cleaned argument is a digit string whose value fits in int32.
   */
  lemma BrowseQueriesLimit(sys: Sys, c: Command, u: User, env: Env)
    requires |c.args| == 0 || (Cleanable(c.args[0]) && AllDigits(CleanInput(c.args[0]))
                               && DecimalValue(CleanInput(c.args[0])) < 0x8000_0000)
    ensures var limit := if |c.args| == 0 then 2 else DecimalValue(CleanInput(c.args[0]));
      StepUser(Browse, sys, c, u, env).0 == Issue(sys, GetPostsByUser(u.name, limit), env).0
  {
    if |c.args| > 0 {
      LimitFoldIsDecimal(CleanInput(c.args[0]));
    }
  }

  /** The effects of the owner lookups when every one of them succeeds. */
  function OwnerCalls(feeds: seq<Feed>): (r: seq<Effect>)
    ensures |r| == |feeds|
    ensures forall i :: 0 <= i < |feeds| ==> r[i] == Queried(GetUserByID(feeds[i].userId))
  {
    seq(|feeds|, i requires 0 <= i < |feeds| => Queried(GetUserByID(feeds[i].userId)))
  }

  /** Some stored user has this identity. */
  ghost predicate OwnerKnown(db: Db, id: Id) {
    exists n | n in db.users :: db.users[n].id == id
  }

  /** The lookup of the owner `id` runs and finds a stored user. */
  ghost predicate OwnerFound(db: Db, env: Env, id: Id) {
    env.fault(GetUserByID(id)).None? && OwnerKnown(db, id)
  }

  /**
   * The owner lookups succeed exactly when every feed's owner lookup runs and finds a stored
   * user, and then one lookup per feed has been issued, in order.
   */
  lemma {:induction false} LookupOwnersChecksEach(sys: Sys, feeds: seq<Feed>, env: Env)
    ensures var (s', out) := LookupOwners(sys, feeds, env);
      && (out == Ok <==> forall i :: 0 <= i < |feeds| ==> OwnerFound(sys.db, env, feeds[i].userId))
      && (out == Ok ==> s'.trace == sys.trace + OwnerCalls(feeds))
    decreases |feeds|
  {
    if feeds != [] {
      var (s1, a) := Issue(sys, GetUserByID(feeds[0].userId), env);
      assert s1.db == sys.db;
      if OwnerFound(sys.db, env, feeds[0].userId) {
        LookupOwnersChecksEach(s1, feeds[1..], env);
        assert forall i :: 1 <= i < |feeds| ==> feeds[i] == feeds[1..][i - 1];
        assert OwnerCalls(feeds) == [Queried(GetUserByID(feeds[0].userId))] + OwnerCalls(feeds[1..]);
      }
    }
  }

  /**
   * The owner lookups stop at the first feed whose lookup fails, after issuing the lookups up
   * to and including it, and return that lookup's error; the feeds after it are not looked at.
   */
  lemma {:induction false} LookupOwnersStopsAtFirst(sys: Sys, feeds: seq<Feed>, env: Env, i: int)
    requires 0 <= i < |feeds| && FirstMissingOwner(sys.db, env, feeds, i)
    ensures LookupOwners(sys, feeds, env) ==
      (sys.(trace := sys.trace + OwnerCalls(feeds[..i + 1])),
       Fail(DbFailed(FaultOr(env, GetUserByID(feeds[i].userId), NoRows))))
    decreases i
  {
    var q0 := Queried(GetUserByID(feeds[0].userId));
    if i == 0 {
      assert OwnerCalls(feeds[..1]) == [q0];
    } else {
      assert OwnerFound(sys.db, env, feeds[0].userId);
      var (s1, a) := Issue(sys, GetUserByID(feeds[0].userId), env);
      assert a == Done;
      assert s1 == sys.(trace := sys.trace + [q0]);
      var rest := feeds[1..];
      assert forall j :: 0 <= j < |rest| ==> rest[j] == feeds[j + 1];
      assert FirstMissingOwner(s1.db, env, rest, i - 1);
      LookupOwnersStopsAtFirst(s1, rest, env, i - 1);
      assert LookupOwners(sys, feeds, env) == LookupOwners(s1, rest, env);
      assert rest[..i] == feeds[..i + 1][1..];
      assert OwnerCalls(feeds[..i + 1]) == [q0] + OwnerCalls(rest[..i]);
      assert s1.trace + OwnerCalls(rest[..i]) == sys.trace + OwnerCalls(feeds[..i + 1]);
      assert rest[i - 1] == feeds[i];
    }
  }

  /** `i` is the first feed whose owner lookup fails. */
  ghost predicate FirstMissingOwner(db: Db, env: Env, feeds: seq<Feed>, i: int)
    requires 0 <= i < |feeds|
  {
    !OwnerFound(db, env, feeds[i].userId) && forall j :: 0 <= j < i ==> OwnerFound(db, env, feeds[j].userId)
  }

  /**
   * feeds: the listing's own failure is returned at once; otherwise the command succeeds
   * exactly when every listed feed's owner lookup finds a stored user. Nothing is stored.
   */
  lemma {:induction false} FeedsChecksEveryOwner(sys: Sys, c: Command, env: Env)
    ensures var (s', out) := Step(Feeds, sys, c, env);
      && s'.db == sys.db && s'.cfg == sys.cfg
      && (env.fault(GetFeeds).Some? ==> out == Fail(DbFailed(env.fault(GetFeeds).value)))
      && (env.fault(GetFeeds).None? ==>
            && (out == Ok <==> forall i :: 0 <= i < |sys.db.feeds| ==> OwnerFound(sys.db, env, sys.db.feeds[i].userId))
            && (out == Ok ==> s'.trace == sys.trace + [Queried(GetFeeds)] + OwnerCalls(sys.db.feeds)))
  {
    var s1 := Issue(sys, GetFeeds, env).0;
    LookupOwnersChecksEach(s1, sys.db.feeds, env);
    LookupOwnersFrame(s1, sys.db.feeds, env);
  }
}
