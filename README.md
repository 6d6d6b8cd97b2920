# gator: a verified model of the command core

gator is a command-line RSS aggregator. A user registers and logs in, adds feeds and
follows them. An `agg` command periodically fetches the feed that was fetched longest ago and
stores its items as posts, and `browse` lists the newest posts of the followed feeds. This
project models, in Dafny, the part of the program that makes decisions:

- the command registry: lazy allocation in `register`, lookup and call in `run`, the fixed
  table of eleven commands, and the split of the argument vector (`registry.dfy`);
- every handler, including the `middlewareLoggedIn` wrapper. Each handler is a step function
  over the session (store, configuration and a trace of effects) plus an imperative procedure
  on a `State` object, proved equal to that function (`handlers.dfy`);
- argument shaping: `clean_input`, and the int32 accumulation loop that turns `browse`'s
  argument into a limit (`args.dfy`);
- one ingestion tick, `scrapeFeeds`: get the next feed, mark it, fetch it, then insert one
  post per item whose date parses. It too is a step function plus a procedure with its item
  loop (`scrape.dfy`);
- the feed client: the in-place `clean_feed` on an array of items, and the early-return
  pipeline of `FetchFeed` (`rss.dfy`).

The store behind `s.DB` is generated code that is not part of this model. `storage.dfy` gives
it a reference semantics on a value `Db`:
- a taken name, URL, follow pair or (feed, link) post key makes an insert fail;
- a missing row makes a lookup fail;
- any query may instead fail with an error of the store itself. The field `fault` of
  `Session.Env` says, per query, whether it does, so each call can fail independently of the
  others;
- "next feed to fetch" returns a feed fetched longest ago, with never-fetched feeds first.

`state.dfy` holds the session (internal/state/state.go) and a ghost trace of the queries,
configuration writes and fetches, in the order they happen. The properties about order
("mark before fetch, fetch before any insert", "user lookup before the wrapped handler") are
stated on that trace.

Two places where the code and its description differ; the model follows the code:
- `FetchFeed` only rejects status codes above 299 (internal/rss/rss.go:49). Codes below 200
  are not rejected. `LowStatusAccepted` states this.
- handlers.go treats `s.Cfg.SetUser(...)` as returning an error, but internal/config/config.go
  declares it without a result and drops the error of its file write. The model keeps the
  handlers' view: the name is assigned, then the write may fail (`Env.configWritable`). With a
  writable file it matches config.go.

## Model

| member | source | states |
|---|---|---|
| Storage.Oldest | internal/handlers/handlers.go:124 | the next feed to fetch is a stored feed, and no stored feed was fetched before it (never-fetched first) |
| Storage.MarkedFeedYieldsTurn | internal/handlers/handlers.go:124-140 | after the chosen feed is marked at an instant later than every recorded fetch, the next query picks a different feed |
| Storage.MarkTwiceKeepsLatest | internal/handlers/handlers.go:133-140 | marking a feed twice records the later instant and touches no other feed |
| Storage.CreatePostKeepsOnePerKey | internal/handlers/handlers.go:168-170 | a post insert keeps (feed, link) unique and leaves exactly one post with its key; it succeeds iff the key was new, and otherwise changes nothing |
| Storage.SecondInsertSuppressed | internal/handlers/handlers.go:168-170 | inserting the same (feed, link) twice: the second insert fails with the uniqueness error and changes nothing |
| Session.State.constructor | internal/state/state.go:10-13 | a session built from a store and a configuration holds them, with an empty trace |
| Session.Issue | internal/handlers/handlers.go:48-50 | a call through the store handle appends the query to the trace; a faulted query changes nothing and answers its fault; otherwise the store changes and answers as the reference semantics says |
| Session.State.Exec | internal/handlers/handlers.go:48-50 | a call through the store handle updates the store and answers as `Issue` says |
| Session.State.SetUser | internal/handlers/handlers.go:52-54 | the current user name is assigned, the write of the new configuration is recorded, and the outcome is the write's result |
| Args.CleanInput | internal/handlers/handlers.go:202-208 | a string opening with a quote loses its first and its last character (length minus 2, whatever the last one is); any other string is unchanged |
| Args.CleanArg | internal/handlers/handlers.go:202-208 | `clean_input` succeeds exactly on a non-empty string that is not a lone quote; "" panics with index out of range, a lone quote with slice out of range |
| Args.Wrap32 | internal/handlers/handlers.go:343 | two's-complement int32 wrap-around: identity within range, congruent modulo 2^32 |
| Args.LimitFoldIsDecimal | internal/handlers/handlers.go:339-344 | for a digit string whose value fits in int32, the wrapping accumulation equals its decimal value |
| Args.BrowseLimit | internal/handlers/handlers.go:334-345 | the limit is 2 without arguments; otherwise it is the accumulation over the cleaned first argument, or the panic of cleaning it |
| Args.ComputeLimit | internal/handlers/handlers.go:334-345 | the accumulation loop computes `BrowseLimit` |
| Rss.Cleaned | internal/rss/rss.go:28-36 | the normalised channel: titles and descriptions unescaped once, links and dates kept, same items in the same order |
| Rss.CleanIsUnique | internal/rss/rss.go:28-36 | there is only one normalised form of a channel |
| Rss.RSSFeed.constructor | internal/rss/rss.go:12-26 | a fresh feed object holding a given channel value in a fresh item array |
| Rss.RSSFeed.CleanFeed | internal/rss/rss.go:28-36 | in place, over the same array: channel and item titles and descriptions become the unescape of their old values, applied once; links, dates, item count and order are unchanged |
| Rss.Parse | internal/rss/rss.go:38-62 | a parse succeeds only if the request was built, sent, answered with status at most 299, the body was read, and it decoded to the returned value |
| Rss.Fetch | internal/rss/rss.go:38-66 | a fetch succeeds exactly when the parse does, with the normalised parsed value; otherwise it is the parse's first error |
| Rss.HighStatusRejected | internal/rss/rss.go:46-51 | a status above 299 fails with that status, whatever the body |
| Rss.LowStatusAccepted | internal/rss/rss.go:46-66 | any status up to 299 with a decodable body succeeds with the normalised value |
| Rss.FetchFeed | internal/rss/rss.go:38-66 | returns a fresh feed: the normalised parsed value and no error, or the empty feed with the first error, as `Fetch` says |
| Scrape.ScrapeFeeds | internal/handlers/handlers.go:121-174 | the tick's procedure (store calls, fetch, and item loop with skip) has exactly the effects and outcome of `StepScrape` |
| Scrape.PostsToCreateShape | internal/handlers/handlers.go:149-166 | every post the tick tries to create belongs to the fetched feed, is stamped `now`, and takes title, link, description and parsed date from an item |
| Scrape.IngestItemEffects | internal/handlers/handlers.go:150-170 | one item issues one insert if its date parses and none otherwise, and changes only posts |
| Scrape.IngestEffects | internal/handlers/handlers.go:149-171 | the item loop issues exactly the inserts for the parsable items, in item order, whatever each insert answers, and changes only posts |
| Scrape.IngestPersistsParsable | internal/handlers/handlers.go:149-171 | when every insert runs and no key collides, exactly the posts of the parsable items are appended; items with bad dates are dropped without affecting the others |
| Scrape.IngestKeepsUnique | internal/handlers/handlers.go:149-171 | whatever the inserts answer, the item loop keeps (feed, link) unique, drops no stored post, and leaves stored the key of every post whose insert ran |
| Scrape.TickKeepsOnePostPerKey | internal/handlers/handlers.go:121-174 | whatever fails, a tick keeps (feed, link) unique and drops no post: each stored key is carried by exactly one post |
| Scrape.NoFeedFailsFirst | internal/handlers/handlers.go:124-127 | when the first query fails (no feed, or a store fault), the tick returns that error after that query alone |
| Scrape.MarkFailureStopsBeforeFetch | internal/handlers/handlers.go:133-140 | when the mark fails, the tick returns its error after the two queries: no fetch, no insert, and the store unchanged |
| Scrape.FetchFailureAfterMark | internal/handlers/handlers.go:124-147 | when the next feed is found and the mark succeeds, a failed fetch comes after the mark, writes no post and returns the fetch error, so the failing feed still rotates |
| Scrape.SuccessfulTick | internal/handlers/handlers.go:121-174 | when the next feed is found, the mark succeeds and the fetch succeeds, the tick takes the oldest feed, then marks, fetches and inserts, in that order (one insert per parsable item); it returns nil and leaves users and configuration unchanged |
| Handlers.AggOutcome | internal/handlers/handlers.go:176-194 | agg needs exactly one argument; the duration must parse and must be positive, else the ticker constructor panics; only then does it tick, at that interval |
| Handlers.HandlerLogins | internal/handlers/handlers.go:43-59 | login's procedure has the effects and outcome of its step function |
| Handlers.HandlerRegisters | internal/handlers/handlers.go:61-86 | register's procedure has the effects and outcome of its step function |
| Handlers.HandlerResets | internal/handlers/handlers.go:88-96 | reset's procedure issues the reset query and returns its error |
| Handlers.HandlerUsers | internal/handlers/handlers.go:98-119 | users' procedure issues the listing query and returns its error |
| Handlers.HandlerAgg | internal/handlers/handlers.go:176-200 | agg's procedure up to the ticker loop computes `AggOutcome` and changes nothing |
| Handlers.HandlerFeeds | internal/handlers/handlers.go:248-264 | the feeds procedure, with its loop of owner lookups stopping at the first failure, has the effects and outcome of its step function |
| Handlers.HandlerAddFeed | internal/handlers/handlers.go:210-246 | addfeed's procedure has the effects and outcome of its step function |
| Handlers.HandlerFollow | internal/handlers/handlers.go:266-293 | follow's procedure has the effects and outcome of its step function |
| Handlers.HandlerFollowing | internal/handlers/handlers.go:295-307 | following's procedure issues the follows query for the user and returns its error |
| Handlers.HandlerUnfollow | internal/handlers/handlers.go:309-331 | unfollow's procedure has the effects and outcome of its step function |
| Handlers.HandlerBrowse | internal/handlers/handlers.go:333-364 | browse's procedure (with the limit loop) has the effects and outcome of its step function |
| Handlers.DispatchUser | internal/handlers/handlers.go:373 | calling a user-taking handler with a user is its step function |
| Handlers.MiddlewareLoggedIn | internal/handlers/handlers.go:366-375 | the wrapper's closure looks up the current user and then calls the wrapped handler, as the step function says |
| Handlers.Call | internal/handlers/handlers.go:28 | calling any registered handler is its step function |
| Handlers.NameRequiredFirst | internal/handlers/handlers.go:43-64 | login and register with no arguments return "Expected username" and change nothing |
| Handlers.AddFeedArgumentsFirst | internal/handlers/handlers.go:211-213 | addfeed with fewer than two arguments returns its usage error and changes nothing |
| Handlers.UrlRequiredFirst | internal/handlers/handlers.go:266-312 | follow and unfollow with no arguments return "Expected URL" and change nothing |
| Handlers.MiddlewareStopsWithoutUser | internal/handlers/handlers.go:366-371 | when the current user's lookup fails (no such user, or a store fault), the wrapper returns that error after the lookup alone, whichever handler it wraps |
| Handlers.MiddlewarePassesUser | internal/handlers/handlers.go:366-374 | otherwise, after the lookup, the wrapped handler runs with the looked-up user and the unchanged command |
| Handlers.LookupOwnersFrame | internal/handlers/handlers.go:254-262 | the owner lookups change neither store nor configuration and only append to the trace |
| Handlers.StepFrame | internal/handlers/handlers.go:43-364 | every handler only appends to the trace and never changes the database address; only login and register change the configuration |
| Handlers.LoginOutcome | internal/handlers/handlers.go:43-59 | login changes the current user exactly when the lookup finds the name; it changes no row, succeeds iff that holds and the configuration write succeeds, and otherwise returns the lookup's error |
| Handlers.RegisterOutcome | internal/handlers/handlers.go:61-86 | register stores a new name with the next identity and the current time and makes it current; a taken name fails with the uniqueness error (or the store's own fault) and changes nothing; success iff the insert runs on a new name and the write succeeds |
| Handlers.RegisterThenLogin | internal/handlers/handlers.go:43-86 | after registering a name, logging in as it succeeds and registering it again fails |
| Handlers.ResetLogsEveryoneOut | internal/handlers/handlers.go:88-96 | reset empties users, feeds, follows and posts and keeps the configuration; every logged-in command then fails its user lookup |
| Handlers.AddFeedCreatesAndFollows | internal/handlers/handlers.go:210-246 | addfeed with a new URL stores the feed with the cleaned name and URL, owned by the user and never fetched, and makes the user follow it: two queries, in that order |
| Handlers.AddFeedRejectsKnownUrl | internal/handlers/handlers.go:227-230 | addfeed with a URL already stored fails with the uniqueness error (or the store's own fault) and changes no row |
| Handlers.AddFeedCleansUrlFirst | internal/handlers/handlers.go:215 | the URL argument is cleaned before the name: when cleaning it panics, that panic is the outcome and nothing is touched |
| Handlers.FollowThenUnfollow | internal/handlers/handlers.go:266-331 | following a feed adds that follow; unfollowing it restores the store exactly; unfollowing a feed not followed still succeeds |
| Handlers.BrowseQueriesLimit | internal/handlers/handlers.go:333-357 | browse asks for 2 posts without an argument, and for the decimal value of a digit argument that fits in int32 |
| Handlers.LookupOwnersChecksEach | internal/handlers/handlers.go:254-262 | the owner lookups succeed iff every feed's lookup runs and finds a stored owner, and then one lookup per feed has been issued, in order |
| Handlers.LookupOwnersStopsAtFirst | internal/handlers/handlers.go:254-262 | at the first feed whose owner lookup fails, the lookups stop after issuing it and return its error (no-rows or the fault); no later feed is looked at |
| Handlers.FeedsChecksEveryOwner | internal/handlers/handlers.go:248-264 | a failed listing is returned at once; otherwise feeds succeeds iff every stored feed's owner lookup finds a stored user; it changes neither store nor configuration |
| Registry.AllCommandsShape | internal/handlers/handlers.go:377-389 | the table holds exactly the eleven command names, and exactly addfeed, follow, following, unfollow and browse go through the middleware |
| Registry.Commands.constructor | internal/handlers/handlers.go:21-23 | a zero registry has a nil map |
| Registry.Commands.Register | internal/handlers/handlers.go:35-41 | the map is allocated if nil; then `name` maps to `f` and every other binding is unchanged (last registration wins) |
| Registry.Commands.RegisterAll | internal/handlers/handlers.go:377-389 | the table becomes the old table overlaid with the eleven bindings |
| Registry.Commands.Run | internal/handlers/handlers.go:25-33 | runs the bound handler and returns exactly its outcome; an unbound name is a nil-func panic that changes nothing |
| Registry.HandleInput | internal/handlers/handlers.go:391-415 | fewer than two argv entries is fatal; otherwise name = argv[1] and args = the rest (empty when there is none); an unbound name is fatal; argv is recovered from the result |
| Registry.InputAfterRegistration | internal/handlers/handlers.go:391-415 | with the full table, each of the eleven names dispatches to its handler with the rest of argv, and any other name is fatal |

## Left out

- HTTP (building the request, the User-Agent "gator" header, sending, reading the body), XML
  decoding and `html.UnescapeString`: foreign calls, modelled as the function fields of
  `Rss.Net`, with nothing assumed about them. Entity decoding is not modelled.
- `time.Now`, `time.Parse` with the RFC 1123 numeric-zone layout, and `time.ParseDuration`:
  these are the fields `now`, `parseDate` and `parseDuration` of `Session.Env`. A whole
  invocation reads one instant, so the model does not capture that `scrapeFeeds` reads the
  clock again for each item.
- The ticker loop of `handlerAgg` (internal/handlers/handlers.go:194-197): an endless
  timer-driven loop. A valid interval ends in the outcome `Ticking(d)`, and the tick itself is
  `Scrape.ScrapeFeeds`.
- Everything printed with `fmt`, including the listings of users, feeds, follows and posts:
  presentation only. The listing queries whose rows are only printed answer `Done`.
- The SQL behind `s.DB` is not part of this model. The ordering "oldest fetch first, NULLs
  first" and the uniqueness constraints are the reference semantics in `storage.dfy`.
  Foreign-key checks and the ordering and limit of `GetPostsByUser` are not modelled (so
  neither is a negative or wrapped limit reaching the database).
- Storage.Perform: that `ResetUsers` also empties feeds, follows and posts assumes the schema
  cascades every deletion from users. The schema is not part of this model; only the message
  of internal/handlers/handlers.go:93 suggests it.
- Store faults are the oracle `Env.fault`, a function of the query alone: the model does not
  capture a store whose failures depend on time or on earlier queries.
- Rss.FetchFeed: on the status-error return (internal/rss/rss.go:49-51) the response body is
  never closed, because `defer resp.Body.Close()` comes after it. Resources are not modelled.
- uuid.New: identities are handed out by the store (`nextId`) instead of being random.
- Args.CleanInput: it works on characters, while Go indexes and slices bytes. The two agree
  when the first and last characters are ASCII. A multi-byte last character would be cut
  mid-sequence in Go.
- Rss.RSSFeed.CleanFeed: the item array stands for the slice `Channel.Item`; the two-level
  struct is flattened into one object.
- Session.State.SetUser: the error of the configuration write is an input flag. Reading and
  writing the JSON file under the home directory (internal/config/config.go) is not part of
  this model.
- Handlers.HandlerFeeds: the owner lookup's row is only printed, so the model keeps only
  whether it failed.
- main.go: only reads and rewrites the configuration at start-up. internal/state/state.go is a
  struct of two pointers, and is `Session.State`.
