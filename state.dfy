/**
 * What every handler receives (internal/state/state.go: the database handle and the
 * configuration), the environment of one invocation, and the errors and outcomes of a
 * handler.
 *
 * `State` is the object handlers change: the database (through queries), the current
 * user name in the configuration (through `SetUser`), and a ghost `trace` that records
 * every query, configuration write and feed fetch in the order they happen.
 */
module Session {
  import opened Wrappers
  import opened Storage
  import Rss

  /** A duration in nanoseconds, as `time.Duration`. */
  type Duration = int

  /** The configuration file's contents. */
  datatype Config = Config(dbUrl: string, currentUserName: string)

  /** One action on the outside world. */
  datatype Effect =
    | Queried(q: Query)         // a call through the database handle
    | ConfigWritten(cfg: Config) // the configuration file written with `cfg`
    | FetchCalled(url: string)   // rss.FetchFeed called on `url`

  /** Everything a handler can observe or change, as a value. */
  datatype Sys = Sys(db: Db, cfg: Config, trace: seq<Effect>)

  /**
   * The foreign inputs of one invocation: the instant `time.Now()` reads, `time.Parse`
   * with the RFC 1123 numeric-zone layout, `time.ParseDuration`, whether writing the
   * configuration file succeeds, the network, and which queries the store fails to run
   * (`fault(q) == Some(e)`: the call returns `e` and changes nothing), each independently.
   */
  datatype Env = Env(
    now: Time,
    parseDate: string -> Option<Time>,
    parseDuration: string -> Option<Duration>,
    configWritable: bool,
    net: Rss.Net,
    fault: Query -> Option<DbError>)

  datatype Error =
    | Usage(msg: string)              // an argument-shape error made with fmt.Errorf
    | DbFailed(dbErr: DbError)
    | ConfigWriteFailed
    | BadDuration(arg: string)
    | FetchFailed(fetchErr: Rss.FetchError)

  /** Runtime panics the code can hit. */
  datatype PanicKind =
    | IndexOutOfRange       // s[0] on an empty string
    | SliceOutOfRange       // s[1:len(s)-1] on a one-character string
    | NilHandler            // calling the nil func a missing map key yields
    | NonPositiveInterval   // time.NewTicker with a duration <= 0

  /**
   * How a handler ends: `Ok` is a nil error, `Fail` a non-nil one, `Panic` a crash, and
   * `Ticking` the point where `agg` enters its endless ticker loop with a valid interval.
   */
  datatype Outcome = Ok | Fail(err: Error) | Panic(kind: PanicKind) | Ticking(interval: Duration)

  /**
   * One query against `sys`: the new snapshot, with the query logged, and its answer. A
   * query the store fails to run answers its fault and leaves the database as it was.
   */
  function Issue(sys: Sys, q: Query, env: Env): (r: (Sys, Answer))
    ensures r.0.cfg == sys.cfg && r.0.trace == sys.trace + [Queried(q)]
    ensures env.fault(q).Some? ==> r.0.db == sys.db && r.1 == Failed(env.fault(q).value)
    ensures env.fault(q).None? ==> (r.0.db, r.1) == Perform(sys.db, q)
  {
    match env.fault(q)
    case Some(e) => (sys.(trace := sys.trace + [Queried(q)]), Failed(e))
    case None =>
      var (db', a) := Perform(sys.db, q);
      (Sys(db', sys.cfg, sys.trace + [Queried(q)]), a)
  }

  /** The error a lookup ends with when it fails: the store's fault, else `otherwise`. */
  function FaultOr(env: Env, q: Query, otherwise: DbError): DbError {
    if env.fault(q).Some? then env.fault(q).value else otherwise
  }

  /** `Config.SetUser`: the name is assigned first, then the file is written, which may fail. */
  function SaveUser(sys: Sys, name: string, writable: bool): (Sys, Outcome) {
    var cfg := sys.cfg.(currentUserName := name);
    (sys.(cfg := cfg, trace := sys.trace + [ConfigWritten(cfg)]),
     if writable then Ok else Fail(ConfigWriteFailed))
  }

  /** The answer of a query that returns a user row. */
  function UserOf(a: Answer): Result<User, DbError> {
    match a
    case UserRow(u) => Success(u)
    case Failed(e) => Failure(e)
    case _ => Failure(NoRows) // no other answer comes back for these queries
  }

  /** The answer of a query that returns a feed row. */
  function FeedOf(a: Answer): Result<Feed, DbError> {
    match a
    case FeedRow(f) => Success(f)
    case Failed(e) => Failure(e)
    case _ => Failure(NoRows)
  }

  /** The answer of a query that returns feed rows. */
  function FeedsOf(a: Answer): Result<seq<Feed>, DbError> {
    match a
    case FeedRows(fs) => Success(fs)
    case Failed(e) => Failure(e)
    case _ => Failure(NoRows)
  }

  class State {
    var db: Db
    var cfg: Config
    ghost var trace: seq<Effect>

    ghost function View(): Sys
      reads this
    {
      Sys(db, cfg, trace)
    }

    constructor (db0: Db, cfg0: Config)
      ensures View() == Sys(db0, cfg0, [])
    {
      db, cfg, trace := db0, cfg0, [];
    }

    /** One call through `s.DB`. */
    method Exec(q: Query, env: Env) returns (a: Answer)
      modifies this
      ensures (View(), a) == Issue(old(View()), q, env)
    {
      trace := trace + [Queried(q)];
      var fault := env.fault(q);
      if fault.Some? {
        return Failed(fault.value);
      }
      var (db', ans) := Perform(db, q);
      db := db';
      a := ans;
    }

    /** `s.Cfg.SetUser(name)`. */
    method SetUser(name: string, writable: bool) returns (out: Outcome)
      modifies this
      ensures (View(), out) == SaveUser(old(View()), name, writable)
    {
      cfg := cfg.(currentUserName := name);
      trace := trace + [ConfigWritten(cfg)];
      out := if writable then Ok else Fail(ConfigWriteFailed);
    }

    /** Ghost bookkeeping: `rss.FetchFeed` is about to be called on `url`. */
    method NoteFetch(url: string)
      modifies this
      ensures View() == old(View()).(trace := old(trace) + [FetchCalled(url)])
    {
      trace := trace + [FetchCalled(url)];
    }
  }
}
