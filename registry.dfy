/**
 * The command registry of internal/handlers/handlers.go: the name-to-handler map of
 * `Commands`, its lazily allocated `register`, the lookup-and-call `run`, the fixed table
 * `Register_all_cmds` installs, and `Handle_Input`'s split of the argument vector.
 */
module Registry {
  import opened Wrappers
  import opened Session
  import opened Args
  import opened Handlers

  /** The eleven commands `Register_all_cmds` installs; five go through the middleware. */
  const AllCommands: map<string, Handler> := map[
    "login" := Logins,
    "register" := Registers,
    "reset" := Resets,
    "users" := Users,
    "agg" := Agg,
    "addfeed" := LoggedIn(AddFeed),
    "feeds" := Feeds,
    "follow" := LoggedIn(FollowFeed),
    "following" := LoggedIn(Following),
    "unfollow" := LoggedIn(Unfollow),
    "browse" := LoggedIn(Browse)]

  const LoggedInNames: set<string> := {"addfeed", "follow", "following", "unfollow", "browse"}

  /** The table holds exactly the eleven names, and exactly the five user-taking ones are wrapped. */
  lemma AllCommandsShape()
    ensures AllCommands.Keys == {"login", "register", "reset", "users", "agg", "feeds"} + LoggedInNames
    ensures forall name :: name in AllCommands ==> (AllCommands[name].LoggedIn? <==> name in LoggedInNames)
  {
  }

  /** Installing `AllCommands` over `t` is the eleven updates in registration order. */
  lemma AllAsUpdates(t: map<string, Handler>)
    ensures t + AllCommands ==
      t["login" := Logins]["register" := Registers]["reset" := Resets]["users" := Users]
       ["agg" := Agg]["addfeed" := LoggedIn(AddFeed)]["feeds" := Feeds]
       ["follow" := LoggedIn(FollowFeed)]["following" := LoggedIn(Following)]
       ["unfollow" := LoggedIn(Unfollow)]["browse" := LoggedIn(Browse)]
  {
    var lhs := t + AllCommands;
    var rhs := t["login" := Logins]["register" := Registers]["reset" := Resets]["users" := Users]
       ["agg" := Agg]["addfeed" := LoggedIn(AddFeed)]["feeds" := Feeds]
       ["follow" := LoggedIn(FollowFeed)]["following" := LoggedIn(Following)]
       ["unfollow" := LoggedIn(Unfollow)]["browse" := LoggedIn(Browse)];
    assert lhs.Keys == rhs.Keys;
    forall k | k in lhs ensures lhs[k] == rhs[k] {
      if k in AllCommands {
        assert lhs[k] == AllCommands[k];
      }
    }
  }

  class Commands {
    /** The map `cmd`; `None` is the nil map of a zero `Commands`. */
    var cmd: Option<map<string, Handler>>

    /** The map as lookups see it: a nil map holds no key. */
    function Table(): map<string, Handler>
      reads this
    {
      if cmd.None? then map[] else cmd.value
    }

    /** `Commands{}`. */
    constructor ()
      ensures cmd == None
    {
      cmd := None;
    }

    /** `register`: allocate the map if it is nil, then bind `name`; the last registration wins. */
    method Register(name: string, f: Handler)
      modifies this
      ensures cmd.Some?
      ensures Table() == old(Table())[name := f]
    {
      if cmd.None? {
        cmd := Some(map[]);
      }
      cmd := Some(cmd.value[name := f]);
    }

    /** `Register_all_cmds`: every other binding is kept, and the eleven names are bound as `AllCommands` says. */
    method RegisterAll()
      modifies this
      ensures cmd.Some?
      ensures Table() == old(Table()) + AllCommands
    {
      ghost var t := Table();
      Register("login", Logins);
      Register("register", Registers);
      Register("reset", Resets);
      Register("users", Users);
      Register("agg", Agg);
      Register("addfeed", LoggedIn(AddFeed));
      Register("feeds", Feeds);
      Register("follow", LoggedIn(FollowFeed));
      Register("following", LoggedIn(Following));
      Register("unfollow", LoggedIn(Unfollow));
      Register("browse", LoggedIn(Browse));
      AllAsUpdates(t);
    }

    /**
     * `run`: call the handler bound to the command's name and return exactly what it returns.
     * A name with no binding yields the nil func, and calling it panics before anything happens.
     */
    method Run(s: State, c: Command, env: Env) returns (out: Outcome)
      modifies s
      ensures c.name !in Table() ==> out == Panic(NilHandler) && s.View() == old(s.View())
      ensures c.name in Table() ==> (s.View(), out) == Step(Table()[c.name], old(s.View()), c, env)
    {
      if c.name !in Table() {
        return Panic(NilHandler);
      }
      out := Call(Table()[c.name], s, c, env);
    }
  }

  /** What `Handle_Input` ends in: `log.Fatal` with a message, or the handler and the command to run. */
  datatype Input = Fatal(msg: string) | Dispatch(h: Handler, c: Command)

  /**
   * `Handle_Input` over the argument vector `argv` (program name first) and the registry's
   * table: the name is `argv[1]`, the arguments are the rest, and an unbound name is fatal.
   */
  function HandleInput(table: map<string, Handler>, argv: seq<string>): (r: Input)
    ensures |argv| < 2 <==> r == Fatal("Expected arguments")
    ensures |argv| >= 2 ==> (r.Dispatch? <==> argv[1] in table)
    ensures |argv| >= 2 && argv[1] !in table ==> r == Fatal("Command doesn't exist")
    ensures r.Dispatch? ==> argv == [argv[0], r.c.name] + r.c.args && r.h == table[r.c.name]
  {
    if |argv| < 2 then Fatal("Expected arguments")
    else
      var c := if |argv| > 2 then Command(argv[1], argv[2..]) else Command(argv[1], []);
      if c.name in table then Dispatch(table[c.name], c) else Fatal("Command doesn't exist")
  }

  /**
   * With the full table installed, each of the eleven names dispatches to its handler with
   * the rest of the vector as its arguments, and any other name is fatal.
   */
  lemma {:induction false} InputAfterRegistration(program: string, name: string, rest: seq<string>)
    ensures name in AllCommands ==>
      HandleInput(AllCommands, [program, name] + rest) == Dispatch(AllCommands[name], Command(name, rest))
    ensures name !in AllCommands ==>
      HandleInput(AllCommands, [program, name] + rest) == Fatal("Command doesn't exist")
  {
    var argv := [program, name] + rest;
    assert argv[1] == name;
    assert argv[2..] == rest;
  }
}
