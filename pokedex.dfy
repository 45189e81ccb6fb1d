/**
 * The REPL of main.go: the `Config` state the commands share, the six
 * commands, the command table and one step of the read-dispatch loop.
 *
 * Everything the commands print is left out; what the network answers, the
 * decoders, the clock and the random outcome of a catch are arguments.
 */
module Pokedex {
  import opened Base
  import opened PokeCache
  import opened PokeClient
  import Repl

  /** `defaultInterval`, five seconds, with the clock counted in milliseconds. */
  const DefaultInterval: nat := 5000

  const ExploreArgMessage: string := "Expected one arguement, a location area name. Recieved none"
  const CatchArgMessage: string := "Expected one arguement, a Pokemon name. Recieved none"

  /** The errors a command returns to the loop, which prints them. */
  datatype CommandError = MissingArgument(message: string) | Client(error: ClientError)

  /** `Config`: the pagination links, the shared cache, the arguments of the
      current command and the caught Pokemon. */
  class Config {
    var next: Option<string>
    var prev: Option<string>
    const cache: Cache?
    var args: seq<string>
    var pokedex: map<string, Pokemon>

    /** Every Pokemon is filed under its own name. */
    ghost predicate Valid()
      reads this
    {
      forall k :: k in pokedex ==> pokedex[k].name == k
    }

    /** The configuration `main` starts from. */
    constructor (cache: Cache?)
      ensures next == None && prev == None && this.cache == cache
      ensures args == [] && pokedex == map[] && Valid()
    {
      next, prev := None, None;
      this.cache := cache;
      args, pokedex := [], map[];
    }
  }

  /** The state `main` sets up: a fresh cache sweeping every five seconds and
      an empty pokedex. */
  method NewConfig() returns (c: Config)
    ensures fresh(c) && c.cache != null && fresh(c.cache)
    ensures c.cache.store == map[] && c.cache.interval == DefaultInterval && !c.cache.closed
    ensures c.next == None && c.prev == None && c.args == [] && c.pokedex == map[] && c.Valid()
  {
    var cache := new Cache(DefaultInterval);
    c := new Config(cache);
  }

  /** The URL `map` requests: the `Next` link, or the first page. */
  function MapUrl(next: Option<string>): (url: string)
    ensures next.Some? ==> url == next.value
    ensures next.None? ==> url == BaseUrlLocationArea
  {
    match next
    case Some(u) => u
    case None => BaseUrlLocationArea
  }

  /** `processLocationAreaResponse`: take the page's links (the names it
      prints are left out). */
  method ProcessLocationAreaResponse(d: LocationAreaResponse, c: Config)
    modifies c`prev, c`next
    ensures c.prev == d.previous && c.next == d.next
  {
    c.prev := d.previous;
    c.next := d.next;
  }

  /** `commandMap`: load the page `MapUrl(Next)`; on success adopt its links,
      on error keep the old ones and return the error. */
  method CommandMap(c: Config, http: Http, reply: HttpReply,
                    decode: Bytes -> Option<LocationAreaResponse>, now: nat)
    returns (err: Option<CommandError>)
    requires c.cache == null ==> Obtain(None, reply).Failed?
    modifies c`next, c`prev, c.cache, http
    ensures var url := MapUrl(old(c.next));
            var hit := old(Cached(c.cache, url));
            var got := Obtain(hit, reply);
            && http.requests == RequestsAfter(old(http.requests), url, hit)
            && (c.cache != null ==> c.cache.store == StoreAfter(old(c.cache.store), url, hit, got, now) && c.cache.closed == old(c.cache.closed))
            && match Decoded(got, decode)
               case Ok(page) => err.None? && c.next == page.next && c.prev == page.previous
               case Err(e) => err == Some(Client(e)) && c.next == old(c.next) && c.prev == old(c.prev)
  {
    var url := MapUrl(c.next);
    var res, e := GetLocationAreas(url, c.cache, http, reply, decode, now);
    if e.Some? {
      return Some(Client(e.value));
    }
    ProcessLocationAreaResponse(res, c);
    err := None;
  }

  /** `commandMapb`: on the first page (no `Previous` link) do nothing and
      succeed; otherwise load the previous page as `map` loads the next. */
  method CommandMapb(c: Config, http: Http, reply: HttpReply,
                     decode: Bytes -> Option<LocationAreaResponse>, now: nat)
    returns (err: Option<CommandError>)
    requires c.cache == null && c.prev.Some? ==> Obtain(None, reply).Failed?
    modifies c`next, c`prev, c.cache, http
    ensures old(c.prev).None? ==>
              && err.None? && c.prev == None && c.next == old(c.next)
              && http.requests == old(http.requests)
              && (c.cache != null ==> c.cache.store == old(c.cache.store) && c.cache.closed == old(c.cache.closed))
    ensures old(c.prev).Some? ==>
              var url := old(c.prev).value;
              var hit := old(Cached(c.cache, url));
              var got := Obtain(hit, reply);
              && http.requests == RequestsAfter(old(http.requests), url, hit)
              && (c.cache != null ==> c.cache.store == StoreAfter(old(c.cache.store), url, hit, got, now) && c.cache.closed == old(c.cache.closed))
              && match Decoded(got, decode)
                 case Ok(page) => err.None? && c.next == page.next && c.prev == page.previous
                 case Err(e) => err == Some(Client(e)) && c.next == old(c.next) && c.prev == old(c.prev)
  {
    if c.prev.None? {
      return None;
    }
    var res, e := GetLocationAreas(c.prev.value, c.cache, http, reply, decode, now);
    if e.Some? {
      return Some(Client(e.value));
    }
    ProcessLocationAreaResponse(res, c);
    err := None;
  }

  /** `commandExplore`: with no argument, an error and no request; otherwise
      the error, if any, of looking the first argument's area up. */
  method CommandExplore(c: Config, http: Http, reply: HttpReply,
                        decode: Bytes -> Option<LocationAreaByNameResponse>, now: nat)
    returns (err: Option<CommandError>)
    requires c.cache == null && |c.args| > 0 ==> Obtain(None, reply).Failed?
    modifies c.cache, http
    ensures |c.args| == 0 ==>
              && err == Some(MissingArgument(ExploreArgMessage))
              && http.requests == old(http.requests)
              && (c.cache != null ==> c.cache.store == old(c.cache.store) && c.cache.closed == old(c.cache.closed))
    ensures |c.args| > 0 ==>
              var url := LocationAreaUrl(c.args[0]);
              var hit := old(Cached(c.cache, url));
              var got := Obtain(hit, reply);
              && http.requests == RequestsAfter(old(http.requests), url, hit)
              && (c.cache != null ==> c.cache.store == StoreAfter(old(c.cache.store), url, hit, got, now) && c.cache.closed == old(c.cache.closed))
              && err == match Decoded(got, decode) case Ok(_) => None case Err(e) => Some(Client(e))
  {
    if |c.args| < 1 {
      return Some(MissingArgument(ExploreArgMessage));
    }
    var names, e := GetPokemonForLocationName(c.args[0], c.cache, http, reply, decode, now);
    if e.Some? {
      return Some(Client(e.value));
    }
    err := None;
  }

  /** `commandCatch`: with no argument, an error and no request. Otherwise fetch
      the Pokemon named by the first argument; `ErrPokemonNotFound` is reported
      and swallowed, other errors are returned, and the Pokemon is filed in the
      pokedex under its name exactly when it is caught. `caught` is the random
      outcome of `passWithDifficulty`. */
  method CommandCatch(c: Config, http: Http, reply: HttpReply,
                      decode: Bytes -> Option<Pokemon>, now: nat, caught: bool)
    returns (err: Option<CommandError>)
    requires c.Valid()
    requires c.cache == null && |c.args| > 0 ==> ObtainPokemon(None, reply).Failed?
    modifies c`pokedex, c.cache, http
    ensures c.Valid()
    ensures old(c.pokedex).Keys <= c.pokedex.Keys
    ensures |c.args| == 0 ==>
              && err == Some(MissingArgument(CatchArgMessage))
              && http.requests == old(http.requests) && c.pokedex == old(c.pokedex)
              && (c.cache != null ==> c.cache.store == old(c.cache.store) && c.cache.closed == old(c.cache.closed))
    ensures |c.args| > 0 ==>
              var url := PokemonUrl(c.args[0]);
              var hit := old(Cached(c.cache, url));
              var got := ObtainPokemon(hit, reply);
              && http.requests == RequestsAfter(old(http.requests), url, hit)
              && (c.cache != null ==> c.cache.store == StoreAfter(old(c.cache.store), url, hit, got, now) && c.cache.closed == old(c.cache.closed))
              && match Decoded(got, decode)
                 case Ok(p) => err.None? && c.pokedex == if caught then old(c.pokedex)[p.name := p] else old(c.pokedex)
                 case Err(e) =>
                   && c.pokedex == old(c.pokedex)
                   && err == if e == PokemonNotFound then None else Some(Client(e))
  {
    if |c.args| < 1 {
      return Some(MissingArgument(CatchArgMessage));
    }
    var pokemon, e := GetPokemon(c.args[0], c.cache, http, reply, decode, now);
    if e == Some(PokemonNotFound) {
      return None;
    }
    if e.Some? {
      return Some(Client(e.value));
    }
    if caught {
      c.pokedex := c.pokedex[pokemon.name := pokemon];
    }
    err := None;
  }

  // ----- The command table -----

  /** Which command function a table entry calls. */
  datatype Callback = ExitCmd | HelpCmd | MapCmd | MapbCmd | ExploreCmd | CatchCmd

  /** `cliCommand`. */
  datatype CliCommand = CliCommand(name: string, description: string, callback: Callback)

  /** The `commands` map that `init` builds. */
  function Commands(): (table: map<string, CliCommand>)
    ensures forall k :: k in table ==> table[k].name == k
  {
    map[
      "exit" := CliCommand("exit", "Exit the Pokedex", ExitCmd),
      "help" := CliCommand("help", "Displays a help message", HelpCmd),
      "map" := CliCommand("map", "Displays location areas", MapCmd),
      "mapb" := CliCommand("mapb", "Displays the previous page of location areas", MapbCmd),
      "explore" := CliCommand("explore", "List Pokemon for a given location area", ExploreCmd),
      "catch" := CliCommand("catch", "Attenpt a Pokemon, expects a pokemon name as an argument", CatchCmd)
    ]
  }

  /** The table has exactly the six commands, each filed under its own name,
      each with a description, and no two sharing a callback. */
  lemma CommandTable()
    ensures Commands().Keys == {"exit", "help", "map", "mapb", "explore", "catch"}
    ensures forall k :: k in Commands() ==> Commands()[k].name == k && Commands()[k].description != ""
    ensures forall k1, k2 :: k1 in Commands() && k2 in Commands() && k1 != k2 ==>
              Commands()[k1].callback != Commands()[k2].callback
  {
  }

  // ----- The loop -----

  /** The arguments the loop hands a command: everything after the first token. */
  function ArgsOf(tokens: seq<string>): (args: seq<string>)
    requires |tokens| > 0
    ensures args == tokens[1..]
  {
    if |tokens| > 1 then tokens[1..] else []
  }

  /** What one turn of the loop did. */
  datatype StepOutcome = Skipped | UnknownCommand | Exited | Ran(name: string, err: Option<CommandError>)

  /** The inputs of one turn that come from outside: the server's reply to the
      turn's request (if one is made), the decoders, the clock and the catch
      outcome. */
  datatype World = World(reply: HttpReply, now: nat, caught: bool,
                         decodeAreas: Bytes -> Option<LocationAreaResponse>,
                         decodeArea: Bytes -> Option<LocationAreaByNameResponse>,
                         decodePokemon: Bytes -> Option<Pokemon>)

  /**
   * One turn of `main`'s loop on an input line: tokenize; skip an empty line;
   * set `args` from the tokens before looking at the command, so an unknown
   * command still replaces `args`; then run the command's callback. `exit`
   * ends the process.
   */
  method Step(c: Config, line: string, http: Http, w: World) returns (outcome: StepOutcome)
    requires c.Valid() && c.cache != null
    modifies c, c.cache, http
    ensures c.Valid()
    ensures old(c.pokedex).Keys <= c.pokedex.Keys
    ensures var tokens := Repl.Clean(line);
            && (tokens == [] ==>
                  outcome == Skipped && unchanged(c) && unchanged(c.cache) && unchanged(http))
            && (tokens != [] ==> c.args == tokens[1..])
            && (tokens != [] && tokens[0] !in Commands() ==>
                  && outcome == UnknownCommand
                  && c.next == old(c.next) && c.prev == old(c.prev) && c.pokedex == old(c.pokedex)
                  && unchanged(c.cache) && unchanged(http))
            && (tokens != [] && tokens[0] in {"exit", "help"} ==>
                  && outcome == (if tokens[0] == "exit" then Exited else Ran("help", None))
                  && c.next == old(c.next) && c.prev == old(c.prev) && c.pokedex == old(c.pokedex)
                  && unchanged(c.cache) && unchanged(http))
            && (tokens != [] && tokens[0] in {"map", "mapb", "explore", "catch"} ==>
                  outcome.Ran? && outcome.name == tokens[0])
  {
    var cleaned := Repl.CleanInput(line);
    if |cleaned| == 0 {
      return Skipped;
    }
    var known := cleaned[0] in Commands();
    c.args := ArgsOf(cleaned);
    if !known {
      return UnknownCommand;
    }
    var command := Commands()[cleaned[0]];
    var err: Option<CommandError> := None;
    match command.callback {
      case ExitCmd =>
        return Exited;
      case HelpCmd =>
      case MapCmd =>
        err := CommandMap(c, http, w.reply, w.decodeAreas, w.now);
      case MapbCmd =>
        err := CommandMapb(c, http, w.reply, w.decodeAreas, w.now);
      case ExploreCmd =>
        err := CommandExplore(c, http, w.reply, w.decodeArea, w.now);
      case CatchCmd =>
        err := CommandCatch(c, http, w.reply, w.decodePokemon, w.now, w.caught);
    }
    outcome := Ran(command.name, err);
  }

  /** A line whose first token is `exit`. */
  predicate IsExit(line: string) {
    var tokens := Repl.Clean(line);
    tokens != [] && tokens[0] == "exit"
  }

  /**
   * `main`'s loop over a finite run of input lines, one `World` per line,
   * until the input runs out or `exit` ends the process. The pokedex only
   * grows and keeps every Pokemon under its own name.
   */
  method Run(c: Config, http: Http, lines: seq<string>, worlds: seq<World>) returns (exited: bool)
    requires |worlds| == |lines|
    requires c.Valid() && c.cache != null
    modifies c, c.cache, http
    ensures c.Valid()
    ensures old(c.pokedex).Keys <= c.pokedex.Keys
    ensures exited <==> exists i :: 0 <= i < |lines| && IsExit(lines[i])
  {
    exited := false;
    var i := 0;
    while i < |lines| && !exited
      invariant 0 <= i <= |lines|
      invariant c.Valid()
      invariant old(c.pokedex).Keys <= c.pokedex.Keys
      invariant exited <==> exists j :: 0 <= j < i && IsExit(lines[j])
      invariant exited ==> i > 0 && IsExit(lines[i - 1])
    {
      var outcome := Step(c, lines[i], http, worlds[i]);
      exited := outcome == Exited;
      i := i + 1;
    }
  }
}
