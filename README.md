# pokedexcli in Dafny

A model of the core of `pokedexcli`, a command-line Pokedex that browses the
PokeAPI. The model has five modules:

- `PokeCache` (`pokecache.dfy`) is the expiring byte cache. A `Cache` object
  holds a `store` map from string keys (request URLs) to `CacheEntry` values.
  Each entry is a payload plus the clock reading at which it was added. `Add`
  writes an entry in place. `Get` is a module-level method, so it can take a nil
  cache. `Reap` is the sweep loop and deletes entries in place. The background
  ticker is the `Tick` method, one call per tick, and it sweeps with cutoff
  `now - interval`. `Close` stops the sweeper. The functions `Lookup`, `Reaped`
  and `Swept` give the meaning of one lookup, one sweep and a run of ticks.
  `newCacheEntry` is the datatype constructor `CacheEntry(now, val)`.
- `PokeClient` (`pokeclient.dfy`) holds the three cache-aside fetchers:
  `GetPokemon`, `GetPokemonForLocationName` and `GetLocationAreas`.
  - The server's answer to a request is an `HttpReply` argument. It is one of:
    - `NetErr`: `http.Get` failed;
    - `ReadErr(status)`: the status arrived but `io.ReadAll` failed;
    - `Resp(status, body)`: the status and the full body.
  - An `Http` object records every URL requested, so "a cache hit makes no
    request" can be stated.
  - `json.Unmarshal` is a decoder passed in as a function that returns
    `Option`.
  - The functions `Obtain`/`ObtainPokemon`, `StoreAfter`, `RequestsAfter` and
    `Decoded` describe the protocol: which bytes get decoded, when the cache is
    written, when a request is made and what is returned. Each fetcher's
    postcondition ties its result and its new state to these functions.
- `Repl` (`repl.dfy`) is the input tokenizer. `CleanInput` is one pass over the
  characters, proved equal to `Clean`, the lower-cased maximal non-space runs
  (`Fields`). `repl.go`'s `cleanInput` is a verbatim copy of
  `internal/repl/repl.go`'s `CleanInput`, so `Repl.CleanInput` models both.
- `Pokedex` (`pokedex.dfy`) comes from `main.go`:
  - the `Config` object: pagination links, cache, arguments and pokedex;
  - the `map`, `mapb`, `explore` and `catch` commands;
  - the `commands` table;
  - one turn of the read-dispatch loop (`Step`), and a run of turns over finite
    input (`Run`).
- `Base` (`base.dfy`) holds `Option`, `byte` and `Bytes`.

Time is a `nat` clock argument counted in milliseconds. A sweep's cutoff
`now - interval` is an `int`, because it may be negative.

## Model

| member | source | states |
|---|---|---|
| `PokeCache.Cache.constructor` | internal/pokecache/cache.go:61-67 | A new cache has an empty store, the given interval, and a sweeper that is running. The interval must be positive, because `time.NewTicker` panics otherwise. |
| `PokeCache.Cache.Add` | internal/pokecache/cache.go:27-31 | The new store is the old one with `key` mapped to `CacheEntry(now, val)`. Nothing else changes. |
| `PokeCache.Get` | internal/pokecache/cache.go:33-44 | `ok` holds exactly when the cache is non-nil and has `key`. Then `val` is the stored payload, whatever its age. Otherwise `val` is empty. The cache is not changed. |
| `PokeCache.Cache.Reap` | internal/pokecache/cache.go:50-59 | The loop deletes entries in place, and afterwards the store is `Reaped(old store, min)`: exactly the entries not created strictly before `min`, with their values unchanged. |
| `PokeCache.Cache.Tick` | internal/pokecache/cache.go:71-77 | While the sweeper runs, a tick at `now` sweeps with cutoff `now - interval`. After `Close`, a tick changes nothing. |
| `PokeCache.Cache.Close` | internal/pokecache/cache.go:46-48 | The sweeper is stopped and the store is unchanged. |
| `PokeCache.AddThenLookup` | internal/pokecache/cache.go:27-44 | After `Add(k, v)` at time `now`, a lookup of `k` gives `v`, and the entry's `createdAt` is `now`. |
| `PokeCache.AddOverwrites` | internal/pokecache/cache.go:14-19 | Two `Add`s to one key equal the second one alone. The lookup gives the second value, with the second time. |
| `PokeCache.AddFrame` | internal/pokecache/cache.go:30 | `Add(k, v)` adds only `k` to the key set and leaves every other entry (value and time) unchanged. |
| `PokeCache.ReapedExactly` | internal/pokecache/cache.go:54-58 | A key survives a sweep exactly when its entry was created at or after the cutoff. Survivors are unchanged and no key is added. |
| `PokeCache.ReapedIdempotent` | internal/pokecache/cache.go:54-58 | Sweeping twice with one cutoff equals sweeping once. Two sweeps equal one sweep with the later cutoff. |
| `PokeCache.SweptKeeps` | internal/pokecache/cache.go:71-77 | Expiration law: an entry survives a run of ticks exactly when no tick came later than `createdAt + interval`. A survivor is unchanged. |
| `PokeCache.TickBoundary` | internal/pokecache/cache.go:55 | A tick at `createdAt + interval` or earlier keeps the entry, because the comparison is strict. Any later tick removes it. |
| `PokeCache.StaggeredExpiry` | internal/pokecache/cache_test.go:75-103 | Two entries, added at `t0` and at `t0 + interval/2`. After a tick at `t0 + interval + e` with `0 < e <= interval/2`, the first is gone and the second is still found. |
| `PokeCache.CloseKeepsEntries` | internal/pokecache/cache_test.go:179-199 | An entry added before `Close` is still found after `Close`, even after a tick that would have expired it. |
| `PokeClient.GetPokemon` | internal/pokeclient/getpokemon.go:39-65 | See "The fetchers" below. This one uses key `BaseUrlPokemon + "/" + name`, and a 404 on a miss returns `PokemonNotFound` before the body is read. On a fetch error the value is the zero `Pokemon`. |
| `PokeClient.PokemonNames` | internal/pokeclient/getpokemonforlocationarea.go:46-48 | The output has one name per encounter, in order: `out[i]` is encounter `i`'s `pokemon.name`. |
| `PokeClient.GetPokemonForLocationName` | internal/pokeclient/getpokemonforlocationarea.go:23-50 | See "The fetchers" below. This one uses key `BaseUrlLocationArea + "/" + name` and has no 404 case. On success the names are those of the encounters, in order and equal in number. On any error the list is empty. |
| `PokeClient.GetLocationAreas` | internal/pokeclient/locationarea.go:25-48 | See "The fetchers" below. This one uses the `url` argument itself as the key and has no 404 case. On a fetch or read error the response is the zero value. |
| `PokeClient.HitNeverFetches` | internal/pokeclient/getpokemon.go:43-44 | On a hit, whatever the network would answer: the cached bytes are decoded, no request is made and the store is unchanged. |
| `PokeClient.MissFetchesOnce` | internal/pokeclient/locationarea.go:29-30 | A miss makes exactly one request, for the cache key. |
| `PokeClient.NotFoundNeverCached` | internal/pokeclient/getpokemon.go:49-51 | For `GetPokemon`, a 404 on a miss gives `PokemonNotFound`, whether or not the body could be read. The store is unchanged. |
| `PokeClient.FetchErrorsNotCached` | internal/pokeclient/getpokemon.go:45-57 | A network error returns `NetError` and a read error returns `ReadError` (except a `GetPokemon` 404). Neither writes the store. |
| `PokeClient.ReadBodyCachedBeforeDecode` | internal/pokeclient/getpokemon.go:54-63 | On a miss whose body was read, the store maps the key to that body, stamped `now`, whatever the decoder says. Only that key changes. For the location fetchers this holds for every status, 404 included. |
| `PokeClient.SucceedsIffDecodes` | internal/pokeclient/getpokemon.go:61-64 | A fetcher succeeds exactly when it has bytes and they decode. It then returns the decoded value. Bytes that do not decode give `DecodeError`. |
| `PokeClient.UrlShapes` | internal/pokeclient/getpokemon.go:35-42 | The two derived keys are the PokeAPI base URLs followed by `"/" + name`. |
| `PokeClient.PokemonUrl` | internal/pokeclient/getpokemon.go:42 | The key is `BaseUrlPokemon`, then `"/"`, then the name, which can be read back from the end of the key. |
| `PokeClient.LocationAreaUrl` | internal/pokeclient/getpokemonforlocationarea.go:27 | The key is `BaseUrlLocationArea`, then `"/"`, then the name, which can be read back from the end of the key. |
| `PokeClient.UrlsInjective` | internal/pokeclient/getpokemon.go:42 | Two different names never give the same Pokemon key, and never the same location-area key, so they never share a cache entry. |
| `PokeClient.FetchTwiceRequestsOnce` | internal/pokeclient/getpokemon_test.go:138-186 | Fetching one Pokemon twice through one cache makes one request. Both calls return the decoded value. |
| `PokeClient.ExploreTwiceRequestsOnce` | internal/pokeclient/getpokemonforlocationarea_test.go:122-172 | Looking up one location area twice through one cache makes one request, whatever the server would answer the second time. Both calls give the same names, one per encounter in the decoded body. |
| `PokeClient.AreasTwiceRequestsOnce` | internal/pokeclient/locationarea_test.go:103-140 | Loading one page twice through one cache makes one request, whatever the server would answer the second time. Both calls return the decoded page. |
| `Repl.CleanInput` | internal/repl/repl.go:7-13 | The scanning loop returns exactly `Clean(input)`: the maximal non-space runs of the input, in order, each lower-cased. `repl.go`'s copy is the same. |
| `Repl.RunLength` | internal/repl/repl.go:9 | Gives the length of the longest prefix with no white space: every character before it is non-space, and the next one, if any, is a space. |
| `Repl.FieldsAreWords` | internal/repl/repl.go:9-11 | Every field is non-empty and has no white space. |
| `Repl.FieldsAfterWord` | internal/repl/repl.go:9 | A word followed by white space, or by nothing, is one whole field. |
| `Repl.FieldsEmptyIff` | internal/repl/repl.go:8-12 | A line has no fields exactly when every character is white space. |
| `Repl.FieldsSplit` | internal/repl/repl.go:9-11 | A white-space character between two texts yields the first text's fields followed by the second's. |
| `Repl.FieldsSkipLeading` | repl.go:9 | Leading white space does not change the fields. |
| `Repl.FieldsOfJoin` | internal/repl/repl.go:9 | Splitting words joined by single spaces gives back the words. |
| `Repl.CleanShape` | repl.go:9-11 | There is one token per field. Every token is non-empty, has no white space, and is unchanged by lower-casing. |
| `Repl.CleanEmptyIff` | repl.go:8-12 | The token list is empty exactly when the input is empty or all white space. |
| `Repl.CleanIdempotent` | internal/repl/repl.go:7-12 | Joining the tokens with single spaces and tokenising again gives the same tokens. |
| `Repl.CleanSplit` | repl.go:9-11 | White space between two parts keeps both parts' tokens, in order. |
| `Repl.CleanIgnoresPadding` | repl.go:9-11 | Leading and trailing white space does not change the tokens. |
| `Repl.CleanOfJoin` | repl.go:10 | Tokenising words joined by spaces gives each word lower-cased. |
| `Repl.CleanExamplePadding` | repl_test.go:11-12 | `"  hello world  "` gives `["hello", "world"]`. |
| `Repl.CleanExampleMixedCase` | repl_test.go:23-24 | `"MiXeD CaSe WoRdS"` gives `["mixed", "case", "words"]`. |
| `Pokedex.Config.constructor` | main.go:19-25 | A new `Config` has no links, no arguments and an empty pokedex, and it keeps its Pokemon under their own names. |
| `Pokedex.NewConfig` | main.go:172-175 | `main` starts with a fresh, empty, running cache whose interval is `defaultInterval` (5 s), and with an empty pokedex. |
| `Pokedex.ProcessLocationAreaResponse` | main.go:45-51 | `Prev` and `Next` become the page's `Previous` and `Next` links. |
| `Pokedex.MapUrl` | main.go:69-72 | `map` asks for the `Next` link when there is one, and for `BaseUrlLocationArea` otherwise. |
| `Pokedex.CommandMap` | main.go:68-79 | `map` asks for `Next`, or for `BaseUrlLocationArea` when `Next` is nil. The cache and the request log change as `GetLocationAreas` changes them. On success the links become the page's; on error the links are unchanged and the error is returned. |
| `Pokedex.CommandMapb` | main.go:81-92 | With `Prev` nil, `mapb` succeeds with no request and changes nothing. Otherwise it loads `Prev`, with the same effects as `map`. |
| `Pokedex.CommandExplore` | main.go:94-106 | With no argument, `explore` returns the missing-argument error, makes no request and leaves the cache unchanged. Otherwise it returns the error, if any, of the lookup of `args[0]`. |
| `Pokedex.CommandCatch` | main.go:108-133 | With no argument, `catch` returns an error and changes nothing. Otherwise see "catch" below. |
| `Pokedex.Commands` | main.go:135-168 | The literal `commands` table, with the source's descriptions. Every entry is filed under its own `Name`, so the loop's lookup by the first token finds the command of that name. |
| `Pokedex.CommandTable` | main.go:135-168 | The table has exactly the keys `exit, help, map, mapb, explore, catch`. Each entry's `Name` is its key and its description is non-empty. No two entries share a callback. |
| `Pokedex.ArgsOf` | main.go:188-192 | Both branches of the `args` assignment give `tokens[1:]`. |
| `Pokedex.Step` | main.go:183-199 | See "One turn of the loop" below. |
| `Pokedex.Run` | main.go:176-200 | Over a finite run of input lines, the loop reports `exited` exactly when some line's first token is `exit`. The pokedex only grows and keeps every Pokemon under its own name. |

The fetchers (`GetPokemon`, `GetPokemonForLocationName`, `GetLocationAreas`) share these postconditions:

- A cache hit makes no request. A miss makes one request, for the key.
- The store gains an entry for the key exactly on a miss whose body was read. It gains it before decoding.
- Network and read errors are returned, and the store is unchanged.
- The call succeeds exactly when the bytes decode, and then returns the decoded value.
- With a nil cache, the reply must fail before `Add` is reached.

`catch` with an argument:

- The call fetches `args[0]` as `GetPokemon` does.
- `PokemonNotFound` returns no error.
- Any other error is returned.
- The pokedex gains `p.name := p` only when the fetch succeeds and `caught` holds.
- In every other case the pokedex is unchanged.

One turn of the loop (`Step`):

- An empty line is skipped and nothing changes.
- Otherwise `args` becomes the tokens after the first.
- An unknown command still sets `args`, runs nothing and changes nothing else.
- `help` changes nothing. `exit` ends the process.
- The four other commands run under their own name.

## Left out

- Concurrency: the sweeper goroutine, the ticker, context cancellation and the `RWMutex` are not modelled. Ticks and `Close` are explicit sequential calls, so the race-freedom test cannot be stated.
- PokeCache.Cache.Tick: after `Close` the model's ticks do nothing. In Go, a tick already pending when `Close` is called may still be served once, because `select` picks at random between ready channels.
- Wall-clock time: `time.Now` and `time.Duration` are a `nat` millisecond clock supplied by the caller. The claim that every entry's `createdAt` is at most the current time is not stated, because the model does not assume the clock is monotonic.
- The cache tests that sleep one interval plus a margin assume that the first tick removes the entry. `TickBoundary` shows that a tick at exactly `createdAt + interval` keeps it, so those tests depend on scheduling. The model states only the exact law (`SweptKeeps`).
- HTTP and JSON: `http.Get`, `io.ReadAll`, `Body.Close` and `json.Unmarshal` are abstracted into an `HttpReply` argument and a decoder function. Go's error messages become the four `ClientError` values.
- PokeClient.GetPokemon: on a decode error the returned `Pokemon` is left unconstrained, because `json.Unmarshal` may have partly filled it. `GetLocationAreas` is treated the same way.
- PokeClient.GetPokemon: a nil cache is accepted only with a reply that fails before `Add`. Go's `Add` has no nil guard, so a miss that reads a body dereferences nil. The same holds for the other two fetchers and for the commands. The nil-cache success tests (internal/pokeclient/getpokemon_test.go:189-218, getpokemonforlocationarea_test.go:174-204, locationarea_test.go:142-164) describe behaviour the code does not have, and they are not proved.
- `BaseUrlPokemon` is a package variable that the tests rebind to a test server. The model fixes it at its initial value.
- `passWithDifficulty` uses floating point and `rand.Float64`. It becomes the boolean `caught` argument, and its pass-rate statistics are not modelled.
- Printing, `os.Exit` (the `Exited` outcome), the stdin scanner and its error exit, and the body of `commandHelp` are I/O and are left out.
- The unbounded `for` loop of `main` is modelled as `Run` over a finite list of lines. What Go does after the input ends, repeating empty turns, is left out.
- PokeCache.Cache.constructor: `time.NewTicker` panics on an interval that is not positive. The model requires a positive interval instead of modelling that panic.
- Pokedex.Run: states whether the run ended at an `exit` line, and what happens to the pokedex. The links, `args` and the cache after the run are not stated, because they are the composed effects of each `Step`.
- Pokedex.Step: for `map`, `mapb`, `explore` and `catch` it states only that the named command ran. Their effects are in the contracts of `CommandMap`, `CommandMapb`, `CommandExplore` and `CommandCatch`, which `Step` calls.
- `strings.ToLower` is modelled for ASCII letters only. The white-space set of `strings.FieldsSeq` (`unicode.IsSpace`) is modelled in full. Invalid UTF-8 input cannot be written as a Dafny string.
- Go's nil slices and empty slices are the same value in the model. A nil `pokedex` map (a `Config{}` literal) does not exist in the model, because the pokedex is always a map.
