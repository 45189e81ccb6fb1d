/**
 * The cache-aside fetchers of internal/pokeclient: each builds a URL, asks the
 * shared cache, fetches on a miss, stores the body it read under the URL, and
 * decodes the bytes.
 *
 * `http.Get` plus `io.ReadAll` is the `Http.Get` request log together with the
 * reply the server gives (an `HttpReply` argument); `json.Unmarshal` is a
 * decoder passed in as a function.
 */
module PokeClient {
  import opened Base
  import opened PokeCache

  /** What one request produces: no response at all, a status whose body could
      not be read, or a status and the body read in full. */
  datatype HttpReply = NetErr | ReadErr(status: int) | Resp(status: int, body: Bytes)

  /** The network, reduced to the list of URLs requested from it. */
  class Http {
    var requests: seq<string>

    constructor ()
      ensures requests == []
    {
      requests := [];
    }

    /** `http.Get(url)` answered with `reply`. */
    method Get(url: string, reply: HttpReply) returns (r: HttpReply)
      modifies this
      ensures requests == old(requests) + [url]
      ensures r == reply
    {
      requests := requests + [url];
      r := reply;
    }
  }

  /** The errors the fetchers return; `PokemonNotFound` is `ErrPokemonNotFound`. */
  datatype ClientError = NetError | ReadError | DecodeError | PokemonNotFound

  datatype Result<T> = Ok(value: T) | Err(error: ClientError)

  // ----- Response types (getpokemon.go, locationarea.go, getpokemonforlocationarea.go) -----

  datatype Entry = Entry(name: string, url: string)
  datatype Stat = Stat(stat: Entry, baseStat: int)
  datatype PokemonType = PokemonType(typ: Entry)
  datatype Pokemon = Pokemon(name: string, height: int, weight: int, baseExperience: int,
                             stats: seq<Stat>, types: seq<PokemonType>)

  datatype LocationArea = LocationArea(name: string, url: string)
  datatype LocationAreaResponse = LocationAreaResponse(count: int, next: Option<string>, previous: Option<string>,
                                                       results: seq<LocationArea>)

  datatype PokemonEntry = PokemonEntry(name: string)
  datatype EncounterEntry = EncounterEntry(pokemon: PokemonEntry)
  datatype LocationAreaByNameResponse = LocationAreaByNameResponse(pokemonEncounters: seq<EncounterEntry>)

  /** Go's zero values of the two response structs that are returned on error. */
  const ZeroPokemon := Pokemon("", 0, 0, 0, [], [])
  const ZeroLocationAreaResponse := LocationAreaResponse(0, None, None, [])

  const BaseUrlPokemon: string := "https://pokeapi.co/api/v2/pokemon"
  const BaseUrlLocationArea: string := "https://pokeapi.co/api/v2/location-area"

  /** The cache key and request URL of `GetPokemon`. */
  function PokemonUrl(name: string): (url: string)
    ensures |url| == |BaseUrlPokemon| + 1 + |name|
    ensures url[..|BaseUrlPokemon| + 1] == BaseUrlPokemon + "/"
    ensures url[|BaseUrlPokemon| + 1..] == name
  {
    BaseUrlPokemon + "/" + name
  }

  /** The cache key and request URL of `GetPokemonForLocationName`. */
  function LocationAreaUrl(name: string): (url: string)
    ensures |url| == |BaseUrlLocationArea| + 1 + |name|
    ensures url[..|BaseUrlLocationArea| + 1] == BaseUrlLocationArea + "/"
    ensures url[|BaseUrlLocationArea| + 1..] == name
  {
    BaseUrlLocationArea + "/" + name
  }

  // ----- The cache-aside protocol as functions -----

  /** Either the bytes a fetcher goes on to decode, or the error it returns
      before decoding. */
  datatype Obtained = Body(bytes: Bytes) | Failed(error: ClientError)

  /** `GetLocationAreas` and `GetPokemonForLocationName`: the cached bytes on a
      hit; on a miss the body read, whatever the status. */
  function Obtain(cached: Option<Bytes>, reply: HttpReply): Obtained {
    match cached
    case Some(b) => Body(b)
    case None =>
      match reply
      case NetErr => Failed(NetError)
      case ReadErr(_) => Failed(ReadError)
      case Resp(_, b) => Body(b)
  }

  /** `GetPokemon`: as `Obtain`, except that a 404 status on a miss ends the
      call with `PokemonNotFound` before the body is read. */
  function ObtainPokemon(cached: Option<Bytes>, reply: HttpReply): Obtained {
    if cached.None? && !reply.NetErr? && reply.status == 404 then Failed(PokemonNotFound)
    else Obtain(cached, reply)
  }

  /** The store after a fetcher ran: `Add(url, body)` happens exactly on a
      miss whose body was read. */
  function StoreAfter(store: Store, url: string, cached: Option<Bytes>, got: Obtained, now: nat): Store {
    if cached.None? && got.Body? then store[url := CacheEntry(now, got.bytes)] else store
  }

  /** The requests a fetcher makes: one, for `url`, exactly on a miss. */
  function RequestsAfter(requests: seq<string>, url: string, cached: Option<Bytes>): seq<string> {
    if cached.None? then requests + [url] else requests
  }

  /** What the fetcher returns once it has the bytes (or an error). */
  function Decoded<T>(got: Obtained, decode: Bytes -> Option<T>): Result<T> {
    match got
    case Failed(e) => Err(e)
    case Body(b) =>
      match decode(b)
      case None => Err(DecodeError)
      case Some(v) => Ok(v)
  }

  // ----- The fetchers -----

  /**
   * `GetPokemon`. A nil cache always misses and `Add` on it would dereference
   * nil, so with no cache the reply must end the call before the `Add`.
   */
  method GetPokemon(name: string, cache: Cache?, http: Http, reply: HttpReply,
                    decode: Bytes -> Option<Pokemon>, now: nat)
    returns (p: Pokemon, err: Option<ClientError>)
    requires cache == null ==> ObtainPokemon(None, reply).Failed?
    modifies http, cache
    ensures var url := PokemonUrl(name);
            var hit := old(Cached(cache, url));
            var got := ObtainPokemon(hit, reply);
            && http.requests == RequestsAfter(old(http.requests), url, hit)
            && (cache != null ==> cache.store == StoreAfter(old(cache.store), url, hit, got, now) && cache.closed == old(cache.closed))
            && (got.Failed? ==> p == ZeroPokemon)
            && match Decoded(got, decode)
               case Ok(v) => err.None? && p == v
               case Err(e) => err == Some(e)
  {
    p := ZeroPokemon;
    var fullUrl := PokemonUrl(name);
    var d, ok := PokeCache.Get(cache, fullUrl);
    if !ok {
      var res := http.Get(fullUrl, reply);
      if res.NetErr? {
        return p, Some(NetError);
      }
      if res.status == 404 {
        return p, Some(PokemonNotFound);
      }
      if res.ReadErr? {
        return p, Some(ReadError);
      }
      d := res.body;
      cache.Add(fullUrl, d, now);
    }
    var decoded := decode(d);
    if decoded.None? {
      return p, Some(DecodeError);
    }
    return decoded.value, None;
  }

  /** The `range` loop of `GetPokemonForLocationName`: the encounters'
      Pokemon names, in order. */
  method PokemonNames(encounters: seq<EncounterEntry>) returns (out: seq<string>)
    ensures |out| == |encounters|
    ensures forall i :: 0 <= i < |out| ==> out[i] == encounters[i].pokemon.name
  {
    out := [];
    for i := 0 to |encounters|
      invariant |out| == i
      invariant forall j :: 0 <= j < i ==> out[j] == encounters[j].pokemon.name
    {
      out := out + [encounters[i].pokemon.name];
    }
  }

  /** `GetPokemonForLocationName`: the names of the Pokemon met in a location
      area, or an empty list and the error. */
  method GetPokemonForLocationName(name: string, cache: Cache?, http: Http, reply: HttpReply,
                                   decode: Bytes -> Option<LocationAreaByNameResponse>, now: nat)
    returns (names: seq<string>, err: Option<ClientError>)
    requires cache == null ==> Obtain(None, reply).Failed?
    modifies http, cache
    ensures var url := LocationAreaUrl(name);
            var hit := old(Cached(cache, url));
            var got := Obtain(hit, reply);
            && http.requests == RequestsAfter(old(http.requests), url, hit)
            && (cache != null ==> cache.store == StoreAfter(old(cache.store), url, hit, got, now) && cache.closed == old(cache.closed))
            && match Decoded(got, decode)
               case Ok(v) =>
                 && err.None?
                 && |names| == |v.pokemonEncounters|
                 && forall i :: 0 <= i < |names| ==> names[i] == v.pokemonEncounters[i].pokemon.name
               case Err(e) => err == Some(e) && names == []
  {
    var fullUrl := LocationAreaUrl(name);
    var d, ok := PokeCache.Get(cache, fullUrl);
    if !ok {
      var res := http.Get(fullUrl, reply);
      if res.NetErr? {
        return [], Some(NetError);
      }
      if res.ReadErr? {
        return [], Some(ReadError);
      }
      d := res.body;
      cache.Add(fullUrl, d, now);
    }
    var decoded := decode(d);
    if decoded.None? {
      return [], Some(DecodeError);
    }
    names := PokemonNames(decoded.value.pokemonEncounters);
    err := None;
  }

  /** `GetLocationAreas`: one page of location areas, keyed by the URL itself. */
  method GetLocationAreas(url: string, cache: Cache?, http: Http, reply: HttpReply,
                          decode: Bytes -> Option<LocationAreaResponse>, now: nat)
    returns (resp: LocationAreaResponse, err: Option<ClientError>)
    requires cache == null ==> Obtain(None, reply).Failed?
    modifies http, cache
    ensures var hit := old(Cached(cache, url));
            var got := Obtain(hit, reply);
            && http.requests == RequestsAfter(old(http.requests), url, hit)
            && (cache != null ==> cache.store == StoreAfter(old(cache.store), url, hit, got, now) && cache.closed == old(cache.closed))
            && (got.Failed? ==> resp == ZeroLocationAreaResponse)
            && match Decoded(got, decode)
               case Ok(v) => err.None? && resp == v
               case Err(e) => err == Some(e)
  {
    resp := ZeroLocationAreaResponse;
    var d, ok := PokeCache.Get(cache, url);
    if !ok {
      var res := http.Get(url, reply);
      if res.NetErr? {
        return resp, Some(NetError);
      }
      if res.ReadErr? {
        return resp, Some(ReadError);
      }
      d := res.body;
      cache.Add(url, d, now);
    }
    var decoded := decode(d);
    if decoded.None? {
      return resp, Some(DecodeError);
    }
    return decoded.value, None;
  }

  // ----- Properties of the protocol -----

  /** A cache hit makes no request, writes nothing, and decodes the cached bytes,
      whatever the network would have answered. */
  lemma HitNeverFetches(store: Store, url: string, b: Bytes, reply: HttpReply, requests: seq<string>, now: nat)
    ensures Obtain(Some(b), reply) == Body(b) && ObtainPokemon(Some(b), reply) == Body(b)
    ensures RequestsAfter(requests, url, Some(b)) == requests
    ensures StoreAfter(store, url, Some(b), Obtain(Some(b), reply), now) == store
  {
  }

  /** A miss makes exactly one request, for the URL. */
  lemma MissFetchesOnce(requests: seq<string>, url: string)
    ensures RequestsAfter(requests, url, None) == requests + [url]
  {
  }

  /** `GetPokemon` never caches a 404: it returns `PokemonNotFound` whether or
      not the body could be read, and the store is unchanged. */
  lemma NotFoundNeverCached(store: Store, url: string, reply: HttpReply, now: nat)
    requires !reply.NetErr? && reply.status == 404
    ensures ObtainPokemon(None, reply) == Failed(PokemonNotFound)
    ensures StoreAfter(store, url, None, ObtainPokemon(None, reply), now) == store
  {
  }

  /** A network or read error is returned as it is and is never cached. */
  lemma FetchErrorsNotCached(store: Store, url: string, reply: HttpReply, now: nat)
    requires reply.NetErr? || reply.ReadErr?
    ensures Obtain(None, reply) == Failed(if reply.NetErr? then NetError else ReadError)
    ensures ObtainPokemon(None, reply).Failed?
    ensures StoreAfter(store, url, None, Obtain(None, reply), now) == store
    ensures StoreAfter(store, url, None, ObtainPokemon(None, reply), now) == store
  {
  }

  /** On a miss whose body was read, the body is cached under the URL before,
      and whatever the result of, decoding; only that key changes. For the
      location fetchers this holds for every status, 404 included. */
  lemma ReadBodyCachedBeforeDecode(store: Store, url: string, status: int, body: Bytes, now: nat)
    ensures var got := Obtain(None, Resp(status, body));
            got == Body(body) && StoreAfter(store, url, None, got, now) == store[url := CacheEntry(now, body)]
    ensures status != 404 ==> ObtainPokemon(None, Resp(status, body)) == Body(body)
    ensures forall k :: k in store && k != url ==> StoreAfter(store, url, None, Obtain(None, Resp(status, body)), now)[k] == store[k]
  {
  }

  /** A fetcher succeeds exactly when it has bytes and they decode, and then
      returns the decoded value. */
  lemma SucceedsIffDecodes<T>(got: Obtained, decode: Bytes -> Option<T>)
    ensures Decoded(got, decode).Ok? <==> got.Body? && decode(got.bytes).Some?
    ensures Decoded(got, decode).Ok? ==> Decoded(got, decode).value == decode(got.bytes).value
    ensures got.Body? && decode(got.bytes).None? ==> Decoded(got, decode) == Err(DecodeError)
  {
  }

  /** Two lookups of the same Pokemon through one cache: the second is served
      from the cache, so the server sees one request and both calls agree. */
  method FetchTwiceRequestsOnce(name: string, status: int, body: Bytes,
                                decode: Bytes -> Option<Pokemon>, t1: nat, t2: nat)
    returns (p1: Pokemon, p2: Pokemon, requests: seq<string>)
    requires status != 404 && decode(body).Some?
    ensures requests == [PokemonUrl(name)]
    ensures p1 == p2 == decode(body).value
  {
    var cache := new Cache(5000);
    var http := new Http();
    var e1, e2;
    p1, e1 := GetPokemon(name, cache, http, Resp(status, body), decode, t1);
    p2, e2 := GetPokemon(name, cache, http, Resp(status, body), decode, t2);
    requests := http.requests;
  }

  /** Two location-area lookups of the same name through one cache: the
      second is served from the cache, whatever the server would answer, so
      the server sees one request and both calls give the same names. */
  method ExploreTwiceRequestsOnce(name: string, status: int, body: Bytes, later: HttpReply,
                                  decode: Bytes -> Option<LocationAreaByNameResponse>, t1: nat, t2: nat)
    returns (names1: seq<string>, names2: seq<string>, requests: seq<string>)
    requires decode(body).Some?
    ensures requests == [LocationAreaUrl(name)]
    ensures names1 == names2
    ensures |names1| == |decode(body).value.pokemonEncounters|
  {
    var cache := new Cache(5000);
    var http := new Http();
    var e1, e2;
    names1, e1 := GetPokemonForLocationName(name, cache, http, Resp(status, body), decode, t1);
    names2, e2 := GetPokemonForLocationName(name, cache, http, later, decode, t2);
    requests := http.requests;
  }

  /** Two loads of the same location-area page through one cache: one
      request, and both calls return the decoded page. */
  method AreasTwiceRequestsOnce(url: string, status: int, body: Bytes, later: HttpReply,
                                decode: Bytes -> Option<LocationAreaResponse>, t1: nat, t2: nat)
    returns (page1: LocationAreaResponse, page2: LocationAreaResponse, requests: seq<string>)
    requires decode(body).Some?
    ensures requests == [url]
    ensures page1 == page2 == decode(body).value
  {
    var cache := new Cache(5000);
    var http := new Http();
    var e1, e2;
    page1, e1 := GetLocationAreas(url, cache, http, Resp(status, body), decode, t1);
    page2, e2 := GetLocationAreas(url, cache, http, later, decode, t2);
    requests := http.requests;
  }

  /** Different names never share a cache entry. */
  lemma UrlsInjective(a: string, b: string)
    ensures PokemonUrl(a) == PokemonUrl(b) ==> a == b
    ensures LocationAreaUrl(a) == LocationAreaUrl(b) ==> a == b
  {
    if PokemonUrl(a) == PokemonUrl(b) {
      assert a == PokemonUrl(a)[|BaseUrlPokemon| + 1..];
    }
    if LocationAreaUrl(a) == LocationAreaUrl(b) {
      assert a == LocationAreaUrl(a)[|BaseUrlLocationArea| + 1..];
    }
  }

  /** The two URL shapes; the location-area page fetcher uses its argument verbatim. */
  lemma UrlShapes(name: string)
    ensures PokemonUrl(name) == "https://pokeapi.co/api/v2/pokemon/" + name
    ensures LocationAreaUrl(name) == "https://pokeapi.co/api/v2/location-area/" + name
  {
  }
}
