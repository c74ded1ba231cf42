/** The client token cache: at most one token per client, reused until it expires, dropped on
    request, and swept when expired. The clock is an explicit parameter (milliseconds), and the
    signed token `jwt.sign` would produce is passed in as an opaque string. */
module TokenCache {
  import opened Wrappers

  /** Twelve hours, in milliseconds: how long a cached token is reused. */
  const TokenTtl: int := 12 * 60 * 60 * 1000

  /** What every answer reports as the token's lifetime. */
  const ExpiresIn := "12h"

  /** A client is named by its id, or is the `undefined` key (`None`). */
  type ClientKey = Option<string>

  datatype Entry = Entry(token: string, expiresAt: int)

  type Cache = map<ClientKey, Entry>

  datatype TokenData = TokenData(token: string, expiresIn: string, cached: bool)

  /** An entry that `getToken` may still hand out at time `now`. */
  predicate Live(cache: Cache, client: ClientKey, now: int) {
    client in cache && cache[client].expiresAt > now
  }

  /** `getToken(clientId)`: the clock is read once to test the cached entry (`checkedAt`) and
      once more to stamp a new one (`issuedAt`); `signed` is the newly signed token. */
  function GetToken(cache: Cache, client: ClientKey, checkedAt: int, issuedAt: int, signed: string): (r: (Cache, TokenData))
    ensures r.1.expiresIn == ExpiresIn
    ensures r.1.cached <==> Live(cache, client, checkedAt)
    ensures r.1.cached ==> r.0 == cache && r.1.token == cache[client].token
    ensures !r.1.cached ==> r.1.token == signed && r.0 == cache[client := Entry(signed, issuedAt + TokenTtl)]
    ensures forall other :: other != client ==> (other in r.0 <==> other in cache)
    ensures forall other :: other != client && other in cache ==> r.0[other] == cache[other]
  {
    if client in cache && cache[client].expiresAt > checkedAt then
      (cache, TokenData(cache[client].token, ExpiresIn, true))
    else
      (cache[client := Entry(signed, issuedAt + TokenTtl)], TokenData(signed, ExpiresIn, false))
  }

  /** `invalidateToken(clientId)`: whether an entry was deleted. Only the entry of that client
      goes. */
  function Invalidate(cache: Cache, client: ClientKey): (r: (Cache, bool))
    ensures r.1 <==> client in cache
    ensures client !in r.0
    ensures forall other :: other != client ==> (other in r.0 <==> other in cache)
    ensures forall other :: other != client && other in cache ==> r.0[other] == cache[other]
  {
    (cache - {client}, client in cache)
  }

  /** `getActiveTokensCount()`: every entry counts, expired or not. */
  function ActiveCount(cache: Cache): (n: nat)
    ensures n == |cache.Keys|
    ensures n == 0 <==> cache == map[]
  {
    |cache|
  }

  /** What survives a sweep at `now`: the entries that are not yet past their expiry. */
  function Unexpired(cache: Cache, now: int): (r: Cache)
    ensures forall client :: client in r <==> client in cache && cache[client].expiresAt >= now
    ensures forall client :: client in r ==> r[client] == cache[client]
  {
    map client | client in cache && cache[client].expiresAt >= now :: cache[client]
  }

  /** The body of the hourly sweep: every entry with `expiresAt < now` is deleted, one key at a
      time. */
  method Sweep(cache: Cache, now: int) returns (r: Cache)
    ensures r == Unexpired(cache, now)
  {
    r := cache;
    var pending := cache.Keys;
    while pending != {}
      invariant pending <= cache.Keys
      invariant forall client :: client in r <==> client in cache && (client in pending || cache[client].expiresAt >= now)
      invariant forall client :: client in r ==> r[client] == cache[client]
      decreases |pending|
    {
      var client :| client in pending;
      if cache[client].expiresAt < now {
        r := r - {client};
      }
      pending := pending - {client};
    }
  }

  // ---------------------------------------------------------------- properties

  /** Asking again before the entry expires returns the same token from the cache. */
  lemma SecondRequestReuses(cache: Cache, client: ClientKey, checkedAt: int, issuedAt: int, signed: string,
                            checkedAt2: int, issuedAt2: int, signed2: string)
    requires var first := GetToken(cache, client, checkedAt, issuedAt, signed);
      checkedAt2 < first.0[client].expiresAt
    ensures var first := GetToken(cache, client, checkedAt, issuedAt, signed);
      var second := GetToken(first.0, client, checkedAt2, issuedAt2, signed2);
      && second.1.cached && second.1.token == first.1.token && second.0 == first.0
  {
  }

  /** An entry that expires exactly at `now` survives the sweep at `now`, although `getToken`
      at `now` already treats it as expired and replaces it. */
  lemma ExpiryBoundary(cache: Cache, client: ClientKey, now: int, issuedAt: int, signed: string)
    requires client in cache && cache[client].expiresAt == now
    ensures client in Unexpired(cache, now)
    ensures !GetToken(cache, client, now, issuedAt, signed).1.cached
  {
  }

  /** A first token for a client adds one entry; invalidating an existing one removes one. */
  lemma CountChanges(cache: Cache, client: ClientKey, checkedAt: int, issuedAt: int, signed: string)
    ensures client !in cache ==> ActiveCount(GetToken(cache, client, checkedAt, issuedAt, signed).0) == ActiveCount(cache) + 1
    ensures client in cache ==> ActiveCount(GetToken(cache, client, checkedAt, issuedAt, signed).0) == ActiveCount(cache)
    ensures client in cache ==> ActiveCount(Invalidate(cache, client).0) == ActiveCount(cache) - 1
    ensures client !in cache ==> ActiveCount(Invalidate(cache, client).0) == ActiveCount(cache)
  {
    if client in cache {
      assert (cache - {client}).Keys == cache.Keys - {client};
    } else {
      assert cache[client := Entry(signed, issuedAt + TokenTtl)].Keys == cache.Keys + {client};
      assert cache - {client} == cache;
    }
  }

  /** A sweep never raises the active count, and lowers it exactly when some entry had
      already expired. */
  lemma SweepLowersCount(cache: Cache, now: int)
    ensures ActiveCount(Unexpired(cache, now)) <= ActiveCount(cache)
    ensures ActiveCount(Unexpired(cache, now)) == ActiveCount(cache) <==>
      forall client :: client in cache ==> cache[client].expiresAt >= now
  {
    var kept := Unexpired(cache, now);
    assert kept.Keys <= cache.Keys;
    if forall client :: client in cache ==> cache[client].expiresAt >= now {
      assert kept.Keys == cache.Keys;
    } else {
      var gone :| gone in cache && cache[gone].expiresAt < now;
      assert kept.Keys <= cache.Keys - {gone};
      SubsetCount(kept.Keys, cache.Keys - {gone});
    }
    SubsetCount(kept.Keys, cache.Keys);
  }

  lemma {:induction false} SubsetCount<T>(a: set<T>, b: set<T>)
    requires a <= b
    ensures |a| <= |b|
    ensures |a| == |b| ==> a == b
    decreases |b|
  {
    if b != {} {
      var x :| x in b;
      SubsetCount(a - {x}, b - {x});
      if x in a {
        assert a == (a - {x}) + {x} && b == (b - {x}) + {x};
      } else {
        assert a - {x} == a;
      }
    }
  }

  /** After an invalidation the next request is issued a new token. */
  lemma InvalidatedIsReissued(cache: Cache, client: ClientKey, checkedAt: int, issuedAt: int, signed: string)
    ensures var after := Invalidate(cache, client).0;
      var next := GetToken(after, client, checkedAt, issuedAt, signed);
      !next.1.cached && next.1.token == signed
  {
  }
}
