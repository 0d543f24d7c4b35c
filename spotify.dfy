/**
 * The Spotify client of lib/spotify.ts. Its state is a cached access token
 * and the moment that token stops being used. The clock (`Date.now()`), the
 * environment's client credentials, the token endpoint and the Web API are
 * parameters: a `Credentials` value, a `TokenReply`, and a `server` function
 * from request to reply.
 */
module Spotify {
  import opened Wrappers
  import opened Strings

  datatype Track = Track(id: string, name: string, artists: seq<string>, albumImages: seq<string>,
                         previewUrl: Option<string>, spotifyUrl: Option<string>)

  /** The body of a search reply; `items` is `None` when `tracks` or `tracks.items` is missing. */
  datatype SearchResponse = SearchResponse(items: Option<seq<Track>>)

  /** `SPOTIFY_CLIENT_ID` and `SPOTIFY_CLIENT_SECRET` as read from the environment. */
  datatype Credentials = Credentials(clientId: Option<string>, clientSecret: Option<string>)

  /**
   * What the client-credentials request to the token endpoint produced: a
   * token with its lifetime in seconds and the clock reading taken once the
   * reply was in, or any failure (a non-2xx status, a network error, an
   * unreadable body).
   */
  datatype TokenReply = TokenGranted(accessToken: string, expiresIn: int, receivedAt: int) | TokenRequestFailed

  /** A Web API request: the endpoint under `https://api.spotify.com/v1`, its query parameters and the bearer token. */
  datatype ApiRequest = ApiRequest(endpoint: string, params: seq<(string, string)>, bearer: string)

  /** A Web API reply: a 2xx body, a non-2xx status, or a failure to get any reply. */
  datatype ApiReply<T> = Delivered(body: T) | HttpError(status: int, statusText: string, errorText: string) | NetworkFailure

  /** What a request can throw. */
  datatype SpotifyError = TokenError(message: string) | ApiFailure(status: int, statusText: string, errorText: string) | Unreachable

  const CREDENTIALS_MISSING := "Spotify credentials not configured"
  const AUTHENTICATION_FAILED := "Failed to authenticate with Spotify"
  const TRACK_FAILED := "Failed to get track"
  const ARTIST_FAILED := "Failed to get artist"

  /** A new token is retired this many milliseconds before Spotify says it expires. */
  const EARLY_EXPIRY_MS := 60000

  // ---------------------------------------------------------------------
  // The token cache as a value, and what each operation does to it
  // ---------------------------------------------------------------------

  datatype TokenCache = TokenCache(accessToken: Option<string>, expiresAt: int)

  /** The result of a token operation: the new cache and whether the operation threw. */
  datatype TokenStep = TokenStep(cache: TokenCache, outcome: Outcome<string>)

  /** `!clientId || !clientSecret` is false: both are set and non-empty. */
  predicate Configured(creds: Credentials)
  {
    creds.clientId.Some? && creds.clientId.value != "" && creds.clientSecret.Some? && creds.clientSecret.value != ""
  }

  /** The cached token is truthy: present and not the empty string. */
  predicate HasToken(c: TokenCache)
  {
    c.accessToken.Some? && c.accessToken.value != ""
  }

  /** `!this.accessToken || now >= this.tokenExpirationTime`. */
  predicate NeedsRefresh(c: TokenCache, now: int)
  {
    !HasToken(c) || now >= c.expiresAt
  }

  /**
   * `refreshToken`: missing credentials throw before anything else; a failed
   * token request throws the authentication message; only a granted token
   * changes the cache.
   */
  function Refresh(c: TokenCache, creds: Credentials, reply: TokenReply): (r: TokenStep)
    ensures r.outcome == Fail(CREDENTIALS_MISSING) <==> !Configured(creds)
    ensures r.outcome == Fail(AUTHENTICATION_FAILED) <==> Configured(creds) && reply.TokenRequestFailed?
    ensures r.outcome.Pass? <==> Configured(creds) && reply.TokenGranted?
    ensures r.outcome.Fail? ==> r.cache == c
    ensures r.outcome.Pass? ==>
      r.cache.accessToken == Some(reply.accessToken) &&
      r.cache.expiresAt + EARLY_EXPIRY_MS == reply.receivedAt + reply.expiresIn * 1000
  {
    if !Configured(creds) then TokenStep(c, Fail(CREDENTIALS_MISSING))
    else
      match reply
      case TokenGranted(token, expiresIn, receivedAt) =>
        TokenStep(TokenCache(Some(token), receivedAt + expiresIn * 1000 - EARLY_EXPIRY_MS), Pass)
      case TokenRequestFailed => TokenStep(c, Fail(AUTHENTICATION_FAILED))
  }

  /**
   * `ensureValidToken` at clock reading `now`: a usable token is kept as it
   * is, otherwise the token is refreshed. After success a token is cached.
   */
  function Ensure(c: TokenCache, creds: Credentials, now: int, reply: TokenReply): (r: TokenStep)
    ensures !NeedsRefresh(c, now) ==> r == TokenStep(c, Pass)
    ensures NeedsRefresh(c, now) ==> r == Refresh(c, creds, reply)
    ensures r.outcome.Pass? ==> r.cache.accessToken.Some?
    ensures r.outcome.Fail? ==> r.cache == c && r.outcome.error in {CREDENTIALS_MISSING, AUTHENTICATION_FAILED}
  {
    if NeedsRefresh(c, now) then Refresh(c, creds, reply) else TokenStep(c, Pass)
  }

  /** The cache after a request and what the request returned. */
  datatype Fetched<T> = Fetched(cache: TokenCache, result: Result<T, SpotifyError>)

  /**
   * `makeRequest`: make sure of a token, then send the request with the
   * cached token as bearer; a non-2xx reply throws with its status.
   */
  function Fetch<T>(c: TokenCache, creds: Credentials, now: int, reply: TokenReply,
                    endpoint: string, params: seq<(string, string)>, server: ApiRequest -> ApiReply<T>): (r: Fetched<T>)
    ensures r.cache == Ensure(c, creds, now, reply).cache
    ensures Ensure(c, creds, now, reply).outcome.Fail? ==>
      r.result == Failure(TokenError(Ensure(c, creds, now, reply).outcome.error))
    ensures r.result.Success? <==>
      Ensure(c, creds, now, reply).outcome.Pass? &&
      server(ApiRequest(endpoint, params, r.cache.accessToken.value)).Delivered?
    ensures r.result.Success? ==> r.result.value == server(ApiRequest(endpoint, params, r.cache.accessToken.value)).body
  {
    var step := Ensure(c, creds, now, reply);
    if step.outcome.Fail? then Fetched(step.cache, Failure(TokenError(step.outcome.error)))
    else
      match server(ApiRequest(endpoint, params, step.cache.accessToken.value))
      case Delivered(body) => Fetched(step.cache, Success(body))
      case HttpError(status, statusText, errorText) => Fetched(step.cache, Failure(ApiFailure(status, statusText, errorText)))
      case NetworkFailure => Fetched(step.cache, Failure(Unreachable))
  }

  /** The query parameters of a track search. */
  function SearchParams(query: string, limit: nat): seq<(string, string)>
  {
    [("q", query), ("type", "track"), ("limit", NatToString(limit))]
  }

  /**
   * `searchTracks`: the tracks of a delivered reply, or `[]` when the reply
   * has no `tracks.items` or anything on the way threw.
   */
  function SearchResult(fetched: Fetched<SearchResponse>): (tracks: seq<Track>)
    ensures fetched.result.Failure? ==> tracks == []
    ensures fetched.result.Success? && fetched.result.value.items.None? ==> tracks == []
    ensures fetched.result.Success? && fetched.result.value.items.Some? ==> tracks == fetched.result.value.items.value
  {
    if fetched.result.Success? && fetched.result.value.items.Some? then fetched.result.value.items.value else []
  }

  /** `getTrack` and `getArtist`: any failure is rethrown as the operation's own message. */
  function Rewrap<T>(result: Result<T, SpotifyError>, message: string): (r: Result<T, string>)
    ensures r.Success? <==> result.Success?
    ensures r.Success? ==> r.value == result.value
    ensures r.Failure? ==> r.error == message
  {
    match result
    case Success(v) => Success(v)
    case Failure(_) => Failure(message)
  }

  // ---------------------------------------------------------------------
  // Properties of the cache
  // ---------------------------------------------------------------------

  /** While the cached token is usable, no credentials and no token endpoint are consulted. */
  lemma FreshTokenIsReused(c: TokenCache, now: int)
    requires !NeedsRefresh(c, now)
    ensures forall creds: Credentials, reply: TokenReply {:trigger Ensure(c, creds, now, reply)} ::
      Ensure(c, creds, now, reply) == TokenStep(c, Pass)
  {
  }

  /**
   * A granted token is used until 60 seconds before the expiry Spotify
   * announced and is refreshed from then on.
   */
  lemma GrantedTokenRetiredEarly(c: TokenCache, creds: Credentials, token: string, expiresIn: int, receivedAt: int, t: int)
    requires Configured(creds) && token != ""
    ensures var next := Refresh(c, creds, TokenGranted(token, expiresIn, receivedAt)).cache;
      NeedsRefresh(next, t) <==> t + EARLY_EXPIRY_MS >= receivedAt + expiresIn * 1000
  {
  }

  /** A token granted for a minute or less is stale from the moment it arrives. */
  lemma ShortLivedTokenIsStale(c: TokenCache, creds: Credentials, token: string, expiresIn: int, receivedAt: int, t: int)
    requires Configured(creds) && expiresIn <= 60 && t >= receivedAt
    ensures NeedsRefresh(Refresh(c, creds, TokenGranted(token, expiresIn, receivedAt)).cache, t)
  {
  }

  /** An empty token string counts as no token: every later call refreshes again. */
  lemma EmptyTokenAlwaysRefreshes(c: TokenCache, creds: Credentials, expiresIn: int, receivedAt: int, t: int)
    requires Configured(creds)
    ensures NeedsRefresh(Refresh(c, creds, TokenGranted("", expiresIn, receivedAt)).cache, t)
  {
  }

  // ---------------------------------------------------------------------
  // The service object
  // ---------------------------------------------------------------------

  class SpotifyService {
    var accessToken: Option<string>
    var tokenExpirationTime: int

    function Cache(): TokenCache
      reads this
    {
      TokenCache(accessToken, tokenExpirationTime)
    }

    /** A new service holds no token, so its first request fetches one. */
    constructor()
      ensures Cache() == TokenCache(None, 0)
      ensures forall now :: NeedsRefresh(Cache(), now)
    {
      accessToken := None;
      tokenExpirationTime := 0;
    }

    /** `refreshToken`. */
    method RefreshToken(creds: Credentials, reply: TokenReply) returns (outcome: Outcome<string>)
      modifies this
      ensures TokenStep(Cache(), outcome) == Refresh(old(Cache()), creds, reply)
    {
      if !Configured(creds) {
        return Fail(CREDENTIALS_MISSING);
      }
      match reply
      case TokenGranted(token, expiresIn, receivedAt) =>
        accessToken := Some(token);
        tokenExpirationTime := receivedAt + expiresIn * 1000 - EARLY_EXPIRY_MS;
        outcome := Pass;
      case TokenRequestFailed =>
        outcome := Fail(AUTHENTICATION_FAILED);
    }

    /** `ensureValidToken` at clock reading `now`; `reply` is consulted only when a refresh happens. */
    method EnsureValidToken(creds: Credentials, now: int, reply: TokenReply) returns (outcome: Outcome<string>)
      modifies this
      ensures TokenStep(Cache(), outcome) == Ensure(old(Cache()), creds, now, reply)
    {
      if accessToken.None? || accessToken.value == "" || now >= tokenExpirationTime {
        outcome := RefreshToken(creds, reply);
      } else {
        outcome := Pass;
      }
    }

    /** `makeRequest`. */
    method MakeRequest<T>(creds: Credentials, now: int, reply: TokenReply,
                          endpoint: string, params: seq<(string, string)>, server: ApiRequest -> ApiReply<T>)
      returns (result: Result<T, SpotifyError>)
      modifies this
      ensures Fetched(Cache(), result) == Fetch(old(Cache()), creds, now, reply, endpoint, params, server)
    {
      var ensured := EnsureValidToken(creds, now, reply);
      if ensured.Fail? {
        return Failure(TokenError(ensured.error));
      }
      var response := server(ApiRequest(endpoint, params, accessToken.value));
      match response
      case Delivered(body) => result := Success(body);
      case HttpError(status, statusText, errorText) => result := Failure(ApiFailure(status, statusText, errorText));
      case NetworkFailure => result := Failure(Unreachable);
    }

    /** `searchTracks`: never throws; every failure becomes an empty list. */
    method SearchTracks(creds: Credentials, now: int, reply: TokenReply, query: string, limit: nat,
                        server: ApiRequest -> ApiReply<SearchResponse>)
      returns (tracks: seq<Track>)
      modifies this
      ensures var fetched := Fetch(old(Cache()), creds, now, reply, "/search", SearchParams(query, limit), server);
        Cache() == fetched.cache && tracks == SearchResult(fetched)
    {
      var result := MakeRequest(creds, now, reply, "/search", SearchParams(query, limit), server);
      if result.Success? && result.value.items.Some? {
        tracks := result.value.items.value;
      } else {
        tracks := [];
      }
    }

    /** `getTrack`. */
    method GetTrack(creds: Credentials, now: int, reply: TokenReply, trackId: string, server: ApiRequest -> ApiReply<Track>)
      returns (result: Result<Track, string>)
      modifies this
      ensures var fetched := Fetch(old(Cache()), creds, now, reply, "/tracks/" + trackId, [], server);
        Cache() == fetched.cache && result == Rewrap(fetched.result, TRACK_FAILED)
    {
      var fetched := MakeRequest(creds, now, reply, "/tracks/" + trackId, [], server);
      if fetched.Success? {
        result := Success(fetched.value);
      } else {
        result := Failure(TRACK_FAILED);
      }
    }

    /** `getArtist`; the artist object is passed through untyped, so its type is a parameter. */
    method GetArtist<A>(creds: Credentials, now: int, reply: TokenReply, artistId: string, server: ApiRequest -> ApiReply<A>)
      returns (result: Result<A, string>)
      modifies this
      ensures var fetched := Fetch(old(Cache()), creds, now, reply, "/artists/" + artistId, [], server);
        Cache() == fetched.cache && result == Rewrap(fetched.result, ARTIST_FAILED)
    {
      var fetched := MakeRequest(creds, now, reply, "/artists/" + artistId, [], server);
      if fetched.Success? {
        result := Success(fetched.value);
      } else {
        result := Failure(ARTIST_FAILED);
      }
    }
  }
}
