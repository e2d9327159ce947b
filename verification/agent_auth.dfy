/** The agent's side of authentication: the token cache and when its content is handed out. */
module AgentAuth {
  import opened Base
  import O = OAuth

  const CLIENT_ID := "mcp-local-tunnel-agent"

  datatype CachedTokens = CachedTokens(
    accessToken: O.Handle,
    refreshToken: Option<O.Handle>,
    expiresAt: int,
    clientId: string)

  /** The JSON of a token response; optional members may be missing. */
  datatype TokenResponse = TokenResponse(
    accessToken: O.Handle,
    refreshToken: Option<O.Handle>,
    expiresInSeconds: Option<int>)

  function ExpiryOf(response: TokenResponse, now: int): int {
    now + response.expiresInSeconds.GetOr(3600) * 1000
  }

  /** The end of `refreshAccessToken`: a missing refresh token means the old one is kept. */
  function FromRefresh(response: TokenResponse, oldRefresh: O.Handle, clientId: string, now: int): CachedTokens {
    CachedTokens(response.accessToken, Some(response.refreshToken.GetOr(oldRefresh)), ExpiryOf(response, now), clientId)
  }

  /** The end of `performBrowserLogin`. */
  function FromLogin(response: TokenResponse, now: int): CachedTokens {
    CachedTokens(response.accessToken, response.refreshToken, ExpiryOf(response, now), CLIENT_ID)
  }

  /** The cached token counts as usable: more than a minute is left. */
  predicate Usable(cached: Option<CachedTokens>, now: int) {
    cached.Some? && cached.value.expiresAt > now + 60_000
  }

  /** A token response together with the time at which its expiry is computed. */
  datatype Received = Received(response: TokenResponse, at: int)

  class TokenCache {
    var file: Option<CachedTokens>

    constructor ()
      ensures file == None
    {
      file := None;
    }

    /** `getAccessToken` for this relay. `refreshed` is the answer to a refresh (`None` if it is
        refused or the attempt throws), `login` that of the browser login (`None` if it throws). */
    method GetAccessToken(now: int, refreshed: Option<Received>, login: Option<Received>)
      returns (token: Option<O.Handle>)
      modifies this
      ensures token.Some? ==> file.Some? && file.value.accessToken == token.value
      ensures token.None? ==> file == old(file)
      ensures Usable(old(file), now) ==> token.Some? && file == old(file)
      ensures !Usable(old(file), now) ==>
        var mayRefresh := old(file).Some? && old(file).value.refreshToken.Some?;
        if mayRefresh && refreshed.Some? then
          token.Some? && file == Some(FromRefresh(refreshed.value.response, old(file).value.refreshToken.value,
                                                  old(file).value.clientId, refreshed.value.at))
        else
          (token.Some? <==> login.Some?)
          && (login.Some? ==> file == Some(FromLogin(login.value.response, login.value.at)))
    {
      if file.Some? && file.value.expiresAt > now + 60_000 {
        return Some(file.value.accessToken);
      }
      if file.Some? && file.value.refreshToken.Some? {
        if refreshed.Some? {
          var tokens := FromRefresh(refreshed.value.response, file.value.refreshToken.value,
                                    file.value.clientId, refreshed.value.at);
          file := Some(tokens);
          return Some(tokens.accessToken);
        }
      }
      if login.None? {
        return None;
      }
      var tokens := FromLogin(login.value.response, login.value.at);
      file := Some(tokens);
      token := Some(tokens.accessToken);
    }
  }

  /** The cache entry stays one that can be refreshed for the agent's own client: a refresh keeps the
      client and never loses the refresh token, whether or not the answer brings a new one. */
  lemma RefreshKeepsRefreshable(response: TokenResponse, cached: CachedTokens, now: int)
    requires cached.refreshToken.Some?
    ensures var renewed := FromRefresh(response, cached.refreshToken.value, cached.clientId, now);
      && renewed.clientId == cached.clientId && renewed.accessToken == response.accessToken
      && renewed.refreshToken == (if response.refreshToken.Some? then response.refreshToken else cached.refreshToken)
    ensures var login := FromLogin(response, now);
      && login.clientId == "mcp-local-tunnel-agent" && login.accessToken == response.accessToken
      && login.refreshToken == response.refreshToken
  {
  }

  /** An answer that does not say when its token expires counts as one of an hour. */
  lemma ExpiryIs(response: TokenResponse, now: int)
    ensures FromLogin(response, now).expiresAt == now +
      (if response.expiresInSeconds.Some? then response.expiresInSeconds.value * 1000 else 3_600_000)
    ensures forall token, clientId ::
      FromRefresh(response, token, clientId, now).expiresAt == FromLogin(response, now).expiresAt
  {
  }

  /** A login or a refresh that read this response at this time wrote the cache entry. */
  ghost predicate WrittenFrom(cached: CachedTokens, response: TokenResponse, at: int) {
    || cached == FromLogin(response, at)
    || (exists oldRefresh, clientId :: cached == FromRefresh(response, oldRefresh, clientId, at))
  }

  /** The relay sealed `tokens` at `issuedAt` as `response`, and the agent cached the response after
      `responseDelay`. */
  ghost predicate CachedFrom(v: O.Vault, tokens: O.Tokens, issuedAt: int, response: TokenResponse,
                             cached: CachedTokens, responseDelay: nat) {
    && (exists clientId, userId, scopes :: tokens == O.TokensFor(clientId, userId, scopes, issuedAt))
    && response.accessToken in v && v[response.accessToken] == tokens.access
    && response.expiresInSeconds == Some(tokens.expiresInSeconds)
    && WrittenFrom(cached, response, issuedAt + responseDelay)
  }

  /** MAIN RESULT: with one clock on both sides, every token the cache hands out is still accepted
      after `connectDelay`, exactly if the two delays add up to at most 60001 ms. */
  lemma CachedTokenAcceptedIff(v: O.Vault, tokens: O.Tokens, issuedAt: int, response: TokenResponse,
                               cached: CachedTokens, responseDelay: nat, connectDelay: nat)
    requires CachedFrom(v, tokens, issuedAt, response, cached, responseDelay)
    ensures (forall now :: issuedAt + responseDelay <= now && Usable(Some(cached), now) ==>
               O.VerifyAccessToken(v, cached.accessToken, now + connectDelay).Some?)
      <==> responseDelay + connectDelay <= 60_001
  {
    assert tokens.expiresInSeconds == 3600;
    assert cached.expiresAt == issuedAt + responseDelay + 3_600_000;
    assert v[cached.accessToken].expiresAt == issuedAt + 3_600_000;
    if responseDelay + connectDelay > 60_001 {
      var now := cached.expiresAt - 60_001;
      assert Usable(Some(cached), now);
      assert O.VerifyAccessToken(v, cached.accessToken, now + connectDelay).None?;
    }
  }
}
