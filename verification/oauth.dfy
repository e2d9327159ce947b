/** The relay's OAuth provider: every step unseals one payload and seals another. */
module OAuth {
  import opened Base
  import opened RedirectUris

  const ACCESS_TOKEN_TTL_MS := 3_600_000
  const REFRESH_TOKEN_TTL_MS := 2_592_000_000
  const AUTH_CODE_TTL_MS := 300_000
  const PENDING_AUTH_TTL_MS := 600_000

  datatype Payload =
    | Pending(upstreamCodeVerifier: string, clientId: string, redirectUri: string, codeChallenge: string,
              state: Option<string>, scopes: seq<string>, expiresAt: int)
    | AuthCode(clientId: string, userId: string, codeChallenge: string, redirectUri: string,
               scopes: seq<string>, expiresAt: int)
    | Access(clientId: string, userId: string, scopes: seq<string>, expiresAt: int)
    | Refresh(clientId: string, userId: string, scopes: seq<string>, expiresAt: int)

  /** A sealed string. Sealing is ideal: `Vault` holds what was sealed under the relay's key, and
      nothing else can be unsealed. */
  type Handle = nat
  type Vault = map<Handle, Payload>

  datatype Kind = PendingKind | CodeKind | AccessKind | RefreshKind

  function KindOf(p: Payload): Kind {
    match p
    case Pending(_, _, _, _, _, _, _) => PendingKind
    case AuthCode(_, _, _, _, _, _) => CodeKind
    case Access(_, _, _, _) => AccessKind
    case Refresh(_, _, _, _) => RefreshKind
  }

  function Unseal(v: Vault, h: Handle, kind: Kind, now: int): (r: Option<Payload>)
    ensures r.Some? <==> h in v && KindOf(v[h]) == kind && now <= v[h].expiresAt
    ensures r.Some? ==> r.value == v[h]
  {
    if h !in v then None
    else if KindOf(v[h]) != kind || v[h].expiresAt < now then None
    else Some(v[h])
  }

  // ---- scopes ----

  /** `s.split(' ')`. */
  function SplitSpaces(s: string): (r: seq<string>)
    ensures r != []
  {
    if s == "" then [""]
    else
      var rest := SplitSpaces(s[1..]);
      if s[0] == ' ' then [""] + rest
      else [[s[0]] + rest[0]] + rest[1..]
  }

  /** `parts.join(' ')`. */
  function JoinSpaces(parts: seq<string>): string {
    if parts == [] then ""
    else if |parts| == 1 then parts[0]
    else parts[0] + " " + JoinSpaces(parts[1..])
  }

  lemma {:induction false} JoinSplit(s: string)
    ensures JoinSpaces(SplitSpaces(s)) == s
  {
    if s != "" {
      var rest := SplitSpaces(s[1..]);
      JoinSplit(s[1..]);
      var parts := SplitSpaces(s);
      if s[0] == ' ' {
        assert parts[1..] == rest;
        assert "" + " " + JoinSpaces(rest) == s;
      } else {
        assert parts[0] == [s[0]] + rest[0] && parts[1..] == rest[1..];
        if |rest| == 1 {
          assert s == [s[0]] + s[1..];
        } else {
          assert JoinSpaces(rest) == rest[0] + " " + JoinSpaces(rest[1..]);
          assert s == [s[0]] + s[1..];
        }
      }
    }
  }

  /** No part of a split contains a space, so with `JoinSplit` the parts are exactly what stands between
      the spaces. */
  lemma {:induction false} SplitHasNoSpaces(s: string)
    ensures forall part :: part in SplitSpaces(s) ==> ' ' !in part
  {
    if s != "" {
      SplitHasNoSpaces(s[1..]);
      var rest := SplitSpaces(s[1..]);
      assert rest[0] in rest;
      forall part | part in SplitSpaces(s) ensures ' ' !in part {
        if part in rest[1..] { assert part in rest; }
      }
    }
  }

  // ---- the provider and the HTTP handlers ----

  /** The URL parser and the configured allow list. */
  datatype Config = Config(parse: string -> Option<Url>, allowed: seq<string>)

  function VerdictOn(cfg: Config, uri: string): Verdict {
    CheckRedirectUri(cfg.parse(uri), cfg.allowed)
  }

  /** The query parameters of `/authorize`; `None` if missing or not a string. */
  datatype AuthorizeRequest = AuthorizeRequest(
    clientId: Option<string>,
    redirectUri: Option<string>,
    codeChallenge: Option<string>,
    codeChallengeMethod: Option<string>,
    scope: Option<string>,
    state: Option<string>)

  /** JavaScript's truth value of an optional string. */
  predicate Given(s: Option<string>) {
    s.Some? && s.value != ""
  }

  function GivenOnly(s: Option<string>): Option<string> {
    if Given(s) then s else None
  }

  function ScopesOf(req: AuthorizeRequest): seq<string> {
    if Given(req.scope) then SplitSpaces(req.scope.value) else []
  }

  /** The checks of the `/authorize` handler; a request that fails one is answered with status 400. */
  predicate Accepts(cfg: Config, req: AuthorizeRequest) {
    && Given(req.clientId) && Given(req.redirectUri) && Given(req.codeChallenge)
    && (Given(req.codeChallengeMethod) ==> req.codeChallengeMethod.value == "S256")
    && !VerdictOn(cfg, req.redirectUri.value).Invalid?
  }

  function PendingFor(req: AuthorizeRequest, verifier: string, now: int): Payload
    requires Given(req.clientId) && Given(req.redirectUri) && Given(req.codeChallenge)
  {
    Pending(verifier, req.clientId.value, req.redirectUri.value, req.codeChallenge.value,
            GivenOnly(req.state), ScopesOf(req), now + PENDING_AUTH_TTL_MS)
  }

  function CodeFor(pending: Payload, userId: string, now: int): Payload
    requires pending.Pending?
  {
    AuthCode(pending.clientId, userId, pending.codeChallenge, pending.redirectUri, pending.scopes,
             now + AUTH_CODE_TTL_MS)
  }

  /** The answer of the `/callback` handler once a code has been sealed. */
  datatype Response =
    | Redirect(uri: string, code: Handle, state: Option<string>)
    | ConfirmPage(host: string, uri: string, code: Handle, state: Option<string>)
    | ServerError

  function CallbackResponse(cfg: Config, pending: Payload, code: Handle): Response
    requires pending.Pending?
  {
    var url := cfg.parse(pending.redirectUri);
    if url.None? then ServerError
    else if VerdictOn(cfg, pending.redirectUri) == NeedsConsent then
      ConfirmPage(url.value.host, pending.redirectUri, code, pending.state)
    else Redirect(pending.redirectUri, code, pending.state)
  }

  function ChallengeForCode(v: Vault, code: Handle, now: int): Option<string> {
    var ac := Unseal(v, code, CodeKind, now);
    if ac.Some? then Some(ac.value.codeChallenge) else None
  }

  datatype Tokens = Tokens(access: Payload, refresh: Payload, expiresInSeconds: int, scope: string)

  function TokensFor(clientId: string, userId: string, scopes: seq<string>, now: int): Tokens {
    Tokens(Access(clientId, userId, scopes, now + ACCESS_TOKEN_TTL_MS),
           Refresh(clientId, userId, scopes, now + REFRESH_TOKEN_TTL_MS),
           ACCESS_TOKEN_TTL_MS / 1000,
           JoinSpaces(scopes))
  }

  function ExchangeCode(v: Vault, clientId: string, code: Handle, now: int): Option<Tokens> {
    var ac := Unseal(v, code, CodeKind, now);
    if ac.None? || ac.value.clientId != clientId then None
    else Some(TokensFor(clientId, ac.value.userId, ac.value.scopes, now))
  }

  function ExchangeRefreshToken(v: Vault, clientId: string, token: Handle, now: int): Option<Tokens> {
    var rt := Unseal(v, token, RefreshKind, now);
    if rt.None? || rt.value.clientId != clientId then None
    else Some(TokensFor(clientId, rt.value.userId, rt.value.scopes, now))
  }

  datatype AuthInfo = AuthInfo(clientId: string, scopes: seq<string>, expiresAtSeconds: int, userId: string)

  function VerifyAccessToken(v: Vault, token: Handle, now: int): Option<AuthInfo> {
    var td := Unseal(v, token, AccessKind, now);
    if td.None? then None
    else Some(AuthInfo(td.value.clientId, td.value.scopes, td.value.expiresAt / 1000, td.value.userId))
  }

  // ---- the login state machine ----

  /** A `/callback` request waiting for the upstream provider, with the payload it unsealed. */
  datatype Callback = Callback(pending: Payload, done: bool)

  datatype State = State(now: int, vault: Vault, callbacks: seq<Callback>)

  datatype Event =
    | Authorize(req: AuthorizeRequest, verifier: string, handle: Handle)
    | CallbackBegins(handle: Handle)
    | CallbackEnds(callback: nat, userId: string, code: Handle)
    | Exchange(clientId: string, code: Handle, access: Handle, refresh: Handle)
    | Renew(clientId: string, token: Handle, access: Handle, refresh: Handle)
    | TimePasses(ms: nat)

  predicate Fresh(s: State, h: Handle) {
    h !in s.vault
  }

  /** Each sealed string is new (a random nonce); callbacks end once. */
  predicate Enabled(s: State, e: Event) {
    match e
    case Authorize(_, _, handle) => Fresh(s, handle)
    case CallbackBegins(_) => true
    case CallbackEnds(k, _, code) =>
      k < |s.callbacks| && !s.callbacks[k].done && s.callbacks[k].pending.Pending? && Fresh(s, code)
    case Exchange(_, _, access, refresh) => Fresh(s, access) && Fresh(s, refresh) && access != refresh
    case Renew(_, _, access, refresh) => Fresh(s, access) && Fresh(s, refresh) && access != refresh
    case TimePasses(_) => true
  }

  function Sealed(s: State, tokens: Option<Tokens>, access: Handle, refresh: Handle): State {
    if tokens.None? then s
    else s.(vault := s.vault[access := tokens.value.access][refresh := tokens.value.refresh])
  }

  function Next(cfg: Config, s: State, e: Event): State
    requires Enabled(s, e)
  {
    match e
    case Authorize(req, verifier, handle) =>
      if Accepts(cfg, req) then s.(vault := s.vault[handle := PendingFor(req, verifier, s.now)]) else s
    case CallbackBegins(handle) =>
      var pending := Unseal(s.vault, handle, PendingKind, s.now);
      if pending.None? then s else s.(callbacks := s.callbacks + [Callback(pending.value, false)])
    case CallbackEnds(k, userId, code) =>
      var pending := s.callbacks[k].pending;
      s.(vault := s.vault[code := CodeFor(pending, userId, s.now)],
         callbacks := s.callbacks[k := Callback(pending, true)])
    case Exchange(clientId, code, access, refresh) =>
      Sealed(s, ExchangeCode(s.vault, clientId, code, s.now), access, refresh)
    case Renew(clientId, token, access, refresh) =>
      Sealed(s, ExchangeRefreshToken(s.vault, clientId, token, s.now), access, refresh)
    case TimePasses(ms) => s.(now := s.now + ms)
  }

  datatype Trace = Trace(states: seq<State>, events: seq<Event>)

  ghost predicate StepAt(cfg: Config, t: Trace, i: nat)
    requires i < |t.events| && |t.states| == |t.events| + 1
  {
    Enabled(t.states[i], t.events[i]) && t.states[i + 1] == Next(cfg, t.states[i], t.events[i])
  }

  ghost predicate IsRun(cfg: Config, t: Trace) {
    && |t.states| == |t.events| + 1
    && t.states[0] == State(t.states[0].now, map[], [])
    && forall i :: 0 <= i < |t.events| ==> StepAt(cfg, t, i)
  }
}
