/** Where the tokens of a run come from, how long they live, and how codes leave the relay. */
module OAuthLineage {
  import opened Base
  import opened RedirectUris
  import opened OAuth

  // ---- how a sealed string came about ----

  /** Step `a` accepted a request and sealed `h` for it. */
  ghost predicate PendingFrom(cfg: Config, t: Trace, a: nat, h: Handle) {
    && a < |t.events| && a < |t.states| && t.events[a].Authorize?
    && t.events[a].handle == h && Accepts(cfg, t.events[a].req)
  }

  /** Step `b` unsealed what step `a` had sealed, opening callback `k`. */
  ghost predicate CallbackFrom(cfg: Config, t: Trace, a: nat, b: nat, k: nat) {
    && a < b < |t.events| && b < |t.states| && t.events[b].CallbackBegins?
    && PendingFrom(cfg, t, a, t.events[b].handle)
    && Unseal(t.states[b].vault, t.events[b].handle, PendingKind, t.states[b].now).Some?
    && |t.states[b].callbacks| == k
  }

  /** Step `c` ended that callback, when the upstream exchange had named the user, and sealed `h`. */
  ghost predicate CodeFrom(cfg: Config, t: Trace, a: nat, b: nat, c: nat, h: Handle) {
    && b < c < |t.events| && c < |t.states| && t.events[c].CallbackEnds?
    && t.events[c].code == h && CallbackFrom(cfg, t, a, b, t.events[c].callback)
  }

  /** A login (authorize, callback begun, callback ended, code exchanged) and the refreshes after it,
      each named by its step. */
  datatype Chain = Login(a: nat, b: nat, c: nat, x: nat) | Renewed(prev: Chain, r: nat)

  function LastStep(ch: Chain): nat {
    match ch
    case Login(_, _, _, x) => x
    case Renewed(_, r) => r
  }

  function Renewals(ch: Chain): nat {
    match ch
    case Login(_, _, _, _) => 0
    case Renewed(prev, _) => 1 + Renewals(prev)
  }

  function Root(ch: Chain): Chain {
    match ch
    case Login(_, _, _, _) => ch
    case Renewed(prev, _) => Root(prev)
  }

  ghost predicate IsChain(cfg: Config, t: Trace, ch: Chain) {
    match ch
    case Login(a, b, c, x) =>
      && c < x < |t.events| && x < |t.states| && t.events[x].Exchange?
      && CodeFrom(cfg, t, a, b, c, t.events[x].code)
      && ExchangeCode(t.states[x].vault, t.events[x].clientId, t.events[x].code, t.states[x].now).Some?
    case Renewed(prev, r) =>
      && IsChain(cfg, t, prev)
      && LastStep(prev) < r < |t.events| && r < |t.states| && t.events[r].Renew?
      && t.events[r].token == t.events[LastStep(prev)].refresh
      && ExchangeRefreshToken(t.states[r].vault, t.events[r].clientId, t.events[r].token, t.states[r].now).Some?
      && t.states[r].now <= t.states[LastStep(prev)].now + REFRESH_TOKEN_TTL_MS
  }

  lemma {:induction false} ChainShape(cfg: Config, t: Trace, ch: Chain)
    requires IsChain(cfg, t, ch)
    ensures LastStep(ch) < |t.events| && LastStep(ch) < |t.states|
    ensures t.events[LastStep(ch)].Exchange? || t.events[LastStep(ch)].Renew?
    ensures var root := Root(ch); root.Login? && IsChain(cfg, t, root) && root.x <= LastStep(ch)
  {
    if ch.Renewed? { ChainShape(cfg, t, ch.prev); }
  }

  /** The request a chain goes back to. */
  ghost function Request(cfg: Config, t: Trace, ch: Chain): AuthorizeRequest
    requires IsChain(cfg, t, ch)
  {
    ChainShape(cfg, t, ch);
    t.events[Root(ch).a].req
  }

  /** The user the upstream exchange named for that request's login. */
  ghost function User(cfg: Config, t: Trace, ch: Chain): string
    requires IsChain(cfg, t, ch)
  {
    ChainShape(cfg, t, ch);
    t.events[Root(ch).c].userId
  }

  /** When the login's code was exchanged. */
  ghost function ExchangedAt(cfg: Config, t: Trace, ch: Chain): int
    requires IsChain(cfg, t, ch)
  {
    ChainShape(cfg, t, ch);
    t.states[Root(ch).x].now
  }

  ghost function TokensOf(cfg: Config, t: Trace, ch: Chain): Tokens
    requires IsChain(cfg, t, ch)
  {
    ChainShape(cfg, t, ch);
    var req := Request(cfg, t, ch);
    TokensFor(req.clientId.GetOr(""), User(cfg, t, ch), ScopesOf(req), t.states[LastStep(ch)].now)
  }

  // ---- every sealed string is explained ----

  ghost predicate PendingExplained(cfg: Config, t: Trace, n: nat, h: Handle, p: Payload) {
    exists a: nat :: a < n && PendingFrom(cfg, t, a, h)
      && p == PendingFor(t.events[a].req, t.events[a].verifier, t.states[a].now)
  }

  ghost predicate CallbackExplained(cfg: Config, t: Trace, n: nat, k: nat, p: Payload) {
    exists a: nat, b: nat :: b < n && CallbackFrom(cfg, t, a, b, k)
      && p == PendingFor(t.events[a].req, t.events[a].verifier, t.states[a].now)
  }

  ghost predicate CodeExplained(cfg: Config, t: Trace, n: nat, h: Handle, p: Payload) {
    exists a: nat, b: nat, c: nat :: c < n && CodeFrom(cfg, t, a, b, c, h)
      && p == CodeFor(PendingFor(t.events[a].req, t.events[a].verifier, t.states[a].now),
                      t.events[c].userId, t.states[c].now)
  }

  ghost predicate AccessExplained(cfg: Config, t: Trace, n: nat, h: Handle, p: Payload) {
    exists ch :: IsChain(cfg, t, ch) && LastStep(ch) < n && t.events[LastStep(ch)].access == h
      && p == TokensOf(cfg, t, ch).access
  }

  ghost predicate RefreshExplained(cfg: Config, t: Trace, n: nat, h: Handle, p: Payload) {
    exists ch :: IsChain(cfg, t, ch) && LastStep(ch) < n && t.events[LastStep(ch)].refresh == h
      && p == TokensOf(cfg, t, ch).refresh
  }

  ghost predicate Explained(cfg: Config, t: Trace, n: nat, h: Handle, p: Payload) {
    match KindOf(p)
    case PendingKind => PendingExplained(cfg, t, n, h, p)
    case CodeKind => CodeExplained(cfg, t, n, h, p)
    case AccessKind => AccessExplained(cfg, t, n, h, p)
    case RefreshKind => RefreshExplained(cfg, t, n, h, p)
  }

  ghost predicate VaultExplained(cfg: Config, t: Trace, n: nat)
    requires n < |t.states|
  {
    forall h :: h in t.states[n].vault ==> Explained(cfg, t, n, h, t.states[n].vault[h])
  }

  ghost predicate CallbacksExplained(cfg: Config, t: Trace, n: nat)
    requires n < |t.states|
  {
    forall k :: 0 <= k < |t.states[n].callbacks| ==>
      CallbackExplained(cfg, t, n, k, t.states[n].callbacks[k].pending)
  }

  ghost predicate AllExplained(cfg: Config, t: Trace, n: nat)
    requires n < |t.states|
  {
    VaultExplained(cfg, t, n) && CallbacksExplained(cfg, t, n)
  }

  lemma ExplainedLater(cfg: Config, t: Trace, n: nat, h: Handle, p: Payload)
    requires Explained(cfg, t, n, h, p)
    ensures Explained(cfg, t, n + 1, h, p)
  {
    match KindOf(p)
    case PendingKind =>
      var a: nat :| a < n && PendingFrom(cfg, t, a, h)
        && p == PendingFor(t.events[a].req, t.events[a].verifier, t.states[a].now);
    case CodeKind =>
      var a: nat, b: nat, c: nat :| c < n && CodeFrom(cfg, t, a, b, c, h)
        && p == CodeFor(PendingFor(t.events[a].req, t.events[a].verifier, t.states[a].now),
                        t.events[c].userId, t.states[c].now);
    case AccessKind =>
      var ch :| IsChain(cfg, t, ch) && LastStep(ch) < n && t.events[LastStep(ch)].access == h
        && p == TokensOf(cfg, t, ch).access;
    case RefreshKind =>
      var ch :| IsChain(cfg, t, ch) && LastStep(ch) < n && t.events[LastStep(ch)].refresh == h
        && p == TokensOf(cfg, t, ch).refresh;
  }

  lemma CallbackExplainedLater(cfg: Config, t: Trace, n: nat, k: nat, p: Payload)
    requires CallbackExplained(cfg, t, n, k, p)
    ensures CallbackExplained(cfg, t, n + 1, k, p)
  {
    var a: nat, b: nat :| b < n && CallbackFrom(cfg, t, a, b, k)
      && p == PendingFor(t.events[a].req, t.events[a].verifier, t.states[a].now);
  }

  ghost predicate At(cfg: Config, t: Trace, n: nat) {
    n < |t.events| && |t.states| == |t.events| + 1 && StepAt(cfg, t, n) && AllExplained(cfg, t, n)
  }

  lemma PendingSealed(cfg: Config, t: Trace, n: nat)
    requires At(cfg, t, n) && t.events[n].Authorize? && Accepts(cfg, t.events[n].req)
    ensures var e := t.events[n];
      Explained(cfg, t, n + 1, e.handle, PendingFor(e.req, e.verifier, t.states[n].now))
  {
    assert PendingFrom(cfg, t, n, t.events[n].handle);
  }

  lemma CallbackOpened(cfg: Config, t: Trace, n: nat, p: Payload)
    requires At(cfg, t, n) && t.events[n].CallbackBegins?
    requires Unseal(t.states[n].vault, t.events[n].handle, PendingKind, t.states[n].now) == Some(p)
    ensures CallbackExplained(cfg, t, n + 1, |t.states[n].callbacks|, p)
  {
    var h := t.events[n].handle;
    assert Explained(cfg, t, n, h, p);
    var a: nat :| a < n && PendingFrom(cfg, t, a, h)
      && p == PendingFor(t.events[a].req, t.events[a].verifier, t.states[a].now);
    assert CallbackFrom(cfg, t, a, n, |t.states[n].callbacks|);
  }

  lemma CodeSealed(cfg: Config, t: Trace, n: nat)
    requires At(cfg, t, n) && t.events[n].CallbackEnds?
    ensures var e := t.events[n];
      Explained(cfg, t, n + 1, e.code, CodeFor(t.states[n].callbacks[e.callback].pending, e.userId, t.states[n].now))
  {
    var e := t.events[n];
    var p := t.states[n].callbacks[e.callback].pending;
    assert CallbackExplained(cfg, t, n, e.callback, p);
    var a: nat, b: nat :| b < n && CallbackFrom(cfg, t, a, b, e.callback)
      && p == PendingFor(t.events[a].req, t.events[a].verifier, t.states[a].now);
    assert CodeFrom(cfg, t, a, b, n, e.code);
  }

  lemma TokensExchanged(cfg: Config, t: Trace, n: nat) returns (ch: Chain)
    requires At(cfg, t, n) && t.events[n].Exchange?
    requires ExchangeCode(t.states[n].vault, t.events[n].clientId, t.events[n].code, t.states[n].now).Some?
    ensures IsChain(cfg, t, ch) && LastStep(ch) == n
    ensures Some(TokensOf(cfg, t, ch)) ==
      ExchangeCode(t.states[n].vault, t.events[n].clientId, t.events[n].code, t.states[n].now)
  {
    var h := t.events[n].code;
    var p := t.states[n].vault[h];
    assert Explained(cfg, t, n, h, p);
    var a: nat, b: nat, c: nat :| c < n && CodeFrom(cfg, t, a, b, c, h)
      && p == CodeFor(PendingFor(t.events[a].req, t.events[a].verifier, t.states[a].now),
                      t.events[c].userId, t.states[c].now);
    ch := Login(a, b, c, n);
  }

  lemma TokensRenewed(cfg: Config, t: Trace, n: nat) returns (ch: Chain)
    requires At(cfg, t, n) && t.events[n].Renew?
    requires ExchangeRefreshToken(t.states[n].vault, t.events[n].clientId, t.events[n].token, t.states[n].now).Some?
    ensures IsChain(cfg, t, ch) && LastStep(ch) == n
    ensures Some(TokensOf(cfg, t, ch)) ==
      ExchangeRefreshToken(t.states[n].vault, t.events[n].clientId, t.events[n].token, t.states[n].now)
  {
    var h := t.events[n].token;
    var p := t.states[n].vault[h];
    assert Explained(cfg, t, n, h, p);
    var prev :| IsChain(cfg, t, prev) && LastStep(prev) < n && t.events[LastStep(prev)].refresh == h
      && p == TokensOf(cfg, t, prev).refresh;
    ch := Renewed(prev, n);
    assert IsChain(cfg, t, ch);
  }

  lemma ChainExplainsAccess(cfg: Config, t: Trace, n: nat, ch: Chain)
    requires IsChain(cfg, t, ch) && LastStep(ch) < n
    requires LastStep(ch) < |t.events| && (t.events[LastStep(ch)].Exchange? || t.events[LastStep(ch)].Renew?)
    ensures AccessExplained(cfg, t, n, t.events[LastStep(ch)].access, TokensOf(cfg, t, ch).access)
  {
    hide IsChain, Request, User;
  }

  lemma ChainExplainsRefresh(cfg: Config, t: Trace, n: nat, ch: Chain)
    requires IsChain(cfg, t, ch) && LastStep(ch) < n
    requires LastStep(ch) < |t.events| && (t.events[LastStep(ch)].Exchange? || t.events[LastStep(ch)].Renew?)
    ensures RefreshExplained(cfg, t, n, t.events[LastStep(ch)].refresh, TokensOf(cfg, t, ch).refresh)
  {
    hide IsChain, Request, User;
  }

  lemma ChainExplains(cfg: Config, t: Trace, n: nat, ch: Chain)
    requires IsChain(cfg, t, ch) && LastStep(ch) < n
    ensures LastStep(ch) < |t.events|
    ensures t.events[LastStep(ch)].Exchange? || t.events[LastStep(ch)].Renew?
    ensures Explained(cfg, t, n, t.events[LastStep(ch)].access, TokensOf(cfg, t, ch).access)
    ensures Explained(cfg, t, n, t.events[LastStep(ch)].refresh, TokensOf(cfg, t, ch).refresh)
  {
    hide IsChain, Request, User, AccessExplained, RefreshExplained;
    ChainShape(cfg, t, ch);
    ChainExplainsAccess(cfg, t, n, ch);
    ChainExplainsRefresh(cfg, t, n, ch);
  }

  lemma TokensSealed(cfg: Config, t: Trace, n: nat, tokens: Tokens)
    requires At(cfg, t, n)
    requires var e := t.events[n]; var s := t.states[n];
      (e.Exchange? && ExchangeCode(s.vault, e.clientId, e.code, s.now) == Some(tokens))
      || (e.Renew? && ExchangeRefreshToken(s.vault, e.clientId, e.token, s.now) == Some(tokens))
    ensures Explained(cfg, t, n + 1, t.events[n].access, tokens.access)
    ensures Explained(cfg, t, n + 1, t.events[n].refresh, tokens.refresh)
  {
    hide IsChain, Explained, AllExplained;
    var ch: Chain;
    if t.events[n].Exchange? {
      ch := TokensExchanged(cfg, t, n);
    } else {
      ch := TokensRenewed(cfg, t, n);
    }
    assert tokens == TokensOf(cfg, t, ch);
    ChainExplains(cfg, t, n + 1, ch);
  }

  /** What step `n` sealed, if anything. */
  lemma NewlySealed(cfg: Config, t: Trace, n: nat, h: Handle)
    requires At(cfg, t, n) && h in t.states[n + 1].vault && h !in t.states[n].vault
    ensures Explained(cfg, t, n + 1, h, t.states[n + 1].vault[h])
  {
    var e, s := t.events[n], t.states[n];
    match e
    case Authorize(req, verifier, handle) => PendingSealed(cfg, t, n);
    case CallbackEnds(k, userId, code) => CodeSealed(cfg, t, n);
    case Exchange(clientId, code, access, refresh) =>
      TokensSealed(cfg, t, n, ExchangeCode(s.vault, clientId, code, s.now).value);
    case Renew(clientId, token, access, refresh) =>
      TokensSealed(cfg, t, n, ExchangeRefreshToken(s.vault, clientId, token, s.now).value);
    case _ =>
  }

  lemma StepKeepsVault(cfg: Config, s: State, e: Event, h: Handle)
    requires Enabled(s, e) && h in s.vault
    ensures h in Next(cfg, s, e).vault && Next(cfg, s, e).vault[h] == s.vault[h]
  {
  }

  lemma StepKeepsCallbacks(cfg: Config, s: State, e: Event)
    requires Enabled(s, e)
    ensures var s' := Next(cfg, s, e);
      && |s.callbacks| <= |s'.callbacks|
      && (forall k :: 0 <= k < |s.callbacks| ==> s'.callbacks[k].pending == s.callbacks[k].pending)
      && (|s.callbacks| < |s'.callbacks| ==>
            e.CallbackBegins? && |s'.callbacks| == |s.callbacks| + 1
            && Unseal(s.vault, e.handle, PendingKind, s.now) == Some(s'.callbacks[|s.callbacks|].pending))
  {
  }

  lemma VaultStaysExplained(cfg: Config, t: Trace, m: nat)
    requires At(cfg, t, m)
    ensures VaultExplained(cfg, t, m + 1)
  {
    hide Explained, CallbackExplained;
    var s, s' := t.states[m], t.states[m + 1];
    forall h | h in s'.vault ensures Explained(cfg, t, m + 1, h, s'.vault[h]) {
      if h in s.vault {
        StepKeepsVault(cfg, s, t.events[m], h);
        ExplainedLater(cfg, t, m, h, s.vault[h]);
      } else {
        NewlySealed(cfg, t, m, h);
      }
    }
  }

  lemma CallbacksStayExplained(cfg: Config, t: Trace, m: nat)
    requires At(cfg, t, m)
    ensures CallbacksExplained(cfg, t, m + 1)
  {
    hide Explained, CallbackExplained, VaultExplained, Next, Enabled;
    StepKeepsCallbacks(cfg, t.states[m], t.events[m]);
    var s, s' := t.states[m], t.states[m + 1];
    forall k | 0 <= k < |s'.callbacks| ensures CallbackExplained(cfg, t, m + 1, k, s'.callbacks[k].pending) {
      if k < |s.callbacks| {
        CallbackExplainedLater(cfg, t, m, k, s.callbacks[k].pending);
      } else {
        CallbackOpened(cfg, t, m, s'.callbacks[k].pending);
      }
    }
  }

  lemma NothingSealedAtStart(cfg: Config, t: Trace)
    requires IsRun(cfg, t)
    ensures AllExplained(cfg, t, 0)
  {
  }

  lemma {:induction false} EverythingExplained(cfg: Config, t: Trace, n: nat)
    requires IsRun(cfg, t) && n < |t.states|
    ensures AllExplained(cfg, t, n)
  {
    hide VaultExplained, CallbacksExplained, Enabled, Next;
    if n == 0 {
      NothingSealedAtStart(cfg, t);
    } else {
      EverythingExplained(cfg, t, n - 1);
      assert StepAt(cfg, t, n - 1);
      VaultStaysExplained(cfg, t, n - 1);
      CallbacksStayExplained(cfg, t, n - 1);
    }
  }

  // ---- results ----

  lemma {:induction false} ChainLifetime(cfg: Config, t: Trace, ch: Chain)
    requires IsChain(cfg, t, ch)
    ensures LastStep(ch) < |t.states|
    ensures t.states[LastStep(ch)].now <= ExchangedAt(cfg, t, ch) + Renewals(ch) * 2_592_000_000
  {
    if ch.Renewed? { ChainLifetime(cfg, t, ch.prev); }
  }

  /** MAIN RESULT (lineage and lifetime): an access token that verifies belongs to the client, scopes
      and user of one authorization request and the login made for it, through a code exchange and
      any number of refreshes; and it verifies no later than 30 days per refresh, plus one hour, after
      the exchange. */
  lemma AcceptedTokenHasLineage(cfg: Config, t: Trace, n: nat, token: Handle, info: AuthInfo)
    returns (ch: Chain)
    requires IsRun(cfg, t) && n < |t.states|
    requires VerifyAccessToken(t.states[n].vault, token, t.states[n].now) == Some(info)
    ensures IsChain(cfg, t, ch) && LastStep(ch) < n && t.events[LastStep(ch)].access == token
    ensures Request(cfg, t, ch).clientId == Some(info.clientId)
    ensures ScopesOf(Request(cfg, t, ch)) == info.scopes
    ensures User(cfg, t, ch) == info.userId
    ensures t.states[n].now <= ExchangedAt(cfg, t, ch) + Renewals(ch) * 2_592_000_000 + 3_600_000
  {
    EverythingExplained(cfg, t, n);
    var p := t.states[n].vault[token];
    assert Explained(cfg, t, n, token, p);
    ch :| IsChain(cfg, t, ch) && LastStep(ch) < n && t.events[LastStep(ch)].access == token
      && p == TokensOf(cfg, t, ch).access;
    ChainLifetime(cfg, t, ch);
    ChainShape(cfg, t, ch);
  }

  /** The challenge handed out for a code is the one of the request the code goes back to. */
  lemma ChallengeIsTheRequests(cfg: Config, t: Trace, n: nat, code: Handle, challenge: string)
    returns (a: nat, b: nat, c: nat)
    requires IsRun(cfg, t) && n < |t.states|
    requires ChallengeForCode(t.states[n].vault, code, t.states[n].now) == Some(challenge)
    ensures c < n && CodeFrom(cfg, t, a, b, c, code)
    ensures t.events[a].req.codeChallenge == Some(challenge)
  {
    EverythingExplained(cfg, t, n);
    var p := t.states[n].vault[code];
    assert Explained(cfg, t, n, code, p);
    var a': nat, b': nat, c': nat :| c' < n && CodeFrom(cfg, t, a', b', c', code)
      && p == CodeFor(PendingFor(t.events[a'].req, t.events[a'].verifier, t.states[a'].now),
                      t.events[c'].userId, t.states[c'].now);
    a, b, c := a', b', c';
  }

  /** The tokens that step `n` of a run answers with, if it answers with any. */
  ghost function Answered(t: Trace, n: nat): Option<Tokens>
    requires n < |t.events| && n < |t.states|
  {
    var e, s := t.events[n], t.states[n];
    if e.Exchange? then ExchangeCode(s.vault, e.clientId, e.code, s.now)
    else if e.Renew? then ExchangeRefreshToken(s.vault, e.clientId, e.token, s.now)
    else None
  }

  /** Every token response of a run names the scope of the request its login goes back to, character
      for character. */
  lemma ScopeIsEchoed(cfg: Config, t: Trace, n: nat, tokens: Tokens) returns (ch: Chain)
    requires IsRun(cfg, t) && n < |t.events| && Answered(t, n) == Some(tokens)
    ensures IsChain(cfg, t, ch) && LastStep(ch) == n && tokens == TokensOf(cfg, t, ch)
    ensures tokens.scope == Request(cfg, t, ch).scope.GetOr("")
  {
    EverythingExplained(cfg, t, n);
    assert StepAt(cfg, t, n);
    hide IsChain, AllExplained;
    if t.events[n].Exchange? {
      ch := TokensExchanged(cfg, t, n);
    } else {
      ch := TokensRenewed(cfg, t, n);
    }
    ChainEchoesScope(cfg, t, ch);
  }

  lemma ChainEchoesScope(cfg: Config, t: Trace, ch: Chain)
    requires IsChain(cfg, t, ch)
    ensures TokensOf(cfg, t, ch).scope == Request(cfg, t, ch).scope.GetOr("")
  {
    var req := Request(cfg, t, ch);
    if Given(req.scope) { JoinSplit(req.scope.value); }
  }

  /** MAIN RESULT (login flow): a code leaves by plain redirect exactly when the redirect URI is
      allowed, and through the confirmation page exactly when it needs consent; it goes to the URI
      of the request it was made for, with that request's state, and never anywhere else. */
  lemma CodeLeavesByVerdict(cfg: Config, t: Trace, c: nat) returns (a: nat, b: nat)
    requires IsRun(cfg, t) && c < |t.events| && t.events[c].CallbackEnds?
    requires StepAt(cfg, t, c)
    ensures CodeFrom(cfg, t, a, b, c, t.events[c].code)
    ensures var req := t.events[a].req; var uri := req.redirectUri.GetOr("");
      var response := CallbackResponse(cfg, t.states[c].callbacks[t.events[c].callback].pending, t.events[c].code);
      && (response.Redirect? <==> VerdictOn(cfg, uri) == Allowed)
      && (response.ConfirmPage? <==> VerdictOn(cfg, uri) == NeedsConsent)
      && !response.ServerError?
      && (response.ConfirmPage? ==> cfg.parse(uri).Some? && response.host == cfg.parse(uri).value.host)
      && response.uri == uri && response.code == t.events[c].code && response.state == GivenOnly(req.state)
  {
    EverythingExplained(cfg, t, c);
    var k := t.events[c].callback;
    var p := t.states[c].callbacks[k].pending;
    assert CallbackExplained(cfg, t, c, k, p);
    var a': nat, b': nat :| b' < c && CallbackFrom(cfg, t, a', b', k)
      && p == PendingFor(t.events[a'].req, t.events[a'].verifier, t.states[a'].now);
    a, b := a', b';
  }

  /** With the built-in allow list, a code leaves without a confirmation only to a native application,
      to the user's own machine, or to one of the trusted origins; and never to a URI with a fragment
      or of a blocked scheme. */
  lemma PlainRedirectsAreTrusted(cfg: Config, t: Trace, c: nat) returns (url: Url)
    requires IsRun(cfg, t) && c < |t.events| && t.events[c].CallbackEnds? && StepAt(cfg, t, c)
    requires cfg.allowed == DEFAULT_ALLOWED
    requires forall uri :: cfg.parse(uri).Some? && IsWeb(cfg.parse(uri).value) ==> WellShaped(cfg.parse(uri).value)
    requires CallbackResponse(cfg, t.states[c].callbacks[t.events[c].callback].pending, t.events[c].code).Redirect?
    ensures var pending := t.states[c].callbacks[t.events[c].callback].pending;
      cfg.parse(CallbackResponse(cfg, pending, t.events[c].code).uri) == Some(url)
    ensures url.hash == "" && url.protocol !in BLOCKED_SCHEMES
    ensures !IsWeb(url) || url.hostname in LOOPBACK_HOSTNAMES
      || Names(DEFAULT_PINS, url.origin)
  {
    var a, b := CodeLeavesByVerdict(cfg, t, c);
    var uri := t.events[a].req.redirectUri.GetOr("");
    assert VerdictOn(cfg, uri) == Allowed;
    url := cfg.parse(uri).value;
    if IsWeb(url) && url.hostname !in LOOPBACK_HOSTNAMES {
      assert HostedAt(url, url.origin);
      DefaultsAllowOnlyNamed(url);
    }
  }
}
