/** What the relay accepts and for how long: every answer of the login and token endpoints, decided by
    the steps that came before it. */
module OAuthAcceptance {
  import opened Base
  import opened RedirectUris
  import opened OAuth
  import opened OAuthLineage
  import opened OAuthSealing

  // ---- authorization requests ----

  predicate Filled(s: Option<string>) {
    s.Some? && |s.value| > 0
  }

  /** A request the relay takes: client, redirect URI and challenge are given, the method is S256 if it
      is given, and the URI parses, has no fragment and none of the blocked schemes. */
  predicate WellFormed(cfg: Config, req: AuthorizeRequest) {
    && Filled(req.clientId) && Filled(req.redirectUri) && Filled(req.codeChallenge)
    && (Filled(req.codeChallengeMethod) ==> req.codeChallengeMethod == Some("S256"))
    && var url := cfg.parse(req.redirectUri.value);
    && url.Some? && url.value.hash == ""
    && url.value.protocol !in {"javascript:", "data:", "file:", "blob:", "about:", "vbscript:", "filesystem:"}
  }

  lemma AcceptsIff(cfg: Config, req: AuthorizeRequest)
    ensures Accepts(cfg, req) <==> WellFormed(cfg, req)
  {
    if Filled(req.redirectUri) { VerdictIff(cfg.parse(req.redirectUri.value), cfg.allowed); }
  }

  /** The pending login of a request, sealed at `now`. */
  function PendingOf(req: AuthorizeRequest, verifier: string, now: int): Payload
    requires Filled(req.clientId) && Filled(req.redirectUri) && Filled(req.codeChallenge)
  {
    Pending(verifier, req.clientId.value, req.redirectUri.value, req.codeChallenge.value,
            if Filled(req.state) then req.state else None,
            if Filled(req.scope) then SplitSpaces(req.scope.value) else [],
            now + 600_000)
  }

  /** Step `a` is a request the relay takes, with `h` as the string for it. */
  ghost predicate RequestedAt(cfg: Config, t: Trace, a: nat, h: Handle) {
    && a < |t.events| && a < |t.states| && t.events[a].Authorize?
    && t.events[a].handle == h && WellFormed(cfg, t.events[a].req)
  }

  lemma RequestedIff(cfg: Config, t: Trace, a: nat, h: Handle)
    ensures RequestedAt(cfg, t, a, h) <==> PendingFrom(cfg, t, a, h)
  {
    if a < |t.events| && t.events[a].Authorize? { AcceptsIff(cfg, t.events[a].req); }
  }

  /** What a step seals can be unsealed from then on, and is the only payload under its string. */
  lemma SealedStays(cfg: Config, t: Trace, i: nat, n: nat, h: Handle, p: Payload)
    requires IsRun(cfg, t) && i < n < |t.states| && SealedAt(cfg, t, i, h, p)
    ensures h in t.states[n].vault && t.states[n].vault[h] == p
  {
    hide IsRun, SealedAt;
    assert WasSealed(cfg, t, n, h, p);
    VaultIsWhatWasSealed(cfg, t, n, h, p);
  }

  lemma PendingStays(cfg: Config, t: Trace, a: nat, n: nat, h: Handle)
    requires IsRun(cfg, t) && a < n < |t.states| && PendingFrom(cfg, t, a, h)
    ensures h in t.states[n].vault
    ensures t.states[n].vault[h] == PendingOf(t.events[a].req, t.events[a].verifier, t.states[a].now)
  {
    var p := PendingOf(t.events[a].req, t.events[a].verifier, t.states[a].now);
    assert SealedAt(cfg, t, a, h, p);
    hide SealedAt;
    SealedStays(cfg, t, a, n, h, p);
  }

  /** MAIN RESULT (authorize): a request is answered with a sealed string exactly if it is well formed,
      and the string opens for ten minutes, to what the request said. */
  lemma AuthorizeOpensIff(cfg: Config, t: Trace, a: nat, n: nat, p: Payload)
    requires IsRun(cfg, t) && a < n < |t.states| && t.events[a].Authorize?
    ensures var e := t.events[a]; e.handle in t.states[a + 1].vault <==> WellFormed(cfg, e.req)
    ensures var e := t.events[a]; WellFormed(cfg, e.req) ==>
      (Unseal(t.states[n].vault, e.handle, PendingKind, t.states[n].now) == Some(p) <==>
        p == PendingOf(e.req, e.verifier, t.states[a].now) && t.states[n].now <= t.states[a].now + 600_000)
  {
    AcceptsIff(cfg, t.events[a].req);
    assert StepAt(cfg, t, a);
    RequestedIff(cfg, t, a, t.events[a].handle);
    if WellFormed(cfg, t.events[a].req) { PendingStays(cfg, t, a, n, t.events[a].handle); }
  }

  // ---- callbacks ----

  lemma {:induction false} CallbackStays(cfg: Config, t: Trace, b: nat, n: nat, k: nat)
    requires IsRun(cfg, t) && b <= n < |t.states| && k < |t.states[b].callbacks|
    ensures k < |t.states[n].callbacks| && t.states[n].callbacks[k].pending == t.states[b].callbacks[k].pending
    decreases n
  {
    if b < n {
      CallbackStays(cfg, t, b, n - 1, k);
      assert StepAt(cfg, t, n - 1);
      StepKeepsCallbacks(cfg, t.states[n - 1], t.events[n - 1]);
    }
  }

  /** MAIN RESULT (callback): a callback goes on to the upstream provider exactly if its string was made
      for a well-formed request of the last ten minutes. */
  lemma CallbackOpensIff(cfg: Config, t: Trace, b: nat)
    requires IsRun(cfg, t) && b < |t.events| && t.events[b].CallbackBegins?
    ensures |t.states[b + 1].callbacks| == |t.states[b].callbacks| + 1 <==>
      exists a: nat :: a < b && RequestedAt(cfg, t, a, t.events[b].handle)
        && t.states[b].now <= t.states[a].now + 600_000
  {
    var h := t.events[b].handle;
    assert StepAt(cfg, t, b);
    if a: nat :| a < b && RequestedAt(cfg, t, a, h) && t.states[b].now <= t.states[a].now + 600_000 {
      RequestedIff(cfg, t, a, h);
      PendingStays(cfg, t, a, b, h);
    }
    if |t.states[b + 1].callbacks| == |t.states[b].callbacks| + 1 {
      var a := OpenedFor(cfg, t, b);
      RequestedIff(cfg, t, a, h);
    }
  }

  lemma OpenedFor(cfg: Config, t: Trace, b: nat) returns (a: nat)
    requires IsRun(cfg, t) && b < |t.events| && t.events[b].CallbackBegins?
    requires |t.states[b + 1].callbacks| == |t.states[b].callbacks| + 1
    ensures a < b && PendingFrom(cfg, t, a, t.events[b].handle) && t.states[b].now <= t.states[a].now + 600_000
  {
    var h := t.events[b].handle;
    assert StepAt(cfg, t, b);
    EverythingExplained(cfg, t, b);
    var p := t.states[b].vault[h];
    assert Explained(cfg, t, b, h, p);
    a :| a < b && PendingFrom(cfg, t, a, h)
      && p == PendingFor(t.events[a].req, t.events[a].verifier, t.states[a].now);
  }

  lemma CallbackPending(cfg: Config, t: Trace, a: nat, b: nat, n: nat, k: nat)
    requires IsRun(cfg, t) && CallbackFrom(cfg, t, a, b, k) && b < n < |t.states|
    ensures k < |t.states[n].callbacks|
    ensures t.states[n].callbacks[k].pending == PendingOf(t.events[a].req, t.events[a].verifier, t.states[a].now)
  {
    assert StepAt(cfg, t, b);
    PendingStays(cfg, t, a, b, t.events[b].handle);
    hide IsRun;
    CallbackStays(cfg, t, b + 1, n, k);
  }

  // ---- codes ----

  /** The code of the login for request `a`, sealed when its callback ended in step `c`. */
  function CodeOf(req: AuthorizeRequest, userId: string, now: int): Payload
    requires Filled(req.clientId) && Filled(req.redirectUri) && Filled(req.codeChallenge)
  {
    AuthCode(req.clientId.value, userId, req.codeChallenge.value, req.redirectUri.value,
             if Filled(req.scope) then SplitSpaces(req.scope.value) else [], now + 300_000)
  }

  lemma CodeStays(cfg: Config, t: Trace, a: nat, b: nat, c: nat, n: nat, h: Handle)
    requires IsRun(cfg, t) && CodeFrom(cfg, t, a, b, c, h) && c < n < |t.states|
    ensures h in t.states[n].vault
    ensures t.states[n].vault[h] == CodeOf(t.events[a].req, t.events[c].userId, t.states[c].now)
  {
    assert StepAt(cfg, t, c);
    CallbackPending(cfg, t, a, b, c, t.events[c].callback);
    var p := CodeOf(t.events[a].req, t.events[c].userId, t.states[c].now);
    assert SealedAt(cfg, t, c, h, p);
    hide SealedAt, IsRun;
    SealedStays(cfg, t, c, n, h, p);
  }

  /** MAIN RESULT (challenge): for five minutes a code's challenge is handed out, and it is the one of
      the request behind the code. */
  lemma ChallengeIff(cfg: Config, t: Trace, a: nat, b: nat, c: nat, n: nat, h: Handle, challenge: string)
    requires IsRun(cfg, t) && CodeFrom(cfg, t, a, b, c, h) && c < n < |t.states|
    ensures ChallengeForCode(t.states[n].vault, h, t.states[n].now) == Some(challenge) <==>
      t.events[a].req.codeChallenge == Some(challenge) && t.states[n].now <= t.states[c].now + 300_000
  {
    CodeStays(cfg, t, a, b, c, n, h);
  }

  // ---- tokens ----

  /** The tokens of a client and user, made at `now`. */
  function TokensMade(clientId: string, userId: string, scopes: seq<string>, now: int): Tokens {
    Tokens(Access(clientId, userId, scopes, now + 3_600_000), Refresh(clientId, userId, scopes, now + 2_592_000_000),
           3600, JoinSpaces(scopes))
  }

  /** MAIN RESULT (exchange): a code is exchanged exactly for the client that asked for it, within five
      minutes; the tokens are that client's, for the user of the login and the scopes of the request. */
  lemma ExchangeIff(cfg: Config, t: Trace, a: nat, b: nat, c: nat, n: nat)
    requires IsRun(cfg, t) && n < |t.events| && t.events[n].Exchange?
    requires CodeFrom(cfg, t, a, b, c, t.events[n].code) && c < n
    ensures Answered(t, n).Some? <==>
      t.events[a].req.clientId == Some(t.events[n].clientId) && t.states[n].now <= t.states[c].now + 300_000
    ensures Answered(t, n).Some? ==>
      Answered(t, n).value ==
        TokensMade(t.events[n].clientId, t.events[c].userId, ScopesOf(t.events[a].req), t.states[n].now)
  {
    CodeStays(cfg, t, a, b, c, n, t.events[n].code);
  }

  /** A string that is no code of the run is never exchanged. */
  lemma OnlyCodesExchanged(cfg: Config, t: Trace, n: nat) returns (a: nat, b: nat, c: nat)
    requires IsRun(cfg, t) && n < |t.events| && t.events[n].Exchange? && Answered(t, n).Some?
    ensures CodeFrom(cfg, t, a, b, c, t.events[n].code) && c < n
  {
    EverythingExplained(cfg, t, n);
    assert StepAt(cfg, t, n);
    var ch := TokensExchanged(cfg, t, n);
    a, b, c := ch.a, ch.b, ch.c;
  }

  /** What a step answers with is sealed under the strings it answers with. */
  lemma AnsweredStays(cfg: Config, t: Trace, x: nat, n: nat)
    requires IsRun(cfg, t) && x < |t.events| && x < n < |t.states| && Answered(t, x).Some?
    ensures t.events[x].access in t.states[n].vault && t.events[x].refresh in t.states[n].vault
    ensures t.states[n].vault[t.events[x].access] == Answered(t, x).value.access
    ensures t.states[n].vault[t.events[x].refresh] == Answered(t, x).value.refresh
  {
    var e, tokens := t.events[x], Answered(t, x).value;
    assert SealedAt(cfg, t, x, e.access, tokens.access) && SealedAt(cfg, t, x, e.refresh, tokens.refresh);
    hide SealedAt, IsRun;
    SealedStays(cfg, t, x, n, e.access, tokens.access);
    SealedStays(cfg, t, x, n, e.refresh, tokens.refresh);
  }

  /** What the last step of a chain answered with. */
  ghost function Made(cfg: Config, t: Trace, ch: Chain): Tokens
    requires IsChain(cfg, t, ch)
  {
    ChainShape(cfg, t, ch);
    var req := Request(cfg, t, ch);
    TokensMade(req.clientId.GetOr(""), User(cfg, t, ch), ScopesOf(req), t.states[LastStep(ch)].now)
  }

  lemma {:induction false} ChainAnswers(cfg: Config, t: Trace, ch: Chain)
    requires IsRun(cfg, t) && IsChain(cfg, t, ch)
    ensures LastStep(ch) < |t.events| && Answered(t, LastStep(ch)) == Some(Made(cfg, t, ch))
  {
    ChainShape(cfg, t, ch);
    match ch
    case Login(a, b, c, x) => ExchangeIff(cfg, t, a, b, c, x);
    case Renewed(prev, r) =>
      ChainAnswers(cfg, t, prev);
      ChainShape(cfg, t, prev);
      AnsweredStays(cfg, t, LastStep(prev), r);
  }

  /** MAIN RESULT (refresh): a refresh token is renewed exactly for the client it was made for, within
      thirty days; the tokens keep client, user and scopes. */
  lemma RenewIff(cfg: Config, t: Trace, ch: Chain, n: nat)
    requires IsRun(cfg, t) && n < |t.events| && t.events[n].Renew? && IsChain(cfg, t, ch) && LastStep(ch) < n
    requires t.events[LastStep(ch)].Exchange? || t.events[LastStep(ch)].Renew?
    requires t.events[n].token == t.events[LastStep(ch)].refresh
    ensures Answered(t, n).Some? <==>
      Request(cfg, t, ch).clientId == Some(t.events[n].clientId)
      && t.states[n].now <= t.states[LastStep(ch)].now + 2_592_000_000
    ensures Answered(t, n).Some? ==>
      Answered(t, n).value ==
        TokensMade(t.events[n].clientId, User(cfg, t, ch), ScopesOf(Request(cfg, t, ch)), t.states[n].now)
  {
    ChainAnswers(cfg, t, ch);
    AnsweredStays(cfg, t, LastStep(ch), n);
    ChainClient(cfg, t, ch);
  }

  lemma {:induction false} ChainClient(cfg: Config, t: Trace, ch: Chain)
    requires IsChain(cfg, t, ch)
    ensures Request(cfg, t, ch).clientId.Some?
  {
    ChainShape(cfg, t, ch);
  }

  /** A string that is no refresh token of the run is never renewed. */
  lemma OnlyRefreshTokensRenewed(cfg: Config, t: Trace, n: nat) returns (ch: Chain)
    requires IsRun(cfg, t) && n < |t.events| && t.events[n].Renew? && Answered(t, n).Some?
    ensures IsChain(cfg, t, ch) && LastStep(ch) < n
    ensures t.events[LastStep(ch)].Exchange? || t.events[LastStep(ch)].Renew?
    ensures t.events[n].token == t.events[LastStep(ch)].refresh
  {
    EverythingExplained(cfg, t, n);
    assert StepAt(cfg, t, n);
    var all := TokensRenewed(cfg, t, n);
    ch := all.prev;
    ChainShape(cfg, t, ch);
  }

  /** MAIN RESULT (verify): the access token of a chain verifies for one hour, exactly, and for the
      client, scopes and user of the login behind it. */
  lemma VerifyIff(cfg: Config, t: Trace, ch: Chain, n: nat, info: AuthInfo)
    requires IsRun(cfg, t) && n < |t.states| && IsChain(cfg, t, ch) && LastStep(ch) < n
    requires LastStep(ch) < |t.events| && (t.events[LastStep(ch)].Exchange? || t.events[LastStep(ch)].Renew?)
    ensures VerifyAccessToken(t.states[n].vault, t.events[LastStep(ch)].access, t.states[n].now) == Some(info) <==>
      && t.states[n].now <= t.states[LastStep(ch)].now + 3_600_000
      && Request(cfg, t, ch).clientId == Some(info.clientId) && info.userId == User(cfg, t, ch)
      && info.scopes == ScopesOf(Request(cfg, t, ch))
      && info.expiresAtSeconds == (t.states[LastStep(ch)].now + 3_600_000) / 1000
  {
    ChainAnswers(cfg, t, ch);
    AnsweredStays(cfg, t, LastStep(ch), n);
    ChainClient(cfg, t, ch);
  }

  // ---- logins that stay on the user's machine ----

  /** MAIN RESULT (local login): an otherwise complete request whose redirect URI only the user's own
      machine can receive is taken under any allow list, and its code leaves at once, by plain
      redirect. */
  lemma LocalLoginNeedsNoConsent(cfg: Config, t: Trace, a: nat, b: nat, c: nat)
    requires IsRun(cfg, t) && a < |t.events| && t.events[a].Authorize?
    requires var req := t.events[a].req;
      && Filled(req.clientId) && Filled(req.redirectUri) && Filled(req.codeChallenge)
      && (Filled(req.codeChallengeMethod) ==> req.codeChallengeMethod == Some("S256"))
      && Acceptable(cfg.parse(req.redirectUri.value)) && StaysLocal(cfg.parse(req.redirectUri.value).value)
    ensures t.events[a].handle in t.states[a + 1].vault
    ensures c < |t.events| && t.events[c].CallbackEnds? && CodeFrom(cfg, t, a, b, c, t.events[c].code) ==>
      && t.events[c].callback < |t.states[c].callbacks|
      && t.states[c].callbacks[t.events[c].callback].pending.Pending?
      && CallbackResponse(cfg, t.states[c].callbacks[t.events[c].callback].pending, t.events[c].code) ==
           Redirect(t.events[a].req.redirectUri.value, t.events[c].code,
                    if Filled(t.events[a].req.state) then t.events[a].req.state else None)
  {
    var req := t.events[a].req;
    AuthorizeOpensIff(cfg, t, a, a + 1, PendingOf(req, t.events[a].verifier, t.states[a].now));
    VerdictIff(cfg.parse(req.redirectUri.value), cfg.allowed);
    if c < |t.events| && t.events[c].CallbackEnds? && CodeFrom(cfg, t, a, b, c, t.events[c].code) {
      CallbackPending(cfg, t, a, b, c, t.events[c].callback);
    }
  }
}
