/** What the relay has sealed is what it can unseal, for as long as it lives. */
module OAuthSealing {
  import opened Base
  import opened OAuth

  /** Step `i` seals the payload `p` as the string `h`. */
  ghost predicate SealedAt(cfg: Config, t: Trace, i: nat, h: Handle, p: Payload) {
    i < |t.events| && i < |t.states| && Seals(cfg, t.states[i], t.events[i], h, p)
  }

  ghost predicate Seals(cfg: Config, s: State, e: Event, h: Handle, p: Payload) {
    match e
    case Authorize(req, verifier, handle) =>
      handle == h && Accepts(cfg, req) && p == PendingFor(req, verifier, s.now)
    case CallbackEnds(k, userId, code) =>
      && code == h && k < |s.callbacks| && s.callbacks[k].pending.Pending?
      && p == CodeFor(s.callbacks[k].pending, userId, s.now)
    case Exchange(clientId, code, access, refresh) =>
      IsToken(ExchangeCode(s.vault, clientId, code, s.now), access, refresh, h, p)
    case Renew(clientId, token, access, refresh) =>
      IsToken(ExchangeRefreshToken(s.vault, clientId, token, s.now), access, refresh, h, p)
    case _ => false
  }

  predicate IsToken(tokens: Option<Tokens>, access: Handle, refresh: Handle, h: Handle, p: Payload) {
    && tokens.Some?
    && ((h == access && p == tokens.value.access) || (h == refresh && p == tokens.value.refresh))
  }

  ghost predicate WasSealed(cfg: Config, t: Trace, n: nat, h: Handle, p: Payload) {
    exists i: nat :: i < n && SealedAt(cfg, t, i, h, p)
  }

  predicate Contains(v: Vault, h: Handle, p: Payload) {
    h in v && v[h] == p
  }

  lemma StepSeals(cfg: Config, s: State, e: Event, h: Handle, p: Payload)
    requires Enabled(s, e)
    ensures Contains(Next(cfg, s, e).vault, h, p) <==> Contains(s.vault, h, p) || Seals(cfg, s, e, h, p)
  {
    hide Accepts, PendingFor, CodeFor, ExchangeCode, ExchangeRefreshToken;
  }

  lemma {:induction false} VaultIsWhatWasSealed(cfg: Config, t: Trace, n: nat, h: Handle, p: Payload)
    requires IsRun(cfg, t) && n < |t.states|
    ensures Contains(t.states[n].vault, h, p) <==> WasSealed(cfg, t, n, h, p)
  {
    hide Enabled, Next, Seals;
    if n > 0 {
      VaultIsWhatWasSealed(cfg, t, n - 1, h, p);
      assert StepAt(cfg, t, n - 1);
      StepSeals(cfg, t.states[n - 1], t.events[n - 1], h, p);
      if WasSealed(cfg, t, n, h, p) {
        var i: nat :| i < n && SealedAt(cfg, t, i, h, p);
        assert i < n - 1 ==> WasSealed(cfg, t, n - 1, h, p);
      }
      if Contains(t.states[n].vault, h, p) && !Contains(t.states[n - 1].vault, h, p) {
        assert SealedAt(cfg, t, n - 1, h, p);
      }
    }
  }

  /** MAIN RESULT: at any time of any run, unsealing gives a payload exactly if an earlier step of the
      run sealed this payload as this string, it is of the expected type, and it has not expired; so a
      sealed payload comes back unchanged until its time is up, and nothing else ever does. */
  lemma UnsealsIffSealed(cfg: Config, t: Trace, n: nat, h: Handle, kind: Kind, p: Payload)
    requires IsRun(cfg, t) && n < |t.states|
    ensures Unseal(t.states[n].vault, h, kind, t.states[n].now) == Some(p)
      <==> WasSealed(cfg, t, n, h, p) && KindOf(p) == kind && t.states[n].now <= p.expiresAt
  {
    VaultIsWhatWasSealed(cfg, t, n, h, p);
  }

  /** No string is sealed twice, nor for two payloads. */
  lemma SealedOnce(cfg: Config, t: Trace, i: nat, j: nat, h: Handle, p: Payload, q: Payload)
    requires IsRun(cfg, t) && SealedAt(cfg, t, i, h, p) && SealedAt(cfg, t, j, h, q)
    ensures i == j && p == q
  {
    hide Accepts, PendingFor, CodeFor, ExchangeCode, ExchangeRefreshToken;
    assert StepAt(cfg, t, i) && StepAt(cfg, t, j);
    if i < j {
      assert WasSealed(cfg, t, j, h, p);
      VaultIsWhatWasSealed(cfg, t, j, h, p);
    } else if j < i {
      assert WasSealed(cfg, t, i, h, q);
      VaultIsWhatWasSealed(cfg, t, i, h, q);
    }
  }
}
