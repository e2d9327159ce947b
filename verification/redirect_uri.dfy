/** Which redirect URIs get an authorization code without asking the user. */
module RedirectUris {
  import opened Base

  /** What the URL parser gives for a valid URL; the parser itself is not part of the model. */
  datatype Url = Url(protocol: string, hash: string, hostname: string, host: string, origin: string, pathname: string)

  datatype Verdict = Allowed | NeedsConsent | Invalid

  const LOOPBACK_HOSTNAMES: set<string> := {"localhost", "127.0.0.1", "[::1]"}

  const BLOCKED_SCHEMES: set<string> :=
    {"javascript:", "data:", "file:", "blob:", "about:", "vbscript:", "filesystem:"}

  const DEFAULT_ALLOWED: seq<string> := [
    "https://claude.ai/api/mcp/auth_callback",
    "https://claude.com/api/mcp/auth_callback",
    "https://chatgpt.com/connector_platform_oauth_redirect",
    "https://chatgpt.com/connector/oauth/*",
    "https://www.cursor.com/agents/mcp/oauth/callback"
  ]

  predicate EndsWithStar(entry: string) {
    entry != "" && entry[|entry| - 1] == '*'
  }

  /** A trailing `*` matches any suffix. */
  predicate Matches(entry: string, target: string) {
    if EndsWithStar(entry) then entry[..|entry| - 1] <= target else target == entry
  }

  predicate IsWeb(url: Url) {
    url.protocol == "http:" || url.protocol == "https:"
  }

  function CheckRedirectUri(url: Option<Url>, allowed: seq<string>): Verdict {
    if url.None? then Invalid
    else if url.value.protocol in BLOCKED_SCHEMES || url.value.hash != "" then Invalid
    else if !IsWeb(url.value) || url.value.hostname in LOOPBACK_HOSTNAMES then Allowed
    else if exists entry :: entry in allowed && Matches(entry, url.value.origin + url.value.pathname) then Allowed
    else NeedsConsent
  }

  // ---- the verdict on every URI ----

  /** The entry is some beginning of the target and a star; or it is the target, which has no star at
      its end. */
  ghost predicate EntryCovers(entry: string, target: string) {
    || (exists n :: 0 <= n <= |target| && entry == target[..n] + "*")
    || (entry == target && forall n :: 0 <= n < |target| && target[n] == '*' ==> n < |target| - 1)
  }

  /** The URI parses, has no fragment and none of the blocked schemes. */
  predicate Acceptable(url: Option<Url>) {
    && url.Some? && url.value.hash == ""
    && url.value.protocol !in {"javascript:", "data:", "file:", "blob:", "about:", "vbscript:", "filesystem:"}
  }

  /** Only the user's own machine can receive it: a native application's scheme, or a loopback host. */
  predicate StaysLocal(url: Url) {
    url.protocol !in {"http:", "https:"} || url.hostname in {"localhost", "127.0.0.1", "[::1]"}
  }

  ghost predicate SomeCovers(allowed: seq<string>, url: Url) {
    exists entry :: entry in allowed && EntryCovers(entry, url.origin + url.pathname)
  }

  lemma MatchesIffCovers(entry: string, target: string)
    ensures Matches(entry, target) <==> EntryCovers(entry, target)
  {
    if EndsWithStar(entry) && Matches(entry, target) {
      var n := |entry| - 1;
      assert entry == target[..n] + "*";
    }
  }

  /** MAIN RESULT: the verdict on every URI under every allow list. It is invalid exactly if it is not
      acceptable; of the acceptable ones, those that stay local are allowed under any list, and the
      others exactly if some entry covers them. */
  lemma VerdictIff(url: Option<Url>, allowed: seq<string>)
    ensures CheckRedirectUri(url, allowed) == Invalid <==> !Acceptable(url)
    ensures CheckRedirectUri(url, allowed) == Allowed <==>
      Acceptable(url) && (StaysLocal(url.value) || SomeCovers(allowed, url.value))
    ensures CheckRedirectUri(url, allowed) == NeedsConsent <==>
      Acceptable(url) && !StaysLocal(url.value) && !SomeCovers(allowed, url.value)
  {
    if url.Some? {
      var target := url.value.origin + url.value.pathname;
      forall entry ensures Matches(entry, target) <==> EntryCovers(entry, target) {
        MatchesIffCovers(entry, target);
      }
      hide EntryCovers, Matches;
    }
  }

  // ---- an allow list trusts the origins it names ----

  predicate NoSlash(s: string) {
    forall i :: 0 <= i < |s| ==> s[i] != '/'
  }

  function Origin(scheme: string, host: string): string {
    scheme + "//" + host
  }

  /** The shape the URL parser gives the parts of an http or https URL. */
  ghost predicate WellShaped(url: Url) {
    && NoSlash(url.protocol) && NoSlash(url.host)
    && url.origin == Origin(url.protocol, url.host)
    && url.pathname != "" && url.pathname[0] == '/'
  }

  /** Everything before the entry's `*`, or all of it. */
  function FixedPart(entry: string): string {
    if EndsWithStar(entry) then entry[..|entry| - 1] else entry
  }

  /** The entry names a whole origin: its fixed part goes on past the host with a slash. */
  ghost predicate Pins(entry: string, scheme: string, host: string) {
    NoSlash(scheme) && NoSlash(host) && Origin(scheme, host) + "/" <= FixedPart(entry)
  }

  /** Two texts with the same beginning have the same part before the first slash. */
  lemma SameHead(x: string, u: string, y: string, v: string)
    requires NoSlash(x) && NoSlash(y) && x + "/" + u <= y + "/" + v
    ensures x == y && u <= v
  {
    var a, b := x + "/" + u, y + "/" + v;
    assert a[|x|] == '/' && b[|y|] == '/' && a == b[..|a|];
    assert forall i :: 0 <= i < |x| ==> a[i] == x[i] != '/';
    assert forall i :: 0 <= i < |y| ==> b[i] == y[i] != '/';
    assert x == a[..|x|] && y == b[..|y|];
    assert u == a[|x| + 1..] && v == b[|y| + 1..];
  }

  lemma Regrouped(scheme: string, host: string, rest: string)
    ensures Origin(scheme, host) + "/" + rest == scheme + "/" + ("/" + (host + "/" + rest))
  {
  }

  lemma SameOrigin(scheme: string, host: string, scheme': string, host': string, path: string)
    requires NoSlash(scheme) && NoSlash(host) && NoSlash(scheme') && NoSlash(host')
    requires Origin(scheme, host) + "/" + "" <= Origin(scheme', host') + "/" + path
    ensures scheme == scheme' && host == host'
  {
    var tail, tail' := host + "/" + "", host' + "/" + path;
    Regrouped(scheme, host, "");
    Regrouped(scheme', host', path);
    hide Origin;
    SameHead(scheme, "/" + tail, scheme', "/" + tail');
    assert tail == ("/" + tail)[1..] && tail' == ("/" + tail')[1..];
    SameHead(host, "", host', path);
  }

  lemma PinnedEntryMatchesOnlyItsOrigin(entry: string, scheme: string, host: string, url: Url)
    requires Pins(entry, scheme, host) && WellShaped(url) && Matches(entry, url.origin + url.pathname)
    ensures url.origin == Origin(scheme, host)
  {
    hide Origin;
    var path := url.pathname[1..];
    assert url.origin + url.pathname == url.origin + "/" + path;
    var pin := Origin(scheme, host) + "/";
    assert pin + "" == pin && pin <= url.origin + url.pathname;
    SameOrigin(scheme, host, url.protocol, url.host, path);
  }

  /** MAIN RESULT: if every entry of the allow list pins an origin, a hosted web URI gets a code
      without consent only at one of these origins, whatever its path and however its host begins. */
  lemma OnlyPinnedOriginsAllowed(url: Url, allowed: seq<string>, pins: seq<(string, string)>)
    requires WellShaped(url) && IsWeb(url) && url.hostname !in LOOPBACK_HOSTNAMES
    requires |pins| == |allowed| && forall i :: 0 <= i < |pins| ==> Pins(allowed[i], pins[i].0, pins[i].1)
    requires CheckRedirectUri(Some(url), allowed) == Allowed
    ensures exists i :: 0 <= i < |pins| && url.origin == Origin(pins[i].0, pins[i].1)
  {
    var entry :| entry in allowed && Matches(entry, url.origin + url.pathname);
    var i :| 0 <= i < |allowed| && allowed[i] == entry;
    PinnedEntryMatchesOnlyItsOrigin(entry, pins[i].0, pins[i].1, url);
  }

  /** A hosted web URI of this origin. */
  ghost predicate HostedAt(url: Url, origin: string) {
    WellShaped(url) && IsWeb(url) && url.hostname !in LOOPBACK_HOSTNAMES && url.origin == origin
  }

  type Parser = string -> Option<Url>

  /** The string is a hosted web URI of this origin. */
  ghost predicate IsHostedUri(parse: Parser, uri: string, origin: string) {
    parse(uri).Some? && HostedAt(parse(uri).value, origin)
  }

  /** Some hosted web URI of this origin gets a code without consent. */
  ghost predicate Trusts(parse: Parser, allowed: seq<string>, origin: string) {
    exists uri :: IsHostedUri(parse, uri, origin) && CheckRedirectUri(parse(uri), allowed) == Allowed
  }

  /** The entry's fixed part is itself a hosted web URI, written as the parser writes one: no
      upper-case host, no query, no fragment. */
  ghost predicate Canonical(parse: Parser, entry: string, origin: string) {
    var f := FixedPart(entry);
    && IsHostedUri(parse, f, origin)
    && parse(f).value.hash == "" && origin + parse(f).value.pathname == f
  }

  ghost predicate AllCanonical(parse: Parser, allowed: seq<string>, origins: seq<string>) {
    |origins| == |allowed| && forall i :: 0 <= i < |allowed| ==> Canonical(parse, allowed[i], origins[i])
  }

  lemma CanonicalPins(parse: Parser, entry: string, origin: string)
    requires Canonical(parse, entry, origin)
    ensures parse(FixedPart(entry)).Some?
    ensures var url := parse(FixedPart(entry)).value;
      Pins(entry, url.protocol, url.host) && origin == Origin(url.protocol, url.host)
  {
    var url := parse(FixedPart(entry)).value;
    assert url.pathname == "/" + url.pathname[1..];
    assert FixedPart(entry) == (origin + "/") + url.pathname[1..];
  }

  /** A canonical entry lets its own fixed part through. */
  lemma CanonicalIsTrusted(parse: Parser, allowed: seq<string>, entry: string, origin: string)
    requires entry in allowed && Canonical(parse, entry, origin)
    ensures Trusts(parse, allowed, origin)
  {
    var uri := FixedPart(entry);
    assert Matches(entry, uri);
    assert CheckRedirectUri(parse(uri), allowed) == Allowed;
  }

  /** MAIN RESULT: whatever the parser, a list whose entries are canonical trusts exactly the origins
      of its entries. */
  lemma TrustsIffNamed(parse: Parser, allowed: seq<string>, origins: seq<string>, origin: string)
    requires AllCanonical(parse, allowed, origins)
    ensures Trusts(parse, allowed, origin) <==> origin in origins
  {
    hide WellShaped, IsWeb, Origin, Pins, Canonical;
    if uri :| IsHostedUri(parse, uri, origin) && CheckRedirectUri(parse(uri), allowed) == Allowed {
      var url := parse(uri).value;
      var entry :| entry in allowed && Matches(entry, url.origin + url.pathname);
      var i :| 0 <= i < |allowed| && allowed[i] == entry;
      CanonicalPins(parse, entry, origins[i]);
      var named := parse(FixedPart(entry)).value;
      PinnedEntryMatchesOnlyItsOrigin(entry, named.protocol, named.host, url);
    }
    if i :| 0 <= i < |origins| && origins[i] == origin {
      CanonicalIsTrusted(parse, allowed, allowed[i], origin);
    }
  }

  /** What the parser writes for a hosted web URI without its query and fragment parses to itself. */
  ghost predicate Stable(parse: Parser) {
    forall uri, origin :: IsHostedUri(parse, uri, origin) ==>
      Canonical(parse, origin + parse(uri).value.pathname, origin)
  }

  /** An entry without a star lets some hosted web URI of an origin through exactly if it is canonical;
      any other such entry, say with an upper-case host or a query, never matches. */
  lemma ExactEntryMatchesIff(parse: Parser, entry: string, origin: string)
    requires Stable(parse) && !EndsWithStar(entry)
    ensures Trusts(parse, [entry], origin) <==> Canonical(parse, entry, origin)
  {
    if uri :| IsHostedUri(parse, uri, origin) && CheckRedirectUri(parse(uri), [entry]) == Allowed {
      assert entry == origin + parse(uri).value.pathname;
    }
    if Canonical(parse, entry, origin) {
      CanonicalIsTrusted(parse, [entry], entry, origin);
    }
  }

  ghost predicate Names(pins: seq<(string, string)>, origin: string) {
    exists i :: 0 <= i < |pins| && origin == Origin(pins[i].0, pins[i].1)
  }

  /** The parser takes the entry's fixed part apart after the host. */
  ghost predicate Splits(parse: Parser, entry: string, scheme: string, host: string) {
    var f, origin := FixedPart(entry), Origin(scheme, host);
    |origin| <= |f| && parse(f) == Some(Url(scheme, "", host, host, origin, f[|origin|..]))
  }

  lemma SplitIsCanonical(parse: Parser, entry: string, scheme: string, host: string)
    requires Pins(entry, scheme, host) && Splits(parse, entry, scheme, host)
    requires (scheme == "http:" || scheme == "https:") && host !in LOOPBACK_HOSTNAMES
    ensures Canonical(parse, entry, Origin(scheme, host))
  {
    var f, origin := FixedPart(entry), Origin(scheme, host);
    hide Origin;
    assert (origin + "/")[|origin|] == '/';
    assert f == origin + f[|origin|..];
  }

  const DEFAULT_PINS: seq<(string, string)> := [
    ("https:", "claude.ai"), ("https:", "claude.com"), ("https:", "chatgpt.com"),
    ("https:", "chatgpt.com"), ("https:", "www.cursor.com")
  ]

  lemma EntryPins(entry: string, host: string, pin: string)
    requires NoSlash(host) && pin == Origin("https:", host) + "/" && pin < entry
    ensures Pins(entry, "https:", host)
  {
  }

  lemma ClaudePins()
    ensures Pins(DEFAULT_ALLOWED[0], "https:", "claude.ai")
  {
    EntryPins(DEFAULT_ALLOWED[0], "claude.ai", "https://claude.ai/");
  }

  lemma ClaudeComPins()
    ensures Pins(DEFAULT_ALLOWED[1], "https:", "claude.com")
  {
    EntryPins(DEFAULT_ALLOWED[1], "claude.com", "https://claude.com/");
  }

  lemma ChatGptPins()
    ensures Pins(DEFAULT_ALLOWED[2], "https:", "chatgpt.com")
  {
    EntryPins(DEFAULT_ALLOWED[2], "chatgpt.com", "https://chatgpt.com/");
  }

  lemma ChatGptConnectorPins()
    ensures Pins(DEFAULT_ALLOWED[3], "https:", "chatgpt.com")
  {
    EntryPins(DEFAULT_ALLOWED[3], "chatgpt.com", "https://chatgpt.com/");
  }

  lemma CursorPins()
    ensures Pins(DEFAULT_ALLOWED[4], "https:", "www.cursor.com")
  {
    EntryPins(DEFAULT_ALLOWED[4], "www.cursor.com", "https://www.cursor.com/");
  }

  lemma DefaultsPin()
    ensures forall i :: 0 <= i < |DEFAULT_PINS| ==> Pins(DEFAULT_ALLOWED[i], DEFAULT_PINS[i].0, DEFAULT_PINS[i].1)
  {
    ClaudePins();
    ClaudeComPins();
    ChatGptPins();
    ChatGptConnectorPins();
    CursorPins();
    hide Pins;
  }

  /** A URI allowed by the built-in list alone is at one of the origins the list names. */
  lemma DefaultsAllowOnlyNamed(url: Url)
    requires HostedAt(url, url.origin) && CheckRedirectUri(Some(url), DEFAULT_ALLOWED) == Allowed
    ensures Names(DEFAULT_PINS, url.origin)
  {
    DefaultsPin();
    hide Pins, Origin, CheckRedirectUri, WellShaped, IsWeb;
    OnlyPinnedOriginsAllowed(url, DEFAULT_ALLOWED, DEFAULT_PINS);
  }

  lemma DefaultIsCanonical(parse: Parser, i: nat)
    requires i < |DEFAULT_PINS| && Splits(parse, DEFAULT_ALLOWED[i], DEFAULT_PINS[i].0, DEFAULT_PINS[i].1)
    ensures Canonical(parse, DEFAULT_ALLOWED[i], Origin(DEFAULT_PINS[i].0, DEFAULT_PINS[i].1))
  {
    DefaultsPin();
    hide Pins, Splits, Canonical, Origin;
    SplitIsCanonical(parse, DEFAULT_ALLOWED[i], DEFAULT_PINS[i].0, DEFAULT_PINS[i].1);
  }

  /** The built-in list trusts the four origins it names and no other, if the parser splits its entries
      after their hosts. */
  lemma DefaultsTrustFourOrigins(parse: Parser, origin: string)
    requires forall i :: 0 <= i < |DEFAULT_PINS| ==>
      Splits(parse, DEFAULT_ALLOWED[i], DEFAULT_PINS[i].0, DEFAULT_PINS[i].1)
    ensures Trusts(parse, DEFAULT_ALLOWED, origin) <==> Names(DEFAULT_PINS, origin)
  {
    hide Trusts, Splits, Canonical, Origin;
    var origins := seq(|DEFAULT_PINS|, i requires 0 <= i < |DEFAULT_PINS| =>
      Origin(DEFAULT_PINS[i].0, DEFAULT_PINS[i].1));
    forall i | 0 <= i < |DEFAULT_ALLOWED| ensures Canonical(parse, DEFAULT_ALLOWED[i], origins[i]) {
      DefaultIsCanonical(parse, i);
    }
    TrustsIffNamed(parse, DEFAULT_ALLOWED, origins, origin);
  }
}
