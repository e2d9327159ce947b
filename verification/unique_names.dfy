/** When the names in a user's tool list can clash. */
module UniqueNames {
  import opened Base
  import opened Wire
  import opened Names
  import opened Registries
  import opened RelayMcp
  import A = AgentTools

  // ---- distinct values in a concatenation ----

  function Concat<T>(blocks: seq<seq<T>>): seq<T> {
    if blocks == [] then []
    else
      var n := |blocks| - 1;
      Concat(blocks[..n]) + blocks[n]
  }

  ghost predicate Disjoint<T>(x: seq<T>, y: seq<T>) {
    forall v :: v in x ==> v !in y
  }

  ghost predicate BlocksDistinct<T>(blocks: seq<seq<T>>) {
    && (forall k :: 0 <= k < |blocks| ==> Distinct(blocks[k]))
    && (forall j, k :: 0 <= j < k < |blocks| ==> Disjoint(blocks[j], blocks[k]))
  }

  lemma DistinctAppendIff<T>(x: seq<T>, y: seq<T>)
    ensures Distinct(x + y) <==> Distinct(x) && Distinct(y) && Disjoint(x, y)
  {
    var z := x + y;
    if Distinct(z) {
      forall i, j | 0 <= i < j < |y| ensures y[i] != y[j] {
        assert z[|x| + i] != z[|x| + j];
      }
      forall i, j | 0 <= i < j < |x| ensures x[i] != x[j] {
        assert z[i] != z[j];
      }
      forall i, j | 0 <= i < |x| && 0 <= j < |y| ensures x[i] != y[j] {
        assert z[i] != z[|x| + j];
      }
    }
    if Distinct(x) && Distinct(y) && Disjoint(x, y) {
      forall i, j | 0 <= i < j < |z| ensures z[i] != z[j] {
        if i < |x| <= j { assert x[i] in x && y[j - |x|] in y; }
      }
    }
  }

  lemma {:induction false} InConcat<T>(blocks: seq<seq<T>>, v: T)
    ensures v in Concat(blocks) <==> exists k :: 0 <= k < |blocks| && v in blocks[k]
  {
    if blocks != [] {
      var n := |blocks| - 1;
      InConcat(blocks[..n], v);
      if k :| 0 <= k < |blocks| && v in blocks[k] {
        if k < n { assert v in blocks[..n][k]; }
      }
    }
  }

  lemma {:induction false} DistinctConcatIff<T>(blocks: seq<seq<T>>)
    ensures Distinct(Concat(blocks)) <==> BlocksDistinct(blocks)
  {
    if blocks != [] {
      var n := |blocks| - 1;
      var before, last := blocks[..n], blocks[n];
      DistinctConcatIff(before);
      DistinctAppendIff(Concat(before), last);
      forall v ensures v in Concat(before) <==> exists k :: 0 <= k < n && v in blocks[k] {
        InConcat(before, v);
        if k :| 0 <= k < n && v in blocks[k] { assert v in before[k]; }
      }
      if BlocksDistinct(blocks) {
        assert forall j, k :: 0 <= j < k < n ==> Disjoint(before[j], before[k]);
        assert Disjoint(Concat(before), last);
      }
      if BlocksDistinct(before) && Distinct(last) && Disjoint(Concat(before), last) {
        forall j, k | 0 <= j < k < |blocks| ensures Disjoint(blocks[j], blocks[k]) {
          if k < n { assert Disjoint(before[j], before[k]); }
        }
        forall k | 0 <= k < |blocks| ensures Distinct(blocks[k]) {
          if k < n { assert Distinct(before[k]); }
        }
      }
    }
  }

  // ---- the names of a list, block by block ----

  /** A connected device: its name and the servers it runs. */
  datatype Site = Site(name: string, servers: seq<A.LocalServer>)

  /** What a listed name starts with, before the tool's own name. */
  function Prefix(multiDevice: bool, device: string, server: string): string {
    (if multiDevice then device + SEP else "") + server + SEP
  }

  function ToolNames(tools: seq<A.LocalTool>): seq<string> {
    seq(|tools|, i requires 0 <= i < |tools| => tools[i].name)
  }

  function Prefixed(prefix: string, names: seq<string>): seq<string> {
    seq(|names|, i requires 0 <= i < |names| => prefix + names[i])
  }

  function ServerBlock(multiDevice: bool, device: string, server: A.LocalServer, listing: A.Listing): seq<string> {
    if listing.Some? then Prefixed(Prefix(multiDevice, device, server.name), ToolNames(listing.value)) else []
  }

  function ServerBlocks(multiDevice: bool, site: Site, listings: seq<A.Listing>): (blocks: seq<seq<string>>)
    requires |site.servers| == |listings|
    ensures |blocks| == |listings|
  {
    seq(|listings|, a requires 0 <= a < |listings| => ServerBlock(multiDevice, site.name, site.servers[a], listings[a]))
  }

  /** The relay holds for the connection what collecting these listings gave. */
  ghost predicate Holds(conn: Conn, site: Site, listings: seq<A.Listing>) {
    && |site.servers| == |listings|
    && conn.name == site.name && conn.tools == A.Collected(site.servers, listings)
  }

  ghost predicate AllHold(conns: seq<Conn>, sites: seq<Site>, listings: seq<seq<A.Listing>>) {
    && |conns| == |sites| == |listings|
    && forall k :: 0 <= k < |conns| ==> Holds(conns[k], sites[k], listings[k])
  }

  function NamesOf(conn: Conn, multiDevice: bool, published: seq<ToolDef>): seq<string> {
    seq(|published|, i requires 0 <= i < |published| => Listed(conn, multiDevice, published[i]).name)
  }

  lemma {:induction false} NamesByServer(conn: Conn, multiDevice: bool, site: Site, listings: seq<A.Listing>)
    requires |site.servers| == |listings| && conn.name == site.name
    ensures NamesOf(conn, multiDevice, A.Collected(site.servers, listings))
      == Concat(ServerBlocks(multiDevice, site, listings))
    decreases |listings|
  {
    hide Listed, ServerBlock, A.PublishedListing;
    if listings != [] {
      var n := |listings| - 1;
      var before := Site(site.name, site.servers[..n]);
      NamesByServer(conn, multiDevice, before, listings[..n]);
      var blocks := ServerBlocks(multiDevice, site, listings);
      assert blocks[..n] == ServerBlocks(multiDevice, before, listings[..n]);
      LastBlock(conn, multiDevice, site.servers[n], listings[n]);
      NamesAppend(conn, multiDevice, A.Collected(before.servers, listings[..n]),
                  A.PublishedListing(site.servers[n], listings[n]));
    }
  }

  lemma NamesAppend(conn: Conn, multiDevice: bool, x: seq<ToolDef>, y: seq<ToolDef>)
    ensures NamesOf(conn, multiDevice, x + y) == NamesOf(conn, multiDevice, x) + NamesOf(conn, multiDevice, y)
  {
  }

  lemma LastBlock(conn: Conn, multiDevice: bool, server: A.LocalServer, listing: A.Listing)
    ensures NamesOf(conn, multiDevice, A.PublishedListing(server, listing))
      == ServerBlock(multiDevice, conn.name, server, listing)
  {
    if listing.Some? {
      forall i | 0 <= i < |listing.value|
        ensures Listed(conn, multiDevice, A.Published(server, listing.value[i])).name
          == Prefix(multiDevice, conn.name, server.name) + listing.value[i].name
      {
        var tool := listing.value[i].name;
        assert conn.name + SEP + (server.name + SEP + tool) == conn.name + SEP + server.name + SEP + tool;
      }
    }
  }

  function DeviceBlocks(conns: seq<Conn>, multiDevice: bool): (blocks: seq<seq<string>>)
    ensures |blocks| == |conns|
  {
    seq(|conns|, k requires 0 <= k < |conns| => NamesOf(conns[k], multiDevice, conns[k].tools))
  }

  lemma {:induction false} NamesByDevice(conns: seq<Conn>, multiDevice: bool)
    ensures ListedNames(ListedFrom(conns, multiDevice)) == Concat(DeviceBlocks(conns, multiDevice))
  {
    if conns != [] {
      var n := |conns| - 1;
      NamesByDevice(conns[..n], multiDevice);
      assert DeviceBlocks(conns, multiDevice)[..n] == DeviceBlocks(conns[..n], multiDevice);
      assert ListedNames(ListedAll(conns[n], multiDevice)) == NamesOf(conns[n], multiDevice, conns[n].tools);
    }
  }

  // ---- when names can clash ----

  ghost predicate OwnNamesDistinct(listings: seq<A.Listing>) {
    forall a :: 0 <= a < |listings| && listings[a].Some? ==> Distinct(ToolNames(listings[a].value))
  }

  /** Server `a` of device `k`. */
  ghost predicate IsServer(sites: seq<Site>, k: int, a: int) {
    0 <= k < |sites| && 0 <= a < |sites[k].servers|
  }

  function PrefixOf(sites: seq<Site>, k: int, a: int): string
    requires IsServer(sites, k, a)
  {
    Prefix(|sites| > 1, sites[k].name, sites[k].servers[a].name)
  }

  /** No server's prefix begins with the prefix of another server, on the same device or another. */
  ghost predicate PrefixFree(sites: seq<Site>) {
    forall k, a, k', a' :: IsServer(sites, k, a) && IsServer(sites, k', a') && (k != k' || a != a') ==>
      !(PrefixOf(sites, k, a) <= PrefixOf(sites, k', a'))
  }

  /** Whatever the servers list, no two names the client is shown are equal. */
  ghost predicate NeverClash(sites: seq<Site>) {
    forall conns, listings ::
      AllHold(conns, sites, listings) && (forall k :: 0 <= k < |listings| ==> OwnNamesDistinct(listings[k]))
      ==> Distinct(["status", "restart"] + ListedNames(ToolsForUser(conns)))
  }

  lemma PrefixesClash(p: string, x: string, q: string, y: string)
    requires p + x == q + y
    ensures p <= q || q <= p
  {
    var s := p + x;
    assert p == s[..|p|] && q == s[..|q|];
  }

  lemma BlocksApart(sites: seq<Site>, k: int, a: int, x: A.Listing, k': int, a': int, y: A.Listing)
    requires PrefixFree(sites) && IsServer(sites, k, a) && IsServer(sites, k', a') && (k != k' || a != a')
    ensures Disjoint(ServerBlock(|sites| > 1, sites[k].name, sites[k].servers[a], x),
                     ServerBlock(|sites| > 1, sites[k'].name, sites[k'].servers[a'], y))
  {
    var p, q := PrefixOf(sites, k, a), PrefixOf(sites, k', a');
    assert !(p <= q) && !(q <= p);
    hide PrefixFree, Prefix;
    if x.Some? && y.Some? {
      forall i, j | 0 <= i < |x.value| && 0 <= j < |y.value| ensures p + x.value[i].name != q + y.value[j].name {
        if p + x.value[i].name == q + y.value[j].name { PrefixesClash(p, x.value[i].name, q, y.value[j].name); }
      }
    }
  }

  lemma BlockDistinct(prefix: string, names: seq<string>)
    requires Distinct(names)
    ensures Distinct(Prefixed(prefix, names))
  {
    forall i, j | 0 <= i < j < |names| ensures prefix + names[i] != prefix + names[j] {
      assert (prefix + names[i])[|prefix|..] == names[i] && (prefix + names[j])[|prefix|..] == names[j];
    }
  }

  lemma DeviceNamesDistinct(sites: seq<Site>, k: nat, listings: seq<A.Listing>)
    requires PrefixFree(sites) && k < |sites| && |sites[k].servers| == |listings| && OwnNamesDistinct(listings)
    ensures Distinct(Concat(ServerBlocks(|sites| > 1, sites[k], listings)))
  {
    var blocks := ServerBlocks(|sites| > 1, sites[k], listings);
    forall a | 0 <= a < |blocks| ensures Distinct(blocks[a]) {
      if listings[a].Some? {
        BlockDistinct(Prefix(|sites| > 1, sites[k].name, sites[k].servers[a].name), ToolNames(listings[a].value));
      }
    }
    forall a, b | 0 <= a < b < |blocks| ensures Disjoint(blocks[a], blocks[b]) {
      BlocksApart(sites, k, a, listings[a], k, b, listings[b]);
    }
    DistinctConcatIff(blocks);
  }

  lemma DevicesApart(sites: seq<Site>, j: nat, x: seq<A.Listing>, k: nat, y: seq<A.Listing>)
    requires PrefixFree(sites) && j < |sites| && k < |sites| && j != k
    requires |sites[j].servers| == |x| && |sites[k].servers| == |y|
    ensures Disjoint(Concat(ServerBlocks(|sites| > 1, sites[j], x)), Concat(ServerBlocks(|sites| > 1, sites[k], y)))
  {
    var b, c := ServerBlocks(|sites| > 1, sites[j], x), ServerBlocks(|sites| > 1, sites[k], y);
    forall v | v in Concat(b) ensures v !in Concat(c) {
      InConcat(b, v);
      InConcat(c, v);
      var i :| 0 <= i < |b| && v in b[i];
      if i' :| 0 <= i' < |c| && v in c[i'] { BlocksApart(sites, j, i, x[i], k, i', y[i']); }
    }
  }

  lemma MetaNamesApart(conns: seq<Conn>, sites: seq<Site>, listings: seq<seq<A.Listing>>)
    requires AllHold(conns, sites, listings)
    ensures Disjoint(["status", "restart"], ListedNames(ToolsForUser(conns)))
  {
    var names := ListedNames(ToolsForUser(conns));
    forall v | v in ["status", "restart"] ensures v !in names {
      if v in names {
        var p :| 0 <= p < |names| && names[p] == v;
        var tool := ToolsForUser(conns)[p];
        var k, j := ListedHasOrigin(conns, |conns| > 1, tool);
        assert Holds(conns[k], sites[k], listings[k]);
        var a, b := A.CollectedHasOrigin(sites[k].servers, listings[k], conns[k].tools[j]);
        MetaToolsNotShadowed(conns, Device(sites[k].servers, listings[k]), tool, k, a, b);
      }
    }
  }

  lemma PrefixFreeNeverClashes(conns: seq<Conn>, sites: seq<Site>, listings: seq<seq<A.Listing>>)
    requires PrefixFree(sites) && AllHold(conns, sites, listings)
    requires forall k :: 0 <= k < |listings| ==> OwnNamesDistinct(listings[k])
    ensures Distinct(["status", "restart"] + ListedNames(ToolsForUser(conns)))
  {
    var multiDevice := |conns| > 1;
    var blocks := DeviceBlocks(conns, multiDevice);
    hide PrefixFree, OwnNamesDistinct;
    forall k | 0 <= k < |conns| ensures blocks[k] == Concat(ServerBlocks(multiDevice, sites[k], listings[k])) {
      assert Holds(conns[k], sites[k], listings[k]);
      NamesByServer(conns[k], multiDevice, sites[k], listings[k]);
    }
    forall k | 0 <= k < |conns| ensures Distinct(blocks[k]) {
      assert Holds(conns[k], sites[k], listings[k]);
      DeviceNamesDistinct(sites, k, listings[k]);
    }
    forall j, k | 0 <= j < k < |conns| ensures Disjoint(blocks[j], blocks[k]) {
      assert Holds(conns[j], sites[j], listings[j]) && Holds(conns[k], sites[k], listings[k]);
      DevicesApart(sites, j, listings[j], k, listings[k]);
    }
    DistinctConcatIff(blocks);
    NamesByDevice(conns, multiDevice);
    MetaNamesApart(conns, sites, listings);
    assert "status"[0] != "restart"[0];
    DistinctAppendIff(["status", "restart"], ListedNames(ToolsForUser(conns)));
  }

  // ---- the clash, if a prefix begins with another ----

  function OneTool(name: string): A.Listing {
    Some([A.LocalTool(name, None, "{}", None)])
  }

  /** Server `a` of device `k` lists one tool, `x`; server `a'` of device `k'` lists one, `y`. */
  function ListingAt(k: int, a: int, x: string, k': int, a': int, y: string, d: int, s: int): (r: A.Listing)
    ensures r.Some? ==> |r.value| == 1
  {
    if d == k && s == a then OneTool(x) else if d == k' && s == a' then OneTool(y) else None
  }

  function TwoTools(sites: seq<Site>, k: int, a: int, x: string, k': int, a': int, y: string, d: nat)
    : (r: seq<A.Listing>)
    requires d < |sites|
    ensures |r| == |sites[d].servers|
    ensures forall s :: 0 <= s < |r| ==> r[s] == ListingAt(k, a, x, k', a', y, d, s)
  {
    seq(|sites[d].servers|, s => ListingAt(k, a, x, k', a', y, d, s))
  }

  function ConnOf(site: Site, listings: seq<A.Listing>): Conn
    requires |site.servers| == |listings|
  {
    Conn("", site.name, 0, A.Collected(site.servers, listings), 0)
  }

  lemma PrefixesCanClash(sites: seq<Site>, k: int, a: int, k': int, a': int)
    requires IsServer(sites, k, a) && IsServer(sites, k', a') && (k != k' || a != a')
    requires PrefixOf(sites, k, a) <= PrefixOf(sites, k', a')
    ensures !NeverClash(sites)
  {
    var v := PrefixOf(sites, k', a');
    var rest := v[|PrefixOf(sites, k, a)|..];
    assert v == PrefixOf(sites, k, a) + rest == v + "";
    var listings := seq(|sites|, d requires 0 <= d < |sites| => TwoTools(sites, k, a, rest, k', a', "", d));
    var conns := seq(|sites|, d requires 0 <= d < |sites| =>
      ConnOf(sites[d], TwoTools(sites, k, a, rest, k', a', "", d)));
    assert AllHold(conns, sites, listings) by {
      forall d | 0 <= d < |sites| ensures Holds(conns[d], sites[d], listings[d]) {
      }
    }
    forall d | 0 <= d < |listings| ensures OwnNamesDistinct(listings[d]) {
      var r := TwoTools(sites, k, a, rest, k', a', "", d);
      assert forall s :: 0 <= s < |r| ==> r[s] == ListingAt(k, a, rest, k', a', "", d, s);
    }
    assert listings[k] == TwoTools(sites, k, a, rest, k', a', "", k);
    assert listings[k'] == TwoTools(sites, k, a, rest, k', a', "", k');
    ClashingNames(conns, sites, listings, k, a, k', a', v);
  }

  lemma InBlock(conns: seq<Conn>, sites: seq<Site>, listings: seq<seq<A.Listing>>, k: int, a: int, v: string)
    requires AllHold(conns, sites, listings) && IsServer(sites, k, a)
    requires listings[k][a].Some? && |listings[k][a].value| == 1
    requires v == PrefixOf(sites, k, a) + listings[k][a].value[0].name
    ensures v in ServerBlocks(|sites| > 1, sites[k], listings[k])[a]
    ensures v in DeviceBlocks(conns, |conns| > 1)[k]
    ensures DeviceBlocks(conns, |conns| > 1)[k] == Concat(ServerBlocks(|sites| > 1, sites[k], listings[k]))
  {
    assert Holds(conns[k], sites[k], listings[k]);
    NamesByServer(conns[k], |conns| > 1, sites[k], listings[k]);
    var block := ServerBlocks(|sites| > 1, sites[k], listings[k])[a];
    assert block[0] == v;
    InConcat(ServerBlocks(|sites| > 1, sites[k], listings[k]), v);
  }

  lemma ClashingNames(conns: seq<Conn>, sites: seq<Site>, listings: seq<seq<A.Listing>>,
                      k: int, a: int, k': int, a': int, v: string)
    requires AllHold(conns, sites, listings)
    requires IsServer(sites, k, a) && IsServer(sites, k', a') && (k != k' || a != a')
    requires listings[k][a].Some? && |listings[k][a].value| == 1
    requires listings[k'][a'].Some? && |listings[k'][a'].value| == 1
    requires v == PrefixOf(sites, k, a) + listings[k][a].value[0].name
    requires v == PrefixOf(sites, k', a') + listings[k'][a'].value[0].name
    ensures !Distinct(["status", "restart"] + ListedNames(ToolsForUser(conns)))
  {
    var blocks := DeviceBlocks(conns, |conns| > 1);
    InBlock(conns, sites, listings, k, a, v);
    InBlock(conns, sites, listings, k', a', v);
    NamesByDevice(conns, |conns| > 1);
    DistinctConcatIff(blocks);
    if k == k' {
      var inner := ServerBlocks(|sites| > 1, sites[k], listings[k]);
      DistinctConcatIff(inner);
      assert !Disjoint(inner[a], inner[a']) && !Disjoint(inner[a'], inner[a]);
    } else {
      assert !Disjoint(blocks[k], blocks[k']) && !Disjoint(blocks[k'], blocks[k]);
    }
    DistinctAppendIff(["status", "restart"], ListedNames(ToolsForUser(conns)));
  }

  /** MAIN RESULT: for these devices and servers, all names the client is shown, the meta tools
      included, differ pairwise whatever the servers list, exactly if no server's prefix begins with
      another's. The handler's search then has at most one match. */
  lemma NamesNeverClashIff(sites: seq<Site>)
    ensures NeverClash(sites) <==> PrefixFree(sites)
  {
    if PrefixFree(sites) {
      forall conns, listings |
        AllHold(conns, sites, listings) && (forall k :: 0 <= k < |listings| ==> OwnNamesDistinct(listings[k]))
        ensures Distinct(["status", "restart"] + ListedNames(ToolsForUser(conns)))
      {
        PrefixFreeNeverClashes(conns, sites, listings);
      }
    } else {
      var k, a, k', a' :| IsServer(sites, k, a) && IsServer(sites, k', a') && (k != k' || a != a')
        && PrefixOf(sites, k, a) <= PrefixOf(sites, k', a');
      PrefixesCanClash(sites, k, a, k', a');
    }
  }

  // ---- clean names are enough ----

  /** Device names differ and, where they are used as prefixes, are clean; so are the server names of
      each device. */
  ghost predicate WellNamed(sites: seq<Site>) {
    && (forall j, k :: 0 <= j < k < |sites| ==> sites[j].name != sites[k].name)
    && (|sites| > 1 ==> forall k :: 0 <= k < |sites| ==> Clean(sites[k].name))
    && (forall k :: 0 <= k < |sites| ==> A.NamesDistinct(sites[k].servers))
    && (forall k, a :: IsServer(sites, k, a) ==> Clean(sites[k].servers[a].name))
  }

  /** Distinct clean device names and distinct clean server names rule out every clash. */
  lemma CleanNamesNeverClash(sites: seq<Site>)
    requires WellNamed(sites)
    ensures NeverClash(sites)
  {
    forall k, a, k', a' | IsServer(sites, k, a) && IsServer(sites, k', a') && (k != k' || a != a')
      ensures !(PrefixOf(sites, k, a) <= PrefixOf(sites, k', a'))
    {
      if PrefixOf(sites, k, a) <= PrefixOf(sites, k', a') { CleanPrefixesAgree(sites, k, a, k', a'); }
    }
    NamesNeverClashIff(sites);
  }

  lemma CleanPrefixesAgree(sites: seq<Site>, k: int, a: int, k': int, a': int)
    requires WellNamed(sites) && IsServer(sites, k, a) && IsServer(sites, k', a')
    requires PrefixOf(sites, k, a) <= PrefixOf(sites, k', a')
    ensures k == k' && a == a'
  {
    var p, q := PrefixOf(sites, k, a), PrefixOf(sites, k', a');
    var rest := q[|p|..];
    var s, s' := sites[k].servers[a].name, sites[k'].servers[a'].name;
    assert q == p + rest;
    if |sites| > 1 {
      assert p + rest == Join(sites[k].name, Join(s, rest));
      assert q == Join(sites[k'].name, Join(s', ""));
      JoinInjective(sites[k].name, Join(s, rest), sites[k'].name, Join(s', ""));
    } else {
      assert p + rest == Join(s, rest) && q == Join(s', "");
    }
    JoinInjective(s, rest, s', "");
  }
}
