/** From which servers a published list can come. */
module ToolOrigins {
  import opened Base
  import opened Wire
  import opened Names
  import opened AgentTools

  // ---- lists of some of the servers ----

  /** `x` are some of `servers`, in the same order. */
  predicate Within(x: seq<LocalServer>, servers: seq<LocalServer>) {
    x == [] || (servers != [] &&
      var m, n := |x| - 1, |servers| - 1;
      (x[m] == servers[n] && Within(x[..m], servers[..n])) || Within(x, servers[..n]))
  }

  lemma {:induction false} WithinItself(servers: seq<LocalServer>)
    ensures Within(servers, servers)
  {
    if servers != [] { WithinItself(servers[..|servers| - 1]); }
  }

  /** What was collected from some of the servers could have been collected from all of them. */
  lemma {:induction false} CollectedWithin(x: seq<LocalServer>, listings: seq<Listing>, servers: seq<LocalServer>)
    requires |x| == |listings| && Within(x, servers)
    ensures CollectedFrom(Collected(x, listings), servers)
    decreases |servers|
  {
    if x == [] {
      NothingCollected(servers);
    } else {
      var m, n := |x| - 1, |servers| - 1;
      if x[m] == servers[n] && Within(x[..m], servers[..n]) {
        CollectedWithin(x[..m], listings[..m], servers[..n]);
        OneMoreListing(Collected(x[..m], listings[..m]), servers, listings[m]);
      } else {
        CollectedWithin(x, listings, servers[..n]);
        OneMoreListing(Collected(x, listings), servers, None);
      }
    }
  }

  lemma OneMoreListing(tools: seq<ToolDef>, servers: seq<LocalServer>, listing: Listing)
    requires servers != [] && CollectedFrom(tools, servers[..|servers| - 1])
    ensures CollectedFrom(tools + PublishedListing(servers[|servers| - 1], listing), servers)
  {
    var n := |servers| - 1;
    var before :| |before| == n && tools == Collected(servers[..n], before);
    var listings := before + [listing];
    assert listings[..n] == before;
    assert Collected(servers, listings) == tools + PublishedListing(servers[n], listing);
  }

  lemma {:induction false} NothingCollected(servers: seq<LocalServer>)
    ensures CollectedFrom([], servers)
  {
    if servers == [] {
      assert Collected([], []) == [];
    } else {
      NothingCollected(servers[..|servers| - 1]);
      OneMoreListing([], servers, None);
    }
  }

  // ---- a list tells which servers it came from ----

  /** Name and description of the tool agree up to here, the description's opening bracket aside. */
  ghost predicate AgreeUpTo(tool: ToolDef, i: nat) {
    && tool.description.Some? && i < |tool.name| && 1 + i < |tool.description.value|
    && tool.name[i] != tool.description.value[1 + i]
    && forall j :: 0 <= j < i ==> tool.name[j] == tool.description.value[1 + j]
  }

  lemma AgreeOnServer(server: LocalServer, tool: LocalTool)
    ensures AgreeUpTo(Published(server, tool), |server.name|)
  {
    var p := Published(server, tool);
    var rest := "] " + (if tool.description.Some? then tool.description.value else "");
    JoinIndexing(server.name, tool.name);
    assert p.description.value == "[" + (server.name + rest);
  }

  /** A published tool tells which server published it. */
  lemma PublisherIsKnown(s: LocalServer, tool: LocalTool, s': LocalServer, tool': LocalTool)
    requires Published(s, tool) == Published(s', tool')
    ensures s == s'
  {
    AgreeOnServer(s, tool);
    AgreeOnServer(s', tool');
    assert |s.name| == |s'.name|;
    JoinIndexing(s.name, tool.name);
    JoinIndexing(s'.name, tool'.name);
  }

  const ANY_TOOL := LocalTool("x", None, "{}", None)

  /** Every server lists one tool. */
  function OneEach(servers: seq<LocalServer>): (listings: seq<Listing>)
    ensures |listings| == |servers|
  {
    seq(|servers|, i requires 0 <= i < |servers| => Some([ANY_TOOL]))
  }

  lemma OneEachCollected(x: seq<LocalServer>)
    requires x != []
    ensures var m := |x| - 1;
      Collected(x, OneEach(x)) == Collected(x[..m], OneEach(x[..m])) + [Published(x[m], ANY_TOOL)]
  {
    var m := |x| - 1;
    assert OneEach(x)[..m] == OneEach(x[..m]);
    assert PublishedListing(x[m], OneEach(x)[m]) == [Published(x[m], ANY_TOOL)];
  }

  /** If each of `x` lists a tool, the result could only have been collected from servers that `x` is
      within. */
  lemma {:induction false} OneEachNeedsAll(x: seq<LocalServer>, servers: seq<LocalServer>, listings: seq<Listing>)
    requires NamesDistinct(x) && |listings| == |servers|
    requires Collected(x, OneEach(x)) == Collected(servers, listings)
    ensures Within(x, servers)
    decreases |servers|
  {
    if x != [] {
      var m, n := |x| - 1, |servers| - 1;
      OneEachCollected(x);
      var tools := Collected(servers, listings);
      var before, block := Collected(servers[..n], listings[..n]), PublishedListing(servers[n], listings[n]);
      assert tools == before + block;
      if block == [] {
        OneEachNeedsAll(x, servers[..n], listings[..n]);
      } else {
        LastPublisher(tools, before, servers[n], listings[n], x[m]);
        OneEachCount(x);
        assert |block| == 1 by {
          if |block| > 1 {
            TwoInARow(x, before, servers[n], listings[n]);
            assert false;
          }
        }
        assert before == tools[..|tools| - 1] == Collected(x[..m], OneEach(x[..m]));
        OneEachNeedsAll(x[..m], servers[..n], listings[..n]);
      }
    }
  }

  lemma LastPublisher(tools: seq<ToolDef>, before: seq<ToolDef>, server: LocalServer, listing: Listing, s: LocalServer)
    requires PublishedListing(server, listing) != [] && tools == before + PublishedListing(server, listing)
    requires tools[|tools| - 1] == Published(s, ANY_TOOL)
    ensures s == server
  {
    var block := PublishedListing(server, listing);
    assert tools[|tools| - 1] == block[|block| - 1];
    PublisherIsKnown(server, listing.value[|block| - 1], s, ANY_TOOL);
  }

  /** A server that lists two tools publishes them in a row. */
  lemma TwoInARow(x: seq<LocalServer>, before: seq<ToolDef>, server: LocalServer, listing: Listing)
    requires |PublishedListing(server, listing)| > 1 && |x| > 1
    requires Collected(x, OneEach(x)) == before + PublishedListing(server, listing)
    ensures x[|x| - 2] == server && x[|x| - 1] == server
  {
    var m := |x| - 1;
    var tools, block := Collected(x, OneEach(x)), PublishedListing(server, listing);
    OneEachCollected(x);
    OneEachCollected(x[..m]);
    assert tools[|tools| - 1] == block[|block| - 1] && tools[|tools| - 2] == block[|block| - 2];
    PublisherIsKnown(server, listing.value[|block| - 1], x[m], ANY_TOOL);
    PublisherIsKnown(server, listing.value[|block| - 2], x[m - 1], ANY_TOOL);
  }

  lemma {:induction false} OneEachCount(x: seq<LocalServer>)
    ensures |Collected(x, OneEach(x))| == |x|
  {
    if x != [] {
      OneEachCollected(x);
      OneEachCount(x[..|x| - 1]);
    }
  }

  /** MAIN RESULT: every list that could be collected from `x` could be collected from `servers`
      exactly if `x` are some of `servers`, in the same order. */
  lemma ListsInterchangeIff(x: seq<LocalServer>, servers: seq<LocalServer>)
    requires NamesDistinct(x)
    ensures (forall listings :: |listings| == |x| ==> CollectedFrom(Collected(x, listings), servers))
      <==> Within(x, servers)
  {
    if Within(x, servers) {
      forall listings: seq<Listing> | |listings| == |x| ensures CollectedFrom(Collected(x, listings), servers) {
        CollectedWithin(x, listings, servers);
      }
    } else {
      OneEachIsTelling(x, servers);
    }
  }

  lemma OneEachIsTelling(x: seq<LocalServer>, servers: seq<LocalServer>)
    requires NamesDistinct(x) && !Within(x, servers)
    ensures !CollectedFrom(Collected(x, OneEach(x)), servers)
  {
    if listings :| |listings| == |servers| && Collected(x, OneEach(x)) == Collected(servers, listings) {
      OneEachNeedsAll(x, servers, listings);
    }
  }
}
