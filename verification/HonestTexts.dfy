/** What each side's cache yields in an honest handshake, as a text of the two plans. */
module HonestTexts {
  import opened Bytes
  import opened Handshakes
  import opened HandshakeCaches
  import opened Reassembly
  import opened WireRecords
  import opened Delivery
  import opened Emission
  import opened Network
  import opened Transcripts
  import opened TableTexts
  import opened Planning
  import opened HonestWorlds
  import opened HonestSends

  lemma BaseWorld(u: Setup, h: Honest)
    requires SetupOk(u) && Base(u, h)
    ensures ToServer(u, h.client).Valid() && ToClient(u, h.server).Valid()
    ensures WorldOk(h.net, ToServer(u, h.client), ToClient(u, h.server))
    ensures HalfOk(h.net.client, h.net.server, h.net.fromClient, ToServer(u, h.client))
    ensures HalfOk(h.net.server, h.net.client, h.net.fromServer, ToClient(u, h.server))
    ensures h.net.client.IsClient() && !h.net.server.IsClient()
    ensures h.net.client.sent <= h.clientPlan && h.net.server.sent <= h.serverPlan
    ensures Table(h.clientPlan) && Table(h.serverPlan)
  {
    hide HalfOk, SuiteOk, PacketsOk, AllInTurn, Planned, Protected, Table, AllWire, SoundSuites, ReaderOk, SoundExchange, SharedKey,
         ItemsOf;
    SetupLinks(u);
    Ends(h.net.client, h.net.server, h.net.fromClient, ToServer(u, h.client));
  }

  lemma PeerPrefix(a: Side, b: Side, net: set<Bytes>, link: Link)
    requires link.Valid() && HalfOk(a, b, net, link)
    ensures b.Popped() <= |a.sent| && OwnPart(b.Cache(), a.IsClient(), a.sent[..b.Popped()])
    ensures OwnPart(a.Cache(), a.IsClient(), a.sent)
  {
    hide UnmarshalHandshake, RawHandshake.Whole, Genuine, AllWire, NetOk, GotAll, FragmentBuffers.Popped;
    PrefixTable(a.sent, b.Popped());
    assert ItemsOf(a.sent[..b.Popped()], a.IsClient()) == ItemsOf(a.sent, a.IsClient())[..b.Popped()];
  }

  lemma PrefixPlan(sent: seq<SentMessage>, plan: seq<SentMessage>, n: nat)
    requires sent <= plan && n <= |sent|
    ensures sent[..n] == plan[..n]
  {
  }

  /** The two caches, part by part. */
  lemma CacheParts(u: Setup, h: Honest)
    requires SetupOk(u) && Base(u, h)
    ensures h.net.server.Popped() <= |h.clientPlan| && h.net.client.Popped() <= |h.serverPlan|
    ensures OwnPart(h.net.server.Cache(), true, h.clientPlan[..h.net.server.Popped()])
    ensures OwnPart(h.net.server.Cache(), false, h.net.server.sent)
    ensures OwnPart(h.net.client.Cache(), true, h.net.client.sent)
    ensures OwnPart(h.net.client.Cache(), false, h.serverPlan[..h.net.client.Popped()])
    ensures h.net.server.Popped() <= |h.net.client.sent| && h.net.client.Popped() <= |h.net.server.sent|
    ensures Unique(h.net.server.Cache()) && Unique(h.net.client.Cache())
  {
    hide SetupOk, Base, HalfOk, OwnPart, Unique, WorldOk, Table;
    BaseWorld(u, h);
    CachesUnique(h.net, ToServer(u, h.client), ToClient(u, h.server));
    PeerPrefix(h.net.client, h.net.server, h.net.fromClient, ToServer(u, h.client));
    PeerPrefix(h.net.server, h.net.client, h.net.fromServer, ToClient(u, h.server));
    PrefixPlan(h.net.client.sent, h.clientPlan, h.net.server.Popped());
    PrefixPlan(h.net.server.sent, h.serverPlan, h.net.client.Popped());
  }

  lemma ServerText(u: Setup, h: Honest, rules: seq<Rule>)
    requires SetupOk(u) && Base(u, h) && h.net.server.sent == h.serverPlan
    ensures h.net.server.Popped() <= |h.clientPlan|
    ensures Merged(h.net.server.Cache(), rules) == Text(h.clientPlan[..h.net.server.Popped()], h.serverPlan, rules)
  {
    hide SetupOk, Base, OwnPart, Unique, Merged, Text;
    CacheParts(u, h);
    MergedIsText(h.net.server.Cache(), h.clientPlan[..h.net.server.Popped()], h.serverPlan, rules);
  }

  lemma ClientText(u: Setup, h: Honest, rules: seq<Rule>)
    requires SetupOk(u) && Base(u, h) && h.net.client.sent == h.clientPlan
    ensures h.net.client.Popped() <= |h.serverPlan|
    ensures Merged(h.net.client.Cache(), rules) == Text(h.clientPlan, h.serverPlan[..h.net.client.Popped()], rules)
  {
    hide SetupOk, Base, OwnPart, Unique, Merged, Text;
    CacheParts(u, h);
    MergedIsText(h.net.client.Cache(), h.clientPlan, h.serverPlan[..h.net.client.Popped()], rules);
  }
}
