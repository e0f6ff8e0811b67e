/**
 Fluent chains of netkit setter calls. A `Call` names one setter and its
 argument; `Chain` applies a list of calls left to right, as a chain of
 `.setter(arg)` calls does. The lemmas state what a whole chain does to the
 builder: entries are appended in call order, none is merged or dropped, and
 the name and kind are never touched.
 */
module NetkitChain {
  import opened Wrappers
  import opened PacketRoute
  import opened LinkMessage
  import LinkNetkit

  /** One setter call of the netkit builder, with its argument. */
  datatype Call =
    | CallPeer(peer: string)
    | CallPrimary(primary: bool)
    | CallPolicy(policy: NetkitPolicy)
    | CallPeerPolicy(peerPolicy: NetkitPolicy)
    | CallMode(mode: NetkitMode)
    | CallScrub(scrub: NetkitScrub)
    | CallPeerScrub(peerScrub: NetkitScrub)
    | CallHeadroom(headroom: u16)
    | CallTailroom(tailroom: u16)

  /** The entry a call is meant to add: the variant matching the setter, carrying its argument. */
  function Entry(c: Call): InfoNetkit
  {
    match c
    case CallPeer(p) => InfoNetkit.Peer(PeerMessage(p))
    case CallPrimary(x) => InfoNetkit.Primary(x)
    case CallPolicy(x) => InfoNetkit.Policy(x)
    case CallPeerPolicy(x) => InfoNetkit.PeerPolicy(x)
    case CallMode(x) => InfoNetkit.Mode(x)
    case CallScrub(x) => InfoNetkit.Scrub(x)
    case CallPeerScrub(x) => InfoNetkit.PeerScrub(x)
    case CallHeadroom(x) => InfoNetkit.Headroom(x)
    case CallTailroom(x) => InfoNetkit.Tailroom(x)
  }

  /**
   Performs one setter call on a builder: every setter is the generic append
   of the entry matching its call.
   */
  function Apply(b: LinkMessageBuilder, c: Call): (r: LinkMessageBuilder)
    ensures r == LinkNetkit.AppendInfoData(b, Entry(c))
  {
    match c
    case CallPeer(p) => LinkNetkit.Peer(b, p)
    case CallPrimary(x) => LinkNetkit.Primary(b, x)
    case CallPolicy(x) => LinkNetkit.Policy(b, x)
    case CallPeerPolicy(x) => LinkNetkit.PeerPolicy(b, x)
    case CallMode(x) => LinkNetkit.Mode(b, x)
    case CallScrub(x) => LinkNetkit.Scrub(b, x)
    case CallPeerScrub(x) => LinkNetkit.PeerScrub(b, x)
    case CallHeadroom(x) => LinkNetkit.Headroom(b, x)
    case CallTailroom(x) => LinkNetkit.Tailroom(b, x)
  }

  /** Performs the calls in order, each on the builder the previous one returned. */
  function Chain(b: LinkMessageBuilder, calls: seq<Call>): LinkMessageBuilder
    decreases |calls|
  {
    if calls == [] then b else Chain(Apply(b, calls[0]), calls[1..])
  }

  /** The entries a list of calls is meant to add, in call order. */
  function Entries(calls: seq<Call>): (es: seq<InfoNetkit>)
  {
    seq(|calls|, i requires 0 <= i < |calls| => Entry(calls[i]))
  }

  /**
   A chain on a builder that accepts netkit entries appends exactly the calls'
   entries, in call order, after the existing ones; name and kind are kept, and
   a non-empty chain leaves a netkit container behind.
   */
  lemma {:induction false} ChainAppendsInOrder(b: LinkMessageBuilder, calls: seq<Call>)
    requires AcceptsNetkit(b)
    ensures Infos(Chain(b, calls)) == Infos(b) + Entries(calls)
    ensures Chain(b, calls).name == b.name && Chain(b, calls).kind == b.kind
    ensures AcceptsNetkit(Chain(b, calls))
    ensures calls != [] ==> Chain(b, calls).infoData.Some? && Chain(b, calls).infoData.value.Netkit?
    decreases |calls|
  {
    if calls == [] {
      assert Infos(b) + Entries(calls) == Infos(b);
    } else {
      var b1 := Apply(b, calls[0]);
      assert Infos(b1) == Infos(b) + [Entry(calls[0])];
      assert AcceptsNetkit(b1);
      assert Chain(b, calls) == Chain(b1, calls[1..]);
      ChainAppendsInOrder(b1, calls[1..]);
      assert Entries(calls) == [Entry(calls[0])] + Entries(calls[1..]);
      if calls[1..] == [] {
        assert Chain(b1, calls[1..]) == b1;
      }
    }
  }

  /** A chain on a builder holding info data of another kind drops every entry. */
  lemma {:induction false} ChainIntoOtherKindIsNoOp(b: LinkMessageBuilder, calls: seq<Call>)
    requires !AcceptsNetkit(b)
    ensures Chain(b, calls) == b
    decreases |calls|
  {
    if calls != [] {
      ChainIntoOtherKindIsNoOp(Apply(b, calls[0]), calls[1..]);
    }
  }

  /**
   A freshly created netkit builder followed by any chain: the name and kind
   are those given at creation, the peer entry comes first, and the calls'
   entries follow in order.
   */
  lemma NewThenChain(name: string, peer: string, calls: seq<Call>)
    ensures Chain(LinkNetkit.New(name, peer), calls).name == Some(name)
    ensures Chain(LinkNetkit.New(name, peer), calls).kind == Some(NetkitKind)
    ensures Chain(LinkNetkit.New(name, peer), calls).infoData
         == Some(Netkit([InfoNetkit.Peer(PeerMessage(peer))] + Entries(calls)))
  {
    var b := LinkNetkit.New(name, peer);
    ChainAppendsInOrder(b, calls);
    if calls == [] {
      assert Chain(b, calls) == b;
    }
  }

  /**
   Two calls in a row keep both entries in call order, also when they set the
   same attribute: nothing is deduplicated or overwritten.
   */
  lemma TwoCallsKeepBoth(b: LinkMessageBuilder, c1: Call, c2: Call)
    requires AcceptsNetkit(b)
    ensures Infos(Apply(Apply(b, c1), c2)) == Infos(b) + [Entry(c1), Entry(c2)]
    ensures |Infos(Apply(Apply(b, c1), c2))| == |Infos(b)| + 2
  {
    ChainAppendsInOrder(b, [c1, c2]);
    assert Entries([c1, c2]) == [Entry(c1), Entry(c2)];
    assert Chain(b, [c1, c2]) == Chain(Apply(b, c1), [c2]);
    assert [c2][1..] == [];
  }

  /** `mode(a).mode(b)` holds both modes, `a` first. */
  lemma ModeTwiceKeepsBoth(b: LinkMessageBuilder, m1: NetkitMode, m2: NetkitMode)
    requires AcceptsNetkit(b)
    ensures Infos(LinkNetkit.Mode(LinkNetkit.Mode(b, m1), m2))
         == Infos(b) + [InfoNetkit.Mode(m1), InfoNetkit.Mode(m2)]
  {
    TwoCallsKeepBoth(b, CallMode(m1), CallMode(m2));
  }

  /** Creating `nk0` with peer `nk1`, then setting headroom 64 and primary. */
  lemma CreateWithHeadroomAndPrimary()
    ensures LinkNetkit.Primary(LinkNetkit.Headroom(LinkNetkit.New("nk0", "nk1"), 64), true)
         == LinkMessageBuilder(
              Some("nk0"),
              Some(NetkitKind),
              Some(Netkit([InfoNetkit.Peer(PeerMessage("nk1")),
                           InfoNetkit.Headroom(64),
                           InfoNetkit.Primary(true)])))
  {
    var b0 := LinkNetkit.New("nk0", "nk1");
    var b1 := LinkNetkit.Headroom(b0, 64);
    var b2 := LinkNetkit.Primary(b1, true);
    assert Infos(b1) == [InfoNetkit.Peer(PeerMessage("nk1"))] + [InfoNetkit.Headroom(64)];
    assert Infos(b2) == [InfoNetkit.Peer(PeerMessage("nk1")), InfoNetkit.Headroom(64)]
                      + [InfoNetkit.Primary(true)];
    assert Infos(b2) == [InfoNetkit.Peer(PeerMessage("nk1")), InfoNetkit.Headroom(64),
                         InfoNetkit.Primary(true)];
  }
}
