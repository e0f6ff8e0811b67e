/**
 The netkit specialisation of the link-message builder: a constructor that
 names the device and its peer, and one setter per netkit attribute. Every
 setter consumes the builder, appends one entry and returns the builder.
 */
module LinkNetkit {
  import opened Wrappers
  import opened PacketRoute
  import opened LinkMessage

  /**
   Appends one netkit entry. A missing container is first created as an empty
   netkit list; a container of another kind is left as it is and the entry is
   dropped.
   */
  function AppendInfoData(b: LinkMessageBuilder, info: InfoNetkit): (r: LinkMessageBuilder)
    ensures Appended(b, r, info)
    ensures b.infoData.None? ==> r.infoData == Some(Netkit([info]))
    ensures r == b <==> !AcceptsNetkit(b)
  {
    // get_or_insert_with: an absent container becomes an empty netkit list
    var data := if b.infoData.Some? then b.infoData.value else Netkit([]);
    var b' := b.(infoData := Some(data));
    match data
    case Netkit(xs) =>
      assert [] + [info] == [info];
      b'.(infoData := Some(Netkit(xs + [info])))
    case OtherKind => b'
  }

  /** Appends a `Peer` entry holding a minimal message that names the peer. */
  function Peer(b: LinkMessageBuilder, peer: string): (r: LinkMessageBuilder)
    ensures Appended(b, r, InfoNetkit.Peer(PeerMessage(peer)))
  {
    AppendInfoData(b, InfoNetkit.Peer(PeerMessage(peer)))
  }

  /**
   A netkit builder for device `name` whose peer is named `peer`: the kind is
   netkit and the only entry is the peer.
   */
  function New(name: string, peer: string): (r: LinkMessageBuilder)
    ensures r.name == Some(name)
    ensures r.kind == Some(NetkitKind)
    ensures r.infoData == Some(Netkit([InfoNetkit.Peer(PeerMessage(peer))]))
    ensures PeerCount(Infos(r)) == 1
  {
    Peer(Name(NewWithInfoKind(NetkitKind), name), peer)
  }

  function Primary(b: LinkMessageBuilder, primary: bool): (r: LinkMessageBuilder)
    ensures Appended(b, r, InfoNetkit.Primary(primary))
  {
    AppendInfoData(b, InfoNetkit.Primary(primary))
  }

  function Policy(b: LinkMessageBuilder, policy: NetkitPolicy): (r: LinkMessageBuilder)
    ensures Appended(b, r, InfoNetkit.Policy(policy))
  {
    AppendInfoData(b, InfoNetkit.Policy(policy))
  }

  function PeerPolicy(b: LinkMessageBuilder, peerPolicy: NetkitPolicy): (r: LinkMessageBuilder)
    ensures Appended(b, r, InfoNetkit.PeerPolicy(peerPolicy))
  {
    AppendInfoData(b, InfoNetkit.PeerPolicy(peerPolicy))
  }

  function Mode(b: LinkMessageBuilder, mode: NetkitMode): (r: LinkMessageBuilder)
    ensures Appended(b, r, InfoNetkit.Mode(mode))
  {
    AppendInfoData(b, InfoNetkit.Mode(mode))
  }

  function Scrub(b: LinkMessageBuilder, scrub: NetkitScrub): (r: LinkMessageBuilder)
    ensures Appended(b, r, InfoNetkit.Scrub(scrub))
  {
    AppendInfoData(b, InfoNetkit.Scrub(scrub))
  }

  function PeerScrub(b: LinkMessageBuilder, scrub: NetkitScrub): (r: LinkMessageBuilder)
    ensures Appended(b, r, InfoNetkit.PeerScrub(scrub))
  {
    AppendInfoData(b, InfoNetkit.PeerScrub(scrub))
  }

  /** Every 16-bit value is accepted and stored as given. */
  function Headroom(b: LinkMessageBuilder, headroom: u16): (r: LinkMessageBuilder)
    ensures Appended(b, r, InfoNetkit.Headroom(headroom))
  {
    AppendInfoData(b, InfoNetkit.Headroom(headroom))
  }

  /** Every 16-bit value is accepted and stored as given. */
  function Tailroom(b: LinkMessageBuilder, tailroom: u16): (r: LinkMessageBuilder)
    ensures Appended(b, r, InfoNetkit.Tailroom(tailroom))
  {
    AppendInfoData(b, InfoNetkit.Tailroom(tailroom))
  }
}
