/**
 Link-level value types the netkit builder assembles. Their defining crate is
 not part of this model: they are described here by the shapes the builder
 relies on, with the enumerations closed over the kernel's named values.
 */
module PacketRoute {

  /** An unsigned 16-bit integer (Rust's `u16`). */
  type u16 = x: int | 0 <= x < 0x1_0000

  /** The device kind tag of a link (`IFLA_INFO_KIND`). */
  datatype InfoKind = NetkitKind | OtherInfoKind(tag: string)

  /** Forwarding mode of a netkit pair. */
  datatype NetkitMode = L2 | L3

  /** Default verdict of one end of a netkit pair. */
  datatype NetkitPolicy = Pass | Drop

  /** Whether packet metadata is scrubbed when crossing the pair. */
  datatype NetkitScrub = NoScrub | DefaultScrub

  /** The minimal link message describing the peer end: it carries only a name. */
  datatype PeerMessage = PeerMessage(name: string)

  /** One netkit-specific attribute entry. */
  datatype InfoNetkit =
    | Peer(peer: PeerMessage)
    | Primary(primary: bool)
    | Policy(policy: NetkitPolicy)
    | PeerPolicy(peerPolicy: NetkitPolicy)
    | Mode(mode: NetkitMode)
    | Scrub(scrub: NetkitScrub)
    | PeerScrub(peerScrub: NetkitScrub)
    | Headroom(headroom: u16)
    | Tailroom(tailroom: u16)

  /** The kind-tagged attribute container: netkit entries, or data of another kind. */
  datatype InfoData = Netkit(infos: seq<InfoNetkit>) | OtherKind
}
