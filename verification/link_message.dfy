/**
 The generic link-message builder the netkit specialisation extends. Only the
 state it accumulates and the two steps the netkit constructor calls are
 modelled; the builder's own source is not part of this model.
 */
module LinkMessage {
  import opened Wrappers
  import opened PacketRoute

  /** A link message under construction. */
  datatype LinkMessageBuilder = LinkMessageBuilder(
    name: Option<string>,
    kind: Option<InfoKind>,
    infoData: Option<InfoData>)

  /** A builder bound to a device kind, with no name and no info data yet. */
  function NewWithInfoKind(kind: InfoKind): (r: LinkMessageBuilder)
    ensures r.kind == Some(kind)
    ensures r.name.None? && r.infoData.None?
  {
    LinkMessageBuilder(None, Some(kind), None)
  }

  /** Sets the device name, leaving the rest of the builder alone. */
  function Name(b: LinkMessageBuilder, name: string): (r: LinkMessageBuilder)
    ensures r.name == Some(name)
    ensures r.kind == b.kind && r.infoData == b.infoData
  {
    b.(name := Some(name))
  }

  /**
   The netkit entries held by a builder: those of a netkit container, and none
   when there is no container or it holds data of another kind.
   */
  function Infos(b: LinkMessageBuilder): seq<InfoNetkit>
  {
    match b.infoData
    case Some(Netkit(xs)) => xs
    case _ => []
  }

  /** The number of `Peer` entries in a list of netkit attributes. */
  function PeerCount(xs: seq<InfoNetkit>): nat
  {
    if xs == [] then 0
    else (if xs[0].Peer? then 1 else 0) + PeerCount(xs[1..])
  }

  /** True when a netkit entry appended to `b` is kept: its container is absent or netkit. */
  predicate AcceptsNetkit(b: LinkMessageBuilder)
  {
    b.infoData.None? || b.infoData.value.Netkit?
  }

  /**
   `r` is `b` after appending `e`: name and kind untouched; when `b` accepts
   netkit entries, `r` holds a netkit container whose entries are those of `b`
   followed by `e`; otherwise `r` is `b` itself.
   */
  predicate Appended(b: LinkMessageBuilder, r: LinkMessageBuilder, e: InfoNetkit)
  {
    && r.name == b.name
    && r.kind == b.kind
    && if AcceptsNetkit(b) then
         r.infoData.Some? && r.infoData.value.Netkit? && Infos(r) == Infos(b) + [e]
       else
         r == b
  }
}
