# Netkit link-message builder

A Dafny model of the netkit builder of `rtnetlink` (`src/link/netkit.rs`). It
covers the part that assembles, in memory, the description of a netkit device
(a paired virtual Ethernet-like device) before that description is serialised
and sent to the kernel. That description has three parts:

- the device name;
- the info-kind tag (`netkit`);
- an optional, kind-tagged container of netkit attribute entries
  (`InfoData::Netkit(Vec<InfoNetkit>)`).

`LinkNetkit::new(name, peer)` names the device, tags it as netkit and appends a
`Peer` entry that holds a minimal link message naming the peer. Every setter
(`peer`, `primary`, `policy`, `peer_policy`, `mode`, `scrub`, `peer_scrub`,
`headroom`, `tailroom`) consumes the builder, appends one entry through
`append_info_data` and returns the builder. `append_info_data` creates an empty
netkit container when there is none. If the container that is already there
holds data of another kind, it drops the entry without saying so.

Layout:

- `wrappers.dfy`: module `Wrappers`, with `Option`.
- `packet_route.dfy`: module `PacketRoute`, with the value types `InfoKind`,
  `InfoData`, `InfoNetkit`, `NetkitMode`, `NetkitPolicy`, `NetkitScrub`,
  `PeerMessage` and `u16`.
- `link_message.dfy`: module `LinkMessage`, with the builder record
  `LinkMessageBuilder(name, kind, infoData)` and the two steps of the generic
  base that the netkit constructor uses. It also holds the views the contracts
  are written in:
  - `Infos`: the netkit entries a builder holds;
  - `PeerCount`: how many of those entries are `Peer` entries;
  - `AcceptsNetkit`: whether an appended netkit entry is kept;
  - `Appended`: "r is b with e appended, and nothing else changed".
- `link_netkit.dfy`: module `LinkNetkit`, the netkit builder itself.
- `netkit_chain.dfy`: module `NetkitChain`. It models fluent chains of setter
  calls as lists of `Call` values applied left to right. It holds the lemmas
  about whole chains.

## Model

| member | source | states |
|---|---|---|
| LinkMessage.NewWithInfoKind | src/link/netkit.rs:42 | a builder created for a kind carries that kind, no name and no info data |
| LinkMessage.Name | src/link/netkit.rs:43 | setting the name stores it and leaves the kind and the info data unchanged |
| LinkNetkit.AppendInfoData | src/link/netkit.rs:47-55 | with no container the result is `Netkit([info])`; with `Netkit(xs)` the entries become `xs + [info]`; with another kind the builder comes back unchanged, and it comes back unchanged only then; name and kind are never changed |
| LinkNetkit.New | src/link/netkit.rs:34-45 | name is `name`, kind is netkit, info data is exactly `Netkit([Peer(PeerMessage(peer))])`, so there is exactly one `Peer` entry |
| LinkNetkit.Peer | src/link/netkit.rs:57-62 | on a builder whose info data is absent or netkit, appends exactly one `Peer` entry whose message holds the given peer name; otherwise the info data is of another kind and the builder comes back unchanged; name and kind are kept either way |
| LinkNetkit.Primary | src/link/netkit.rs:64-66 | on a builder whose info data is absent or netkit, appends exactly one `Primary` entry carrying the argument after the existing entries; otherwise the info data is of another kind and the builder comes back unchanged; name and kind are kept either way |
| LinkNetkit.Policy | src/link/netkit.rs:68-70 | on a builder whose info data is absent or netkit, appends exactly one `Policy` entry carrying the argument after the existing entries; otherwise the info data is of another kind and the builder comes back unchanged; name and kind are kept either way |
| LinkNetkit.PeerPolicy | src/link/netkit.rs:72-74 | on a builder whose info data is absent or netkit, appends exactly one `PeerPolicy` entry carrying the argument after the existing entries; otherwise the info data is of another kind and the builder comes back unchanged; name and kind are kept either way |
| LinkNetkit.Mode | src/link/netkit.rs:76-78 | on a builder whose info data is absent or netkit, appends exactly one `Mode` entry carrying the argument after the existing entries; otherwise the info data is of another kind and the builder comes back unchanged; name and kind are kept either way |
| LinkNetkit.Scrub | src/link/netkit.rs:80-82 | on a builder whose info data is absent or netkit, appends exactly one `Scrub` entry carrying the argument after the existing entries; otherwise the info data is of another kind and the builder comes back unchanged; name and kind are kept either way |
| LinkNetkit.PeerScrub | src/link/netkit.rs:84-86 | on a builder whose info data is absent or netkit, appends exactly one `PeerScrub` entry carrying the argument after the existing entries; otherwise the info data is of another kind and the builder comes back unchanged; name and kind are kept either way |
| LinkNetkit.Headroom | src/link/netkit.rs:88-90 | accepts every 16-bit value (no precondition); on a builder whose info data is absent or netkit, appends exactly one `Headroom` entry carrying that value unclamped; otherwise the info data is of another kind and the builder comes back unchanged; name and kind are kept either way |
| LinkNetkit.Tailroom | src/link/netkit.rs:92-94 | accepts every 16-bit value (no precondition); on a builder whose info data is absent or netkit, appends exactly one `Tailroom` entry carrying that value unclamped; otherwise the info data is of another kind and the builder comes back unchanged; name and kind are kept either way |
| NetkitChain.Apply | src/link/netkit.rs:57-94 | each setter call equals the generic append of the entry of the matching variant with its exact argument (`Entry`): that one entry is appended when the info data is absent or netkit, and the builder comes back unchanged when it is of another kind |
| NetkitChain.ChainAppendsInOrder | src/link/netkit.rs:47-94 | on a builder that accepts netkit entries, any chain of setter calls appends exactly the calls' entries in call order after the existing ones; nothing is merged or dropped; name and kind are kept |
| NetkitChain.ChainIntoOtherKindIsNoOp | src/link/netkit.rs:48-54 | on a builder whose info data is of another kind, any chain of setter calls leaves the builder unchanged |
| NetkitChain.NewThenChain | src/link/netkit.rs:41-61 | after `new(name, peer)` and any chain, the name and netkit kind are those given at creation and the entries are the peer followed by the calls' entries in order |
| NetkitChain.TwoCallsKeepBoth | src/link/netkit.rs:47-55 | on a builder whose info data is absent or netkit, two calls in a row, also of the same setter, leave both entries in call order and add exactly two entries |
| NetkitChain.ModeTwiceKeepsBoth | src/link/netkit.rs:76-78 | on a builder whose info data is absent or netkit, `mode(a).mode(b)` keeps both `Mode(a)` and `Mode(b)`, in that order |
| NetkitChain.CreateWithHeadroomAndPrimary | src/link/netkit.rs:41-90 | `new("nk0", "nk1").headroom(64).primary(true)` is named `nk0`, has kind netkit and holds `[Peer(nk1), Headroom(64), Primary(true)]` |

## Left out

- `LinkMessageBuilder::build`, `LinkUnspec` and the serialisation of `InfoNetkit` and the link message into netlink attributes are not part of this model. The peer's link message is therefore a record holding only its name (`PeerMessage`), which is all the netkit code puts into it.
- `NetkitMode`, `NetkitPolicy` and `NetkitScrub` come from a crate that is not part of this model. They are modelled here as closed enumerations of the kernel's named values (L2/L3, pass/drop, no scrub/default scrub). Any variant the crate may have for a raw unknown value is left out, because the builder only stores these values and never inspects them.
- The generic type parameter of `LinkMessageBuilder<LinkNetkit>` stops netkit setters from being called on other link kinds at compile time. It is not modelled as a proof obligation. Instead, the builder's `kind` field records the kind.
- The kernel's reading of mode, policy and scrub values is left out, and so is its handling of duplicate attributes (last one wins). That is kernel behaviour, and this builder promises nothing about it.
- The example programs `examples/create_netkit.rs` and `examples/set_netns.rs` are left out. They handle command-line arguments, the async runtime, netlink sockets, namespace file descriptors and process exit: this is input/output with no builder logic of its own. This also leaves out the namespace-placement request that `set_netns.rs` builds.
