/** `SentinelNode`'s extension (Common/Extensions/Wallet/SentinelNode+Ext.swift):
    copies with one part replaced, identity by address, and the node known
    by its address alone. The wallet library's node details are a type
    parameter here. */
module SentinelNodes {
  import opened Wrappers

  /** A price entry: denomination and amount, as the wallet library
      spells them. */
  datatype Coin = Coin(denom: string, amount: string)

  datatype SentinelNode<N> = SentinelNode(
    address: string,
    provider: string,
    price: seq<Coin>,
    remoteURL: string,
    node: Option<N>)

  /** `set(node:)`: the same node with only its details replaced. */
  function SetNode<N>(s: SentinelNode<N>, node: N): (r: SentinelNode<N>)
    ensures r == s.(node := Some(node))
  {
    SentinelNode(s.address, s.provider, s.price, s.remoteURL, Some(node))
  }

  /** `setFields(from:)`: every field from `other`, the details kept. */
  function SetFields<N>(s: SentinelNode<N>, other: SentinelNode<N>): (r: SentinelNode<N>)
    ensures r == other.(node := s.node)
  {
    SentinelNode(other.address, other.provider, other.price, other.remoteURL, s.node)
  }

  /** `==`: two nodes are the same node when their addresses agree. */
  predicate SameNode<N>(a: SentinelNode<N>, b: SentinelNode<N>) {
    a.address == b.address
  }

  /** What `hash(into:)` feeds the hasher. */
  function HashInput<N>(s: SentinelNode<N>): string {
    s.address
  }

  /** `init(address:)`: a node known only by its address. */
  function FromAddress<N>(address: string): (r: SentinelNode<N>)
    ensures r.address == address && r.provider == "" && r.price == [] && r.remoteURL == "" && r.node.None?
  {
    SentinelNode(address, "", [], "", None)
  }

  /** `==` is an equivalence, equal nodes hash alike, and two nodes that
      differ anywhere but the address are still equal. */
  lemma SameNodeIsEquivalence<N>(a: SentinelNode<N>, b: SentinelNode<N>, c: SentinelNode<N>)
    ensures SameNode(a, a)
    ensures SameNode(a, b) ==> SameNode(b, a) && HashInput(a) == HashInput(b)
    ensures SameNode(a, b) && SameNode(b, c) ==> SameNode(a, c)
    ensures SameNode(a, b) <==> SameNode(FromAddress<N>(a.address), b)
  {
  }

  /** Replacing the details keeps the node's identity; taking the fields
      from another node takes its identity; the two compose to the other
      node carrying the new details, and a node given its own fields is
      unchanged. */
  lemma CopiesKeepIdentity<N>(s: SentinelNode<N>, other: SentinelNode<N>, node: N)
    ensures SameNode(SetNode(s, node), s)
    ensures SameNode(SetFields(s, other), other)
    ensures SetFields(SetNode(s, node), other) == SetNode(other, node)
    ensures SetNode(SetFields(s, other), node) == SetNode(other, node)
    ensures SetFields(s, s) == s
  {
  }
}
