/** `TunnelModel` (SOLARdVPNCommunityCoreiOS/Services/Tunnel/Model/TunnelModel.swift):
    one interface scratch pad and an ordered list of peer scratch pads, saved
    together into a `TunnelConfiguration`. */
module TunnelModels {
  import opened Wrappers
  import opened Text
  import opened ArrayConversion
  import opened WireGuardKit
  import opened WireGuardConfig
  import opened TunnelErrors
  import I = TunnelInterfaceModels
  import P = PeersModels

  // ---------------------------------------------------------------- save, on values

  /** The peers' save results in order: every one a success gives their
      configurations, else the first failure wins. */
  function CollectPeers(rs: seq<Result<PeerConfiguration, TunnelSavingError>>): (r: Result<seq<PeerConfiguration>, TunnelSavingError>)
    ensures r.Success? <==> forall k :: 0 <= k < |rs| ==> rs[k].Success?
    ensures r.Success? ==> |r.value| == |rs| && forall k :: 0 <= k < |rs| ==> r.value[k] == rs[k].value
    ensures r.Failure? ==> exists k :: 0 <= k < |rs| && rs[k] == Failure(r.error) && forall j :: 0 <= j < k ==> rs[j].Success?
  {
    if rs == [] then Success([])
    else if rs[0].Failure? then Failure(rs[0].error)
    else
      match CollectPeers(rs[1..])
      case Failure(e) =>
        assert forall j :: 1 <= j < |rs| ==> rs[j] == rs[1..][j - 1];
        Failure(e)
      case Success(rest) => Success([rs[0].value] + rest)
  }

  /** The public keys of the peers, in order. */
  function PublicKeys(peers: seq<PeerConfiguration>): (keys: seq<Key>)
    ensures |keys| == |peers| && forall k :: 0 <= k < |peers| ==> keys[k] == peers[k].publicKey
  {
    seq(|peers|, k requires 0 <= k < |peers| => peers[k].publicKey)
  }

  predicate DistinctKeys(keys: seq<Key>) {
    forall i, j :: 0 <= i < j < |keys| ==> keys[i] != keys[j]
  }

  /** A list has no more distinct elements than entries. */
  lemma {:induction false} SetNoLarger(keys: seq<Key>)
    ensures |set k | k in keys| <= |keys|
  {
    if keys != [] {
      SetNoLarger(keys[1..]);
      assert (set k | k in keys) == {keys[0]} + (set k | k in keys[1..]);
    }
  }

  /** The duplicate test `save()` makes, an array and its set of different
      sizes, holds exactly when two peers share a key. */
  lemma {:induction false} SetSizeIffDistinct(keys: seq<Key>)
    ensures |set k | k in keys| == |keys| <==> DistinctKeys(keys)
  {
    if keys != [] {
      var rest := keys[1..];
      SetSizeIffDistinct(rest);
      SetNoLarger(rest);
      assert (set k | k in keys) == {keys[0]} + (set k | k in rest);
      assert forall j :: 1 <= j < |keys| ==> keys[j] == rest[j - 1];
      if keys[0] in rest {
        var j :| 0 <= j < |rest| && rest[j] == keys[0];
        assert keys[0] == keys[j + 1];
      } else {
        assert DistinctKeys(keys) <==> DistinctKeys(rest);
      }
    }
  }

  /** `save()` over the interface's result and every peer's: the interface
      error first, then the first peer error, then duplicate public keys;
      the saved tunnel is named after the interface. */
  function Collate(iface: Result<(string, InterfaceConfiguration), TunnelSavingError>,
                   peers: seq<Result<PeerConfiguration, TunnelSavingError>>): Result<TunnelConfiguration, TunnelSavingError> {
    match iface
    case Failure(e) => Failure(e)
    case Success((name, interface)) =>
      match CollectPeers(peers)
      case Failure(e) => Failure(e)
      case Success(configurations) =>
        var keys := PublicKeys(configurations);
        if |keys| != |set k | k in keys| then Failure(PublicKeyDuplicated)
        else Success(TunnelConfiguration(Some(name), interface, configurations))
  }

  /** A tunnel saves exactly when its interface and every peer save and no
      two peers share a public key; it then holds the interface, the peers
      in order and the interface's name. */
  lemma CollateSucceeds(iface: Result<(string, InterfaceConfiguration), TunnelSavingError>,
                        peers: seq<Result<PeerConfiguration, TunnelSavingError>>)
    ensures Collate(iface, peers).Success? <==>
      iface.Success? && (forall k :: 0 <= k < |peers| ==> peers[k].Success?)
      && forall i, j :: 0 <= i < j < |peers| ==> peers[i].value.publicKey != peers[j].value.publicKey
    ensures Collate(iface, peers).Success? ==>
      var c := Collate(iface, peers).value;
      c.name == Some(iface.value.0) && c.interface == iface.value.1 && |c.peers| == |peers|
      && (forall k :: 0 <= k < |peers| ==> c.peers[k] == peers[k].value) && DistinctPublicKeys(c.peers)
  {
    if iface.Success? && CollectPeers(peers).Success? {
      SetSizeIffDistinct(PublicKeys(CollectPeers(peers).value));
    }
  }

  /** The errors come in order: the interface's, then the first failing
      peer's, and only then the duplicate key. */
  lemma CollateFails(iface: Result<(string, InterfaceConfiguration), TunnelSavingError>,
                     peers: seq<Result<PeerConfiguration, TunnelSavingError>>)
    ensures iface.Failure? ==> Collate(iface, peers) == Failure(iface.error)
    ensures iface.Success? && (exists k :: 0 <= k < |peers| && peers[k].Failure?) ==>
      exists k :: 0 <= k < |peers| && peers[k].Failure? && Collate(iface, peers) == Failure(peers[k].error) && forall j :: 0 <= j < k ==> peers[j].Success?
    ensures (iface.Success? && (forall k :: 0 <= k < |peers| ==> peers[k].Success?)
             && exists i, j :: 0 <= i < j < |peers| && peers[i].value.publicKey == peers[j].value.publicKey) ==>
      Collate(iface, peers) == Failure(PublicKeyDuplicated)
  {
    if iface.Success? && CollectPeers(peers).Success? {
      SetSizeIffDistinct(PublicKeys(CollectPeers(peers).value));
    }
  }

  // ---------------------------------------------------------------- DNS servers in the allowed IPs

  /** The entries of a comma list that parse as address ranges, as text
      (`compactMap { IPAddressRange(from:) }.map { $0.stringRepresentation }`). */
  function RangeTexts(items: seq<string>): (r: seq<string>)
    ensures |r| <= |items|
  {
    if items == [] then []
    else
      (match ParseAddressRange(items[0])
       case Some(range) => [AddressRangeText(range)]
       case None => []) + RangeTexts(items[1..])
  }

  /** The entries of `xs` that are not in `ys`, in order. */
  function Without(xs: seq<string>, ys: seq<string>): (r: seq<string>)
    ensures |r| <= |xs|
    ensures forall x :: x in r <==> x in xs && x !in ys
  {
    if xs == [] then []
    else if xs[0] in ys then Without(xs[1..], ys)
    else [xs[0]] + Without(xs[1..], ys)
  }

  /** The allowed IPs after the DNS servers change: the old servers' ranges
      leave, the new servers' ranges join at the end. */
  function ReplacedServers(allowed: string, oldServers: string, newServers: string): seq<string> {
    Without(SplitToArray(allowed, DefaultSeparator, true), RangeTexts(SplitToArray(oldServers, DefaultSeparator, true)))
      + RangeTexts(SplitToArray(newServers, DefaultSeparator, true))
  }

  /** An entry is in the new allowed IPs exactly when it was there and was
      not an old server's, or it is a new server's. */
  lemma ReplacedServersMembers(allowed: string, oldServers: string, newServers: string, x: string)
    ensures x in ReplacedServers(allowed, oldServers, newServers) <==>
      (x in SplitToArray(allowed, DefaultSeparator, true) && x !in RangeTexts(SplitToArray(oldServers, DefaultSeparator, true)))
      || x in RangeTexts(SplitToArray(newServers, DefaultSeparator, true))
  {
  }

  /** Every entry `RangeTexts` keeps is a parsed range's text, so a list
      item. */
  lemma {:induction false} RangeTextsAreItems(items: seq<string>)
    ensures forall k :: 0 <= k < |RangeTexts(items)| ==> IsListItem(RangeTexts(items)[k], ',')
  {
    if items != [] {
      RangeTextsAreItems(items[1..]);
      match ParseAddressRange(items[0])
      case Some(range) => I.RangeTextIsItem(range);
      case None =>
    }
  }

  /** When the old allowed IPs were clean list items, the joined text the
      peer stores reads back as exactly the new list. */
  lemma ReplacedServersReadBack(allowed: string, oldServers: string, newServers: string)
    requires forall x :: x in SplitToArray(allowed, DefaultSeparator, true) ==> IsListItem(x, ',')
    ensures SplitToArray(Join(ReplacedServers(allowed, oldServers, newServers), ", "), DefaultSeparator, true)
      == ReplacedServers(allowed, oldServers, newServers)
  {
    var news := RangeTexts(SplitToArray(newServers, DefaultSeparator, true));
    RangeTextsAreItems(SplitToArray(newServers, DefaultSeparator, true));
    var xs := ReplacedServers(allowed, oldServers, newServers);
    forall k | 0 <= k < |xs|
      ensures IsListItem(xs[k], ',')
    {
      var kept := Without(SplitToArray(allowed, DefaultSeparator, true), RangeTexts(SplitToArray(oldServers, DefaultSeparator, true)));
      if k < |kept| {
        assert xs[k] in kept;
      } else {
        assert xs[k] == news[k - |kept|];
      }
    }
    CommaListRoundTrip(xs);
  }

  // ---------------------------------------------------------------- the class

  /** No peer object appears twice. */
  predicate Distinct(peers: seq<P.PeerModel>) {
    forall i, j :: 0 <= i < j < |peers| ==> peers[i] != peers[j]
  }

  /** Each peer's save result, as its `save()` would give it. */
  function PeerOutcomes(peers: seq<P.PeerModel>): (r: seq<Result<PeerConfiguration, TunnelSavingError>>)
    reads (set p | p in peers)`validatedConfiguration, (set p | p in peers)`data
    ensures |r| == |peers|
    ensures forall k :: 0 <= k < |peers| ==> r[k] == P.SaveOutcome(peers[k].validatedConfiguration, peers[k].data)
  {
    if peers == [] then []
    else [P.SaveOutcome(peers[0].validatedConfiguration, peers[0].data)] + PeerOutcomes(peers[1..])
  }

  /** One peer after `updatePeers()`: it knows the peer count, shows the
      given fields, and its flags agree with them. */
  ghost predicate PeerUpdated(p: P.PeerModel, numberOfPeers: int, shown: P.PeerData)
    reads p`numberOfPeers, p`data, p`shouldAllowExcludePrivateIPsControl, p`excludePrivateIPsValue,
      p`shouldStronglyRecommendDNS
  {
    p.numberOfPeers == numberOfPeers && p.data == shown && p.FlagsCurrent()
  }

  /** The peers after `updatePeers()`. */
  ghost predicate PeersUpdated(peers: seq<P.PeerModel>, shown: seq<P.PeerData>)
    reads set p | p in peers
  {
    |shown| == |peers| && forall k :: 0 <= k < |peers| ==> PeerUpdated(peers[k], |peers|, shown[k])
  }

  /** What each peer shows before `updatePeers()`. */
  function ShownOf(peers: seq<P.PeerModel>): (r: seq<P.PeerData>)
    reads (set p | p in peers)`data, (set p | p in peers)`validatedConfiguration
    ensures |r| == |peers| && forall k :: 0 <= k < |peers| ==> r[k] == peers[k].Shown()
  {
    if peers == [] then [] else [peers[0].Shown()] + ShownOf(peers[1..])
  }

  /** The peers before position `i` are updated, the rest still show what
      they showed. */
  ghost predicate UpdatedUpTo(peers: seq<P.PeerModel>, numberOfPeers: int, shown: seq<P.PeerData>, i: int)
    reads set p | p in peers
  {
    0 <= i <= |peers| == |shown|
    && (forall k :: 0 <= k < i ==> PeerUpdated(peers[k], numberOfPeers, shown[k]))
    && forall k :: i <= k < |peers| ==> peers[k].Shown() == shown[k]
  }

  /** One turn of the loop in `updatePeers()`. */
  method UpdatePeerAt(peers: seq<P.PeerModel>, i: int, peer: P.PeerModel, numberOfPeers: int, ghost shown: seq<P.PeerData>)
    requires Distinct(peers) && 0 <= i < |peers| && peer == peers[i] && UpdatedUpTo(peers, numberOfPeers, shown, i)
    modifies peer`numberOfPeers, peer`data, peer`shouldAllowExcludePrivateIPsControl,
      peer`excludePrivateIPsValue, peer`shouldStronglyRecommendDNS
    ensures UpdatedUpTo(peers, numberOfPeers, shown, i + 1)
  {
    peer.numberOfPeers := numberOfPeers;
    peer.UpdateExcludePrivateIPs();
  }

  /** `updatePeers()`: tell every peer the peer count and refresh its flags. */
  method UpdatePeers(peers: seq<P.PeerModel>, ghost shown: seq<P.PeerData>)
    requires Distinct(peers) && shown == ShownOf(peers)
    modifies (set p | p in peers)`numberOfPeers, (set p | p in peers)`data,
      (set p | p in peers)`shouldAllowExcludePrivateIPsControl, (set p | p in peers)`excludePrivateIPsValue,
      (set p | p in peers)`shouldStronglyRecommendDNS
    ensures PeersUpdated(peers, shown)
  {
    var numberOfPeers := |peers|;
    var i := 0;
    while i < |peers|
      invariant UpdatedUpTo(peers, numberOfPeers, shown, i)
    {
      UpdatePeerAt(peers, i, peers[i], numberOfPeers, shown);
      i := i + 1;
    }
  }

  class TunnelModel {
    var interfaceModel: I.InterfaceModel
    var peersModel: seq<P.PeerModel>

    /** Every peer object once, and each knows its own position. */
    ghost predicate Valid()
      reads this, (set p | p in peersModel)`index
    {
      Distinct(peersModel) && forall k :: 0 <= k < |peersModel| ==> peersModel[k].index == k
    }

    /** `init(tunnelConfiguration:)`: the interface pad over the saved
        interface and name, one peer pad per saved peer, then the flags. */
    constructor (tunnelConfiguration: Option<TunnelConfiguration>, publicKeyOf: Key -> Key)
      ensures Valid()
      ensures fresh(interfaceModel) && forall k :: 0 <= k < |peersModel| ==> fresh(peersModel[k])
      ensures interfaceModel.data == map[] && interfaceModel.publicKeyOf == publicKeyOf
      ensures tunnelConfiguration.None? ==> interfaceModel.Cached().None? && peersModel == []
      ensures tunnelConfiguration.Some? ==>
        interfaceModel.validatedConfiguration == Some(tunnelConfiguration.value.interface)
        && interfaceModel.validatedName == tunnelConfiguration.value.name
        && PeersHold(peersModel, tunnelConfiguration.value.peers)
        && PeersUpdated(peersModel, AllFilled(tunnelConfiguration.value.peers))
    {
      var peersData := InitialPeers(if tunnelConfiguration.Some? then tunnelConfiguration.value.peers else []);
      interfaceModel := new I.InterfaceModel(
        if tunnelConfiguration.Some? then Some(tunnelConfiguration.value.interface) else None,
        if tunnelConfiguration.Some? then tunnelConfiguration.value.name else None,
        publicKeyOf);
      peersModel := peersData;
    }

    /** `appendEmptyPeer()`: a blank peer pad at the end, then the flags. */
    method AppendEmptyPeer()
      requires Valid()
      modifies this`peersModel, (set p | p in peersModel)`numberOfPeers, (set p | p in peersModel)`data,
        (set p | p in peersModel)`shouldAllowExcludePrivateIPsControl, (set p | p in peersModel)`excludePrivateIPsValue,
        (set p | p in peersModel)`shouldStronglyRecommendDNS
      ensures Valid()
      ensures |peersModel| == |old(peersModel)| + 1 && peersModel[..|old(peersModel)|] == old(peersModel)
      ensures fresh(peersModel[|old(peersModel)|])
      ensures peersModel[|old(peersModel)|].validatedConfiguration.None?
      ensures PeersUpdated(peersModel, old(ShownOf(peersModel)) + [map[]])
    {
      ghost var shown := ShownOf(peersModel);
      var peer := new P.PeerModel(|peersModel|);
      var peers := peersModel + [peer];
      ShownOfAppended(peersModel, peer, shown);
      AppendedValid(peersModel, peer);
      peersModel := peers;
      UpdatePeers(peers, shown + [map[]]);
    }

    /** `deletePeer(peer:)`: drop the pad at the peer's position, move every
        later pad one place down, then the flags. */
    method DeletePeer(peer: P.PeerModel)
      requires Valid() && 0 <= peer.index < |peersModel|
      modifies this`peersModel, (set p | p in peersModel)`index, (set p | p in peersModel)`numberOfPeers,
        (set p | p in peersModel)`data, (set p | p in peersModel)`shouldAllowExcludePrivateIPsControl,
        (set p | p in peersModel)`excludePrivateIPsValue, (set p | p in peersModel)`shouldStronglyRecommendDNS
      ensures Valid()
      ensures peersModel == old(peersModel[..peer.index] + peersModel[peer.index + 1..])
      ensures PeersUpdated(peersModel, old(ShownOf(peersModel[..peer.index] + peersModel[peer.index + 1..])))
    {
      var at := peer.index;
      var peers := peersModel[..at] + peersModel[at + 1..];
      RemovedKeepsOrder(peersModel, at);
      ghost var shown := ShownOf(peers);
      LowerIndices(peers, at);
      assert ShownOf(peers) == shown;
      peersModel := peers;
      UpdatePeers(peers, shown);
    }

    /** `updateDNSServersIfRequired(oldServers:newServers:)`: only for a
        single peer whose "exclude private IPs" control is offered and on,
        the old servers' ranges leave its allowed IPs and the new servers'
        join them. */
    method UpdateDNSServersIfRequired(oldServers: string, newServers: string) returns (updated: bool)
      modifies (if peersModel == [] then {} else {peersModel[0]})`data,
        (if peersModel == [] then {} else {peersModel[0]})`validatedConfiguration,
        (if peersModel == [] then {} else {peersModel[0]})`shouldAllowExcludePrivateIPsControl,
        (if peersModel == [] then {} else {peersModel[0]})`excludePrivateIPsValue,
        (if peersModel == [] then {} else {peersModel[0]})`shouldStronglyRecommendDNS
      ensures updated == (|peersModel| == 1 && old(peersModel[0].shouldAllowExcludePrivateIPsControl && peersModel[0].excludePrivateIPsValue))
      ensures updated ==>
        var shown := old(peersModel[0].Shown());
        peersModel[0].data == P.WithField(shown, P.AllowedIPsField,
          Join(ReplacedServers(P.Lookup(shown, P.AllowedIPsField), oldServers, newServers), ", "))
        && peersModel[0].validatedConfiguration.None? && peersModel[0].FlagsCurrent()
      ensures !updated && peersModel != [] ==>
        peersModel[0].data == old(peersModel[0].data) && peersModel[0].Flags() == old(peersModel[0].Flags())
        && peersModel[0].validatedConfiguration == old(peersModel[0].validatedConfiguration)
    {
      if |peersModel| != 1 {
        return false;
      }
      var firstPeer := peersModel[0];
      if !(firstPeer.shouldAllowExcludePrivateIPsControl && firstPeer.excludePrivateIPsValue) {
        return false;
      }
      ghost var shown := firstPeer.Shown();
      var allowed := firstPeer.Get(P.AllowedIPsField);
      var allowedIPStrings := SplitToArray(allowed, DefaultSeparator, true);
      var oldStrings := RangeTexts(SplitToArray(oldServers, DefaultSeparator, true));
      var newStrings := RangeTexts(SplitToArray(newServers, DefaultSeparator, true));
      var updatedAllowedIPStrings := Without(allowedIPStrings, oldStrings) + newStrings;
      assert firstPeer.Shown() == shown;
      firstPeer.Set(P.AllowedIPsField, Join(updatedAllowedIPStrings, ", "));
      return true;
    }

    /** `save()`: the interface and every peer are saved (each caches a
        success), then the results are collated. */
    method Save() returns (r: Result<TunnelConfiguration, TunnelSavingError>)
      requires Distinct(peersModel)
      modifies interfaceModel`validatedConfiguration, interfaceModel`validatedName,
        (set p | p in peersModel)`validatedConfiguration
      ensures r == Collate(old(interfaceModel.SaveOutcome()), old(PeerOutcomes(peersModel)))
      ensures old(interfaceModel.SaveOutcome()).Success? ==>
        interfaceModel.Cached() == Some(old(interfaceModel.SaveOutcome()).value)
      ensures SavedCaches(peersModel, old(PeerOutcomes(peersModel)), old(CachesOf(peersModel)))
    {
      ghost var peerOutcomes := PeerOutcomes(peersModel);
      ghost var caches := CachesOf(peersModel);
      var interfaceSaveResult := interfaceModel.Save();
      assert PeerOutcomes(peersModel) == peerOutcomes && CachesOf(peersModel) == caches;
      var peerSaveResults := SavePeers(peersModel);
      r := CollateResults(interfaceSaveResult, peerSaveResults);
    }

    /** `asWireGuardConfig()`: the wg-quick text of the saved tunnel, or
        nothing when it does not save. */
    method AsWireGuardConfig() returns (text: Option<string>)
      requires Distinct(peersModel)
      modifies interfaceModel`validatedConfiguration, interfaceModel`validatedName,
        (set p | p in peersModel)`validatedConfiguration
      ensures var saved := Collate(old(interfaceModel.SaveOutcome()), old(PeerOutcomes(peersModel)));
        text == if saved.Success? then Some(WgQuickText(saved.value)) else None
    {
      var saved := Save();
      if saved.Failure? {
        return None;
      }
      var output := WireGuardConfig.AsWireGuardConfig(saved.value);
      text := Some(output);
    }
  }

  /** The peer pads of `init(tunnelConfiguration:)` after `updatePeers()`. */
  method InitialPeers(configurations: seq<PeerConfiguration>) returns (peers: seq<P.PeerModel>)
    ensures Distinct(peers) && forall k :: 0 <= k < |peers| ==> fresh(peers[k]) && peers[k].index == k
    ensures PeersHold(peers, configurations) && PeersUpdated(peers, AllFilled(configurations))
  {
    peers := NewPeers(configurations);
    UpdatePeers(peers, AllFilled(configurations));
  }

  /** A pad appended after distinct pads, at the next index, keeps them
      distinct and each at its own index. */
  lemma AppendedValid(peers: seq<P.PeerModel>, peer: P.PeerModel)
    requires Distinct(peers) && peer !in peers && peer.index == |peers|
    requires forall k :: 0 <= k < |peers| ==> peers[k].index == k
    ensures Distinct(peers + [peer]) && forall k :: 0 <= k < |peers| + 1 ==> (peers + [peer])[k].index == k
  {
    assert forall k :: 0 <= k < |peers| ==> (peers + [peer])[k] == peers[k];
  }

  /** The peer pads of `init(tunnelConfiguration:)`, one per saved peer,
      each holding it as its cache. */
  method NewPeers(configurations: seq<PeerConfiguration>) returns (peers: seq<P.PeerModel>)
    ensures |peers| == |configurations| && Distinct(peers)
    ensures forall k :: 0 <= k < |peers| ==> fresh(peers[k]) && peers[k].index == k
    ensures PeersHold(peers, configurations) && ShownOf(peers) == AllFilled(configurations)
  {
    peers := [];
    var index := 0;
    while index < |configurations|
      invariant 0 <= index <= |configurations| && |peers| == index && Distinct(peers)
      invariant forall k :: 0 <= k < index ==>
        fresh(peers[k]) && peers[k].index == k && peers[k].data == map[]
        && peers[k].validatedConfiguration == Some(configurations[k])
    {
      var peerData := new P.PeerModel(index);
      peerData.validatedConfiguration := Some(configurations[index]);
      peers := peers + [peerData];
      index := index + 1;
    }
    assert ShownOf(peers) == AllFilled(configurations);
  }

  /** Every pad holds the saved peer at its position as its cache. */
  ghost predicate PeersHold(peers: seq<P.PeerModel>, configurations: seq<PeerConfiguration>)
    reads (set p | p in peers)`validatedConfiguration
  {
    |peers| == |configurations|
    && forall k :: 0 <= k < |peers| ==> peers[k].validatedConfiguration == Some(configurations[k])
  }

  /** What `fillData()` shows for each saved peer. */
  function AllFilled(configurations: seq<PeerConfiguration>): (r: seq<P.PeerData>)
    ensures |r| == |configurations| && forall k :: 0 <= k < |r| ==> r[k] == P.FilledFields(configurations[k])
  {
    seq(|configurations|, k requires 0 <= k < |configurations| => P.FilledFields(configurations[k]))
  }

  /** A fresh blank pad shows nothing. */
  lemma ShownOfAppended(peers: seq<P.PeerModel>, peer: P.PeerModel, shown: seq<P.PeerData>)
    requires peer.data == map[] && peer.validatedConfiguration.None? && shown == ShownOf(peers)
    ensures ShownOf(peers + [peer]) == shown + [map[]]
  {
    var r := ShownOf(peers + [peer]);
    assert forall k :: 0 <= k < |peers| ==> (peers + [peer])[k] == peers[k];
    assert r[|peers|] == map[];
  }

  /** Dropping one pad keeps the others distinct and in order. */
  lemma RemovedKeepsOrder(peers: seq<P.PeerModel>, at: int)
    requires Distinct(peers) && 0 <= at < |peers|
    ensures var rest := peers[..at] + peers[at + 1..];
      Distinct(rest) && |rest| == |peers| - 1
      && (forall k :: 0 <= k < at ==> rest[k] == peers[k])
      && (forall k :: at <= k < |rest| ==> rest[k] == peers[k + 1])
  {
    var rest := peers[..at] + peers[at + 1..];
    assert forall k :: 0 <= k < at ==> rest[k] == peers[k];
    assert forall k :: at <= k < |rest| ==> rest[k] == peers[k + 1];
  }

  /** The `forEach { $0.index -= 1 }` over the pads after the deleted one. */
  method LowerIndices(peers: seq<P.PeerModel>, at: int)
    requires Distinct(peers) && 0 <= at <= |peers|
    requires forall k :: at <= k < |peers| ==> peers[k].index == k + 1
    modifies (set p | p in peers)`index
    ensures forall k :: at <= k < |peers| ==> peers[k].index == k
    ensures forall k :: 0 <= k < at ==> peers[k].index == old(peers[k].index)
  {
    var i := at;
    while i < |peers|
      invariant at <= i <= |peers|
      invariant forall k :: 0 <= k < at ==> peers[k].index == old(peers[k].index)
      invariant forall k :: at <= k < i ==> peers[k].index == k
      invariant forall k :: i <= k < |peers| ==> peers[k].index == k + 1
    {
      peers[i].index := peers[i].index - 1;
      i := i + 1;
    }
  }

  /** Each pad's cache, in order. */
  function CachesOf(peers: seq<P.PeerModel>): (r: seq<Option<PeerConfiguration>>)
    reads (set p | p in peers)`validatedConfiguration
    ensures |r| == |peers| && forall k :: 0 <= k < |peers| ==> r[k] == peers[k].validatedConfiguration
  {
    if peers == [] then [] else [peers[0].validatedConfiguration] + CachesOf(peers[1..])
  }

  /** After saving, a pad whose save succeeded caches the result, and the
      others keep the cache they had. */
  ghost predicate SavedCaches(peers: seq<P.PeerModel>, outcomes: seq<Result<PeerConfiguration, TunnelSavingError>>,
                              caches: seq<Option<PeerConfiguration>>)
    reads (set p | p in peers)`validatedConfiguration
  {
    |outcomes| == |caches| == |peers|
    && forall k :: 0 <= k < |peers| ==>
      peers[k].validatedConfiguration == if outcomes[k].Success? then Some(outcomes[k].value) else caches[k]
  }

  /** `peersModel.map { $0.save() }`. */
  method SavePeers(peers: seq<P.PeerModel>) returns (results: seq<Result<PeerConfiguration, TunnelSavingError>>)
    requires Distinct(peers)
    modifies (set p | p in peers)`validatedConfiguration
    ensures results == old(PeerOutcomes(peers))
    ensures SavedCaches(peers, results, old(CachesOf(peers)))
  {
    ghost var outcomes := PeerOutcomes(peers);
    ghost var caches := CachesOf(peers);
    results := [];
    var i := 0;
    while i < |peers|
      invariant 0 <= i <= |peers| && |results| == i
      invariant forall k :: 0 <= k < i ==> results[k] == outcomes[k]
      invariant forall k :: 0 <= k < i ==>
        peers[k].validatedConfiguration == if outcomes[k].Success? then Some(outcomes[k].value) else caches[k]
      invariant forall k :: i <= k < |peers| ==> peers[k].validatedConfiguration == caches[k]
    {
      label before:
      var peerSaveResult := peers[i].Save();
      assert peerSaveResult == outcomes[i];
      forall k | 0 <= k < |peers| && k != i
        ensures peers[k].validatedConfiguration == old@before(peers[k].validatedConfiguration)
      {
        assert peers[k] != peers[i];
      }
      results := results + [peerSaveResult];
      i := i + 1;
    }
  }

  /** The `switch` at the end of `save()`, run over the results in hand. */
  method CollateResults(interfaceSaveResult: Result<(string, InterfaceConfiguration), TunnelSavingError>,
                        peerSaveResults: seq<Result<PeerConfiguration, TunnelSavingError>>)
    returns (r: Result<TunnelConfiguration, TunnelSavingError>)
    ensures r == Collate(interfaceSaveResult, peerSaveResults)
  {
    if interfaceSaveResult.Failure? {
      return Failure(interfaceSaveResult.error);
    }
    var peerConfigurations := [];
    var i := 0;
    while i < |peerSaveResults|
      invariant 0 <= i <= |peerSaveResults| && |peerConfigurations| == i
      invariant forall k :: 0 <= k < i ==> peerSaveResults[k].Success? && peerConfigurations[k] == peerSaveResults[k].value
    {
      if peerSaveResults[i].Failure? {
        CollectFirstFailure(peerSaveResults, i);
        return Failure(peerSaveResults[i].error);
      }
      peerConfigurations := peerConfigurations + [peerSaveResults[i].value];
      i := i + 1;
    }
    CollectAllSucceed(peerSaveResults, peerConfigurations);
    var peerPublicKeysArray := PublicKeys(peerConfigurations);
    var peerPublicKeysSet := set k | k in peerPublicKeysArray;
    if |peerPublicKeysArray| != |peerPublicKeysSet| {
      return Failure(PublicKeyDuplicated);
    }
    r := Success(TunnelConfiguration(Some(interfaceSaveResult.value.0), interfaceSaveResult.value.1, peerConfigurations));
  }

  /** With no failure, the configurations collected are the results' values. */
  lemma CollectAllSucceed(rs: seq<Result<PeerConfiguration, TunnelSavingError>>, cs: seq<PeerConfiguration>)
    requires |cs| == |rs| && forall k :: 0 <= k < |rs| ==> rs[k].Success? && cs[k] == rs[k].value
    ensures CollectPeers(rs) == Success(cs)
  {
    assert CollectPeers(rs).value == cs;
  }

  /** The first failing result is the one `CollectPeers` reports. */
  lemma {:induction false} CollectFirstFailure(rs: seq<Result<PeerConfiguration, TunnelSavingError>>, i: int)
    requires 0 <= i < |rs| && rs[i].Failure? && forall k :: 0 <= k < i ==> rs[k].Success?
    ensures CollectPeers(rs) == Failure(rs[i].error)
  {
    if i > 0 {
      CollectFirstFailure(rs[1..], i - 1);
    }
  }
}
