/** `TunnelManager` (SOLARdVPNCommunityCoreiOS/Services/Tunnel/Manager/TunnelManager.swift):
    owns the one tunnel model the app edits, fills it from the connection
    data a node hands out, and saves it into the tunnels service, adding the
    tunnel the first time and modifying the last tunnel afterwards. The
    delegate calls an operation makes are returned, in order, as
    `notices`. The service answers
    `add` and `modify` asynchronously, so a save returns the request it
    makes, and the answers come back through `AddCompleted` and
    `ModifyCompleted`. */
module TunnelManagers {
  import opened Wrappers
  import opened Text
  import opened ArrayConversion
  import opened WireGuardKit
  import opened TunnelStatuses
  import opened TunnelErrors
  import opened TunnelProviders
  import I = TunnelInterfaceModels
  import P = PeersModels
  import T = TunnelModels
  import D = DNSServerTypes
  import G = GeneralSettings
  import C = TunnelContainers
  import S = TunnelsServices

  const PersistentKeepAlive: string := "25"
  const AllowedIPs: string := "0.0.0.0/0"
  const TunnelName: string := "dVPN tunnel"

  /** The errors the delegate's `handleError` receives. */
  datatype ManagerError = SavingError(savingError: TunnelSavingError) | ServiceError(serviceError: TunnelsServiceError)

  /** One call of a `TunnelManagerDelegate` method. */
  datatype ManagerEvent = UpdatingStatus | HandledError(error: ManagerError) | Reconnection | ServiceCreation

  // ---------------------------------------------------------------- the connection data

  /** The connection data is read up to byte 57: the interface address in
      bytes 0-3, the node's address in bytes 20-23, the port in bytes 24-25
      and the node's public key in bytes 26-57. */
  const ConnectionDataLength: nat := 58

  /** The address field: bytes 0-3 as a dotted quad, with prefix 32. */
  function AddressText(data: seq<Byte>): string
    requires |data| >= ConnectionDataLength
  {
    IPv4Text(data[..4]) + "/32"
  }

  /** Bytes 24 and 25, big-endian: byte 24 is the port's high byte and
      byte 25 its low byte. */
  function Port(data: seq<Byte>): (port: UInt16)
    requires |data| >= ConnectionDataLength
    ensures port / 256 == data[24] as int && port % 256 == data[25] as int
  {
    (data[24] as int) * 256 + data[25] as int
  }

  function PortText(data: seq<Byte>): string
    requires |data| >= ConnectionDataLength
  {
    NatToDecimal(Port(data))
  }

  /** The endpoint field: bytes 20-23 as a dotted quad, then the port. */
  function EndpointField(data: seq<Byte>): string
    requires |data| >= ConnectionDataLength
  {
    IPv4Text(data[20..24]) + ":" + PortText(data)
  }

  /** `PublicKey(rawValue:)`: exactly 32 bytes make a key. */
  function PublicKeyFromRaw(bytes: seq<Byte>): (r: Option<Key>)
    ensures r.Some? <==> |bytes| == 32
  {
    if |bytes| == 32 then Some(bytes) else None
  }

  /** The peer's public-key field: the base64 of bytes 26-57, or "" when
      they do not make a key. */
  function PeerKeyText(data: seq<Byte>): string
    requires |data| >= ConnectionDataLength
  {
    match PublicKeyFromRaw(data[26..58])
    case Some(k) => KeyToBase64(k)
    case None => ""
  }

  lemma DottedQuadIsHost(a: IPv4)
    ensures IsHostText(IPv4Text(a))
  {
    var h := IPv4Text(a);
    IPv4TextChars(a);
    forall i | 0 <= i < |h| ensures IsURLHostChar(h[i]) && h[i] != ':' {
      assert h[i] in IPv4Chars;
    }
  }

  /** The address field reads back as bytes 0-3 with prefix 32. */
  lemma AddressReadsBack(data: seq<Byte>)
    requires |data| >= ConnectionDataLength
    ensures ParseAddressRange(AddressText(data)) == Some(AddressRange(data[..4], 32))
  {
    var range := AddressRange(data[..4], 32);
    assert NatToDecimal(32) == "32";
    assert AddressRangeText(range) == AddressText(data);
    AddressRangeRoundTrip(range);
  }

  /** The listen-port field reads back as the big-endian port. */
  lemma PortReadsBack(data: seq<Byte>)
    requires |data| >= ConnectionDataLength
    ensures ParseUnsigned(PortText(data), UInt16Max) == Some(Port(data))
  {
    ParseUnsignedDecimal(Port(data), UInt16Max);
  }

  /** The endpoint field reads back as the node's dotted quad and the same
      port. */
  lemma EndpointReadsBack(data: seq<Byte>)
    requires |data| >= ConnectionDataLength
    ensures ParseEndpoint(EndpointField(data)).Some?
    ensures ParseEndpoint(EndpointField(data)).value.host == IPv4Text(data[20..24])
    ensures ParseEndpoint(EndpointField(data)).value.port == Port(data)
  {
    DottedQuadIsHost(data[20..24]);
    var endpoint := Endpoint(IPv4Text(data[20..24]), Port(data));
    assert EndpointText(endpoint) == EndpointField(data);
    EndpointRoundTrip(endpoint);
  }

  /** The peer's key field is never the "" fallback, since the slice always
      has 32 bytes, and reads back as those bytes. */
  lemma PeerKeyReadsBack(data: seq<Byte>)
    requires |data| >= ConnectionDataLength
    ensures PeerKeyText(data) != "" && KeyFromBase64(PeerKeyText(data)) == Some(data[26..58])
  {
    var key: Key := data[26..58];
    KeyBase64RoundTrip(key);
    KeyBase64Length(key);
  }

  lemma KeyBase64Length(k: Key)
    ensures |KeyToBase64(k)| == I.KeyLengthInBase64
  {
    KeyBase64RoundTrip(k);
  }

  /** The interface fields after `createNewProfile`: both keys, the
      selected provider's DNS servers, the address and the listen port (none
      of these texts is empty, see `ProfileInterfaceEdits`). */
  function ProfileInterface(shown: I.InterfaceData, privateKey: Key, publicKeyOf: Key -> Key,
                            dns: D.DNSServerType, data: seq<Byte>): I.InterfaceData
    requires |data| >= ConnectionDataLength
  {
    shown[I.PrivateKeyField := KeyToBase64(privateKey)][I.PublicKeyField := KeyToBase64(publicKeyOf(privateKey))]
      [I.DNSField := D.Address(dns)][I.AddressesField := AddressText(data)][I.ListenPortField := PortText(data)]
  }

  /** Setting the private key (which derives the public key), the public
      key, the DNS servers, the address and the port, in the order of
      `createNewProfile`, gives `ProfileInterface`. */
  lemma ProfileInterfaceEdits(shown: I.InterfaceData, privateKey: Key, publicKeyOf: Key -> Key,
                              dns: D.DNSServerType, data: seq<Byte>)
    requires |data| >= ConnectionDataLength
    ensures var d1 := I.WithField(shown, I.PrivateKeyField, KeyToBase64(privateKey), publicKeyOf);
      var d2 := I.WithField(d1, I.PublicKeyField, KeyToBase64(publicKeyOf(privateKey)), publicKeyOf);
      var d3 := I.WithField(d2, I.DNSField, D.Address(dns), publicKeyOf);
      var d4 := I.WithField(d3, I.AddressesField, AddressText(data), publicKeyOf);
      I.WithField(d4, I.ListenPortField, PortText(data), publicKeyOf) == ProfileInterface(shown, privateKey, publicKeyOf, dns, data)
  {
    var key, derived := KeyToBase64(privateKey), KeyToBase64(publicKeyOf(privateKey));
    KeyBase64RoundTrip(privateKey);
    var d1 := I.WithField(shown, I.PrivateKeyField, key, publicKeyOf);
    assert d1 == shown[I.PrivateKeyField := key][I.PublicKeyField := derived];
    var d2 := I.WithField(d1, I.PublicKeyField, derived, publicKeyOf);
    assert d2 == shown[I.PrivateKeyField := key][I.PublicKeyField := derived];
    assert D.Address(dns) != "";
    assert AddressText(data) != "";
  }

  /** Peer 0's fields after `createNewProfile`: the endpoint and the
      node's public key (both texts are never empty, see `ProfilePeerEdits`). */
  function ProfilePeer(shown: P.PeerData, data: seq<Byte>): P.PeerData
    requires |data| >= ConnectionDataLength
  {
    shown[P.EndpointField := EndpointField(data)][P.PublicKeyField := PeerKeyText(data)]
  }

  /** Setting the endpoint and then the key, as the two subscripts of
      `createNewProfile` do, gives `ProfilePeer`: neither text is empty, so
      neither assignment clears its field. */
  lemma ProfilePeerEdits(shown: P.PeerData, data: seq<Byte>)
    requires |data| >= ConnectionDataLength
    ensures P.WithField(P.WithField(shown, P.EndpointField, EndpointField(data)), P.PublicKeyField, PeerKeyText(data))
      == ProfilePeer(shown, data)
  {
    KeyBase64Length(PublicKeyFromRaw(data[26..58]).value);
    assert PeerKeyText(data) != "";
    assert EndpointField(data)[|IPv4Text(data[20..24])|] == ':';
  }

  /** The profile's interface holds the supplied key, its derived public
      key, the DNS text, the address and the port, and keeps every field it
      does not write (the name in particular). */
  lemma ProfileInterfaceFields(shown: I.InterfaceData, privateKey: Key, publicKeyOf: Key -> Key, dns: D.DNSServerType, data: seq<Byte>)
    requires |data| >= ConnectionDataLength
    ensures var d := ProfileInterface(shown, privateKey, publicKeyOf, dns, data);
      I.Lookup(d, I.PrivateKeyField) == KeyToBase64(privateKey)
      && I.Lookup(d, I.PublicKeyField) == KeyToBase64(publicKeyOf(privateKey))
      && I.Lookup(d, I.DNSField) == D.Address(dns)
      && I.Lookup(d, I.AddressesField) == AddressText(data)
      && I.Lookup(d, I.ListenPortField) == PortText(data)
      && I.Field(d, I.NameField) == I.Field(shown, I.NameField)
      && I.Field(d, I.MTUField) == I.Field(shown, I.MTUField)
  {
  }

  /** Peer 0 holds the node's endpoint and key and keeps its other fields
      (the allowed IPs and keepalive in particular). */
  lemma ProfilePeerFields(shown: P.PeerData, data: seq<Byte>)
    requires |data| >= ConnectionDataLength
    ensures var d := ProfilePeer(shown, data);
      P.Lookup(d, P.EndpointField) == EndpointField(data) && P.Lookup(d, P.PublicKeyField) == PeerKeyText(data)
      && forall g :: g != P.EndpointField && g != P.PublicKeyField ==> P.Field(d, g) == P.Field(shown, g)
  {
  }

  // ---------------------------------------------------------------- prepareTunnelModel

  /** Peer 0's fields after `prepareTunnelModel`. */
  function PreparedPeer(shown: P.PeerData): P.PeerData {
    P.WithField(P.WithField(shown, P.AllowedIPsField, AllowedIPs), P.PersistentKeepAliveField, PersistentKeepAlive)
  }

  /** A prepared peer routes everything with a 25-second keepalive; alone,
      it is offered the exclude-private-IPs control, switched off. */
  lemma PreparedPeerFields(shown: P.PeerData)
    ensures P.Lookup(PreparedPeer(shown), P.AllowedIPsField) == AllowedIPs
    ensures P.Lookup(PreparedPeer(shown), P.PersistentKeepAliveField) == PersistentKeepAlive
    ensures P.AllowedSet(PreparedPeer(shown)) == {P.DefaultRoute}
    ensures P.ExcludeStates(true, P.AllowedSet(PreparedPeer(shown))) == (true, false)
  {
    var d := PreparedPeer(shown);
    assert P.Field(d, P.AllowedIPsField) == Some(AllowedIPs);
    AllowedIPsAlone();
  }

  /** "0.0.0.0/0" is a single entry. */
  lemma AllowedIPsAlone()
    ensures SplitToArray(AllowedIPs, DefaultSeparator, true) == [AllowedIPs]
  {
    assert NoneIn(AllowedIPs, {','});
    SplitAllNoSeparator(AllowedIPs, {','});
    TrimOfTrimmed(AllowedIPs);
  }

  /** What the first peer shows, when there is one. */
  function ShownOfFirst(peers: seq<P.PeerModel>): P.PeerData
    reads if peers == [] then {} else {peers[0]}
  {
    if peers == [] then map[] else peers[0].Shown()
  }

  /** The peers after `prepareTunnelModel()`: the same peers, or one new
      blank peer when there were none; the first one routes everything with
      a 25-second keepalive, has no cached configuration and current flags. */
  ghost predicate FirstPeerPrepared(model: T.TunnelModel, before: seq<P.PeerModel>, firstShown: P.PeerData)
    reads model`peersModel, set p | p in model.peersModel
  {
    (before != [] ==> model.peersModel == before)
    && (before == [] ==> |model.peersModel| == 1)
    && model.peersModel != []
    && model.peersModel[0].data == PreparedPeer(firstShown)
    && model.peersModel[0].validatedConfiguration.None? && model.peersModel[0].FlagsCurrent()
  }

  /** `prepareTunnelModel()` on the model it edits. */
  method PrepareModel(model: T.TunnelModel)
    requires model.Valid()
    modifies model`peersModel, model.interfaceModel`data, model.interfaceModel`validatedConfiguration,
      model.interfaceModel`validatedName, (set p | p in model.peersModel)`numberOfPeers, (set p | p in model.peersModel)`data,
      (set p | p in model.peersModel)`validatedConfiguration,
      (set p | p in model.peersModel)`shouldAllowExcludePrivateIPsControl, (set p | p in model.peersModel)`excludePrivateIPsValue,
      (set p | p in model.peersModel)`shouldStronglyRecommendDNS
    ensures model.Valid()
    ensures model.interfaceModel.data
      == I.WithField(old(model.interfaceModel.Shown()), I.NameField, TunnelName, model.interfaceModel.publicKeyOf)
    ensures model.interfaceModel.Cached().None?
    ensures FirstPeerPrepared(model, old(model.peersModel), old(ShownOfFirst(model.peersModel)))
  {
    ghost var firstShown := ShownOfFirst(model.peersModel);
    model.interfaceModel.Set(I.NameField, TunnelName);
    assert model.Valid() && ShownOfFirst(model.peersModel) == firstShown;
    PrepareFirstPeer(model);
  }

  /** The peer half of `prepareTunnelModel()`. */
  method PrepareFirstPeer(model: T.TunnelModel)
    requires model.Valid()
    modifies model`peersModel, (set p | p in model.peersModel)`numberOfPeers, (set p | p in model.peersModel)`data,
      (set p | p in model.peersModel)`validatedConfiguration,
      (set p | p in model.peersModel)`shouldAllowExcludePrivateIPsControl, (set p | p in model.peersModel)`excludePrivateIPsValue,
      (set p | p in model.peersModel)`shouldStronglyRecommendDNS
    ensures model.Valid()
    ensures FirstPeerPrepared(model, old(model.peersModel), old(ShownOfFirst(model.peersModel)))
    ensures old(model.peersModel) == [] ==> fresh(model.peersModel[0])
  {
    EnsurePeer(model);
    PreparePeer(model.peersModel[0]);
  }

  /** The `if peersModel.isEmpty { appendEmptyPeer() }` of
      `prepareTunnelModel()`: a model without peers gets one blank peer. */
  method EnsurePeer(model: T.TunnelModel)
    requires model.Valid()
    modifies model`peersModel, (set p | p in model.peersModel)`numberOfPeers, (set p | p in model.peersModel)`data,
      (set p | p in model.peersModel)`shouldAllowExcludePrivateIPsControl, (set p | p in model.peersModel)`excludePrivateIPsValue,
      (set p | p in model.peersModel)`shouldStronglyRecommendDNS
    ensures model.Valid() && model.peersModel != []
    ensures old(model.peersModel) != [] ==>
      model.peersModel == old(model.peersModel) && model.peersModel[0].Shown() == old(model.peersModel[0].Shown())
    ensures old(model.peersModel) == [] ==>
      |model.peersModel| == 1 && fresh(model.peersModel[0]) && model.peersModel[0].Shown() == map[]
  {
    if model.peersModel == [] {
      model.AppendEmptyPeer();
      assert T.PeerUpdated(model.peersModel[0], 1, map[]);
    }
  }

  /** The last two steps of `prepareTunnelModel()`, on the first peer. */
  method PreparePeer(first: P.PeerModel)
    modifies first`data, first`validatedConfiguration, first`shouldAllowExcludePrivateIPsControl,
      first`excludePrivateIPsValue, first`shouldStronglyRecommendDNS
    ensures first.data == PreparedPeer(old(first.Shown())) && first.validatedConfiguration.None? && first.FlagsCurrent()
  {
    first.Set(P.AllowedIPsField, AllowedIPs);
    ghost var withAllowed := first.data;
    first.Set(P.PersistentKeepAliveField, PersistentKeepAlive);
    P.OtherFieldKeepsAllowed(withAllowed, P.PersistentKeepAliveField, PersistentKeepAlive);
  }

  // ---------------------------------------------------------------- upsertTunnel

  /** What `upsertTunnel` asks of the service. */
  datatype UpsertStep =
    | SaveFailed(error: TunnelSavingError)
    | AddRequested(configuration: TunnelConfiguration, startActivation: bool)
    | ModifyRequested(tunnel: C.TunnelContainer, configuration: TunnelConfiguration, startActivation: bool)
    | NothingRequested

  /** A failed save is reported; a saved configuration is added when the
      service lists no tunnel, and modifies the last tunnel otherwise;
      without a service nothing is asked. */
  function UpsertPlan(saved: Result<TunnelConfiguration, TunnelSavingError>, hasService: bool,
                      last: C.TunnelContainer?, startActivation: bool): (step: UpsertStep)
    ensures saved.Failure? <==> step.SaveFailed?
    ensures step.AddRequested? <==> saved.Success? && hasService && last == null
    ensures step.ModifyRequested? <==> saved.Success? && last != null
    ensures step.AddRequested? || step.ModifyRequested? ==>
      step.configuration == saved.value && step.startActivation == startActivation
    ensures step.ModifyRequested? ==> step.tunnel == last
  {
    match saved
    case Failure(e) => SaveFailed(e)
    case Success(c) =>
      if last != null then ModifyRequested(last, c, startActivation)
      else if hasService then AddRequested(c, startActivation)
      else NothingRequested
  }

  /** What the delegate hears from `upsertTunnel` itself. */
  function UpsertEvents(saved: Result<TunnelConfiguration, TunnelSavingError>): seq<ManagerEvent> {
    if saved.Failure? then [UpdatingStatus, HandledError(SavingError(saved.error))] else [UpdatingStatus]
  }

  /** What follows the service's answer to `add` or `modify`. */
  datatype FollowUp = ReportError(error: TunnelsServiceError) | ReportReconnection | ActivateTunnel | NothingMore

  /** The completion of `addTunnel`: a failure is reported, and an added
      tunnel is activated only when activation was asked for. */
  function AfterAdd(failure: Option<TunnelsServiceError>, startActivation: bool): (r: FollowUp)
    ensures r.ReportError? <==> failure.Some?
    ensures r.ReportError? ==> r.error == failure.value
    ensures r == ActivateTunnel <==> failure.None? && startActivation
    ensures r != ReportReconnection
  {
    match failure
    case Some(e) => ReportError(e)
    case None => if startActivation then ActivateTunnel else NothingMore
  }

  /** The completion of `modifyTunnel`: a failure is reported; a modified
      tunnel is activated only when activation was asked for and the tunnel
      is not restarting, and a reconnection is reported otherwise. */
  function AfterModify(result: Result<TunnelStatus, TunnelsServiceError>, startActivation: bool): (r: FollowUp)
    ensures r.ReportError? <==> result.Failure?
    ensures r.ReportError? ==> r.error == result.error
    ensures r == ActivateTunnel <==> result.Success? && startActivation && result.value != Restarting
    ensures r == ReportReconnection <==> result.Success? && (!startActivation || result.value == Restarting)
    ensures r != NothingMore
  {
    match result
    case Failure(e) => ReportError(e)
    case Success(status) => if startActivation && status != Restarting then ActivateTunnel else ReportReconnection
  }

  /** What the delegate hears from a follow-up. */
  function FollowUpEvents(f: FollowUp): (r: seq<ManagerEvent>)
    ensures |r| <= 1
    ensures r == [Reconnection] <==> f == ReportReconnection
    ensures f.ReportError? ==> r == [HandledError(ServiceError(f.error))]
    ensures r == [] <==> f == ActivateTunnel || f == NothingMore
  {
    match f
    case ReportError(e) => [HandledError(ServiceError(e))]
    case ReportReconnection => [Reconnection]
    case _ => []
  }

  /** The status a modified tunnel reports, or the failure. */
  function StatusResult(result: Result<C.TunnelContainer, TunnelsServiceError>): Result<TunnelStatus, TunnelsServiceError>
    reads if result.Success? then {result.value} else {}
  {
    match result
    case Success(t) => Success(t.status)
    case Failure(e) => Failure(e)
  }

  // ---------------------------------------------------------------- createNewProfile

  /** The interface edits of `createNewProfile(from:with:)`: the key pair,
      the DNS servers, the address and the listen port. */
  method FillInterface(iface: I.InterfaceModel, data: seq<Byte>, privateKey: Key, dns: D.DNSServerType)
    requires |data| >= ConnectionDataLength
    modifies iface`data, iface`validatedConfiguration, iface`validatedName
    ensures iface.data == ProfileInterface(old(iface.Shown()), privateKey, iface.publicKeyOf, dns, data)
    ensures iface.Cached().None?
  {
    iface.Set(I.PrivateKeyField, KeyToBase64(privateKey));
    iface.Set(I.PublicKeyField, KeyToBase64(iface.publicKeyOf(privateKey)));
    iface.Set(I.DNSField, D.Address(dns));
    iface.Set(I.AddressesField, IPv4Text(data[..4]) + "/32");
    var port := NatToDecimal((data[24] as int) * 256 + data[25] as int);
    iface.Set(I.ListenPortField, port);
    ProfileInterfaceEdits(old(iface.Shown()), privateKey, iface.publicKeyOf, dns, data);
  }

  /** The peer edits of `createNewProfile(from:with:)`: the node's endpoint,
      then its public key, or nothing when the 32 bytes make no key. */
  method FillPeer(peer: P.PeerModel, data: seq<Byte>)
    requires |data| >= ConnectionDataLength
    modifies peer`data, peer`validatedConfiguration, peer`shouldAllowExcludePrivateIPsControl,
      peer`excludePrivateIPsValue, peer`shouldStronglyRecommendDNS
    ensures peer.data == ProfilePeer(old(peer.Shown()), data)
    ensures peer.validatedConfiguration.None?
  {
    var port := NatToDecimal((data[24] as int) * 256 + data[25] as int);
    var host := IPv4Text(data[20..24]);
    peer.Set(P.EndpointField, host + ":" + port);
    var peerPubKey := PublicKeyFromRaw(data[26..58]);
    peer.Set(P.PublicKeyField, if peerPubKey.Some? then KeyToBase64(peerPubKey.value) else "");
    ProfilePeerEdits(old(peer.Shown()), data);
  }

  /** `createNewProfile(from:with:)` on the model it edits: the interface
      and the first peer are filled, and the other peers keep what they
      would save. */
  method FillModel(model: T.TunnelModel, data: seq<Byte>, privateKey: Key, dns: D.DNSServerType)
    requires model.Valid() && model.peersModel != [] && |data| >= ConnectionDataLength
    modifies model.interfaceModel`data, model.interfaceModel`validatedConfiguration, model.interfaceModel`validatedName,
      {model.peersModel[0]}`data, {model.peersModel[0]}`validatedConfiguration,
      {model.peersModel[0]}`shouldAllowExcludePrivateIPsControl, {model.peersModel[0]}`excludePrivateIPsValue,
      {model.peersModel[0]}`shouldStronglyRecommendDNS
    ensures model.interfaceModel.data
      == ProfileInterface(old(model.interfaceModel.Shown()), privateKey, model.interfaceModel.publicKeyOf, dns, data)
    ensures model.interfaceModel.SaveOutcome() == I.SaveFields(model.interfaceModel.data)
    ensures model.peersModel[0].data == ProfilePeer(old(model.peersModel[0].Shown()), data)
    ensures T.PeerOutcomes(model.peersModel)
      == [P.SaveOutcome(None, model.peersModel[0].data)] + old(T.PeerOutcomes(model.peersModel[1..]))
  {
    ghost var rest := T.PeerOutcomes(model.peersModel[1..]);
    FillInterface(model.interfaceModel, data, privateKey, dns);
    FillPeer(model.peersModel[0], data);
    assert T.PeerOutcomes(model.peersModel[1..]) == rest;
  }

  /** `tunnelsService?.tunnels.last`: nothing without a service or a
      tunnel. */
  function LastIn(service: S.TunnelsService?): (r: C.TunnelContainer?)
    reads if service == null then {} else {service}
    ensures r != null <==> service != null && service.tunnels != []
    ensures r != null ==> r == service.tunnels[|service.tunnels| - 1]
  {
    if service == null || service.tunnels == [] then null else service.tunnels[|service.tunnels| - 1]
  }

  /** `upsertTunnel(startActivation:)` on the model and the service it
      works with: save the model; a failure is reported, a saved
      configuration is handed to the service, as an addition when it lists
      no tunnel and as a change of the last tunnel otherwise. The notices
      for the delegate are returned in order. */
  method Upsert(model: T.TunnelModel, service: S.TunnelsService?, startActivation: bool)
    returns (step: UpsertStep, notices: seq<ManagerEvent>)
    requires T.Distinct(model.peersModel)
    modifies model.interfaceModel`validatedConfiguration, model.interfaceModel`validatedName,
      (set p | p in model.peersModel)`validatedConfiguration
    ensures var saved := T.Collate(old(model.interfaceModel.SaveOutcome()), old(T.PeerOutcomes(model.peersModel)));
      step == UpsertPlan(saved, service != null, LastIn(service), startActivation) && notices == UpsertEvents(saved)
  {
    notices := [UpdatingStatus];
    var saved := model.Save();
    if saved.Failure? {
      notices := notices + [HandledError(SavingError(saved.error))];
      return SaveFailed(saved.error), notices;
    }
    var tunnel := LastIn(service);
    if tunnel == null {
      if service == null {
        return NothingRequested, notices;
      }
      return AddRequested(saved.value, startActivation), notices;
    }
    return ModifyRequested(tunnel, saved.value, startActivation), notices;
  }

  /** `createNewProfile(from:with:)` on the model and the service: fill the
      model from the connection data, then upsert it with activation. */
  method CreateProfile(model: T.TunnelModel, service: S.TunnelsService?, data: seq<Byte>, privateKey: Key, dns: D.DNSServerType)
    returns (step: UpsertStep, notices: seq<ManagerEvent>)
    requires model.Valid() && model.peersModel != [] && |data| >= ConnectionDataLength
    modifies model.interfaceModel`data, model.interfaceModel`validatedConfiguration, model.interfaceModel`validatedName,
      (set p | p in model.peersModel)`validatedConfiguration,
      {model.peersModel[0]}`data, {model.peersModel[0]}`shouldAllowExcludePrivateIPsControl,
      {model.peersModel[0]}`excludePrivateIPsValue, {model.peersModel[0]}`shouldStronglyRecommendDNS
    ensures model.interfaceModel.data
      == ProfileInterface(old(model.interfaceModel.Shown()), privateKey, model.interfaceModel.publicKeyOf, dns, data)
    ensures model.peersModel[0].data == ProfilePeer(old(model.peersModel[0].Shown()), data)
    ensures var saved := T.Collate(I.SaveFields(model.interfaceModel.data),
        [P.SaveOutcome(None, model.peersModel[0].data)] + old(T.PeerOutcomes(model.peersModel[1..])));
      step == UpsertPlan(saved, service != null, LastIn(service), true) && notices == [UpdatingStatus] + UpsertEvents(saved)
  {
    FillModel(model, data, privateKey, dns);
    ghost var filled, first := model.interfaceModel.data, model.peersModel[0].data;
    var upserted;
    step, upserted := Upsert(model, service, true);
    notices := [UpdatingStatus] + upserted;
    assert model.interfaceModel.data == filled && model.peersModel[0].data == first;
  }

  /** `update(with:)` once the tunnel is known to be active: the DNS field
      takes the new servers and the model is upserted without activation,
      which, the service listing a tunnel, can only change that tunnel. */
  method UpdateModel(model: T.TunnelModel, service: S.TunnelsService, server: string)
    returns (step: UpsertStep, notices: seq<ManagerEvent>)
    requires T.Distinct(model.peersModel) && service.tunnels != []
    modifies model.interfaceModel`data, model.interfaceModel`validatedConfiguration, model.interfaceModel`validatedName,
      (set p | p in model.peersModel)`validatedConfiguration
    ensures model.interfaceModel.data
      == I.WithField(old(model.interfaceModel.Shown()), I.DNSField, server, model.interfaceModel.publicKeyOf)
    ensures var saved := T.Collate(I.SaveFields(model.interfaceModel.data), old(T.PeerOutcomes(model.peersModel)));
      step == UpsertPlan(saved, true, LastIn(service), false) && notices == UpsertEvents(saved)
    ensures step.SaveFailed? || (step.ModifyRequested? && step.tunnel == LastIn(service) && !step.startActivation)
  {
    ghost var outcomes := T.PeerOutcomes(model.peersModel);
    model.interfaceModel.Set(I.DNSField, server);
    assert T.PeerOutcomes(model.peersModel) == outcomes;
    ghost var edited := model.interfaceModel.data;
    step, notices := Upsert(model, service, false);
    assert model.interfaceModel.data == edited;
  }

  /** What the interface pad of `init(tunnelConfiguration:)` shows: the
      saved fields when the configuration has a name, nothing otherwise. */
  function LoadedInterface(c: Option<TunnelConfiguration>, publicKeyOf: Key -> Key): I.InterfaceData {
    if c.Some? && c.value.name.Some? then I.FilledFields(c.value.name.value, c.value.interface, publicKeyOf) else map[]
  }

  /** What the first peer pad of `init(tunnelConfiguration:)` shows. */
  function LoadedFirstPeer(c: Option<TunnelConfiguration>): P.PeerData {
    if c.Some? && c.value.peers != [] then P.FilledFields(c.value.peers[0]) else map[]
  }

  /** `.init(tunnelConfiguration: tunnel.tunnelConfiguration)` followed by
      `prepareTunnelModel()`: a new model from the configuration the last
      tunnel's profile holds, named and with its first peer prepared. */
  method LoadModel(tunnel: C.TunnelContainer, keychain: Keychain, publicKeyOf: Key -> Key) returns (model: T.TunnelModel)
    modifies tunnel.tunnelProvider`cachedConfiguration
    ensures fresh(model) && model.Valid()
    ensures var c := old(tunnel.tunnelProvider.LoadedConfiguration(keychain));
      model.interfaceModel.data == I.WithField(LoadedInterface(c, publicKeyOf), I.NameField, TunnelName, publicKeyOf)
      && model.interfaceModel.Cached().None?
      && |model.peersModel| == (if c.Some? && c.value.peers != [] then |c.value.peers| else 1)
      && model.peersModel[0].data == PreparedPeer(LoadedFirstPeer(c))
  {
    var configuration := tunnel.tunnelProvider.TunnelConfiguration(keychain);
    model := new T.TunnelModel(configuration, publicKeyOf);
    assert model.interfaceModel.Shown() == LoadedInterface(configuration, publicKeyOf);
    assert ShownOfFirst(model.peersModel) == LoadedFirstPeer(configuration);
    PrepareModel(model);
  }

  /** The success half of the completion of `TunnelsService.create`: the
      model is reloaded from the service's last tunnel when it lists one,
      and is prepared either way. */
  method ReloadModel(model: T.TunnelModel, service: S.TunnelsService, keychain: Keychain) returns (next: T.TunnelModel)
    requires model.Valid()
    modifies model`peersModel, model.interfaceModel`data, model.interfaceModel`validatedConfiguration,
      model.interfaceModel`validatedName, (set p | p in model.peersModel)`numberOfPeers, (set p | p in model.peersModel)`data,
      (set p | p in model.peersModel)`validatedConfiguration,
      (set p | p in model.peersModel)`shouldAllowExcludePrivateIPsControl, (set p | p in model.peersModel)`excludePrivateIPsValue,
      (set p | p in model.peersModel)`shouldStronglyRecommendDNS,
      (if service.tunnels != [] then {LastIn(service).tunnelProvider} else {})`cachedConfiguration
    ensures next.Valid()
    ensures LastIn(service) == null ==>
      next == model
      && next.interfaceModel.data == I.WithField(old(model.interfaceModel.Shown()), I.NameField, TunnelName, model.interfaceModel.publicKeyOf)
      && FirstPeerPrepared(next, old(model.peersModel), old(ShownOfFirst(model.peersModel)))
    ensures LastIn(service) != null ==>
      var c := old(LastIn(service).tunnelProvider.LoadedConfiguration(keychain));
      var publicKeyOf := old(model.interfaceModel.publicKeyOf);
      fresh(next)
      && next.interfaceModel.data == I.WithField(LoadedInterface(c, publicKeyOf), I.NameField, TunnelName, publicKeyOf)
      && |next.peersModel| == (if c.Some? && c.value.peers != [] then |c.value.peers| else 1)
      && next.peersModel[0].data == PreparedPeer(LoadedFirstPeer(c))
  {
    var tunnel := LastIn(service);
    if tunnel != null {
      next := LoadModel(tunnel, keychain, model.interfaceModel.publicKeyOf);
    } else {
      PrepareModel(model);
      next := model;
    }
  }

  // ---------------------------------------------------------------- the class

  class TunnelManager {
    const storage: G.GeneralSettingsStorage
    var tunnelModel: T.TunnelModel
    var tunnelsService: S.TunnelsService?

    /** `init(storage:tunnelModel:)`. The service it asks for arrives
        through `ServiceCreated`. */
    constructor (storage: G.GeneralSettingsStorage, tunnelModel: T.TunnelModel)
      ensures this.storage == storage && this.tunnelModel == tunnelModel && tunnelsService == null
    {
      this.storage := storage;
      this.tunnelModel := tunnelModel;
      tunnelsService := null;
    }

    /** `lastTunnel`. */
    function LastTunnel(): (r: C.TunnelContainer?)
      reads this`tunnelsService, tunnelsService
      ensures r != null <==> tunnelsService != null && tunnelsService.tunnels != []
      ensures r != null ==> r == tunnelsService.tunnels[|tunnelsService.tunnels| - 1]
    {
      LastIn(tunnelsService)
    }

    /** `isTunnelActive`: the last tunnel is connected; a tunnel that is
        still connecting does not count. */
    predicate IsTunnelActive()
      reads this`tunnelsService, tunnelsService, LastTunnel()
      ensures IsTunnelActive() <==>
        (tunnelsService != null && tunnelsService.tunnels != []
         && tunnelsService.tunnels[|tunnelsService.tunnels| - 1].status == Connected)
    {
      LastTunnel() != null && LastTunnel().status == Connected
    }

    /** `prepareTunnelModel()`: the tunnel's name, a first peer when there
        is none, and that peer's allowed IPs and keepalive. */
    method PrepareTunnelModel()
      requires tunnelModel.Valid()
      modifies tunnelModel`peersModel, tunnelModel.interfaceModel`data, tunnelModel.interfaceModel`validatedConfiguration,
        tunnelModel.interfaceModel`validatedName, (set p | p in tunnelModel.peersModel)`numberOfPeers,
        (set p | p in tunnelModel.peersModel)`data, (set p | p in tunnelModel.peersModel)`validatedConfiguration,
        (set p | p in tunnelModel.peersModel)`shouldAllowExcludePrivateIPsControl,
        (set p | p in tunnelModel.peersModel)`excludePrivateIPsValue,
        (set p | p in tunnelModel.peersModel)`shouldStronglyRecommendDNS
      ensures tunnelModel.Valid()
      ensures tunnelModel.interfaceModel.data
        == I.WithField(old(tunnelModel.interfaceModel.Shown()), I.NameField, TunnelName, tunnelModel.interfaceModel.publicKeyOf)
      ensures tunnelModel.interfaceModel.Cached().None?
      ensures FirstPeerPrepared(tunnelModel, old(tunnelModel.peersModel), old(ShownOfFirst(tunnelModel.peersModel)))
    {
      PrepareModel(tunnelModel);
    }

    /** `createNewProfile(from:with:)` with the DNS provider the settings
        select; `notices` are the delegate calls, in order. */
    method CreateNewProfile(data: seq<Byte>, privateKey: Key) returns (step: UpsertStep, notices: seq<ManagerEvent>)
      requires tunnelModel.Valid() && tunnelModel.peersModel != [] && |data| >= ConnectionDataLength
      modifies tunnelModel.interfaceModel`data, tunnelModel.interfaceModel`validatedConfiguration,
        tunnelModel.interfaceModel`validatedName, (set p | p in tunnelModel.peersModel)`validatedConfiguration,
        {tunnelModel.peersModel[0]}`data, {tunnelModel.peersModel[0]}`shouldAllowExcludePrivateIPsControl,
        {tunnelModel.peersModel[0]}`excludePrivateIPsValue, {tunnelModel.peersModel[0]}`shouldStronglyRecommendDNS
      ensures tunnelModel.interfaceModel.data == ProfileInterface(old(tunnelModel.interfaceModel.Shown()), privateKey,
        tunnelModel.interfaceModel.publicKeyOf, storage.SelectedDNS(), data)
      ensures tunnelModel.peersModel[0].data == ProfilePeer(old(tunnelModel.peersModel[0].Shown()), data)
      ensures var saved := T.Collate(I.SaveFields(tunnelModel.interfaceModel.data),
          [P.SaveOutcome(None, tunnelModel.peersModel[0].data)] + old(T.PeerOutcomes(tunnelModel.peersModel[1..])));
        step == UpsertPlan(saved, tunnelsService != null, LastTunnel(), true) && notices == [UpdatingStatus] + UpsertEvents(saved)
    {
      step, notices := CreateProfile(tunnelModel, tunnelsService, data, privateKey, storage.SelectedDNS());
    }

    /** `update(with:)`: nothing unless the tunnel is active. */
    method Update(server: string) returns (step: UpsertStep, notices: seq<ManagerEvent>)
      requires tunnelModel.Valid()
      modifies tunnelModel.interfaceModel`data, tunnelModel.interfaceModel`validatedConfiguration,
        tunnelModel.interfaceModel`validatedName, (set p | p in tunnelModel.peersModel)`validatedConfiguration
      ensures !old(IsTunnelActive()) ==>
        step == NothingRequested && notices == [] && tunnelModel.interfaceModel.data == old(tunnelModel.interfaceModel.data)
      ensures old(IsTunnelActive()) ==>
        tunnelModel.interfaceModel.data
          == I.WithField(old(tunnelModel.interfaceModel.Shown()), I.DNSField, server, tunnelModel.interfaceModel.publicKeyOf)
        && var saved := T.Collate(I.SaveFields(tunnelModel.interfaceModel.data), old(T.PeerOutcomes(tunnelModel.peersModel)));
           step == UpsertPlan(saved, true, LastTunnel(), false) && notices == UpsertEvents(saved)
      ensures old(IsTunnelActive()) ==>
        step.SaveFailed? || (step.ModifyRequested? && step.tunnel == LastTunnel() && !step.startActivation)
    {
      var active := IsTunnelActive();
      if !active {
        return NothingRequested, [];
      }
      step, notices := UpdateModel(tunnelModel, tunnelsService, server);
    }

    /** The completion of `TunnelsService.create`: a failure goes to the
        delegate; a service is kept, and the model is reloaded from its
        last tunnel when it lists one, then prepared. The delegate hears of
        the service creation either way. */
    method ServiceCreated(result: Result<S.TunnelsService, TunnelsServiceError>, keychain: Keychain)
      returns (notices: seq<ManagerEvent>)
      requires tunnelModel.Valid()
      modifies this`tunnelsService, this`tunnelModel,
        tunnelModel`peersModel, tunnelModel.interfaceModel`data, tunnelModel.interfaceModel`validatedConfiguration,
        tunnelModel.interfaceModel`validatedName, (set p | p in tunnelModel.peersModel)`numberOfPeers,
        (set p | p in tunnelModel.peersModel)`data, (set p | p in tunnelModel.peersModel)`validatedConfiguration,
        (set p | p in tunnelModel.peersModel)`shouldAllowExcludePrivateIPsControl,
        (set p | p in tunnelModel.peersModel)`excludePrivateIPsValue,
        (set p | p in tunnelModel.peersModel)`shouldStronglyRecommendDNS,
        (if result.Success? && LastIn(result.value) != null then {LastIn(result.value).tunnelProvider} else {})`cachedConfiguration
      ensures result.Failure? ==>
        notices == [HandledError(ServiceError(result.error)), ServiceCreation]
        && tunnelsService == old(tunnelsService) && tunnelModel == old(tunnelModel)
      ensures result.Success? ==> notices == [ServiceCreation] && tunnelsService == result.value && tunnelModel.Valid()
      ensures result.Success? && LastIn(result.value) == null ==> tunnelModel == old(tunnelModel)
      ensures result.Success? && LastIn(result.value) != null ==> fresh(tunnelModel)
    {
      match result
      case Failure(e) =>
        notices := [HandledError(ServiceError(e)), ServiceCreation];
      case Success(service) =>
        // What the reloaded model holds is stated on `ReloadModel`.
        tunnelsService := service;
        var next := ReloadModel(tunnelModel, service, keychain);
        tunnelModel := next;
        notices := [ServiceCreation];
    }

    /** The completion of `addTunnel`: a failure goes to the delegate; an
        added tunnel is activated through the service when asked for. */
    method AddCompleted(result: Result<C.TunnelContainer, TunnelsServiceError>, startActivation: bool, answer: nat -> C.Attempt)
      returns (notices: seq<ManagerEvent>, told: seq<S.StatusEvent>)
      requires tunnelsService != null && tunnelsService.Valid()
      modifies tunnelsService`awaiting, tunnelsService.Containers`status,
        tunnelsService.Containers`isAttemptingActivation, tunnelsService.Containers`activationAttemptId,
        tunnelsService.Profiles`isEnabled, tunnelsService.Profiles`stopRequests
      ensures var follow := AfterAdd(if result.Failure? then Some(result.error) else None, startActivation);
        notices == FollowUpEvents(follow)
        && tunnelsService.tunnels == old(tunnelsService.tunnels)
        && (follow != ActivateTunnel ==> told == [])
        && (follow == ActivateTunnel && result.value in tunnelsService.tunnels ==>
              S.ActivationOutcome(tunnelsService.tunnels, old(S.StatesOf(tunnelsService.tunnels)), old(tunnelsService.awaiting),
                                  S.IndexOf(tunnelsService.tunnels, result.value), answer)
              == S.ListOutcome(S.StatesOf(tunnelsService.tunnels), tunnelsService.awaiting, told))
    {
      match result
      case Failure(e) =>
        return [HandledError(ServiceError(e))], [];
      case Success(tunnel) =>
        if !startActivation {
          return [], [];
        }
        notices := [];
        told := tunnelsService.StartActivation(tunnel, answer);
    }

    /** The completion of `modifyTunnel`: a failure goes to the delegate; a
        modified tunnel is activated through the service when asked for and
        not restarting, and a reconnection is reported otherwise. */
    method ModifyCompleted(result: Result<C.TunnelContainer, TunnelsServiceError>, startActivation: bool, answer: nat -> C.Attempt)
      returns (notices: seq<ManagerEvent>, told: seq<S.StatusEvent>)
      requires tunnelsService != null && tunnelsService.Valid()
      modifies tunnelsService`awaiting, tunnelsService.Containers`status,
        tunnelsService.Containers`isAttemptingActivation, tunnelsService.Containers`activationAttemptId,
        tunnelsService.Profiles`isEnabled, tunnelsService.Profiles`stopRequests
      ensures var follow := AfterModify(old(StatusResult(result)), startActivation);
        notices == FollowUpEvents(follow)
        && tunnelsService.tunnels == old(tunnelsService.tunnels)
        && (follow != ActivateTunnel ==> told == [])
        && (follow == ActivateTunnel && result.value in tunnelsService.tunnels ==>
              S.ActivationOutcome(tunnelsService.tunnels, old(S.StatesOf(tunnelsService.tunnels)), old(tunnelsService.awaiting),
                                  S.IndexOf(tunnelsService.tunnels, result.value), answer)
              == S.ListOutcome(S.StatesOf(tunnelsService.tunnels), tunnelsService.awaiting, told))
    {
      match result
      case Failure(e) =>
        return [HandledError(ServiceError(e))], [];
      case Success(tunnel) =>
        if !(startActivation && tunnel.status != Restarting) {
          return [Reconnection], [];
        }
        notices := [];
        told := tunnelsService.StartActivation(tunnel, answer);
    }
  }
}
