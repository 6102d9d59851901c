/** `PeersModel` (SOLARdVPNCommunityCoreiOS/Services/Tunnel/Model/PeersModel.swift):
    the editable scratch pad behind one `[Peer]` section, with the flags that
    drive the "exclude private IPs" control. */
module PeersModels {
  import opened Wrappers
  import opened Text
  import opened ArrayConversion
  import opened WireGuardKit
  import opened WireGuardConfig
  import opened TunnelErrors
  import TunnelInterfaceModels

  /** The IPv4 default route. */
  const DefaultRoute: string := "0.0.0.0/0"

  /** Every public IPv4 range: the default route less the RFC 1918 private
      networks. */
  const NonPrivateRanges: seq<string> := [
    "1.0.0.0/8", "2.0.0.0/8", "3.0.0.0/8", "4.0.0.0/6", "8.0.0.0/7", "11.0.0.0/8",
    "12.0.0.0/6", "16.0.0.0/4", "32.0.0.0/3", "64.0.0.0/2", "128.0.0.0/3",
    "160.0.0.0/5", "168.0.0.0/6", "172.0.0.0/12", "172.32.0.0/11", "172.64.0.0/10",
    "172.128.0.0/9", "173.0.0.0/8", "174.0.0.0/7", "176.0.0.0/4", "192.0.0.0/9",
    "192.128.0.0/11", "192.160.0.0/13", "192.169.0.0/16", "192.170.0.0/15",
    "192.172.0.0/14", "192.176.0.0/12", "192.192.0.0/10", "193.0.0.0/8",
    "194.0.0.0/7", "196.0.0.0/6", "200.0.0.0/5", "208.0.0.0/4"
  ]

  /** `PeerField`. */
  datatype PeerField =
    | PublicKeyField | PreSharedKeyField | EndpointField | PersistentKeepAliveField | AllowedIPsField
    | RxBytesField | TxBytesField | LastHandshakeTimeField | ExcludePrivateIPsField | DeletePeerField

  type PeerData = map<PeerField, string>

  /** `data[field] ?? ""`. */
  function Lookup(data: PeerData, field: PeerField): string {
    if field in data then data[field] else ""
  }

  /** `data[field]` as an optional. */
  function Field(data: PeerData, field: PeerField): Option<string> {
    if field in data then Some(data[field]) else None
  }

  // ---------------------------------------------------------------- fillData

  /** A byte count as `fillData()` writes it. */
  function ByteCountText(n: nat): string {
    NatToDecimal(n) + " B"
  }

  /** The fields `fillData()` writes for a validated configuration: the
      public key always, every other field only when the configuration has
      it; allowed IPs are joined with ", ". */
  function FilledFields(c: PeerConfiguration): (data: PeerData)
    ensures PublicKeyField in data && data[PublicKeyField] == KeyToBase64(c.publicKey)
  {
    var d0 := map[PublicKeyField := KeyToBase64(c.publicKey)];
    var d1 := if c.preSharedKey.Some? then d0[PreSharedKeyField := KeyToBase64(c.preSharedKey.value)] else d0;
    var d2 := if c.allowedIPs != [] then d1[AllowedIPsField := Join(AddressTexts(c.allowedIPs), ", ")] else d1;
    var d3 := if c.endpoint.Some? then d2[EndpointField := EndpointText(c.endpoint.value)] else d2;
    var d4 := if c.persistentKeepAlive.Some? then d3[PersistentKeepAliveField := NatToDecimal(c.persistentKeepAlive.value)] else d3;
    var d5 := if c.rxBytes.Some? then d4[RxBytesField := ByteCountText(c.rxBytes.value)] else d4;
    if c.txBytes.Some? then d5[TxBytesField := ByteCountText(c.txBytes.value)] else d5
  }

  /** The dictionary after `self[field] = value`: "" removes the field, any
      other text stores it. */
  function WithField(data: PeerData, field: PeerField, value: string): (r: PeerData)
    ensures Lookup(r, field) == value
    ensures forall g :: g != field ==> Field(r, g) == Field(data, g)
  {
    if value == "" then data - {field} else data[field := value]
  }

  // ---------------------------------------------------------------- the exclude-private-IPs flags

  /** The allowed IPs entries, as the set `updateExcludePrivateIPs()` builds. */
  function AllowedSet(data: PeerData): set<string> {
    set x | x in SplitOptionalToArray(Field(data, AllowedIPsField), DefaultSeparator, true)
  }

  /** The allowed IPs cover every public range. */
  predicate CoversNonPrivate(allowed: set<string>) {
    forall x :: x in NonPrivateRanges ==> x in allowed
  }

  /** `excludePrivateIPsFieldStates(isSinglePeer:allowedIPs:)` as a value:
      (`shouldAllowExcludePrivateIPsControl`, `excludePrivateIPsValue`). */
  function ExcludeStates(isSinglePeer: bool, allowed: set<string>): (bool, bool) {
    if !isSinglePeer then (false, false)
    else if DefaultRoute in allowed then (true, false)
    else if CoversNonPrivate(allowed) then (true, true)
    else (false, false)
  }

  /** `shouldStronglyRecommendDNS`. */
  predicate StronglyRecommendsDNS(allowed: set<string>) {
    DefaultRoute in allowed || CoversNonPrivate(allowed)
  }

  /** The control is offered only for a single peer routing everything, and
      is on only when the default route itself is absent; for a single peer
      it is offered exactly when DNS is strongly recommended. */
  lemma ExcludeStatesTable(isSinglePeer: bool, allowed: set<string>)
    ensures var (allow, value) := ExcludeStates(isSinglePeer, allowed);
      (allow <==> isSinglePeer && (DefaultRoute in allowed || CoversNonPrivate(allowed)))
      && (value <==> isSinglePeer && DefaultRoute !in allowed && CoversNonPrivate(allowed))
      && (value ==> allow)
      && (isSinglePeer ==> (allow <==> StronglyRecommendsDNS(allowed)))
  {
  }

  /** An edit of any other field leaves the allowed IPs, and so the flags,
      as they were. */
  lemma OtherFieldKeepsAllowed(data: PeerData, field: PeerField, value: string)
    requires field != AllowedIPsField
    ensures AllowedSet(WithField(data, field, value)) == AllowedSet(data)
  {
    assert Field(WithField(data, field, value), AllowedIPsField) == Field(data, AllowedIPsField);
  }

  // ---------------------------------------------------------------- save

  /** `save()` on the scratch pad itself (no cached result): the public key
      is required and must decode; then every present field must parse, in
      the order pre-shared key, allowed IPs, endpoint, keepalive. Byte
      counts are never read back. */
  function SaveFields(data: PeerData): (r: Result<PeerConfiguration, TunnelSavingError>)
    ensures PublicKeyField !in data ==> r == Failure(PublicKeyRequired)
    ensures PublicKeyField in data && KeyFromBase64(data[PublicKeyField]).None? ==> r == Failure(PublicKeyInvalid)
    ensures r.Success? ==> PublicKeyField in data && KeyFromBase64(data[PublicKeyField]) == Some(r.value.publicKey)
    ensures r.Success? ==> (PreSharedKeyField in data <==> r.value.preSharedKey.Some?)
    ensures r.Success? ==> (EndpointField in data <==> r.value.endpoint.Some?)
    ensures r.Success? ==> (PersistentKeepAliveField in data <==> r.value.persistentKeepAlive.Some?)
    ensures r.Success? ==> r.value.rxBytes.None? && r.value.txBytes.None?
  {
    if PublicKeyField !in data then Failure(PublicKeyRequired)
    else match KeyFromBase64(data[PublicKeyField])
      case None => Failure(PublicKeyInvalid)
      case Some(publicKey) =>
        var preSharedKey :- SavedPreSharedKey(data);
        var allowedIPs :- SavedAllowedIPs(data);
        var endpoint :- SavedEndpoint(data);
        var persistentKeepAlive :- SavedKeepAlive(data);
        Success(PeerConfiguration(publicKey, preSharedKey, allowedIPs, endpoint, persistentKeepAlive, None, None))
  }

  function SavedPreSharedKey(data: PeerData): Result<Option<Key>, TunnelSavingError> {
    if PreSharedKeyField !in data then Success(None)
    else match KeyFromBase64(data[PreSharedKeyField])
      case None => Failure(PreSharedKeyInvalid)
      case Some(k) => Success(Some(k))
  }

  /** One entry that is not a range fails the whole list. */
  function SavedAllowedIPs(data: PeerData): Result<seq<AddressRange>, TunnelSavingError> {
    if AllowedIPsField !in data then Success([])
    else match ParseRanges(SplitToArray(data[AllowedIPsField], DefaultSeparator, true))
      case Failure(_) => Failure(AllowedIPsInvalid)
      case Success(rs) => Success(rs)
  }

  function SavedEndpoint(data: PeerData): Result<Option<Endpoint>, TunnelSavingError> {
    if EndpointField !in data then Success(None)
    else match ParseEndpoint(data[EndpointField])
      case None => Failure(EndpointInvalid)
      case Some(e) => Success(Some(e))
  }

  function SavedKeepAlive(data: PeerData): Result<Option<UInt16>, TunnelSavingError> {
    if PersistentKeepAliveField !in data then Success(None)
    else match ParseUnsigned(data[PersistentKeepAliveField], UInt16Max)
      case None => Failure(PersistentKeepAliveInvalid)
      case Some(k) => Success(Some(k as UInt16))
  }

  lemma FilledPreSharedKey(c: PeerConfiguration)
    ensures SavedPreSharedKey(FilledFields(c)) == Success(c.preSharedKey)
  {
    if c.preSharedKey.Some? {
      assert FilledFields(c)[PreSharedKeyField] == KeyToBase64(c.preSharedKey.value);
      KeyBase64RoundTrip(c.preSharedKey.value);
    }
  }

  lemma FilledAllowedIPs(c: PeerConfiguration)
    ensures SavedAllowedIPs(FilledFields(c)) == Success(c.allowedIPs)
  {
    if c.allowedIPs != [] {
      assert FilledFields(c)[AllowedIPsField] == Join(AddressTexts(c.allowedIPs), ", ");
      TunnelInterfaceModels.AddressesRoundTrip(c.allowedIPs);
    }
  }

  lemma FilledEndpoint(c: PeerConfiguration)
    ensures SavedEndpoint(FilledFields(c)) == Success(c.endpoint)
  {
    if c.endpoint.Some? {
      assert FilledFields(c)[EndpointField] == EndpointText(c.endpoint.value);
      EndpointRoundTrip(c.endpoint.value);
    }
  }

  lemma FilledKeepAlive(c: PeerConfiguration)
    ensures SavedKeepAlive(FilledFields(c)) == Success(c.persistentKeepAlive)
  {
    if c.persistentKeepAlive.Some? {
      assert FilledFields(c)[PersistentKeepAliveField] == NatToDecimal(c.persistentKeepAlive.value);
      ParseUnsignedDecimal(c.persistentKeepAlive.value, UInt16Max);
    }
  }

  /** What `fillData()` shows, `save()` turns back into the same peer, less
      its byte counts (statistics the scratch pad shows but never saves). */
  lemma FillThenSave(c: PeerConfiguration)
    ensures SaveFields(FilledFields(c)) == Success(c.(rxBytes := None, txBytes := None))
  {
    KeyBase64RoundTrip(c.publicKey);
    FilledPreSharedKey(c);
    FilledAllowedIPs(c);
    FilledEndpoint(c);
    FilledKeepAlive(c);
  }

  // ---------------------------------------------------------------- the class

  class PeerModel {
    var index: int
    var data: PeerData
    var validatedConfiguration: Option<PeerConfiguration>
    var shouldAllowExcludePrivateIPsControl: bool
    var shouldStronglyRecommendDNS: bool
    var excludePrivateIPsValue: bool
    var numberOfPeers: int

    /** `init(index:)`. */
    constructor (index: int)
      ensures this.index == index && data == map[] && validatedConfiguration.None? && numberOfPeers == 0
      ensures !shouldAllowExcludePrivateIPsControl && !shouldStronglyRecommendDNS && !excludePrivateIPsValue
    {
      this.index := index;
      data := map[];
      validatedConfiguration := None;
      shouldAllowExcludePrivateIPsControl := false;
      shouldStronglyRecommendDNS := false;
      excludePrivateIPsValue := false;
      numberOfPeers := 0;
    }

    /** The fields as the subscript sees them: an empty dictionary is first
        filled from the cache. */
    function Shown(): PeerData
      reads this`data, this`validatedConfiguration
    {
      if data == map[] && validatedConfiguration.Some? then FilledFields(validatedConfiguration.value) else data
    }

    /** The three flags agree with the current allowed IPs and peer count. */
    predicate FlagsCurrent()
      reads this`data, this`numberOfPeers, this`shouldAllowExcludePrivateIPsControl,
        this`excludePrivateIPsValue, this`shouldStronglyRecommendDNS
    {
      (shouldAllowExcludePrivateIPsControl, excludePrivateIPsValue) == ExcludeStates(numberOfPeers == 1, AllowedSet(data))
      && shouldStronglyRecommendDNS == StronglyRecommendsDNS(AllowedSet(data))
    }

    /** `publicKey`: the cached configuration's key, else the scratch pad's
        key text if it decodes. */
    function PublicKey(): (r: Option<Key>)
      reads this`validatedConfiguration, this`data
      ensures validatedConfiguration.Some? ==> r == Some(validatedConfiguration.value.publicKey)
      ensures validatedConfiguration.None? && PublicKeyField !in data ==> r.None?
    {
      if validatedConfiguration.Some? then Some(validatedConfiguration.value.publicKey)
      else if PublicKeyField in data then KeyFromBase64(data[PublicKeyField])
      else None
    }

    /** `excludePrivateIPsFieldStates(isSinglePeer:allowedIPs:)`. */
    method ExcludePrivateIPsFieldStates(isSinglePeer: bool, allowedIPs: set<string>)
      modifies this`shouldAllowExcludePrivateIPsControl, this`excludePrivateIPsValue
      ensures (shouldAllowExcludePrivateIPsControl, excludePrivateIPsValue) == ExcludeStates(isSinglePeer, allowedIPs)
    {
      if !isSinglePeer {
        shouldAllowExcludePrivateIPsControl := false;
        excludePrivateIPsValue := false;
        return;
      }
      if DefaultRoute in allowedIPs {
        shouldAllowExcludePrivateIPsControl := true;
        excludePrivateIPsValue := false;
        return;
      }
      if forall x :: x in NonPrivateRanges ==> x in allowedIPs {
        shouldAllowExcludePrivateIPsControl := true;
        excludePrivateIPsValue := true;
        return;
      }
      shouldAllowExcludePrivateIPsControl := false;
      excludePrivateIPsValue := false;
    }

    /** `updateExcludePrivateIPs()`: fill an empty scratch pad, then set the
        flags from its allowed IPs and the peer count. */
    method UpdateExcludePrivateIPs()
      modifies this`data, this`shouldAllowExcludePrivateIPsControl, this`excludePrivateIPsValue,
        this`shouldStronglyRecommendDNS
      ensures data == old(Shown()) && FlagsCurrent()
      decreases if data == map[] then 2 else 0
    {
      if data == map[] {
        FillData();
      }
      var allowedIPStrings := AllowedSet(data);
      ExcludePrivateIPsFieldStates(numberOfPeers == 1, allowedIPStrings);
      shouldStronglyRecommendDNS := DefaultRoute in allowedIPStrings
        || forall x :: x in NonPrivateRanges ==> x in allowedIPStrings;
    }

    /** `fillData()`: without a cache nothing happens; otherwise the fields
        come from the cached configuration and the flags follow them. */
    method FillData()
      modifies this`data, this`shouldAllowExcludePrivateIPsControl, this`excludePrivateIPsValue,
        this`shouldStronglyRecommendDNS
      ensures validatedConfiguration.None? ==> data == old(data) && Flags() == old(Flags())
      ensures validatedConfiguration.Some? ==> data == FilledFields(validatedConfiguration.value) && FlagsCurrent()
      decreases 1
    {
      if validatedConfiguration.Some? {
        data := FilledFields(validatedConfiguration.value);
        UpdateExcludePrivateIPs();
      }
    }

    /** The three flags together. */
    function Flags(): (bool, bool, bool)
      reads this`shouldAllowExcludePrivateIPsControl, this`excludePrivateIPsValue, this`shouldStronglyRecommendDNS
    {
      (shouldAllowExcludePrivateIPsControl, excludePrivateIPsValue, shouldStronglyRecommendDNS)
    }

    /** The `if data.isEmpty { fillData() }` both subscripts start with. */
    method FillIfEmpty()
      modifies this`data, this`shouldAllowExcludePrivateIPsControl, this`excludePrivateIPsValue,
        this`shouldStronglyRecommendDNS
      ensures data == old(Shown())
      ensures old(data) == map[] && validatedConfiguration.Some? ==> FlagsCurrent()
      ensures !(old(data) == map[] && validatedConfiguration.Some?) ==> Flags() == old(Flags())
    {
      if data == map[] {
        FillData();
      }
    }

    /** The subscript getter. */
    method Get(field: PeerField) returns (value: string)
      modifies this`data, this`shouldAllowExcludePrivateIPsControl, this`excludePrivateIPsValue,
        this`shouldStronglyRecommendDNS
      ensures data == old(Shown()) && value == Lookup(data, field)
      ensures old(data) == map[] && validatedConfiguration.Some? ==> FlagsCurrent()
      ensures !(old(data) == map[] && validatedConfiguration.Some?) ==> Flags() == old(Flags())
    {
      FillIfEmpty();
      value := if field in data then data[field] else "";
    }

    /** The subscript setter: the cache is dropped whatever the field, and
        an edit of the allowed IPs refreshes the flags. */
    method Set(field: PeerField, value: string)
      modifies this`data, this`validatedConfiguration, this`shouldAllowExcludePrivateIPsControl,
        this`excludePrivateIPsValue, this`shouldStronglyRecommendDNS
      ensures data == WithField(old(Shown()), field, value) && validatedConfiguration.None?
      ensures field == AllowedIPsField || (old(data) == map[] && old(validatedConfiguration).Some?) ==> FlagsCurrent()
      ensures !(field == AllowedIPsField || (old(data) == map[] && old(validatedConfiguration).Some?)) ==>
        Flags() == old(Flags())
    {
      FillIfEmpty();
      ghost var shown := data;
      validatedConfiguration := None;
      if value == "" {
        data := data - {field};
      } else {
        data := data[field := value];
      }
      if field == AllowedIPsField {
        UpdateExcludePrivateIPs();
      } else {
        OtherFieldKeepsAllowed(shown, field, value);
      }
    }

    /** `save()`: a cached result is returned as it is; otherwise the
        dictionary is validated and a success is cached, so a second
        `save()` with no edit in between gives the same result. */
    method Save() returns (r: Result<PeerConfiguration, TunnelSavingError>)
      modifies this`validatedConfiguration
      ensures r == old(SaveOutcome(validatedConfiguration, data))
      ensures r.Success? ==> validatedConfiguration == Some(r.value)
      ensures r.Failure? ==> validatedConfiguration == old(validatedConfiguration)
    {
      if validatedConfiguration.Some? {
        return Success(validatedConfiguration.value);
      }
      if PublicKeyField !in data {
        return Failure(PublicKeyRequired);
      }
      var publicKey := KeyFromBase64(data[PublicKeyField]);
      if publicKey.None? {
        return Failure(PublicKeyInvalid);
      }
      var preSharedKey := SavedPreSharedKey(data);
      if preSharedKey.Failure? {
        return Failure(preSharedKey.error);
      }
      var allowedIPs := SavedAllowedIPs(data);
      if allowedIPs.Failure? {
        return Failure(allowedIPs.error);
      }
      var endpoint := SavedEndpoint(data);
      if endpoint.Failure? {
        return Failure(endpoint.error);
      }
      var persistentKeepAlive := SavedKeepAlive(data);
      if persistentKeepAlive.Failure? {
        return Failure(persistentKeepAlive.error);
      }
      var config := PeerConfiguration(publicKey.value, preSharedKey.value, allowedIPs.value, endpoint.value,
                                      persistentKeepAlive.value, None, None);
      validatedConfiguration := Some(config);
      r := Success(config);
    }
  }

  /** The outcome of `save()` for a peer's cache and fields. */
  function SaveOutcome(validated: Option<PeerConfiguration>, data: PeerData): Result<PeerConfiguration, TunnelSavingError> {
    if validated.Some? then Success(validated.value) else SaveFields(data)
  }
}
