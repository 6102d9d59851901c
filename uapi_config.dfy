/** The WireGuard userspace-API "get" reply: `TunnelConfiguration(fromUapiConfig:basedOn:)`
    and its two `collate` helpers
    (SOLARdVPNCommunityCoreiOS/Common/Extensions/VPN/TunnelConfiguration+Ext.swift).
    The reply is a list of `key=value` lines; a `public_key` line opens a
    peer, and an empty line (appended after the last one) ends the reply. */
module UapiConfig {
  import opened Wrappers
  import opened Text
  import opened ArrayConversion
  import opened WireGuardKit
  import opened ConfigurationParsing
  import WireGuardConfig

  const UapiInterfaceKeys: set<string> := {"private_key", "listen_port", "fwmark"}
  const UapiPeerKeys: set<string> := {
    "public_key", "preshared_key", "allowed_ip", "endpoint",
    "persistent_keepalive_interval", "last_handshake_time_sec", "last_handshake_time_nsec",
    "rx_bytes", "tx_bytes", "protocol_version"}

  // ---------------------------------------------------------------- collation

  predicate IsZeroKey(k: Key) {
    forall i :: 0 <= i < |k| ==> k[i] == 0
  }

  /** The bitwise OR of all bytes of a key, computed byte by byte as the
      pre-shared key check does: it is zero exactly for the all-zero key. */
  method KeyAccumulator(k: Key) returns (accumulator: bv8)
    ensures accumulator == 0 <==> IsZeroKey(k)
  {
    accumulator := 0;
    for index := 0 to |k|
      invariant accumulator == 0 <==> forall j :: 0 <= j < index ==> k[j] == 0
    {
      accumulator := accumulator | k[index] as bv8;
    }
  }

  /** An optional unsigned field: absent, or present and well formed, where a
      zero value is treated as absent. */
  function NonZeroField(attributes: map<string, string>, key: string, max: nat): (r: Result<Option<nat>, string>)
    ensures key !in attributes ==> r == Success(None)
    ensures key in attributes ==> (r.Failure? <==> ParseUnsigned(attributes[key], max).None?)
    ensures r.Failure? ==> key in attributes && r.error == attributes[key]
    ensures r.Success? && r.value.Some? ==> (key in attributes
      && ParseUnsigned(attributes[key], max) == r.value && 0 < r.value.value <= max)
  {
    if key !in attributes then Success(None)
    else match ParseUnsigned(attributes[key], max)
      case None => Failure(attributes[key])
      case Some(n) => if n != 0 then Success(Some(n)) else Success(None)
  }

  /** `collate(interfaceAttributes:)`: a hex private key is required, and a
      zero listen port leaves the port unset. */
  function UapiInterfaceFromAttributes(attributes: map<string, string>): (r: Result<InterfaceConfiguration, ConfigurationParseError>)
    ensures "private_key" !in attributes ==> r == Failure(InterfaceHasNoPrivateKey)
    ensures r.Success? ==> ("private_key" in attributes
      && KeyFromHex(attributes["private_key"]) == Some(r.value.privateKey))
    ensures r.Success? ==> r.value.listenPort != Some(0)
    ensures r.Success? ==> r.value.addresses == [] && r.value.dns == [] && r.value.dnsSearch == [] && r.value.mtu.None?
  {
    if "private_key" !in attributes then Failure(InterfaceHasNoPrivateKey)
    else
      var privateKeyString := attributes["private_key"];
      match KeyFromHex(privateKeyString)
      case None => Failure(InterfaceHasInvalidPrivateKey(privateKeyString))
      case Some(privateKey) =>
        match NonZeroField(attributes, "listen_port", UInt16Max)
        case Failure(text) => Failure(InterfaceHasInvalidListenPort(text))
        case Success(listenPort) =>
          Success(NewInterface(privateKey).(listenPort := if listenPort.Some? then Some(listenPort.value as UInt16) else None))
  }

  /** The handshake-time fields are checked for well-formedness; the
      nanoseconds only when the seconds are non-zero. */
  function CheckHandshakeTime(attributes: map<string, string>): (r: Result<(), ConfigurationParseError>)
    ensures "last_handshake_time_sec" !in attributes ==> r.Success?
    ensures r.Failure? ==> exists key :: key in attributes && r.error == PeerHasInvalidLastHandshakeTime(attributes[key])
  {
    if "last_handshake_time_sec" !in attributes then Success(())
    else match ParseUnsigned(attributes["last_handshake_time_sec"], UInt64Max)
      case None => Failure(PeerHasInvalidLastHandshakeTime(attributes["last_handshake_time_sec"]))
      case Some(sec) =>
        if sec == 0 || "last_handshake_time_nsec" !in attributes then Success(())
        else if ParseUnsigned(attributes["last_handshake_time_nsec"], UInt64Max).None? then
          Failure(PeerHasInvalidLastHandshakeTime(attributes["last_handshake_time_nsec"]))
        else Success(())
  }

  /** `collate(peerAttributes:)`: a hex public key is required; an all-zero
      pre-shared key, a zero keepalive and zero byte counts are left unset. */
  function UapiPeerFromAttributes(attributes: map<string, string>): (r: Result<PeerConfiguration, ConfigurationParseError>)
    ensures "public_key" !in attributes ==> r == Failure(PeerHasNoPublicKey)
    ensures r.Success? ==> ("public_key" in attributes
      && KeyFromHex(attributes["public_key"]) == Some(r.value.publicKey))
    ensures r.Success? && r.value.preSharedKey.Some? ==> !IsZeroKey(r.value.preSharedKey.value)
    ensures r.Success? ==> r.value.persistentKeepAlive != Some(0) && r.value.rxBytes != Some(0) && r.value.txBytes != Some(0)
    ensures r.Success? ==> ("endpoint" in attributes <==> r.value.endpoint.Some?)
  {
    if "public_key" !in attributes then Failure(PeerHasNoPublicKey)
    else
      var publicKeyString := attributes["public_key"];
      match KeyFromHex(publicKeyString)
      case None => Failure(PeerHasInvalidPublicKey(publicKeyString))
      case Some(publicKey) =>
        var preSharedKey :-
          if "preshared_key" !in attributes then Success(None)
          else match KeyFromHex(attributes["preshared_key"])
            case None => Failure(PeerHasInvalidPreSharedKey(attributes["preshared_key"]))
            case Some(k) => Success(if IsZeroKey(k) then None else Some(k));
        var allowedIPs :-
          if "allowed_ip" !in attributes then Success([])
          else match WireGuardConfig.ParseRanges(SplitToArray(attributes["allowed_ip"], DefaultSeparator, true))
            case Failure(bad) => Failure(PeerHasInvalidAllowedIP(bad))
            case Success(rs) => Success(rs);
        var endpoint :-
          if "endpoint" !in attributes then Success(None)
          else match ParseEndpoint(attributes["endpoint"])
            case None => Failure(PeerHasInvalidEndpoint(attributes["endpoint"]))
            case Some(e) => Success(Some(e));
        UapiPeerCounters(attributes, PeerConfiguration(publicKey, preSharedKey, allowedIPs, endpoint, None, None, None))
  }

  /** The second half of `collate(peerAttributes:)`: the keepalive
      interval and byte counts, zero meaning unset, then the handshake-time
      checks. */
  function UapiPeerCounters(attributes: map<string, string>, peer: PeerConfiguration): (r: Result<PeerConfiguration, ConfigurationParseError>)
    ensures r.Success? ==> r.value.persistentKeepAlive != Some(0) && r.value.rxBytes != Some(0) && r.value.txBytes != Some(0)
    ensures r.Success? ==> r.value.(persistentKeepAlive := None, rxBytes := None, txBytes := None)
                           == peer.(persistentKeepAlive := None, rxBytes := None, txBytes := None)
  {
    var persistentKeepAlive :-
      match NonZeroField(attributes, "persistent_keepalive_interval", UInt16Max)
      case Failure(text) => Failure(PeerHasInvalidPersistentKeepAlive(text))
      case Success(k) => Success(if k.Some? then Some(k.value as UInt16) else None);
    var rxBytes :-
      match NonZeroField(attributes, "rx_bytes", UInt64Max)
      case Failure(text) => Failure(PeerHasInvalidTransferBytes(text))
      case Success(n) => Success(n);
    var txBytes :-
      match NonZeroField(attributes, "tx_bytes", UInt64Max)
      case Failure(text) => Failure(PeerHasInvalidTransferBytes(text))
      case Success(n) => Success(n);
    var _ :- CheckHandshakeTime(attributes);
    Success(peer.(persistentKeepAlive := persistentKeepAlive, rxBytes := rxBytes, txBytes := txBytes))
  }

  /** `collate(interfaceAttributes:)`. */
  method CollateUapiInterface(attributes: map<string, string>) returns (r: Result<InterfaceConfiguration, ConfigurationParseError>)
    ensures r == UapiInterfaceFromAttributes(attributes)
  {
    if "private_key" !in attributes {
      return Failure(InterfaceHasNoPrivateKey);
    }
    var privateKeyString := attributes["private_key"];
    var privateKey := KeyFromHex(privateKeyString);
    if privateKey.None? {
      return Failure(InterfaceHasInvalidPrivateKey(privateKeyString));
    }
    var interface := NewInterface(privateKey.value);
    if "listen_port" in attributes {
      var listenPortString := attributes["listen_port"];
      var listenPort := ParseUnsigned(listenPortString, UInt16Max);
      if listenPort.None? {
        return Failure(InterfaceHasInvalidListenPort(listenPortString));
      }
      if listenPort.value != 0 {
        interface := interface.(listenPort := Some(listenPort.value));
      }
    }
    return Success(interface);
  }

  /** An unsigned field of `collate(peerAttributes:)` that is kept only when
      non-zero. */
  method ReadNonZeroField(attributes: map<string, string>, key: string, max: nat) returns (r: Result<Option<nat>, string>)
    ensures r == NonZeroField(attributes, key, max)
  {
    if key !in attributes {
      return Success(None);
    }
    var text := attributes[key];
    var n := ParseUnsigned(text, max);
    if n.None? {
      return Failure(text);
    }
    if n.value != 0 {
      return Success(n);
    }
    return Success(None);
  }

  /** `collate(peerAttributes:)`. */
  method CollateUapiPeer(attributes: map<string, string>) returns (r: Result<PeerConfiguration, ConfigurationParseError>)
    ensures r == UapiPeerFromAttributes(attributes)
  {
    if "public_key" !in attributes {
      return Failure(PeerHasNoPublicKey);
    }
    var publicKeyString := attributes["public_key"];
    var publicKey := KeyFromHex(publicKeyString);
    if publicKey.None? {
      return Failure(PeerHasInvalidPublicKey(publicKeyString));
    }
    var peer := NewPeer(publicKey.value);
    if "preshared_key" in attributes {
      var preSharedKeyString := attributes["preshared_key"];
      var preSharedKey := KeyFromHex(preSharedKeyString);
      if preSharedKey.None? {
        return Failure(PeerHasInvalidPreSharedKey(preSharedKeyString));
      }
      var accumulator := KeyAccumulator(preSharedKey.value);
      if accumulator != 0 {
        peer := peer.(preSharedKey := preSharedKey);
      }
    }
    if "allowed_ip" in attributes {
      var allowedIPs := WireGuardConfig.CollateRanges(SplitToArray(attributes["allowed_ip"], DefaultSeparator, true));
      if allowedIPs.Failure? {
        return Failure(PeerHasInvalidAllowedIP(allowedIPs.error));
      }
      peer := peer.(allowedIPs := allowedIPs.value);
    }
    if "endpoint" in attributes {
      var endpointString := attributes["endpoint"];
      var endpoint := ParseEndpoint(endpointString);
      if endpoint.None? {
        return Failure(PeerHasInvalidEndpoint(endpointString));
      }
      peer := peer.(endpoint := endpoint);
    }
    r := CollateUapiPeerCounters(attributes, peer);
  }

  /** The second half of `collate(peerAttributes:)`. */
  method CollateUapiPeerCounters(attributes: map<string, string>, peer: PeerConfiguration)
    returns (r: Result<PeerConfiguration, ConfigurationParseError>)
    ensures r == UapiPeerCounters(attributes, peer)
  {
    var collated := peer;
    var persistentKeepAlive := ReadNonZeroField(attributes, "persistent_keepalive_interval", UInt16Max);
    if persistentKeepAlive.Failure? {
      return Failure(PeerHasInvalidPersistentKeepAlive(persistentKeepAlive.error));
    }
    collated := collated.(persistentKeepAlive := if persistentKeepAlive.value.Some? then Some(persistentKeepAlive.value.value as UInt16) else None);
    var rxBytes := ReadNonZeroField(attributes, "rx_bytes", UInt64Max);
    if rxBytes.Failure? {
      return Failure(PeerHasInvalidTransferBytes(rxBytes.error));
    }
    collated := collated.(rxBytes := rxBytes.value);
    var txBytes := ReadNonZeroField(attributes, "tx_bytes", UInt64Max);
    if txBytes.Failure? {
      return Failure(PeerHasInvalidTransferBytes(txBytes.error));
    }
    collated := collated.(txBytes := txBytes.value);
    var handshake := CheckUapiHandshakeTime(attributes);
    if handshake.Failure? {
      return Failure(handshake.error);
    }
    return Success(collated);
  }

  /** The handshake-time checks at the end of `collate(peerAttributes:)`. */
  method CheckUapiHandshakeTime(attributes: map<string, string>) returns (r: Result<(), ConfigurationParseError>)
    ensures r == CheckHandshakeTime(attributes)
  {
    if "last_handshake_time_sec" in attributes {
      var lastHandshakeTimeSecString := attributes["last_handshake_time_sec"];
      var lastHandshakeTimeSec := ParseUnsigned(lastHandshakeTimeSecString, UInt64Max);
      if lastHandshakeTimeSec.None? {
        return Failure(PeerHasInvalidLastHandshakeTime(lastHandshakeTimeSecString));
      }
      if lastHandshakeTimeSec.value != 0 && "last_handshake_time_nsec" in attributes {
        var lastHandshakeTimeNsecString := attributes["last_handshake_time_nsec"];
        if ParseUnsigned(lastHandshakeTimeNsecString, UInt64Max).None? {
          return Failure(PeerHasInvalidLastHandshakeTime(lastHandshakeTimeNsecString));
        }
      }
    }
    return Success(());
  }

  // ---------------------------------------------------------------- the line parser

  datatype UapiState = UapiState(
    section: ConfigurationParserState,
    attributes: map<string, string>,
    interface: Option<InterfaceConfiguration>,
    peers: seq<PeerConfiguration>)

  const UapiInitialState: UapiState := UapiState(InInterfaceSection, map[], None, [])

  /** The key and value of a non-empty line: the text before and after its
      first '='. */
  function KeyValue(line: string): (r: Result<(string, string), ConfigurationParseError>)
    ensures r.Failure? <==> NoneIn(line, {'='})
    ensures r.Failure? ==> r.error == InvalidLine(line)
    ensures r.Success? ==> line == r.value.0 + "=" + r.value.1 && NoneIn(r.value.0, {'='})
  {
    match FirstIndexIn(line, {'='})
    case None => Failure(InvalidLine(line))
    case Some(i) =>
      assert line == line[..i] + "=" + line[i + 1..];
      Success((line[..i], line[i + 1..]))
  }

  /** The end of a section: the interface when parsing is still in it (the
      parser then moves on to peers), a peer otherwise; the attributes are
      cleared. */
  function CloseUapiSection(st: UapiState): (r: Result<UapiState, ConfigurationParseError>)
    ensures r.Success? ==> r.value.attributes == map[]
    ensures r.Success? && st.section != NotInASection ==> r.value.section == InPeerSection
    ensures r.Success? && st.section == InInterfaceSection ==> r.value.interface.Some? && r.value.peers == st.peers
    ensures r.Success? && st.section == InPeerSection ==> r.value.interface == st.interface && |r.value.peers| == |st.peers| + 1
    ensures r.Success? ==> st.peers <= r.value.peers
    ensures r.Success? && st.interface.Some? ==> r.value.interface == st.interface
  {
    match st.section
    case InInterfaceSection =>
      var interface :- UapiInterfaceFromAttributes(st.attributes);
      if st.interface.Some? then Failure(MultipleInterfaces)
      else Success(UapiState(InPeerSection, map[], Some(interface), st.peers))
    case InPeerSection =>
      var peer :- UapiPeerFromAttributes(st.attributes);
      Success(UapiState(InPeerSection, map[], st.interface, st.peers + [peer]))
    case NotInASection => Success(st.(attributes := map[]))
  }

  /** Recording one `key=value` pair: a repeated key is refused unless it is
      `allowed_ip` (whose values are comma-joined), and the key must belong
      to the current section. */
  function AddUapiAttribute(st: UapiState, key: string, value: string): (r: Result<UapiState, ConfigurationParseError>)
    ensures key in st.attributes && key != "allowed_ip" ==> r == Failure(MultipleEntriesForKey(key))
    ensures r.Success? ==> r.value.section == st.section && r.value.interface == st.interface && r.value.peers == st.peers
    ensures r.Success? && st.section == InInterfaceSection ==> key in UapiInterfaceKeys
    ensures r.Success? && st.section == InPeerSection ==> key in UapiPeerKeys
  {
    if key in st.attributes && key != "allowed_ip" then Failure(MultipleEntriesForKey(key))
    else
      var attributes := if key in st.attributes then st.attributes[key := st.attributes[key] + "," + value]
                        else st.attributes[key := value];
      if st.section == InInterfaceSection && key !in UapiInterfaceKeys then Failure(InterfaceHasUnrecognizedKey(key))
      else if st.section == InPeerSection && key !in UapiPeerKeys then Failure(PeerHasUnrecognizedKey(key))
      else Success(st.(attributes := attributes))
  }

  /** One non-empty line: a `public_key` line first closes the section. */
  function UapiLineStep(st: UapiState, line: string): (r: Result<UapiState, ConfigurationParseError>)
    requires line != []
    ensures NoneIn(line, {'='}) ==> r == Failure(InvalidLine(line))
    ensures r.Success? ==> st.peers <= r.value.peers
    ensures r.Success? && st.interface.Some? ==> r.value.interface == st.interface
  {
    var (key, value) :- KeyValue(line);
    var current :- if key == "public_key" then CloseUapiSection(st) else Success(st);
    AddUapiAttribute(current, key, value)
  }

  /** The parser's loop from line `k` on: the first empty line closes the
      last section and ends the loop. Peers read are never dropped, and an
      interface once read is never replaced. */
  function UapiParseFrom(lines: seq<string>, k: nat, st: UapiState): (r: Result<UapiState, ConfigurationParseError>)
    requires k <= |lines|
    ensures r.Success? ==> st.peers <= r.value.peers
    ensures r.Success? && st.interface.Some? ==> r.value.interface == st.interface
    decreases |lines| - k
  {
    if k == |lines| then Success(st)
    else if lines[k] == [] then CloseUapiSection(st)
    else
      var next :- UapiLineStep(st, lines[k]);
      UapiParseFrom(lines, k + 1, next)
  }

  /** The lines of a reply: the non-empty runs between '\n' characters, then
      one empty line. */
  function UapiLines(uapiConfig: string): (r: seq<string>)
    ensures |r| >= 1 && r[|r| - 1] == []
    ensures forall k :: 0 <= k < |r| - 1 ==> r[k] != []
  {
    var lines := Split(uapiConfig, {'\n'});
    lines + [[]]
  }

  /** `TunnelConfiguration(fromUapiConfig:basedOn:)`: the name, addresses,
      DNS settings and MTU come from `base`. */
  function UapiParse(uapiConfig: string, base: Option<TunnelConfiguration>): (r: Result<TunnelConfiguration, ConfigurationParseError>)
    ensures r.Success? ==> DistinctPublicKeys(r.value.peers)
    ensures r.Success? ==> r.value.name == (if base.Some? then base.value.name else None)
    ensures r.Success? ==> r.value.interface.addresses == (if base.Some? then base.value.interface.addresses else [])
    ensures r.Success? ==> r.value.interface.dns == (if base.Some? then base.value.interface.dns else [])
    ensures r.Success? ==> r.value.interface.dnsSearch == (if base.Some? then base.value.interface.dnsSearch else [])
    ensures r.Success? ==> r.value.interface.mtu == (if base.Some? then base.value.interface.mtu else None)
  {
    var st :- UapiParseFrom(UapiLines(uapiConfig), 0, UapiInitialState);
    UapiFinish(st, base)
  }

  /** What the parser makes of its state once the loop is over: the peers
      and the interface's key and listen port as read, the rest of the
      interface and the name from `base`. */
  function UapiFinish(st: UapiState, base: Option<TunnelConfiguration>): (r: Result<TunnelConfiguration, ConfigurationParseError>)
    ensures !DistinctPublicKeys(st.peers) ==> r == Failure(MultiplePeersWithSamePublicKey)
    ensures DistinctPublicKeys(st.peers) && st.interface.None? ==> r == Failure(NoInterface)
    ensures r.Success? <==> DistinctPublicKeys(st.peers) && st.interface.Some?
    ensures r.Success? ==> r.value.peers == st.peers && r.value.interface.privateKey == st.interface.value.privateKey
    ensures r.Success? ==> r.value.interface.listenPort == st.interface.value.listenPort
  {
    if !DistinctPublicKeys(st.peers) then Failure(MultiplePeersWithSamePublicKey)
    else match st.interface
      case None => Failure(NoInterface)
      case Some(interface) =>
        var name := if base.Some? then base.value.name else None;
        var based :=
          if base.Some? then interface.(addresses := base.value.interface.addresses, dns := base.value.interface.dns,
                                        dnsSearch := base.value.interface.dnsSearch, mtu := base.value.interface.mtu)
          else interface.(addresses := [], dns := [], dnsSearch := [], mtu := None);
        Success(TunnelConfiguration(name, based, st.peers))
  }

  /** The parser's handling of the end of a section, on its own variables. */
  method CloseSection(parserState: ConfigurationParserState, attributes: map<string, string>,
                      interfaceConfiguration: Option<InterfaceConfiguration>, peerConfigurations: seq<PeerConfiguration>)
    returns (r: Result<UapiState, ConfigurationParseError>)
    ensures r == CloseUapiSection(UapiState(parserState, attributes, interfaceConfiguration, peerConfigurations))
  {
    var interfaceConfiguration, peerConfigurations := interfaceConfiguration, peerConfigurations;
    var parserState := parserState;
    if parserState == InInterfaceSection {
      var interface := CollateUapiInterface(attributes);
      if interface.Failure? {
        return Failure(interface.error);
      }
      if interfaceConfiguration.Some? {
        return Failure(MultipleInterfaces);
      }
      interfaceConfiguration := Some(interface.value);
      parserState := InPeerSection;
    } else if parserState == InPeerSection {
      var peer := CollateUapiPeer(attributes);
      if peer.Failure? {
        return Failure(peer.error);
      }
      peerConfigurations := peerConfigurations + [peer.value];
    }
    return Success(UapiState(parserState, map[], interfaceConfiguration, peerConfigurations));
  }

  /** The parser's recording of one `key=value` pair. */
  method AddAttribute(st: UapiState, key: string, value: string) returns (r: Result<UapiState, ConfigurationParseError>)
    ensures r == AddUapiAttribute(st, key, value)
  {
    var attributes := st.attributes;
    if key in attributes {
      if key == "allowed_ip" {
        attributes := attributes[key := attributes[key] + "," + value];
      } else {
        return Failure(MultipleEntriesForKey(key));
      }
    } else {
      attributes := attributes[key := value];
    }

    if st.section == InInterfaceSection {
      if key !in UapiInterfaceKeys {
        return Failure(InterfaceHasUnrecognizedKey(key));
      }
    }
    if st.section == InPeerSection {
      if key !in UapiPeerKeys {
        return Failure(PeerHasUnrecognizedKey(key));
      }
    }
    return Success(st.(attributes := attributes));
  }

  /** One non-empty line of the reply: its key and value, the end of the
      section a `public_key` line brings, then the pair itself. */
  method ReadLine(st: UapiState, line: string) returns (r: Result<UapiState, ConfigurationParseError>)
    requires line != []
    ensures r == UapiLineStep(st, line)
  {
    var equalsIndex := FirstIndexIn(line, {'='});
    if equalsIndex.None? {
      return Failure(InvalidLine(line));
    }
    var key := line[..equalsIndex.value];
    var value := line[equalsIndex.value + 1..];
    var current := st;
    if key == "public_key" {
      var closed := CloseSection(st.section, st.attributes, st.interface, st.peers);
      if closed.Failure? {
        return Failure(closed.error);
      }
      current := closed.value;
    }
    r := AddAttribute(current, key, value);
  }

  /** The checks and the merge with `base` after the parser's loop. */
  method Finish(parserState: ConfigurationParserState, attributes: map<string, string>,
                interfaceConfiguration: Option<InterfaceConfiguration>, peerConfigurations: seq<PeerConfiguration>,
                base: Option<TunnelConfiguration>)
    returns (r: Result<TunnelConfiguration, ConfigurationParseError>)
    ensures r == UapiFinish(UapiState(parserState, attributes, interfaceConfiguration, peerConfigurations), base)
  {
    if !DistinctPublicKeys(peerConfigurations) {
      return Failure(MultiplePeersWithSamePublicKey);
    }
    if interfaceConfiguration.None? {
      return Failure(NoInterface);
    }
    var name := if base.Some? then base.value.name else None;
    var interface := interfaceConfiguration.value;
    if base.Some? {
      interface := interface.(addresses := base.value.interface.addresses, dns := base.value.interface.dns,
                              dnsSearch := base.value.interface.dnsSearch, mtu := base.value.interface.mtu);
    } else {
      interface := interface.(addresses := [], dns := [], dnsSearch := [], mtu := None);
    }
    return Success(TunnelConfiguration(name, interface, peerConfigurations));
  }

  /** `TunnelConfiguration(fromUapiConfig:basedOn:)`, with its loop over
      lines and its early exit at the empty line. */
  method ParseUapiConfig(uapiConfig: string, base: Option<TunnelConfiguration>)
    returns (r: Result<TunnelConfiguration, ConfigurationParseError>)
    ensures r == UapiParse(uapiConfig, base)
  {
    var interfaceConfiguration: Option<InterfaceConfiguration> := None;
    var peerConfigurations: seq<PeerConfiguration> := [];
    var lines := Split(uapiConfig, {'\n'});
    lines := lines + [""];
    assert lines == UapiLines(uapiConfig);
    var parserState := InInterfaceSection;
    var attributes: map<string, string> := map[];
    ghost var outcome := UapiParseFrom(lines, 0, UapiInitialState);

    for lineIndex := 0 to |lines|
      invariant outcome == UapiParseFrom(lines, lineIndex, UapiState(parserState, attributes, interfaceConfiguration, peerConfigurations))
    {
      var line := lines[lineIndex];
      if line == [] {
        var closed := CloseSection(parserState, attributes, interfaceConfiguration, peerConfigurations);
        if closed.Failure? {
          return Failure(closed.error);
        }
        parserState, attributes := closed.value.section, closed.value.attributes;
        interfaceConfiguration, peerConfigurations := closed.value.interface, closed.value.peers;
        break;
      }
      var next := ReadLine(UapiState(parserState, attributes, interfaceConfiguration, peerConfigurations), line);
      if next.Failure? {
        return Failure(next.error);
      }
      parserState, attributes := next.value.section, next.value.attributes;
      interfaceConfiguration, peerConfigurations := next.value.interface, next.value.peers;
    }

    r := Finish(parserState, attributes, interfaceConfiguration, peerConfigurations, base);
  }

  // ---------------------------------------------------------------- properties

  /** A `key=value` line whose key has no '=' splits back into that key and value. */
  lemma KeyValueOf(key: string, value: string)
    requires NoneIn(key, {'='})
    ensures KeyValue(key + "=" + value) == Success((key, value))
  {
    FirstIndexOfPrefixed(key, '=', value, {'='});
    assert (key + "=" + value)[..|key|] == key;
    assert (key + "=" + value)[|key| + 1..] == value;
  }

  /** A `public_key` line ends the current section: the parser is in the
      peer section afterwards, holding only that key; the interface is
      produced by the first such line and a peer by every later one. */
  lemma PublicKeyOpensPeer(st: UapiState, value: string)
    requires st.section != NotInASection
    ensures var r := UapiLineStep(st, "public_key=" + value);
      r.Success? ==> (r.value.section == InPeerSection && r.value.attributes == map["public_key" := value]
        && (st.section == InInterfaceSection ==> r.value.interface.Some? && r.value.peers == st.peers)
        && (st.section == InPeerSection ==> r.value.interface == st.interface && |r.value.peers| == |st.peers| + 1))
  {
    KeyValueOf("public_key", value);
    assert "public_key=" + value == "public_key" + "=" + value;
    var closed := CloseUapiSection(st);
    if closed.Success? {
      assert UapiLineStep(st, "public_key=" + value) == AddUapiAttribute(closed.value, "public_key", value);
    }
  }

  /** Any other key repeated within a section is refused, except
      `allowed_ip`, whose values are comma-joined. */
  lemma RepeatedKey(st: UapiState, key: string, value: string)
    requires NoneIn(key, {'='}) && key != "public_key" && key in st.attributes
    ensures key != "allowed_ip" ==> UapiLineStep(st, key + "=" + value) == Failure(MultipleEntriesForKey(key))
    ensures key == "allowed_ip" && st.section == InPeerSection ==>
      UapiLineStep(st, key + "=" + value) == Success(st.(attributes := st.attributes[key := st.attributes[key] + "," + value]))
  {
    KeyValueOf(key, value);
  }

  /** A new key outside the current section's key set is refused. */
  lemma UnrecognizedKey(st: UapiState, key: string, value: string)
    requires NoneIn(key, {'='}) && key != "public_key" && key !in st.attributes
    ensures st.section == InInterfaceSection && key !in UapiInterfaceKeys ==>
      UapiLineStep(st, key + "=" + value) == Failure(InterfaceHasUnrecognizedKey(key))
    ensures st.section == InPeerSection && key !in UapiPeerKeys ==>
      UapiLineStep(st, key + "=" + value) == Failure(PeerHasUnrecognizedKey(key))
  {
    KeyValueOf(key, value);
  }

  /** The states the loop can reach: still in the interface section with no
      interface yet, or in the peer section after the interface. */
  predicate Reachable(st: UapiState) {
    (st.section == InInterfaceSection && st.interface.None?)
    || (st.section == InPeerSection && st.interface.Some?)
  }

  lemma LineStepReachable(st: UapiState, line: string)
    requires Reachable(st) && line != []
    ensures UapiLineStep(st, line).Success? ==> Reachable(UapiLineStep(st, line).value)
    ensures UapiLineStep(st, line) != Failure(MultipleInterfaces)
    ensures UapiLineStep(st, line) != Failure(NoInterface)
  {
  }

  /** From a reachable state, the loop over lines that end in the empty
      sentinel ends with an interface, and never reports a second one. */
  lemma {:induction false} ParseFromReachable(lines: seq<string>, k: nat, st: UapiState)
    requires k < |lines| && lines[|lines| - 1] == []
    requires Reachable(st)
    ensures var r := UapiParseFrom(lines, k, st);
      (r.Success? ==> r.value.interface.Some?) && r != Failure(MultipleInterfaces) && r != Failure(NoInterface)
    decreases |lines| - k
  {
    if lines[k] != [] {
      LineStepReachable(st, lines[k]);
      var next := UapiLineStep(st, lines[k]);
      if next.Success? {
        ParseFromReachable(lines, k + 1, next.value);
      }
    }
  }

  /** The reply parser never reports `noInterface` or `multipleInterfaces`:
      the appended empty line always closes the interface section. */
  lemma UapiAlwaysHasInterface(uapiConfig: string, base: Option<TunnelConfiguration>)
    ensures UapiParse(uapiConfig, base) != Failure(NoInterface)
    ensures UapiParse(uapiConfig, base) != Failure(MultipleInterfaces)
  {
    var lines := UapiLines(uapiConfig);
    ParseFromReachable(lines, 0, UapiInitialState);
    var outcome := UapiParseFrom(lines, 0, UapiInitialState);
    if outcome.Success? && DistinctPublicKeys(outcome.value.peers) {
      assert UapiParse(uapiConfig, base).Success?;
    }
  }
}
