/** The wg-quick configuration format: `TunnelConfiguration(wireGuardConfig:with:)`,
    `asWireGuardConfig()` and the two `collate` helpers
    (Shared/Extentions/TunnelConfiguration+WireGuardConfig.swift).
    Each imperative routine is a method proved equal to a specification
    function, and the pieces carry their own contracts; that the text the
    serialiser writes reads back as the configuration is the lemma
    `WgQuickRoundTrip.WgQuickRoundTrip`, and what the parser refuses is
    proved in `WgQuickErrors`. */
module WireGuardConfig {
  import opened Wrappers
  import opened Text
  import opened ArrayConversion
  import opened WireGuardKit
  import opened ConfigurationParsing

  const InterfaceSectionKeys: set<string> := {"privatekey", "listenport", "address", "dns", "mtu"}
  const PeerSectionKeys: set<string> := {"publickey", "presharedkey", "allowedips", "endpoint", "persistentkeepalive"}
  const KeysWithMultipleEntriesAllowed: set<string> := {"address", "allowedips", "dns"}

  // ---------------------------------------------------------------- list fields

  /** Item k is the first item that does not parse as an address range. */
  predicate FirstBadRange(items: seq<string>, k: int) {
    0 <= k < |items| && ParseAddressRange(items[k]).None?
    && forall j :: 0 <= j < k ==> ParseAddressRange(items[j]).Some?
  }

  /** The loop that turns a comma list into ranges, stopping at the first
      item that does not parse and reporting that item. */
  function ParseRanges(items: seq<string>): (r: Result<seq<AddressRange>, string>)
    ensures r.Success? ==> (|r.value| == |items|
      && forall k :: 0 <= k < |items| ==> ParseAddressRange(items[k]) == Some(r.value[k]))
    ensures r.Failure? ==> exists k :: FirstBadRange(items, k) && r.error == items[k]
  {
    if items == [] then Success([])
    else match ParseAddressRange(items[0])
      case None =>
        assert FirstBadRange(items, 0);
        Failure(items[0])
      case Some(a) =>
        match ParseRanges(items[1..])
        case Failure(e) =>
          var k :| FirstBadRange(items[1..], k) && e == items[1..][k];
          assert FirstBadRange(items, k + 1);
          Failure(e)
        case Success(rest) => Success([a] + rest)
  }

  /** When every item parses, the loop yields exactly the parsed ranges. */
  lemma {:induction false} ParseRangesAllParse(items: seq<string>, ranges: seq<AddressRange>)
    requires |ranges| == |items|
    requires forall k :: 0 <= k < |items| ==> ParseAddressRange(items[k]) == Some(ranges[k])
    ensures ParseRanges(items) == Success(ranges)
  {
    if items != [] {
      ParseRangesAllParse(items[1..], ranges[1..]);
      assert ranges == [ranges[0]] + ranges[1..];
    }
  }

  lemma FirstBadRangeUnique(items: seq<string>, k: int, k': int)
    requires FirstBadRange(items, k) && FirstBadRange(items, k')
    ensures k == k'
  {
  }

  /** DNS list entries that parse as servers, and the rest as search
      domains, each in their original order. */
  function SplitDNS(items: seq<string>): (r: (seq<DNSServer>, seq<string>))
    ensures |r.0| + |r.1| == |items|
    ensures forall k :: 0 <= k < |r.1| ==> ParseDNSServer(r.1[k]).None?
    decreases |items|
  {
    if items == [] then ([], [])
    else
      var last := items[|items| - 1];
      var init := SplitDNS(items[..|items| - 1]);
      match ParseDNSServer(last)
      case Some(d) => (init.0 + [d], init.1)
      case None => (init.0, init.1 + [last])
  }

  // ---------------------------------------------------------------- collation

  /** `collate(interfaceAttributes:)`: the private key is required; every
      other field is optional, and a present field must be well formed. */
  function InterfaceFromAttributes(attributes: map<string, string>): (r: Result<InterfaceConfiguration, ConfigurationParseError>)
    ensures "privatekey" !in attributes ==> r == Failure(InterfaceHasNoPrivateKey)
    ensures r.Success? ==> ("privatekey" in attributes
      && KeyFromBase64(attributes["privatekey"]) == Some(r.value.privateKey))
    ensures r.Success? ==> ("listenport" in attributes <==> r.value.listenPort.Some?)
    ensures r.Success? ==> ("mtu" in attributes <==> r.value.mtu.Some?)
  {
    if "privatekey" !in attributes then Failure(InterfaceHasNoPrivateKey)
    else
      var privateKeyString := attributes["privatekey"];
      match KeyFromBase64(privateKeyString)
      case None => Failure(InterfaceHasInvalidPrivateKey(privateKeyString))
      case Some(privateKey) =>
        var listenPort :-
          if "listenport" !in attributes then Success(None)
          else match ParseUnsigned(attributes["listenport"], UInt16Max)
            case None => Failure(InterfaceHasInvalidListenPort(attributes["listenport"]))
            case Some(p) => Success(Some(p as UInt16));
        var addresses :-
          if "address" !in attributes then Success([])
          else match ParseRanges(SplitToArray(attributes["address"], DefaultSeparator, true))
            case Failure(bad) => Failure(InterfaceHasInvalidAddress(bad))
            case Success(rs) => Success(rs);
        var dns := if "dns" !in attributes then ([], []) else SplitDNS(SplitToArray(attributes["dns"], DefaultSeparator, true));
        var mtu :-
          if "mtu" !in attributes then Success(None)
          else match ParseUnsigned(attributes["mtu"], UInt16Max)
            case None => Failure(InterfaceHasInvalidMTU(attributes["mtu"]))
            case Some(m) => Success(Some(m as UInt16));
        Success(InterfaceConfiguration(privateKey, addresses, listenPort, mtu, dns.0, dns.1))
  }

  /** `collate(peerAttributes:)`: the public key is required; every other
      field is optional, and a present field must be well formed. */
  function PeerFromAttributes(attributes: map<string, string>): (r: Result<PeerConfiguration, ConfigurationParseError>)
    ensures "publickey" !in attributes ==> r == Failure(PeerHasNoPublicKey)
    ensures r.Success? ==> ("publickey" in attributes
      && KeyFromBase64(attributes["publickey"]) == Some(r.value.publicKey))
    ensures r.Success? ==> ("presharedkey" in attributes <==> r.value.preSharedKey.Some?)
    ensures r.Success? ==> ("endpoint" in attributes <==> r.value.endpoint.Some?)
    ensures r.Success? ==> ("persistentkeepalive" in attributes <==> r.value.persistentKeepAlive.Some?)
    ensures r.Success? ==> r.value.rxBytes.None? && r.value.txBytes.None?
  {
    if "publickey" !in attributes then Failure(PeerHasNoPublicKey)
    else
      var publicKeyString := attributes["publickey"];
      match KeyFromBase64(publicKeyString)
      case None => Failure(PeerHasInvalidPublicKey(publicKeyString))
      case Some(publicKey) =>
        var preSharedKey :-
          if "presharedkey" !in attributes then Success(None)
          else match KeyFromBase64(attributes["presharedkey"])
            case None => Failure(PeerHasInvalidPreSharedKey(attributes["presharedkey"]))
            case Some(k) => Success(Some(k));
        var allowedIPs :-
          if "allowedips" !in attributes then Success([])
          else match ParseRanges(SplitToArray(attributes["allowedips"], DefaultSeparator, true))
            case Failure(bad) => Failure(PeerHasInvalidAllowedIP(bad))
            case Success(rs) => Success(rs);
        var endpoint :-
          if "endpoint" !in attributes then Success(None)
          else match ParseEndpoint(attributes["endpoint"])
            case None => Failure(PeerHasInvalidEndpoint(attributes["endpoint"]))
            case Some(e) => Success(Some(e));
        var persistentKeepAlive :-
          if "persistentkeepalive" !in attributes then Success(None)
          else match ParseUnsigned(attributes["persistentkeepalive"], UInt16Max)
            case None => Failure(PeerHasInvalidPersistentKeepAlive(attributes["persistentkeepalive"]))
            case Some(k) => Success(Some(k as UInt16));
        Success(PeerConfiguration(publicKey, preSharedKey, allowedIPs, endpoint, persistentKeepAlive, None, None))
  }

  /** The address loop of the collate helpers. */
  method CollateRanges(items: seq<string>) returns (r: Result<seq<AddressRange>, string>)
    ensures r == ParseRanges(items)
  {
    var ranges: seq<AddressRange> := [];
    for i := 0 to |items|
      invariant |ranges| == i
      invariant forall k :: 0 <= k < i ==> ParseAddressRange(items[k]) == Some(ranges[k])
    {
      var range := ParseAddressRange(items[i]);
      if range.None? {
        assert FirstBadRange(items, i);
        if ParseRanges(items).Failure? {
          var k :| FirstBadRange(items, k) && ParseRanges(items).error == items[k];
          FirstBadRangeUnique(items, i, k);
        }
        return Failure(items[i]);
      }
      ranges := ranges + [range.value];
    }
    ParseRangesAllParse(items, ranges);
    return Success(ranges);
  }

  /** The DNS loop of `collate(interfaceAttributes:)`. */
  method CollateDNS(items: seq<string>) returns (dnsServers: seq<DNSServer>, dnsSearch: seq<string>)
    ensures (dnsServers, dnsSearch) == SplitDNS(items)
  {
    dnsServers, dnsSearch := [], [];
    for i := 0 to |items|
      invariant (dnsServers, dnsSearch) == SplitDNS(items[..i])
    {
      assert items[..i + 1][..i] == items[..i];
      var dnsServer := ParseDNSServer(items[i]);
      if dnsServer.Some? {
        dnsServers := dnsServers + [dnsServer.value];
      } else {
        dnsSearch := dnsSearch + [items[i]];
      }
    }
    assert items[..|items|] == items;
  }

  /** `collate(interfaceAttributes:)`. */
  method CollateInterface(attributes: map<string, string>) returns (r: Result<InterfaceConfiguration, ConfigurationParseError>)
    ensures r == InterfaceFromAttributes(attributes)
  {
    if "privatekey" !in attributes {
      return Failure(InterfaceHasNoPrivateKey);
    }
    var privateKeyString := attributes["privatekey"];
    var privateKey := KeyFromBase64(privateKeyString);
    if privateKey.None? {
      return Failure(InterfaceHasInvalidPrivateKey(privateKeyString));
    }
    var interface := NewInterface(privateKey.value);
    if "listenport" in attributes {
      var listenPortString := attributes["listenport"];
      var listenPort := ParseUnsigned(listenPortString, UInt16Max);
      if listenPort.None? {
        return Failure(InterfaceHasInvalidListenPort(listenPortString));
      }
      interface := interface.(listenPort := Some(listenPort.value));
    }
    if "address" in attributes {
      var addresses := CollateRanges(SplitToArray(attributes["address"], DefaultSeparator, true));
      if addresses.Failure? {
        return Failure(InterfaceHasInvalidAddress(addresses.error));
      }
      interface := interface.(addresses := addresses.value);
    }
    if "dns" in attributes {
      var dnsServers, dnsSearch := CollateDNS(SplitToArray(attributes["dns"], DefaultSeparator, true));
      interface := interface.(dns := dnsServers, dnsSearch := dnsSearch);
    }
    if "mtu" in attributes {
      var mtuString := attributes["mtu"];
      var mtu := ParseUnsigned(mtuString, UInt16Max);
      if mtu.None? {
        return Failure(InterfaceHasInvalidMTU(mtuString));
      }
      interface := interface.(mtu := Some(mtu.value));
    }
    return Success(interface);
  }

  /** `collate(peerAttributes:)`. */
  method CollatePeer(attributes: map<string, string>) returns (r: Result<PeerConfiguration, ConfigurationParseError>)
    ensures r == PeerFromAttributes(attributes)
  {
    if "publickey" !in attributes {
      return Failure(PeerHasNoPublicKey);
    }
    var publicKeyString := attributes["publickey"];
    var publicKey := KeyFromBase64(publicKeyString);
    if publicKey.None? {
      return Failure(PeerHasInvalidPublicKey(publicKeyString));
    }
    var peer := NewPeer(publicKey.value);
    if "presharedkey" in attributes {
      var preSharedKeyString := attributes["presharedkey"];
      var preSharedKey := KeyFromBase64(preSharedKeyString);
      if preSharedKey.None? {
        return Failure(PeerHasInvalidPreSharedKey(preSharedKeyString));
      }
      peer := peer.(preSharedKey := preSharedKey);
    }
    if "allowedips" in attributes {
      var allowedIPs := CollateRanges(SplitToArray(attributes["allowedips"], DefaultSeparator, true));
      if allowedIPs.Failure? {
        return Failure(PeerHasInvalidAllowedIP(allowedIPs.error));
      }
      peer := peer.(allowedIPs := allowedIPs.value);
    }
    if "endpoint" in attributes {
      var endpointString := attributes["endpoint"];
      var endpoint := ParseEndpoint(endpointString);
      if endpoint.None? {
        return Failure(PeerHasInvalidEndpoint(endpointString));
      }
      peer := peer.(endpoint := endpoint);
    }
    if "persistentkeepalive" in attributes {
      var persistentKeepAliveString := attributes["persistentkeepalive"];
      var persistentKeepAlive := ParseUnsigned(persistentKeepAliveString, UInt16Max);
      if persistentKeepAlive.None? {
        return Failure(PeerHasInvalidPersistentKeepAlive(persistentKeepAliveString));
      }
      peer := peer.(persistentKeepAlive := Some(persistentKeepAlive.value));
    }
    return Success(peer);
  }

  // ---------------------------------------------------------------- the line parser

  /** What the parser carries from one line to the next. */
  datatype ParseState = ParseState(
    section: ConfigurationParserState,
    attributes: map<string, string>,
    interface: Option<InterfaceConfiguration>,
    peers: seq<PeerConfiguration>)

  const InitialState: ParseState := ParseState(NotInASection, map[], None, [])

  /** The line up to, not including, its first '#'. */
  function StripComment(line: string): (r: string)
    ensures |r| <= |line| && r == line[..|r|] && NoneIn(r, {'#'})
    ensures |r| < |line| ==> line[|r|] == '#'
  {
    match FirstIndexIn(line, {'#'})
    case None => line
    case Some(i) => line[..i]
  }

  predicate IsSectionHeader(lowercasedLine: string) {
    lowercasedLine == "[interface]" || lowercasedLine == "[peer]"
  }

  /** The attribute map after a non-empty (trimmed, comment-free) line, or
      the error that line raises. The repeated-key check comes before the
      section check, and no key check applies outside a section. */
  function AddAttribute(section: ConfigurationParserState, attributes: map<string, string>, trimmedLine: string, line: string)
    : (r: Result<map<string, string>, ConfigurationParseError>)
  {
    match FirstIndexIn(trimmedLine, {'='})
    case None =>
      if !IsSectionHeader(Lowercase(trimmedLine)) then Failure(InvalidLine(line)) else Success(attributes)
    case Some(equalsIndex) =>
      var keyWithCase := Trim(trimmedLine[..equalsIndex]);
      var key := Lowercase(keyWithCase);
      var value := Trim(trimmedLine[equalsIndex + 1..]);
      if key in attributes && key !in KeysWithMultipleEntriesAllowed then Failure(MultipleEntriesForKey(keyWithCase))
      else
        var updated := if key in attributes then attributes[key := attributes[key] + "," + value]
                       else attributes[key := value];
        if section == InInterfaceSection && key !in InterfaceSectionKeys then Failure(InterfaceHasUnrecognizedKey(keyWithCase))
        else if section == InPeerSection && key !in PeerSectionKeys then Failure(PeerHasUnrecognizedKey(keyWithCase))
        else Success(updated)
  }

  /** Turning the attributes of the section that just ended into an
      interface or a peer. */
  function CloseSection(section: ConfigurationParserState, attributes: map<string, string>,
                        interface: Option<InterfaceConfiguration>, peers: seq<PeerConfiguration>)
    : (r: Result<(Option<InterfaceConfiguration>, seq<PeerConfiguration>), ConfigurationParseError>)
    ensures section == NotInASection ==> r == Success((interface, peers))
    ensures section == InInterfaceSection && interface.Some? && InterfaceFromAttributes(attributes).Success?
            ==> r == Failure(MultipleInterfaces)
    ensures r.Success? && section == InPeerSection ==> r.value.0 == interface && |r.value.1| == |peers| + 1
  {
    match section
    case InInterfaceSection =>
      var i :- InterfaceFromAttributes(attributes);
      if interface.Some? then Failure(MultipleInterfaces) else Success((Some(i), peers))
    case InPeerSection =>
      var p :- PeerFromAttributes(attributes);
      Success((interface, peers + [p]))
    case NotInASection => Success((interface, peers))
  }

  /** One iteration of the parser's loop. */
  function LineStep(st: ParseState, line: string, isLastLine: bool): Result<ParseState, ConfigurationParseError> {
    var trimmedLine := Trim(StripComment(line));
    var lowercasedLine := Lowercase(trimmedLine);
    var attributes :- if trimmedLine == [] then Success(st.attributes) else AddAttribute(st.section, st.attributes, trimmedLine, line);
    var closed :-
      if isLastLine || IsSectionHeader(lowercasedLine) then CloseSection(st.section, attributes, st.interface, st.peers)
      else Success((st.interface, st.peers));
    if lowercasedLine == "[interface]" then Success(ParseState(InInterfaceSection, map[], closed.0, closed.1))
    else if lowercasedLine == "[peer]" then Success(ParseState(InPeerSection, map[], closed.0, closed.1))
    else Success(ParseState(st.section, attributes, closed.0, closed.1))
  }

  /** The parser's loop from line `k` on. */
  function ParseFrom(lines: seq<string>, k: nat, st: ParseState): Result<ParseState, ConfigurationParseError>
    requires k <= |lines|
    decreases |lines| - k
  {
    if k == |lines| then Success(st)
    else
      var next :- LineStep(st, lines[k], k == |lines| - 1);
      ParseFrom(lines, k + 1, next)
  }

  /** `TunnelConfiguration(wireGuardConfig:with:)`: lines are the non-empty
      runs between newline characters. */
  function WgQuickParse(wireGuardConfig: string, name: Option<string>): (r: Result<TunnelConfiguration, ConfigurationParseError>)
    ensures r.Success? ==> r.value.name == name && DistinctPublicKeys(r.value.peers)
  {
    var lines := Split(wireGuardConfig, Newlines);
    var st :- ParseFrom(lines, 0, InitialState);
    if !DistinctPublicKeys(st.peers) then Failure(MultiplePeersWithSamePublicKey)
    else if st.interface.None? then Failure(NoInterface)
    else Success(TunnelConfiguration(name, st.interface.value, st.peers))
  }

  /** The attribute half of the loop body, for a non-empty line. */
  method ReadAttribute(parserState: ConfigurationParserState, attributes: map<string, string>, trimmedLine: string, line: string)
    returns (r: Result<map<string, string>, ConfigurationParseError>)
    ensures r == AddAttribute(parserState, attributes, trimmedLine, line)
  {
    var lowercasedLine := Lowercase(trimmedLine);
    var equalsIndex := FirstIndexIn(trimmedLine, {'='});
    if equalsIndex.None? {
      if !IsSectionHeader(lowercasedLine) {
        return Failure(InvalidLine(line));
      }
      return Success(attributes);
    }
    var keyWithCase := Trim(trimmedLine[..equalsIndex.value]);
    var key := Lowercase(keyWithCase);
    var value := Trim(trimmedLine[equalsIndex.value + 1..]);
    var updated := attributes;
    if key in updated {
      if key !in KeysWithMultipleEntriesAllowed {
        return Failure(MultipleEntriesForKey(keyWithCase));
      }
      updated := updated[key := updated[key] + "," + value];
    } else {
      updated := updated[key := value];
    }
    if parserState == InInterfaceSection {
      if key !in InterfaceSectionKeys {
        return Failure(InterfaceHasUnrecognizedKey(keyWithCase));
      }
    } else if parserState == InPeerSection {
      if key !in PeerSectionKeys {
        return Failure(PeerHasUnrecognizedKey(keyWithCase));
      }
    }
    return Success(updated);
  }

  /** `TunnelConfiguration(wireGuardConfig:with:)`, with its loop over lines. */
  method ParseWireGuardConfig(wireGuardConfig: string, name: Option<string>)
    returns (r: Result<TunnelConfiguration, ConfigurationParseError>)
    ensures r == WgQuickParse(wireGuardConfig, name)
  {
    var interfaceConfiguration: Option<InterfaceConfiguration> := None;
    var peerConfigurations: seq<PeerConfiguration> := [];
    var lines := Split(wireGuardConfig, Newlines);
    var parserState := NotInASection;
    var attributes: map<string, string> := map[];

    for lineIndex := 0 to |lines|
      invariant ParseFrom(lines, 0, InitialState)
        == ParseFrom(lines, lineIndex, ParseState(parserState, attributes, interfaceConfiguration, peerConfigurations))
    {
      ghost var before := ParseState(parserState, attributes, interfaceConfiguration, peerConfigurations);
      var line := lines[lineIndex];
      var isLastLine := lineIndex == |lines| - 1;
      ghost var step := LineStep(before, line, isLastLine);
      assert ParseFrom(lines, lineIndex, before) == if step.Failure? then Failure(step.error) else ParseFrom(lines, lineIndex + 1, step.value);
      var trimmedLine := Trim(StripComment(line));
      var lowercasedLine := Lowercase(trimmedLine);

      if trimmedLine != [] {
        var added := ReadAttribute(parserState, attributes, trimmedLine, line);
        if added.Failure? {
          assert step == Failure(added.error);
          return Failure(added.error);
        }
        attributes := added.value;
      }
      ghost var closing :=
        if isLastLine || IsSectionHeader(lowercasedLine) then CloseSection(parserState, attributes, interfaceConfiguration, peerConfigurations)
        else Success((interfaceConfiguration, peerConfigurations));
      assert step == if closing.Failure? then Failure(closing.error)
                     else if lowercasedLine == "[interface]" then Success(ParseState(InInterfaceSection, map[], closing.value.0, closing.value.1))
                     else if lowercasedLine == "[peer]" then Success(ParseState(InPeerSection, map[], closing.value.0, closing.value.1))
                     else Success(ParseState(parserState, attributes, closing.value.0, closing.value.1));

      if isLastLine || lowercasedLine == "[interface]" || lowercasedLine == "[peer]" {
        if parserState == InInterfaceSection {
          var interface := CollateInterface(attributes);
          if interface.Failure? {
            return Failure(interface.error);
          }
          if interfaceConfiguration.Some? {
            return Failure(MultipleInterfaces);
          }
          interfaceConfiguration := Some(interface.value);
        } else if parserState == InPeerSection {
          var peer := CollatePeer(attributes);
          if peer.Failure? {
            return Failure(peer.error);
          }
          peerConfigurations := peerConfigurations + [peer.value];
        }
      }
      assert closing == Success((interfaceConfiguration, peerConfigurations));

      if lowercasedLine == "[interface]" {
        parserState := InInterfaceSection;
        attributes := map[];
      } else if lowercasedLine == "[peer]" {
        parserState := InPeerSection;
        attributes := map[];
      }
      assert step == Success(ParseState(parserState, attributes, interfaceConfiguration, peerConfigurations));
    }

    if !DistinctPublicKeys(peerConfigurations) {
      return Failure(MultiplePeersWithSamePublicKey);
    }
    if interfaceConfiguration.None? {
      return Failure(NoInterface);
    }
    return Success(TunnelConfiguration(name, interfaceConfiguration.value, peerConfigurations));
  }

  // ---------------------------------------------------------------- the serialiser

  function AddressTexts(rs: seq<AddressRange>): (r: seq<string>)
    ensures |r| == |rs| && forall k :: 0 <= k < |rs| ==> r[k] == AddressRangeText(rs[k])
  {
    seq(|rs|, k requires 0 <= k < |rs| => AddressRangeText(rs[k]))
  }

  function DNSTexts(ds: seq<DNSServer>): (r: seq<string>)
    ensures |r| == |ds| && forall k :: 0 <= k < |ds| ==> r[k] == DNSServerText(ds[k])
  {
    seq(|ds|, k requires 0 <= k < |ds| => DNSServerText(ds[k]))
  }

  function EndpointOr(e: Option<Endpoint>): Endpoint {
    if e.Some? then e.value else Endpoint([], 0)
  }

  /** A line that is written only when its field is present. */
  function OptionalLine(present: bool, line: string): seq<string> {
    if present then [line] else []
  }

  function ListenPortLine(i: InterfaceConfiguration): string {
    "ListenPort = " + NatToDecimal(i.listenPort.GetOr(0))
  }

  function AddressLine(i: InterfaceConfiguration): string {
    "Address = " + Join(AddressTexts(i.addresses), ", ")
  }

  function DNSLine(i: InterfaceConfiguration): string {
    "DNS = " + Join(DNSTexts(i.dns) + i.dnsSearch, ", ")
  }

  function MTULine(i: InterfaceConfiguration): string {
    "MTU = " + NatToDecimal(i.mtu.GetOr(0))
  }

  /** The lines written for the interface: the header and the private key
      always, every other field only when present or non-empty. */
  function InterfaceLines(i: InterfaceConfiguration): seq<string> {
    ["[Interface]", "PrivateKey = " + KeyToBase64(i.privateKey)]
    + OptionalLine(i.listenPort.Some?, ListenPortLine(i))
    + OptionalLine(i.addresses != [], AddressLine(i))
    + OptionalLine(i.dns != [] || i.dnsSearch != [], DNSLine(i))
    + OptionalLine(i.mtu.Some?, MTULine(i))
  }

  function PresharedKeyLine(p: PeerConfiguration): string {
    "PresharedKey = " + KeyToBase64(p.preSharedKey.GetOr(ZeroKey()))
  }

  function AllowedIPsLine(p: PeerConfiguration): string {
    "AllowedIPs = " + Join(AddressTexts(p.allowedIPs), ", ")
  }

  function EndpointLine(p: PeerConfiguration): string {
    "Endpoint = " + EndpointText(EndpointOr(p.endpoint))
  }

  function PersistentKeepaliveLine(p: PeerConfiguration): string {
    "PersistentKeepalive = " + NatToDecimal(p.persistentKeepAlive.GetOr(0))
  }

  /** The blank line, section header and public key that start a peer. */
  function PeerHeadLines(p: PeerConfiguration): seq<string> {
    ["", "[Peer]", "PublicKey = " + KeyToBase64(p.publicKey)]
  }

  /** The lines written for one peer, starting with a blank line. */
  function PeerLines(p: PeerConfiguration): seq<string> {
    PeerHeadLines(p)
    + OptionalLine(p.preSharedKey.Some?, PresharedKeyLine(p))
    + OptionalLine(p.allowedIPs != [], AllowedIPsLine(p))
    + OptionalLine(p.endpoint.Some?, EndpointLine(p))
    + OptionalLine(p.persistentKeepAlive.Some?, PersistentKeepaliveLine(p))
  }

  /** `f` applied to every element, the results joined in order. */
  function ConcatMap<T, U>(xs: seq<T>, f: T -> seq<U>): seq<U> {
    if xs == [] then [] else f(xs[0]) + ConcatMap(xs[1..], f)
  }

  lemma {:induction false} ConcatMapAppend<T, U>(xs: seq<T>, x: T, f: T -> seq<U>)
    ensures ConcatMap(xs + [x], f) == ConcatMap(xs, f) + f(x)
  {
    if xs != [] {
      assert (xs + [x])[0] == xs[0];
      assert (xs + [x])[1..] == xs[1..] + [x];
      ConcatMapAppend(xs[1..], x, f);
    } else {
      assert ConcatMap([x], f) == f(x) + ConcatMap([], f);
    }
  }

  function PeersLines(peers: seq<PeerConfiguration>): seq<string> {
    ConcatMap(peers, PeerLines)
  }

  /** Every line followed by a newline. */
  function Unlines(lines: seq<string>): string {
    if lines == [] then [] else lines[0] + "\n" + Unlines(lines[1..])
  }

  lemma {:induction false} UnlinesAppend(a: seq<string>, b: seq<string>)
    ensures Unlines(a + b) == Unlines(a) + Unlines(b)
  {
    if a != [] {
      assert (a + b)[1..] == a[1..] + b;
      assert Unlines(a + b) == a[0] + "\n" + Unlines(a[1..] + b);
      UnlinesAppend(a[1..], b);
    } else {
      assert a + b == b;
    }
  }

  /** The text `asWireGuardConfig()` produces. */
  function WgQuickText(c: TunnelConfiguration): string {
    Unlines(InterfaceLines(c.interface) + PeersLines(c.peers))
  }

  /** Appending an optional line to the text appends it to the lines. */
  lemma UnlinesOptional(lines: seq<string>, present: bool, line: string)
    ensures Unlines(lines + OptionalLine(present, line))
         == Unlines(lines) + (if present then line + "\n" else [])
  {
    UnlinesAppend(lines, OptionalLine(present, line));
    if present {
      assert Unlines([line]) == line + "\n" + Unlines([]);
    }
  }

  lemma UnlinesLeading(a: string, b: string, rest: seq<string>)
    ensures Unlines([a, b] + rest) == a + "\n" + b + "\n" + Unlines(rest)
  {
    assert ([a, b] + rest)[1..] == [b] + rest;
    assert ([b] + rest)[1..] == rest;
  }

  /** Writes `line` and its newline only when `present`. */
  method AppendOptional(output: string, ghost lines: seq<string>, present: bool, line: string)
    returns (r: string)
    requires output == Unlines(lines)
    ensures r == Unlines(lines + OptionalLine(present, line))
  {
    UnlinesOptional(lines, present, line);
    r := output;
    if present {
      r := r + line + "\n";
    }
  }

  lemma UnlinesThree(a: string, b: string, c: string)
    ensures Unlines([a, b, c]) == a + "\n" + b + "\n" + c + "\n"
  {
    UnlinesLeading(a, b, [c]);
    assert [a, b] + [c] == [a, b, c];
    assert Unlines([c]) == c + "\n" + Unlines([]);
  }

  /** The interface half of `asWireGuardConfig()`. */
  method AppendInterface(interface: InterfaceConfiguration) returns (output: string)
    ensures output == Unlines(InterfaceLines(interface))
  {
    output := "[Interface]\n";
    output := output + "PrivateKey = " + KeyToBase64(interface.privateKey) + "\n";
    ghost var lines := ["[Interface]", "PrivateKey = " + KeyToBase64(interface.privateKey)];
    UnlinesLeading(lines[0], lines[1], []);
    assert lines + [] == lines;

    var line := ListenPortLine(interface);
    output := AppendOptional(output, lines, interface.listenPort.Some?, line);
    lines := lines + OptionalLine(interface.listenPort.Some?, line);

    line := AddressLine(interface);
    output := AppendOptional(output, lines, interface.addresses != [], line);
    lines := lines + OptionalLine(interface.addresses != [], line);

    line := DNSLine(interface);
    output := AppendOptional(output, lines, interface.dns != [] || interface.dnsSearch != [], line);
    lines := lines + OptionalLine(interface.dns != [] || interface.dnsSearch != [], line);

    line := MTULine(interface);
    output := AppendOptional(output, lines, interface.mtu.Some?, line);
    lines := lines + OptionalLine(interface.mtu.Some?, line);
    assert lines == InterfaceLines(interface);
  }

  /** One peer block of `asWireGuardConfig()`. */
  method AppendPeer(peer: PeerConfiguration) returns (block: string)
    ensures block == Unlines(PeerLines(peer))
  {
    block := "\n[Peer]\n";
    block := block + "PublicKey = " + KeyToBase64(peer.publicKey) + "\n";
    ghost var head := PeerHeadLines(peer);
    UnlinesThree(head[0], head[1], head[2]);
    block := AppendPeerOptions(block, peer);
  }

  /** The optional lines of a peer block, after its first three. */
  method AppendPeerOptions(head: string, peer: PeerConfiguration) returns (block: string)
    requires head == Unlines(PeerHeadLines(peer))
    ensures block == Unlines(PeerLines(peer))
  {
    ghost var lines := PeerHeadLines(peer);
    var line := PresharedKeyLine(peer);
    block := AppendOptional(head, lines, peer.preSharedKey.Some?, line);
    lines := lines + OptionalLine(peer.preSharedKey.Some?, line);

    line := AllowedIPsLine(peer);
    block := AppendOptional(block, lines, peer.allowedIPs != [], line);
    lines := lines + OptionalLine(peer.allowedIPs != [], line);

    line := EndpointLine(peer);
    block := AppendOptional(block, lines, peer.endpoint.Some?, line);
    lines := lines + OptionalLine(peer.endpoint.Some?, line);

    line := PersistentKeepaliveLine(peer);
    block := AppendOptional(block, lines, peer.persistentKeepAlive.Some?, line);
    lines := lines + OptionalLine(peer.persistentKeepAlive.Some?, line);
  }

  /** The text of the first `i + 1` peers extends that of the first `i`. */
  lemma PeersTextStep(head: seq<string>, peers: seq<PeerConfiguration>, i: nat)
    requires i < |peers|
    ensures Unlines(head + PeersLines(peers[..i + 1]))
         == Unlines(head + PeersLines(peers[..i])) + Unlines(PeerLines(peers[i]))
  {
    assert peers[..i + 1] == peers[..i] + [peers[i]];
    ConcatMapAppend(peers[..i], peers[i], PeerLines);
    assert head + PeersLines(peers[..i + 1]) == (head + PeersLines(peers[..i])) + PeerLines(peers[i]);
    UnlinesAppend(head + PeersLines(peers[..i]), PeerLines(peers[i]));
  }

  /** `asWireGuardConfig()`: the interface section, then one block per peer
      in order. */
  method AsWireGuardConfig(c: TunnelConfiguration) returns (output: string)
    ensures output == WgQuickText(c)
  {
    output := AppendInterface(c.interface);
    ghost var head := InterfaceLines(c.interface);
    assert head + PeersLines(c.peers[..0]) == head by {
      assert c.peers[..0] == [];
    }
    for i := 0 to |c.peers|
      invariant output == Unlines(head + PeersLines(c.peers[..i]))
    {
      var block := AppendPeer(c.peers[i]);
      PeersTextStep(head, c.peers, i);
      output := output + block;
    }
    assert c.peers[..|c.peers|] == c.peers;
  }
}
