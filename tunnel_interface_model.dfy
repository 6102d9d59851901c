/** `TunnelInterfaceModel` (SOLARdVPNCommunityCoreiOS/Tunnel/Model/TunnelInterfaceModel.swift):
    the editable scratch pad behind a tunnel's `[Interface]` section. Its
    fields are a dictionary of strings; the validated name and configuration
    are a cache that every edit clears and a successful `save()` fills. */
module TunnelInterfaceModels {
  import opened Wrappers
  import opened Text
  import opened ArrayConversion
  import opened WireGuardKit
  import opened WireGuardConfig
  import opened TunnelErrors

  /** `TunnelModel.keyLengthInBase64`. */
  const KeyLengthInBase64: nat := 44

  /** The smallest MTU `save()` accepts. */
  const MinimumMTU: nat := 576

  /** `TunnelInterfaceField`. */
  datatype InterfaceField =
    | NameField | PrivateKeyField | PublicKeyField | GenerateKeyPairField | AddressesField
    | ListenPortField | MTUField | DNSField | StatusField | ToggleStatusField

  type InterfaceData = map<InterfaceField, string>

  /** `data[field] ?? ""`. */
  function Lookup(data: InterfaceData, field: InterfaceField): string {
    if field in data then data[field] else ""
  }

  /** `data[field]` as an optional. */
  function Field(data: InterfaceData, field: InterfaceField): Option<string> {
    if field in data then Some(data[field]) else None
  }

  // ---------------------------------------------------------------- fillData

  /** The fields `fillData()` writes for a validated name and configuration:
      name and both keys always, every other field only when the
      configuration has it; list fields are joined with ", ", numbers are
      written in decimal, DNS servers come before search domains. */
  function FilledFields(name: string, c: InterfaceConfiguration, publicKeyOf: Key -> Key): (data: InterfaceData)
    ensures Lookup(data, NameField) == name && Lookup(data, PrivateKeyField) == KeyToBase64(c.privateKey)
    ensures Lookup(data, PublicKeyField) == KeyToBase64(publicKeyOf(c.privateKey))
    ensures AddressesField in data <==> c.addresses != []
    ensures ListenPortField in data <==> c.listenPort.Some?
    ensures MTUField in data <==> c.mtu.Some?
    ensures DNSField in data <==> c.dns != [] || c.dnsSearch != []
    ensures data.Keys <= {NameField, PrivateKeyField, PublicKeyField, AddressesField, ListenPortField, MTUField, DNSField}
  {
    var d0 := map[NameField := name, PrivateKeyField := KeyToBase64(c.privateKey),
                  PublicKeyField := KeyToBase64(publicKeyOf(c.privateKey))];
    var d1 := if c.addresses != [] then d0[AddressesField := Join(AddressTexts(c.addresses), ", ")] else d0;
    var d2 := if c.listenPort.Some? then d1[ListenPortField := NatToDecimal(c.listenPort.value)] else d1;
    var d3 := if c.mtu.Some? then d2[MTUField := NatToDecimal(c.mtu.value)] else d2;
    if c.dns != [] || c.dnsSearch != [] then d3[DNSField := Join(DNSTexts(c.dns) + c.dnsSearch, ", ")] else d3
  }

  // ---------------------------------------------------------------- the subscript setter

  /** The dictionary after `self[field] = value`: "" removes the field, any
      other text stores it; a private key of 44 characters that decodes
      brings its public key along, any other private key removes it. */
  function WithField(data: InterfaceData, field: InterfaceField, value: string, publicKeyOf: Key -> Key): InterfaceData {
    var d := if value == "" then data - {field} else data[field := value];
    if field != PrivateKeyField then d
    else if |value| == KeyLengthInBase64 && KeyFromBase64(value).Some?
    then d[PublicKeyField := KeyToBase64(publicKeyOf(KeyFromBase64(value).value))]
    else d - {PublicKeyField}
  }

  /** Reading a field back after setting it gives the value ("" for a
      cleared field); fields other than the public key are left alone, and
      the public key follows the private key when that one is set. */
  lemma SetThenGet(data: InterfaceData, field: InterfaceField, value: string, publicKeyOf: Key -> Key)
    ensures Lookup(WithField(data, field, value, publicKeyOf), field) == value
    ensures forall g :: g != field && g != PublicKeyField ==>
      Field(WithField(data, field, value, publicKeyOf), g) == Field(data, g)
    ensures field != PrivateKeyField && field != PublicKeyField ==>
      Field(WithField(data, field, value, publicKeyOf), PublicKeyField) == Field(data, PublicKeyField)
    ensures field == PrivateKeyField ==>
      Field(WithField(data, field, value, publicKeyOf), PublicKeyField)
      == (match KeyFromBase64(value)
          case Some(k) => if |value| == KeyLengthInBase64 then Some(KeyToBase64(publicKeyOf(k))) else None
          case None => None)
  {
  }

  // ---------------------------------------------------------------- save

  /** `UInt16(text)` for the MTU, at least 576. */
  function ParseMTU(s: string): Option<UInt16> {
    match ParseUnsigned(s, UInt16Max)
    case Some(m) => if m >= MinimumMTU then Some(m as UInt16) else None
    case None => None
  }

  /** `save()` on the scratch pad itself (no cached result): a trimmed
      non-empty name and a decodable private key are required, in that
      order; then every present field must parse (addresses, listen port,
      MTU), and the DNS entries split into servers and search domains. */
  function SaveFields(data: InterfaceData): (r: Result<(string, InterfaceConfiguration), TunnelSavingError>)
    ensures (NameField !in data || Trim(data[NameField]) == "") ==> r == Failure(NameRequired)
    ensures NameField in data && Trim(data[NameField]) != "" && PrivateKeyField !in data ==> r == Failure(PrivateKeyRequired)
    ensures r.Success? ==> NameField in data && r.value.0 == Trim(data[NameField]) && r.value.0 != ""
    ensures r.Success? ==> PrivateKeyField in data && KeyFromBase64(data[PrivateKeyField]) == Some(r.value.1.privateKey)
    ensures r.Success? ==> (ListenPortField in data <==> r.value.1.listenPort.Some?)
    ensures r.Success? ==> (MTUField in data <==> r.value.1.mtu.Some?)
    ensures r.Success? && r.value.1.mtu.Some? ==> r.value.1.mtu.value >= MinimumMTU
  {
    if NameField !in data || Trim(data[NameField]) == "" then Failure(NameRequired)
    else if PrivateKeyField !in data then Failure(PrivateKeyRequired)
    else match KeyFromBase64(data[PrivateKeyField])
      case None => Failure(PrivateKeyInvalid)
      case Some(privateKey) =>
        var addresses :- SavedAddresses(data);
        var listenPort :- SavedListenPort(data);
        var mtu :- SavedMTU(data);
        var dns := SavedDNS(data);
        Success((Trim(data[NameField]), InterfaceConfiguration(privateKey, addresses, listenPort, mtu, dns.0, dns.1)))
  }

  /** The addresses field: every comma-separated entry must be a range. */
  function SavedAddresses(data: InterfaceData): Result<seq<AddressRange>, TunnelSavingError> {
    if AddressesField !in data then Success([])
    else match ParseRanges(SplitToArray(data[AddressesField], DefaultSeparator, true))
      case Failure(_) => Failure(AddressInvalid)
      case Success(rs) => Success(rs)
  }

  /** The listen port field: a `UInt16`. */
  function SavedListenPort(data: InterfaceData): Result<Option<UInt16>, TunnelSavingError> {
    if ListenPortField !in data then Success(None)
    else match ParseUnsigned(data[ListenPortField], UInt16Max)
      case None => Failure(ListenPortInvalid)
      case Some(p) => Success(Some(p as UInt16))
  }

  /** The MTU field: a `UInt16` of at least 576. */
  function SavedMTU(data: InterfaceData): Result<Option<UInt16>, TunnelSavingError> {
    if MTUField !in data then Success(None)
    else match ParseMTU(data[MTUField])
      case None => Failure(MTUInvalid)
      case Some(m) => Success(Some(m))
  }

  /** The DNS field: servers, and search domains for the other entries. */
  function SavedDNS(data: InterfaceData): (seq<DNSServer>, seq<string>) {
    if DNSField !in data then ([], []) else SplitDNS(SplitToArray(data[DNSField], DefaultSeparator, true))
  }

  /** A configuration the scratch pad can show and save again: an MTU, when
      present, that `save()` accepts, and search domains that are list items
      and do not read as DNS servers. */
  predicate Saveable(c: InterfaceConfiguration) {
    (c.mtu.Some? ==> c.mtu.value >= MinimumMTU)
    && forall k :: 0 <= k < |c.dnsSearch| ==> IsListItem(c.dnsSearch[k], ',') && ParseDNSServer(c.dnsSearch[k]).None?
  }

  lemma RangeTextIsItem(r: AddressRange)
    ensures IsListItem(AddressRangeText(r), ',')
  {
    var s := AddressRangeText(r);
    AddressRangeTextChars(r);
    AllInNoneIn(s, AddressRangeChars, {','});
    assert s[0] in AddressRangeChars && s[|s| - 1] in AddressRangeChars;
  }

  lemma DNSTextIsItem(d: DNSServer)
    ensures IsListItem(DNSServerText(d), ',')
  {
    var s := DNSServerText(d);
    IPv4TextChars(d.address);
    AllInNoneIn(s, IPv4Chars, {','});
    assert s == NatToDecimal(d.address[0]) + "." + Join([NatToDecimal(d.address[1]), NatToDecimal(d.address[2]), NatToDecimal(d.address[3])], ".");
    assert s[0] in IPv4Chars && s[|s| - 1] in IPv4Chars;
  }

  /** The addresses as written read back as the same ranges. */
  lemma AddressesRoundTrip(rs: seq<AddressRange>)
    ensures ParseRanges(SplitToArray(Join(AddressTexts(rs), ", "), DefaultSeparator, true)) == Success(rs)
  {
    var texts := AddressTexts(rs);
    forall k | 0 <= k < |texts| ensures IsListItem(texts[k], ',') && ParseAddressRange(texts[k]) == Some(rs[k]) {
      RangeTextIsItem(rs[k]);
      AddressRangeRoundTrip(rs[k]);
    }
    CommaListRoundTrip(texts);
    ParseRangesAllParse(texts, rs);
  }

  /** One more entry at the end of the list goes to the servers when it
      reads as one, and to the search domains otherwise. */
  lemma SplitDNSAppend(items: seq<string>, x: string)
    ensures SplitDNS(items + [x]) == match ParseDNSServer(x)
      case Some(d) => (SplitDNS(items).0 + [d], SplitDNS(items).1)
      case None => (SplitDNS(items).0, SplitDNS(items).1 + [x])
  {
    assert (items + [x])[..|items|] == items;
  }

  /** A server's own text at the end of the list adds that server. */
  lemma SplitDNSAppendServer(items: seq<string>, d: DNSServer)
    ensures SplitDNS(items + [DNSServerText(d)]) == (SplitDNS(items).0 + [d], SplitDNS(items).1)
  {
    DNSServerRoundTrip(d);
    SplitDNSAppend(items, DNSServerText(d));
  }

  /** An entry that is no server at the end of the list adds a search domain. */
  lemma SplitDNSAppendSearch(items: seq<string>, x: string)
    requires ParseDNSServer(x).None?
    ensures SplitDNS(items + [x]) == (SplitDNS(items).0, SplitDNS(items).1 + [x])
  {
    SplitDNSAppend(items, x);
  }

  lemma DNSTextsAppend(dns: seq<DNSServer>)
    requires dns != []
    ensures DNSTexts(dns) == DNSTexts(dns[..|dns| - 1]) + [DNSServerText(dns[|dns| - 1])]
  {
  }

  /** Entries that do not read as servers all go to the search domains. */
  lemma {:induction false} SplitDNSOfSearch(items: seq<string>, search: seq<string>)
    requires forall k :: 0 <= k < |search| ==> ParseDNSServer(search[k]).None?
    ensures SplitDNS(items + search) == (SplitDNS(items).0, SplitDNS(items).1 + search)
    decreases |search|
  {
    if search != [] {
      var front := search[..|search| - 1];
      var x := search[|search| - 1];
      var before := SplitDNS(items);
      SplitDNSOfSearch(items, front);
      assert items + search == (items + front) + [x];
      SplitDNSAppendSearch(items + front, x);
      assert (before.1 + front) + [x] == before.1 + search;
    } else {
      assert items + search == items && SplitDNS(items).1 + search == SplitDNS(items).1;
    }
  }

  /** Server texts read back as the same servers. */
  lemma {:induction false} SplitDNSOfServers(dns: seq<DNSServer>)
    ensures SplitDNS(DNSTexts(dns)) == (dns, [])
    decreases |dns|
  {
    if dns != [] {
      var front := dns[..|dns| - 1];
      var d := dns[|dns| - 1];
      var texts := DNSTexts(front);
      SplitDNSOfServers(front);
      DNSTextsAppend(dns);
      SplitDNSAppendServer(texts, d);
      assert front + [d] == dns;
    }
  }

  /** Server texts followed by search domains split back into the same two
      lists. */
  lemma SplitDNSOfTexts(dns: seq<DNSServer>, search: seq<string>)
    requires forall k :: 0 <= k < |search| ==> ParseDNSServer(search[k]).None?
    ensures SplitDNS(DNSTexts(dns) + search) == (dns, search)
  {
    var texts := DNSTexts(dns);
    SplitDNSOfServers(dns);
    SplitDNSOfSearch(texts, search);
    assert [] + search == search;
  }

  /** The DNS field as written reads back as the same servers and search
      domains. */
  lemma DNSRoundTrip(c: InterfaceConfiguration)
    requires Saveable(c)
    ensures SplitDNS(SplitToArray(Join(DNSTexts(c.dns) + c.dnsSearch, ", "), DefaultSeparator, true)) == (c.dns, c.dnsSearch)
  {
    var items := DNSTexts(c.dns) + c.dnsSearch;
    forall k | 0 <= k < |items| ensures IsListItem(items[k], ',') {
      if k < |c.dns| {
        DNSTextIsItem(c.dns[k]);
      }
    }
    CommaListRoundTrip(items);
    SplitDNSOfTexts(c.dns, c.dnsSearch);
  }

  /** What `fillData()` shows, `save()` turns back into the same name and
      configuration: the scratch pad loses nothing of a configuration it
      was opened on. */
  lemma FillThenSave(name: string, c: InterfaceConfiguration, publicKeyOf: Key -> Key)
    requires name != [] && IsTrimmed(name) && Saveable(c)
    ensures SaveFields(FilledFields(name, c, publicKeyOf)) == Success((name, c))
  {
    TrimOfTrimmed(name);
    KeyBase64RoundTrip(c.privateKey);
    FilledAddresses(name, c, publicKeyOf);
    FilledListenPort(name, c, publicKeyOf);
    FilledMTU(name, c, publicKeyOf);
    FilledDNS(name, c, publicKeyOf);
  }

  lemma FilledAddresses(name: string, c: InterfaceConfiguration, publicKeyOf: Key -> Key)
    ensures SavedAddresses(FilledFields(name, c, publicKeyOf)) == Success(c.addresses)
  {
    if c.addresses != [] {
      assert FilledFields(name, c, publicKeyOf)[AddressesField] == Join(AddressTexts(c.addresses), ", ");
      AddressesRoundTrip(c.addresses);
    }
  }

  lemma FilledListenPort(name: string, c: InterfaceConfiguration, publicKeyOf: Key -> Key)
    ensures SavedListenPort(FilledFields(name, c, publicKeyOf)) == Success(c.listenPort)
  {
    if c.listenPort.Some? {
      assert FilledFields(name, c, publicKeyOf)[ListenPortField] == NatToDecimal(c.listenPort.value);
      ParseUnsignedDecimal(c.listenPort.value, UInt16Max);
    }
  }

  lemma FilledMTU(name: string, c: InterfaceConfiguration, publicKeyOf: Key -> Key)
    requires Saveable(c)
    ensures SavedMTU(FilledFields(name, c, publicKeyOf)) == Success(c.mtu)
  {
    if c.mtu.Some? {
      assert FilledFields(name, c, publicKeyOf)[MTUField] == NatToDecimal(c.mtu.value);
      ParseUnsignedDecimal(c.mtu.value, UInt16Max);
    }
  }

  lemma FilledDNS(name: string, c: InterfaceConfiguration, publicKeyOf: Key -> Key)
    requires Saveable(c)
    ensures SavedDNS(FilledFields(name, c, publicKeyOf)) == (c.dns, c.dnsSearch)
  {
    if c.dns != [] || c.dnsSearch != [] {
      assert FilledFields(name, c, publicKeyOf)[DNSField] == Join(DNSTexts(c.dns) + c.dnsSearch, ", ");
      DNSRoundTrip(c);
    }
  }

  // ---------------------------------------------------------------- the class

  class InterfaceModel {
    var data: InterfaceData
    var validatedConfiguration: Option<InterfaceConfiguration>
    var validatedName: Option<string>
    /** Curve25519 public-key derivation (`PrivateKey.publicKey`), which
        lives in WireGuardKit. */
    const publicKeyOf: Key -> Key

    /** `init(configuration:name:)`: an empty scratch pad over a cache. */
    constructor (configuration: Option<InterfaceConfiguration>, name: Option<string>, publicKeyOf: Key -> Key)
      ensures data == map[] && validatedConfiguration == configuration && validatedName == name
      ensures this.publicKeyOf == publicKeyOf
    {
      data := map[];
      validatedConfiguration := configuration;
      validatedName := name;
      this.publicKeyOf := publicKeyOf;
    }

    /** The validated name and configuration, when both are cached. */
    function Cached(): Option<(string, InterfaceConfiguration)>
      reads this`validatedConfiguration, this`validatedName
    {
      if validatedConfiguration.Some? && validatedName.Some?
      then Some((validatedName.value, validatedConfiguration.value)) else None
    }

    /** The fields as the subscript sees them: an empty dictionary is first
        filled from the cache. */
    function Shown(): InterfaceData
      reads this`data, this`validatedConfiguration, this`validatedName
    {
      if data == map[] && Cached().Some? then FilledFields(Cached().value.0, Cached().value.1, publicKeyOf) else data
    }

    /** What `save()` gives: the cache when there is one, else the
        validated fields. */
    function SaveOutcome(): (r: Result<(string, InterfaceConfiguration), TunnelSavingError>)
      reads this`data, this`validatedConfiguration, this`validatedName
      ensures Cached().Some? ==> r == Success(Cached().value)
      ensures Cached().None? ==> r == SaveFields(data)
    {
      if Cached().Some? then Success(Cached().value) else SaveFields(data)
    }

    /** `fillData()`: without a cache nothing happens. */
    method FillData()
      modifies this`data
      ensures data == (if Cached().Some? then FilledFields(Cached().value.0, Cached().value.1, publicKeyOf) else old(data))
    {
      if validatedConfiguration.Some? && validatedName.Some? {
        data := FilledFields(validatedName.value, validatedConfiguration.value, publicKeyOf);
      }
    }

    /** The subscript getter. */
    method Get(field: InterfaceField) returns (value: string)
      modifies this`data
      ensures data == old(Shown()) && value == Lookup(data, field)
    {
      if data == map[] {
        FillData();
      }
      value := if field in data then data[field] else "";
    }

    /** The subscript setter: the cache is dropped whatever the field. */
    method Set(field: InterfaceField, value: string)
      modifies this`data, this`validatedConfiguration, this`validatedName
      ensures data == WithField(old(Shown()), field, value, publicKeyOf)
      ensures validatedConfiguration.None? && validatedName.None?
    {
      ghost var shown := Shown();
      if data == map[] {
        FillData();
      }
      assert data == shown;
      validatedConfiguration := None;
      validatedName := None;
      if value == "" {
        data := data - {field};
      } else {
        data := data[field := value];
      }
      if field == PrivateKeyField {
        var privateKey := KeyFromBase64(value);
        if |value| == KeyLengthInBase64 && privateKey.Some? {
          data := data[PublicKeyField := KeyToBase64(publicKeyOf(privateKey.value))];
        } else {
          data := data - {PublicKeyField};
        }
      }
    }

    /** `save()`: a cached result is returned as it is; otherwise the
        dictionary (not filled first) is validated, and a success is cached.
        A second `save()` with no edit in between gives the same result. */
    method Save() returns (r: Result<(string, InterfaceConfiguration), TunnelSavingError>)
      modifies this`validatedConfiguration, this`validatedName
      ensures r == old(SaveOutcome())
      ensures old(Cached()).Some? ==> Cached() == old(Cached())
      ensures r.Success? ==> Cached() == Some(r.value)
      ensures r.Failure? ==> validatedConfiguration == old(validatedConfiguration) && validatedName == old(validatedName)
    {
      if validatedConfiguration.Some? && validatedName.Some? {
        return Success((validatedName.value, validatedConfiguration.value));
      }
      if NameField !in data || Trim(data[NameField]) == "" {
        return Failure(NameRequired);
      }
      var name := Trim(data[NameField]);
      if PrivateKeyField !in data {
        return Failure(PrivateKeyRequired);
      }
      var privateKey := KeyFromBase64(data[PrivateKeyField]);
      if privateKey.None? {
        return Failure(PrivateKeyInvalid);
      }
      var addresses := SavedAddresses(data);
      if addresses.Failure? {
        return Failure(addresses.error);
      }
      var listenPort := SavedListenPort(data);
      if listenPort.Failure? {
        return Failure(listenPort.error);
      }
      var mtu := SavedMTU(data);
      if mtu.Failure? {
        return Failure(mtu.error);
      }
      var dnsServers, dnsSearch := [], [];
      if DNSField in data {
        dnsServers, dnsSearch := CollateDNS(SplitToArray(data[DNSField], DefaultSeparator, true));
      }
      var config := InterfaceConfiguration(privateKey.value, addresses.value, listenPort.value, mtu.value, dnsServers, dnsSearch);
      validatedConfiguration := Some(config);
      validatedName := Some(name);
      r := Success((name, config));
    }
  }
}
