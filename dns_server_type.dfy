/** `DNSServerType` (SOLARdVPNCommunityCoreiOS/Services/DNSServers/DNSServerType.swift):
    the three DNS providers a user can pick, their server addresses as the
    interface's DNS field text, and the default. */
module DNSServerTypes {
  import opened Wrappers
  import opened Text
  import opened ArrayConversion
  import opened WireGuardKit
  import opened WireGuardConfig
  import I = TunnelInterfaceModels

  datatype DNSServerType = Handshake | Google | Cloudflare

  /** `allCases`, in declaration order. */
  const AllCases: seq<DNSServerType> := [Handshake, Google, Cloudflare]

  /** `default`. */
  const Default: DNSServerType := Handshake

  /** The `String` raw value: the case name. */
  function RawValue(t: DNSServerType): (r: string)
  {
    match t
    case Handshake => "handshake"
    case Google => "google"
    case Cloudflare => "cloudflare"
  }

  /** `init(rawValue:)`: only a case name is recognised. */
  function FromRawValue(s: string): (r: Option<DNSServerType>)
    ensures r.Some? ==> RawValue(r.value) == s
  {
    if s == "handshake" then Some(Handshake)
    else if s == "google" then Some(Google)
    else if s == "cloudflare" then Some(Cloudflare)
    else None
  }

  /** `address`: the two servers of the provider, written ", "-separated. */
  function Address(t: DNSServerType): string
  {
    match t
    case Cloudflare => "1.1.1.1, 1.0.0.1"
    case Google => "8.8.8.8, 8.8.4.4"
    case Handshake => "103.196.38.38, 103.196.38.39"
  }

  /** The two server addresses of each provider. */
  function Servers(t: DNSServerType): (IPv4, IPv4)
  {
    match t
    case Cloudflare => ([1, 1, 1, 1], [1, 0, 0, 1])
    case Google => ([8, 8, 8, 8], [8, 8, 4, 4])
    case Handshake => ([103, 196, 38, 38], [103, 196, 38, 39])
  }

  /** The raw value reads back as the same case, every case is listed once,
      and a text that is no case name is not recognised. */
  lemma RawValueRoundTrip(t: DNSServerType)
    ensures FromRawValue(RawValue(t)) == Some(t)
    ensures t in AllCases && |AllCases| == 3
    ensures forall i, j :: 0 <= i < j < |AllCases| ==> AllCases[i] != AllCases[j]
  {
  }

  /** A dotted quad spelled out. */
  lemma DottedQuadText(a: IPv4)
    ensures IPv4Text(a) == NatToDecimal(a[0]) + "." + NatToDecimal(a[1]) + "." + NatToDecimal(a[2]) + "." + NatToDecimal(a[3])
  {
    var xs := [NatToDecimal(a[0]), NatToDecimal(a[1]), NatToDecimal(a[2]), NatToDecimal(a[3])];
    assert xs[1..][1..][1..] == [xs[3]];
    assert Join(xs[1..][1..], ".") == xs[2] + "." + xs[3];
    assert Join(xs[1..], ".") == xs[1] + "." + (xs[2] + "." + xs[3]);
  }

  /** Two items joined by ", ". */
  lemma JoinTwo(x: string, y: string)
    ensures Join([x, y], ", ") == x + ", " + y
  {
    assert [x, y][1..] == [y];
  }

  /** The address text is the two servers' dotted quads joined by ", ". */
  lemma AddressIsServerList(t: DNSServerType)
    ensures Address(t) == Join([IPv4Text(Servers(t).0), IPv4Text(Servers(t).1)], ", ")
  {
    JoinTwo(IPv4Text(Servers(t).0), IPv4Text(Servers(t).1));
    match t
    case Cloudflare => CloudflareTexts();
    case Google => GoogleTexts();
    case Handshake => HandshakeTexts();
  }

  lemma CloudflareTexts()
    ensures IPv4Text(Servers(Cloudflare).0) == "1.1.1.1" && IPv4Text(Servers(Cloudflare).1) == "1.0.0.1"
  {
    DottedQuadText(Servers(Cloudflare).0);
    DottedQuadText(Servers(Cloudflare).1);
  }

  lemma GoogleTexts()
    ensures IPv4Text(Servers(Google).0) == "8.8.8.8" && IPv4Text(Servers(Google).1) == "8.8.4.4"
  {
    DottedQuadText(Servers(Google).0);
    DottedQuadText(Servers(Google).1);
  }

  lemma HandshakeTexts()
    ensures IPv4Text(Servers(Handshake).0) == "103.196.38.38" && IPv4Text(Servers(Handshake).1) == "103.196.38.39"
  {
    HandshakeOctets();
    DottedQuadText(Servers(Handshake).0);
    DottedQuadText(Servers(Handshake).1);
  }

  lemma HandshakeOctets()
    ensures NatToDecimal(38) == "38" && NatToDecimal(39) == "39"
    ensures NatToDecimal(103) == "103" && NatToDecimal(196) == "196"
  {
    assert NatToDecimal(10) == "10" && NatToDecimal(19) == "19";
  }

  /** Two servers written as a ", "-separated list split back into their
      dotted quads. */
  lemma ServerListSplit(p: IPv4, q: IPv4)
    ensures SplitToArray(Join([IPv4Text(p), IPv4Text(q)], ", "), DefaultSeparator, true) == [IPv4Text(p), IPv4Text(q)]
  {
    I.DNSTextIsItem(DNSServer(p));
    I.DNSTextIsItem(DNSServer(q));
    CommaListRoundTrip([IPv4Text(p), IPv4Text(q)]);
  }

  /** Two dotted quads both read as DNS servers. */
  lemma ServerListServers(p: IPv4, q: IPv4)
    ensures SplitDNS([IPv4Text(p), IPv4Text(q)]) == ([DNSServer(p), DNSServer(q)], [])
  {
    DNSServerRoundTrip(DNSServer(p));
    DNSServerRoundTrip(DNSServer(q));
    BothServers(IPv4Text(p), IPv4Text(q));
  }

  lemma BothServers(x: string, y: string)
    requires ParseDNSServer(x).Some? && ParseDNSServer(y).Some?
    ensures SplitDNS([x, y]) == ([ParseDNSServer(x).value, ParseDNSServer(y).value], [])
  {
    assert [x, y][..1] == [x] && [x][..0] == [];
    var none: seq<string> := [];
    assert SplitDNS(none) == ([], []);
    var one := SplitDNS([x]);
    assert one.0 == [ParseDNSServer(x).value] && one.1 == [];
    assert SplitDNS([x, y]) == (one.0 + [ParseDNSServer(y).value], one.1);
    assert one.0 + [ParseDNSServer(y).value] == [ParseDNSServer(x).value, ParseDNSServer(y).value];
    assert SplitDNS([x, y]).1 == [];
    assert SplitDNS([x, y]).0 == [ParseDNSServer(x).value, ParseDNSServer(y).value];
  }

  /** Every address splits on ',' into exactly two entries, and both read as
      DNS servers, so a tunnel saved with it carries the two servers and no
      search domain. */
  lemma AddressSplitsIntoTwoServers(t: DNSServerType)
    ensures SplitToArray(Address(t), DefaultSeparator, true) == [IPv4Text(Servers(t).0), IPv4Text(Servers(t).1)]
    ensures SplitDNS(SplitToArray(Address(t), DefaultSeparator, true))
      == ([DNSServer(Servers(t).0), DNSServer(Servers(t).1)], [])
  {
    AddressIsServerList(t);
    ServerListSplit(Servers(t).0, Servers(t).1);
    ServerListServers(Servers(t).0, Servers(t).1);
  }
}
