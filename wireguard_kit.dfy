/** The WireGuardKit value types the configuration code is written against:
    32-byte keys with their base64 and hex spellings, IPv4 addresses and
    ranges, DNS servers, endpoints, and the interface, peer and tunnel
    configurations built from them. WireGuardKit itself is not part of this
    model; these are concrete recognisers written to its documented formats
    (IPv4 only). */
module WireGuardKit {
  import opened Wrappers
  import opened Text

  type Byte = b: int | 0 <= b < 256
  type UInt16 = n: nat | n <= 65535

  /** `PrivateKey`, `PublicKey` and `PreSharedKey` all wrap 32 raw bytes. */
  type Key = s: seq<Byte> | |s| == 32 witness seq(32, _ => 0)

  // ---------------------------------------------------------------- base64 (RFC 4648 section 4)

  function Base64Char(i: nat): (c: char)
    requires i < 64
  {
    if i < 26 then ('A' as int + i) as char
    else if i < 52 then ('a' as int + (i - 26)) as char
    else if i < 62 then ('0' as int + (i - 52)) as char
    else if i == 62 then '+'
    else '/'
  }

  function Base64Index(c: char): (r: Option<nat>)
    ensures r.Some? ==> r.value < 64
  {
    if 'A' <= c <= 'Z' then Some(c as int - 'A' as int)
    else if 'a' <= c <= 'z' then Some(c as int - 'a' as int + 26)
    else if '0' <= c <= '9' then Some(c as int - '0' as int + 52)
    else if c == '+' then Some(62)
    else if c == '/' then Some(63)
    else None
  }

  lemma Base64CharIndex(i: nat)
    requires i < 64
    ensures Base64Index(Base64Char(i)) == Some(i)
  {
  }

  /** Three bytes as four base64 characters. */
  function EncodeTriple(b0: Byte, b1: Byte, b2: Byte): (r: string)
    ensures |r| == 4
  {
    var n := b0 * 65536 + b1 * 256 + b2;
    [Base64Char(n / 262144), Base64Char(n / 4096 % 64), Base64Char(n / 64 % 64), Base64Char(n % 64)]
  }

  /** Four base64 characters as three bytes, when all four are in the
      alphabet. */
  function DecodeQuad(s: string): (r: Option<seq<Byte>>)
    requires |s| == 4
    ensures r.Some? ==> |r.value| == 3
  {
    var i0, i1, i2, i3 := Base64Index(s[0]), Base64Index(s[1]), Base64Index(s[2]), Base64Index(s[3]);
    if i0.None? || i1.None? || i2.None? || i3.None? then None
    else
      var n := i0.value * 262144 + i1.value * 4096 + i2.value * 64 + i3.value;
      Some([n / 65536, n / 256 % 256, n % 256])
  }

  lemma SextetsOfTwentyFourBits(n: nat)
    requires n < 16777216
    ensures n / 262144 * 262144 + n / 4096 % 64 * 4096 + n / 64 % 64 * 64 + n % 64 == n
  {
    assert n == n / 64 * 64 + n % 64;
    assert n / 64 == n / 4096 * 64 + n / 64 % 64;
    assert n / 4096 == n / 262144 * 64 + n / 4096 % 64;
  }

  lemma BytesOfTwentyFourBits(b0: Byte, b1: Byte, b2: Byte)
    ensures var n := b0 * 65536 + b1 * 256 + b2;
      n / 65536 == b0 && n / 256 % 256 == b1 && n % 256 == b2
  {
  }

  lemma DecodeEncodeTriple(b0: Byte, b1: Byte, b2: Byte)
    ensures DecodeQuad(EncodeTriple(b0, b1, b2)) == Some([b0, b1, b2])
  {
    var n := b0 * 65536 + b1 * 256 + b2;
    Base64CharIndex(n / 262144);
    Base64CharIndex(n / 4096 % 64);
    Base64CharIndex(n / 64 % 64);
    Base64CharIndex(n % 64);
    SextetsOfTwentyFourBits(n);
    BytesOfTwentyFourBits(b0, b1, b2);
  }

  function EncodeGroups(bs: seq<Byte>): (r: string)
    requires |bs| % 3 == 0
    ensures |r| == |bs| / 3 * 4
  {
    if bs == [] then [] else EncodeTriple(bs[0], bs[1], bs[2]) + EncodeGroups(bs[3..])
  }

  function DecodeGroups(s: string): (r: Option<seq<Byte>>)
    requires |s| % 4 == 0
    ensures r.Some? ==> |r.value| == |s| / 4 * 3
  {
    if s == [] then Some([])
    else
      var head := DecodeQuad(s[..4]);
      var tail := DecodeGroups(s[4..]);
      if head.None? || tail.None? then None else Some(head.value + tail.value)
  }

  lemma {:induction false} DecodeEncodeGroups(bs: seq<Byte>)
    requires |bs| % 3 == 0
    ensures DecodeGroups(EncodeGroups(bs)) == Some(bs)
  {
    if bs != [] {
      var s := EncodeGroups(bs);
      assert s[..4] == EncodeTriple(bs[0], bs[1], bs[2]);
      assert s[4..] == EncodeGroups(bs[3..]);
      DecodeEncodeTriple(bs[0], bs[1], bs[2]);
      DecodeEncodeGroups(bs[3..]);
      assert bs == [bs[0], bs[1], bs[2]] + bs[3..];
    }
  }

  /** `Key.base64Key`: 43 characters for the 256 bits, then one '=' of
      padding. */
  function KeyToBase64(k: Key): (r: string)
    ensures |r| == 44 && r[43] == '='
  {
    EncodeGroups(k[..30]) + EncodeTriple(k[30], k[31], 0)[..3] + "="
  }

  /** `Key(base64Key:)`: exactly 44 characters ending in '=', every other
      character in the alphabet, and the bits beyond the 256th zero (the
      last character is decoded as if followed by 'A'). */
  function KeyFromBase64(s: string): Option<Key> {
    if |s| != 44 || s[43] != '=' then None
    else
      var body := DecodeGroups(s[..40]);
      var last := DecodeQuad(s[40..43] + "A");
      if body.None? || last.None? || last.value[2] != 0 then None
      else Some(body.value + last.value[..2])
  }

  lemma LastTripleEndsInA(b0: Byte, b1: Byte)
    ensures EncodeTriple(b0, b1, 0)[3] == 'A'
  {
    var n := b0 * 65536 + b1 * 256;
    assert n == (b0 * 1024 + b1 * 4) * 64;
    assert n % 64 == 0;
  }

  /** Every key reads back from its own base64 spelling. */
  lemma KeyBase64RoundTrip(k: Key)
    ensures KeyFromBase64(KeyToBase64(k)) == Some(k)
  {
    var s := KeyToBase64(k);
    var head := EncodeGroups(k[..30]);
    var t := EncodeTriple(k[30], k[31], 0);
    assert s == head + t[..3] + "=";
    assert s[..40] == head;
    DecodeEncodeGroups(k[..30]);
    LastTripleEndsInA(k[30], k[31]);
    assert s[40..43] + "A" == t;
    DecodeEncodeTriple(k[30], k[31], 0);
    assert DecodeGroups(s[..40]) == Some(k[..30]);
    assert DecodeQuad(s[40..43] + "A") == Some([k[30], k[31], 0]);
    assert [k[30], k[31], 0][..2] == [k[30], k[31]];
    assert k == k[..30] + [k[30], k[31]];
  }

  lemma Base64IndexChar(c: char)
    requires Base64Index(c).Some?
    ensures Base64Char(Base64Index(c).value) == c
  {
  }

  lemma SextetsOfValue(i0: nat, i1: nat, i2: nat, i3: nat)
    requires i0 < 64 && i1 < 64 && i2 < 64 && i3 < 64
    ensures var n := i0 * 262144 + i1 * 4096 + i2 * 64 + i3;
      n / 262144 == i0 && n / 4096 % 64 == i1 && n / 64 % 64 == i2 && n % 64 == i3
  {
    var n := i0 * 262144 + i1 * 4096 + i2 * 64 + i3;
    assert n == (i0 * 4096 + i1 * 64 + i2) * 64 + i3;
    assert n / 64 == i0 * 4096 + i1 * 64 + i2;
    assert n / 64 == (i0 * 64 + i1) * 64 + i2;
    assert n / 4096 == i0 * 64 + i1;
  }

  lemma BytesOfValue(n: nat)
    requires n < 16777216
    ensures n / 65536 * 65536 + n / 256 % 256 * 256 + n % 256 == n
  {
    assert n == n / 256 * 256 + n % 256;
    assert n / 256 == n / 65536 * 256 + n / 256 % 256;
  }

  lemma EncodeDecodeQuad(s: string)
    requires |s| == 4 && DecodeQuad(s).Some?
    ensures var b := DecodeQuad(s).value; EncodeTriple(b[0], b[1], b[2]) == s
  {
    var i0, i1, i2, i3 := Base64Index(s[0]).value, Base64Index(s[1]).value, Base64Index(s[2]).value, Base64Index(s[3]).value;
    var n := i0 * 262144 + i1 * 4096 + i2 * 64 + i3;
    var b := DecodeQuad(s).value;
    assert b == [n / 65536, n / 256 % 256, n % 256];
    BytesOfValue(n);
    SextetsOfValue(i0, i1, i2, i3);
    Base64IndexChar(s[0]);
    Base64IndexChar(s[1]);
    Base64IndexChar(s[2]);
    Base64IndexChar(s[3]);
    var m := b[0] as int * 65536 + b[1] as int * 256 + b[2] as int;
    assert m == n;
    assert EncodeTriple(b[0], b[1], b[2]) == [Base64Char(i0), Base64Char(i1), Base64Char(i2), Base64Char(i3)];
  }

  lemma {:induction false} EncodeDecodeGroups(s: string)
    requires |s| % 4 == 0 && DecodeGroups(s).Some?
    ensures EncodeGroups(DecodeGroups(s).value) == s
  {
    if s != [] {
      var b := DecodeGroups(s).value;
      var head := DecodeQuad(s[..4]).value;
      EncodeDecodeQuad(s[..4]);
      EncodeDecodeGroups(s[4..]);
      assert b == head + DecodeGroups(s[4..]).value;
      assert b[3..] == DecodeGroups(s[4..]).value;
      assert s == s[..4] + s[4..];
    }
  }

  /** A key read from base64 spells back to the same text: the spelling is
      canonical. */
  lemma KeyBase64Canonical(s: string)
    requires KeyFromBase64(s).Some?
    ensures KeyToBase64(KeyFromBase64(s).value) == s
  {
    var k := KeyFromBase64(s).value;
    var body := DecodeGroups(s[..40]).value;
    var q := s[40..43] + "A";
    var last := DecodeQuad(q).value;
    assert k == body + last[..2];
    assert k[..30] == body;
    EncodeDecodeGroups(s[..40]);
    EncodeDecodeQuad(q);
    assert [k[30], k[31], 0] == last;
    assert EncodeTriple(k[30], k[31], 0)[..3] == s[40..43];
    assert s == s[..40] + s[40..43] + "=";
  }

  // ---------------------------------------------------------------- hex

  function HexChar(d: nat): char
    requires d < 16
  {
    if d < 10 then ('0' as int + d) as char else ('a' as int + (d - 10)) as char
  }

  function HexValue(c: char): (r: Option<nat>)
    ensures r.Some? ==> r.value < 16
  {
    if '0' <= c <= '9' then Some(c as int - '0' as int)
    else if 'a' <= c <= 'f' then Some(c as int - 'a' as int + 10)
    else if 'A' <= c <= 'F' then Some(c as int - 'A' as int + 10)
    else None
  }

  function HexBytes(bs: seq<Byte>): (r: string)
    ensures |r| == 2 * |bs|
  {
    if bs == [] then [] else [HexChar(bs[0] / 16), HexChar(bs[0] % 16)] + HexBytes(bs[1..])
  }

  function HexToBytes(s: string): (r: Option<seq<Byte>>)
    requires |s| % 2 == 0
    ensures r.Some? ==> |r.value| == |s| / 2
  {
    if s == [] then Some([])
    else
      var hi, lo := HexValue(s[0]), HexValue(s[1]);
      var tail := HexToBytes(s[2..]);
      if hi.None? || lo.None? || tail.None? then None
      else Some([hi.value * 16 + lo.value] + tail.value)
  }

  lemma {:induction false} HexBytesRoundTrip(bs: seq<Byte>)
    ensures HexToBytes(HexBytes(bs)) == Some(bs)
  {
    if bs != [] {
      var s := HexBytes(bs);
      assert s[2..] == HexBytes(bs[1..]);
      HexBytesRoundTrip(bs[1..]);
      assert bs == [bs[0]] + bs[1..];
    }
  }

  /** `Key.hexKey`: 64 lower-case hex digits. */
  function KeyToHex(k: Key): (r: string)
    ensures |r| == 64
  {
    HexBytes(k)
  }

  /** `Key(hexKey:)`: exactly 64 hex digits of either case. */
  function KeyFromHex(s: string): Option<Key> {
    if |s| != 64 then None
    else match HexToBytes(s)
      case None => None
      case Some(bs) => Some(bs)
  }

  lemma KeyHexRoundTrip(k: Key)
    ensures KeyFromHex(KeyToHex(k)) == Some(k)
  {
    HexBytesRoundTrip(k);
  }

  /** The all-zero key, which the userspace API uses for "no pre-shared key". */
  function ZeroKey(): Key { seq(32, _ => 0) }

  // ---------------------------------------------------------------- IPv4 addresses and ranges

  type IPv4 = s: seq<Byte> | |s| == 4 witness [0, 0, 0, 0]
  type PrefixLength = n: nat | n <= 32

  /** A dotted-quad component: one or more decimal digits worth at most 255. */
  function ParseOctet(s: string): (r: Option<Byte>) {
    if s != [] && AllDigits(s) && DigitsValue(s) <= 255 then Some(DigitsValue(s)) else None
  }

  function IPv4Text(a: IPv4): (r: string) {
    Join([NatToDecimal(a[0]), NatToDecimal(a[1]), NatToDecimal(a[2]), NatToDecimal(a[3])], ".")
  }

  function ParseIPv4(s: string): (r: Option<IPv4>) {
    var parts := SplitAll(s, {'.'});
    if |parts| != 4 then None
    else
      var o0, o1, o2, o3 := ParseOctet(parts[0]), ParseOctet(parts[1]), ParseOctet(parts[2]), ParseOctet(parts[3]);
      if o0.None? || o1.None? || o2.None? || o3.None? then None
      else Some([o0.value, o1.value, o2.value, o3.value])
  }

  lemma DigitsHaveNoSeparator(s: string, c: char)
    requires AllDigits(s) && !IsDigit(c)
    ensures NoneIn(s, {c})
  {
  }

  lemma ParseOctetDecimal(b: Byte)
    ensures ParseOctet(NatToDecimal(b)) == Some(b)
  {
    DecimalValue(b);
  }

  /** A dotted quad reads back as the same address. */
  lemma IPv4RoundTrip(a: IPv4)
    ensures ParseIPv4(IPv4Text(a)) == Some(a)
  {
    var parts := [NatToDecimal(a[0]), NatToDecimal(a[1]), NatToDecimal(a[2]), NatToDecimal(a[3])];
    forall k | 0 <= k < 4 ensures NoneIn(parts[k], {'.'}) {
      DigitsHaveNoSeparator(parts[k], '.');
    }
    SplitAllJoin(parts, '.');
    assert SplitAll(IPv4Text(a), {'.'}) == parts;
    ParseOctetDecimal(a[0]);
    ParseOctetDecimal(a[1]);
    ParseOctetDecimal(a[2]);
    ParseOctetDecimal(a[3]);
    assert a == [a[0], a[1], a[2], a[3]];
  }

  const IPv4Chars: set<char> := DigitChars + {'.'}

  /** The text of an address holds only digits and dots. */
  lemma IPv4TextChars(a: IPv4)
    ensures AllIn(IPv4Text(a), IPv4Chars)
  {
    var parts := [NatToDecimal(a[0]), NatToDecimal(a[1]), NatToDecimal(a[2]), NatToDecimal(a[3])];
    forall k | 0 <= k < 4 ensures AllIn(parts[k], IPv4Chars) {
      DigitsAllIn(parts[k]);
    }
    JoinAllIn(parts, ".", IPv4Chars);
  }

  /** `IPAddressRange`: an address and a network prefix length. */
  datatype AddressRange = AddressRange(address: IPv4, prefixLength: PrefixLength)

  /** `IPAddressRange.stringRepresentation`: always written with its prefix. */
  function AddressRangeText(r: AddressRange): string {
    IPv4Text(r.address) + "/" + NatToDecimal(r.prefixLength)
  }

  /** `IPAddressRange(from:)`: an address, optionally followed by '/' and a
      prefix length of at most 32; a missing prefix means 32. */
  function ParseAddressRange(s: string): (r: Option<AddressRange>) {
    match FirstIndexIn(s, {'/'})
    case None =>
      (match ParseIPv4(s)
       case None => None
       case Some(a) => Some(AddressRange(a, 32)))
    case Some(i) =>
      var prefix := s[i + 1..];
      match ParseIPv4(s[..i])
      case None => None
      case Some(a) =>
        if prefix != [] && AllDigits(prefix) && DigitsValue(prefix) <= 32
        then Some(AddressRange(a, DigitsValue(prefix)))
        else None
  }

  lemma AddressRangeRoundTrip(r: AddressRange)
    ensures ParseAddressRange(AddressRangeText(r)) == Some(r)
  {
    var a := IPv4Text(r.address);
    var p := NatToDecimal(r.prefixLength);
    IPv4TextChars(r.address);
    AllInNoneIn(a, IPv4Chars, {'/'});
    FirstIndexOfPrefixed(a, '/', p, {'/'});
    var s := AddressRangeText(r);
    assert s == a + ['/'] + p;
    assert s[..|a|] == a && s[|a| + 1..] == p;
    IPv4RoundTrip(r.address);
    DecimalValue(r.prefixLength);
  }

  const AddressRangeChars: set<char> := IPv4Chars + {'/'}

  /** Range text is non-empty and holds only digits, dots and a slash. */
  lemma AddressRangeTextChars(r: AddressRange)
    ensures AddressRangeText(r) != [] && AllIn(AddressRangeText(r), AddressRangeChars)
  {
    IPv4TextChars(r.address);
    DigitsAllIn(NatToDecimal(r.prefixLength));
  }

  /** `DNSServer`: an IP address (only IPv4 here). */
  datatype DNSServer = DNSServer(address: IPv4)

  function DNSServerText(d: DNSServer): string {
    IPv4Text(d.address)
  }

  function ParseDNSServer(s: string): Option<DNSServer> {
    match ParseIPv4(s)
    case None => None
    case Some(a) => Some(DNSServer(a))
  }

  lemma DNSServerRoundTrip(d: DNSServer)
    ensures ParseDNSServer(DNSServerText(d)) == Some(d)
  {
    IPv4RoundTrip(d.address);
  }

  // ---------------------------------------------------------------- endpoints

  /** A character of `CharacterSet.urlHostAllowed`. */
  predicate IsURLHostChar(c: char) {
    'a' <= c <= 'z' || 'A' <= c <= 'Z' || '0' <= c <= '9'
    || c in {'!', '$', '&', '\'', '(', ')', '*', '+', ',', '-', '.', ':', ';', '=', '[', ']', '_', '~'}
  }

  /** A host as the endpoint parser accepts it outside the bracketed IPv6
      form: URL host characters only, no ':', and not starting with '['. */
  predicate IsHostText(h: string) {
    (forall i :: 0 <= i < |h| ==> IsURLHostChar(h[i]) && h[i] != ':')
    && (h == [] || h[0] != '[')
  }

  type Host = h: string | IsHostText(h) witness []

  /** `Endpoint`: a host and a port. */
  datatype Endpoint = Endpoint(host: Host, port: UInt16)

  /** `Endpoint.stringRepresentation` for a non-IPv6 host. */
  function EndpointText(e: Endpoint): string {
    e.host + ":" + NatToDecimal(e.port)
  }

  /** `Endpoint(from:)`: non-empty; the host runs to the first ':', the rest
      is a `UInt16` port, and the host holds URL host characters only. The
      bracketed IPv6 form "[addr]:port" is not recognised. */
  function ParseEndpoint(s: string): (r: Option<Endpoint>) {
    if s == [] || s[0] == '[' then None
    else match FirstIndexIn(s, {':'})
      case None => None
      case Some(i) =>
        var host := s[..i];
        match ParseUnsigned(s[i + 1..], UInt16Max)
        case None => None
        case Some(port) =>
          if forall k :: 0 <= k < |host| ==> IsURLHostChar(host[k]) then Some(Endpoint(host, port)) else None
  }

  lemma EndpointRoundTrip(e: Endpoint)
    ensures ParseEndpoint(EndpointText(e)) == Some(e)
  {
    var p := NatToDecimal(e.port);
    assert NoneIn(e.host, {':'});
    FirstIndexOfPrefixed(e.host, ':', p, {':'});
    var s := EndpointText(e);
    assert s == e.host + [':'] + p;
    assert s[..|e.host|] == e.host && s[|e.host| + 1..] == p;
    ParseUnsignedDecimal(e.port, UInt16Max);
  }

  // ---------------------------------------------------------------- configurations

  /** `InterfaceConfiguration`. */
  datatype InterfaceConfiguration = InterfaceConfiguration(
    privateKey: Key,
    addresses: seq<AddressRange>,
    listenPort: Option<UInt16>,
    mtu: Option<UInt16>,
    dns: seq<DNSServer>,
    dnsSearch: seq<string>)

  /** `InterfaceConfiguration(privateKey:)`: everything else empty. */
  function NewInterface(privateKey: Key): (r: InterfaceConfiguration)
    ensures r.privateKey == privateKey && r.addresses == [] && r.dns == [] && r.dnsSearch == []
    ensures r.listenPort.None? && r.mtu.None?
  {
    InterfaceConfiguration(privateKey, [], None, None, [], [])
  }

  /** `PeerConfiguration`; the last-handshake time is not modelled. */
  datatype PeerConfiguration = PeerConfiguration(
    publicKey: Key,
    preSharedKey: Option<Key>,
    allowedIPs: seq<AddressRange>,
    endpoint: Option<Endpoint>,
    persistentKeepAlive: Option<UInt16>,
    rxBytes: Option<nat>,
    txBytes: Option<nat>)

  /** `PeerConfiguration(publicKey:)`: everything else empty. */
  function NewPeer(publicKey: Key): (r: PeerConfiguration)
    ensures r.publicKey == publicKey && r.preSharedKey.None? && r.allowedIPs == []
    ensures r.endpoint.None? && r.persistentKeepAlive.None? && r.rxBytes.None? && r.txBytes.None?
  {
    PeerConfiguration(publicKey, None, [], None, None, None, None)
  }

  /** `TunnelConfiguration`. */
  datatype TunnelConfiguration = TunnelConfiguration(
    name: Option<string>,
    interface: InterfaceConfiguration,
    peers: seq<PeerConfiguration>)

  /** No two peers share a public key. */
  predicate DistinctPublicKeys(peers: seq<PeerConfiguration>) {
    forall i, j :: 0 <= i < j < |peers| ==> peers[i].publicKey != peers[j].publicKey
  }
}
