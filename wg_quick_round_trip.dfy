/** The wg-quick text that `asWireGuardConfig()` writes reads back, through
    `TunnelConfiguration(wireGuardConfig:with:)`, as the configuration it
    was written from (Shared/Extentions/TunnelConfiguration+WireGuardConfig.swift).
    The proof follows the text line by line: each "Key = value" line adds
    its lowercased key to the section's attributes, each header closes the
    section before it, and the collate helpers turn the attributes back
    into the interface and the peers. */
module WgQuickRoundTrip {
  import opened Wrappers
  import opened Text
  import opened ArrayConversion
  import opened WireGuardKit
  import opened ConfigurationParsing
  import opened WireGuardConfig
  import TunnelInterfaceModels

  // ---------------------------------------------------------------- what the text can carry

  /** A search domain the DNS line carries: a list item that does not read
      as a server, with no comment sign and no line break. */
  predicate IsSearchEntry(x: string) {
    IsListItem(x, ',') && ParseDNSServer(x).None? && NoneIn(x, Newlines + {'#'})
  }

  /** Peers without transfer counters (the format has no line for them). */
  predicate NoCounters(ps: seq<PeerConfiguration>) {
    forall k :: 0 <= k < |ps| ==> ps[k].rxBytes.None? && ps[k].txBytes.None?
  }

  /** An interface whose search domains survive the DNS line. */
  predicate SearchWritable(i: InterfaceConfiguration) {
    forall k :: 0 <= k < |i.dnsSearch| ==> IsSearchEntry(i.dnsSearch[k])
  }

  /** A configuration the text carries whole: peers with distinct public
      keys and no transfer counters, and search domains that survive the
      DNS line. */
  predicate WellFormed(c: TunnelConfiguration) {
    DistinctPublicKeys(c.peers) && NoCounters(c.peers) && SearchWritable(c.interface)
  }

  /** The characters that end a line or start a comment. */
  const Cut: set<char> := Newlines + {'#'}

  predicate IsLetter(c: char) {
    'a' <= c <= 'z' || 'A' <= c <= 'Z'
  }

  /** A key as the serialiser writes it: ASCII letters only. */
  predicate IsKeyText(key: string) {
    key != [] && forall i :: 0 <= i < |key| ==> IsLetter(key[i])
  }

  /** A value that comes back from its line unchanged: non-empty, with no
      surrounding whitespace, no comment sign and no line break. */
  predicate IsValueText(value: string) {
    value != [] && IsTrimmed(value) && NoneIn(value, Cut)
  }

  /** The line the serialiser writes for an attribute. */
  function KeyLine(key: string, value: string): string {
    key + " = " + value
  }

  lemma {:induction false} KeyLineText(key: string, value: string)
    requires IsKeyText(key) && IsValueText(value)
    ensures NoneIn(KeyLine(key, value), Cut) && IsTrimmed(KeyLine(key, value)) && KeyLine(key, value) != []
    ensures NoneIn(key + " ", {'='})
  {
    var line := KeyLine(key, value);
    forall i | 0 <= i < |line| ensures line[i] !in Cut {
      if i < |key| {
        assert line[i] == key[i];
      } else if i >= |key| + 3 {
        assert line[i] == value[i - |key| - 3];
      }
    }
    assert line[|line| - 1] == value[|value| - 1];
  }

  // ---------------------------------------------------------------- one line at a time

  /** The state with its section closed, as the last line leaves it. */
  function Closed(st: ParseState): Result<ParseState, ConfigurationParseError> {
    var closed :- CloseSection(st.section, st.attributes, st.interface, st.peers);
    Success(st.(interface := closed.0, peers := closed.1))
  }

  /** A key the current section accepts. */
  predicate SectionKey(section: ConfigurationParserState, key: string) {
    (section == InInterfaceSection && key in InterfaceSectionKeys)
    || (section == InPeerSection && key in PeerSectionKeys)
  }

  /** A "Key = value" line the parser takes whole: a key the section
      accepts and has not seen yet, and a value its line gives back. */
  predicate KeyFits(section: ConfigurationParserState, attributes: map<string, string>, key: string, value: string) {
    IsKeyText(key) && IsValueText(value) && SectionKey(section, Lowercase(key)) && Lowercase(key) !in attributes
  }

  /** No header holds an '='. */
  lemma HeadersHaveNoEquals(s: string)
    requires IsSectionHeader(s)
    ensures NoneIn(s, {'='})
  {
  }

  /** How the parser reads a "Key = value" line: the line survives comment
      stripping and trimming, is not a header, and splits at the '=' after
      the key into the key and the value. */
  lemma {:induction false} KeyLineParts(key: string, value: string)
    requires IsKeyText(key) && IsValueText(value)
    ensures var line := KeyLine(key, value);
      Trim(StripComment(line)) == line && !IsSectionHeader(Lowercase(line))
      && FirstIndexIn(line, {'='}) == Some(|key| + 1)
      && Trim(line[..|key| + 1]) == key && Trim(line[|key| + 2..]) == value
  {
    var line := KeyLine(key, value);
    KeyLineText(key, value);
    assert FirstIndexIn(line, {'#'}).None?;
    TrimOfTrimmed(line);
    assert line == (key + " ") + ['='] + (" " + value);
    FirstIndexOfPrefixed(key + " ", '=', " " + value, {'='});
    assert line[..|key| + 1] == [] + key + " ";
    TrimPadded([], key, " ");
    assert line[|key| + 2..] == " " + value + [];
    TrimPadded(" ", value, []);
    var lower := Lowercase(line);
    assert lower[|key| + 1] == '=';
    if IsSectionHeader(lower) {
      HeadersHaveNoEquals(lower);
    }
  }

  /** A "Key = value" line whose key is new to the section adds the
      lowercased key with its value to the attributes. */
  lemma KeyLineAdds(section: ConfigurationParserState, attributes: map<string, string>, key: string, value: string)
    requires KeyFits(section, attributes, key, value)
    ensures AddAttribute(section, attributes, KeyLine(key, value), KeyLine(key, value))
         == Success(attributes[Lowercase(key) := value])
  {
    KeyLineParts(key, value);
  }

  /** A "Key = value" line whose key is new to the section adds the
      lowercased key with its value; on the last line it also closes the
      section. */
  lemma AttributeLineStep(st: ParseState, key: string, value: string, isLastLine: bool)
    requires KeyFits(st.section, st.attributes, key, value)
    ensures var next := st.(attributes := st.attributes[Lowercase(key) := value]);
      LineStep(st, KeyLine(key, value), isLastLine) == if isLastLine then Closed(next) else Success(next)
  {
    var line := KeyLine(key, value);
    KeyLineParts(key, value);
    KeyLineAdds(st.section, st.attributes, key, value);
    var lower := Lowercase(line);
    assert lower != "[interface]" && lower != "[peer]";
  }

  /** The section a header opens. */
  function SectionOf(header: string): ConfigurationParserState {
    if header == "[Interface]" then InInterfaceSection else InPeerSection
  }

  /** The state after a header: its own section, empty, once the section
      before it has closed. */
  function Opened(header: string, closed: Result<ParseState, ConfigurationParseError>): Result<ParseState, ConfigurationParseError> {
    match closed
    case Failure(e) => Failure(e)
    case Success(c) => Success(ParseState(SectionOf(header), map[], c.interface, c.peers))
  }

  /** How the parser reads a header line the serialiser writes. */
  lemma HeaderText(header: string)
    requires header == "[Interface]" || header == "[Peer]"
    ensures Trim(StripComment(header)) == header && FirstIndexIn(header, {'='}).None?
    ensures Lowercase(header) == if header == "[Interface]" then "[interface]" else "[peer]"
  {
    assert FirstIndexIn(header, {'#'}).None?;
    assert IsTrimmed(header);
    TrimOfTrimmed(header);
  }

  /** A header line that is not the last closes the section before it and
      opens its own. */
  lemma HeaderLineStep(st: ParseState, header: string)
    requires header == "[Interface]" || header == "[Peer]"
    ensures LineStep(st, header, false) == Opened(header, Closed(st))
  {
    HeaderText(header);
  }

  // ---------------------------------------------------------------- the loop, for any line step

  /** A turn of the parser's loop: the state after a line, given whether it
      is the last one. */
  type Stepper = (ParseState, string, bool) -> Result<ParseState, ConfigurationParseError>

  /** The closing of the section the last line leaves open. */
  type Closer = ParseState -> Result<ParseState, ConfigurationParseError>

  /** The parser's loop from line `k` on, with `step` for its body. */
  function Run(step: Stepper, lines: seq<string>, k: nat, st: ParseState): Result<ParseState, ConfigurationParseError>
    requires k <= |lines|
    decreases |lines| - k
  {
    if k == |lines| then Success(st)
    else
      var next :- step(st, lines[k], k == |lines| - 1);
      Run(step, lines, k + 1, next)
  }

  /** With `LineStep` for its body, the loop is the parser's. */
  lemma {:induction false} RunIsParseFrom(lines: seq<string>, k: nat, st: ParseState)
    requires k <= |lines|
    ensures Run(LineStep, lines, k, st) == ParseFrom(lines, k, st)
    decreases |lines| - k
  {
    if k < |lines| {
      var r := LineStep(st, lines[k], k == |lines| - 1);
      if r.Success? {
        RunIsParseFrom(lines, k + 1, r.value);
      }
    }
  }

  /** The loop from line `j` on, where past the last line the section that
      line left open is closed: a section ends either at the next header or
      at the last line. */
  function Resume(step: Stepper, close: Closer, lines: seq<string>, j: nat, st: ParseState)
    : Result<ParseState, ConfigurationParseError>
    requires j <= |lines|
  {
    if j == |lines| then close(st) else Run(step, lines, j, st)
  }

  /** A body that adds a fitting key line's key to the section, and on the
      last line closes the section. */
  ghost predicate AddsKeyLines(step: Stepper, close: Closer) {
    forall st: ParseState, key: string, value: string, last: bool ::
      KeyFits(st.section, st.attributes, key, value)
      ==> step(st, KeyLine(key, value), last)
          == (var next := st.(attributes := st.attributes[Lowercase(key) := value]);
              if last then close(next) else Success(next))
  }

  /** A body that, on a header line that is not the last, closes the
      section before it and opens the header's own. */
  ghost predicate OpensSections(step: Stepper, close: Closer) {
    (forall st: ParseState :: step(st, "[Interface]", false) == Opened("[Interface]", close(st)))
    && (forall st: ParseState :: step(st, "[Peer]", false) == Opened("[Peer]", close(st)))
  }

  /** The parser's own loop body is such a body, with `Closed` for its
      closing. */
  lemma ParserSteps()
    ensures AddsKeyLines(LineStep, Closed) && OpensSections(LineStep, Closed)
  {
    forall st: ParseState, key: string, value: string, last: bool | KeyFits(st.section, st.attributes, key, value)
      ensures LineStep(st, KeyLine(key, value), last)
           == (var next := st.(attributes := st.attributes[Lowercase(key) := value]);
               if last then Closed(next) else Success(next))
    {
      AttributeLineStep(st, key, value, last);
    }
    forall st: ParseState ensures LineStep(st, "[Interface]", false) == Opened("[Interface]", Closed(st)) {
      HeaderLineStep(st, "[Interface]");
    }
    forall st: ParseState ensures LineStep(st, "[Peer]", false) == Opened("[Peer]", Closed(st)) {
      HeaderLineStep(st, "[Peer]");
    }
  }

  /** The lines of `block` stand at `j`. */
  predicate LinesAt(lines: seq<string>, j: nat, block: seq<string>) {
    j + |block| <= |lines| && lines[j..j + |block|] == block
  }

  lemma LinesAtSplit(lines: seq<string>, j: nat, a: seq<string>, b: seq<string>)
    requires LinesAt(lines, j, a + b)
    ensures LinesAt(lines, j, a) && LinesAt(lines, j + |a|, b)
  {
    assert lines[j..j + |a|] == (a + b)[..|a|];
    assert lines[j + |a|..j + |a| + |b|] == (a + b)[|a|..];
  }

  /** A header that is not the last line opens its section. */
  lemma HeaderStep(step: Stepper, close: Closer, lines: seq<string>, j: nat, st: ParseState, header: string, c: ParseState)
    requires OpensSections(step, close)
    requires header == "[Interface]" || header == "[Peer]"
    requires j + 1 < |lines| && lines[j] == header && close(st) == Success(c)
    ensures Resume(step, close, lines, j, st)
         == Resume(step, close, lines, j + 1, ParseState(SectionOf(header), map[], c.interface, c.peers))
  {
    assert step(st, header, false) == Opened(header, close(st));
  }

  // ---------------------------------------------------------------- runs of attribute lines

  /** An attribute line the serialiser writes when `present`. */
  datatype Entry = Entry(present: bool, key: string, value: string)

  /** The line of an entry, or none when it is absent. */
  function Line(e: Entry): seq<string> {
    OptionalLine(e.present, KeyLine(e.key, e.value))
  }

  /** `head`, then the entries' lines, in the order the serialiser appends
      them. */
  function Written(head: seq<string>, es: seq<Entry>): seq<string>
    decreases |es|
  {
    if es == [] then head else Written(head, es[..|es| - 1]) + Line(es[|es| - 1])
  }

  function EntryLines(es: seq<Entry>): seq<string> {
    Written([], es)
  }

  lemma {:induction false} WrittenAfter(head: seq<string>, es: seq<Entry>)
    ensures Written(head, es) == head + EntryLines(es)
    decreases |es|
  {
    if es != [] {
      var init := es[..|es| - 1];
      WrittenAfter(head, init);
      assert Written([], es) == Written([], init) + Line(es[|es| - 1]);
    }
  }

  lemma WrittenShift(a: seq<string>, b: seq<string>, es: seq<Entry>)
    ensures Written(a + b, es) == a + Written(b, es)
  {
    WrittenAfter(a + b, es);
    WrittenAfter(b, es);
  }

  /** The first entry's line comes first. */
  lemma {:induction false} EntryLinesCons(es: seq<Entry>)
    requires es != []
    ensures EntryLines(es) == Line(es[0]) + EntryLines(es[1..])
    decreases |es|
  {
    var init := es[..|es| - 1];
    var last := Line(es[|es| - 1]);
    if |es| == 1 {
      assert init == [] && es[1..] == [];
    } else {
      EntryLinesCons(init);
      assert init[1..] == es[1..][..|es| - 2];
      assert EntryLines(es[1..]) == EntryLines(init[1..]) + last;
    }
  }

  /** The attributes with `key` added when `present`. */
  function With(attributes: map<string, string>, present: bool, key: string, value: string): map<string, string> {
    if present then attributes[key := value] else attributes
  }

  /** The attributes after an entry: its lowercased key added when it is
      present. */
  function Added(attributes: map<string, string>, e: Entry): map<string, string> {
    With(attributes, e.present, Lowercase(e.key), e.value)
  }

  /** The attributes after the entries, in order. */
  function AddEntries(attributes: map<string, string>, es: seq<Entry>): map<string, string>
    decreases |es|
  {
    if es == [] then attributes else AddEntries(Added(attributes, es[0]), es[1..])
  }

  /** A present entry's line is one the parser takes whole. */
  predicate EntryFits(section: ConfigurationParserState, attributes: map<string, string>, e: Entry) {
    e.present ==> KeyFits(section, attributes, e.key, e.value)
  }

  predicate EntriesFit(section: ConfigurationParserState, attributes: map<string, string>, es: seq<Entry>)
    decreases |es|
  {
    es == [] || (EntryFits(section, attributes, es[0]) && EntriesFit(section, Added(attributes, es[0]), es[1..]))
  }

  /** An entry's line, when it is present, adds its key. */
  lemma {:induction false} EntryStep(step: Stepper, close: Closer, lines: seq<string>, j: nat, st: ParseState, e: Entry)
    requires AddsKeyLines(step, close)
    requires LinesAt(lines, j, Line(e)) && EntryFits(st.section, st.attributes, e)
    ensures Resume(step, close, lines, j, st)
         == Resume(step, close, lines, j + |Line(e)|, st.(attributes := Added(st.attributes, e)))
  {
    if e.present {
      assert lines[j] == KeyLine(e.key, e.value);
      var next := st.(attributes := Added(st.attributes, e));
      assert next == st.(attributes := st.attributes[Lowercase(e.key) := e.value]);
      var last := j == |lines| - 1;
      assert step(st, KeyLine(e.key, e.value), last) == if last then close(next) else Success(next);
      if last && close(next).Success? {
        assert Run(step, lines, j + 1, close(next).value) == close(next);
      }
    } else {
      assert st.(attributes := Added(st.attributes, e)) == st;
    }
  }

  /** A run of attribute lines adds its entries' keys in order. */
  lemma {:induction false} EntriesStep(step: Stepper, close: Closer, lines: seq<string>, j: nat, st: ParseState, es: seq<Entry>)
    requires AddsKeyLines(step, close)
    requires LinesAt(lines, j, EntryLines(es)) && EntriesFit(st.section, st.attributes, es)
    ensures Resume(step, close, lines, j, st)
         == Resume(step, close, lines, j + |EntryLines(es)|, st.(attributes := AddEntries(st.attributes, es)))
    decreases |es|
  {
    if es == [] {
      assert st.(attributes := st.attributes) == st;
    } else {
      var e := es[0];
      EntryLinesCons(es);
      LinesAtSplit(lines, j, Line(e), EntryLines(es[1..]));
      EntryStep(step, close, lines, j, st, e);
      var next := st.(attributes := Added(st.attributes, e));
      EntriesStep(step, close, lines, j + |Line(e)|, next, es[1..]);
      assert next.(attributes := AddEntries(next.attributes, es[1..])) == st.(attributes := AddEntries(st.attributes, es));
    }
  }

  /** Every line of a fitting run is non-empty and on a line of its own. */
  lemma {:induction false} EntryLinesPlain(section: ConfigurationParserState, m: map<string, string>, es: seq<Entry>)
    requires EntriesFit(section, m, es)
    ensures forall k :: 0 <= k < |EntryLines(es)| ==> EntryLines(es)[k] != [] && NoneIn(EntryLines(es)[k], Cut)
    decreases |es|
  {
    if es != [] {
      var e := es[0];
      EntryLinesCons(es);
      EntryLinesPlain(section, Added(m, e), es[1..]);
      if e.present {
        KeyLineText(e.key, e.value);
      }
    }
  }

  /** One more entry's line goes last. */
  lemma WrittenSnoc(head: seq<string>, es: seq<Entry>, e: Entry)
    ensures Written(head, es + [e]) == Written(head, es) + Line(e)
  {
    assert (es + [e])[..|es|] == es;
  }

  lemma DisplayAppend(head: seq<string>, x: string)
    requires |head| == 1 || |head| == 2
    ensures |head| == 1 ==> head + [x] == [head[0], x]
    ensures |head| == 2 ==> head + [x] == [head[0], head[1], x]
  {
  }

  /** Up to five entries after a head, spelled out. */
  lemma TwoLines(head: seq<string>, e0: Entry, e1: Entry)
    ensures Written(head, [e0, e1]) == head + Line(e0) + Line(e1)
  {
    WrittenSnoc(head, [], e0);
    WrittenSnoc(head, [e0], e1);
    assert [] + [e0] == [e0];
    assert [e0] + [e1] == [e0, e1];
  }

  lemma ThreeLines(head: seq<string>, e0: Entry, e1: Entry, e2: Entry)
    ensures Written(head, [e0, e1, e2]) == head + Line(e0) + Line(e1) + Line(e2)
  {
    TwoLines(head, e0, e1);
    WrittenSnoc(head, [e0, e1], e2);
    assert [e0, e1] + [e2] == [e0, e1, e2];
  }

  lemma FourLines(head: seq<string>, e0: Entry, e1: Entry, e2: Entry, e3: Entry)
    ensures Written(head, [e0, e1, e2, e3]) == head + Line(e0) + Line(e1) + Line(e2) + Line(e3)
  {
    ThreeLines(head, e0, e1, e2);
    WrittenSnoc(head, [e0, e1, e2], e3);
    assert [e0, e1, e2] + [e3] == [e0, e1, e2, e3];
  }

  lemma FiveLines(head: seq<string>, e0: Entry, e1: Entry, e2: Entry, e3: Entry, e4: Entry)
    ensures Written(head, [e0, e1, e2, e3, e4]) == head + Line(e0) + Line(e1) + Line(e2) + Line(e3) + Line(e4)
  {
    FourLines(head, e0, e1, e2, e3);
    WrittenSnoc(head, [e0, e1, e2, e3], e4);
    assert [e0, e1, e2, e3] + [e4] == [e0, e1, e2, e3, e4];
  }

  lemma FiveAdded(m: map<string, string>, e0: Entry, e1: Entry, e2: Entry, e3: Entry, e4: Entry)
    ensures AddEntries(m, [e0, e1, e2, e3, e4]) == Added(Added(Added(Added(Added(m, e0), e1), e2), e3), e4)
  {
    assert [e0, e1, e2, e3, e4][1..] == [e1, e2, e3, e4];
    assert [e1, e2, e3, e4][1..] == [e2, e3, e4];
    assert [e2, e3, e4][1..] == [e3, e4];
    assert [e3, e4][1..] == [e4];
    var m1 := Added(m, e0);
    var m2 := Added(m1, e1);
    var m3 := Added(m2, e2);
    var m4 := Added(m3, e3);
    assert AddEntries(m4, [e4]) == Added(m4, e4);
    assert AddEntries(m3, [e3, e4]) == AddEntries(m4, [e4]);
    assert AddEntries(m2, [e2, e3, e4]) == AddEntries(m3, [e3, e4]);
    assert AddEntries(m1, [e1, e2, e3, e4]) == AddEntries(m2, [e2, e3, e4]);
  }

  lemma FiveFit(section: ConfigurationParserState, m: map<string, string>, e0: Entry, e1: Entry, e2: Entry, e3: Entry, e4: Entry)
    ensures EntriesFit(section, m, [e0, e1, e2, e3, e4])
        <== EntryFits(section, m, e0) && EntryFits(section, Added(m, e0), e1)
            && EntryFits(section, Added(Added(m, e0), e1), e2)
            && EntryFits(section, Added(Added(Added(m, e0), e1), e2), e3)
            && EntryFits(section, Added(Added(Added(Added(m, e0), e1), e2), e3), e4)
  {
    assert [e0, e1, e2, e3, e4][1..] == [e1, e2, e3, e4];
    assert [e1, e2, e3, e4][1..] == [e2, e3, e4];
    assert [e2, e3, e4][1..] == [e3, e4];
    assert [e3, e4][1..] == [e4];
    var m1 := Added(m, e0);
    var m2 := Added(m1, e1);
    var m3 := Added(m2, e2);
    var m4 := Added(m3, e3);
    assert EntriesFit(section, m4, [e4]) <== EntryFits(section, m4, e4);
    assert EntriesFit(section, m3, [e3, e4]) <== EntryFits(section, m3, e3) && EntriesFit(section, m4, [e4]);
    assert EntriesFit(section, m2, [e2, e3, e4]) <== EntryFits(section, m2, e2) && EntriesFit(section, m3, [e3, e4]);
    assert EntriesFit(section, m1, [e1, e2, e3, e4]) <== EntryFits(section, m1, e1) && EntriesFit(section, m2, [e2, e3, e4]);
  }

  /** A present entry with a key the section accepts and has not seen, and
      a value its line gives back, fits. */
  lemma FitsAs(section: ConfigurationParserState, m: map<string, string>, e: Entry, lower: string)
    requires e.present ==> IsKeyText(e.key) && IsValueText(e.value)
    requires Lowercase(e.key) == lower && SectionKey(section, lower) && lower !in m
    ensures EntryFits(section, m, e)
  {
  }

  lemma WithKeys(m: map<string, string>, present: bool, key: string, value: string)
    ensures With(m, present, key, value).Keys <= m.Keys + {key}
  {
  }

  /** A present entry's key and value are ones its line gives back. */
  predicate Plain(e: Entry) {
    e.present ==> IsKeyText(e.key) && IsValueText(e.value)
  }

  /** Five distinct keys. */
  predicate Distinct5(k0: string, k1: string, k2: string, k3: string, k4: string) {
    k0 != k1 && k0 != k2 && k0 != k3 && k0 != k4 && k1 != k2 && k1 != k3 && k1 != k4 && k2 != k3 && k2 != k4 && k3 != k4
  }

  /** Attributes with a first key and four optional ones. */
  function Five(k0: string, v0: string, p1: bool, k1: string, v1: string, p2: bool, k2: string, v2: string,
                p3: bool, k3: string, v3: string, p4: bool, k4: string, v4: string): map<string, string> {
    With(With(With(With(map[k0 := v0], p1, k1, v1), p2, k2, v2), p3, k3, v3), p4, k4, v4)
  }

  /** Five entries, the first written, with distinct keys the section
      accepts and values their lines give back, fit the section and give
      their values under their lowercased keys. */
  lemma FiveFitting(section: ConfigurationParserState, e0: Entry, e1: Entry, e2: Entry, e3: Entry, e4: Entry,
                    k0: string, k1: string, k2: string, k3: string, k4: string)
    requires e0.present && Plain(e0) && Plain(e1) && Plain(e2) && Plain(e3) && Plain(e4)
    requires Lowercase(e0.key) == k0 && Lowercase(e1.key) == k1 && Lowercase(e2.key) == k2
    requires Lowercase(e3.key) == k3 && Lowercase(e4.key) == k4
    requires SectionKey(section, k0) && SectionKey(section, k1) && SectionKey(section, k2)
    requires SectionKey(section, k3) && SectionKey(section, k4) && Distinct5(k0, k1, k2, k3, k4)
    ensures EntriesFit(section, map[], [e0, e1, e2, e3, e4])
    ensures AddEntries(map[], [e0, e1, e2, e3, e4])
         == Five(k0, e0.value, e1.present, k1, e1.value, e2.present, k2, e2.value,
                 e3.present, k3, e3.value, e4.present, k4, e4.value)
  {
    var m1 := Added(map[], e0);
    var m2 := Added(m1, e1);
    var m3 := Added(m2, e2);
    var m4 := Added(m3, e3);
    assert m1 == map[k0 := e0.value];
    WithKeys(m1, e1.present, k1, e1.value);
    WithKeys(m2, e2.present, k2, e2.value);
    WithKeys(m3, e3.present, k3, e3.value);
    FitsAs(section, map[], e0, k0);
    FitsAs(section, m1, e1, k1);
    FitsAs(section, m2, e2, k2);
    FitsAs(section, m3, e3, k3);
    FitsAs(section, m4, e4, k4);
    FiveAdded(map[], e0, e1, e2, e3, e4);
    FiveFit(section, map[], e0, e1, e2, e3, e4);
  }

  /** What five distinct keys' attributes hold, key by key. */
  lemma FiveLookups(k0: string, v0: string, p1: bool, k1: string, v1: string, p2: bool, k2: string, v2: string,
                    p3: bool, k3: string, v3: string, p4: bool, k4: string, v4: string)
    requires Distinct5(k0, k1, k2, k3, k4)
    ensures var a := Five(k0, v0, p1, k1, v1, p2, k2, v2, p3, k3, v3, p4, k4, v4);
      k0 in a && a[k0] == v0
      && (k1 in a <==> p1) && (p1 ==> a[k1] == v1)
      && (k2 in a <==> p2) && (p2 ==> a[k2] == v2)
      && (k3 in a <==> p3) && (p3 ==> a[k3] == v3)
      && (k4 in a <==> p4) && (p4 ==> a[k4] == v4)
  {
  }

  // ---------------------------------------------------------------- sections

  /** A section as the serialiser writes it: a header, then attribute
      lines. */
  datatype Section = Section(header: string, entries: seq<Entry>)

  function SectionLines(s: Section): seq<string> {
    Written([s.header], s.entries)
  }

  /** The attributes the section's lines give. */
  function Attributes(s: Section): map<string, string> {
    AddEntries(map[], s.entries)
  }

  /** A section the parser reads whole: a header it knows, a first entry
      that is written, and entries that fit the section. */
  predicate Readable(s: Section) {
    (s.header == "[Interface]" || s.header == "[Peer]")
    && s.entries != [] && s.entries[0].present
    && EntriesFit(SectionOf(s.header), map[], s.entries)
  }

  /** A readable section, after a section that closes as `c`, leaves the
      parser in its own section holding its attributes. */
  lemma SectionStep(step: Stepper, close: Closer, lines: seq<string>, j: nat, st: ParseState, c: ParseState, s: Section)
    requires AddsKeyLines(step, close) && OpensSections(step, close)
    requires Readable(s) && close(st) == Success(c) && LinesAt(lines, j, SectionLines(s))
    ensures Resume(step, close, lines, j, st)
         == Resume(step, close, lines, j + |SectionLines(s)|, ParseState(SectionOf(s.header), Attributes(s), c.interface, c.peers))
  {
    var body := EntryLines(s.entries);
    WrittenAfter([s.header], s.entries);
    EntryLinesCons(s.entries);
    assert |body| >= 1;
    LinesAtSplit(lines, j, [s.header], body);
    HeaderStep(step, close, lines, j, st, s.header, c);
    var entered := ParseState(SectionOf(s.header), map[], c.interface, c.peers);
    EntriesStep(step, close, lines, j + 1, entered, s.entries);
    assert entered.(attributes := AddEntries(map[], s.entries)) == ParseState(SectionOf(s.header), Attributes(s), c.interface, c.peers);
  }

  /** The state in section `s`, holding its attributes, after a section
      that closed as `c`. */
  function Entered(s: Section, c: ParseState): ParseState {
    ParseState(SectionOf(s.header), Attributes(s), c.interface, c.peers)
  }

  /** The loop passes over section `s` whole, from wherever the section
      before it closes well. */
  ghost predicate PassesOver(step: Stepper, close: Closer, s: Section) {
    forall lines: seq<string>, j: nat, st: ParseState ::
      LinesAt(lines, j, SectionLines(s)) && close(st).Success? ==>
        Resume(step, close, lines, j, st)
        == Resume(step, close, lines, j + |SectionLines(s)|, Entered(s, close(st).value))
  }

  lemma SectionPasses(step: Stepper, close: Closer, s: Section)
    requires AddsKeyLines(step, close) && OpensSections(step, close) && Readable(s)
    ensures PassesOver(step, close, s)
  {
    forall lines: seq<string>, j: nat, st: ParseState | LinesAt(lines, j, SectionLines(s)) && close(st).Success?
      ensures Resume(step, close, lines, j, st)
           == Resume(step, close, lines, j + |SectionLines(s)|, Entered(s, close(st).value))
    {
      SectionStep(step, close, lines, j, st, close(st).value, s);
    }
  }

  /** Every line of a readable section is non-empty and holds no line
      break. */
  lemma SectionPlain(s: Section)
    requires Readable(s)
    ensures forall k :: 0 <= k < |SectionLines(s)| ==> SectionLines(s)[k] != [] && NoneIn(SectionLines(s)[k], Newlines)
  {
    var body := EntryLines(s.entries);
    WrittenAfter([s.header], s.entries);
    EntryLinesPlain(SectionOf(s.header), map[], s.entries);
    forall k | 0 <= k < |SectionLines(s)| ensures SectionLines(s)[k] != [] && NoneIn(SectionLines(s)[k], Newlines) {
      if k > 0 {
        assert SectionLines(s)[k] == body[k - 1];
      } else {
        assert s.header[0] == '[';
        assert forall i :: 0 <= i < |s.header| ==> s.header[i] !in Newlines;
      }
    }
  }

  function SectionsLines(ss: seq<Section>): seq<string>
    decreases |ss|
  {
    if ss == [] then [] else SectionLines(ss[0]) + SectionsLines(ss[1..])
  }

  /** Readable peer sections. */
  predicate PeerSections(ss: seq<Section>) {
    forall k :: 0 <= k < |ss| ==> ss[k].header == "[Peer]" && Readable(ss[k])
  }

  /** Peer sections the loop passes over. */
  ghost predicate PeersPass(step: Stepper, close: Closer, ss: seq<Section>) {
    forall k :: 0 <= k < |ss| ==> ss[k].header == "[Peer]" && PassesOver(step, close, ss[k])
  }

  lemma SectionsPass(step: Stepper, close: Closer, ss: seq<Section>)
    requires AddsKeyLines(step, close) && OpensSections(step, close) && PeerSections(ss)
    ensures PeersPass(step, close, ss)
  {
    forall k | 0 <= k < |ss| ensures PassesOver(step, close, ss[k]) {
      SectionPasses(step, close, ss[k]);
    }
  }

  /** A closing that turns the attributes of section `k` back into peer
      `k`. */
  ghost predicate ClosesPeers(close: Closer, ss: seq<Section>, ps: seq<PeerConfiguration>) {
    |ss| == |ps|
    && forall k, iface: Option<InterfaceConfiguration>, done: seq<PeerConfiguration> :: 0 <= k < |ss| ==>
         close(ParseState(InPeerSection, Attributes(ss[k]), iface, done))
         == Success(ParseState(InPeerSection, Attributes(ss[k]), iface, done + [ps[k]]))
  }

  lemma ClosesRest(close: Closer, ss: seq<Section>, ps: seq<PeerConfiguration>)
    requires ClosesPeers(close, ss, ps) && ss != []
    ensures ClosesPeers(close, ss[1..], ps[1..])
  {
    forall k, iface: Option<InterfaceConfiguration>, done: seq<PeerConfiguration> | 0 <= k < |ss| - 1
      ensures close(ParseState(InPeerSection, Attributes(ss[1..][k]), iface, done))
           == Success(ParseState(InPeerSection, Attributes(ss[1..][k]), iface, done + [ps[1..][k]]))
    {
      assert ss[1..][k] == ss[k + 1] && ps[1..][k] == ps[k + 1];
    }
  }

  /** The state after peer sections `ss` that close as `ps`, after a
      section that closed as `c`. */
  function AfterPeers(c: ParseState, ss: seq<Section>, ps: seq<PeerConfiguration>): ParseState {
    if ss == [] then c
    else ParseState(InPeerSection, Attributes(ss[|ss| - 1]), c.interface, c.peers + ps)
  }

  lemma AfterFirstPeer(c: ParseState, ss: seq<Section>, ps: seq<PeerConfiguration>)
    requires ss != [] && |ss| == |ps|
    ensures AfterPeers(ParseState(InPeerSection, Attributes(ss[0]), c.interface, c.peers + [ps[0]]), ss[1..], ps[1..])
         == AfterPeers(c, ss, ps)
  {
    if |ss| == 1 {
      assert ps == [ps[0]];
    } else {
      assert ss[1..][|ss| - 2] == ss[|ss| - 1];
      assert c.peers + [ps[0]] + ps[1..] == c.peers + ps;
    }
  }

  /** Peer sections that close as `ps`, after a section that closes as `c`,
      add `ps` in order and leave the interface as it was. */
  lemma {:induction false} PeersStep(step: Stepper, close: Closer, lines: seq<string>, j: nat, st: ParseState,
                                     c: ParseState, ss: seq<Section>, ps: seq<PeerConfiguration>)
    requires PeersPass(step, close, ss) && ClosesPeers(close, ss, ps)
    requires close(st) == Success(c)
    requires j + |SectionsLines(ss)| == |lines| && LinesAt(lines, j, SectionsLines(ss))
    ensures Resume(step, close, lines, j, st) == Success(AfterPeers(c, ss, ps))
    decreases |ss|
  {
    if ss != [] {
      var s := ss[0];
      LinesAtSplit(lines, j, SectionLines(s), SectionsLines(ss[1..]));
      assert PassesOver(step, close, s);
      var filled := Entered(s, c);
      assert Resume(step, close, lines, j, st) == Resume(step, close, lines, j + |SectionLines(s)|, filled);
      var next := ParseState(InPeerSection, Attributes(s), c.interface, c.peers + [ps[0]]);
      assert close(filled) == Success(next);
      ClosesRest(close, ss, ps);
      assert PeersPass(step, close, ss[1..]) by {
        forall k | 0 <= k < |ss| - 1 ensures ss[1..][k].header == "[Peer]" && PassesOver(step, close, ss[1..][k]) {
          assert ss[1..][k] == ss[k + 1];
        }
      }
      PeersStep(step, close, lines, j + |SectionLines(s)|, filled, next, ss[1..], ps[1..]);
      AfterFirstPeer(c, ss, ps);
    }
  }

  /** An interface section then peer sections, read by a loop body of the
      parser's kind, give back the interface and the peers. */
  lemma TextStep(step: Stepper, close: Closer, lines: seq<string>, head: Section, iface: InterfaceConfiguration,
                 ss: seq<Section>, ps: seq<PeerConfiguration>)
    requires head.header == "[Interface]" && PassesOver(step, close, head)
    requires PeersPass(step, close, ss) && ClosesPeers(close, ss, ps)
    requires close(InitialState) == Success(InitialState)
    requires close(ParseState(InInterfaceSection, Attributes(head), None, []))
          == Success(ParseState(InInterfaceSection, Attributes(head), Some(iface), []))
    requires lines == SectionLines(head) + SectionsLines(ss) && |SectionLines(head)| >= 1
    ensures var r := Run(step, lines, 0, InitialState);
      r.Success? && r.value.interface == Some(iface) && r.value.peers == ps
  {
    assert lines[0..|lines|] == lines;
    LinesAtSplit(lines, 0, SectionLines(head), SectionsLines(ss));
    var filled := Entered(head, InitialState);
    assert Resume(step, close, lines, 0, InitialState) == Resume(step, close, lines, |SectionLines(head)|, filled);
    PeersStep(step, close, lines, |SectionLines(head)|, filled, filled.(interface := Some(iface)), ss, ps);
  }

  // ---------------------------------------------------------------- the values written

  /** A character of the base64 alphabet is neither whitespace nor cut. */
  lemma Base64CharIsPlain(c: char)
    requires Base64Index(c).Some? || c == '='
    ensures !IsWhitespace(c) && c !in Cut
  {
  }

  lemma {:induction false} EncodeGroupsAlphabet(bs: seq<Byte>)
    requires |bs| % 3 == 0
    ensures forall i :: 0 <= i < |EncodeGroups(bs)| ==> Base64Index(EncodeGroups(bs)[i]).Some?
  {
    if bs != [] {
      EncodeTripleAlphabet(bs[0], bs[1], bs[2]);
      EncodeGroupsAlphabet(bs[3..]);
    }
  }

  lemma EncodeTripleAlphabet(b0: Byte, b1: Byte, b2: Byte)
    ensures forall i :: 0 <= i < 4 ==> Base64Index(EncodeTriple(b0, b1, b2)[i]).Some?
  {
    var n := b0 * 65536 + b1 * 256 + b2;
    Base64CharIndex(n / 262144);
    Base64CharIndex(n / 4096 % 64);
    Base64CharIndex(n / 64 % 64);
    Base64CharIndex(n % 64);
  }

  /** A key's base64 text comes back from its line unchanged. */
  lemma KeyTextIsValue(k: Key)
    ensures IsValueText(KeyToBase64(k))
  {
    var s := KeyToBase64(k);
    var body := EncodeGroups(k[..30]);
    var tail := EncodeTriple(k[30], k[31], 0)[..3];
    assert s == body + tail + "=";
    EncodeGroupsAlphabet(k[..30]);
    EncodeTripleAlphabet(k[30], k[31], 0);
    forall i | 0 <= i < |s| ensures !IsWhitespace(s[i]) && s[i] !in Cut {
      if i < |body| {
        Base64CharIsPlain(body[i]);
      } else if i < |body| + 3 {
        assert s[i] == tail[i - |body|];
        Base64CharIsPlain(tail[i - |body|]);
      } else {
        Base64CharIsPlain(s[i]);
      }
    }
  }

  /** A decimal numeral comes back from its line unchanged. */
  lemma DecimalIsValue(n: nat)
    ensures IsValueText(NatToDecimal(n))
  {
    var s := NatToDecimal(n);
    assert IsDigit(s[0]) && IsDigit(s[|s| - 1]);
  }

  /** Items joined with ", " come back from their line unchanged, when each
      is a list item free of the cut characters. */
  lemma {:induction false} JoinedListIsValue(xs: seq<string>)
    requires |xs| >= 1
    requires forall k :: 0 <= k < |xs| ==> IsListItem(xs[k], ',') && NoneIn(xs[k], Cut)
    ensures IsValueText(Join(xs, ", "))
  {
    if |xs| > 1 {
      JoinedListIsValue(xs[1..]);
      var rest := Join(xs[1..], ", ");
      var s := Join(xs, ", ");
      assert s == xs[0] + ", " + rest;
      assert s[0] == xs[0][0];
      assert s[|s| - 1] == rest[|rest| - 1];
      forall i | 0 <= i < |s| ensures s[i] !in Cut {
        if i < |xs[0]| {
        } else if i >= |xs[0]| + 2 {
          assert s[i] == rest[i - |xs[0]| - 2];
        }
      }
    }
  }

  /** An endpoint's text comes back from its line unchanged. */
  lemma EndpointIsValue(e: Endpoint)
    ensures IsValueText(EndpointText(e))
  {
    var p := NatToDecimal(e.port);
    var s := EndpointText(e);
    assert s == e.host + ":" + p;
    assert s[|s| - 1] == p[|p| - 1] && IsDigit(p[|p| - 1]);
    forall i | 0 <= i < |s| ensures !IsWhitespace(s[i]) && s[i] !in Cut {
      if i < |e.host| {
        assert IsURLHostChar(e.host[i]);
      } else if i > |e.host| {
        assert s[i] == p[i - |e.host| - 1] && IsDigit(p[i - |e.host| - 1]);
      }
    }
  }

  lemma RangeTextIsEntry(r: AddressRange)
    ensures IsListItem(AddressRangeText(r), ',') && NoneIn(AddressRangeText(r), Cut)
  {
    TunnelInterfaceModels.RangeTextIsItem(r);
    AddressRangeTextChars(r);
    AllInNoneIn(AddressRangeText(r), AddressRangeChars, Cut);
  }

  lemma ServerTextIsEntry(d: DNSServer)
    ensures IsListItem(DNSServerText(d), ',') && NoneIn(DNSServerText(d), Cut)
  {
    TunnelInterfaceModels.DNSTextIsItem(d);
    IPv4TextChars(d.address);
    AllInNoneIn(DNSServerText(d), IPv4Chars, Cut);
  }

  // ---------------------------------------------------------------- the keys written

  lemma InterfaceKeyNames()
    ensures Lowercase("PrivateKey") == "privatekey" && Lowercase("ListenPort") == "listenport"
    ensures Lowercase("Address") == "address" && Lowercase("DNS") == "dns" && Lowercase("MTU") == "mtu"
    ensures Distinct5("privatekey", "listenport", "address", "dns", "mtu")
  {
    assert "privatekey"[0] != "listenport"[0] && "dns"[0] != "mtu"[0];
  }

  lemma PeerKeyNames()
    ensures Lowercase("PublicKey") == "publickey" && Lowercase("PresharedKey") == "presharedkey"
    ensures Lowercase("AllowedIPs") == "allowedips" && Lowercase("Endpoint") == "endpoint"
    ensures Lowercase("PersistentKeepalive") == "persistentkeepalive"
    ensures Distinct5("publickey", "presharedkey", "allowedips", "endpoint", "persistentkeepalive")
  {
  }

  // ---------------------------------------------------------------- the interface section

  /** The interface's lines after its header, as entries. */
  function InterfaceEntries(i: InterfaceConfiguration): seq<Entry> {
    [Entry(true, "PrivateKey", KeyToBase64(i.privateKey)),
     Entry(i.listenPort.Some?, "ListenPort", NatToDecimal(i.listenPort.GetOr(0))),
     Entry(i.addresses != [], "Address", Join(AddressTexts(i.addresses), ", ")),
     Entry(i.dns != [] || i.dnsSearch != [], "DNS", Join(DNSTexts(i.dns) + i.dnsSearch, ", ")),
     Entry(i.mtu.Some?, "MTU", NatToDecimal(i.mtu.GetOr(0)))]
  }

  function InterfaceSection(i: InterfaceConfiguration): Section {
    Section("[Interface]", InterfaceEntries(i))
  }

  /** The interface's attributes as its lines give them. */
  function InterfaceAttributes(i: InterfaceConfiguration): map<string, string> {
    Five("privatekey", KeyToBase64(i.privateKey),
         i.listenPort.Some?, "listenport", NatToDecimal(i.listenPort.GetOr(0)),
         i.addresses != [], "address", Join(AddressTexts(i.addresses), ", "),
         i.dns != [] || i.dnsSearch != [], "dns", Join(DNSTexts(i.dns) + i.dnsSearch, ", "),
         i.mtu.Some?, "mtu", NatToDecimal(i.mtu.GetOr(0)))
  }

  /** The serialiser's interface lines are key lines. */
  lemma InterfaceLineShapes(i: InterfaceConfiguration)
    ensures "PrivateKey = " + KeyToBase64(i.privateKey) == KeyLine("PrivateKey", KeyToBase64(i.privateKey))
    ensures ListenPortLine(i) == KeyLine("ListenPort", NatToDecimal(i.listenPort.GetOr(0)))
    ensures AddressLine(i) == KeyLine("Address", Join(AddressTexts(i.addresses), ", "))
    ensures DNSLine(i) == KeyLine("DNS", Join(DNSTexts(i.dns) + i.dnsSearch, ", "))
    ensures MTULine(i) == KeyLine("MTU", NatToDecimal(i.mtu.GetOr(0)))
  {
  }

  /** The interface's lines are its section's. */
  lemma InterfaceLinesAre(i: InterfaceConfiguration)
    ensures InterfaceLines(i) == SectionLines(InterfaceSection(i))
  {
    var e0 := Entry(true, "PrivateKey", KeyToBase64(i.privateKey));
    var e1 := Entry(i.listenPort.Some?, "ListenPort", NatToDecimal(i.listenPort.GetOr(0)));
    var e2 := Entry(i.addresses != [], "Address", Join(AddressTexts(i.addresses), ", "));
    var e3 := Entry(i.dns != [] || i.dnsSearch != [], "DNS", Join(DNSTexts(i.dns) + i.dnsSearch, ", "));
    var e4 := Entry(i.mtu.Some?, "MTU", NatToDecimal(i.mtu.GetOr(0)));
    assert InterfaceEntries(i) == [e0, e1, e2, e3, e4];
    FiveLines(["[Interface]"], e0, e1, e2, e3, e4);
    InterfaceLineShapes(i);
    assert Line(e0) == ["PrivateKey = " + KeyToBase64(i.privateKey)];
    DisplayAppend(["[Interface]"], "PrivateKey = " + KeyToBase64(i.privateKey));
  }

  /** The values on the interface's lines are ones the parser keeps. */
  lemma InterfaceValues(i: InterfaceConfiguration)
    requires SearchWritable(i)
    ensures IsValueText(KeyToBase64(i.privateKey))
    ensures IsValueText(NatToDecimal(i.listenPort.GetOr(0))) && IsValueText(NatToDecimal(i.mtu.GetOr(0)))
    ensures i.addresses != [] ==> IsValueText(Join(AddressTexts(i.addresses), ", "))
    ensures i.dns != [] || i.dnsSearch != [] ==> IsValueText(Join(DNSTexts(i.dns) + i.dnsSearch, ", "))
  {
    KeyTextIsValue(i.privateKey);
    DecimalIsValue(i.listenPort.GetOr(0));
    DecimalIsValue(i.mtu.GetOr(0));
    var addresses := AddressTexts(i.addresses);
    forall k | 0 <= k < |addresses| ensures IsListItem(addresses[k], ',') && NoneIn(addresses[k], Cut) {
      RangeTextIsEntry(i.addresses[k]);
    }
    if i.addresses != [] {
      JoinedListIsValue(addresses);
    }
    var dns := DNSTexts(i.dns) + i.dnsSearch;
    forall k | 0 <= k < |dns| ensures IsListItem(dns[k], ',') && NoneIn(dns[k], Cut) {
      if k < |i.dns| {
        ServerTextIsEntry(i.dns[k]);
      }
    }
    if dns != [] {
      JoinedListIsValue(dns);
    }
  }

  lemma InterfaceKeyTexts()
    ensures IsKeyText("PrivateKey") && IsKeyText("ListenPort") && IsKeyText("Address") && IsKeyText("DNS") && IsKeyText("MTU")
  {
  }

  /** The interface's section is readable, and gives its attributes. */
  lemma InterfaceSectionReads(i: InterfaceConfiguration)
    requires SearchWritable(i)
    ensures Readable(InterfaceSection(i)) && Attributes(InterfaceSection(i)) == InterfaceAttributes(i)
  {
    var e0 := Entry(true, "PrivateKey", KeyToBase64(i.privateKey));
    var e1 := Entry(i.listenPort.Some?, "ListenPort", NatToDecimal(i.listenPort.GetOr(0)));
    var e2 := Entry(i.addresses != [], "Address", Join(AddressTexts(i.addresses), ", "));
    var e3 := Entry(i.dns != [] || i.dnsSearch != [], "DNS", Join(DNSTexts(i.dns) + i.dnsSearch, ", "));
    var e4 := Entry(i.mtu.Some?, "MTU", NatToDecimal(i.mtu.GetOr(0)));
    assert InterfaceEntries(i) == [e0, e1, e2, e3, e4];
    InterfaceKeyNames();
    InterfaceKeyTexts();
    InterfaceValues(i);
    FiveFitting(InInterfaceSection, e0, e1, e2, e3, e4, "privatekey", "listenport", "address", "dns", "mtu");
  }

  // ---------------------------------------------------------------- the peer sections

  /** A peer's lines after its header, as entries. */
  function PeerEntries(p: PeerConfiguration): seq<Entry> {
    [Entry(true, "PublicKey", KeyToBase64(p.publicKey)),
     Entry(p.preSharedKey.Some?, "PresharedKey", KeyToBase64(p.preSharedKey.GetOr(ZeroKey()))),
     Entry(p.allowedIPs != [], "AllowedIPs", Join(AddressTexts(p.allowedIPs), ", ")),
     Entry(p.endpoint.Some?, "Endpoint", EndpointText(EndpointOr(p.endpoint))),
     Entry(p.persistentKeepAlive.Some?, "PersistentKeepalive", NatToDecimal(p.persistentKeepAlive.GetOr(0)))]
  }

  function PeerSection(p: PeerConfiguration): Section {
    Section("[Peer]", PeerEntries(p))
  }

  /** A peer's attributes as its lines give them. */
  function PeerAttributes(p: PeerConfiguration): map<string, string> {
    Five("publickey", KeyToBase64(p.publicKey),
         p.preSharedKey.Some?, "presharedkey", KeyToBase64(p.preSharedKey.GetOr(ZeroKey())),
         p.allowedIPs != [], "allowedips", Join(AddressTexts(p.allowedIPs), ", "),
         p.endpoint.Some?, "endpoint", EndpointText(EndpointOr(p.endpoint)),
         p.persistentKeepAlive.Some?, "persistentkeepalive", NatToDecimal(p.persistentKeepAlive.GetOr(0)))
  }

  /** The serialiser's peer lines are key lines. */
  lemma PeerLineShapes(p: PeerConfiguration)
    ensures "PublicKey = " + KeyToBase64(p.publicKey) == KeyLine("PublicKey", KeyToBase64(p.publicKey))
    ensures PresharedKeyLine(p) == KeyLine("PresharedKey", KeyToBase64(p.preSharedKey.GetOr(ZeroKey())))
    ensures AllowedIPsLine(p) == KeyLine("AllowedIPs", Join(AddressTexts(p.allowedIPs), ", "))
    ensures EndpointLine(p) == KeyLine("Endpoint", EndpointText(EndpointOr(p.endpoint)))
    ensures PersistentKeepaliveLine(p) == KeyLine("PersistentKeepalive", NatToDecimal(p.persistentKeepAlive.GetOr(0)))
  {
  }

  /** A peer's lines are a blank line, its header and its entries'
      lines. */
  lemma PeerLinesAre(p: PeerConfiguration)
    ensures PeerLines(p) == Written(["", "[Peer]"], PeerEntries(p))
  {
    var e0 := Entry(true, "PublicKey", KeyToBase64(p.publicKey));
    var e1 := Entry(p.preSharedKey.Some?, "PresharedKey", KeyToBase64(p.preSharedKey.GetOr(ZeroKey())));
    var e2 := Entry(p.allowedIPs != [], "AllowedIPs", Join(AddressTexts(p.allowedIPs), ", "));
    var e3 := Entry(p.endpoint.Some?, "Endpoint", EndpointText(EndpointOr(p.endpoint)));
    var e4 := Entry(p.persistentKeepAlive.Some?, "PersistentKeepalive", NatToDecimal(p.persistentKeepAlive.GetOr(0)));
    assert PeerEntries(p) == [e0, e1, e2, e3, e4];
    FiveLines(["", "[Peer]"], e0, e1, e2, e3, e4);
    PeerLineShapes(p);
    assert Line(e0) == ["PublicKey = " + KeyToBase64(p.publicKey)];
    DisplayAppend(["", "[Peer]"], "PublicKey = " + KeyToBase64(p.publicKey));
  }

  /** The values on a peer's lines are ones the parser keeps. */
  lemma PeerValues(p: PeerConfiguration)
    ensures IsValueText(KeyToBase64(p.publicKey)) && IsValueText(KeyToBase64(p.preSharedKey.GetOr(ZeroKey())))
    ensures p.allowedIPs != [] ==> IsValueText(Join(AddressTexts(p.allowedIPs), ", "))
    ensures IsValueText(EndpointText(EndpointOr(p.endpoint)))
    ensures IsValueText(NatToDecimal(p.persistentKeepAlive.GetOr(0)))
  {
    KeyTextIsValue(p.publicKey);
    KeyTextIsValue(p.preSharedKey.GetOr(ZeroKey()));
    EndpointIsValue(EndpointOr(p.endpoint));
    DecimalIsValue(p.persistentKeepAlive.GetOr(0));
    var allowed := AddressTexts(p.allowedIPs);
    forall k | 0 <= k < |allowed| ensures IsListItem(allowed[k], ',') && NoneIn(allowed[k], Cut) {
      RangeTextIsEntry(p.allowedIPs[k]);
    }
    if p.allowedIPs != [] {
      JoinedListIsValue(allowed);
    }
  }

  lemma PeerKeyTexts()
    ensures IsKeyText("PublicKey") && IsKeyText("PresharedKey") && IsKeyText("AllowedIPs")
    ensures IsKeyText("Endpoint") && IsKeyText("PersistentKeepalive")
  {
  }

  /** A peer's section is readable, and gives its attributes. */
  lemma PeerSectionReads(p: PeerConfiguration)
    ensures Readable(PeerSection(p)) && Attributes(PeerSection(p)) == PeerAttributes(p)
  {
    var e0 := Entry(true, "PublicKey", KeyToBase64(p.publicKey));
    var e1 := Entry(p.preSharedKey.Some?, "PresharedKey", KeyToBase64(p.preSharedKey.GetOr(ZeroKey())));
    var e2 := Entry(p.allowedIPs != [], "AllowedIPs", Join(AddressTexts(p.allowedIPs), ", "));
    var e3 := Entry(p.endpoint.Some?, "Endpoint", EndpointText(EndpointOr(p.endpoint)));
    var e4 := Entry(p.persistentKeepAlive.Some?, "PersistentKeepalive", NatToDecimal(p.persistentKeepAlive.GetOr(0)));
    assert PeerEntries(p) == [e0, e1, e2, e3, e4];
    PeerKeyNames();
    PeerKeyTexts();
    PeerValues(p);
    FiveFitting(InPeerSection, e0, e1, e2, e3, e4, "publickey", "presharedkey", "allowedips", "endpoint", "persistentkeepalive");
  }

  /** The peers' sections, in order. */
  function PeerSectionsOf(ps: seq<PeerConfiguration>): (ss: seq<Section>)
    ensures |ss| == |ps| && forall k :: 0 <= k < |ps| ==> ss[k] == PeerSection(ps[k])
  {
    seq(|ps|, k requires 0 <= k < |ps| => PeerSection(ps[k]))
  }

  lemma PeerSectionsTail(ps: seq<PeerConfiguration>)
    requires ps != []
    ensures PeerSectionsOf(ps)[1..] == PeerSectionsOf(ps[1..])
  {
  }

  lemma PeerSectionsRead(ps: seq<PeerConfiguration>)
    ensures PeerSections(PeerSectionsOf(ps))
  {
    forall k | 0 <= k < |ps| ensures Readable(PeerSectionsOf(ps)[k]) {
      PeerSectionReads(ps[k]);
    }
  }

  // ---------------------------------------------------------------- back from the attributes

  /** What the interface's attributes hold, key by key. */
  lemma InterfaceLookups(i: InterfaceConfiguration)
    ensures var a := InterfaceAttributes(i);
      "privatekey" in a && a["privatekey"] == KeyToBase64(i.privateKey)
      && ("listenport" in a <==> i.listenPort.Some?)
      && (i.listenPort.Some? ==> a["listenport"] == NatToDecimal(i.listenPort.value))
      && ("address" in a <==> i.addresses != [])
      && (i.addresses != [] ==> a["address"] == Join(AddressTexts(i.addresses), ", "))
      && ("dns" in a <==> i.dns != [] || i.dnsSearch != [])
      && (i.dns != [] || i.dnsSearch != [] ==> a["dns"] == Join(DNSTexts(i.dns) + i.dnsSearch, ", "))
      && ("mtu" in a <==> i.mtu.Some?)
      && (i.mtu.Some? ==> a["mtu"] == NatToDecimal(i.mtu.value))
  {
    InterfaceKeyNames();
    FiveLookups("privatekey", KeyToBase64(i.privateKey),
                i.listenPort.Some?, "listenport", NatToDecimal(i.listenPort.GetOr(0)),
                i.addresses != [], "address", Join(AddressTexts(i.addresses), ", "),
                i.dns != [] || i.dnsSearch != [], "dns", Join(DNSTexts(i.dns) + i.dnsSearch, ", "),
                i.mtu.Some?, "mtu", NatToDecimal(i.mtu.GetOr(0)));
  }

  /** The DNS line's list reads back as the same servers and search
      domains. */
  lemma DNSItemsRoundTrip(i: InterfaceConfiguration)
    requires SearchWritable(i)
    ensures SplitDNS(SplitToArray(Join(DNSTexts(i.dns) + i.dnsSearch, ", "), DefaultSeparator, true)) == (i.dns, i.dnsSearch)
  {
    var items := DNSTexts(i.dns) + i.dnsSearch;
    forall k | 0 <= k < |items| ensures IsListItem(items[k], ',') {
      if k < |i.dns| {
        TunnelInterfaceModels.DNSTextIsItem(i.dns[k]);
      } else {
        assert items[k] == i.dnsSearch[k - |i.dns|];
      }
    }
    CommaListRoundTrip(items);
    TunnelInterfaceModels.SplitDNSOfTexts(i.dns, i.dnsSearch);
  }

  /** `collate(interfaceAttributes:)` gives back the interface the lines
      were written from. */
  lemma InterfaceCollate(i: InterfaceConfiguration)
    requires SearchWritable(i)
    ensures InterfaceFromAttributes(InterfaceAttributes(i)) == Success(i)
  {
    InterfaceLookups(i);
    KeyBase64RoundTrip(i.privateKey);
    if i.listenPort.Some? {
      ParseUnsignedDecimal(i.listenPort.value, UInt16Max);
    }
    if i.mtu.Some? {
      ParseUnsignedDecimal(i.mtu.value, UInt16Max);
    }
    TunnelInterfaceModels.AddressesRoundTrip(i.addresses);
    DNSItemsRoundTrip(i);
  }

  /** What a peer's attributes hold, key by key. */
  lemma PeerLookups(p: PeerConfiguration)
    ensures var a := PeerAttributes(p);
      "publickey" in a && a["publickey"] == KeyToBase64(p.publicKey)
      && ("presharedkey" in a <==> p.preSharedKey.Some?)
      && (p.preSharedKey.Some? ==> a["presharedkey"] == KeyToBase64(p.preSharedKey.value))
      && ("allowedips" in a <==> p.allowedIPs != [])
      && (p.allowedIPs != [] ==> a["allowedips"] == Join(AddressTexts(p.allowedIPs), ", "))
      && ("endpoint" in a <==> p.endpoint.Some?)
      && (p.endpoint.Some? ==> a["endpoint"] == EndpointText(p.endpoint.value))
      && ("persistentkeepalive" in a <==> p.persistentKeepAlive.Some?)
      && (p.persistentKeepAlive.Some? ==> a["persistentkeepalive"] == NatToDecimal(p.persistentKeepAlive.value))
  {
    PeerKeyNames();
    FiveLookups("publickey", KeyToBase64(p.publicKey),
                p.preSharedKey.Some?, "presharedkey", KeyToBase64(p.preSharedKey.GetOr(ZeroKey())),
                p.allowedIPs != [], "allowedips", Join(AddressTexts(p.allowedIPs), ", "),
                p.endpoint.Some?, "endpoint", EndpointText(EndpointOr(p.endpoint)),
                p.persistentKeepAlive.Some?, "persistentkeepalive", NatToDecimal(p.persistentKeepAlive.GetOr(0)));
  }

  /** `collate(peerAttributes:)` gives back the peer its lines were written
      from, when it had no transfer counters. */
  lemma PeerCollate(p: PeerConfiguration)
    requires p.rxBytes.None? && p.txBytes.None?
    ensures PeerFromAttributes(PeerAttributes(p)) == Success(p)
  {
    PeerLookups(p);
    PeerFromLookups(PeerAttributes(p), p);
  }

  /** Any attributes that hold the texts of a peer's fields under their
      keys, and no other peer key, collate back to that peer. */
  lemma PeerFromLookups(a: map<string, string>, p: PeerConfiguration)
    requires p.rxBytes.None? && p.txBytes.None?
    requires "publickey" in a && a["publickey"] == KeyToBase64(p.publicKey)
    requires ("presharedkey" in a <==> p.preSharedKey.Some?)
      && (p.preSharedKey.Some? ==> a["presharedkey"] == KeyToBase64(p.preSharedKey.value))
    requires ("allowedips" in a <==> p.allowedIPs != [])
      && (p.allowedIPs != [] ==> a["allowedips"] == Join(AddressTexts(p.allowedIPs), ", "))
    requires ("endpoint" in a <==> p.endpoint.Some?)
      && (p.endpoint.Some? ==> a["endpoint"] == EndpointText(p.endpoint.value))
    requires ("persistentkeepalive" in a <==> p.persistentKeepAlive.Some?)
      && (p.persistentKeepAlive.Some? ==> a["persistentkeepalive"] == NatToDecimal(p.persistentKeepAlive.value))
    ensures PeerFromAttributes(a) == Success(p)
  {
    KeyBase64RoundTrip(p.publicKey);
    if p.preSharedKey.Some? {
      KeyBase64RoundTrip(p.preSharedKey.value);
    }
    TunnelInterfaceModels.AddressesRoundTrip(p.allowedIPs);
    if p.endpoint.Some? {
      EndpointRoundTrip(p.endpoint.value);
    }
    if p.persistentKeepAlive.Some? {
      ParseUnsignedDecimal(p.persistentKeepAlive.value, UInt16Max);
    }
  }

  /** Closing a peer section turns the peer's attributes back into the
      peer. */
  lemma PeerCloses(p: PeerConfiguration, iface: Option<InterfaceConfiguration>, done: seq<PeerConfiguration>)
    requires p.rxBytes.None? && p.txBytes.None?
    ensures Closed(ParseState(InPeerSection, PeerAttributes(p), iface, done))
         == Success(ParseState(InPeerSection, PeerAttributes(p), iface, done + [p]))
  {
    PeerCollate(p);
  }

  /** The parser's closing turns each peer's section back into the peer,
      for peers without transfer counters. */
  lemma PeersClose(ps: seq<PeerConfiguration>)
    requires NoCounters(ps)
    ensures ClosesPeers(Closed, PeerSectionsOf(ps), ps)
  {
    var ss := PeerSectionsOf(ps);
    forall k, iface: Option<InterfaceConfiguration>, done: seq<PeerConfiguration> | 0 <= k < |ss|
      ensures Closed(ParseState(InPeerSection, Attributes(ss[k]), iface, done))
           == Success(ParseState(InPeerSection, Attributes(ss[k]), iface, done + [ps[k]]))
    {
      PeerSectionReads(ps[k]);
      PeerCloses(ps[k], iface, done);
    }
  }

  // ---------------------------------------------------------------- the text and its lines

  /** Lines with no line break in them, each followed by a newline, split
      back into the same lines and the empty piece after the last newline. */
  lemma {:induction false} SplitAllUnlines(lines: seq<string>)
    requires forall k :: 0 <= k < |lines| ==> NoneIn(lines[k], Newlines)
    ensures SplitAll(Unlines(lines), Newlines) == lines + [[]]
    decreases |lines|
  {
    if lines != [] {
      SplitAllUnlines(lines[1..]);
      assert Unlines(lines) == lines[0] + ['\n'] + Unlines(lines[1..]);
      SplitAllCons(lines[0], '\n', Unlines(lines[1..]), Newlines);
      assert lines + [[]] == [lines[0]] + (lines[1..] + [[]]);
    }
  }

  /** A section written after a blank line: the blank line is dropped, and
      no line holds a line break. */
  lemma BlankSection(s: Section)
    requires Readable(s)
    ensures NonEmpty(Written(["", s.header], s.entries)) == SectionLines(s)
    ensures forall k :: 0 <= k < |Written(["", s.header], s.entries)| ==> NoneIn(Written(["", s.header], s.entries)[k], Newlines)
  {
    var lines := SectionLines(s);
    SectionPlain(s);
    NonEmptyOfNonEmpty(lines);
    WrittenShift([""], [s.header], s.entries);
    assert [""] + [s.header] == ["", s.header];
    var all := [""] + lines;
    assert all[1..] == lines;
    forall k | 0 < k < |all| ensures NoneIn(all[k], Newlines) {
      assert all[k] == lines[k - 1];
    }
  }

  /** Sections, each written after a blank line. */
  function BlankSectionsLines(ss: seq<Section>): seq<string>
    decreases |ss|
  {
    if ss == [] then [] else Written(["", ss[0].header], ss[0].entries) + BlankSectionsLines(ss[1..])
  }

  /** Readable sections each written after a blank line: the blank lines
      are dropped, and no line holds a line break. */
  lemma {:induction false} BlankSections(ss: seq<Section>)
    requires forall k :: 0 <= k < |ss| ==> Readable(ss[k])
    ensures NonEmpty(BlankSectionsLines(ss)) == SectionsLines(ss)
    ensures forall k :: 0 <= k < |BlankSectionsLines(ss)| ==> NoneIn(BlankSectionsLines(ss)[k], Newlines)
    decreases |ss|
  {
    if ss != [] {
      var first := Written(["", ss[0].header], ss[0].entries);
      var rest := BlankSectionsLines(ss[1..]);
      assert forall k :: 0 <= k < |ss| - 1 ==> ss[1..][k] == ss[k + 1];
      BlankSections(ss[1..]);
      BlankSection(ss[0]);
      NonEmptyAppend(first, rest);
      var all := first + rest;
      forall k | 0 <= k < |all| ensures NoneIn(all[k], Newlines) {
        if k >= |first| {
          assert all[k] == rest[k - |first|];
        }
      }
    }
  }

  /** The peers' lines are their sections, each after a blank line. */
  lemma {:induction false} PeersLinesAre(ps: seq<PeerConfiguration>)
    ensures PeersLines(ps) == BlankSectionsLines(PeerSectionsOf(ps))
    decreases |ps|
  {
    if ps != [] {
      PeersLinesAre(ps[1..]);
      PeerLinesAre(ps[0]);
      PeerSectionsTail(ps);
      assert PeersLines(ps) == PeerLines(ps[0]) + PeersLines(ps[1..]);
    }
  }

  /** Lines with no line break in them, written out, split back into the
      non-empty ones. */
  lemma SplitUnlines(lines: seq<string>)
    requires forall k :: 0 <= k < |lines| ==> NoneIn(lines[k], Newlines)
    ensures Split(Unlines(lines), Newlines) == NonEmpty(lines)
  {
    SplitAllUnlines(lines);
    NonEmptyAppend(lines, [[]]);
    assert NonEmpty([[]]) == [];
  }

  /** A readable section, then readable sections each after a blank line:
      no line holds a line break, and the blank lines are dropped. */
  lemma SectionsPlain(head: Section, ss: seq<Section>)
    requires Readable(head) && forall k :: 0 <= k < |ss| ==> Readable(ss[k])
    ensures forall k :: 0 <= k < |SectionLines(head) + BlankSectionsLines(ss)|
              ==> NoneIn((SectionLines(head) + BlankSectionsLines(ss))[k], Newlines)
    ensures NonEmpty(SectionLines(head) + BlankSectionsLines(ss)) == SectionLines(head) + SectionsLines(ss)
  {
    var first := SectionLines(head);
    var rest := BlankSectionsLines(ss);
    SectionPlain(head);
    BlankSections(ss);
    var all := first + rest;
    forall k | 0 <= k < |all| ensures NoneIn(all[k], Newlines) {
      if k >= |first| {
        assert all[k] == rest[k - |first|];
      }
    }
    NonEmptyAppend(first, rest);
    NonEmptyOfNonEmpty(first);
  }

  /** The text splits into the interface's section and the peers'
      sections. */
  lemma SplitText(c: TunnelConfiguration)
    requires SearchWritable(c.interface)
    ensures Split(WgQuickText(c), Newlines)
         == SectionLines(InterfaceSection(c.interface)) + SectionsLines(PeerSectionsOf(c.peers))
  {
    InterfaceLinesAre(c.interface);
    InterfaceSectionReads(c.interface);
    PeersLinesAre(c.peers);
    PeerSectionsRead(c.peers);
    SectionsPlain(InterfaceSection(c.interface), PeerSectionsOf(c.peers));
    SplitUnlines(InterfaceLines(c.interface) + PeersLines(c.peers));
  }

  // ---------------------------------------------------------------- the round trip

  /** The parser's loop reads the text back as the interface and the peers
      it was written from, whether or not the peers' keys are distinct. */
  lemma TextReads(c: TunnelConfiguration)
    requires NoCounters(c.peers) && SearchWritable(c.interface)
    ensures var r := ParseFrom(Split(WgQuickText(c), Newlines), 0, InitialState);
      r.Success? && r.value.interface == Some(c.interface) && r.value.peers == c.peers
  {
    var i := c.interface;
    var lines := Split(WgQuickText(c), Newlines);
    var ss := PeerSectionsOf(c.peers);
    SplitText(c);
    InterfaceSectionReads(i);
    PeerSectionsRead(c.peers);
    ParserSteps();
    SectionPasses(LineStep, Closed, InterfaceSection(i));
    SectionsPass(LineStep, Closed, ss);
    PeersClose(c.peers);
    InterfaceCollate(i);
    assert Closed(InitialState) == Success(InitialState);
    RunIsParseFrom(lines, 0, InitialState);
    assert |SectionLines(InterfaceSection(i))| >= 1 by {
      WrittenAfter(["[Interface]"], InterfaceEntries(i));
    }
    TextStep(LineStep, Closed, lines, InterfaceSection(i), i, ss, c.peers);
  }

  /** The text `asWireGuardConfig()` writes reads back, through
      `TunnelConfiguration(wireGuardConfig:with:)` under the same name, as
      the configuration it was written from. */
  lemma WgQuickRoundTrip(c: TunnelConfiguration)
    requires WellFormed(c)
    ensures WgQuickParse(WgQuickText(c), c.name) == Success(c)
  {
    TextReads(c);
  }

  /** Peers that share a public key are written out, but the text is
      refused when read back. */
  lemma SharedKeyRefused(c: TunnelConfiguration)
    requires NoCounters(c.peers) && SearchWritable(c.interface) && !DistinctPublicKeys(c.peers)
    ensures WgQuickParse(WgQuickText(c), c.name) == Failure(MultiplePeersWithSamePublicKey)
  {
    TextReads(c);
  }
}
