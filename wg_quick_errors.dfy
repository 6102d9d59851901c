/** How `TunnelConfiguration(wireGuardConfig:with:)` refuses a text
    (Shared/Extentions/TunnelConfiguration+WireGuardConfig.swift): one
    lemma per error the parser reports, first for the single line that
    raises it, then, for the errors only a whole text can raise, for texts
    the serialiser writes. */
module WgQuickErrors {
  import opened Wrappers
  import opened Text
  import opened WireGuardKit
  import opened ConfigurationParsing
  import opened WireGuardConfig
  import opened WgQuickRoundTrip

  // ---------------------------------------------------------------- one line

  /** The state after a line, given what adding its attribute gave. */
  function AfterAdding(st: ParseState, added: Result<map<string, string>, ConfigurationParseError>, isLastLine: bool)
    : Result<ParseState, ConfigurationParseError>
  {
    match added
    case Failure(e) => Failure(e)
    case Success(a) => if isLastLine then Closed(st.(attributes := a)) else Success(st.(attributes := a))
  }

  /** A "Key = value" line is an attribute line: the state after it is what
      adding the attribute gives. */
  lemma KeyLineStep(st: ParseState, key: string, value: string, isLastLine: bool)
    requires IsKeyText(key) && IsValueText(value)
    ensures LineStep(st, KeyLine(key, value), isLastLine)
         == AfterAdding(st, AddAttribute(st.section, st.attributes, KeyLine(key, value), KeyLine(key, value)), isLastLine)
  {
    KeyLineParts(key, value);
    var lower := Lowercase(KeyLine(key, value));
    assert lower != "[interface]" && lower != "[peer]";
  }

  /** A line that is neither blank, nor a header, nor holds an '=' is an
      invalid line, wherever it stands. */
  lemma InvalidLineStep(st: ParseState, line: string, isLastLine: bool)
    requires Trim(StripComment(line)) != [] && NoneIn(Trim(StripComment(line)), {'='})
    requires !IsSectionHeader(Lowercase(Trim(StripComment(line))))
    ensures LineStep(st, line, isLastLine) == Failure(InvalidLine(line))
  {
    var trimmed := Trim(StripComment(line));
    assert FirstIndexIn(trimmed, {'='}).None?;
  }

  /** A key the section already holds: a second entry for a key that allows
      only one is refused, naming the key as written; a second entry for a
      list key the section accepts is joined to the first with a comma. */
  lemma RepeatedKeyStep(st: ParseState, key: string, value: string, isLastLine: bool)
    requires IsKeyText(key) && IsValueText(value) && Lowercase(key) in st.attributes
    ensures Lowercase(key) !in KeysWithMultipleEntriesAllowed
            ==> LineStep(st, KeyLine(key, value), isLastLine) == Failure(MultipleEntriesForKey(key))
    ensures Lowercase(key) in KeysWithMultipleEntriesAllowed && SectionKey(st.section, Lowercase(key))
            ==> LineStep(st, KeyLine(key, value), false)
                == Success(st.(attributes := st.attributes[Lowercase(key) := st.attributes[Lowercase(key)] + "," + value]))
  {
    KeyLineParts(key, value);
    KeyLineStep(st, key, value, isLastLine);
    KeyLineStep(st, key, value, false);
  }

  /** A key the current section does not know is refused, naming the key as
      written; before the first header no key is checked. */
  lemma UnrecognizedKeyStep(st: ParseState, key: string, value: string, isLastLine: bool)
    requires IsKeyText(key) && IsValueText(value)
    requires Lowercase(key) !in st.attributes || Lowercase(key) in KeysWithMultipleEntriesAllowed
    ensures st.section == InInterfaceSection && Lowercase(key) !in InterfaceSectionKeys
            ==> LineStep(st, KeyLine(key, value), isLastLine) == Failure(InterfaceHasUnrecognizedKey(key))
    ensures st.section == InPeerSection && Lowercase(key) !in PeerSectionKeys
            ==> LineStep(st, KeyLine(key, value), isLastLine) == Failure(PeerHasUnrecognizedKey(key))
    ensures st.section == NotInASection && Lowercase(key) !in st.attributes
            ==> LineStep(st, KeyLine(key, value), false) == Success(st.(attributes := st.attributes[Lowercase(key) := value]))
  {
    KeyLineParts(key, value);
    KeyLineStep(st, key, value, isLastLine);
    KeyLineStep(st, key, value, false);
  }

  /** A header after an interface section, when an interface was already
      read, is refused: a configuration has one interface. */
  lemma SecondInterfaceStep(st: ParseState, header: string)
    requires header == "[Interface]" || header == "[Peer]"
    requires st.section == InInterfaceSection && st.interface.Some? && InterfaceFromAttributes(st.attributes).Success?
    ensures LineStep(st, header, false) == Failure(MultipleInterfaces)
  {
    HeaderLineStep(st, header);
  }

  // ---------------------------------------------------------------- whole texts

  /** A section written twice, where the first closes as `c` and the
      second then fails to close: the loop fails the same way. */
  lemma SectionTwiceStep(step: Stepper, close: Closer, lines: seq<string>, s: Section, c: ParseState,
                         e: ConfigurationParseError)
    requires PassesOver(step, close, s) && close(InitialState) == Success(InitialState)
    requires close(Entered(s, InitialState)) == Success(c) && close(Entered(s, c)) == Failure(e)
    requires lines == SectionLines(s) + SectionLines(s) && |SectionLines(s)| >= 1
    ensures Run(step, lines, 0, InitialState) == Failure(e)
  {
    var once := SectionLines(s);
    LinesAtSplit(lines, 0, once, once);
    assert lines[0..|lines|] == lines;
    var first := Entered(s, InitialState);
    assert Resume(step, close, lines, 0, InitialState) == Resume(step, close, lines, |once|, first);
    assert close(first).value == c;
    assert Resume(step, close, lines, |once|, first) == Resume(step, close, lines, |lines|, Entered(s, c));
  }

  /** Peer sections alone: the loop reads the peers and no interface. */
  lemma PeersOnlyStep(step: Stepper, close: Closer, lines: seq<string>, ss: seq<Section>, ps: seq<PeerConfiguration>)
    requires PeersPass(step, close, ss) && ClosesPeers(close, ss, ps)
    requires close(InitialState) == Success(InitialState) && lines == SectionsLines(ss)
    ensures var r := Run(step, lines, 0, InitialState);
      r.Success? && r.value.interface.None? && r.value.peers == ps
  {
    assert lines[0..|lines|] == lines;
    PeersStep(step, close, lines, 0, InitialState, InitialState, ss, ps);
    if ss != [] {
      assert [] + ps == ps;
    }
  }

  /** The interface's lines twice over split into its section twice. */
  lemma InterfaceTwiceSplits(i: InterfaceConfiguration)
    requires SearchWritable(i)
    ensures var once := SectionLines(InterfaceSection(i));
      Split(Unlines(InterfaceLines(i) + InterfaceLines(i)), Newlines) == once + once && |once| >= 1
  {
    var h := InterfaceSection(i);
    var once := SectionLines(h);
    var lines := once + once;
    InterfaceLinesAre(i);
    InterfaceSectionReads(i);
    SectionPlain(h);
    forall k | 0 <= k < |lines| ensures lines[k] != [] && NoneIn(lines[k], Newlines) {
      if k >= |once| {
        assert lines[k] == once[k - |once|];
      }
    }
    NonEmptyOfNonEmpty(lines);
    SplitUnlines(lines);
    WrittenAfter(["[Interface]"], InterfaceEntries(i));
  }

  /** Closing the interface's section reads the interface, and closing it
      once more, with the interface read, fails. */
  lemma InterfaceClosesOnce(i: InterfaceConfiguration)
    requires SearchWritable(i)
    ensures var h := InterfaceSection(i);
      Closed(Entered(h, InitialState)) == Success(Entered(h, InitialState).(interface := Some(i)))
      && Closed(Entered(h, Entered(h, InitialState).(interface := Some(i)))) == Failure(MultipleInterfaces)
  {
    InterfaceSectionReads(i);
    InterfaceCollate(i);
  }

  /** The interface's lines written twice are refused: the second section
      closes when an interface is already read. */
  lemma InterfaceTwiceRefused(i: InterfaceConfiguration, name: Option<string>)
    requires SearchWritable(i)
    ensures WgQuickParse(Unlines(InterfaceLines(i) + InterfaceLines(i)), name) == Failure(MultipleInterfaces)
  {
    var h := InterfaceSection(i);
    var lines := Split(Unlines(InterfaceLines(i) + InterfaceLines(i)), Newlines);
    InterfaceTwiceSplits(i);
    InterfaceSectionReads(i);
    ParserSteps();
    SectionPasses(LineStep, Closed, h);
    InterfaceClosesOnce(i);
    assert Closed(InitialState) == Success(InitialState);
    SectionTwiceStep(LineStep, Closed, lines, h, Entered(h, InitialState).(interface := Some(i)), MultipleInterfaces);
    RunIsParseFrom(lines, 0, InitialState);
  }

  /** The peers' lines split into their sections. */
  lemma PeersSplit(ps: seq<PeerConfiguration>)
    ensures Split(Unlines(PeersLines(ps)), Newlines) == SectionsLines(PeerSectionsOf(ps))
  {
    PeersLinesAre(ps);
    PeerSectionsRead(ps);
    BlankSections(PeerSectionsOf(ps));
    SplitUnlines(PeersLines(ps));
  }

  /** Peer sections with no interface section are refused: for a missing
      interface, or first, when two peers share a public key, for that. */
  lemma PeersOnlyRefused(ps: seq<PeerConfiguration>, name: Option<string>)
    requires NoCounters(ps)
    ensures WgQuickParse(Unlines(PeersLines(ps)), name)
         == if DistinctPublicKeys(ps) then Failure(NoInterface) else Failure(MultiplePeersWithSamePublicKey)
  {
    var ss := PeerSectionsOf(ps);
    var lines := SectionsLines(ss);
    PeersSplit(ps);
    PeerSectionsRead(ps);
    ParserSteps();
    SectionsPass(LineStep, Closed, ss);
    PeersClose(ps);
    assert Closed(InitialState) == Success(InitialState);
    PeersOnlyStep(LineStep, Closed, lines, ss, ps);
    RunIsParseFrom(lines, 0, InitialState);
  }
}
