/** `String.splitToArray(separator:trimmingCharacters:)` and its `Optional`
    twin (Shared/Extentions/String+ArrayConversion.swift). The only trimming
    set the code passes is `.whitespacesAndNewlines`, so trimming is a flag. */
module ArrayConversion {
  import opened Wrappers
  import opened Text

  const DefaultSeparator: char := ','

  /** Split on the separator, drop empty pieces, then trim each piece when
      asked to. */
  function SplitToArray(s: string, separator: char, trimming: bool): seq<string> {
    var pieces := Split(s, {separator});
    seq(|pieces|, k requires 0 <= k < |pieces| => if trimming then Trim(pieces[k]) else pieces[k])
  }

  /** `Optional<String>.splitToArray`: nil gives no pieces. */
  function SplitOptionalToArray(s: Option<string>, separator: char, trimming: bool): (r: seq<string>)
    ensures s.None? ==> r == []
    ensures s.Some? ==> r == SplitToArray(s.value, separator, trimming)
  {
    match s
    case None => []
    case Some(t) => SplitToArray(t, separator, trimming)
  }

  /** Without trimming the pieces are those of the plain split, and every
      one is a non-empty run of the input that holds no separator. */
  lemma VerbatimPieces(s: string, separator: char)
    ensures var r := SplitToArray(s, separator, false);
      r == Split(s, {separator})
      && forall k :: 0 <= k < |r| ==> r[k] != [] && NoneIn(r[k], {separator})
  {
    var all := SplitAll(s, {separator});
    NonEmptyKeepsPieces(all, {separator});
  }

  lemma {:induction false} NonEmptyKeepsPieces(xs: seq<string>, seps: set<char>)
    requires forall k :: 0 <= k < |xs| ==> NoneIn(xs[k], seps)
    ensures forall k :: 0 <= k < |NonEmpty(xs)| ==> NoneIn(NonEmpty(xs)[k], seps)
  {
    if xs != [] {
      NonEmptyKeepsPieces(xs[1..], seps);
    }
  }

  /** With trimming every piece is trimmed; a piece is empty only when the
      run it came from was made of whitespace alone. */
  lemma TrimmedPieces(s: string, separator: char, k: nat)
    requires k < |SplitToArray(s, separator, true)|
    ensures var r := SplitToArray(s, separator, true);
      var raw := Split(s, {separator})[k];
      IsTrimmed(r[k]) && raw != []
      && (r[k] == [] <==> forall i :: 0 <= i < |raw| ==> IsWhitespace(raw[i]))
  {
    var raw := Split(s, {separator})[k];
    TrimSpec(raw);
    if Trim(raw) == [] {
      var a, b :| 0 <= a <= b <= |raw| && Trim(raw) == raw[a..b]
                  && (forall i :: 0 <= i < a ==> IsWhitespace(raw[i]))
                  && (forall i :: b <= i < |raw| ==> IsWhitespace(raw[i]));
      assert a == b;
      forall i | 0 <= i < |raw| ensures IsWhitespace(raw[i]) {
        if i >= a { assert i >= b; }
      }
    } else {
      assert !IsWhitespace(Trim(raw)[0]);
      var a, b :| 0 <= a <= b <= |raw| && Trim(raw) == raw[a..b];
      assert raw[a] == Trim(raw)[0];
    }
  }

  function AllSpaced(xs: seq<string>): (r: seq<string>)
    ensures |r| == |xs| && forall k :: 0 <= k < |xs| ==> r[k] == " " + xs[k]
  {
    seq(|xs|, k requires 0 <= k < |xs| => " " + xs[k])
  }

  lemma {:induction false} SpaceJoin(xs: seq<string>)
    requires |xs| >= 1
    ensures " " + Join(xs, ", ") == Join(AllSpaced(xs), ",")
  {
    if |xs| > 1 {
      SpaceJoin(xs[1..]);
      assert AllSpaced(xs)[1..] == AllSpaced(xs[1..]);
      assert " " + Join(xs, ", ") == (" " + xs[0]) + "," + (" " + Join(xs[1..], ", "));
    }
  }

  predicate IsListItem(x: string, separator: char) {
    x != [] && IsTrimmed(x) && NoneIn(x, {separator})
  }

  /** Items joined with ", " are the same text as the items joined with ","
      after a space is put in front of every item but the first. */
  lemma {:induction false} CommaSpaceAsComma(xs: seq<string>)
    requires |xs| >= 1
    ensures Join(xs, ", ") == Join([xs[0]] + AllSpaced(xs[1..]), ",")
  {
    var raw := [xs[0]] + AllSpaced(xs[1..]);
    if |xs| > 1 {
      var tail := Join(xs[1..], ", ");
      var spaced := Join(AllSpaced(xs[1..]), ",");
      SpaceJoin(xs[1..]);
      assert " " + tail == spaced;
      assert raw[1..] == AllSpaced(xs[1..]);
      assert Join(raw, ",") == xs[0] + "," + spaced;
      assert Join(xs, ", ") == xs[0] + ", " + tail;
      assert xs[0] + ", " + tail == xs[0] + "," + (" " + tail);
    } else {
      assert raw == [xs[0]];
    }
  }

  lemma SpacedItemsTrim(xs: seq<string>, raw: seq<string>)
    requires |xs| >= 1 && raw == [xs[0]] + AllSpaced(xs[1..])
    requires forall k :: 0 <= k < |xs| ==> IsListItem(xs[k], ',')
    ensures forall k :: 0 <= k < |raw| ==> NoneIn(raw[k], {','}) && raw[k] != []
    ensures forall k :: 0 <= k < |raw| ==> Trim(raw[k]) == xs[k]
  {
    forall k | 0 <= k < |raw| ensures NoneIn(raw[k], {','}) && raw[k] != [] && Trim(raw[k]) == xs[k] {
      if k == 0 {
        TrimOfTrimmed(xs[0]);
      } else {
        assert raw[k] == " " + xs[k] + "";
        TrimPadded(" ", xs[k], "");
      }
    }
  }

  /** The list writer's format (items joined with ", ") reads back, through
      the trimming split on ',', as the same items. */
  lemma CommaListRoundTrip(xs: seq<string>)
    requires forall k :: 0 <= k < |xs| ==> IsListItem(xs[k], ',')
    ensures SplitToArray(Join(xs, ", "), ',', true) == xs
  {
    if xs == [] {
      assert SplitAll([], {','}) == [[]];
    } else {
      var text := Join(xs, ", ");
      var raw := [xs[0]] + AllSpaced(xs[1..]);
      CommaSpaceAsComma(xs);
      SpacedItemsTrim(xs, raw);
      SplitAllJoin(raw, ',');
      assert SplitAll(text, {','}) == raw;
      NonEmptyOfNonEmpty(raw);
      var r := SplitToArray(text, ',', true);
      assert |r| == |xs|;
      forall k | 0 <= k < |xs| ensures r[k] == xs[k] {
        assert r[k] == Trim(raw[k]);
      }
    }
  }
}
