/** Character classes, trimming, splitting, joining and decimal numerals:
    the parts of Foundation's `String` API that the tunnel code relies on,
    written out over `seq<char>`. */
module Text {
  import opened Wrappers

  /** `CharacterSet.whitespacesAndNewlines`. */
  predicate IsWhitespace(c: char) {
    c == ' ' || ('\t' <= c <= '\r') || c == '\U{85}' || c == '\U{A0}' || c == '\U{1680}'
    || ('\U{2000}' <= c <= '\U{200A}') || c == '\U{2028}' || c == '\U{2029}'
    || c == '\U{202F}' || c == '\U{205F}' || c == '\U{3000}'
  }

  /** `Character.isNewline`. */
  predicate IsNewline(c: char) {
    ('\n' <= c <= '\r') || c == '\U{85}' || c == '\U{2028}' || c == '\U{2029}'
  }

  const Newlines: set<char> := {'\n', '\U{B}', '\U{C}', '\r', '\U{85}', '\U{2028}', '\U{2029}'}

  lemma NewlinesAreNewlines(c: char)
    ensures c in Newlines <==> IsNewline(c)
  {
  }

  predicate NoneIn(s: string, cs: set<char>) {
    forall i :: 0 <= i < |s| ==> s[i] !in cs
  }

  predicate AllIn(s: string, cs: set<char>) {
    forall i :: 0 <= i < |s| ==> s[i] in cs
  }

  /** Characters drawn from one set stay clear of a disjoint one. */
  lemma AllInNoneIn(s: string, cs: set<char>, ds: set<char>)
    requires AllIn(s, cs) && cs !! ds
    ensures NoneIn(s, ds)
  {
  }

  // ---------------------------------------------------------------- trimming

  function TrimLeft(s: string): string {
    if s != [] && IsWhitespace(s[0]) then TrimLeft(s[1..]) else s
  }

  function TrimRight(s: string): string {
    if s != [] && IsWhitespace(s[|s| - 1]) then TrimRight(s[..|s| - 1]) else s
  }

  /** Trimming on the left drops a whitespace prefix and stops at the first
      other character. */
  lemma {:induction false} TrimLeftSpec(s: string)
    ensures var r := TrimLeft(s);
      |r| <= |s| && r == s[|s| - |r|..] && (r == [] || !IsWhitespace(r[0]))
      && forall i :: 0 <= i < |s| - |r| ==> IsWhitespace(s[i])
  {
    if s != [] && IsWhitespace(s[0]) {
      var t := s[1..];
      TrimLeftSpec(t);
      var r := TrimLeft(t);
      assert TrimLeft(s) == r;
      assert t[|t| - |r|..] == s[|s| - |r|..];
      forall i | 0 <= i < |s| - |r|
        ensures IsWhitespace(s[i])
      {
        if i > 0 {
          assert s[i] == t[i - 1];
        }
      }
    }
  }

  lemma {:induction false} TrimRightSpec(s: string)
    ensures var r := TrimRight(s);
      |r| <= |s| && r == s[..|r|] && (r == [] || !IsWhitespace(r[|r| - 1]))
      && forall i :: |r| <= i < |s| ==> IsWhitespace(s[i])
  {
    if s != [] && IsWhitespace(s[|s| - 1]) {
      var t := s[..|s| - 1];
      TrimRightSpec(t);
      var r := TrimRight(t);
      assert TrimRight(s) == r;
      assert t[..|r|] == s[..|r|];
      forall i | |r| <= i < |s|
        ensures IsWhitespace(s[i])
      {
        if i < |s| - 1 {
          assert s[i] == t[i];
        }
      }
    }
  }

  /** `trimmingCharacters(in: .whitespacesAndNewlines)`. */
  function Trim(s: string): (r: string)
  {
    TrimRight(TrimLeft(s))
  }

  predicate IsTrimmed(s: string) {
    s == [] || (!IsWhitespace(s[0]) && !IsWhitespace(s[|s| - 1]))
  }

  /** The trimmed text is a slice of the input with only whitespace cut off
      either side, and it neither starts nor ends with whitespace. */
  lemma TrimSpec(s: string)
    ensures IsTrimmed(Trim(s))
    ensures exists a, b :: (0 <= a <= b <= |s| && Trim(s) == s[a..b]
                           && (forall i :: 0 <= i < a ==> IsWhitespace(s[i]))
                           && (forall i :: b <= i < |s| ==> IsWhitespace(s[i])))
  {
    var l := TrimLeft(s);
    var r := TrimRight(l);
    TrimLeftSpec(s);
    TrimRightSpec(l);
    if r != [] {
      assert r[0] == l[0];
    }
    var a := |s| - |l|;
    var b := a + |r|;
    assert r == l[..|r|] && l == s[a..];
    assert r == s[a..b];
    forall i | b <= i < |s|
      ensures IsWhitespace(s[i])
    {
      assert s[i] == l[i - a];
    }
    assert 0 <= a <= b <= |s| && Trim(s) == s[a..b]
      && (forall i :: 0 <= i < a ==> IsWhitespace(s[i]))
      && (forall i :: b <= i < |s| ==> IsWhitespace(s[i]));
  }

  lemma TrimOfTrimmed(s: string)
    requires IsTrimmed(s)
    ensures Trim(s) == s
  {
  }

  lemma {:induction false} TrimLeftPadded(w: string, s: string)
    requires forall i :: 0 <= i < |w| ==> IsWhitespace(w[i])
    requires s == [] || !IsWhitespace(s[0])
    ensures TrimLeft(w + s) == s
  {
    if w != [] {
      assert (w + s)[1..] == w[1..] + s;
      TrimLeftPadded(w[1..], s);
    }
  }

  lemma {:induction false} TrimRightPadded(s: string, w: string)
    requires forall i :: 0 <= i < |w| ==> IsWhitespace(w[i])
    requires s == [] || !IsWhitespace(s[|s| - 1])
    ensures TrimRight(s + w) == s
  {
    if w != [] {
      assert (s + w)[..|s + w| - 1] == s + w[..|w| - 1];
      TrimRightPadded(s, w[..|w| - 1]);
    }
  }

  /** Whitespace put around a trimmed text is taken off again. */
  lemma TrimPadded(w1: string, s: string, w2: string)
    requires forall i :: 0 <= i < |w1| ==> IsWhitespace(w1[i])
    requires forall i :: 0 <= i < |w2| ==> IsWhitespace(w2[i])
    requires IsTrimmed(s)
    ensures Trim(w1 + s + w2) == s
  {
    if s == [] {
      assert w1 + s + w2 == w1 + w2;
      TrimLeftPadded(w1 + w2, []);
      assert w1 + w2 + [] == w1 + w2;
    } else {
      assert w1 + s + w2 == w1 + (s + w2);
      TrimLeftPadded(w1, s + w2);
      TrimRightPadded(s, w2);
    }
  }

  // ---------------------------------------------------------------- case

  /** An ASCII capital becomes the same letter in lower case, 32 code
      points on; every other character is kept. */
  function LowerChar(c: char): (r: char)
    ensures 'A' <= c <= 'Z' ==> 'a' <= r <= 'z' && r as int == c as int + 32
    ensures !('A' <= c <= 'Z') ==> r == c
  {
    if 'A' <= c <= 'Z' then (c as int - 'A' as int + 'a' as int) as char else c
  }

  /** An ASCII small letter becomes the same letter in upper case, 32 code
      points back; every other character is kept. */
  function UpperChar(c: char): (r: char)
    ensures 'a' <= c <= 'z' ==> 'A' <= r <= 'Z' && r as int == c as int - 32
    ensures !('a' <= c <= 'z') ==> r == c
  {
    if 'a' <= c <= 'z' then (c as int - 'a' as int + 'A' as int) as char else c
  }

  /** On ASCII letters the two cases undo each other. */
  lemma CaseRoundTrip(c: char)
    ensures 'A' <= c <= 'Z' ==> UpperChar(LowerChar(c)) == c
    ensures 'a' <= c <= 'z' ==> LowerChar(UpperChar(c)) == c
  {
  }

  /** `lowercased()`, on the ASCII letters. */
  function Lowercase(s: string): (r: string)
    ensures |r| == |s| && forall i :: 0 <= i < |s| ==> r[i] == LowerChar(s[i])
  {
    seq(|s|, i requires 0 <= i < |s| => LowerChar(s[i]))
  }

  /** `uppercased()`, on the ASCII letters. */
  function Uppercase(s: string): (r: string)
    ensures |r| == |s| && forall i :: 0 <= i < |s| ==> r[i] == UpperChar(s[i])
  {
    seq(|s|, i requires 0 <= i < |s| => UpperChar(s[i]))
  }

  lemma UppercaseIdempotent(s: string)
    ensures Uppercase(Uppercase(s)) == Uppercase(s)
  {
  }

  // ---------------------------------------------------------------- search

  /** The first position of a character from `cs`. */
  function FirstIndexIn(s: string, cs: set<char>): (r: Option<nat>)
    ensures r.Some? ==> r.value < |s| && s[r.value] in cs && NoneIn(s[..r.value], cs)
    ensures r.None? ==> NoneIn(s, cs)
  {
    if s == [] then None
    else if s[0] in cs then Some(0)
    else match FirstIndexIn(s[1..], cs)
      case None => None
      case Some(i) => Some(i + 1)
  }

  lemma {:induction false} FirstIndexOfPrefixed(a: string, c: char, b: string, cs: set<char>)
    requires NoneIn(a, cs) && c in cs
    ensures FirstIndexIn(a + [c] + b, cs) == Some(|a|)
  {
    if a == [] {
      assert (a + [c] + b)[0] == c;
    } else {
      assert a[0] !in cs;
      assert (a + [c] + b)[1..] == a[1..] + [c] + b;
      FirstIndexOfPrefixed(a[1..], c, b, cs);
    }
  }

  predicate OccursAt(s: string, sub: string, i: nat) {
    i + |sub| <= |s| && s[i..i + |sub|] == sub
  }

  /** `contains(_:)` on substrings. */
  predicate ContainsSubstring(s: string, sub: string) {
    exists i: nat | i <= |s| :: OccursAt(s, sub, i)
  }

  // ---------------------------------------------------------------- split and join

  /** Every piece between separators, empty pieces included. */
  function SplitAll(s: string, seps: set<char>): (r: seq<string>)
    ensures |r| >= 1
    ensures forall k :: 0 <= k < |r| ==> NoneIn(r[k], seps)
    decreases |s|
  {
    match FirstIndexIn(s, seps)
    case None => [s]
    case Some(i) => [s[..i]] + SplitAll(s[i + 1..], seps)
  }

  function NonEmpty(xs: seq<string>): (r: seq<string>)
    ensures |r| <= |xs|
    ensures forall k :: 0 <= k < |r| ==> r[k] != []
  {
    if xs == [] then []
    else if xs[0] == [] then NonEmpty(xs[1..])
    else [xs[0]] + NonEmpty(xs[1..])
  }

  /** `split(separator:)` with Swift's default of omitting empty pieces. */
  function Split(s: string, seps: set<char>): seq<string> {
    NonEmpty(SplitAll(s, seps))
  }

  lemma SplitAllNoSeparator(s: string, seps: set<char>)
    requires NoneIn(s, seps)
    ensures SplitAll(s, seps) == [s]
  {
  }

  lemma SplitAllCons(a: string, c: char, b: string, seps: set<char>)
    requires NoneIn(a, seps) && c in seps
    ensures SplitAll(a + [c] + b, seps) == [a] + SplitAll(b, seps)
  {
    FirstIndexOfPrefixed(a, c, b, seps);
    assert (a + [c] + b)[..|a|] == a;
    assert (a + [c] + b)[|a| + 1..] == b;
  }

  lemma {:induction false} NonEmptyAppend(xs: seq<string>, ys: seq<string>)
    ensures NonEmpty(xs + ys) == NonEmpty(xs) + NonEmpty(ys)
  {
    if xs == [] {
      assert xs + ys == ys;
    } else {
      assert (xs + ys)[0] == xs[0];
      assert (xs + ys)[1..] == xs[1..] + ys;
      NonEmptyAppend(xs[1..], ys);
    }
  }

  lemma NonEmptyOfNonEmpty(xs: seq<string>)
    requires forall k :: 0 <= k < |xs| ==> xs[k] != []
    ensures NonEmpty(xs) == xs
  {
  }

  /** `joined(separator:)`. */
  function Join(xs: seq<string>, sep: string): string {
    if xs == [] then []
    else if |xs| == 1 then xs[0]
    else xs[0] + sep + Join(xs[1..], sep)
  }

  /** Joining pieces drawn from a character set with a separator from the
      same set stays within the set. */
  lemma {:induction false} JoinAllIn(xs: seq<string>, sep: string, cs: set<char>)
    requires forall k :: 0 <= k < |xs| ==> AllIn(xs[k], cs)
    requires AllIn(sep, cs)
    ensures AllIn(Join(xs, sep), cs)
  {
    if |xs| > 1 {
      JoinAllIn(xs[1..], sep, cs);
      var rest := Join(xs[1..], sep);
      assert Join(xs, sep) == xs[0] + sep + rest;
      forall i | 0 <= i < |Join(xs, sep)| ensures Join(xs, sep)[i] in cs {
        if i < |xs[0]| {
        } else if i < |xs[0]| + |sep| {
          assert Join(xs, sep)[i] == sep[i - |xs[0]|];
        } else {
          assert Join(xs, sep)[i] == rest[i - |xs[0]| - |sep|];
        }
      }
    }
  }

  /** Splitting what was joined with a one-character separator gives the
      pieces back, when no piece holds the separator. */
  lemma {:induction false} SplitAllJoin(xs: seq<string>, c: char)
    requires |xs| >= 1
    requires forall k :: 0 <= k < |xs| ==> NoneIn(xs[k], {c})
    ensures SplitAll(Join(xs, [c]), {c}) == xs
  {
    if |xs| == 1 {
      SplitAllNoSeparator(xs[0], {c});
    } else {
      assert Join(xs, [c]) == xs[0] + [c] + Join(xs[1..], [c]);
      SplitAllCons(xs[0], c, Join(xs[1..], [c]), {c});
      SplitAllJoin(xs[1..], c);
    }
  }

  /** Joining what was split gives the text back. */
  lemma {:induction false} JoinSplitAll(s: string, c: char)
    ensures Join(SplitAll(s, {c}), [c]) == s
    decreases |s|
  {
    var r := FirstIndexIn(s, {c});
    if r.Some? {
      var i := r.value;
      var rest := SplitAll(s[i + 1..], {c});
      assert SplitAll(s, {c}) == [s[..i]] + rest;
      JoinSplitAll(s[i + 1..], c);
      assert ([s[..i]] + rest)[1..] == rest;
      assert Join([s[..i]] + rest, [c]) == s[..i] + [c] + Join(rest, [c]);
      assert s == s[..i] + [c] + s[i + 1..];
    }
  }

  // ---------------------------------------------------------------- decimal numerals

  predicate IsDigit(c: char) {
    '0' <= c <= '9'
  }

  predicate AllDigits(s: string) {
    forall i :: 0 <= i < |s| ==> IsDigit(s[i])
  }

  const DigitChars: set<char> := {'0', '1', '2', '3', '4', '5', '6', '7', '8', '9'}

  lemma DigitsAllIn(s: string)
    requires AllDigits(s)
    ensures AllIn(s, DigitChars)
  {
    forall i | 0 <= i < |s| ensures s[i] in DigitChars {
      var c := s[i];
      assert '0' <= c <= '9';
      if c == '0' {} else if c == '1' {} else if c == '2' {} else if c == '3' {} else if c == '4' {}
      else if c == '5' {} else if c == '6' {} else if c == '7' {} else if c == '8' {} else { assert c == '9'; }
    }
  }

  function DigitChar(d: nat): (c: char)
    requires d < 10
    ensures IsDigit(c)
  {
    ('0' as int + d) as char
  }

  function DigitsValue(s: string): nat
    requires AllDigits(s)
  {
    if s == [] then 0 else DigitsValue(s[..|s| - 1]) * 10 + (s[|s| - 1] as int - '0' as int)
  }

  /** `String(n)` / `n.description` for a non-negative integer. */
  function NatToDecimal(n: nat): (r: string)
    ensures r != [] && AllDigits(r)
    decreases n
  {
    if n < 10 then [DigitChar(n)] else NatToDecimal(n / 10) + [DigitChar(n % 10)]
  }

  lemma {:induction false} DecimalValue(n: nat)
    ensures DigitsValue(NatToDecimal(n)) == n
    decreases n
  {
    if n >= 10 {
      var s := NatToDecimal(n);
      assert s[..|s| - 1] == NatToDecimal(n / 10);
      DecimalValue(n / 10);
    }
  }

  /** `UInt16(text)`, `UInt64(text)`: an optional sign then at least one
      digit, and a value within the type's range; after a '-' only zero is
      in range. */
  function ParseUnsigned(s: string, max: nat): (r: Option<nat>)
    ensures r.Some? ==> r.value <= max
    ensures r.Some? && s != [] && s[0] == '-' ==> r.value == 0
  {
    var negative := s != [] && s[0] == '-';
    var digits := if s != [] && (s[0] == '+' || s[0] == '-') then s[1..] else s;
    if digits != [] && AllDigits(digits) && DigitsValue(digits) <= max && (!negative || DigitsValue(digits) == 0)
    then Some(DigitsValue(digits)) else None
  }

  /** `Int64(text)`: an optional sign then at least one digit, and a value
      within [min, max]. */
  function ParseSigned(s: string, min: int, max: int): (r: Option<int>)
    ensures r.Some? ==> min <= r.value <= max
  {
    var negative := s != [] && s[0] == '-';
    var digits := if s != [] && (s[0] == '+' || s[0] == '-') then s[1..] else s;
    if digits != [] && AllDigits(digits) then
      var v := if negative then -(DigitsValue(digits) as int) else DigitsValue(digits) as int;
      if min <= v <= max then Some(v) else None
    else None
  }

  const UInt16Max: nat := 65535
  const UInt64Max: nat := 0xFFFF_FFFF_FFFF_FFFF
  const Int64Min: int := -0x8000_0000_0000_0000
  const Int64Max: int := 0x7FFF_FFFF_FFFF_FFFF

  /** Printing a number and parsing it back gives the number. */
  lemma ParseUnsignedDecimal(n: nat, max: nat)
    requires n <= max
    ensures ParseUnsigned(NatToDecimal(n), max) == Some(n)
  {
    DecimalValue(n);
  }

  lemma ParseSignedDecimal(n: nat, min: int, max: int)
    requires min <= n <= max
    ensures ParseSigned(NatToDecimal(n), min, max) == Some(n)
  {
    DecimalValue(n);
  }
}
