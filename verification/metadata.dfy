/**
 * Track-number recovery from a title, and the blank-to-null clean-up of
 * text tags. Three patterns are tried in order: a leading number followed
 * by separators (`^(\d+)[.\s-]+`), then a bracketed number (`\[(\d+)\]`),
 * then a parenthesised one (`\((\d+)\)`); only each pattern's first match
 * is read, and digits that do not fit an Int move on to the next pattern.
 */
module Metadata {
  import opened Optional
  import opened Text

  const IntMax: int := 0x7FFF_FFFF

  /** `toIntOrNull` on a run of decimal digits. */
  function ToIntOrNull(digits: string): (r: Option<int>)
    requires AllDigits(digits)
    ensures r.Some? <==> DigitsValue(digits) <= IntMax
    ensures r.Some? ==> r.value == DigitsValue(digits) && 0 <= r.value <= IntMax
  {
    if DigitsValue(digits) <= IntMax then Some(DigitsValue(digits)) else None
  }

  /** The length of the run of digits starting at `from`. */
  function DigitRun(s: string, from: nat): (n: nat)
    requires from <= |s|
    ensures from + n <= |s| && AllDigits(s[from..from + n])
    ensures from + n < |s| ==> !IsDigit(s[from + n])
    decreases |s| - from
  {
    if from < |s| && IsDigit(s[from]) then
      var k := DigitRun(s, from + 1);
      assert s[from..from + 1 + k] == [s[from]] + s[from + 1..from + 1 + k];
      1 + k
    else 0
  }

  /** The separators of the first pattern: '.', '-' and the regex class `\s`. */
  predicate IsSeparator(c: char) {
    c == '.' || c == '-' || IsRegexSpace(c)
  }

  datatype Pattern = LeadingNumber | Enclosed(open: char, close: char)

  /** The pattern list, in the order the extractor tries it. */
  const Patterns: seq<Pattern> := [LeadingNumber, Enclosed('[', ']'), Enclosed('(', ')')]

  /** `^(\d+)[.\s-]+` matches: digits from the start, then at least one separator. */
  predicate LeadingMatch(s: string) {
    DigitRun(s, 0) >= 1 && DigitRun(s, 0) < |s| && IsSeparator(s[DigitRun(s, 0)])
  }

  /** An enclosed number starts at index i: the opener, one or more digits, the closer. */
  predicate EnclosedAt(s: string, open: char, close: char, i: nat) {
    i < |s| && s[i] == open &&
    DigitRun(s, i + 1) >= 1 && i + 1 + DigitRun(s, i + 1) < |s| && s[i + 1 + DigitRun(s, i + 1)] == close
  }

  /** The leftmost index from `from` on where an enclosed number starts: what `find` returns first. */
  function FindEnclosed(s: string, open: char, close: char, from: nat): (r: Option<nat>)
    requires from <= |s|
    ensures r.Some? ==> from <= r.value < |s| && EnclosedAt(s, open, close, r.value)
    ensures forall j :: from <= j < (if r.Some? then r.value else |s|) ==> !EnclosedAt(s, open, close, j)
    decreases |s| - from
  {
    if from == |s| then None
    else if EnclosedAt(s, open, close, from) then Some(from)
    else FindEnclosed(s, open, close, from + 1)
  }

  /** The digits a pattern's first match captures, if it matches at all. */
  function Captured(p: Pattern, s: string): (d: Option<string>)
    ensures d.Some? ==> |d.value| >= 1 && AllDigits(d.value)
  {
    match p
    case LeadingNumber =>
      if LeadingMatch(s) then Some(s[..DigitRun(s, 0)]) else None
    case Enclosed(open, close) =>
      match FindEnclosed(s, open, close, 0)
      case Some(i) => Some(s[i + 1..i + 1 + DigitRun(s, i + 1)])
      case None => None
  }

  /** The loop over the patterns with its early return. */
  function TryPatterns(ps: seq<Pattern>, s: string): Option<int>
    decreases |ps|
  {
    if ps == [] then None
    else
      var d := Captured(ps[0], s);
      if d.Some? && ToIntOrNull(d.value).Some? then ToIntOrNull(d.value)
      else TryPatterns(ps[1..], s)
  }

  /** `extractTrackNumber`. The album is accepted but never read. */
  function ExtractTrackNumber(title: Option<string>, album: Option<string>): Option<int> {
    if title.None? then None else TryPatterns(Patterns, title.value)
  }

  /** The value a pattern yields on a title: its captured digits, when they fit an Int. */
  function Yield(p: Pattern, s: string): Option<int> {
    var d := Captured(p, s);
    if d.Some? then ToIntOrNull(d.value) else None
  }

  /**
   * The result is the first pattern's yield that exists, in the fixed
   * order; a missing title gives nothing, and the album never matters.
   */
  lemma ExtractionOrder(title: Option<string>, album: Option<string>, other: Option<string>)
    ensures title.None? ==> ExtractTrackNumber(title, album) == None
    ensures ExtractTrackNumber(title, album) == ExtractTrackNumber(title, other)
    ensures title.Some? ==>
      var s := title.value;
      ExtractTrackNumber(title, album) ==
        if Yield(LeadingNumber, s).Some? then Yield(LeadingNumber, s)
        else if Yield(Enclosed('[', ']'), s).Some? then Yield(Enclosed('[', ']'), s)
        else Yield(Enclosed('(', ')'), s)
  {
    if title.Some? {
      var s := title.value;
      var ps := Patterns;
      assert ps[1..][1..][1..] == [];
      assert TryPatterns(ps[1..][1..][1..], s) == None;
      assert TryPatterns(ps[1..][1..], s) == Yield(Enclosed('(', ')'), s);
    }
  }

  /** Any number found lies in Int range and is the decimal value of digits that appear in the title. */
  lemma {:induction false} TrackNumberFromTitleDigits(ps: seq<Pattern>, s: string)
    ensures TryPatterns(ps, s).Some? ==>
      0 <= TryPatterns(ps, s).value <= IntMax &&
      exists i, j :: 0 <= i < j <= |s| && AllDigits(s[i..j]) && DigitsValue(s[i..j]) == TryPatterns(ps, s).value
    decreases |ps|
  {
    if ps != [] {
      var d := Captured(ps[0], s);
      if d.Some? && ToIntOrNull(d.value).Some? {
        match ps[0]
        case LeadingNumber =>
          var n := DigitRun(s, 0);
          assert d.value == s[0..n];
        case Enclosed(open, close) =>
          var i := FindEnclosed(s, open, close, 0).value;
          var n := DigitRun(s, i + 1);
          assert d.value == s[i + 1..i + 1 + n];
      } else {
        TrackNumberFromTitleDigits(ps[1..], s);
      }
    }
  }

  /** "01. Intro" gives 1: leading zeros vanish in the value. */
  lemma LeadingNumberExample()
    ensures ExtractTrackNumber(Some("01. Intro"), None) == Some(1)
  {
    LeadingNumberCaptures("01", ". Intro");
    assert "01" + ". Intro" == "01. Intro";
    assert ToIntOrNull("01") == Some(1) by {
      assert "01"[..1] == "0" && DigitsValue("0") == 0;
    }
    assert Patterns[0] == LeadingNumber;
  }

  /** A run of n digits ended by a non-digit (or the end) has length n. */
  lemma {:induction false} DigitRunIs(s: string, from: nat, n: nat)
    requires from + n <= |s| && AllDigits(s[from..from + n])
    requires from + n < |s| ==> !IsDigit(s[from + n])
    ensures DigitRun(s, from) == n
    decreases n
  {
    if n > 0 {
      assert IsDigit(s[from..from + n][0]);
      assert s[from + 1..from + n] == s[from..from + n][1..];
      DigitRunIs(s, from + 1, n - 1);
    }
  }

  /**
   * The first pattern captures exactly the leading digits of a title that
   * continues with a separator.
   */
  lemma LeadingNumberCaptures(digits: string, rest: string)
    requires |digits| >= 1 && AllDigits(digits) && |rest| >= 1 && IsSeparator(rest[0])
    ensures Captured(LeadingNumber, digits + rest) == Some(digits)
  {
    var s := digits + rest;
    assert s[0..|digits|] == digits;
    assert !IsDigit(s[|digits|]) by {
      assert s[|digits|] == rest[0];
    }
    DigitRunIs(s, 0, |digits|);
    assert s[..|digits|] == digits;
  }

  /** "Song (3)" gives 3 through the third pattern. */
  lemma ParenthesisedExample()
    ensures ExtractTrackNumber(Some("Song (3)"), None) == Some(3)
  {
    ExtractionOrder(Some("Song (3)"), None, None);
    ExampleMissesFirstPatterns();
    ExampleParenthesised();
  }

  lemma ExampleMissesFirstPatterns()
    ensures Yield(LeadingNumber, "Song (3)") == None
    ensures Yield(Enclosed('[', ']'), "Song (3)") == None
  {
    var s := "Song (3)";
    DigitRunIs(s, 0, 0);
    assert '[' !in s;
    NoOpenerNoCapture(s, '[', ']');
  }

  lemma ExampleParenthesised()
    ensures Yield(Enclosed('(', ')'), "Song (3)") == Some(3)
  {
    EnclosedCaptures("Song ", "3", "", '(', ')');
    assert "Song " + ['('] + "3" + [')'] + "" == "Song (3)";
    assert DigitsValue("3") == 3;
  }

  /** A title without the opening bracket yields nothing for that bracket pair. */
  lemma NoOpenerNoCapture(s: string, open: char, close: char)
    requires open !in s
    ensures Captured(Enclosed(open, close), s) == None
  {
    forall j | 0 <= j < |s| ensures !EnclosedAt(s, open, close, j) {
      assert s[j] in s;
    }
    FindEnclosedNone(s, open, close, 0);
  }

  /**
   * A bracket pattern captures the digits after the first opener when they
   * are followed by the closer.
   */
  lemma EnclosedCaptures(before: string, digits: string, after: string, open: char, close: char)
    requires open !in before && |digits| >= 1 && AllDigits(digits) && !IsDigit(close)
    ensures Captured(Enclosed(open, close), before + [open] + digits + [close] + after) == Some(digits)
  {
    var s := before + [open] + digits + [close] + after;
    var i, n := |before|, |digits|;
    assert s[i + 1..i + 1 + n] == digits;
    assert s[i + 1 + n] == close;
    DigitRunIs(s, i + 1, n);
    assert EnclosedAt(s, open, close, i);
    forall j | 0 <= j < i ensures !EnclosedAt(s, open, close, j) {
      assert s[j] == before[j] && before[j] in before;
    }
    FindEnclosedFirst(s, open, close, 0, i);
  }

  /** With no start anywhere from `from` on, nothing is found. */
  lemma FindEnclosedNone(s: string, open: char, close: char, from: nat)
    requires from <= |s|
    requires forall j :: from <= j < |s| ==> !EnclosedAt(s, open, close, j)
    ensures FindEnclosed(s, open, close, from) == None
  {
  }

  /** The first start from `from` on is the one found. */
  lemma FindEnclosedFirst(s: string, open: char, close: char, from: nat, i: nat)
    requires from <= i && EnclosedAt(s, open, close, i)
    requires forall j :: from <= j < i ==> !EnclosedAt(s, open, close, j)
    ensures FindEnclosed(s, open, close, from) == Some(i)
  {
  }

  /** A bracketed number too large for an Int is passed over for a later pattern. */
  lemma OverflowFallsThrough(s: string)
    requires !LeadingMatch(s)
    requires Captured(Enclosed('[', ']'), s).Some?
    requires DigitsValue(Captured(Enclosed('[', ']'), s).value) > IntMax
    ensures ExtractTrackNumber(Some(s), None) == Yield(Enclosed('(', ')'), s)
  {
    ExtractionOrder(Some(s), None, None);
  }

  // ---------------------------------------------------------------------------
  // Text tags
  // ---------------------------------------------------------------------------

  /** `takeIf { it.isNotBlank() }`: a blank tag becomes null. */
  function NonBlank(tag: Option<string>): (r: Option<string>)
    ensures r.Some? <==> tag.Some? && !IsBlank(tag.value)
    ensures r.Some? ==> r == tag
  {
    if tag.Some? && !IsBlank(tag.value) then tag else None
  }

  /** A tag survives exactly when trimming leaves something. */
  lemma NonBlankIffTrimmedNonEmpty(tag: Option<string>)
    requires tag.Some?
    ensures NonBlank(tag).Some? <==> |Trim(tag.value)| > 0
  {
    TrimEmptyIffBlank(tag.value);
  }

  /** The text part of the extracted metadata. */
  datatype TextTags = TextTags(
    title: Option<string>,
    artist: Option<string>,
    album: Option<string>,
    albumArtist: Option<string>,
    genre: Option<string>,
    trackNumber: Option<int>)

  /**
   * The tags as stored: each text field cleaned of blanks, the track
   * number read from the raw title.
   */
  function CleanTags(title: Option<string>, artist: Option<string>, album: Option<string>,
                     albumArtist: Option<string>, genre: Option<string>): (t: TextTags)
    ensures t.title == NonBlank(title) && t.artist == NonBlank(artist) && t.album == NonBlank(album)
    ensures t.albumArtist == NonBlank(albumArtist) && t.genre == NonBlank(genre)
    ensures t.trackNumber == ExtractTrackNumber(title, album)
  {
    TextTags(NonBlank(title), NonBlank(artist), NonBlank(album), NonBlank(albumArtist), NonBlank(genre),
             ExtractTrackNumber(title, album))
  }

  /** A blank title is dropped, and no track number is found in it either. */
  lemma BlankTitleHasNoNumber(title: string, album: Option<string>)
    requires IsBlank(title)
    ensures CleanTags(Some(title), None, album, None, None).title == None
    ensures CleanTags(Some(title), None, album, None, None).trackNumber == None
  {
    TrackNumberFromTitleDigits(Patterns, title);
    forall i, j | 0 <= i < j <= |title| ensures !AllDigits(title[i..j]) {
      BlankHasNoDigits(title, i, j);
    }
  }

  lemma BlankHasNoDigits(title: string, i: nat, j: nat)
    requires IsBlank(title) && i < j <= |title|
    ensures !AllDigits(title[i..j])
  {
    assert title[i..j][0] == title[i];
  }
}
