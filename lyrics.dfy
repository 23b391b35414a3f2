/** The LRC lyric engine of the lyrics panel: parsing `[mm:ss.xx]` lines
    into time-sorted entries, attaching a translation track and following
    the playback position. Times are whole milliseconds. */
module Lyrics {
  import opened Common
  import opened Seqs
  import opened Strings

  // ---------------------------------------------------------------------
  // Time tags
  // ---------------------------------------------------------------------

  /** `\d` of a JavaScript regular expression. */
  predicate Digit(c: char) {
    '0' <= c <= '9'
  }

  /** A matched `[mm:ss.ff]` or `[mm:ss.fff]` tag starting at `start`; `end` is
      the index just after its `]`. */
  datatype Tag = Tag(start: nat, minutes: nat, seconds: nat, millis: nat, end: nat)

  /** `minutes * 60 + seconds + milliseconds / 1000`, in milliseconds. */
  function TagTime(t: Tag): nat {
    t.minutes * 60000 + t.seconds * 1000 + t.millis
  }

  /** The tag `\[(\d{2}):(\d{2})\.(\d{2,3})\]` matched at index `p`, the fraction
      padded on the right with `0` to three digits (`padEnd(3, '0')`). */
  function TagAt(line: string, p: nat): (r: Option<Tag>)
    ensures r.Some? ==> r.value.start == p && p + 10 <= r.value.end <= |line| && r.value.end <= p + 11
  {
    if p + 10 <= |line| && line[p] == '[' && Digit(line[p + 1]) && Digit(line[p + 2]) && line[p + 3] == ':' &&
       Digit(line[p + 4]) && Digit(line[p + 5]) && line[p + 6] == '.' && Digit(line[p + 7]) && Digit(line[p + 8])
    then
      var mm := DigitsValue(line[p + 1..p + 3], 10);
      var ss := DigitsValue(line[p + 4..p + 6], 10);
      if p + 11 <= |line| && Digit(line[p + 9]) && line[p + 10] == ']' then
        Some(Tag(p, mm, ss, DigitsValue(line[p + 7..p + 10], 10), p + 11))
      else if line[p + 9] == ']' then
        Some(Tag(p, mm, ss, DigitsValue(line[p + 7..p + 9] + "0", 10), p + 10))
      else None
    else None
  }

  /** The leftmost tag at or after `p`: the unanchored match. */
  function FirstTag(line: string, p: nat): (r: Option<Tag>)
    ensures r.Some? ==> p <= r.value.start && r.value.end <= |line|
    decreases |line| - p
  {
    if p >= |line| then None
    else if TagAt(line, p).Some? then TagAt(line, p)
    else FirstTag(line, p + 1)
  }

  /** The unanchored match finds a tag exactly where one starts, and no tag
      starts before it. */
  lemma {:induction false} FirstTagLeftmost(line: string, p: nat)
    ensures FirstTag(line, p).Some? ==> TagAt(line, FirstTag(line, p).value.start) == FirstTag(line, p)
    ensures FirstTag(line, p).Some? ==> forall q :: p <= q < FirstTag(line, p).value.start ==> TagAt(line, q).None?
    ensures FirstTag(line, p).None? <==> forall q :: p <= q ==> TagAt(line, q).None?
    decreases |line| - p
  {
    if p >= |line| {
      assert FirstTag(line, p).None?;
    } else if TagAt(line, p).Some? {
      assert FirstTag(line, p) == TagAt(line, p);
    } else {
      assert FirstTag(line, p) == FirstTag(line, p + 1);
      FirstTagLeftmost(line, p + 1);
      var r := FirstTag(line, p);
      if r.Some? {
        forall q | p <= q < r.value.start ensures TagAt(line, q).None? {
          if q != p {
            assert p + 1 <= q < FirstTag(line, p + 1).value.start;
          }
        }
      }
    }
  }

  /** Two decimal digits of `n < 100`. */
  function Digits2(n: nat): (r: string)
    requires n < 100
    ensures |r| == 2 && Digit(r[0]) && Digit(r[1])
  {
    [DigitChar(n / 10), DigitChar(n % 10)]
  }

  /** Three decimal digits of `n < 1000`. */
  function Digits3(n: nat): (r: string)
    requires n < 1000
    ensures |r| == 3 && Digit(r[0]) && Digit(r[1]) && Digit(r[2])
  {
    [DigitChar(n / 100), DigitChar(n / 10 % 10), DigitChar(n % 10)]
  }

  lemma Digits2Value(n: nat)
    requires n < 100
    ensures DigitsValue(Digits2(n), 10) == n
  {
    var d := Digits2(n);
    assert d[..1] == [DigitChar(n / 10)];
    assert DigitsValue(d[..1], 10) == n / 10 by {
      assert d[..1][..0] == [];
    }
  }

  lemma Digits3Value(n: nat)
    requires n < 1000
    ensures DigitsValue(Digits3(n), 10) == n
  {
    var d := Digits3(n);
    var d2 := d[..2];
    assert d2 == [DigitChar(n / 100), DigitChar(n / 10 % 10)];
    assert DigitsValue(d2[..1], 10) == n / 100 by {
      assert d2[..1] == [DigitChar(n / 100)];
      assert d2[..1][..0] == [];
    }
    assert DigitsValue(d2, 10) == n / 10;
  }

  /** The text of a tag with a three-digit fraction. */
  function TagText(minutes: nat, seconds: nat, millis: nat): string
    requires minutes < 100 && seconds < 100 && millis < 1000
  {
    "[" + Digits2(minutes) + ":" + Digits2(seconds) + "." + Digits3(millis) + "]"
  }

  /** A written tag is matched where it was written and read back as the
      time it was written with. */
  lemma TagRoundTrip(prefix: string, minutes: nat, seconds: nat, millis: nat, rest: string)
    requires minutes < 100 && seconds < 100 && millis < 1000
    ensures var p := |prefix|;
      TagAt(prefix + TagText(minutes, seconds, millis) + rest, p) == Some(Tag(p, minutes, seconds, millis, p + 11))
  {
    var p := |prefix|;
    var line := prefix + TagText(minutes, seconds, millis) + rest;
    TagTextSlices(prefix, minutes, seconds, millis, rest);
    Digits2Value(minutes);
    Digits2Value(seconds);
    Digits3Value(millis);
  }

  lemma TagTextSlices(prefix: string, minutes: nat, seconds: nat, millis: nat, rest: string)
    requires minutes < 100 && seconds < 100 && millis < 1000
    ensures var p, line := |prefix|, prefix + TagText(minutes, seconds, millis) + rest;
      |line| == p + 11 + |rest| && line[p] == '[' && line[p + 3] == ':' && line[p + 6] == '.' && line[p + 10] == ']' &&
      line[p + 1..p + 3] == Digits2(minutes) && line[p + 4..p + 6] == Digits2(seconds) &&
      line[p + 7..p + 10] == Digits3(millis) && line[..p] == prefix && line[p + 11..] == rest
  {
    var t := TagText(minutes, seconds, millis);
    assert |t| == 11;
    assert t[1..3] == Digits2(minutes) && t[4..6] == Digits2(seconds) && t[7..10] == Digits3(millis);
    var line := prefix + t + rest;
    var p := |prefix|;
    assert line[p..p + 11] == t;
  }

  /** A two-digit fraction counts as hundredths: `.50` and `.500` are the same
      time. */
  lemma TwoDigitFraction(line: string, p: nat)
    requires TagAt(line, p).Some? && TagAt(line, p).value.end == p + 10
    ensures TagAt(line, p).value.millis == DigitsValue(line[p + 7..p + 9], 10) * 10
  {
  }

  // ---------------------------------------------------------------------
  // Lines
  // ---------------------------------------------------------------------

  /** The characters `.` of a regular expression does not match, besides the
      `\n` the text was split at. */
  predicate IsLineTerminator(c: char) {
    c == '\r' || c == '\U{2028}' || c == '\U{2029}'
  }

  /** What `(.*)` captures: the text up to the first line terminator. */
  function LineRest(s: string): (r: string)
    ensures |r| <= |s| && r == s[..|r|]
    ensures forall i :: 0 <= i < |r| ==> !IsLineTerminator(r[i])
    ensures |r| < |s| ==> IsLineTerminator(s[|r|])
  {
    if s == [] || IsLineTerminator(s[0]) then [] else [s[0]] + LineRest(s[1..])
  }

  /** An entry of the parsed lyrics; `translated` is `null` until a
      translation is merged. */
  datatype LyricLine = LyricLine(time: nat, text: string, translated: Option<string>)

  /** One line of `parseLRC`: the first tag anywhere in the line, and the text
      after it (further tags included), trimmed; a line without a tag or with
      blank text gives nothing. */
  function ParseLine(line: string): (r: Option<LyricLine>)
    ensures r.Some? ==> r.value.text != "" && r.value.translated.None?
  {
    match FirstTag(line, 0)
    case None => None
    case Some(t) =>
      var text := Trim(LineRest(line[t.end..]));
      if text != "" then Some(LyricLine(TagTime(t), text, None)) else None
  }

  /** A line yields an entry exactly when it holds a tag followed by some
      non-blank text, and the entry carries the first tag's time. */
  lemma ParseLineSpec(line: string)
    ensures ParseLine(line).Some? <==> FirstTag(line, 0).Some? && Trim(LineRest(line[FirstTag(line, 0).value.end..])) != ""
    ensures ParseLine(line).Some? ==>
      ParseLine(line).value.time == TagTime(FirstTag(line, 0).value) &&
      ParseLine(line).value.text == Trim(LineRest(line[FirstTag(line, 0).value.end..]))
  {
  }

  /** The entries of `lines`, in line order: what the `forEach`/`push` loop
      of `parseLRC` collects. */
  function Entries(lines: seq<string>): seq<LyricLine> {
    Collect(lines, ParseLine)
  }

  /** `(a, b) => a.time - b.time` as an ordering. */
  function ByTime(): (LyricLine, LyricLine) -> bool {
    (a: LyricLine, b: LyricLine) => a.time <= b.time
  }

  lemma ByTimePreorder()
    ensures TotalPreorder(ByTime())
  {
  }

  /** `parseLRC(text)`: the entries of the lines, stably sorted by time. */
  function ParsedLRC(lrcText: string): seq<LyricLine> {
    SortBy(Entries(Split(lrcText, "\n")), ByTime())
  }

  /** The result is sorted by time, holds exactly the entries of the lines,
      and entries with equal times keep their line order. */
  lemma ParsedLRCSpec(lrcText: string, t: LyricLine)
    ensures var lyrics, entries := ParsedLRC(lrcText), Entries(Split(lrcText, "\n"));
      SortedBy(lyrics, ByTime()) && multiset(lyrics) == multiset(entries) &&
      Filter(lyrics, EquivTo(t, ByTime())) == Filter(entries, EquivTo(t, ByTime()))
  {
    ByTimePreorder();
    SortBySorted(Entries(Split(lrcText, "\n")), ByTime());
    SortByStable(Entries(Split(lrcText, "\n")), ByTime(), t);
  }

  /** `parseLRC(lrcText)`: collect the entries line by line, then sort. */
  method ParseLRC(lrcText: string) returns (lyrics: seq<LyricLine>)
    ensures lyrics == ParsedLRC(lrcText)
  {
    var lines := Split(lrcText, "\n");
    var acc: seq<LyricLine> := [];
    for i := 0 to |lines|
      invariant acc == Entries(lines[..i])
    {
      CollectSnoc(lines, ParseLine, i);
      match ParseLine(lines[i])
      case Some(e) =>
        acc := acc + [e];
      case None =>
    }
    assert lines[..|lines|] == lines;
    lyrics := SortBy(acc, ByTime());
  }

  /** The regular expression is not anchored and takes the first tag only:
      text before the tag (without a `[`) is skipped, and everything after it,
      further tags included, is the entry's text; blank text drops the line. */
  lemma ParseLineAfterTag(prefix: string, minutes: nat, seconds: nat, millis: nat, rest: string)
    requires '[' !in prefix && minutes < 100 && seconds < 100 && millis < 1000
    ensures var r, text := ParseLine(prefix + TagText(minutes, seconds, millis) + rest), Trim(LineRest(rest));
      (r.None? <==> text == "") && (r.Some? ==> r.value == LyricLine(minutes * 60000 + seconds * 1000 + millis, text, None))
  {
    var line := prefix + TagText(minutes, seconds, millis) + rest;
    var t := Tag(|prefix|, minutes, seconds, millis, |prefix| + 11);
    assert FirstTag(line, 0) == Some(t) by {
      FirstTagAfterPrefix(prefix, minutes, seconds, millis, rest);
    }
    assert t.end <= |line| && line[t.end..] == rest by {
      TagTextSlices(prefix, minutes, seconds, millis, rest);
    }
    ParseLineWith(line, t, rest);
  }

  lemma ParseLineWith(line: string, t: Tag, rest: string)
    requires FirstTag(line, 0) == Some(t) && t.end <= |line| && line[t.end..] == rest
    ensures var r, text := ParseLine(line), Trim(LineRest(rest));
      (r.None? <==> text == "") && (r.Some? ==> r.value == LyricLine(t.minutes * 60000 + t.seconds * 1000 + t.millis, text, None))
  {
  }

  lemma FirstTagAfterPrefix(prefix: string, minutes: nat, seconds: nat, millis: nat, rest: string)
    requires '[' !in prefix && minutes < 100 && seconds < 100 && millis < 1000
    ensures var p := |prefix|;
      FirstTag(prefix + TagText(minutes, seconds, millis) + rest, 0) == Some(Tag(p, minutes, seconds, millis, p + 11))
  {
    var line := prefix + TagText(minutes, seconds, millis) + rest;
    var p := |prefix|;
    TagRoundTrip(prefix, minutes, seconds, millis, rest);
    TagTextSlices(prefix, minutes, seconds, millis, rest);
    forall q | 0 <= q < p ensures TagAt(line, q).None? {
      assert line[q] == line[..p][q];
    }
    FirstTagFrom(line, p);
  }

  lemma FirstTagFrom(line: string, p: nat)
    requires p < |line| && TagAt(line, p).Some?
    requires forall q :: 0 <= q < p ==> TagAt(line, q).None?
    ensures FirstTag(line, 0) == TagAt(line, p)
  {
    FirstTagSkip(line, 0, p);
  }

  lemma {:induction false} FirstTagSkip(line: string, q: nat, p: nat)
    requires q <= p < |line| && TagAt(line, p).Some?
    requires forall k :: q <= k < p ==> TagAt(line, k).None?
    ensures FirstTag(line, q) == TagAt(line, p)
    decreases p - q
  {
    if q < p {
      FirstTagSkip(line, q + 1, p);
    }
  }

  // ---------------------------------------------------------------------
  // Translation
  // ---------------------------------------------------------------------

  /** `Math.abs(trans.time - lyric.time) < 0.5`, in milliseconds. */
  function Near(time: nat): LyricLine -> bool {
    (x: LyricLine) => -500 < x.time - time < 500
  }

  /** One entry after merging: the text of the first translation line close
      enough in time, or the entry unchanged. */
  function TranslateLine(l: LyricLine, translation: seq<LyricLine>): LyricLine {
    match Find(translation, Near(l.time))
    case Some(t) => l.(translated := Some(t.text))
    case None => l
  }

  function TranslateAll(lyrics: seq<LyricLine>, translation: seq<LyricLine>): (r: seq<LyricLine>)
    ensures |r| == |lyrics|
  {
    seq(|lyrics|, k requires 0 <= k < |lyrics| => TranslateLine(lyrics[k], translation))
  }

  /** Merging keeps every entry's time and text; an entry gets the text of
      the first translation line within 500 ms, and keeps its old
      translation when there is none. */
  lemma TranslateAllSpec(lyrics: seq<LyricLine>, translation: seq<LyricLine>, k: nat)
    requires k < |lyrics|
    ensures var r := TranslateAll(lyrics, translation);
      r[k].time == lyrics[k].time && r[k].text == lyrics[k].text &&
      match FirstIndex(translation, Near(lyrics[k].time))
      case Some(j) => r[k].translated == Some(translation[j].text)
      case None => r[k] == lyrics[k]
  {
  }

  /** The `forEach` of `parseTranslation`: each entry in turn takes the text
      of its first close translation line. */
  method MergeTranslation(lyrics: seq<LyricLine>, translationLines: seq<LyricLine>) returns (merged: seq<LyricLine>)
    ensures merged == TranslateAll(lyrics, translationLines)
  {
    merged := lyrics;
    for i := 0 to |merged|
      invariant |merged| == |lyrics|
      invariant forall k :: 0 <= k < i ==> merged[k] == TranslateLine(lyrics[k], translationLines)
      invariant forall k :: i <= k < |merged| ==> merged[k] == lyrics[k]
    {
      var lyric := merged[i];
      var translation := Find(translationLines, Near(lyric.time));
      if translation.Some? {
        merged := merged[i := lyric.(translated := Some(translation.value.text))];
      }
    }
  }

  /** Merging a translation keeps the entries sorted. */
  lemma TranslateAllSorted(lyrics: seq<LyricLine>, translation: seq<LyricLine>)
    requires SortedBy(lyrics, ByTime())
    ensures SortedBy(TranslateAll(lyrics, translation), ByTime())
  {
    var r := TranslateAll(lyrics, translation);
    forall i, j | 0 <= i < j < |r| ensures ByTime()(r[i], r[j]) {
      assert ByTime()(lyrics[i], lyrics[j]);
    }
  }

  // ---------------------------------------------------------------------
  // Following the playback position
  // ---------------------------------------------------------------------

  /** `lyric.time <= currentTime`, the position in seconds. */
  predicate Reached(l: LyricLine, currentTime: real) {
    (l.time as real) / 1000.0 <= currentTime
  }

  /** The number of leading entries already reached: where the loop of
      `syncLyrics` breaks. */
  function ReachedPrefix(lyrics: seq<LyricLine>, currentTime: real): (n: nat)
    ensures n <= |lyrics|
  {
    if lyrics == [] || !Reached(lyrics[0], currentTime) then 0
    else 1 + ReachedPrefix(lyrics[1..], currentTime)
  }

  /** The index `syncLyrics` highlights: the last entry of the reached prefix,
      or -1. */
  function ActiveIndex(lyrics: seq<LyricLine>, currentTime: real): (a: int)
    ensures -1 <= a < |lyrics|
  {
    ReachedPrefix(lyrics, currentTime) - 1
  }

  lemma {:induction false} ReachedPrefixSpec(lyrics: seq<LyricLine>, currentTime: real)
    ensures forall i :: 0 <= i < ReachedPrefix(lyrics, currentTime) ==> Reached(lyrics[i], currentTime)
    ensures ReachedPrefix(lyrics, currentTime) < |lyrics| ==> !Reached(lyrics[ReachedPrefix(lyrics, currentTime)], currentTime)
  {
    if lyrics != [] && Reached(lyrics[0], currentTime) {
      ReachedPrefixSpec(lyrics[1..], currentTime);
    }
  }

  /** On sorted entries the early `break` is harmless: the active index is
      the greatest one whose time has been reached, or -1 when none has. */
  lemma ActiveIndexGreatest(lyrics: seq<LyricLine>, currentTime: real)
    requires SortedBy(lyrics, ByTime())
    ensures var a := ActiveIndex(lyrics, currentTime);
      (forall i :: 0 <= i <= a ==> Reached(lyrics[i], currentTime)) &&
      (forall i :: a < i < |lyrics| ==> !Reached(lyrics[i], currentTime))
  {
    ReachedPrefixSpec(lyrics, currentTime);
    var n := ReachedPrefix(lyrics, currentTime);
    forall i | n < i < |lyrics| ensures !Reached(lyrics[i], currentTime) {
      assert ByTime()(lyrics[n], lyrics[i]);
    }
  }

  // ---------------------------------------------------------------------
  // LyricsManager
  // ---------------------------------------------------------------------

  /** The lyric state of the panel. A `null` text is the empty string. */
  class LyricsManager {
    var currentLyrics: string
    var currentTranslation: string
    var parsedLyrics: seq<LyricLine>
    var currentLineIndex: int
    var isEnabled: bool
    var showTranslation: bool
    var autoSync: bool

    /** The entries stay sorted and the highlighted index is -1 or one of them. */
    ghost predicate Valid()
      reads this
    {
      SortedBy(parsedLyrics, ByTime()) && -1 <= currentLineIndex < |parsedLyrics|
    }

    constructor()
      ensures Valid()
      ensures currentLyrics == "" && currentTranslation == "" && parsedLyrics == [] && currentLineIndex == -1
      ensures isEnabled && !showTranslation && autoSync
    {
      currentLyrics := "";
      currentTranslation := "";
      parsedLyrics := [];
      currentLineIndex := -1;
      isEnabled := true;
      showTranslation := false;
      autoSync := true;
    }

    /** `parseTranslation(text)`: nothing for an empty translation or when
        no lyrics are loaded; otherwise every entry takes the text of its
        first close translation line, in place. */
    method ParseTranslation(translationText: string)
      requires Valid()
      modifies this
      ensures Valid()
      ensures parsedLyrics == if translationText == "" || |old(parsedLyrics)| == 0 then old(parsedLyrics)
                              else TranslateAll(old(parsedLyrics), ParsedLRC(translationText))
      ensures currentLineIndex == old(currentLineIndex) && currentLyrics == old(currentLyrics)
      ensures currentTranslation == old(currentTranslation) && isEnabled == old(isEnabled)
      ensures showTranslation == old(showTranslation) && autoSync == old(autoSync)
    {
      if translationText == "" || |parsedLyrics| == 0 {
        return;
      }
      var translationLines := ParseLRC(translationText);
      TranslateAllSorted(parsedLyrics, translationLines);
      parsedLyrics := MergeTranslation(parsedLyrics, translationLines);
    }

    /** `loadLyrics(lrcText, translationText)`: an empty text clears the
        state and fails; otherwise the text is parsed, the translation
        merged and the highlight reset. */
    method LoadLyrics(lrcText: string, translationText: string) returns (ok: bool)
      requires Valid()
      modifies this
      ensures Valid()
      ensures ok <==> lrcText != ""
      ensures !ok ==> currentLyrics == "" && currentTranslation == "" && parsedLyrics == [] && currentLineIndex == -1
      ensures ok ==> currentLyrics == lrcText && currentTranslation == translationText && currentLineIndex == -1
      ensures ok ==> parsedLyrics == if translationText == "" || |ParsedLRC(lrcText)| == 0 then ParsedLRC(lrcText)
                                     else TranslateAll(ParsedLRC(lrcText), ParsedLRC(translationText))
      ensures isEnabled == old(isEnabled) && showTranslation == old(showTranslation) && autoSync == old(autoSync)
    {
      if lrcText == "" {
        ClearLyrics();
        return false;
      }
      currentLyrics := lrcText;
      currentTranslation := translationText;
      parsedLyrics := ParseLRC(lrcText);
      currentLineIndex := -1;
      ByTimePreorder();
      SortBySorted(Entries(Split(lrcText, "\n")), ByTime());
      if translationText != "" {
        ParseTranslation(translationText);
      }
      currentLineIndex := -1;
      ok := true;
    }

    /** `syncLyrics(currentTime)`: scan until the first entry not yet
        reached and highlight the one before it. */
    method SyncLyrics(currentTime: real)
      requires Valid()
      modifies this
      ensures Valid()
      ensures currentLineIndex == if |parsedLyrics| == 0 || !isEnabled then old(currentLineIndex)
                                  else ActiveIndex(parsedLyrics, currentTime)
      ensures parsedLyrics == old(parsedLyrics) && currentLyrics == old(currentLyrics)
      ensures currentTranslation == old(currentTranslation) && isEnabled == old(isEnabled)
      ensures showTranslation == old(showTranslation) && autoSync == old(autoSync)
    {
      if |parsedLyrics| == 0 || !isEnabled {
        return;
      }
      var activeIndex := -1;
      var i := 0;
      while i < |parsedLyrics|
        invariant 0 <= i <= |parsedLyrics|
        invariant activeIndex == i - 1
        invariant ReachedPrefix(parsedLyrics, currentTime) == i + ReachedPrefix(parsedLyrics[i..], currentTime)
      {
        if (parsedLyrics[i].time as real) / 1000.0 <= currentTime {
          activeIndex := i;
        } else {
          assert parsedLyrics[i..][0] == parsedLyrics[i];
          break;
        }
        assert parsedLyrics[i..][1..] == parsedLyrics[i + 1..];
        i := i + 1;
      }
      if activeIndex != currentLineIndex {
        currentLineIndex := activeIndex;
      }
    }

    /** `clearLyrics()`. */
    method ClearLyrics()
      modifies this
      ensures Valid()
      ensures currentLyrics == "" && currentTranslation == "" && parsedLyrics == [] && currentLineIndex == -1
      ensures isEnabled == old(isEnabled) && showTranslation == old(showTranslation) && autoSync == old(autoSync)
    {
      currentLyrics := "";
      currentTranslation := "";
      parsedLyrics := [];
      currentLineIndex := -1;
    }
  }
}
