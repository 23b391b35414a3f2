/** The stand-alone helpers: time formatting, file-name handling, the
    artist/title guess from a file name, genre icons, the contrast colour,
    fuzzy search, the shuffle and the keyboard-shortcut registry. */
module Utils {
  import opened Common
  import opened Seqs
  import opened Strings

  // ---------------------------------------------------------------------
  // formatTime
  // ---------------------------------------------------------------------

  /** `formatTime(seconds)`: `m:ss`, with `0:00` for a negative input. */
  function FormatTime(seconds: real): string {
    if seconds < 0.0 then "0:00"
    else
      var minutes := (seconds / 60.0).Floor;
      var remaining := (seconds - 60.0 * minutes as real).Floor;
      NatToString(minutes) + ":" + PadStart2(NatToString(remaining))
  }

  /** The minutes are the whole seconds divided by sixty and the two-digit
      part is the remainder. */
  lemma FormatTimeSpec(seconds: real)
    requires seconds >= 0.0
    ensures var whole := seconds.Floor;
      whole >= 0 && FormatTime(seconds) == NatToString(whole / 60) + ":" + PadStart2(NatToString(whole % 60))
  {
    var whole := seconds.Floor;
    var minutes := (seconds / 60.0).Floor;
    var m := whole / 60;
    assert whole as real <= seconds < whole as real + 1.0;
    assert minutes as real <= seconds / 60.0 < minutes as real + 1.0;
    assert m * 60 <= whole < m * 60 + 60;
    assert minutes == m;
    var remaining := (seconds - 60.0 * minutes as real).Floor;
    assert remaining == whole - 60 * m;
  }

  /** The two characters `padStart(2, '0')` makes of a number below sixty
      are decimal digits reading back as that number. */
  lemma PadStart2Value(r: nat)
    requires r < 60
    ensures var t := PadStart2(NatToString(r));
      |t| == 2 && '0' <= t[0] <= '9' && '0' <= t[1] <= '9' && DigitsValue(t, 10) == r
  {
    NatToStringRoundTrip(r);
    var t := PadStart2(NatToString(r));
    if r < 10 {
      assert t == "0" + [DigitChar(r)];
      assert t[..1] == "0";
    }
  }

  /** Whole seconds read back from the formatted text: minutes times sixty
      plus the two digits after the colon. */
  lemma FormatTimeReadBack(n: nat)
    ensures var t := FormatTime(n as real); var m := NatToString(n / 60);
      |t| == |m| + 3 && t[..|m|] == m && t[|m|] == ':' &&
      DigitsValue(m, 10) * 60 + DigitsValue(t[|m| + 1..], 10) == n
  {
    FormatTimeSpec(n as real);
    assert (n as real).Floor == n;
    NatToStringRoundTrip(n / 60);
    PadStart2Value(n % 60);
    var m := NatToString(n / 60);
    var t := FormatTime(n as real);
    assert t[|m| + 1..] == PadStart2(NatToString(n % 60));
  }

  // ---------------------------------------------------------------------
  // File names
  // ---------------------------------------------------------------------

  const AudioExtensions: seq<string> := [".mp3", ".wav", ".flac", ".aac", ".m4a", ".ogg", ".wma"]

  /** `getFileExtension(name)`: the text after the last dot, lowercased. */
  function GetFileExtension(filename: string): string {
    ToLower(Last(Split(filename, ".")))
  }

  /** `isAudioFile(name)`. */
  predicate IsAudioFile(filename: string) {
    "." + Last(Split(ToLower(filename), ".")) in AudioExtensions
  }

  /** The extension is the lowercased text after the last dot (the whole
      name when there is no dot). */
  lemma GetFileExtensionSpec(filename: string)
    ensures IsAfterLast(GetFileExtension(filename), ToLower(filename), '.')
  {
    SplitPop(filename, '.');
    AfterLastLower(Last(Split(filename, ".")), filename, '.');
  }

  /** A name is an audio file exactly when a dot followed by its extension
      is one of the seven listed extensions. */
  lemma IsAudioFileByExtension(filename: string)
    ensures IsAudioFile(filename) <==> "." + GetFileExtension(filename) in AudioExtensions
  {
    GetFileExtensionSpec(filename);
    SplitPop(ToLower(filename), '.');
    AfterLastUnique(GetFileExtension(filename), Last(Split(ToLower(filename), ".")), ToLower(filename), '.');
  }

  /** `getFileName(path)`: the text after the last `/`, or after the last
      backslash when that is empty. */
  function GetFileName(path: string): string {
    var a := Last(Split(path, "/"));
    if a != "" then a else Last(Split(path, "\\"))
  }

  /** A path not ending in `/` gives the text after its last `/`; one that
      does (or the empty path) gives the text after its last backslash. */
  lemma GetFileNameSpec(path: string)
    ensures path != [] && path[|path| - 1] != '/' ==> GetFileName(path) != [] && IsAfterLast(GetFileName(path), path, '/')
    ensures (path == [] || path[|path| - 1] == '/') ==> IsAfterLast(GetFileName(path), path, '\\')
  {
    SplitPop(path, '/');
    SplitPop(path, '\\');
  }

  /** A path written with backslashes only comes back whole: the backslash
      fallback is reached only for an empty name after the last `/`. */
  lemma GetFileNameBackslashPath(path: string)
    requires path != [] && '/' !in path
    ensures GetFileName(path) == path
  {
    SplitPop(path, '/');
  }

  /** The regular expression `\.[^/.]+$` matches at `i`. */
  predicate ExtensionAt(name: string, i: nat) {
    i + 1 < |name| && name[i] == '.' && forall j :: i < j < |name| ==> name[j] != '.' && name[j] != '/'
  }

  /** `name.replace(/\.[^/.]+$/, '')`. */
  function StripExtension(name: string): string {
    var ext := Last(Split(name, "."));
    if |ext| < |name| && ext != [] && '/' !in ext then name[..|name| - |ext| - 1] else name
  }

  /** The extension is removed exactly when the expression matches, and then
      the result is the text before the matched dot. */
  lemma StripExtensionSpec(name: string)
    ensures StripExtension(name) != name <==> exists i :: ExtensionAt(name, i)
    ensures StripExtension(name) != name ==> ExtensionAt(name, |StripExtension(name)|) && StripExtension(name) == name[..|StripExtension(name)|]
  {
    SplitPop(name, '.');
    var ext := Last(Split(name, "."));
    var i := |name| - |ext| - 1;
    if |ext| < |name| && ext != [] && '/' !in ext {
      forall j | i < j < |name| ensures name[j] != '.' && name[j] != '/' {
        assert name[j] == ext[j - i - 1];
      }
      assert ExtensionAt(name, i);
    } else {
      forall k | ExtensionAt(name, k) ensures false {
        ExtensionIsAfterLast(name, k, ext);
      }
    }
  }

  lemma ExtensionIsAfterLast(name: string, k: nat, ext: string)
    requires ExtensionAt(name, k) && IsAfterLast(ext, name, '.')
    ensures ext == name[k + 1..] && |ext| < |name| && ext != [] && '/' !in ext
  {
    var e := name[k + 1..];
    assert IsAfterLast(e, name, '.');
    AfterLastUnique(e, ext, name, '.');
    forall j | 0 <= j < |e| ensures e[j] != '/' {
      assert e[j] == name[k + 1 + j];
    }
  }

  // ---------------------------------------------------------------------
  // parseFilename
  // ---------------------------------------------------------------------

  const Separators: seq<string> := [" - ", " _ ", " | ", "-", "_", "|"]

  const UnknownArtist: string := "未知艺术家"

  datatype ParsedName = ParsedName(artist: string, title: string)

  predicate NonEmptySeparators(seps: seq<string>) {
    forall i :: 0 <= i < |seps| ==> |seps[i]| > 0
  }

  lemma SeparatorsNonEmpty()
    ensures NonEmptySeparators(Separators)
  {
  }

  /** The separator loop of `parseFilename` over the remaining separators. */
  function ParseName(name: string, seps: seq<string>): ParsedName
    requires NonEmptySeparators(seps)
  {
    if seps == [] then ParsedName(UnknownArtist, Trim(name))
    else if Contains(name, seps[0]) && |Split(name, seps[0])| >= 2 then SplitName(name, seps[0])
    else ParseName(name, seps[1..])
  }

  /** Artist and title from the parts of `name` around `sep`. */
  function SplitName(name: string, sep: string): ParsedName
    requires |sep| > 0
  {
    var parts := Split(name, sep);
    ParsedName(Trim(parts[0]), Trim(if |parts| >= 2 then Join(parts[1..], " ") else ""))
  }

  /** Split at a separator that occurs: the artist is the trimmed text before
      its first occurrence and the title is the rest, further occurrences
      replaced by spaces, trimmed. */
  lemma SplitNameSpec(name: string, sep: string, i: nat)
    requires |sep| > 0 && IndexOf(name, sep) == Some(i)
    ensures SplitName(name, sep) == ParsedName(Trim(name[..i]), Trim(Join(Split(name[i + |sep|..], sep), " ")))
  {
    SplitAtFirst(name, sep, i);
  }

  /** `parseFilename(filename)`. */
  function ParseFilename(filename: string): ParsedName {
    ParseName(StripExtension(filename), Separators)
  }

  function ContainedIn(name: string): string -> bool {
    (sep: string) => Contains(name, sep)
  }

  /** The first separator, in list order, that occurs decides. */
  lemma {:induction false} ParseNameFirst(name: string, seps: seq<string>, k: nat)
    requires NonEmptySeparators(seps) && k < |seps| && Contains(name, seps[k])
    requires forall j :: 0 <= j < k ==> !Contains(name, seps[j])
    ensures ParseName(name, seps) == SplitName(name, seps[k])
  {
    if k == 0 {
      SplitLength(name, seps[0]);
    } else {
      assert !Contains(name, seps[0]);
      assert NonEmptySeparators(seps[1..]);
      ParseNameFirst(name, seps[1..], k - 1);
    }
  }

  /** With no separator occurring, the artist is unknown and the title is the
      trimmed name. */
  lemma {:induction false} ParseNameNone(name: string, seps: seq<string>)
    requires NonEmptySeparators(seps)
    requires forall j :: 0 <= j < |seps| ==> !Contains(name, seps[j])
    ensures ParseName(name, seps) == ParsedName(UnknownArtist, Trim(name))
  {
    if seps != [] {
      assert !Contains(name, seps[0]);
      assert NonEmptySeparators(seps[1..]);
      ParseNameNone(name, seps[1..]);
    }
  }

  /** `Artist - Title.ext` is read back as that artist and title, for a
      trimmed artist and title without hyphens and a plain extension. */
  lemma ParseFilenameRoundTrip(artist: string, title: string, ext: string)
    requires '-' !in artist && '-' !in title && Trim(artist) == artist && Trim(title) == title
    requires ext != [] && '.' !in ext && '/' !in ext
    ensures ParseFilename(artist + " - " + title + "." + ext) == ParsedName(artist, title)
  {
    var name := artist + " - " + title;
    StripKnownExtension(name, ext);
    FirstSeparatorAt(artist, title);
    SeparatorsNonEmpty();
    ParseNameFirst(name, Separators, 0);
    SplitNameSeparated(artist, title);
  }

  lemma ConcatSlices(a: string, b: string, c: string)
    ensures (a + b + c)[..|a|] == a && (a + b + c)[|a| + |b|..] == c
  {
  }

  lemma SplitNameSeparated(artist: string, title: string)
    requires '-' !in artist && '-' !in title && Trim(artist) == artist && Trim(title) == title
    ensures SplitName(artist + " - " + title, " - ") == ParsedName(artist, title)
  {
    var name := artist + " - " + title;
    var sep := " - ";
    calc {
      SplitName(name, sep);
    == { FirstSeparatorAt(artist, title); SplitNameSpec(name, sep, |artist|); }
      ParsedName(Trim(name[..|artist|]), Trim(Join(Split(name[|artist| + 3..], sep), " ")));
    == { ConcatSlices(artist, sep, title); }
      ParsedName(Trim(artist), Trim(Join(Split(title, sep), " ")));
    == { NoHyphenNoSeparator(title); SplitNoSep(title, sep); }
      ParsedName(artist, title);
    }
  }

  /** In `artist - title` with a hyphen-free artist, the first ` - ` is the
      one after the artist. */
  lemma FirstSeparatorAt(artist: string, title: string)
    requires '-' !in artist
    ensures IndexOf(artist + " - " + title, " - ") == Some(|artist|)
  {
    var name := artist + " - " + title;
    var sep := " - ";
    assert name[|artist|..|artist| + 3] == sep;
    forall j | 0 <= j < |artist| ensures !OccursAt(name, sep, j) {
      if j + 3 <= |name| {
        assert name[j..j + 3][1] == name[j + 1] != sep[1];
      }
    }
    IndexOfFirst(name, sep, |artist|);
  }

  lemma NoHyphenNoSeparator(t: string)
    requires '-' !in t
    ensures IndexOf(t, " - ").None?
  {
    forall j | 0 <= j && j + 3 <= |t| ensures !OccursAt(t, " - ", j) {
      assert t[j..j + 3][1] == t[j + 1];
    }
    IndexOfNone(t, " - ");
  }

  lemma StripKnownExtension(name: string, ext: string)
    requires ext != [] && '.' !in ext && '/' !in ext
    ensures StripExtension(name + "." + ext) == name
  {
    var filename := name + "." + ext;
    assert ExtensionAt(filename, |name|) by {
      forall j | |name| < j < |filename| ensures filename[j] != '.' && filename[j] != '/' {
        assert filename[j] == ext[j - |name| - 1];
      }
    }
    StripExtensionSpec(filename);
    SplitPop(filename, '.');
    ExtensionIsAfterLast(filename, |name|, Last(Split(filename, ".")));
    assert filename[..|name|] == name;
  }

  // ---------------------------------------------------------------------
  // getGenreIcon
  // ---------------------------------------------------------------------

  const DefaultGenreIcon: string := "\U{1F3B5}"

  const GenreIcons: map<string, string> := map[
    "pop" := "\U{1F3B5}", "rock" := "\U{1F3B8}", "jazz" := "\U{1F3BA}",
    "classical" := "\U{1F3BC}", "electronic" := "\U{1F39B}\U{FE0F}", "folk" := "\U{1FA95}",
    "blues" := "\U{1F3B7}", "country" := "\U{1F920}", "rap" := "\U{1F3A4}",
    "metal" := "\U{26A1}", "reggae" := "\U{1F334}", "punk" := "\U{1F480}",
    "rnb" := "\U{1F4AB}", "soul" := "\U{1F49D}", "funk" := "\U{1F57A}",
    "disco" := "\U{1FAA9}", "indie" := "\U{1F308}", "alternative" := "\U{1F52E}",
    "ambient" := "\U{1F30C}", "techno" := "\U{1F50A}"]

  /** The lower-case names every object literal inherits from `Object.prototype`:
      `icons["constructor"]` is the `Object` function and `icons["__proto__"]` is
      `Object.prototype`. No other inherited name is all lower case, so no other
      lower-cased genre can reach one. */
  const InheritedKeys: set<string> := {"constructor", "__proto__"}

  /** What `getGenreIcon` returns: an icon string, or a (truthy) member inherited
      from `Object.prototype`, named by the key that reached it. */
  datatype GenreIconValue = Icon(text: string) | PrototypeMember(key: string)

  /** `getGenreIcon(genre)`: `icons[genre.toLowerCase()] || '🎵'`. The lookup
      walks the prototype chain, so the two inherited keys yield their members,
      which are truthy and are returned as they are. */
  function GetGenreIcon(genre: string): (r: GenreIconValue)
    ensures r.Icon? ==> r.text in GenreIcons.Values || r.text == DefaultGenreIcon
    ensures r.PrototypeMember? <==> ToLower(genre) in InheritedKeys
    ensures r.PrototypeMember? ==> r.key == ToLower(genre)
    ensures ToLower(genre) in GenreIcons ==> r == Icon(GenreIcons[ToLower(genre)])
  {
    var g := ToLower(genre);
    if g in GenreIcons then Icon(GenreIcons[g])
    else if g in InheritedKeys then PrototypeMember(g)
    else Icon(DefaultGenreIcon)
  }

  /** An unknown genre outside the inherited names gets the note. */
  lemma UnknownGenreNote(genre: string)
    requires ToLower(genre) !in GenreIcons && ToLower(genre) !in InheritedKeys
    ensures GetGenreIcon(genre) == Icon(DefaultGenreIcon)
  {
  }

  /** The genre tag "Constructor" reaches `Object` through the prototype chain
      instead of an icon or the note. */
  lemma ConstructorGenreInherited()
    ensures GetGenreIcon("Constructor") == PrototypeMember("constructor")
  {
    assert ToLower("Constructor") == "constructor";
  }

  /** The icon ignores letter case. */
  lemma GenreIconIgnoresCase(genre: string)
    ensures GetGenreIcon(ToLower(genre)) == GetGenreIcon(genre)
  {
    ToLowerIdempotent(genre);
  }

  // ---------------------------------------------------------------------
  // ColorUtils.getContrastColor
  // ---------------------------------------------------------------------

  /** `s.substr(start, length)` for non-negative arguments. */
  function Substr(s: string, start: nat, length: nat): (r: string)
    ensures start + length <= |s| ==> r == s[start..start + length]
  {
    var b := if start < |s| then start else |s|;
    var e := if start + length < |s| then start + length else |s|;
    s[b..e]
  }

  const Black: string := "#000000"
  const White: string := "#ffffff"

  /** `getContrastColor(hex)`: black on a bright colour, white otherwise. A
      component that does not parse is `NaN`, so the comparison fails and the
      answer is white. */
  function ContrastColor(hexColor: string): (r: string)
    ensures r == Black || r == White
  {
    var hex := ReplaceFirst(hexColor, "#", "");
    var r := ParseInt(Substr(hex, 0, 2), 16);
    var g := ParseInt(Substr(hex, 2, 2), 16);
    var b := ParseInt(Substr(hex, 4, 2), 16);
    if r.Some? && g.Some? && b.Some? && ((r.value * 299 + g.value * 587 + b.value * 114) as real) / 1000.0 > 128.0
    then Black else White
  }

  predicate IsHexDigits(s: string) {
    forall i :: 0 <= i < |s| ==> IsDigitIn(s[i], 16)
  }

  /** The weighted brightness sum of an `rrggbb` colour. */
  function BrightnessSum(hex: string): nat
    requires |hex| == 6
  {
    DigitsValue(hex[0..2], 16) * 299 + DigitsValue(hex[2..4], 16) * 587 + DigitsValue(hex[4..6], 16) * 114
  }

  /** For `#rrggbb` the answer is black exactly when the weighted sum of the
      three components exceeds 128000. */
  lemma ContrastColorHex(hex: string)
    requires |hex| == 6 && IsHexDigits(hex)
    ensures ContrastColor("#" + hex) == Black <==> BrightnessSum(hex) > 128000
  {
    StripHash(hex);
    ComponentParse(hex, 0);
    ComponentParse(hex, 2);
    ComponentParse(hex, 4);
    var sum := BrightnessSum(hex);
    assert ContrastColor("#" + hex) == if (sum as real) / 1000.0 > 128.0 then Black else White;
    BrightnessThreshold(sum);
  }

  lemma StripHash(hex: string)
    ensures ReplaceFirst("#" + hex, "#", "") == hex
  {
    ReplaceFirstPrefix("#" + hex, "#", "");
    assert ("#" + hex)[1..] == hex;
  }

  lemma ComponentParse(hex: string, k: nat)
    requires |hex| == 6 && IsHexDigits(hex) && k <= 4
    ensures ParseInt(Substr(hex, k, 2), 16) == Some(DigitsValue(hex[k..k + 2], 16))
  {
    assert IsDigitIn(hex[k], 16) && IsDigitIn(hex[k + 1], 16);
    ParseHexPair(hex[k..k + 2]);
  }

  lemma BrightnessThreshold(x: int)
    ensures (x as real) / 1000.0 > 128.0 <==> x > 128000
  {
  }

  // ---------------------------------------------------------------------
  // SearchUtils.fuzzyMatch
  // ---------------------------------------------------------------------

  /** Both inputs non-empty and the lowercased search a subsequence of the
      lowercased text. */
  predicate Fuzzy(searchTerm: string, text: string) {
    searchTerm != [] && text != [] && IsSubsequence(ToLower(searchTerm), ToLower(text))
  }

  /** `SearchUtils.fuzzyMatch(searchTerm, text)`: the substring shortcut, then
      the greedy scan. */
  method FuzzyMatch(searchTerm: string, text: string) returns (m: bool)
    ensures m <==> Fuzzy(searchTerm, text)
  {
    if searchTerm == [] || text == [] {
      return false;
    }
    var search := ToLower(searchTerm);
    var target := ToLower(text);
    if Contains(target, search) {
      var k := IndexOf(target, search).value;
      InfixIsSubsequence(search, target, k);
      return true;
    }
    var searchIndex := GreedyScan(search, target);
    m := searchIndex == |search|;
  }

  /** The counting loop of `fuzzyMatch`: advance through the text, moving on
      in the search term at every equal character. The whole term is consumed
      exactly when it is a subsequence of the text. */
  method GreedyScan(search: string, target: string) returns (searchIndex: nat)
    ensures searchIndex <= |search|
    ensures searchIndex == |search| <==> IsSubsequence(search, target)
  {
    searchIndex := 0;
    var i := 0;
    while i < |target| && searchIndex < |search|
      invariant 0 <= i <= |target| && 0 <= searchIndex <= |search|
      invariant IsSubsequence(search, target) <==> IsSubsequence(search[searchIndex..], target[i..])
    {
      if target[i] == search[searchIndex] {
        GreedyStep(search[searchIndex..], target[i..]);
        assert search[searchIndex..][1..] == search[searchIndex + 1..];
        searchIndex := searchIndex + 1;
      }
      assert target[i..][1..] == target[i + 1..];
      i := i + 1;
    }
  }

  /** Every text containing the search term also matches fuzzily. */
  lemma FuzzySubsumesSubstring(searchTerm: string, text: string)
    requires searchTerm != [] && Contains(text, searchTerm)
    ensures Fuzzy(searchTerm, text)
  {
    var k := IndexOf(text, searchTerm).value;
    assert ToLower(text)[k..k + |searchTerm|] == ToLower(searchTerm);
    InfixIsSubsequence(ToLower(searchTerm), ToLower(text), k);
  }

  // ---------------------------------------------------------------------
  // shuffleArray
  // ---------------------------------------------------------------------

  /** `shuffleArray(array)`: Fisher-Yates on a copy; `Math.random` becomes an
      arbitrary choice of the index to swap with. */
  method ShuffleArray<T>(a: array<T>) returns (b: array<T>)
    ensures fresh(b) && b.Length == a.Length
    ensures multiset(b[..]) == multiset(a[..])
  {
    b := new T[a.Length](k requires 0 <= k < a.Length reads a => a[k]);
    assert b[..] == a[..];
    var i := b.Length - 1;
    while i > 0
      invariant -1 <= i < b.Length
      invariant multiset(b[..]) == multiset(a[..])
    {
      var j :| 0 <= j <= i;
      b[i], b[j] := b[j], b[i];
      i := i - 1;
    }
  }

  // ---------------------------------------------------------------------
  // KeyboardShortcuts
  // ---------------------------------------------------------------------

  datatype KeyOptions = KeyOptions(ctrl: bool, meta: bool, alt: bool, shift: bool)

  /** The modifier names `normalizeKey` emits, in its fixed order. */
  function Modifiers(options: KeyOptions): seq<string> {
    (if options.ctrl || options.meta then ["ctrl"] else []) +
    (if options.alt then ["alt"] else []) +
    (if options.shift then ["shift"] else [])
  }

  /** `normalizeKey(key, options)`. */
  function NormalizeKey(key: string, options: KeyOptions): string {
    Join(Modifiers(options) + [ToLower(key)], "+")
  }

  lemma ToLowerKeepsChar(s: string, c: char)
    requires c !in s && !('A' <= c <= 'Z') && !('a' <= c <= 'z')
    ensures c !in ToLower(s)
  {
    forall i | 0 <= i < |s| ensures ToLower(s)[i] != c {
      assert s[i] != c;
    }
  }

  /** Splitting a normalised key at `+` gives back the modifiers and the
      lowercased key, for a key without `+`. */
  lemma NormalizeKeyParts(key: string, options: KeyOptions)
    requires '+' !in key
    ensures Split(NormalizeKey(key, options), "+") == Modifiers(options) + [ToLower(key)]
  {
    var parts := Modifiers(options) + [ToLower(key)];
    ToLowerKeepsChar(key, '+');
    forall i | 0 <= i < |parts| ensures '+' !in parts[i] {
      if i < |parts| - 1 {
        assert parts[i] in ["ctrl", "alt", "shift"];
      }
    }
    JoinSplit(parts, '+');
  }

  /** Two keys without `+` normalise alike exactly when they agree up to
      letter case and on the three modifiers, `meta` counting as `ctrl`. */
  lemma NormalizeKeyInjective(k1: string, o1: KeyOptions, k2: string, o2: KeyOptions)
    requires '+' !in k1 && '+' !in k2
    ensures NormalizeKey(k1, o1) == NormalizeKey(k2, o2) <==>
      ToLower(k1) == ToLower(k2) && (o1.ctrl || o1.meta) == (o2.ctrl || o2.meta) &&
      o1.alt == o2.alt && o1.shift == o2.shift
  {
    if NormalizeKey(k1, o1) == NormalizeKey(k2, o2) {
      NormalizeKeyParts(k1, o1);
      NormalizeKeyParts(k2, o2);
      var p1, p2 := Modifiers(o1) + [ToLower(k1)], Modifiers(o2) + [ToLower(k2)];
      assert p1[|p1| - 1] == p2[|p2| - 1];
      assert p1[..|p1| - 1] == Modifiers(o1) && p2[..|p2| - 1] == Modifiers(o2);
      ModifiersInjective(o1, o2);
    }
  }

  lemma ModifiersInjective(o1: KeyOptions, o2: KeyOptions)
    requires Modifiers(o1) == Modifiers(o2)
    ensures (o1.ctrl || o1.meta) == (o2.ctrl || o2.meta) && o1.alt == o2.alt && o1.shift == o2.shift
  {
    assert ("ctrl" in Modifiers(o1)) == (o1.ctrl || o1.meta);
    assert ("ctrl" in Modifiers(o2)) == (o2.ctrl || o2.meta);
    assert ("alt" in Modifiers(o1)) == o1.alt;
    assert ("alt" in Modifiers(o2)) == o2.alt;
    assert ("shift" in Modifiers(o1)) == o1.shift;
    assert ("shift" in Modifiers(o2)) == o2.shift;
  }

  /** With a `+` inside the key name the registry keys collide: `ctrl+a` with
      no modifier is the same binding as `a` with ctrl. */
  lemma NormalizeKeyPlusCollision()
    ensures NormalizeKey("ctrl+a", KeyOptions(false, false, false, false)) == NormalizeKey("a", KeyOptions(true, false, false, false))
  {
    assert ToLower("ctrl+a") == "ctrl+a";
    assert ToLower("a") == "a";
    assert Join(["ctrl+a"], "+") == "ctrl+a";
    assert Join(["ctrl", "a"], "+") == "ctrl" + "+" + "a";
  }

  const IgnoredTargets: seq<string> := ["INPUT", "TEXTAREA", "SELECT"]

  /** The registry of `KeyboardShortcuts`: normalised key to callback. */
  class KeyboardShortcuts<C> {
    var shortcuts: map<string, C>

    constructor()
      ensures shortcuts == map[]
    {
      shortcuts := map[];
    }

    /** `register(key, callback, options)`. */
    method Register(key: string, callback: C, options: KeyOptions)
      modifies this
      ensures shortcuts == old(shortcuts)[NormalizeKey(key, options) := callback]
    {
      shortcuts := shortcuts[NormalizeKey(key, options) := callback];
    }

    /** `unregister(key, options)`. */
    method Unregister(key: string, options: KeyOptions)
      modifies this
      ensures shortcuts == old(shortcuts) - {NormalizeKey(key, options)}
    {
      shortcuts := shortcuts - {NormalizeKey(key, options)};
    }

    /** The lookup of `handleKeyDown`: nothing inside an input field,
        otherwise the callback bound to the normalised key, `metaKey`
        counting as ctrl. */
    method HandleKeyDown(tagName: string, key: string, ctrlKey: bool, metaKey: bool, altKey: bool, shiftKey: bool)
      returns (r: Option<C>)
      ensures r == if tagName in IgnoredTargets then None
                   else Binding(shortcuts, key, KeyOptions(ctrlKey || metaKey, false, altKey, shiftKey))
    {
      if tagName in IgnoredTargets {
        return None;
      }
      var k := NormalizeKey(key, KeyOptions(ctrlKey || metaKey, false, altKey, shiftKey));
      if k in shortcuts {
        r := Some(shortcuts[k]);
      } else {
        r := None;
      }
    }
  }

  /** The callback a registry holds for a key and options. */
  function Binding<C>(shortcuts: map<string, C>, key: string, options: KeyOptions): Option<C> {
    var k := NormalizeKey(key, options);
    if k in shortcuts then Some(shortcuts[k]) else None
  }

  /** After registering, the same key and options find the new callback, and
      every other normalised key keeps its binding. */
  lemma BindingAfterRegister<C>(m: map<string, C>, key: string, callback: C, options: KeyOptions, key2: string, options2: KeyOptions)
    ensures var m2 := m[NormalizeKey(key, options) := callback];
      Binding(m2, key2, options2) == if NormalizeKey(key2, options2) == NormalizeKey(key, options) then Some(callback) else Binding(m, key2, options2)
  {
  }

  /** After unregistering, that binding is gone and every other stays. */
  lemma BindingAfterUnregister<C>(m: map<string, C>, key: string, options: KeyOptions, key2: string, options2: KeyOptions)
    ensures var m2 := m - {NormalizeKey(key, options)};
      Binding(m2, key2, options2) == if NormalizeKey(key2, options2) == NormalizeKey(key, options) then None else Binding(m, key2, options2)
  {
  }

  /** A key pressed with the same modifiers it was registered with finds its
      callback, whatever the letter case and whether ctrl or meta is held. */
  lemma RegisteredKeyFound<C>(m: map<string, C>, key: string, callback: C, options: KeyOptions, pressed: string, ctrlKey: bool, metaKey: bool)
    requires '+' !in key && '+' !in pressed && ToLower(pressed) == ToLower(key)
    requires ctrlKey || metaKey <==> options.ctrl || options.meta
    ensures Binding(m[NormalizeKey(key, options) := callback], pressed, KeyOptions(ctrlKey || metaKey, false, options.alt, options.shift)) == Some(callback)
  {
    NormalizeKeyInjective(key, options, pressed, KeyOptions(ctrlKey || metaKey, false, options.alt, options.shift));
  }
}
