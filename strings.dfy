/** The JavaScript string primitives the core relies on: `trim`, `split`,
    `join`, `indexOf`/`includes`, `startsWith`, `replace` with a string
    pattern, `toLowerCase` (ASCII letters), `parseInt` and number-to-string. */
module Strings {
  import opened Common

  // ---------------------------------------------------------------------
  // Whitespace and trim
  // ---------------------------------------------------------------------

  /** ECMAScript WhiteSpace and LineTerminator code points (what `trim` removes). */
  predicate IsSpace(c: char) {
    c == ' ' || c == '\t' || c == '\n' || c == '\r' || c == '\U{000B}' || c == '\U{000C}' ||
    c == '\U{00A0}' || c == '\U{1680}' || ('\U{2000}' <= c <= '\U{200A}') ||
    c == '\U{2028}' || c == '\U{2029}' || c == '\U{202F}' || c == '\U{205F}' ||
    c == '\U{3000}' || c == '\U{FEFF}'
  }

  predicate AllSpace(s: string) {
    forall i :: 0 <= i < |s| ==> IsSpace(s[i])
  }

  /** `s.trimStart()`: drops the leading whitespace. */
  function TrimStart(s: string): (r: string)
    ensures |r| <= |s| && r == s[|s| - |r|..]
    ensures r == [] || !IsSpace(r[0])
  {
    if s != [] && IsSpace(s[0]) then TrimStart(s[1..]) else s
  }

  /** `s.trimEnd()`: drops the trailing whitespace. */
  function TrimEnd(s: string): (r: string)
    ensures |r| <= |s| && r == s[..|r|]
    ensures r == [] || !IsSpace(r[|r| - 1])
  {
    if s != [] && IsSpace(s[|s| - 1]) then TrimEnd(s[..|s| - 1]) else s
  }

  /** `s.trim()`. */
  function Trim(s: string): (r: string) {
    TrimEnd(TrimStart(s))
  }

  /** What `trimStart` drops is whitespace only. */
  lemma {:induction false} TrimStartDropsSpace(s: string)
    ensures AllSpace(s[..|s| - |TrimStart(s)|])
  {
    if s != [] && IsSpace(s[0]) {
      TrimStartDropsSpace(s[1..]);
      var k := |s| - |TrimStart(s)|;
      assert s[..k] == [s[0]] + s[1..][..k - 1];
    }
  }

  /** What `trimEnd` drops is whitespace only. */
  lemma {:induction false} TrimEndDropsSpace(s: string)
    ensures AllSpace(s[|TrimEnd(s)|..])
  {
    if s != [] && IsSpace(s[|s| - 1]) {
      var p := s[..|s| - 1];
      TrimEndDropsSpace(p);
      var k := |TrimEnd(s)|;
      assert s[k..] == p[k..] + [s[|s| - 1]];
    }
  }

  /** `trimEnd` keeps everything up to the last non-space character. */
  lemma {:induction false} TrimEndKeeps(s: string, i: nat)
    requires i < |s| && !IsSpace(s[i])
    ensures i < |TrimEnd(s)|
  {
    if s != [] && IsSpace(s[|s| - 1]) {
      TrimEndKeeps(s[..|s| - 1], i);
    }
  }

  /** `trim` yields the infix of `s` that starts after its leading whitespace. */
  lemma TrimInfix(s: string)
    ensures var i, r := |s| - |TrimStart(s)|, Trim(s);
      i + |r| <= |s| && r == s[i..i + |r|]
  {
  }

  /** What `trim` removes on either side is whitespace only. */
  lemma TrimRemovesSpace(s: string)
    ensures var i, r := |s| - |TrimStart(s)|, Trim(s);
      i + |r| <= |s| && AllSpace(s[..i]) && AllSpace(s[i + |r|..])
  {
    TrimStartDropsSpace(s);
    TrimTailSpace(s, TrimStart(s), |s| - |TrimStart(s)|);
  }

  lemma TrimTailSpace(s: string, t: string, i: nat)
    requires i <= |s| && t == s[i..]
    ensures |TrimEnd(t)| + i <= |s| && AllSpace(s[i + |TrimEnd(t)|..])
  {
    TrimEndDropsSpace(t);
    var tail := s[i + |TrimEnd(t)|..];
    forall k | 0 <= k < |tail| ensures IsSpace(tail[k]) {
      assert tail[k] == t[|TrimEnd(t)|..][k];
    }
  }

  /** The result of `trim` neither starts nor ends with whitespace. */
  lemma TrimEnds(s: string)
    ensures Trim(s) == [] || (!IsSpace(Trim(s)[0]) && !IsSpace(Trim(s)[|Trim(s)| - 1]))
  {
    var t := TrimStart(s);
    var r := TrimEnd(t);
    if r != [] {
      assert r[0] == t[0];
    }
  }

  /** A string trims to nothing exactly when it is all whitespace. */
  lemma TrimEmpty(s: string)
    ensures Trim(s) == [] <==> AllSpace(s)
  {
    var t := TrimStart(s);
    if Trim(s) == [] {
      TrimStartDropsSpace(s);
      TrimEndDropsSpace(t);
      assert AllSpace(t[0..]);
      assert s == s[..|s| - |t|] + t;
    }
  }

  lemma TrimIdempotent(s: string)
    ensures Trim(Trim(s)) == Trim(s)
  {
  }

  // ---------------------------------------------------------------------
  // Case mapping
  // ---------------------------------------------------------------------

  function LowerChar(c: char): (r: char)
    ensures 'A' <= c <= 'Z' ==> 'a' <= r <= 'z'
    ensures !('A' <= c <= 'Z') ==> r == c
  {
    if 'A' <= c <= 'Z' then (c as int - 'A' as int + 'a' as int) as char else c
  }

  /** `s.toLowerCase()`, restricted to the ASCII letters. */
  function ToLower(s: string): (r: string)
    ensures |r| == |s|
    ensures forall i :: 0 <= i < |s| ==> r[i] == LowerChar(s[i])
  {
    seq(|s|, i requires 0 <= i < |s| => LowerChar(s[i]))
  }

  /** The upper-case twin of `LowerChar`. It is exact on the ASCII audio
      extensions it is applied to. */
  function UpperChar(c: char): (r: char)
    ensures 'a' <= c <= 'z' ==> 'A' <= r <= 'Z'
    ensures !('a' <= c <= 'z') ==> r == c
  {
    if 'a' <= c <= 'z' then (c as int - 'a' as int + 'A' as int) as char else c
  }

  /** `s.toUpperCase()`, restricted to the ASCII letters. */
  function ToUpper(s: string): (r: string)
    ensures |r| == |s|
    ensures forall i :: 0 <= i < |s| ==> r[i] == UpperChar(s[i])
  {
    seq(|s|, i requires 0 <= i < |s| => UpperChar(s[i]))
  }

  lemma ToLowerIdempotent(s: string)
    ensures ToLower(ToLower(s)) == ToLower(s)
  {
  }

  lemma ToLowerConcat(a: string, b: string)
    ensures ToLower(a + b) == ToLower(a) + ToLower(b)
  {
  }

  // ---------------------------------------------------------------------
  // Searching
  // ---------------------------------------------------------------------

  predicate OccursAt(s: string, t: string, i: int) {
    0 <= i && i + |t| <= |s| && s[i..i + |t|] == t
  }

  /** `s.indexOf(t)` with -1 rendered as `None`: the leftmost occurrence. */
  function IndexOf(s: string, t: string): (r: Option<nat>)
    ensures r.Some? ==> OccursAt(s, t, r.value)
  {
    if |s| < |t| then None
    else if s[..|t|] == t then Some(0)
    else match IndexOf(s[1..], t)
      case None => None
      case Some(i) =>
        assert s[i + 1..i + 1 + |t|] == s[1..][i..i + |t|];
        Some(i + 1)
  }

  /** `indexOf` finds the leftmost occurrence, and fails only when there is none. */
  lemma {:induction false} IndexOfLeftmost(s: string, t: string)
    ensures IndexOf(s, t).Some? ==> forall j :: 0 <= j < IndexOf(s, t).value ==> !OccursAt(s, t, j)
    decreases |s|
  {
    if |s| >= |t| && s[..|t|] != t {
      IndexOfLeftmost(s[1..], t);
      forall j | 1 <= j
        ensures OccursAt(s, t, j) <==> OccursAt(s[1..], t, j - 1)
      {
        OccursShift(s, t, j);
      }
    }
  }

  lemma {:induction false} IndexOfNone(s: string, t: string)
    ensures IndexOf(s, t).None? <==> forall j :: !OccursAt(s, t, j)
    decreases |s|
  {
    if |s| >= |t| && s[..|t|] != t {
      IndexOfNone(s[1..], t);
      forall j | 1 <= j
        ensures OccursAt(s, t, j) <==> OccursAt(s[1..], t, j - 1)
      {
        OccursShift(s, t, j);
      }
    }
  }

  lemma OccursShift(s: string, t: string, j: int)
    requires 1 <= j && s != []
    ensures OccursAt(s, t, j) <==> OccursAt(s[1..], t, j - 1)
  {
    if j + |t| <= |s| {
      var a, b := s[j..j + |t|], s[1..][j - 1..j - 1 + |t|];
      forall k | 0 <= k < |t|
        ensures a[k] == b[k]
      {
        assert a[k] == s[j + k];
        assert b[k] == s[1..][j - 1 + k];
      }
      assert a == b;
    }
  }

  /** `s.includes(t)`. */
  predicate Contains(s: string, t: string) {
    IndexOf(s, t).Some?
  }

  /** `s.startsWith(t)`. */
  predicate StartsWith(s: string, t: string) {
    |t| <= |s| && s[..|t|] == t
  }

  /** `s.replace(pat, rep)` with a string pattern: only the first occurrence. */
  function ReplaceFirst(s: string, pat: string, rep: string): (r: string) {
    match IndexOf(s, pat)
    case None => s
    case Some(i) => s[..i] + rep + s[i + |pat|..]
  }

  lemma ReplaceFirstPrefix(s: string, pat: string, rep: string)
    requires StartsWith(s, pat)
    ensures ReplaceFirst(s, pat, rep) == rep + s[|pat|..]
  {
    assert OccursAt(s, pat, 0);
  }

  // ---------------------------------------------------------------------
  // split / join
  // ---------------------------------------------------------------------

  /** `s.split(sep)` for a non-empty separator: cut at every leftmost,
      non-overlapping occurrence. */
  function Split(s: string, sep: string): (r: seq<string>)
    requires |sep| > 0
    ensures |r| >= 1
    decreases |s|
  {
    if |s| < |sep| then [s]
    else if s[..|sep|] == sep then [""] + Split(s[|sep|..], sep)
    else
      var rest := Split(s[1..], sep);
      [[s[0]] + rest[0]] + rest[1..]
  }

  /** `parts.join(sep)`. */
  function Join(parts: seq<string>, sep: string): string {
    if |parts| == 0 then ""
    else if |parts| == 1 then parts[0]
    else parts[0] + sep + Join(parts[1..], sep)
  }

  lemma {:induction false} SplitJoin(s: string, sep: string)
    requires |sep| > 0
    ensures Join(Split(s, sep), sep) == s
    decreases |s|
  {
    if |s| < |sep| {
    } else if s[..|sep|] == sep {
      SplitJoin(s[|sep|..], sep);
      var rest := Split(s[|sep|..], sep);
      assert Split(s, sep) == [""] + rest;
      assert s == sep + s[|sep|..];
    } else {
      SplitJoin(s[1..], sep);
      var rest := Split(s[1..], sep);
      if |rest| == 1 {
        assert s == [s[0]] + s[1..];
      } else {
        assert Join(rest, sep) == rest[0] + sep + Join(rest[1..], sep);
        assert Split(s, sep)[1..] == rest[1..];
        assert s == [s[0]] + s[1..];
      }
    }
  }

  /** Without a separator, the split is the whole string. */
  lemma {:induction false} SplitNoSep(s: string, sep: string)
    requires |sep| > 0 && IndexOf(s, sep).None?
    ensures Split(s, sep) == [s]
    decreases |s|
  {
    if |s| >= |sep| {
      assert s[..|sep|] != sep;
      assert IndexOf(s[1..], sep).None?;
      SplitNoSep(s[1..], sep);
      assert s == [s[0]] + s[1..];
    }
  }

  /** The first piece of a split is the text before the first separator
      and the remaining pieces are the split of the text after it. */
  lemma {:induction false} SplitAtFirst(s: string, sep: string, i: nat)
    requires |sep| > 0 && IndexOf(s, sep) == Some(i)
    ensures |Split(s, sep)| >= 2 && Split(s, sep)[0] == s[..i]
    ensures Split(s, sep)[1..] == Split(s[i + |sep|..], sep)
    decreases |s|
  {
    if s[..|sep|] != sep {
      assert IndexOf(s[1..], sep) == Some(i - 1);
      SplitAtFirst(s[1..], sep, i - 1);
      assert s[1..][i - 1 + |sep|..] == s[i + |sep|..];
      assert [s[0]] + s[1..][..i - 1] == s[..i];
    }
  }

  lemma SplitLength(s: string, sep: string)
    requires |sep| > 0
    ensures |Split(s, sep)| >= 2 <==> Contains(s, sep)
  {
    match IndexOf(s, sep)
    case None => SplitNoSep(s, sep);
    case Some(i) => SplitAtFirst(s, sep, i);
  }

  function Last<T>(s: seq<T>): T
    requires |s| > 0
  {
    s[|s| - 1]
  }

  /** A split with a single piece returns the input unchanged. */
  lemma {:induction false} SplitSingle(s: string, sep: string)
    requires |sep| > 0 && |Split(s, sep)| == 1
    ensures Split(s, sep) == [s]
    decreases |s|
  {
    if |s| >= |sep| && s[..|sep|] != sep {
      SplitSingle(s[1..], sep);
      assert [s[0]] + s[1..] == s;
    }
  }

  /** `r` is the text after the last `c` in `s`: a suffix of `s` free of `c`
      that is either all of `s` or preceded by `c`. */
  ghost predicate IsAfterLast(r: string, s: string, c: char) {
    |r| <= |s| && r == s[|s| - |r|..] &&
    (forall i :: 0 <= i < |r| ==> r[i] != c) &&
    (|r| < |s| ==> s[|s| - |r| - 1] == c)
  }

  /** `s.split(c).pop()` is the text after the last `c` (all of `s` when
      `c` does not occur in it). */
  lemma {:induction false} SplitPop(s: string, c: char)
    ensures IsAfterLast(Last(Split(s, [c])), s, c)
    decreases |s|
  {
    if s == [] {
      assert Split(s, [c]) == [[]];
    } else {
      SplitPop(s[1..], c);
      if s[0] == c {
        SplitPopSep(s, c);
      } else {
        SplitPopOther(s, c);
      }
    }
  }

  lemma SplitPopSep(s: string, c: char)
    requires s != [] && s[0] == c
    requires IsAfterLast(Last(Split(s[1..], [c])), s[1..], c)
    ensures IsAfterLast(Last(Split(s, [c])), s, c)
  {
    assert s[..1] == [c];
    var rest := Split(s[1..], [c]);
    assert Split(s, [c]) == [""] + rest;
    assert Last(Split(s, [c])) == Last(rest);
    AfterLastExtend(Last(rest), s, c);
  }

  lemma SplitPopOther(s: string, c: char)
    requires s != [] && s[0] != c
    requires IsAfterLast(Last(Split(s[1..], [c])), s[1..], c)
    ensures IsAfterLast(Last(Split(s, [c])), s, c)
  {
    var t := s[1..];
    assert s[..1][0] != [c][0];
    var rest := Split(t, [c]);
    assert Split(s, [c]) == [[s[0]] + rest[0]] + rest[1..];
    if |rest| == 1 {
      SplitPopOtherSingle(s, c);
    } else {
      SplitPopOtherMany(s, c);
    }
  }

  lemma SplitPopOtherSingle(s: string, c: char)
    requires s != [] && s[0] != c && |Split(s[1..], [c])| == 1
    requires IsAfterLast(Last(Split(s[1..], [c])), s[1..], c)
    requires Split(s, [c]) == [[s[0]] + Split(s[1..], [c])[0]]
    ensures IsAfterLast(Last(Split(s, [c])), s, c)
  {
    var t := s[1..];
    SplitSingle(t, [c]);
    assert [s[0]] + t == s;
    AfterLastWhole(s, c);
  }

  lemma SplitPopOtherMany(s: string, c: char)
    requires s != [] && |Split(s[1..], [c])| >= 2
    requires IsAfterLast(Last(Split(s[1..], [c])), s[1..], c)
    requires Split(s, [c]) == [[s[0]] + Split(s[1..], [c])[0]] + Split(s[1..], [c])[1..]
    ensures IsAfterLast(Last(Split(s, [c])), s, c)
  {
    var rest := Split(s[1..], [c]);
    SplitLastLength(s[1..], [c]);
    assert Last(Split(s, [c])) == Last(rest);
    AfterLastExtend(Last(rest), s, c);
  }

  /** The last piece of a split is no longer than the input, and is shorter
      by at least the separator when there are several pieces. */
  lemma {:induction false} SplitLastLength(s: string, sep: string)
    requires |sep| > 0
    ensures |Last(Split(s, sep))| <= |s|
    ensures |Split(s, sep)| >= 2 ==> |Last(Split(s, sep))| + |sep| <= |s|
    decreases |s|
  {
    if |s| >= |sep| {
      if s[..|sep|] == sep {
        SplitLastLength(s[|sep|..], sep);
      } else {
        SplitLastLength(s[1..], sep);
      }
    }
  }

  lemma AfterLastExtend(r: string, s: string, c: char)
    requires s != [] && IsAfterLast(r, s[1..], c) && (|r| < |s| - 1 || s[0] == c)
    ensures IsAfterLast(r, s, c)
  {
  }

  lemma AfterLastWhole(s: string, c: char)
    requires s != [] && s[0] != c && IsAfterLast(s[1..], s[1..], c)
    ensures IsAfterLast(s, s, c)
  {
    forall i | 1 <= i < |s|
      ensures s[i] != c
    {
      assert s[i] == s[1..][i - 1];
    }
  }

  /** The text after the last `c` is determined by `s` and `c`. */
  lemma AfterLastUnique(r1: string, r2: string, s: string, c: char)
    requires IsAfterLast(r1, s, c) && IsAfterLast(r2, s, c)
    ensures r1 == r2
  {
  }

  /** Lowercasing commutes with taking the text after the last `c`, for a
      `c` that is not a letter. */
  lemma AfterLastLower(r: string, s: string, c: char)
    requires IsAfterLast(r, s, c) && !('A' <= c <= 'Z') && !('a' <= c <= 'z')
    ensures IsAfterLast(ToLower(r), ToLower(s), c)
  {
    var lr, ls := ToLower(r), ToLower(s);
    assert lr == ls[|ls| - |lr|..];
  }

  /** Splitting a join of pieces free of the separator character gives the pieces back. */
  lemma {:induction false} JoinSplit(parts: seq<string>, c: char)
    requires |parts| >= 1 && forall i :: 0 <= i < |parts| ==> c !in parts[i]
    ensures Split(Join(parts, [c]), [c]) == parts
  {
    var a := parts[0];
    NoCharNoOccurrence(a, c);
    if |parts| == 1 {
      SplitNoSep(a, [c]);
    } else {
      var rest := Join(parts[1..], [c]);
      var s := a + [c] + rest;
      assert OccursAt(s, [c], |a|);
      forall j | 0 <= j < |a| ensures !OccursAt(s, [c], j) {
        assert s[j..j + 1][0] == a[j];
      }
      IndexOfFirst(s, [c], |a|);
      SplitAtFirst(s, [c], |a|);
      assert s[..|a|] == a;
      assert s[|a| + 1..] == rest;
      JoinSplit(parts[1..], c);
      assert parts == [a] + parts[1..];
    }
  }

  lemma NoCharNoOccurrence(a: string, c: char)
    requires c !in a
    ensures IndexOf(a, [c]).None?
  {
    forall j | 0 <= j < |a| ensures !OccursAt(a, [c], j) {
      assert a[j..j + 1][0] == a[j];
    }
    IndexOfNone(a, [c]);
  }

  /** An occurrence with none before it is the one `indexOf` returns. */
  lemma IndexOfFirst(s: string, t: string, i: nat)
    requires OccursAt(s, t, i) && forall j :: 0 <= j < i ==> !OccursAt(s, t, j)
    ensures IndexOf(s, t) == Some(i)
  {
    IndexOfNone(s, t);
    IndexOfLeftmost(s, t);
    if IndexOf(s, t).Some? {
      var k := IndexOf(s, t).value;
      assert OccursAt(s, t, k);
    }
  }

  // ---------------------------------------------------------------------
  // Digits, parseInt and number formatting
  // ---------------------------------------------------------------------

  predicate IsDigitIn(c: char, base: nat) {
    if base == 16 then ('0' <= c <= '9') || ('a' <= c <= 'f') || ('A' <= c <= 'F')
    else '0' <= c <= '9'
  }

  function DigitValue(c: char): (v: nat)
    ensures '0' <= c <= '9' ==> v < 10
    ensures IsDigitIn(c, 16) ==> v < 16
  {
    if '0' <= c <= '9' then c as int - '0' as int
    else if 'a' <= c <= 'f' then c as int - 'a' as int + 10
    else if 'A' <= c <= 'F' then c as int - 'A' as int + 10
    else 0
  }

  /** The positional value of a digit string in `base`. */
  function DigitsValue(ds: string, base: nat): nat {
    if ds == [] then 0 else DigitsValue(ds[..|ds| - 1], base) * base + DigitValue(ds[|ds| - 1])
  }

  /** The longest prefix of `s` made of digits of `base`. */
  function DigitPrefix(s: string, base: nat): (r: string)
    ensures |r| <= |s| && r == s[..|r|]
    ensures forall i :: 0 <= i < |r| ==> IsDigitIn(r[i], base)
    ensures |r| < |s| ==> !IsDigitIn(s[|r|], base)
  {
    if s != [] && IsDigitIn(s[0], base) then [s[0]] + DigitPrefix(s[1..], base) else []
  }

  /** `parseInt(s, radix)` with `radix` 0 (absent), 10 or 16; `None` is `NaN`.
      Leading whitespace is skipped, one sign is accepted, a `0x`/`0X` prefix
      selects base 16 unless the radix is 10, and the longest run of digits
      that follows is read. */
  function ParseInt(s: string, radix: nat): (r: Option<int>)
    requires radix == 0 || radix == 10 || radix == 16
  {
    ParseSigned(TrimStart(s), radix)
  }

  function ParseSigned(t: string, radix: nat): (r: Option<int>)
    requires radix == 0 || radix == 10 || radix == 16
  {
    if t != [] && t[0] == '-' then
      match ParseUnsigned(t[1..], radix)
      case None => None
      case Some(v) => var w: int := v; Some(-w)
    else if t != [] && t[0] == '+' then ParseUnsigned(t[1..], radix)
    else ParseUnsigned(t, radix)
  }

  function ParseUnsigned(u: string, radix: nat): (r: Option<nat>)
    requires radix == 0 || radix == 10 || radix == 16
  {
    if radix != 10 && |u| >= 2 && u[0] == '0' && (u[1] == 'x' || u[1] == 'X') then ParseDigits(u[2..], 16)
    else ParseDigits(u, if radix == 16 then 16 else 10)
  }

  function ParseDigits(u: string, base: nat): (r: Option<nat>)
    ensures r.None? <==> u == [] || !IsDigitIn(u[0], base)
  {
    var ds := DigitPrefix(u, base);
    if ds == [] then None else Some(DigitsValue(ds, base))
  }

  /** A string made of decimal digits only is read back as its value. */
  lemma ParseIntDigits(ds: string, radix: nat)
    requires radix == 0 || radix == 10
    requires ds != [] && forall i :: 0 <= i < |ds| ==> '0' <= ds[i] <= '9'
    requires |ds| >= 2 ==> ds[1] != 'x' && ds[1] != 'X'
    ensures ParseInt(ds, radix) == Some(DigitsValue(ds, 10))
  {
    TrimStartDigits(ds);
    SignedDigits(ds, radix);
    UnsignedDigits(ds, radix);
    DigitPrefixAll(ds, 10);
  }

  /** Two hexadecimal digits are read back by `parseInt(_, 16)` as their
      value. */
  lemma ParseHexPair(ds: string)
    requires |ds| == 2 && IsDigitIn(ds[0], 16) && IsDigitIn(ds[1], 16)
    ensures ParseInt(ds, 16) == Some(DigitsValue(ds, 16))
  {
    assert !IsSpace(ds[0]);
    assert TrimStart(ds) == ds;
    DigitPrefixAll(ds, 16);
  }

  lemma TrimStartDigits(ds: string)
    requires ds != [] && '0' <= ds[0] <= '9'
    ensures TrimStart(ds) == ds
  {
    assert !IsSpace(ds[0]);
  }

  lemma SignedDigits(ds: string, radix: nat)
    requires radix == 0 || radix == 10
    requires ds != [] && '0' <= ds[0] <= '9'
    ensures ParseSigned(ds, radix) == ParseUnsigned(ds, radix)
  {
  }

  lemma UnsignedDigits(ds: string, radix: nat)
    requires radix == 0 || radix == 10
    requires ds != [] && '0' <= ds[0] <= '9'
    requires |ds| >= 2 ==> ds[1] != 'x' && ds[1] != 'X'
    ensures ParseUnsigned(ds, radix) == ParseDigits(ds, 10)
  {
  }

  lemma {:induction false} DigitPrefixAll(ds: string, base: nat)
    requires forall i :: 0 <= i < |ds| ==> IsDigitIn(ds[i], base)
    ensures DigitPrefix(ds, base) == ds
  {
    if ds != [] {
      DigitPrefixAll(ds[1..], base);
    }
  }

  function DigitChar(d: nat): (c: char)
    requires d < 10
    ensures '0' <= c <= '9' && DigitValue(c) == d
  {
    (d + '0' as int) as char
  }

  /** `String(n)` for a natural number: its decimal digits, no leading zero. */
  function NatToString(n: nat): (r: string)
    ensures |r| >= 1 && forall i :: 0 <= i < |r| ==> '0' <= r[i] <= '9'
    ensures n < 10 <==> |r| == 1
    ensures r[0] == '0' ==> n == 0
  {
    if n < 10 then [DigitChar(n)] else NatToString(n / 10) + [DigitChar(n % 10)]
  }

  /** Reading back the decimal rendering of `n` gives `n`. */
  lemma {:induction false} NatToStringRoundTrip(n: nat)
    ensures DigitsValue(NatToString(n), 10) == n
  {
    if n >= 10 {
      NatToStringRoundTrip(n / 10);
      var s := NatToString(n);
      assert s[..|s| - 1] == NatToString(n / 10);
    }
  }

  lemma NatToStringInjective(m: nat, n: nat)
    ensures NatToString(m) == NatToString(n) ==> m == n
  {
    NatToStringRoundTrip(m);
    NatToStringRoundTrip(n);
  }

  /** `s.padStart(2, '0')`. */
  function PadStart2(s: string): (r: string)
    ensures |r| == if |s| < 2 then 2 else |s|
  {
    if |s| == 0 then "00" else if |s| == 1 then "0" + s else s
  }
}
