/** Python `str` semantics that the modelled code relies on: character classes,
    `lower`, `strip`, `find`, `split`, `splitlines`, `join`, slicing with negative
    indices, and the `int`/`float` conversions of decimal text. */
module PyText {

  /** An element of a Python `bytes` value. */
  newtype Byte = x: int | 0 <= x < 256

  // ---------------------------------------------------------------- characters

  predicate IsAsciiUpper(c: char) { 'A' <= c <= 'Z' }
  predicate IsAsciiLower(c: char) { 'a' <= c <= 'z' }
  predicate IsDigit(c: char) { '0' <= c <= '9' }
  predicate IsAsciiAlpha(c: char) { IsAsciiUpper(c) || IsAsciiLower(c) }
  predicate IsAsciiAlnum(c: char) { IsAsciiAlpha(c) || IsDigit(c) }

  /** `str.isspace()` for one character, which is also what the `re` module's `\s`
      matches in a `str` pattern: the ASCII separators, the information separators
      \x1c-\x1f, NEL, NBSP and the Unicode space characters. */
  predicate IsSpace(c: char) {
    c == ' ' || ('\t' <= c <= '\r') || ('\U{1c}' <= c <= '\U{1f}') || c == '\U{85}' || c == '\U{a0}'
    || c == '\U{1680}' || ('\U{2000}' <= c <= '\U{200a}') || c == '\U{2028}' || c == '\U{2029}'
    || c == '\U{202f}' || c == '\U{205f}' || c == '\U{3000}'
  }

  /** The characters `str.splitlines()` splits at. */
  predicate IsLineBoundary(c: char) {
    ('\n' <= c <= '\r') || ('\U{1c}' <= c <= '\U{1e}') || c == '\U{85}' || c == '\U{2028}' || c == '\U{2029}'
  }

  /** Non-ASCII punctuation and symbols that `\w` does not match: the Latin-1
      signs (except the letters and digits among them), the multiplication and
      division signs, general punctuation and CJK brackets and stops. */
  predicate IsNonWordSymbol(c: char) {
    var n := c as int;
    (0xA1 <= n <= 0xBF && n != 0xAA && n != 0xB2 && n != 0xB3 && n != 0xB5 && n != 0xB9 && n != 0xBA
      && n != 0xBC && n != 0xBD && n != 0xBE)
    || n == 0xD7 || n == 0xF7 || (0x2010 <= n <= 0x205E) || (0x3001 <= n <= 0x3003) || (0x3008 <= n <= 0x3011)
  }

  /** The word characters of `\w`: ASCII letters, digits and underscore, and the
      non-ASCII characters that are neither whitespace nor punctuation. */
  predicate IsWordChar(c: char) {
    IsAsciiAlnum(c) || c == '_' || (c as int >= 128 && !IsSpace(c) && !IsNonWordSymbol(c))
  }

  /** A non-ASCII letter among those `Lower` maps: a word character that is
      neither whitespace nor a digit. */
  predicate WideLetter(c: char)
    ensures WideLetter(c) ==> IsWordChar(c) && !IsSpace(c) && !IsDigit(c)
  {
    0xC0 <= c as int < 0x1F00 && c as int != 0xD7 && c as int != 0xF7 && c as int != 0x1680
  }

  /** `str.lower()` on one character, for ASCII, Latin-1, Latin Extended-A (except
      the dotted capital I, whose lowercase is two characters), the Vietnamese
      letters and basic Cyrillic; other characters are kept. */
  function Lower(c: char): (r: char)
    ensures IsAsciiUpper(c) ==> IsAsciiLower(r)
    ensures !IsAsciiUpper(r)
    ensures IsWordChar(r) == IsWordChar(c) && IsSpace(r) == IsSpace(c) && IsDigit(r) == IsDigit(c)
    ensures c as int < 128 <==> r as int < 128
  {
    if 'A' <= c <= 'Z' then (c as int + 32) as char
    else if c as int < 0xC0 then c
    else if c as int < 0x180 then LowerLatin(c)
    else LowerOther(c)
  }

  /** The Latin-1 and Latin Extended-A part of `Lower`. */
  function LowerLatin(c: char): (r: char)
    requires 0xC0 <= c as int < 0x180
    ensures r == c || (WideLetter(c) && WideLetter(r))
    ensures LowerCode(r as int) == r as int
  {
    var n := c as int;
    if n <= 0xDE && n != 0xD7 then (n + 32) as char
    else if 0x100 <= n <= 0x137 && n % 2 == 0 && n != 0x130 then (n + 1) as char
    else if 0x139 <= n <= 0x148 && n % 2 == 1 then (n + 1) as char
    else if 0x14A <= n <= 0x177 && n % 2 == 0 then (n + 1) as char
    else if n == 0x178 then 0xFF as char
    else if 0x179 <= n <= 0x17E && n % 2 == 1 then (n + 1) as char
    else c
  }

  /** The Vietnamese and Cyrillic part of `Lower`. */
  function LowerOther(c: char): (r: char)
    requires 0x180 <= c as int
    ensures r == c || (WideLetter(c) && WideLetter(r))
    ensures LowerCode(r as int) == r as int
  {
    var n := c as int;
    if n == 0x1A0 || n == 0x1AF then (n + 1) as char
    else if 0x400 <= n <= 0x40F then (n + 80) as char
    else if 0x410 <= n <= 0x42F then (n + 32) as char
    else if 0x1EA0 <= n <= 0x1EF9 && n % 2 == 0 then (n + 1) as char
    else c
  }

  /** The code-point mapping of `Lower` as one case table. */
  ghost function LowerCode(n: int): int {
    if 0x41 <= n <= 0x5A || (0xC0 <= n <= 0xDE && n != 0xD7) then n + 32
    else if (0x100 <= n <= 0x137 && n % 2 == 0 && n != 0x130) || (0x14A <= n <= 0x177 && n % 2 == 0)
         || (0x1EA0 <= n <= 0x1EF9 && n % 2 == 0) then n + 1
    else if (0x139 <= n <= 0x148 && n % 2 == 1) || (0x179 <= n <= 0x17E && n % 2 == 1) then n + 1
    else if n == 0x178 then 0xFF
    else if n == 0x1A0 || n == 0x1AF then n + 1
    else if 0x400 <= n <= 0x40F then n + 80
    else if 0x410 <= n <= 0x42F then n + 32
    else n
  }

  /** Lowering twice is lowering once. */
  lemma LowerIdempotent(c: char)
    ensures Lower(Lower(c)) == Lower(c)
  {
  }

  function Upper(c: char): (r: char)
    ensures !IsAsciiLower(r)
  {
    if IsAsciiLower(c) then (c as int - 32) as char else c
  }

  /** `s.lower()` on ASCII letters (other characters are kept). */
  function LowerStr(s: string): (r: string)
    ensures |r| == |s|
    ensures forall i :: 0 <= i < |s| ==> r[i] == Lower(s[i])
  {
    seq(|s|, i requires 0 <= i < |s| => Lower(s[i]))
  }

  /** `s.upper()` on ASCII letters. */
  function UpperStr(s: string): (r: string)
    ensures |r| == |s|
    ensures forall i :: 0 <= i < |s| ==> r[i] == Upper(s[i])
  {
    seq(|s|, i requires 0 <= i < |s| => Upper(s[i]))
  }

  lemma LowerStrAppend(a: string, b: string)
    ensures LowerStr(a + b) == LowerStr(a) + LowerStr(b)
  {
  }

  lemma LowerStrSlice(s: string, i: int, j: int)
    requires 0 <= i <= j <= |s|
    ensures LowerStr(s[i..j]) == LowerStr(s)[i..j]
  {
  }

  /** Text made of lowercase characters is its own lowercase. */
  lemma LowerStrOfLower(s: string)
    requires forall i :: 0 <= i < |s| ==> Lower(s[i]) == s[i]
    ensures LowerStr(s) == s
  {
  }

  lemma LowerStrIdempotent(s: string)
    ensures LowerStr(LowerStr(s)) == LowerStr(s)
  {
    forall i | 0 <= i < |s| ensures LowerStr(LowerStr(s))[i] == LowerStr(s)[i] {
      LowerIdempotent(s[i]);
    }
  }

  /** `s.replace(a, b)` for single characters. */
  function ReplaceChar(s: string, a: char, b: char): (r: string)
    ensures |r| == |s|
    ensures forall i :: 0 <= i < |s| ==> r[i] == if s[i] == a then b else s[i]
  {
    seq(|s|, i requires 0 <= i < |s| => if s[i] == a then b else s[i])
  }

  /** `s.replace(a, "")` for a single character. */
  function RemoveChar(s: string, a: char): (r: string)
    ensures a !in r
    ensures forall c :: c in r ==> c in s
    ensures |r| <= |s|
  {
    if s == [] then [] else (if s[0] == a then [] else [s[0]]) + RemoveChar(s[1..], a)
  }

  /** `s.count(c)` for a single character. */
  function CountChar(s: string, c: char): nat {
    if s == [] then 0 else (if s[0] == c then 1 else 0) + CountChar(s[1..], c)
  }

  predicate AllDigits(s: string) { forall i :: 0 <= i < |s| ==> IsDigit(s[i]) }
  predicate IsDigits(s: string) { |s| >= 1 && AllDigits(s) }

  // ------------------------------------------------------------ substrings

  predicate StartsWith(s: string, p: string) { |p| <= |s| && s[..|p|] == p }
  predicate EndsWith(s: string, p: string) { |p| <= |s| && s[|s| - |p|..] == p }

  /** `sub` occurs in `s` at index `i`. */
  predicate OccursAt(s: string, sub: string, i: int) {
    0 <= i && i + |sub| <= |s| && s[i..i + |sub|] == sub
  }

  /** `sub in s`. */
  predicate Contains(s: string, sub: string) {
    exists i :: 0 <= i <= |s| && OccursAt(s, sub, i)
  }

  /** `s.find(sub, i)` (-1 when absent). */
  function FindFrom(s: string, sub: string, i: nat): (r: int)
    requires i <= |s|
    decreases |s| - i
    ensures r == -1 || (i <= r && OccursAt(s, sub, r))
    ensures r == -1 ==> forall j :: i <= j ==> !OccursAt(s, sub, j)
    ensures r != -1 ==> forall j :: i <= j < r ==> !OccursAt(s, sub, j)
  {
    if OccursAt(s, sub, i) then i
    else if i == |s| then -1
    else FindFrom(s, sub, i + 1)
  }

  /** `s.find(sub)`: the first index of `sub`, or -1. */
  function Find(s: string, sub: string): (r: int)
    ensures r == -1 <==> !Contains(s, sub)
    ensures r != -1 ==> OccursAt(s, sub, r) && forall j :: 0 <= j < r ==> !OccursAt(s, sub, j)
  {
    FindFrom(s, sub, 0)
  }

  /** `s.rfind(sub)`: the last index of `sub`, or -1. */
  function RFind(s: string, sub: string): (r: int)
    ensures r == -1 <==> !Contains(s, sub)
    ensures r != -1 ==> OccursAt(s, sub, r) && forall j :: r < j ==> !OccursAt(s, sub, j)
  {
    RFindBelow(s, sub, |s|)
  }

  function RFindBelow(s: string, sub: string, i: nat): (r: int)
    requires i <= |s|
    ensures r == -1 || (r <= i && OccursAt(s, sub, r))
    ensures r == -1 ==> forall j :: j <= i ==> !OccursAt(s, sub, j)
    ensures r != -1 ==> forall j :: r < j ==> !OccursAt(s, sub, j) || i < j
  {
    if OccursAt(s, sub, i) then i
    else if i == 0 then -1
    else RFindBelow(s, sub, i - 1)
  }

  /** `any(p in t for p in ps)`: one of the phrases occurs somewhere in the text. */
  function ContainsAny(t: string, ps: seq<string>): (b: bool)
    ensures b <==> exists k :: 0 <= k < |ps| && Contains(t, ps[k])
  {
    if ps == [] then false else Contains(t, ps[0]) || ContainsAny(t, ps[1..])
  }

  /** A text lacking one of the characters of `w` does not contain `w`. */
  lemma AbsentChar(s: string, w: string, c: char)
    requires c in w && c !in s
    ensures !Contains(s, w)
  {
    forall i | 0 <= i <= |s| && OccursAt(s, w, i)
      ensures false
    {
    }
  }

  /** A text lacking, for each word of `ps`, one of that word's characters
      (given in `cs`) contains none of them. */
  lemma AbsentChars(s: string, ps: seq<string>, cs: seq<char>)
    requires |cs| == |ps|
    requires forall k :: 0 <= k < |ps| ==> cs[k] in ps[k] && cs[k] !in s
    ensures !ContainsAny(s, ps)
  {
    forall k | 0 <= k < |ps|
      ensures !Contains(s, ps[k])
    {
      AbsentChar(s, ps[k], cs[k]);
    }
  }

  /** `sub in s` decided by scanning; equal to `Contains`. */
  function Has(s: string, sub: string): (b: bool)
    ensures b == Contains(s, sub)
  {
    Find(s, sub) != -1
  }

  /** `s.split(sub, 1)[0]`: the text before the first `sub`, or all of `s`. */
  function BeforeFirst(s: string, sub: string): (r: string)
    ensures StartsWith(s, r)
    ensures |sub| > 0 ==> !Contains(r, sub)
    ensures !Contains(s, sub) ==> r == s
  {
    var k := Find(s, sub);
    if k == -1 then s
    else
      assert forall j :: OccursAt(s[..k], sub, j) ==> OccursAt(s, sub, j);
      s[..k]
  }

  /** `s.split(sub, 1)[1]`: the text after the first `sub`; None where Python
      would raise IndexError because `sub` does not occur. */
  function AfterFirst(s: string, sub: string): (r: Option<string>)
    ensures r.Some? <==> Contains(s, sub)
    ensures r.Some? ==> s == BeforeFirst(s, sub) + sub + r.value
  {
    var k := Find(s, sub);
    if k == -1 then None
    else
      assert s == s[..k] + s[k..k + |sub|] + s[k + |sub|..];
      Some(s[k + |sub|..])
  }

  // ----------------------------------------------------------------- strip

  /** Where `s.strip()` starts inside `s`: the first non-whitespace
      position, or `|s|`. */
  function StripOffset(s: string): (k: nat)
    ensures k <= |s|
  {
    SpaceRun(s, 0)
  }

  /** Where `s.rstrip()` ends, scanning back from `j`. */
  function StripEnd(s: string, j: nat): (e: nat)
    requires j <= |s|
    ensures e <= j
    ensures forall i :: e <= i < j ==> IsSpace(s[i])
    ensures e == 0 || !IsSpace(s[e - 1])
  {
    if j > 0 && IsSpace(s[j - 1]) then StripEnd(s, j - 1) else j
  }

  /** `s.strip()`: `s` without its leading and trailing whitespace. */
  function Strip(s: string): (r: string)
    ensures |r| <= |s|
    ensures r == [] || (!IsSpace(r[0]) && !IsSpace(r[|r| - 1]))
    ensures StripOffset(s) + |r| <= |s| && r == s[StripOffset(s)..StripOffset(s) + |r|]
    ensures (forall i :: 0 <= i < |s| ==> IsSpace(s[i])) <==> r == []
  {
    var a := StripOffset(s);
    if a == |s| then []
    else
      var e := StripEnd(s, |s|);
      assert a < e;
      s[a..e]
  }

  /** An occurrence that neither starts nor ends with whitespace survives
      `strip()`. */
  lemma StripKeepsOccurrence(s: string, w: string, i: nat)
    requires OccursAt(s, w, i) && w != [] && !IsSpace(w[0]) && !IsSpace(w[|w| - 1])
    ensures Contains(Strip(s), w)
  {
    var r := Strip(s);
    var k := StripOffset(s);
    StripBorders(s);
    assert s[i] == w[0] && s[i + |w| - 1] == w[|w| - 1];
    assert k <= i && i + |w| <= k + |r|;
    OccursInSlice(s, w, i, k, k + |r|);
    assert OccursAt(r, w, i - k);
  }

  /** An occurrence inside a slice is an occurrence in the slice. */
  lemma OccursInSlice(s: string, w: string, i: nat, a: nat, b: nat)
    requires OccursAt(s, w, i) && a <= i && i + |w| <= b <= |s|
    ensures OccursAt(s[a..b], w, i - a)
  {
    var u := s[a..b];
    var x, y := u[i - a..i - a + |w|], s[i..i + |w|];
    assert |x| == |y|;
    forall t | 0 <= t < |w| ensures x[t] == y[t] {
      assert x[t] == u[i - a + t] == s[i + t];
    }
    assert x == y;
  }

  /** An occurrence in a slice is an occurrence in the whole text. */
  lemma OccursOfSlice(s: string, w: string, a: nat, b: nat)
    requires a <= b <= |s|
    ensures forall k :: OccursAt(s[a..b], w, k) ==> OccursAt(s, w, a + k)
  {
    forall k | OccursAt(s[a..b], w, k) ensures OccursAt(s, w, a + k) {
      var u := s[a..b];
      forall t | 0 <= t < |w| ensures s[a + k..a + k + |w|][t] == w[t] {
        assert s[a + k + t] == u[k + t] == u[k..k + |w|][t];
      }
    }
  }

  /** A text put between two others occurs where the first one ends. */
  lemma OccursBetween(x: string, w: string, y: string)
    ensures OccursAt(x + (w + y), w, |x|)
  {
    var s := x + (w + y);
    forall t | 0 <= t < |w| ensures s[|x|..|x| + |w|][t] == w[t] {
      assert s[|x| + t] == (w + y)[t];
    }
  }

  /** What `strip()` removes is whitespace on both sides. */
  lemma StripBorders(s: string)
    ensures forall i :: 0 <= i < StripOffset(s) ==> IsSpace(s[i])
    ensures forall i :: StripOffset(s) + |Strip(s)| <= i < |s| ==> IsSpace(s[i])
  {
  }

  lemma StripOfStripped(s: string)
    requires s == [] || (!IsSpace(s[0]) && !IsSpace(s[|s| - 1]))
    ensures Strip(s) == s
  {
  }

  /** `s.strip(c)` for one character. */
  function StripChar(s: string, c: char): (r: string)
    ensures |r| <= |s|
    ensures r == [] || (r[0] != c && r[|r| - 1] != c)
    ensures forall x :: x in r ==> x in s
    ensures (forall i :: 0 <= i < |s| ==> s[i] != c) ==> r == s
  {
    if s != [] && s[0] == c then StripChar(s[1..], c)
    else if s != [] && s[|s| - 1] == c then StripChar(s[..|s| - 1], c)
    else s
  }

  /** `s.rstrip(c)` for one character. */
  function RStripChar(s: string, c: char): (r: string)
    ensures StartsWith(s, r)
    ensures r == [] || r[|r| - 1] != c
    ensures forall i :: |r| <= i < |s| ==> s[i] == c
  {
    if s != [] && s[|s| - 1] == c then RStripChar(s[..|s| - 1], c) else s
  }

  // ------------------------------------------------------------- slicing

  /** Python's normalisation of one slice bound: negative counts from the end,
      and the result is clamped to 0..len. */
  function SliceBound(i: int, len: nat): (r: nat)
    ensures r <= len
    ensures 0 <= i <= len ==> r == i
  {
    var j := if i < 0 then i + len else i;
    if j < 0 then 0 else if j > len then len else j
  }

  /** `s[start:end]` with Python's rules for negative and out-of-range bounds. */
  function PySlice<T>(s: seq<T>, start: int, end: int): (r: seq<T>)
    ensures 0 <= start <= end <= |s| ==> r == s[start..end]
    ensures |r| <= |s|
  {
    var a := SliceBound(start, |s|);
    var b := SliceBound(end, |s|);
    if a < b then s[a..b] else []
  }

  /** `s[:n]` for `n >= 0`. */
  function Take<T>(s: seq<T>, n: nat): (r: seq<T>)
    ensures |r| == if n < |s| then n else |s|
    ensures r == s[..|r|]
  {
    if n < |s| then s[..n] else s
  }

  // --------------------------------------------------------- split / join

  /** `sep.join(parts)`. */
  function Join(parts: seq<string>, sep: string): string {
    if parts == [] then []
    else if |parts| == 1 then parts[0]
    else parts[0] + sep + Join(parts[1..], sep)
  }

  lemma JoinCons(p: string, parts: seq<string>, sep: string)
    requires parts != []
    ensures Join([p] + parts, sep) == p + sep + Join(parts, sep)
  {
    assert ([p] + parts)[1..] == parts;
  }

  /** A joined text starts with its first part. */
  lemma JoinStarts(parts: seq<string>, sep: string)
    requires parts != []
    ensures StartsWith(Join(parts, sep), parts[0])
  {
    if |parts| > 1 {
      assert Join(parts, sep)[..|parts[0]|] == parts[0];
    }
  }

  /** A text joined from a head and more parts starts with the head, the
      separator and the first of the parts; with no more parts it is the head. */
  lemma JoinHead(p: string, rest: seq<string>, sep: string)
    ensures rest == [] ==> Join([p] + rest, sep) == p
    ensures rest != [] ==> StartsWith(Join([p] + rest, sep), p + sep + rest[0])
    ensures StartsWith(Join([p] + rest, sep), p)
  {
    if rest != [] {
      JoinCons(p, rest, sep);
      JoinStarts(rest, sep);
      assert (p + sep + Join(rest, sep))[..|p + sep + rest[0]|] == p + sep + rest[0];
    }
  }

  /** The first index of character `c` in `s` from `i`, or -1. */
  function IndexOfChar(s: string, c: char, i: nat): (r: int)
    requires i <= |s|
    decreases |s| - i
    ensures r == -1 ==> forall j :: i <= j < |s| ==> s[j] != c
    ensures r != -1 ==> i <= r < |s| && s[r] == c && forall j :: i <= j < r ==> s[j] != c
  {
    if i == |s| then -1 else if s[i] == c then i else IndexOfChar(s, c, i + 1)
  }

  /** `s.split(sep)` for a one-character separator. */
  function Split(s: string, sep: char): (r: seq<string>)
    decreases |s|
    ensures |r| >= 1
    ensures forall k :: 0 <= k < |r| ==> sep !in r[k]
  {
    var k := IndexOfChar(s, sep, 0);
    if k == -1 then [s] else [s[..k]] + Split(s[k + 1..], sep)
  }

  /** Splitting at a separator and joining with it gives the text back. */
  lemma {:induction false} SplitJoin(s: string, sep: char)
    decreases |s|
    ensures Join(Split(s, sep), [sep]) == s
  {
    var k := IndexOfChar(s, sep, 0);
    if k != -1 {
      SplitJoin(s[k + 1..], sep);
      JoinCons(s[..k], Split(s[k + 1..], sep), [sep]);
      assert s == s[..k] + [sep] + s[k + 1..];
    }
  }

  /** Joining parts free of the separator and splitting again gives the parts back. */
  lemma {:induction false} JoinSplit(parts: seq<string>, sep: char)
    requires |parts| >= 1
    requires forall k :: 0 <= k < |parts| ==> sep !in parts[k]
    ensures Split(Join(parts, [sep]), sep) == parts
  {
    if |parts| == 1 {
      assert IndexOfChar(parts[0], sep, 0) == -1;
    } else {
      var rest := Join(parts[1..], [sep]);
      var s := parts[0] + [sep] + rest;
      JoinCons(parts[0], parts[1..], [sep]);
      assert parts == [parts[0]] + parts[1..];
      assert s[|parts[0]|] == sep;
      assert forall j :: 0 <= j < |parts[0]| ==> s[j] == parts[0][j];
      assert IndexOfChar(s, sep, 0) == |parts[0]|;
      assert s[|parts[0]| + 1..] == rest;
      assert s[..|parts[0]|] == parts[0];
      JoinSplit(parts[1..], sep);
      assert Split(s, sep) == [parts[0]] + Split(rest, sep);
    }
  }

  /** The first index in `s` at or after `i` of a character `str.splitlines` splits at. */
  function LineBreakFrom(s: string, i: nat): (r: nat)
    requires i <= |s|
    decreases |s| - i
    ensures i <= r <= |s|
    ensures forall j :: i <= j < r ==> !IsLineBoundary(s[j])
    ensures r < |s| ==> IsLineBoundary(s[r])
  {
    if i == |s| || IsLineBoundary(s[i]) then i else LineBreakFrom(s, i + 1)
  }

  /** `s.splitlines()`: lines without their terminators; "\r\n" is one terminator
      and a final terminator does not start an empty line. */
  function SplitLines(s: string): (r: seq<string>)
    decreases |s|
    ensures forall k, j :: 0 <= k < |r| && 0 <= j < |r[k]| ==> !IsLineBoundary(r[k][j])
    ensures s == [] <==> r == []
  {
    if s == [] then []
    else
      var k := LineBreakFrom(s, 0);
      if k == |s| then [s]
      else
        var w := if s[k] == '\r' && k + 1 < |s| && s[k + 1] == '\n' then 2 else 1;
        [s[..k]] + SplitLines(s[k + w..])
  }

  lemma SplitLinesOfOneLine(s: string)
    requires s != [] && forall j :: 0 <= j < |s| ==> !IsLineBoundary(s[j])
    ensures SplitLines(s) == [s]
  {
  }

  /** The length of the leading run of whitespace. */
  function SpaceRun(s: string, i: nat): (r: nat)
    requires i <= |s|
    decreases |s| - i
    ensures i <= r <= |s|
    ensures forall j :: i <= j < r ==> IsSpace(s[j])
    ensures r < |s| ==> !IsSpace(s[r])
  {
    if i < |s| && IsSpace(s[i]) then SpaceRun(s, i + 1) else i
  }

  /** The end of the run of non-whitespace characters starting at `i`. */
  function WordRun(s: string, i: nat): (r: nat)
    requires i <= |s|
    decreases |s| - i
    ensures i <= r <= |s|
    ensures forall j :: i <= j < r ==> !IsSpace(s[j])
    ensures r < |s| ==> IsSpace(s[r])
  {
    if i < |s| && !IsSpace(s[i]) then WordRun(s, i + 1) else i
  }

  /** `s.split(maxsplit=1)`: the first whitespace-separated word and, when more
      text follows, the rest with its leading whitespace removed. */
  function SplitOnce(s: string): (r: seq<string>)
    ensures |r| <= 2
    ensures r == [] <==> forall i :: 0 <= i < |s| ==> IsSpace(s[i])
    ensures forall k :: 0 <= k < |r| ==> r[k] != [] && !IsSpace(r[k][0])
    ensures |r| >= 1 ==> forall j :: 0 <= j < |r[0]| ==> !IsSpace(r[0][j])
  {
    var a := SpaceRun(s, 0);
    if a == |s| then []
    else
      var b := WordRun(s, a);
      var c := SpaceRun(s, b);
      assert forall j :: 0 <= j < b - a ==> s[a..b][j] == s[a + j];
      if c == |s| then [s[a..b]] else [s[a..b], s[c..]]
  }

  // ------------------------------------------------------- numbers as text

  function DigitChar(d: nat): (c: char)
    requires d < 10
    ensures IsDigit(c)
  {
    ('0' as int + d) as char
  }

  function DigitValue(c: char): (d: nat)
    requires IsDigit(c)
    ensures d < 10 && DigitChar(d) == c
  {
    c as int - '0' as int
  }

  /** The decimal digits of a natural number, without leading zeros. */
  function NatToString(n: nat): (s: string)
    ensures IsDigits(s)
    ensures |s| > 1 ==> s[0] != '0'
    decreases n
  {
    if n < 10 then [DigitChar(n)] else NatToString(n / 10) + [DigitChar(n % 10)]
  }

  /** `str(n)` for an integer. */
  function IntToString(n: int): (s: string)
    ensures s != []
    ensures n >= 0 ==> IsDigits(s)
    ensures n < 0 ==> s[0] == '-' && IsDigits(s[1..])
  {
    if n >= 0 then NatToString(n) else "-" + NatToString(-n)
  }

  /** The value of a string of decimal digits. */
  function DigitsValue(s: string): (n: nat)
    requires AllDigits(s)
    decreases |s|
  {
    if s == [] then 0 else 10 * DigitsValue(s[..|s| - 1]) + DigitValue(s[|s| - 1])
  }

  lemma {:induction false} DigitsValueOfNat(n: nat)
    decreases n
    ensures DigitsValue(NatToString(n)) == n
  {
    if n >= 10 {
      var s := NatToString(n);
      assert s[..|s| - 1] == NatToString(n / 10);
      DigitsValueOfNat(n / 10);
    }
  }

  lemma {:induction false} DigitsValueBound(s: string)
    requires AllDigits(s)
    decreases |s|
    ensures DigitsValue(s) < Pow10(|s|)
  {
    if s != [] { DigitsValueBound(s[..|s| - 1]); }
  }

  function Pow10(k: nat): (p: nat)
    ensures p >= 1
  {
    if k == 0 then 1 else 10 * Pow10(k - 1)
  }

  /** `int(s)` for decimal text: surrounding whitespace, an optional sign and at
      least one digit; anything else fails (Python raises `ValueError`). */
  function ParseInt(s: string): (r: Option<int>)
  {
    SignedInt(Strip(s))
  }

  /** An optional sign followed by digits, with nothing around them. */
  function SignedInt(t: string): (r: Option<int>)
  {
    if t != [] && (t[0] == '-' || t[0] == '+') && IsDigits(t[1..]) then
      Some(if t[0] == '-' then -(DigitsValue(t[1..]) as int) else DigitsValue(t[1..]) as int)
    else if IsDigits(t) then Some(DigitsValue(t) as int)
    else None
  }

  /** `int(str(n)) == n`. */
  lemma IntRoundTrip(n: int)
    ensures ParseInt(IntToString(n)) == Some(n)
  {
    var s := IntToString(n);
    assert !IsSpace(s[0]) && !IsSpace(s[|s| - 1]);
    StripOfStripped(s);
    if n >= 0 {
      DigitsValueOfNat(n);
      assert s[0] != '-' && s[0] != '+';
    } else {
      DigitsValueOfNat(-n);
      assert s[1..] == NatToString(-n);
    }
  }

  /** `float(s)` for plain decimal text: surrounding whitespace, an optional sign,
      digits with an optional fractional part ("12", "12.5", "12.", ".5"). */
  function ParseDecimal(s: string): (r: Option<real>)
  {
    var t := Strip(s);
    if t != [] && (t[0] == '-' || t[0] == '+') then
      match UnsignedDecimal(t[1..])
      case Some(v) => Some(if t[0] == '-' then -v else v)
      case None => None
    else UnsignedDecimal(t)
  }

  function UnsignedDecimal(t: string): (r: Option<real>)
    ensures r.Some? ==> r.value >= 0.0
  {
    var k := IndexOfChar(t, '.', 0);
    if k == -1 then
      if IsDigits(t) then Some(DigitsValue(t) as real) else None
    else
      var ip := t[..k];
      var fp := t[k + 1..];
      if AllDigits(ip) && AllDigits(fp) && |ip| + |fp| >= 1 then
        Some(DigitsValue(ip) as real + DigitsValue(fp) as real / Pow10(|fp|) as real)
      else None
  }

  lemma DecimalOfDigits(s: string)
    requires IsDigits(s)
    ensures ParseDecimal(s) == Some(DigitsValue(s) as real)
  {
    assert !IsSpace(s[0]) && !IsSpace(s[|s| - 1]);
    StripOfStripped(s);
    assert s[0] != '-' && s[0] != '+';
    DecimalUnsigned(s);
    UnsignedOfDigits(s);
  }

  lemma DecimalUnsigned(s: string)
    requires Strip(s) == [] || (Strip(s)[0] != '-' && Strip(s)[0] != '+')
    ensures ParseDecimal(s) == UnsignedDecimal(Strip(s))
  {
  }

  lemma UnsignedOfDigits(t: string)
    requires IsDigits(t)
    ensures UnsignedDecimal(t) == Some(DigitsValue(t) as real)
  {
    assert IndexOfChar(t, '.', 0) == -1;
  }

  // ------------------------------------------------------- runs of a class

  /** The end of the run of characters of class `p` starting at `i`. */
  function RunEnd(s: string, p: char -> bool, i: nat): (e: nat)
    requires i <= |s|
    ensures i <= e <= |s|
    ensures forall j :: i <= j < e ==> p(s[j])
    ensures e < |s| ==> !p(s[e])
    decreases |s| - i
  {
    if i < |s| && p(s[i]) then RunEnd(s, p, i + 1) else i
  }

  /** `re.sub("[...]+", c, s)` for the character class `p`: every maximal run
      of characters of the class becomes the one character `c`. */
  function ReplaceRuns(s: string, p: char -> bool, c: char): (r: string)
    ensures |r| <= |s|
    ensures forall i :: 0 <= i < |r| ==> r[i] == c || !p(r[i])
    decreases |s|
  {
    if s == [] then []
    else if p(s[0]) then [c] + ReplaceRuns(s[RunEnd(s, p, 0)..], p, c)
    else [s[0]] + ReplaceRuns(s[1..], p, c)
  }

  /** Text without a character of the class is left as it is. */
  lemma {:induction false} ReplaceRunsOfClean(s: string, p: char -> bool, c: char)
    requires forall i :: 0 <= i < |s| ==> !p(s[i])
    ensures ReplaceRuns(s, p, c) == s
    decreases |s|
  {
    if s != [] {
      ReplaceRunsOfClean(s[1..], p, c);
    }
  }

  /** A run that is not cut at the end of `a` is found in `a` alone. */
  lemma RunEndAppend(a: string, b: string, p: char -> bool, i: nat)
    requires i <= |a|
    requires RunEnd(a, p, i) < |a| || b == [] || !p(b[0])
    ensures RunEnd(a + b, p, i) == RunEnd(a, p, i)
    decreases |a| - i
  {
    if i < |a| && p(a[i]) {
      RunEndAppend(a, b, p, i + 1);
    }
  }

  lemma ConcatAssoc(x: string, y: string, z: string)
    ensures x + y + z == x + (y + z)
  {
  }

  /** Replacing runs works piecewise when no run crosses the seam. */
  lemma {:induction false} ReplaceRunsAppend(a: string, b: string, p: char -> bool, c: char)
    requires a == [] || b == [] || !p(b[0]) || !p(a[|a| - 1])
    ensures ReplaceRuns(a + b, p, c) == ReplaceRuns(a, p, c) + ReplaceRuns(b, p, c)
    decreases |a|
  {
    if a == [] {
      assert a + b == b;
    } else if p(a[0]) {
      ReplaceRunsAppendRun(a, b, p, c);
    } else {
      ReplaceRunsAppendPlain(a, b, p, c);
    }
  }

  /** `ReplaceRunsAppend` when `a` starts outside the class. */
  lemma {:induction false} ReplaceRunsAppendPlain(a: string, b: string, p: char -> bool, c: char)
    requires a != [] && !p(a[0])
    requires b == [] || !p(b[0]) || !p(a[|a| - 1])
    ensures ReplaceRuns(a + b, p, c) == ReplaceRuns(a, p, c) + ReplaceRuns(b, p, c)
    decreases |a|, 0
  {
    var rest := a[1..];
    assert (a + b)[0] == a[0] && (a + b)[1..] == rest + b;
    ReplaceRunsPlainHead(a + b, p, c);
    ReplaceRunsPlainHead(a, p, c);
    assert ReplaceRuns(a + b, p, c) == [a[0]] + ReplaceRuns(rest + b, p, c);
    if rest == [] {
      assert rest + b == b;
    } else {
      assert rest[|rest| - 1] == a[|a| - 1];
      ReplaceRunsAppend(rest, b, p, c);
      assert ReplaceRuns(rest + b, p, c) == ReplaceRuns(rest, p, c) + ReplaceRuns(b, p, c);
      ConcatAssoc([a[0]], ReplaceRuns(rest, p, c), ReplaceRuns(b, p, c));
    }
  }

  lemma ReplaceRunsPlainHead(s: string, p: char -> bool, c: char)
    requires s != [] && !p(s[0])
    ensures ReplaceRuns(s, p, c) == [s[0]] + ReplaceRuns(s[1..], p, c)
  {
  }

  lemma ReplaceRunsRunHead(s: string, p: char -> bool, c: char)
    requires s != [] && p(s[0])
    ensures ReplaceRuns(s, p, c) == [c] + ReplaceRuns(s[RunEnd(s, p, 0)..], p, c)
  {
  }

  /** `ReplaceRunsAppend` when `a` starts with a run. */
  lemma {:induction false} ReplaceRunsAppendRun(a: string, b: string, p: char -> bool, c: char)
    requires a != [] && p(a[0])
    requires b == [] || !p(b[0]) || !p(a[|a| - 1])
    ensures ReplaceRuns(a + b, p, c) == ReplaceRuns(a, p, c) + ReplaceRuns(b, p, c)
    decreases |a|, 0
  {
    var e := RunEnd(a, p, 0);
    var rest := a[e..];
    RunEndAppend(a, b, p, 0);
    assert (a + b)[0] == a[0];
    assert (a + b)[e..] == rest + b;
    ReplaceRunsRunHead(a + b, p, c);
    ReplaceRunsRunHead(a, p, c);
    if e == |a| {
      assert rest + b == b && rest == [];
    } else {
      ReplaceRunsAppend(rest, b, p, c);
      ConcatAssoc([c], ReplaceRuns(rest, p, c), ReplaceRuns(b, p, c));
    }
  }

  /** A whole run of any length becomes one `c`. */
  lemma ReplaceRunsOfRun(run: string, p: char -> bool, c: char)
    requires run != [] && forall i :: 0 <= i < |run| ==> p(run[i])
    ensures ReplaceRuns(run, p, c) == [c]
  {
    assert RunEnd(run, p, 0) == |run|;
  }

  /** Replacing runs of a class that holds the replacement never puts two
      replacements side by side, and the first character tells what starts
      the result. */
  lemma {:induction false} ReplaceRunsSingles(s: string, p: char -> bool, c: char)
    requires p(c)
    ensures var r := ReplaceRuns(s, p, c);
      && (s == [] <==> r == [])
      && (s != [] && p(s[0]) ==> r[0] == c)
      && (s != [] && !p(s[0]) ==> r[0] == s[0])
      && forall i :: 0 <= i < |r| - 1 ==> !(r[i] == c && r[i + 1] == c)
    decreases |s|
  {
    if s != [] {
      var r := ReplaceRuns(s, p, c);
      if p(s[0]) {
        var rest := s[RunEnd(s, p, 0)..];
        ReplaceRunsSingles(rest, p, c);
        assert r == [c] + ReplaceRuns(rest, p, c);
      } else {
        ReplaceRunsSingles(s[1..], p, c);
        assert r == [s[0]] + ReplaceRuns(s[1..], p, c);
      }
    }
  }

  /** Each run between two characters outside the class becomes exactly one
      `c`. */
  lemma RunBecomesOne(a: string, run: string, b: string, p: char -> bool, c: char)
    requires run != [] && forall i :: 0 <= i < |run| ==> p(run[i])
    requires a == [] || !p(a[|a| - 1])
    requires b == [] || !p(b[0])
    ensures ReplaceRuns(a + run + b, p, c) == ReplaceRuns(a, p, c) + [c] + ReplaceRuns(b, p, c)
  {
    var rb := run + b;
    ReplaceRunsAppend(run, b, p, c);
    ReplaceRunsOfRun(run, p, c);
    assert rb[0] == run[0];
    ReplaceRunsAppend(a, rb, p, c);
    ConcatAssoc(a, run, b);
    ConcatAssoc(ReplaceRuns(a, p, c), [c], ReplaceRuns(b, p, c));
  }

  /** Text made only of the class and of characters of another class `q`
      that holds `c` gives only characters of `q`. */
  lemma {:induction false} ReplaceRunsWithin(s: string, p: char -> bool, q: char -> bool, c: char)
    requires q(c) && forall i :: 0 <= i < |s| ==> p(s[i]) || q(s[i])
    ensures forall i :: 0 <= i < |ReplaceRuns(s, p, c)| ==> q(ReplaceRuns(s, p, c)[i])
    decreases |s|
  {
    if s != [] {
      if p(s[0]) {
        ReplaceRunsWithin(s[RunEnd(s, p, 0)..], p, q, c);
      } else {
        ReplaceRunsWithin(s[1..], p, q, c);
      }
    }
  }

  // ------------------------------------------------------ repr of a string

  /** The quote `repr()` puts around a string: a double quote when the text
      holds a single quote and no double quote, a single quote otherwise. */
  function ReprQuote(s: string): (q: char)
    ensures q == '\'' || q == '"'
    ensures q == '"' <==> '\'' in s && '"' !in s
  {
    if '\'' in s && '"' !in s then '"' else '\''
  }

  /** A lower-case hexadecimal digit. */
  function HexDigit(d: nat): (c: char)
    requires d < 16
  {
    if d < 10 then ('0' as int + d) as char else ('a' as int + d - 10) as char
  }

  /** The value of a lower-case hexadecimal digit. */
  function HexValue(c: char): nat {
    if '0' <= c <= '9' then c as int - '0' as int
    else if 'a' <= c <= 'f' then c as int - 'a' as int + 10
    else 0
  }

  /** How `repr()` writes one character between quotes `q`: the backslash and
      the quote are escaped, tab, newline and carriage return get their letters,
      and the other ASCII control characters a `\x` code. */
  function EscapeChar(c: char, q: char): (r: string)
    ensures r != [] && (r[0] == '\\' <==> c == '\\' || c == q || c < ' ' || c == '\U{7f}')
  {
    if c == '\\' || c == q then ['\\', c]
    else if c == '\t' then "\\t"
    else if c == '\n' then "\\n"
    else if c == '\r' then "\\r"
    else if c < ' ' || c == '\U{7f}' then ['\\', 'x', HexDigit(c as int / 16), HexDigit(c as int % 16)]
    else [c]
  }

  function EscapeStr(s: string, q: char): (r: string)
    ensures |r| >= |s|
  {
    if s == [] then [] else EscapeChar(s[0], q) + EscapeStr(s[1..], q)
  }

  /** `repr(s)`, the form a ValueError quotes its input in. */
  function StrRepr(s: string): (r: string)
    ensures |r| >= |s| + 2 && r[0] == ReprQuote(s) && r[|r| - 1] == ReprQuote(s)
  {
    [ReprQuote(s)] + EscapeStr(s, ReprQuote(s)) + [ReprQuote(s)]
  }

  /** Reading an escaped text back, as Python reads the literal between the
      quotes. */
  function Unescape(t: string): (r: string)
    decreases |t|
  {
    if t == [] then []
    else if t[0] == '\\' && |t| >= 4 && t[1] == 'x' then
      [(HexValue(t[2]) * 16 + HexValue(t[3])) as char] + Unescape(t[4..])
    else if t[0] == '\\' && |t| >= 2 then
      [if t[1] == 't' then '\t' else if t[1] == 'n' then '\n' else if t[1] == 'r' then '\r' else t[1]]
        + Unescape(t[2..])
    else [t[0]] + Unescape(t[1..])
  }

  /** Printable ASCII text without a single quote or a backslash is written
      between single quotes as it is. */
  lemma ReprOfPlain(s: string)
    requires forall i :: 0 <= i < |s| ==> ' ' <= s[i] <= '~' && s[i] != '\'' && s[i] != '\\'
    ensures StrRepr(s) == "'" + s + "'"
  {
    PlainEscaped(s, '\'');
  }

  lemma {:induction false} PlainEscaped(s: string, q: char)
    requires forall i :: 0 <= i < |s| ==> ' ' <= s[i] <= '~' && s[i] != q && s[i] != '\\'
    ensures EscapeStr(s, q) == s
  {
    if s != [] {
      PlainEscaped(s[1..], q);
    }
  }

  /** What `repr()` writes between the quotes reads back as the string. */
  lemma ReprRoundTrip(s: string)
    ensures Unescape(StrRepr(s)[1..(|StrRepr(s)| - 1)]) == s
  {
    var q := ReprQuote(s);
    assert StrRepr(s)[1..(|StrRepr(s)| - 1)] == EscapeStr(s, q);
    EscapeRoundTrip(s, q);
  }

  lemma {:induction false} EscapeRoundTrip(s: string, q: char)
    requires q == '\'' || q == '"'
    ensures Unescape(EscapeStr(s, q)) == s
  {
    if s != [] {
      var rest := EscapeStr(s[1..], q);
      UnescapeUnit(s[0], q, rest);
      EscapeRoundTrip(s[1..], q);
    }
  }

  /** One escaped character in front of more text reads back as itself. */
  lemma UnescapeUnit(c: char, q: char, rest: string)
    requires q == '\'' || q == '"'
    ensures Unescape(EscapeChar(c, q) + rest) == [c] + Unescape(rest)
  {
    var e := EscapeChar(c, q);
    var t := e + rest;
    if c == '\\' || c == q || c == '\t' || c == '\n' || c == '\r' {
      assert |e| == 2 && t[2..] == rest;
    } else if c < ' ' || c == '\U{7f}' {
      var n := c as int;
      assert |e| == 4 && t[4..] == rest;
      assert HexValue(t[2]) == n / 16 && HexValue(t[3]) == n % 16;
    } else {
      assert e == [c] && t[1..] == rest;
    }
  }

  datatype Option<+T> = None | Some(value: T)
}
