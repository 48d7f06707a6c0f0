/** The time and party-size patterns shared by the keyword rules
    (intent/rules.py) and slot refinement (intent/slots.py), written out as the
    regex engine runs them: leftmost search, alternatives in order, greedy
    repetition with backtracking. Both are applied to text that is already
    lowercase, so the case-insensitive flag changes nothing. */
module IntentPatterns {
  import opened PyText
  import opened PyRegex

  /** A match: where it starts and where it (or its group) ends. */
  datatype Span = Span(start: nat, end: nat)

  // ------------------------------------------------------------------- time

  /** The literal alternatives of the English and of the Russian time pattern;
      only the English one also has the `\d{1,2}[ap]m?` alternative. */
  const EnTimeWords: seq<string> := ["now", "today", "tonight", "tomorrow"]
  const RuTimeWords: seq<string> := ["сейчас", "сегодня", "сегодня вечером", "завтра"]

  function TimeWords(ru: bool): seq<string> { if ru then RuTimeWords else EnTimeWords }

  /** The ends of those literal alternatives that occur at `i`, in pattern order. */
  function LiteralEnds(t: string, ws: seq<string>, i: nat): (es: seq<nat>)
    ensures forall k :: 0 <= k < |es| ==> i <= es[k] <= |t| && t[i..(es[k])] in ws
  {
    if ws == [] then []
    else (if OccursAt(t, ws[0], i) then [i + |ws[0]|] else []) + LiteralEnds(t, ws[1..], i)
  }

  lemma {:induction false} LiteralEndsAppend(t: string, a: seq<string>, b: seq<string>, i: nat)
    ensures LiteralEnds(t, a + b, i) == LiteralEnds(t, a, i) + LiteralEnds(t, b, i)
  {
    if a != [] {
      var h := if OccursAt(t, a[0], i) then [i + |a[0]|] else [];
      calc {
        LiteralEnds(t, a + b, i);
        { assert a + b != [] && (a + b)[0] == a[0] && (a + b)[1..] == a[1..] + b; }
        h + LiteralEnds(t, a[1..] + b, i);
        { LiteralEndsAppend(t, a[1..], b, i); }
        h + (LiteralEnds(t, a[1..], i) + LiteralEnds(t, b, i));
        (h + LiteralEnds(t, a[1..], i)) + LiteralEnds(t, b, i);
      }
    } else {
      assert a + b == b;
    }
  }

  /** Clock text: one or two digits, a colon and two digits. */
  predicate IsClock(s: string) {
    (|s| == 4 && IsDigit(s[0]) && s[1] == ':' && IsDigit(s[2]) && IsDigit(s[3]))
    || (|s| == 5 && IsDigit(s[0]) && IsDigit(s[1]) && s[2] == ':' && IsDigit(s[3]) && IsDigit(s[4]))
  }

  /** Hour text: one or two digits, then "a" or "p", then optionally "m". */
  predicate IsAmPm(s: string) {
    AmPmWith(s, 1) || AmPmWith(s, 2)
  }

  predicate AmPmWith(s: string, n: nat) {
    n < |s| <= n + 2 && (forall j :: 0 <= j < n ==> IsDigit(s[j]))
    && (s[n] == 'a' || s[n] == 'p') && (|s| == n + 2 ==> s[n + 1] == 'm')
  }

  /** `\d{n}:\d{2}` at `i`. */
  function ClockEnd(t: string, i: nat, n: nat): (es: seq<nat>)
    requires 1 <= n <= 2
    ensures forall k :: 0 <= k < |es| ==> i <= es[k] <= |t| && IsClock(t[i..(es[k])])
  {
    if DigitsAt(t, i, n) && i + n + 3 <= |t| && t[i + n] == ':' && DigitsAt(t, i + n + 1, 2) then [i + n + 3]
    else []
  }

  /** `\d{n}[ap]m?` at `i`: with the "m" before without it. */
  function AmPmEnd(t: string, i: nat, n: nat): (es: seq<nat>)
    requires 1 <= n <= 2
    ensures forall k :: 0 <= k < |es| ==> i <= es[k] <= |t| && AmPmWith(t[i..(es[k])], n)
  {
    if DigitsAt(t, i, n) && i + n < |t| && (t[i + n] == 'a' || t[i + n] == 'p') then
      if i + n + 1 < |t| && t[i + n + 1] == 'm' then [i + n + 2, i + n + 1]
      else [i + n + 1]
    else []
  }

  /** The time text a pattern accepts between its two word boundaries. */
  predicate TimeShape(s: string, ws: seq<string>, ampm: bool) {
    s in ws || IsClock(s) || (ampm && IsAmPm(s))
  }

  /** The ways the digit alternatives of the time pattern can end at `i`, in
      the order the engine tries them: `\d{1,2}:\d{2}` (two hour digits before
      one) and, in English, `\d{1,2}[ap]m?`. */
  function DigitEnds(t: string, i: nat, ampm: bool): (es: seq<nat>)
    ensures forall k :: 0 <= k < |es| ==> i <= es[k] <= |t| && (IsClock(t[i..(es[k])]) || (ampm && IsAmPm(t[i..(es[k])])))
  {
    ClockEnd(t, i, 2) + ClockEnd(t, i, 1) + (if ampm then AmPmEnd(t, i, 2) + AmPmEnd(t, i, 1) else [])
  }

  /** The first candidate end at which the closing `\b` holds. */
  function FirstBoundary(t: string, es: seq<nat>): (r: Option<nat>)
    ensures r.Some? ==> r.value in es && IsBoundary(t, r.value)
    ensures r.None? <==> forall k :: 0 <= k < |es| ==> !IsBoundary(t, es[k])
  {
    if es == [] then None
    else if IsBoundary(t, es[0]) then Some(es[0])
    else FirstBoundary(t, es[1..])
  }

  /** Once some earlier candidate succeeds, later candidates are never tried. */
  lemma {:induction false} FirstBoundaryAppend(t: string, a: seq<nat>, b: seq<nat>)
    requires exists k :: 0 <= k < |a| && IsBoundary(t, a[k])
    ensures FirstBoundary(t, a + b) == FirstBoundary(t, a)
  {
    assert (a + b)[0] == a[0];
    if !IsBoundary(t, a[0]) {
      assert (a + b)[1..] == a[1..] + b;
      var k :| 0 <= k < |a| && IsBoundary(t, a[k]);
      assert a[1..][k - 1] == a[k];
      FirstBoundaryAppend(t, a[1..], b);
    }
  }

  /** The time pattern at `i`: the opening `\b`, then the first way to end the
      group at a closing `\b`, trying the words before the digit alternatives. */
  function TimeAt(t: string, i: nat, ws: seq<string>, ampm: bool): (r: Option<nat>)
    requires i <= |t|
    ensures r.Some? ==> i <= r.value <= |t| && IsBoundary(t, i) && IsBoundary(t, r.value)
    ensures r.Some? ==> TimeShape(t[i..(r.value)], ws, ampm)
  {
    if !IsBoundary(t, i) then None
    else
      var w := FirstBoundary(t, LiteralEnds(t, ws, i));
      if w.Some? then w else FirstBoundary(t, DigitEnds(t, i, ampm))
  }

  /** The match attempts of the time pattern at every position of `t`. */
  function TimeAttempts(t: string, ws: seq<string>, ampm: bool): (tries: seq<Option<nat>>)
    ensures |tries| == |t| + 1 && forall j :: 0 <= j <= |t| ==> tries[j] == TimeAt(t, j, ws, ampm)
  {
    seq(|t| + 1, j requires 0 <= j <= |t| => TimeAt(t, j, ws, ampm))
  }

  /** The leftmost match of the time pattern. */
  function SearchTime(t: string, ws: seq<string>, ampm: bool): (r: Option<Span>)
    ensures r.Some? ==> r.value.start <= |t| && TimeAt(t, r.value.start, ws, ampm) == Some(r.value.end)
    ensures r.Some? ==> forall j :: 0 <= j < r.value.start ==> TimeAt(t, j, ws, ampm).None?
    ensures r.None? <==> forall j :: 0 <= j <= |t| ==> TimeAt(t, j, ws, ampm).None?
  {
    var tries := TimeAttempts(t, ws, ampm);
    match Leftmost(tries, 0)
    case None => None
    case Some(j) => Some(Span(j, tries[j].value))
  }

  /** `match.group(0)` of a time pattern: text of the expected shape, found at
      the leftmost place where the pattern matches. */
  function TimeMatchOf(t: string, ws: seq<string>, ampm: bool): (r: Option<string>)
    ensures r.Some? ==> TimeShape(r.value, ws, ampm)
    ensures r.None? <==> forall j :: 0 <= j <= |t| ==> TimeAt(t, j, ws, ampm).None?
  {
    match SearchTime(t, ws, ampm)
    case None => None
    case Some(sp) => Some(t[sp.start..sp.end])
  }

  /** The English or the Russian time pattern. */
  function TimeMatch(t: string, ru: bool): (r: Option<string>)
    ensures r.Some? ==> TimeShape(r.value, TimeWords(ru), !ru)
  {
    TimeMatchOf(t, TimeWords(ru), !ru)
  }

  /** An alternative `x + z`, where `x` ends in a word character and `z` starts
      with a non-word one, listed after `x`, can never be the match: `x` always
      matches first at the same place. */
  lemma ShadowedAlternative(t: string, a: seq<string>, b: seq<string>, ampm: bool, x: string, z: string)
    requires x in a && x != [] && IsWordChar(x[|x| - 1]) && z != [] && !IsWordChar(z[0])
    requires x + z !in a
    ensures TimeMatchOf(t, a + b, ampm) != Some(x + z)
  {
    var r := SearchTime(t, a + b, ampm);
    if r.Some? {
      ShadowedAt(t, r.value.start, a, b, ampm, x, z);
    }
  }

  lemma ShadowedAt(t: string, i: nat, a: seq<string>, b: seq<string>, ampm: bool, x: string, z: string)
    requires i <= |t|
    requires x in a && x != [] && IsWordChar(x[|x| - 1]) && z != [] && !IsWordChar(z[0])
    requires x + z !in a
    ensures TimeAt(t, i, a + b, ampm).Some? ==> t[i..TimeAt(t, i, a + b, ampm).value] != x + z
  {
    var r := TimeAt(t, i, a + b, ampm);
    if r.Some? && t[i..r.value] == x + z {
      var e := r.value;
      var y := x + z;
      assert OccursAt(t, x, i) by { assert t[i..i + |x|] == t[i..e][..|x|] == y[..|x|] == x; }
      assert IsBoundary(t, i + |x|) by {
        assert t[i + |x| - 1] == t[i..e][|x| - 1] == x[|x| - 1];
        assert t[i + |x|] == t[i..e][|x|] == z[0];
      }
      ShadowAt(t, i, a, b, ampm, x);
    }
  }

  /** Where an alternative of `a` matches whole, the match is a word of `a`. */
  lemma ShadowAt(t: string, i: nat, a: seq<string>, b: seq<string>, ampm: bool, x: string)
    requires i <= |t| && IsBoundary(t, i) && x in a && OccursAt(t, x, i) && IsBoundary(t, i + |x|)
    ensures TimeAt(t, i, a + b, ampm).Some? && t[i..TimeAt(t, i, a + b, ampm).value] in a
  {
    var xa :| 0 <= xa < |a| && a[xa] == x;
    var la := LiteralEnds(t, a, i);
    LiteralEndsHas(t, a, i, xa);
    BoundaryHit(t, la, i + |x|);
    LiteralEndsAppend(t, a, b, i);
    FirstBoundaryAppend(t, la, LiteralEnds(t, b, i));
    TimeAtLiteral(t, i, a + b, ampm);
    var w := FirstBoundary(t, la).value;
    var j :| 0 <= j < |la| && la[j] == w;
    assert t[i..la[j]] in a;
  }

  /** A candidate end in `es` where the closing `\b` holds. */
  lemma BoundaryHit(t: string, es: seq<nat>, e: nat)
    requires e in es && IsBoundary(t, e)
    ensures exists k :: 0 <= k < |es| && IsBoundary(t, es[k])
  {
    var k :| 0 <= k < |es| && es[k] == e;
  }

  /** When a literal alternative ends at a closing `\b`, the time pattern
      takes the first such end. */
  lemma TimeAtLiteral(t: string, i: nat, ws: seq<string>, ampm: bool)
    requires i <= |t| && IsBoundary(t, i) && FirstBoundary(t, LiteralEnds(t, ws, i)).Some?
    ensures TimeAt(t, i, ws, ampm) == FirstBoundary(t, LiteralEnds(t, ws, i))
  {
  }

  lemma {:induction false} LiteralEndsHas(t: string, ws: seq<string>, i: nat, k: nat)
    requires k < |ws| && OccursAt(t, ws[k], i)
    ensures i + |ws[k]| in LiteralEnds(t, ws, i)
  {
    if k > 0 {
      assert ws[1..][k - 1] == ws[k];
      LiteralEndsHas(t, ws[1..], i, k - 1);
    }
  }

  /** The Russian alternative "сегодня вечером" can never be the match, because
      "сегодня" is tried first and the space after it is a word boundary. */
  lemma TodayEveningNeverMatched(t: string)
    ensures TimeMatch(t, true) != Some("сегодня вечером")
  {
    var a := ["сейчас", "сегодня"];
    var b := ["сегодня вечером", "завтра"];
    assert RuTimeWords == a + b;
    assert "сегодня вечером" == "сегодня" + " вечером";
    ShadowedAlternative(t, a, b, false, "сегодня", " вечером");
  }

  // --------------------------------------------------------------- people

  /** The number words of the party-size pattern, in pattern order: "one" is 1. */
  const NumberWords: seq<string> := ["one", "two", "three", "four", "five", "six", "seven", "eight", "nine", "ten"]

  /** The optional leading words `(?:for|для|für)?`. */
  const PrefixWords: seq<string> := ["for", "для", "für"]

  /** The nouns of intent/rules.py and the longer list of intent/slots.py. */
  const RulesNouns: seq<string> := ["people", "persons", "человек", "людей"]
  const SlotsNouns: seq<string> := ["people", "persons", "человек", "людей", "người", "personen", "명"]

  /** Some noun alternative occurs at `m`. */
  predicate NounAt(t: string, m: nat, nouns: seq<string>) {
    exists k :: 0 <= k < |nouns| && OccursAt(t, nouns[k], m)
  }

  /** `NounAt` decided by trying the nouns in order. */
  function NounFound(t: string, m: nat, nouns: seq<string>): (b: bool)
    ensures b == NounAt(t, m, nouns)
  {
    if nouns == [] then false
    else if OccursAt(t, nouns[0], m) then true
    else
      var b := NounFound(t, m, nouns[1..]);
      assert NounAt(t, m, nouns[1..]) ==> NounAt(t, m, nouns) by {
        if NounAt(t, m, nouns[1..]) {
          var k :| 0 <= k < |nouns[1..]| && OccursAt(t, nouns[1..][k], m);
          assert nouns[k + 1] == nouns[1..][k];
        }
      }
      b
  }

  /** What the group must be followed by: `\s*` and a noun. The greedy `\s*`
      keeps every space, since the noun cannot start with one. */
  predicate Tail(t: string, g: nat, nouns: seq<string>)
    requires g <= |t|
  {
    NounAt(t, SpaceRun(t, g), nouns)
  }

  /** `\d{1,3}` at `k` and the tail, trying `n` digits, then fewer. */
  function DigitGroup(t: string, k: nat, n: nat, nouns: seq<string>): (g: Option<nat>)
    requires k <= |t|
    ensures g.Some? ==> k < g.value <= k + n && g.value <= |t| && DigitsAt(t, k, g.value - k) && Tail(t, g.value, nouns)
  {
    if n == 0 then None
    else if DigitsAt(t, k, n) && NounFound(t, SpaceRun(t, k + n), nouns) then Some(k + n)
    else DigitGroup(t, k, n - 1, nouns)
  }

  /** The number words at `k` and the tail, trying the words in order. */
  function WordGroup(t: string, k: nat, ws: seq<string>, nouns: seq<string>): (g: Option<nat>)
    requires k <= |t|
    ensures g.Some? ==> k <= g.value <= |t| && t[k..(g.value)] in ws && Tail(t, g.value, nouns)
  {
    if ws == [] then None
    else if OccursAt(t, ws[0], k) && NounFound(t, SpaceRun(t, k + |ws[0]|), nouns) then Some(k + |ws[0]|)
    else WordGroup(t, k, ws[1..], nouns)
  }

  /** A group of the party-size pattern: one to three digits, or a number word. */
  predicate PeopleShape(g: string) {
    (1 <= |g| <= 3 && AllDigits(g)) || g in NumberWords
  }

  /** The group alternatives at `k`: the digits with all their backtracking
      first, then the words. */
  function GroupAt(t: string, k: nat, nouns: seq<string>): (g: Option<nat>)
    requires k <= |t|
    ensures g.Some? ==> k <= g.value <= |t| && PeopleShape(t[k..(g.value)]) && Tail(t, g.value, nouns)
  {
    match DigitGroup(t, k, 3, nouns)
    case Some(g) => Some(g)
    case None => WordGroup(t, k, NumberWords, nouns)
  }

  /** After the optional leading word: `\s*`, then the group. The greedy `\s*`
      keeps every space, since the group cannot start with one. */
  function AfterPrefix(t: string, j: nat, nouns: seq<string>): (r: Option<Span>)
    requires j <= |t|
    ensures r.Some? ==> r.value.start <= r.value.end <= |t| && PeopleShape(t[r.value.start..(r.value.end)])
  {
    var k := SpaceRun(t, j);
    var g := GroupAt(t, k, nouns);
    if g.None? then None else Some(Span(k, g.value))
  }

  /** The pattern at `i`, trying each leading word in order and then none. */
  function PrefixTry(t: string, i: nat, ps: seq<string>, nouns: seq<string>): (r: Option<Span>)
    requires i <= |t|
    ensures r.Some? ==> r.value.start <= r.value.end <= |t| && PeopleShape(t[r.value.start..(r.value.end)])
  {
    if ps == [] then AfterPrefix(t, i, nouns)
    else if OccursAt(t, ps[0], i) && AfterPrefix(t, i + |ps[0]|, nouns).Some? then AfterPrefix(t, i + |ps[0]|, nouns)
    else PrefixTry(t, i, ps[1..], nouns)
  }

  /** The match attempts of the party-size pattern at every position. */
  function PeopleAttempts(t: string, nouns: seq<string>): (tries: seq<Option<Span>>)
    ensures |tries| == |t| + 1 && forall j :: 0 <= j <= |t| ==> tries[j] == PrefixTry(t, j, PrefixWords, nouns)
  {
    seq(|t| + 1, j requires 0 <= j <= |t| => PrefixTry(t, j, PrefixWords, nouns))
  }

  /** `match.group(1)` of the party-size pattern at its leftmost match. */
  function PeopleGroup(t: string, nouns: seq<string>): (r: Option<string>)
    ensures r.Some? ==> PeopleShape(r.value)
    ensures r.None? <==> forall j :: 0 <= j <= |t| ==> PrefixTry(t, j, PrefixWords, nouns).None?
  {
    var tries := PeopleAttempts(t, nouns);
    var j := Leftmost(tries, 0);
    if j.None? then None
    else
      var sp := tries[j.value].value;
      assert PrefixTry(t, j.value, PrefixWords, nouns) == Some(sp);
      Some(t[sp.start..sp.end])
  }

  /** The position of a number word, from 0. */
  function WordIndex(g: string, ws: seq<string>): (k: nat)
    requires g in ws
    ensures k < |ws| && ws[k] == g
    ensures forall j :: 0 <= j < k ==> ws[j] != g
  {
    if ws[0] == g then 0 else 1 + WordIndex(g, ws[1..])
  }

  /** `word_to_digit.get(g, int(g) if g.isdigit() else None)`. */
  function PeopleCount(g: string): (r: Option<nat>)
    ensures g in NumberWords ==> r.Some? && 1 <= r.value <= 10
  {
    if g in NumberWords then Some(WordIndex(g, NumberWords) + 1)
    else if IsDigits(g) then Some(DigitsValue(g))
    else None
  }

  /** Every group the pattern can capture gives a count: 1 to 10 from a word, up
      to 999 from digits, so the `pop` of the source never happens. */
  lemma PeopleCountOfGroup(g: string)
    requires PeopleShape(g)
    ensures PeopleCount(g).Some?
    ensures g in NumberWords ==> 1 <= PeopleCount(g).value <= 10
    ensures g !in NumberWords ==> PeopleCount(g).value <= 999 && PeopleCount(g).value == DigitsValue(g)
  {
    if g !in NumberWords {
      DigitsValueBound(g);
      assert Pow10(|g|) <= 1000 by {
        assert Pow10(1) == 10 && Pow10(2) == 100 && Pow10(3) == 1000;
      }
    }
  }
}
