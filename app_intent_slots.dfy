/** Slot extraction of the `app.intent` package (app/intent/slots.py): the base
    slots are copied, then the time, party size, location and rental term are
    filled in from four case-insensitive patterns searched in the message.
    Each pattern is written out as the regex engine runs it on the lowercased
    message; lowercasing keeps every character's class (word character,
    whitespace, digit) and every index, so the matched text is cut from the
    message as it was written. */
module AppIntentSlots {
  import opened PyText
  import opened PyRegex
  import opened JsonValue
  import opened Oracles
  import opened IntentPatterns
  import opened SlotLexicon
  import opened SlotPatterns
  import opened IntentSlots

  // ------------------------------------------------------------------- time

  /** The alternatives of the time pattern before the clock, in order; the
      verbose flag drops nothing from them, as they hold no literal blank. */
  const AppTimeWords: seq<Alt> := [
    Then(Lit("today"), Done), Then(Lit("tomorrow"), Done), Then(Lit("tonight"), Done), Then(Lit("now"), Done),
    Then(Lit("сегодня"), Done), Then(Lit("завтра"), Done), Then(Lit("сейчас"), Done),
    Then(Lit("heute"), Done), Then(Lit("morgen"), Done),
    Then(Lit("hôm"), Then(Spaces, Then(Lit("nay"), Done))), Then(Lit("ngày"), Then(Spaces, Then(Lit("mai"), Done))),
    Then(Lit("오늘"), Done), Then(Lit("내일"), Done), Then(Lit("지금"), Done)
  ]

  /** The last alternative, `\b\d{1,2}:\d{2}\b`, at `i`: two hour digits are
      tried before one. */
  function ClockAt(t: string, i: nat): (r: Option<nat>)
    requires i <= |t|
    ensures r.Some? ==> i <= r.value <= |t| && IsClock(t[i..(r.value)])
    ensures r.Some? ==> IsBoundary(t, i) && IsBoundary(t, r.value)
  {
    if IsBoundary(t, i) then FirstBoundary(t, ClockEnd(t, i, 2) + ClockEnd(t, i, 1)) else None
  }

  /** The time pattern at `i`: the first of the word alternatives `ws` that
      runs there, else the clock. */
  function TimeAt(t: string, i: nat, ws: seq<Alt>): (r: Option<nat>)
    requires i <= |t|
    ensures r.Some? ==> i <= r.value <= |t|
  {
    match TermFrom(t, i, ws, 0)
    case Some(g) => Some(g.1)
    case None => ClockAt(t, i)
  }

  /** The match attempts of the time pattern at every position of `t`. */
  function TimeAttempts(t: string, ws: seq<Alt>): (tries: seq<Option<nat>>)
    ensures |tries| == |t| + 1 && forall j :: 0 <= j <= |t| ==> tries[j] == TimeAt(t, j, ws)
  {
    seq(|t| + 1, j requires 0 <= j <= |t| => TimeAt(t, j, ws))
  }

  /** The leftmost position where the time pattern matches. */
  function TimeSearch(t: string, ws: seq<Alt>): (r: Option<Span>)
    ensures r.Some? ==> r.value.start <= |t| && TimeAt(t, r.value.start, ws) == Some(r.value.end)
    ensures r.Some? ==> forall j :: 0 <= j < r.value.start ==> TimeAt(t, j, ws).None?
    ensures r.None? <==> forall j :: 0 <= j <= |t| ==> TimeAt(t, j, ws).None?
  {
    var tries := TimeAttempts(t, ws);
    match Leftmost(tries, 0)
    case None => None
    case Some(j) => Some(Span(j, tries[j].value))
  }

  /** `TIME_PAT.search(text).group(0)`, as written in the message. */
  function TimeIn(text: string): (r: Option<string>)
    ensures r.None? <==> forall j :: 0 <= j <= |text| ==> TimeAt(LowerStr(text), j, AppTimeWords).None?
  {
    match TimeSearch(LowerStr(text), AppTimeWords)
    case None => None
    case Some(sp) => Some(text[sp.start..sp.end])
  }

  // ----------------------------------------------------------------- people

  const PeoplePrefixes: seq<string> := ["for", "на", "cho", "für", "dla"]
  const PeopleNouns: seq<string> := ["people", "persons", "чел", "люд", "người", "personen", "명"]

  /** Where the first of `ws` occurring at `i` ends. */
  function FirstWordEnd(t: string, ws: seq<string>, i: nat): (r: Option<nat>)
    requires i <= |t|
    ensures r.Some? ==> i <= r.value <= |t|
  {
    if ws == [] then None
    else if OccursAt(t, ws[0], i) then Some(i + |ws[0]|)
    else FirstWordEnd(t, ws[1..], i)
  }

  /** `\s*(\d{1,2})\s*(?:people|...)` from `p`, giving the digit group. Two
      digits are tried before one; giving whitespace back to `\s*` never helps,
      as neither a digit nor a noun begins with whitespace. */
  function PeopleRest(t: string, p: nat): (r: Option<Span>)
    requires p <= |t|
    ensures r.Some? ==> r.value.start < r.value.end <= r.value.start + 2 && DigitsAt(t, r.value.start, r.value.end - r.value.start)
  {
    var q := SpaceRun(t, p);
    if DigitsAt(t, q, 2) && FirstWordEnd(t, PeopleNouns, SpaceRun(t, q + 2)).Some? then Some(Span(q, q + 2))
    else if DigitsAt(t, q, 1) && FirstWordEnd(t, PeopleNouns, SpaceRun(t, q + 1)).Some? then Some(Span(q, q + 1))
    else None
  }

  /** The people pattern at `i`: the optional prefix is tried first and then
      left out. No prefix is a prefix of another ("for" and "für" part at
      their second letter), so no second prefix can take the place of the
      first. */
  function PeopleAt(t: string, i: nat): (r: Option<Span>)
    requires i <= |t|
    ensures r.Some? ==> r.value.start < r.value.end <= r.value.start + 2 && DigitsAt(t, r.value.start, r.value.end - r.value.start)
  {
    var withPrefix := match FirstWordEnd(t, PeoplePrefixes, i)
      case Some(p) => PeopleRest(t, p)
      case None => None;
    if withPrefix.Some? then withPrefix else PeopleRest(t, i)
  }

  /** The leftmost match of the people pattern. */
  function PeopleSearch(t: string): (r: Option<Span>)
    ensures r.Some? ==> r.value.start < r.value.end <= r.value.start + 2 && DigitsAt(t, r.value.start, r.value.end - r.value.start)
    ensures r.None? <==> forall j :: 0 <= j <= |t| ==> PeopleAt(t, j).None?
  {
    var tries := seq(|t| + 1, j requires 0 <= j <= |t| => PeopleAt(t, j));
    assert forall j :: 0 <= j <= |t| ==> tries[j] == PeopleAt(t, j);
    match Leftmost(tries, 0)
    case None => None
    case Some(j) => tries[j]
  }

  /** `int(PEOPLE_PAT.search(text).group(1))`: the conversion of one or two
      decimal digits never raises. */
  function PeopleIn(text: string): (r: Option<nat>)
    ensures r.None? <==> forall j :: 0 <= j <= |text| ==> PeopleAt(LowerStr(text), j).None?
  {
    var t := LowerStr(text);
    match PeopleSearch(t)
    case None => None
    case Some(sp) =>
      assert AllDigits(t[sp.start..sp.end]);
      Some(DigitsValue(t[sp.start..sp.end]))
  }

  // --------------------------------------------------------------- location

  const AppLocationWords: seq<string> := ["in", "at", "ở", "в", "bei", "nach"]

  /** The class `[\w\-\sÀ-žĐđ]` of the location group. */
  predicate IsAreaChar(c: char) {
    IsWordChar(c) || c == '-' || IsSpace(c) || ('À' <= c <= 'ž') || c == 'Đ' || c == 'đ'
  }

  /** The end of the run of class characters from `i`. */
  function AreaRun(t: string, i: nat): (r: nat)
    requires i <= |t|
    decreases |t| - i
    ensures i <= r <= |t|
    ensures forall q :: i <= q < r ==> IsAreaChar(t[q])
    ensures r < |t| ==> !IsAreaChar(t[r])
  {
    if i < |t| && IsAreaChar(t[i]) then AreaRun(t, i + 1) else i
  }

  /** `\s+([class]+)` after the locative word ending at `j`. The greedy `\s+`
      takes the whole whitespace run; the group then takes the class run after
      it, or, when nothing of the class follows, `\s+` gives back its last
      whitespace character (it must keep one) to become the group. */
  function AreaAfter(t: string, j: nat): (r: Option<Span>)
    requires j <= |t|
    ensures r.Some? ==> j < r.value.start < r.value.end <= |t|
    ensures r.Some? ==> forall q :: r.value.start <= q < r.value.end ==> IsAreaChar(t[q])
  {
    var s := SpaceRun(t, j);
    if s == j then None
    else if s < |t| && IsAreaChar(t[s]) then Some(Span(s, AreaRun(t, s)))
    else if s - j >= 2 then Some(Span(s - 1, s))
    else None
  }

  /** The alternatives of `\b(in|at|ở|в|bei|nach)` from the `k`-th on at `i`,
      each followed by the rest of the pattern. */
  function AreaFrom(t: string, i: nat, k: nat): (r: Option<Span>)
    requires i <= |t| && k <= |AppLocationWords|
    decreases |AppLocationWords| - k
    ensures r.Some? ==> i < r.value.start < r.value.end <= |t|
    ensures r.Some? ==> forall q :: r.value.start <= q < r.value.end ==> IsAreaChar(t[q])
  {
    if k == |AppLocationWords| then None
    else
      var w := AppLocationWords[k];
      var g := if OccursAt(t, w, i) then AreaAfter(t, i + |w|) else None;
      if g.Some? then g else AreaFrom(t, i, k + 1)
  }

  /** The location pattern at `i`, after its opening `\b`. */
  function AreaAt(t: string, i: nat): (r: Option<Span>)
    requires i <= |t|
    ensures r.Some? ==> i < r.value.start < r.value.end <= |t|
    ensures r.Some? ==> forall q :: r.value.start <= q < r.value.end ==> IsAreaChar(t[q])
  {
    if IsBoundary(t, i) then AreaFrom(t, i, 0) else None
  }

  /** The leftmost match of the location pattern. */
  function AreaSearch(t: string): (r: Option<Span>)
    ensures r.Some? ==> r.value.start < r.value.end <= |t|
    ensures r.Some? ==> forall q :: r.value.start <= q < r.value.end ==> IsAreaChar(t[q])
    ensures r.None? <==> forall j :: 0 <= j <= |t| ==> AreaAt(t, j).None?
  {
    var tries := seq(|t| + 1, j requires 0 <= j <= |t| => AreaAt(t, j));
    assert forall j :: 0 <= j <= |t| ==> tries[j] == AreaAt(t, j);
    match Leftmost(tries, 0)
    case None => None
    case Some(j) => tries[j]
  }

  /** The location group of the leftmost match, cut from the message as
      written and stripped. */
  function LocationIn(text: string): (r: Option<string>)
    ensures r.None? <==> forall j :: 0 <= j <= |text| ==> AreaAt(LowerStr(text), j).None?
  {
    match AreaSearch(LowerStr(text))
    case None => None
    case Some(sp) => Some(Strip(text[sp.start..sp.end]))
  }

  // ------------------------------------------------------------------- term

  /** The term pattern of this package: that of intent/slots.py without the
      German words. */
  const AppTermAlternatives: seq<Alt> := [ShortTerm, LongTerm, ShortTermRu, LongTermRu, ShortTermVi, LongTermVi]

  const AppShortMarks: seq<string> := ["short", "корот", "ngắn"]

  /** `'short-term' if ('short' in term or ...) else 'long-term'`. */
  function AppTermValue(term: string): string {
    if ContainsAny(term, AppShortMarks) then "short-term" else "long-term"
  }

  /** The term slot, from the lowercased match. */
  function TermIn(text: string): (r: Option<string>)
    ensures r.Some? ==> r.value == "short-term" || r.value == "long-term"
  {
    match SearchTerm(LowerStr(text), AppTermAlternatives)
    case None => None
    case Some(m) => Some(AppTermValue(LowerStr(m.text)))
  }

  // ------------------------------------------------------------------ slots

  /** What the four patterns find in the message. */
  datatype Found = Found(time: Option<string>, people: Option<nat>, location: Option<string>, term: Option<string>)

  function FoundIn(text: string): Found {
    Found(TimeIn(text), PeopleIn(text), LocationIn(text), TermIn(text))
  }

  /** `m.group(...) if m else slots.get(key)`. */
  function MatchOrKept(v: Option<string>, slots: map<string, Json>, key: string): Json {
    if v.Some? then JStr(v.value) else Get(slots, key)
  }

  /** The four assignments of lines 10-18, in order, on the copy. */
  function Filled(f: Found, o: map<string, Json>): map<string, Json> {
    var s1 := o["time" := MatchOrKept(f.time, o, "time")];
    var s2 := if f.people.Some? then s1["people" := JInt(f.people.value)] else s1;
    var s3 := s2["location" := MatchOrKept(f.location, s2, "location")];
    if f.term.Some? then s3["term" := JStr(f.term.value)] else s3
  }

  /** `extract_slots(text, lang, base)`: `dict(base or {})` raises for a value
      that is not a dictionary, and `text or ''` reads a missing text as empty.
      The language is not used. */
  function ExtractedSlots(text: Option<string>, base: Json): Outcome<map<string, Json>> {
    match CopyOf(base)
    case Raises(e) => Raises(e)
    case Ok(o) => Ok(Filled(FoundIn(if text.Some? then text.value else ""), o))
  }

  /** `extract_slots`: copy the base, then assign the four keys one after
      another. */
  method ExtractSlots(text: Option<string>, lang: string, base: Json) returns (r: Outcome<map<string, Json>>)
    ensures r == ExtractedSlots(text, base)
  {
    var copy := CopyOf(base);
    if copy.Raises? {
      return Raises(copy.error);
    }
    var s := if text.Some? then text.value else "";
    var slots := copy.value;
    var time := TimeIn(s);
    slots := slots["time" := MatchOrKept(time, slots, "time")];
    var people := PeopleIn(s);
    if people.Some? {
      slots := slots["people" := JInt(people.value)];
    }
    var location := LocationIn(s);
    slots := slots["location" := MatchOrKept(location, slots, "location")];
    var term := TermIn(s);
    if term.Some? {
      slots := slots["term" := JStr(term.value)];
    }
    return Ok(slots);
  }

  // ------------------------------------------------------------- properties

  /** The result is the copy with "time" and "location" always present (the
      match, else the base's value, else None), "people" and "term" replaced
      only on a match, and every other key as in the base. */
  lemma FilledKeys(f: Found, o: map<string, Json>)
    ensures var r := Filled(f, o);
      && "time" in r && "location" in r
      && (f.time.None? ==> r["time"] == (if "time" in o then o["time"] else JNull))
      && (f.location.None? ==> r["location"] == (if "location" in o then o["location"] else JNull))
      && (f.time.Some? ==> r["time"] == JStr(f.time.value))
      && (f.location.Some? ==> r["location"] == JStr(f.location.value))
      && (f.people.Some? ==> "people" in r && r["people"] == JInt(f.people.value))
      && (f.people.None? ==> ("people" in r <==> "people" in o) && ("people" in o ==> r["people"] == o["people"]))
      && (f.term.Some? ==> "term" in r && r["term"] == JStr(f.term.value))
      && (f.term.None? ==> ("term" in r <==> "term" in o) && ("term" in o ==> r["term"] == o["term"]))
      && forall key :: key !in {"time", "people", "location", "term"} ==>
           (key in r <==> key in o) && (key in o ==> r[key] == o[key])
  {
  }

  /** The base dictionary is copied and a dictionary of base slots comes back
      with every key it had: the four slot keys updated as above, and the
      others untouched. A falsy base starts from an empty dictionary. */
  lemma BaseKept(text: Option<string>, base: Json)
    requires !Truthy(base) || base.JObj?
    ensures ExtractedSlots(text, base).Ok?
    ensures var r := ExtractedSlots(text, base).value;
      && "time" in r && "location" in r
      && (base.JObj? ==> forall key :: key in base.o ==> key in r)
      && (base.JObj? ==> forall key :: key in base.o && key !in {"time", "people", "location", "term"} ==> r[key] == base.o[key])
      && (!Truthy(base) ==> r.Keys <= {"time", "people", "location", "term"})
  {
    var o := CopyOf(base).value;
    FilledKeys(FoundIn(if text.Some? then text.value else ""), o);
  }

  /** A party size comes from a group of one or two digits, so it is at most
      99. */
  lemma {:induction false} PeopleBound(text: string)
    ensures PeopleIn(text).Some? ==> PeopleIn(text).value <= 99
  {
    var t := LowerStr(text);
    var m := PeopleSearch(t);
    if m.Some? {
      var g := t[m.value.start..m.value.end];
      assert AllDigits(g);
      DigitsValueBound(g);
      if |g| == 1 { assert Pow10(1) == 10; } else { assert Pow10(2) == 100; }
    }
  }

  /** Time: the leftmost position where the pattern matches, and nothing of the
      pattern before it. */
  lemma TimeIsLeftmost(text: string)
    ensures var r := TimeSearch(LowerStr(text), AppTimeWords);
      r.Some? ==> (TimeIn(text) == Some(text[r.value.start..r.value.end])
        && TimeAt(LowerStr(text), r.value.start, AppTimeWords) == Some(r.value.end)
        && forall j :: 0 <= j < r.value.start ==> TimeAt(LowerStr(text), j, AppTimeWords).None?)
  {
  }

  /** A found location has no surrounding whitespace, and, lowercased, is made
      of the characters of the group's class only. */
  lemma LocationShape(text: string)
    requires LocationIn(text).Some?
    ensures var v := LocationIn(text).value;
      (v == [] || (!IsSpace(v[0]) && !IsSpace(v[|v| - 1])))
      && forall q :: 0 <= q < |v| ==> IsAreaChar(Lower(v[q]))
  {
    var sp := AreaSearch(LowerStr(text)).value;
    assert LocationIn(text) == Some(Strip(text[sp.start..sp.end]));
    StrippedAreaShape(text, sp.start, sp.end);
  }

  /** The stripped group has no surrounding whitespace and only class
      characters once lowercased. */
  lemma StrippedAreaShape(text: string, a: nat, b: nat)
    requires a <= b <= |text| && forall q :: a <= q < b ==> IsAreaChar(LowerStr(text)[q])
    ensures var v := Strip(text[a..b]);
      (v == [] || (!IsSpace(v[0]) && !IsSpace(v[|v| - 1])))
      && forall q :: 0 <= q < |v| ==> IsAreaChar(Lower(v[q]))
  {
    LoweredAreaChars(text, a, b);
    StripKeeps(text[a..b], c => IsAreaChar(Lower(c)));
  }

  /** A run of class characters in the lowercased text is one in the text as
      written, once each character is lowercased. */
  lemma LoweredAreaChars(text: string, a: nat, b: nat)
    requires a <= b <= |text| && forall q :: a <= q < b ==> IsAreaChar(LowerStr(text)[q])
    ensures forall q :: 0 <= q < b - a ==> IsAreaChar(Lower(text[a..b][q]))
  {
    var t := LowerStr(text);
    forall q | 0 <= q < b - a ensures IsAreaChar(Lower(text[a..b][q])) {
      assert text[a..b][q] == text[a + q];
      assert t[a + q] == Lower(text[a + q]);
    }
  }

  /** Stripping keeps only characters that were there. */
  lemma StripKeeps(g: string, p: char -> bool)
    requires forall q :: 0 <= q < |g| ==> p(g[q])
    ensures forall q :: 0 <= q < |Strip(g)| ==> p(Strip(g)[q])
  {
    var v := Strip(g);
    var k := StripOffset(g);
    forall q | 0 <= q < |v| ensures p(v[q]) {
      assert v[q] == g[k + q];
    }
  }

  /** The term is "short-term" exactly when the first term phrase of the
      message is one of the short alternatives (short term, на короткий срок,
      ngắn hạn). */
  lemma {:induction false} TermShortIffShortPhrase(text: string)
    requires TermIn(text).Some?
    ensures TermIn(text).value == "short-term"
      <==> SearchTerm(LowerStr(text), AppTermAlternatives).value.alt % 2 == 0
  {
    var t := LowerStr(text);
    var m := SearchTerm(t, AppTermAlternatives).value;
    var i :| 0 <= i <= |t| && PiecesEnd(t, i, AppTermAlternatives[m.alt]).Some?
      && m.text == t[i..PiecesEnd(t, i, AppTermAlternatives[m.alt]).value];
    var run := t[i..PiecesEnd(t, i, AppTermAlternatives[m.alt]).value];
    assert AppTermAlternatives[m.alt] == TermAlternatives[m.alt];
    LowerStrSlice(text, i, PiecesEnd(t, i, AppTermAlternatives[m.alt]).value);
    LowerStrIdempotent(text[i..PiecesEnd(t, i, AppTermAlternatives[m.alt]).value]);
    assert LowerStr(m.text) == run;
    if m.alt % 2 == 0 {
      ShortRunHasAppMark(t, i, m.alt);
    } else {
      LongRunMarked(t, i, m.alt);
    }
  }

  /** A short alternative's run holds its own marker. */
  lemma {:induction false} ShortRunHasAppMark(t: string, i: nat, k: nat)
    requires k < 6 && k % 2 == 0 && i <= |t| && PiecesEnd(t, i, TermAlternatives[k]).Some?
    ensures AppTermValue(t[i..PiecesEnd(t, i, TermAlternatives[k]).value]) == "short-term"
  {
    if k == 0 {
      ShortRunEn(t, i, k);
    } else if k == 2 {
      ShortRunRu(t, i, k);
    } else {
      ShortRunVi(t, i, k);
    }
  }

  lemma ShortRunEn(t: string, i: nat, k: nat)
    requires k == 0 && i <= |t| && PiecesEnd(t, i, TermAlternatives[k]).Some?
    ensures AppTermValue(t[i..PiecesEnd(t, i, TermAlternatives[k]).value]) == "short-term"
  {
    assert TermAlternatives[k] == ShortTerm;
    OpeningMarks(t, i, i, "short", ShortTerm.rest, "short", 0);
    assert AppShortMarks[0] == "short";
  }

  lemma ShortRunRu(t: string, i: nat, k: nat)
    requires k == 2 && i <= |t| && PiecesEnd(t, i, TermAlternatives[k]).Some?
    ensures AppTermValue(t[i..PiecesEnd(t, i, TermAlternatives[k]).value]) == "short-term"
  {
    assert TermAlternatives[k] == ShortTermRu;
    var rest := Then(Spaces, Then(Lit("срок"), Done));
    var after := Then(Spaces, Then(Lit("короткий"), rest));
    assert PiecesEnd(t, i, ShortTermRu) == PiecesEnd(t, i + 2, after);
    var j := SpaceRun(t, i + 2);
    assert PiecesEnd(t, i + 2, after) == PiecesEnd(t, j, Then(Lit("короткий"), rest));
    OpeningMarks(t, i, j, "короткий", rest, "корот", 0);
    assert AppShortMarks[1] == "корот";
  }

  lemma ShortRunVi(t: string, i: nat, k: nat)
    requires k == 4 && i <= |t| && PiecesEnd(t, i, TermAlternatives[k]).Some?
    ensures AppTermValue(t[i..PiecesEnd(t, i, TermAlternatives[k]).value]) == "short-term"
  {
    assert TermAlternatives[k] == ShortTermVi;
    OpeningMarks(t, i, i, "ngắn", ShortTermVi.rest, "ngắn", 0);
    assert AppShortMarks[2] == "ngắn";
  }

  /** A long alternative's run holds none of the short markers. */
  lemma {:induction false} LongRunMarked(t: string, i: nat, k: nat)
    requires k < 6 && k % 2 == 1 && i <= |t| && PiecesEnd(t, i, TermAlternatives[k]).Some?
    ensures AppTermValue(t[i..PiecesEnd(t, i, TermAlternatives[k]).value]) == "long-term"
  {
    var run := t[i..PiecesEnd(t, i, TermAlternatives[k]).value];
    LongRunUnmarked(t, i, k);
    assert !ContainsAny(run, ShortMarks);
    assert forall q :: 0 <= q < 3 ==> AppShortMarks[q] == ShortMarks[q];
  }
}
