/** The location and rental-term patterns of the slot refiner (intent/slots.py),
    each written out as the regex engine runs it on the lowercased text. */
module SlotPatterns {
  import opened PyText
  import opened PyRegex
  import opened IntentPatterns
  import opened SlotLexicon

  // ------------------------------------------------------------ location

  /** The characters that end a location: `. , ! ? ; :`. */
  predicate IsStop(c: char) {
    c == '.' || c == ',' || c == '!' || c == '?' || c == ';' || c == ':'
  }

  /** The class `[^\d.,!?;:]` the location is made of; whitespace belongs to it. */
  predicate IsPlaceChar(c: char) { !IsDigit(c) && !IsStop(c) }

  /** The lookahead `(?=\s|$|[.,!?;:])` at index `p`. */
  predicate EndsPlace(t: string, p: nat)
    requires p <= |t|
  {
    p == |t| || IsSpace(t[p]) || IsStop(t[p])
  }

  /** The lazy group `[^\d.,!?;:]+?` followed by the lookahead, started at
      `p`: the shortest run of place characters after which the lookahead
      holds. */
  function PlaceEnd(t: string, p: nat): (r: Option<nat>)
    requires p < |t|
    decreases |t| - p
    ensures r.Some? ==> p < r.value <= |t| && EndsPlace(t, r.value)
    ensures r.Some? ==> forall q :: p <= q < r.value ==> IsPlaceChar(t[q])
    ensures r.Some? ==> forall q :: p < q < r.value ==> !EndsPlace(t, q)
  {
    if !IsPlaceChar(t[p]) then None
    else if EndsPlace(t, p + 1) then Some(p + 1)
    else PlaceEnd(t, p + 1)
  }

  /** The greedy `\s+` before the group, backtracking: the group is tried after
      `e`, `e - 1`, ... down to one whitespace character past `j`. */
  function PlaceAfterSpaces(t: string, j: nat, e: nat): (r: Option<Span>)
    requires j < e <= |t|
    decreases e
    ensures r.Some? ==> j < r.value.start <= e && r.value.start < r.value.end <= |t|
    ensures r.Some? ==> forall q :: r.value.start <= q < r.value.end ==> IsPlaceChar(t[q])
  {
    var g := if e < |t| then PlaceEnd(t, e) else None;
    if g.Some? then Some(Span(e, g.value))
    else if e - 1 > j then PlaceAfterSpaces(t, j, e - 1)
    else None
  }

  /** The rest of the pattern after the locative word ending at `j`: at least
      one whitespace character, then the group. */
  function PlaceFrom(t: string, j: nat): (r: Option<Span>)
    requires j <= |t|
    ensures r.Some? ==> j < r.value.start && r.value.start < r.value.end <= |t|
    ensures r.Some? ==> forall q :: j <= q < r.value.start ==> IsSpace(t[q])
    ensures r.Some? ==> forall q :: r.value.start <= q < r.value.end ==> IsPlaceChar(t[q])
  {
    var e := SpaceRun(t, j);
    if e == j then None else PlaceAfterSpaces(t, j, e)
  }

  /** The locative alternatives from `k` on, tried in order at `i`; a word whose
      rest fails hands over to the next word. */
  function LocativeFrom(t: string, i: nat, ws: seq<string>, k: nat): (r: Option<Span>)
    requires i <= |t| && k <= |ws|
    decreases |ws| - k
    ensures r.Some? ==> i < r.value.start && r.value.start < r.value.end <= |t|
    ensures r.Some? ==> forall q :: r.value.start <= q < r.value.end ==> IsPlaceChar(t[q])
  {
    if k == |ws| then None
    else
      var g := if OccursAt(t, ws[k], i) then PlaceFrom(t, i + |ws[k]|) else None;
      if g.Some? then g else LocativeFrom(t, i, ws, k + 1)
  }

  /** `\b(ws...)\s+(group)(?=...)` attempted at `i`: the span of the group. */
  function PlaceAt(t: string, ws: seq<string>, i: nat): (r: Option<Span>)
    requires i <= |t|
    ensures r.Some? ==> IsBoundary(t, i) && i < r.value.start && r.value.start < r.value.end <= |t|
    ensures r.Some? ==> forall q :: r.value.start <= q < r.value.end ==> IsPlaceChar(t[q])
  {
    if IsBoundary(t, i) then LocativeFrom(t, i, ws, 0) else None
  }

  /** `re.search` of the location pattern from `i` on: the leftmost position
      where an attempt succeeds, with the group's span. */
  function PlaceSearch(t: string, ws: seq<string>, i: nat): (r: Option<(nat, Span)>)
    requires i <= |t|
    decreases |t| - i
    ensures r.Some? ==> i <= r.value.0 <= |t| && PlaceAt(t, ws, r.value.0) == Some(r.value.1)
    ensures r.Some? ==> forall j :: i <= j < r.value.0 ==> PlaceAt(t, ws, j).None?
    ensures r.None? <==> forall j :: i <= j <= |t| ==> PlaceAt(t, ws, j).None?
  {
    var g := PlaceAt(t, ws, i);
    if g.Some? then Some((i, g.value))
    else if i == |t| then None
    else PlaceSearch(t, ws, i + 1)
  }

  /** `LOCATION_PAT.search(t).group(2).strip()`, for the locative words `ws`. */
  function PlaceOf(t: string, ws: seq<string>): (r: Option<string>)
    ensures r.Some? ==> forall q :: 0 <= q < |r.value| ==> IsPlaceChar(r.value[q])
    ensures r.Some? ==> r.value == [] || (!IsSpace(r.value[0]) && !IsSpace(r.value[|r.value| - 1]))
    ensures r.None? <==> forall i :: 0 <= i <= |t| ==> PlaceAt(t, ws, i).None?
  {
    match PlaceSearch(t, ws, 0)
    case None => None
    case Some((_, sp)) =>
      var g := t[sp.start..sp.end];
      StripKeepsPlaceChars(g);
      Some(Strip(g))
  }

  /** Stripping keeps only characters of the text. */
  lemma {:induction false} StripKeepsPlaceChars(g: string)
    requires forall q :: 0 <= q < |g| ==> IsPlaceChar(g[q])
    ensures forall q :: 0 <= q < |Strip(g)| ==> IsPlaceChar(Strip(g)[q])
  {
    var v := Strip(g);
    assert forall q :: 0 <= q < |v| ==> v[q] == g[StripOffset(g) + q];
  }

  /** The location slot: the stripped group after the first locative word.
      It holds no digit and none of `. , ! ? ; :`, and has no whitespace at
      either end. */
  function LocationOf(t: string): (r: Option<string>)
    ensures r.Some? ==> forall q :: 0 <= q < |r.value| ==> !IsDigit(r.value[q]) && !IsStop(r.value[q])
    ensures r.Some? && r.value != [] ==> !IsSpace(r.value[0]) && !IsSpace(r.value[|r.value| - 1])
  {
    PlaceOf(t, LocationWords)
  }

  /** A location is found when a locative word at a boundary is followed by
      whitespace and then by a place character that is not whitespace and whose
      run of place characters reaches a whitespace, a stop or the end. */
  lemma {:induction false} PlaceFoundAfterWord(t: string, ws: seq<string>, i: nat, k: nat)
    requires i <= |t| && k < |ws| && IsBoundary(t, i) && OccursAt(t, ws[k], i)
    requires var j := i + |ws[k]|;
      j < |t| && IsSpace(t[j]) && SpaceRun(t, j) < |t| && PlaceEnd(t, SpaceRun(t, j)).Some?
    ensures PlaceOf(t, ws).Some?
  {
    LocativeFound(t, i, ws, 0, k);
    assert PlaceAt(t, ws, i).Some?;
  }

  lemma {:induction false} LocativeFound(t: string, i: nat, ws: seq<string>, from: nat, k: nat)
    requires i <= |t| && from <= k < |ws| && OccursAt(t, ws[k], i)
    requires var j := i + |ws[k]|;
      j < |t| && IsSpace(t[j]) && SpaceRun(t, j) < |t| && PlaceEnd(t, SpaceRun(t, j)).Some?
    ensures LocativeFrom(t, i, ws, from).Some?
    decreases k - from
  {
    if from < k {
      var g := if OccursAt(t, ws[from], i) then PlaceFrom(t, i + |ws[from]|) else None;
      if g.None? {
        LocativeFound(t, i, ws, from + 1, k);
      }
    }
  }

  // ---------------------------------------------------------------- term

  /** Where the alternative `ps` ends when run from `i`, or None. */
  function PiecesEnd(t: string, i: nat, ps: Alt): (r: Option<nat>)
    requires i <= |t|
    decreases ps
    ensures r.Some? ==> i <= r.value <= |t|
  {
    match ps
    case Done => Some(i)
    case Then(Lit(s), rest) => if OccursAt(t, s, i) then PiecesEnd(t, i + |s|, rest) else None
    case Then(Spaces, rest) => PiecesEnd(t, SpaceRun(t, i), rest)
    case Then(OptHyphen, rest) => if i < |t| && t[i] == '-' then PiecesEnd(t, i + 1, rest) else PiecesEnd(t, i, rest)
  }

  /** No literal of `ps` contains `c`. */
  predicate LiteralsAvoid(ps: Alt, c: char) {
    match ps
    case Done => true
    case Then(p, rest) => (!p.Lit? || c !in p.s) && LiteralsAvoid(rest, c)
  }

  /** A run of an alternative consumes characters of its literals, whitespace
      and hyphens only; so a character that is none of these is not in it. */
  lemma {:induction false} RunAvoids(t: string, i: nat, ps: Alt, c: char)
    requires i <= |t| && PiecesEnd(t, i, ps).Some?
    requires LiteralsAvoid(ps, c) && !IsSpace(c) && c != '-'
    ensures c !in t[i..PiecesEnd(t, i, ps).value]
    decreases ps
  {
    match ps
    case Done =>
    case Then(p, rest) =>
      var e := PiecesEnd(t, i, ps).value;
      match p
      case Lit(s) =>
        RunAvoids(t, i + |s|, rest, c);
        assert t[i..i + |s|] == s;
        JoinAvoids(t, i, i + |s|, e, c);
      case Spaces =>
        var j := SpaceRun(t, i);
        RunAvoids(t, j, rest, c);
        JoinAvoids(t, i, j, e, c);
      case OptHyphen =>
        if i < |t| && t[i] == '-' {
          RunAvoids(t, i + 1, rest, c);
          JoinAvoids(t, i, i + 1, e, c);
        } else {
          RunAvoids(t, i, rest, c);
        }
  }

  lemma JoinAvoids(t: string, i: nat, m: nat, e: nat, c: char)
    requires i <= m <= e <= |t| && c !in t[i..m] && c !in t[m..e]
    ensures c !in t[i..e]
  {
    assert t[i..e] == t[i..m] + t[m..e];
  }

  /** A term match: which alternative and the text it consumed. */
  datatype TermMatch = TermMatch(alt: nat, text: string)

  /** The first alternative from `k` on that runs at `i`, with its end. */
  function TermFrom(t: string, i: nat, alts: seq<Alt>, k: nat): (r: Option<(nat, nat)>)
    requires i <= |t| && k <= |alts|
    decreases |alts| - k
    ensures r.Some? ==> k <= r.value.0 < |alts| && PiecesEnd(t, i, alts[r.value.0]) == Some(r.value.1)
    ensures r.Some? ==> forall a :: k <= a < r.value.0 ==> PiecesEnd(t, i, alts[a]).None?
    ensures r.None? <==> forall a :: k <= a < |alts| ==> PiecesEnd(t, i, alts[a]).None?
  {
    if k == |alts| then None
    else
      var e := PiecesEnd(t, i, alts[k]);
      if e.Some? then Some((k, e.value)) else TermFrom(t, i, alts, k + 1)
  }

  /** The leftmost position from `i` on where an alternative runs, with the
      first such alternative and its end. */
  function TermSearch(t: string, alts: seq<Alt>, i: nat): (r: Option<(nat, (nat, nat))>)
    requires i <= |t|
    decreases |t| - i
    ensures r.Some? ==> i <= r.value.0 <= |t| && TermFrom(t, r.value.0, alts, 0) == Some(r.value.1)
    ensures r.None? <==> forall j :: i <= j <= |t| ==> TermFrom(t, j, alts, 0).None?
  {
    var g := TermFrom(t, i, alts, 0);
    if g.Some? then Some((i, g.value))
    else if i == |t| then None
    else TermSearch(t, alts, i + 1)
  }

  /** `re.search` of the alternation `alts`: the leftmost position where an
      alternative runs, and the first such alternative. */
  function SearchTerm(t: string, alts: seq<Alt>): (r: Option<TermMatch>)
    ensures r.Some? ==> r.value.alt < |alts|
    ensures r.Some? ==> exists i :: (0 <= i <= |t| && PiecesEnd(t, i, alts[r.value.alt]).Some?
                                     && r.value.text == t[i..PiecesEnd(t, i, alts[r.value.alt]).value])
    ensures r.None? <==> forall i, a :: 0 <= i <= |t| && 0 <= a < |alts| ==> PiecesEnd(t, i, alts[a]).None?
  {
    match TermSearch(t, alts, 0)
    case None =>
      assert forall i, a :: 0 <= i <= |t| && 0 <= a < |alts| ==> PiecesEnd(t, i, alts[a]).None? by {
        forall i, a | 0 <= i <= |t| && 0 <= a < |alts| ensures PiecesEnd(t, i, alts[a]).None? {
          assert TermFrom(t, i, alts, 0).None?;
        }
      }
      None
    case Some((j, m)) =>
      assert PiecesEnd(t, j, alts[m.0]) == Some(m.1);
      assert 0 <= j <= |t| && t[j..m.1] == t[j..PiecesEnd(t, j, alts[m.0]).value];
      Some(TermMatch(m.0, t[j..m.1]))
  }

  /** `'short-term' if any(kw in term ...) else 'long-term'`. */
  function TermValue(term: string): string {
    if ContainsAny(term, ShortMarks) then "short-term" else "long-term"
  }

  /** The term slot of the (lowercased) text, if the pattern matches. */
  function TermOf(t: string): (r: Option<string>)
  {
    match SearchTerm(t, TermAlternatives)
    case None => None
    case Some(m) => Some(TermValue(LowerStr(m.text)))
  }

  /** A run that reaches, from `from`, an alternative opening with `w`
      contains whatever `w` contains. */
  lemma {:induction false} OpeningMarks(t: string, from: nat, i: nat, w: string, rest: Alt, mark: string, at: nat)
    requires from <= i <= |t| && PiecesEnd(t, i, Then(Lit(w), rest)).Some? && OccursAt(w, mark, at)
    ensures Contains(t[from..PiecesEnd(t, i, Then(Lit(w), rest)).value], mark)
  {
    var e := PiecesEnd(t, i, Then(Lit(w), rest)).value;
    assert OccursAt(t, w, i) && PiecesEnd(t, i + |w|, rest) == Some(e);
    var m := t[from..e];
    var p := i - from + at;
    forall q | 0 <= q < |mark| ensures m[p + q] == mark[q] {
      assert m[p + q] == t[i + at + q] == t[i..i + |w|][at + q];
      assert w[at..at + |mark|][q] == mark[q];
    }
    assert m[p..p + |mark|] == mark;
    assert OccursAt(m, mark, p);
  }

  /** A text containing one of the short markers is a short term. */
  lemma {:induction false} MarkedIsShort(m: string, k: nat)
    requires k < |ShortMarks| && Contains(m, ShortMarks[k])
    ensures TermValue(m) == "short-term"
  {
  }

  lemma {:induction false} ShortTermMarked(t: string, i: nat)
    requires i <= |t| && PiecesEnd(t, i, TermAlternatives[0]).Some?
    ensures TermValue(t[i..PiecesEnd(t, i, TermAlternatives[0]).value]) == "short-term"
  {
    assert TermAlternatives[0] == ShortTerm;
    OpeningMarks(t, i, i, "short", ShortTerm.rest, "short", 0);
    MarkedIsShort(t[i..PiecesEnd(t, i, ShortTerm).value], 0);
  }

  lemma {:induction false} ShortTermRuMarked(t: string, i: nat)
    requires i <= |t| && PiecesEnd(t, i, TermAlternatives[2]).Some?
    ensures TermValue(t[i..PiecesEnd(t, i, TermAlternatives[2]).value]) == "short-term"
  {
    assert TermAlternatives[2] == ShortTermRu;
    var rest := Then(Spaces, Then(Lit("срок"), Done));
    var after := Then(Spaces, Then(Lit("короткий"), rest));
    assert PiecesEnd(t, i, ShortTermRu) == PiecesEnd(t, i + 2, after);
    var j := SpaceRun(t, i + 2);
    assert PiecesEnd(t, i + 2, after) == PiecesEnd(t, j, Then(Lit("короткий"), rest));
    OpeningMarks(t, i, j, "короткий", rest, "корот", 0);
    MarkedIsShort(t[i..PiecesEnd(t, i, ShortTermRu).value], 1);
  }

  lemma {:induction false} ShortTermViMarked(t: string, i: nat)
    requires i <= |t| && PiecesEnd(t, i, TermAlternatives[4]).Some?
    ensures TermValue(t[i..PiecesEnd(t, i, TermAlternatives[4]).value]) == "short-term"
  {
    assert TermAlternatives[4] == ShortTermVi;
    OpeningMarks(t, i, i, "ngắn", ShortTermVi.rest, "ngắn", 0);
    MarkedIsShort(t[i..PiecesEnd(t, i, ShortTermVi).value], 2);
  }

  lemma {:induction false} ShortTermDeMarked(t: string, i: nat)
    requires i <= |t| && PiecesEnd(t, i, TermAlternatives[6]).Some?
    ensures TermValue(t[i..PiecesEnd(t, i, TermAlternatives[6]).value]) == "short-term"
  {
    assert TermAlternatives[6] == ShortTermDe;
    OpeningMarks(t, i, i, "kurzfristig", ShortTermDe.rest, "kurz", 0);
    MarkedIsShort(t[i..PiecesEnd(t, i, ShortTermDe).value], 3);
  }

  /** The even and the odd indices of the eight term alternatives. */
  lemma EvenIndex(k: nat)
    requires k < 8 && k % 2 == 0
    ensures k == 0 || k == 2 || k == 4 || k == 6
  {
  }

  lemma OddIndex(k: nat)
    requires k < 8 && k % 2 == 1
    ensures k == 1 || k == 3 || k == 5 || k == 7
  {
  }

  /** A run of a short alternative (an even index) contains its short marker. */
  lemma {:induction false} ShortRunMarked(t: string, i: nat, k: nat)
    requires k < |TermAlternatives| && k % 2 == 0 && i <= |t| && PiecesEnd(t, i, TermAlternatives[k]).Some?
    ensures TermValue(t[i..PiecesEnd(t, i, TermAlternatives[k]).value]) == "short-term"
  {
    EvenIndex(k);
    if k == 0 {
      ShortTermMarked(t, i);
    } else if k == 2 {
      ShortTermRuMarked(t, i);
    } else if k == 4 {
      ShortTermViMarked(t, i);
    } else {
      ShortTermDeMarked(t, i);
    }
  }

  /** None of the literals of `ps` has `h` (standing for "short"), `к`, `ắ`
      or `k`: one character of each short marker. */
  predicate MarksAvoided(ps: Alt, h: char) {
    LiteralsAvoid(ps, h) && LiteralsAvoid(ps, 'к') && LiteralsAvoid(ps, 'ắ') && LiteralsAvoid(ps, 'k')
  }

  /** A run of an alternative whose literals avoid one character of each short
      marker contains no short marker. */
  lemma {:induction false} UnmarkedRun(t: string, i: nat, ps: Alt, h: char)
    requires i <= |t| && PiecesEnd(t, i, ps).Some?
    requires (h == 'h' || h == 's') && MarksAvoided(ps, h)
    ensures TermValue(t[i..PiecesEnd(t, i, ps).value]) == "long-term"
  {
    var m := t[i..PiecesEnd(t, i, ps).value];
    RunAvoids(t, i, ps, h);
    RunAvoids(t, i, ps, 'к');
    RunAvoids(t, i, ps, 'ắ');
    RunAvoids(t, i, ps, 'k');
    AbsentChar(m, "short", h);
    AbsentChar(m, "корот", 'к');
    AbsentChar(m, "ngắn", 'ắ');
    AbsentChar(m, "kurz", 'k');
  }

  lemma LongTermAvoids()
    ensures MarksAvoided(LongTerm, 'h')
  {
  }

  lemma LongTermRuAvoids()
    ensures MarksAvoided(LongTermRu, 'h')
  {
  }

  lemma LongTermViAvoids()
    ensures MarksAvoided(LongTermVi, 's')
  {
  }

  lemma LongTermDeAvoids()
    ensures MarksAvoided(LongTermDe, 'h')
  {
    SingleLiteralAvoids("langfristig", 'h');
  }

  /** A one-literal alternative avoids the markers when its text does. */
  lemma SingleLiteralAvoids(w: string, h: char)
    requires h !in w && 'к' !in w && 'ắ' !in w && 'k' !in w
    ensures MarksAvoided(Then(Lit(w), Done), h)
  {
  }

  lemma {:induction false} LongTermUnmarked(t: string, i: nat)
    requires i <= |t| && PiecesEnd(t, i, TermAlternatives[1]).Some?
    ensures TermValue(t[i..PiecesEnd(t, i, TermAlternatives[1]).value]) == "long-term"
  {
    assert TermAlternatives[1] == LongTerm;
    LongTermAvoids();
    UnmarkedRun(t, i, LongTerm, 'h');
  }

  lemma {:induction false} LongTermRuUnmarked(t: string, i: nat)
    requires i <= |t| && PiecesEnd(t, i, TermAlternatives[3]).Some?
    ensures TermValue(t[i..PiecesEnd(t, i, TermAlternatives[3]).value]) == "long-term"
  {
    assert TermAlternatives[3] == LongTermRu;
    LongTermRuAvoids();
    UnmarkedRun(t, i, LongTermRu, 'h');
  }

  lemma {:induction false} LongTermViUnmarked(t: string, i: nat)
    requires i <= |t| && PiecesEnd(t, i, TermAlternatives[5]).Some?
    ensures TermValue(t[i..PiecesEnd(t, i, TermAlternatives[5]).value]) == "long-term"
  {
    assert TermAlternatives[5] == LongTermVi;
    LongTermViAvoids();
    UnmarkedRun(t, i, LongTermVi, 's');
  }

  lemma {:induction false} LongTermDeUnmarked(t: string, i: nat)
    requires i <= |t| && PiecesEnd(t, i, TermAlternatives[7]).Some?
    ensures TermValue(t[i..PiecesEnd(t, i, TermAlternatives[7]).value]) == "long-term"
  {
    assert TermAlternatives[7] == LongTermDe;
    LongTermDeAvoids();
    UnmarkedRun(t, i, LongTermDe, 'h');
  }

  /** A run of a long alternative (an odd index) contains no short marker. */
  lemma {:induction false} LongRunUnmarked(t: string, i: nat, k: nat)
    requires k < |TermAlternatives| && k % 2 == 1 && i <= |t| && PiecesEnd(t, i, TermAlternatives[k]).Some?
    ensures TermValue(t[i..PiecesEnd(t, i, TermAlternatives[k]).value]) == "long-term"
  {
    OddIndex(k);
    if k == 1 {
      LongTermUnmarked(t, i);
    } else if k == 3 {
      LongTermRuUnmarked(t, i);
    } else if k == 5 {
      LongTermViUnmarked(t, i);
    } else {
      LongTermDeUnmarked(t, i);
    }
  }

  /** The term is "short-term" exactly when the first match is one of the short
      alternatives (short term, на короткий срок, ngắn hạn, kurzfristig). */
  lemma {:induction false} TermIsShortIffShortAlternative(s: string)
    requires TermOf(LowerStr(s)).Some?
    ensures TermOf(LowerStr(s)).value == "short-term"
      <==> SearchTerm(LowerStr(s), TermAlternatives).value.alt % 2 == 0
  {
    var t := LowerStr(s);
    var m := SearchTerm(t, TermAlternatives).value;
    var i :| 0 <= i <= |t| && PiecesEnd(t, i, TermAlternatives[m.alt]).Some?
      && m.text == t[i..PiecesEnd(t, i, TermAlternatives[m.alt]).value];
    if m.alt % 2 == 0 { ShortRunMarked(t, i, m.alt); } else { LongRunUnmarked(t, i, m.alt); }
    LowerStrSlice(s, i, PiecesEnd(t, i, TermAlternatives[m.alt]).value);
    LowerStrIdempotent(s[i..PiecesEnd(t, i, TermAlternatives[m.alt]).value]);
  }
}
