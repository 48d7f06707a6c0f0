/** The first-tier rules of the `intent` package (intent/rules.py): command
    patterns, then whole-word keyword scoring over a per-language lexicon, plus
    the basic time and party-size slots. */
module IntentRules {
  import opened PyText
  import opened PyRegex
  import opened JsonValue
  import opened IntentPatterns
  import opened IntentLexicon


  /** `LEX.get(lang, LEX['en'])`. */
  function LexFor(lang: string): seq<Entry> {
    if lang == "ru" then RuLex else EnLex
  }

  // ------------------------------------------------------------ commands

  /** The text is exactly "/" followed by one of the commands, up to `$`. */
  function SlashCommandIn(t: string, cmds: seq<string>): (b: bool)
    ensures b <==> exists k :: 0 <= k < |cmds| && StartsWith(t, "/" + cmds[k]) && AtEnd(t, 1 + |cmds[k]|)
  {
    if cmds == [] then false
    else
      (StartsWith(t, "/" + cmds[0]) && AtEnd(t, 1 + |cmds[0]|)) || SlashCommandIn(t, cmds[1..])
  }

  /** The text begins with one of the prefixes. */
  function OpensWithAny(t: string, ps: seq<string>): (b: bool)
    ensures b <==> exists k :: 0 <= k < |ps| && StartsWith(t, ps[k])
  {
    if ps == [] then false else StartsWith(t, ps[0]) || OpensWithAny(t, ps[1..])
  }

  /** The menu pattern: the whole text is "/menu", "/start" or "/help" (the `$`
      also allowing a final newline), or the text begins with one of the menu
      openings. */
  predicate MenuCommand(t: string) {
    SlashCommandIn(t, SlashCommands) || OpensWithAny(t, MenuOpenings)
  }

  /** The add_service pattern: one of the phrases anywhere in the text. */
  predicate AddServiceCommand(t: string) {
    ContainsAny(t, AddServicePhrases)
  }

  // ------------------------------------------------------------ keywords

  /** How many of the words occur as whole words of `t`. */
  function HitCount(t: string, words: seq<string>): (n: nat)
    ensures n <= |words|
  {
    if words == [] then 0 else (if WholeWordFound(t, words[0]) then 1 else 0) + HitCount(t, words[1..])
  }

  /** No hit means that none of the words occurs whole. */
  lemma {:induction false} HitCountZero(t: string, words: seq<string>)
    ensures HitCount(t, words) == 0 <==> forall k :: 0 <= k < |words| ==> !HasWholeWord(t, words[k])
  {
    if words != [] {
      HitCountZero(t, words[1..]);
      assert forall k :: 1 <= k < |words| ==> words[1..][k - 1] == words[k];
    }
  }

  /** `min(0.3 + hits * 0.15, 0.9)`. */
  function KeywordConfidence(hits: nat): (c: real)
    ensures hits >= 1 ==> 0.45 <= c <= 0.9
  {
    if 0.3 + hits as real * 0.15 <= 0.9 then 0.3 + hits as real * 0.15 else 0.9
  }

  /** The confidence one entry reaches: 0 without a hit. */
  function EntryConfidence(t: string, e: Entry): (c: real)
    ensures c == 0.0 <==> HitCount(t, e.words) == 0
    ensures 0.0 <= c <= 0.9
  {
    var h := HitCount(t, e.words);
    if h > 0 then KeywordConfidence(h) else 0.0
  }

  /** Each entry's intent with the confidence it reaches on `t`. */
  function Scores(t: string, bag: seq<Entry>): (s: seq<(string, real)>)
    ensures |s| == |bag|
    ensures forall j :: 0 <= j < |bag| ==> s[j] == (bag[j].intent, EntryConfidence(t, bag[j]))
  {
    seq(|bag|, j requires 0 <= j < |bag| => (bag[j].intent, EntryConfidence(t, bag[j])))
  }

  /** The best of the first `n` scores, as the scoring loop keeps it: a later
      entry replaces the best only with a strictly greater confidence. */
  function BestOf(scores: seq<(string, real)>, n: nat): (b: (string, real))
    requires n <= |scores|
  {
    if n == 0 then ("unknown", 0.0)
    else
      var prev := BestOf(scores, n - 1);
      if scores[n - 1].1 > prev.1 then scores[n - 1] else prev
  }

  /** With confidences that are never negative, the loop's choice is the first
      entry with the greatest confidence, and "unknown" at 0.0 when every
      confidence is 0. */
  lemma {:induction false} BestIsFirstMaximum(scores: seq<(string, real)>, n: nat)
    requires n <= |scores|
    requires forall j :: 0 <= j < |scores| ==> scores[j].1 >= 0.0
    ensures forall j :: 0 <= j < n ==> scores[j].1 <= BestOf(scores, n).1
    ensures BestOf(scores, n).1 == 0.0 <==> forall j :: 0 <= j < n ==> scores[j].1 == 0.0
    ensures BestOf(scores, n).1 == 0.0 ==> BestOf(scores, n).0 == "unknown"
    ensures BestOf(scores, n).1 > 0.0 ==>
      exists k :: (0 <= k < n && scores[k] == BestOf(scores, n)
                   && forall j :: 0 <= j < k ==> scores[j].1 < BestOf(scores, n).1)
  {
    if n > 0 {
      BestIsFirstMaximum(scores, n - 1);
      var prev := BestOf(scores, n - 1);
      if scores[n - 1].1 > prev.1 {
        assert forall j :: 0 <= j < n - 1 ==> scores[j].1 < scores[n - 1].1;
      }
    }
  }

  /** The scoring loop of `match_rules`. */
  method ScoreKeywords(t: string, bag: seq<Entry>) returns (best: string, conf: real)
    ensures (best, conf) == BestOf(Scores(t, bag), |bag|)
  {
    best, conf := "unknown", 0.0;
    var i := 0;
    while i < |bag|
      invariant 0 <= i <= |bag|
      invariant (best, conf) == BestOf(Scores(t, bag), i)
      invariant conf >= 0.0
    {
      ghost var scores := Scores(t, bag);
      assert scores[i] == (bag[i].intent, EntryConfidence(t, bag[i]));
      var hits := HitCount(t, bag[i].words);
      if hits > 0 {
        var c := KeywordConfidence(hits);
        assert c == scores[i].1;
        if c > conf {
          best, conf := bag[i].intent, c;
        }
      }
      i := i + 1;
    }
  }

  // --------------------------------------------------------------- slots

  /** The party size the rules read: the first group the people pattern
      captures, as a number. */
  function PartySize(t: string): Option<nat> {
    match PeopleGroup(t, RulesNouns)
    case None => None
    case Some(g) => PeopleCount(g)
  }

  /** The slots `extract_basic_slots(t, lang)` finds: the first time
      expression of the language's pattern (English unless "ru") and the party
      size. */
  function BasicSlots(t: string, ru: bool): map<string, Json> {
    SlotsOf(TimeMatch(t, ru), PartySize(t))
  }

  /** The slot dictionary holding the time and the party size that were found. */
  function SlotsOf(time: Option<string>, people: Option<nat>): map<string, Json> {
    var withTime := if time.Some? then map["time" := JStr(time.value)] else map[];
    if people.Some? then withTime["people" := JInt(people.value)] else withTime
  }

  /** `extract_basic_slots`: the two patterns applied, then the dictionary
      filled step by step. */
  method ExtractBasicSlots(t: string, ru: bool) returns (slots: map<string, Json>)
    ensures slots == BasicSlots(t, ru)
  {
    var time := TimeMatch(t, ru);
    var count := PartySize(t);
    slots := FillSlots(time, count);
  }

  method FillSlots(time: Option<string>, count: Option<nat>) returns (slots: map<string, Json>)
    ensures slots == SlotsOf(time, count)
  {
    slots := map[];
    if time.Some? {
      slots := slots["time" := JStr(time.value)];
    }
    if count.Some? {
      slots := slots["people" := JInt(count.value)];
    }
  }

  /** The basic slots are a time expression of the pattern's shape and a party
      size of 1 to 10 (from a number word) or up to 999 (from digits); nothing
      else is set. */
  lemma BasicSlotsShape(t: string, ru: bool)
    ensures BasicSlots(t, ru).Keys <= {"time", "people"}
    ensures "time" in BasicSlots(t, ru) ==>
      (BasicSlots(t, ru)["time"].JStr? && TimeShape(BasicSlots(t, ru)["time"].s, TimeWords(ru), !ru))
    ensures "people" in BasicSlots(t, ru) <==> PeopleGroup(t, RulesNouns).Some?
    ensures "people" in BasicSlots(t, ru) ==>
      (BasicSlots(t, ru)["people"].JInt? && 0 <= BasicSlots(t, ru)["people"].i <= 999)
  {
    var g := PeopleGroup(t, RulesNouns);
    if g.Some? {
      PeopleCountOfGroup(g.value);
    }
  }

  // --------------------------------------------------------------- result

  /** What `match_rules` returns always has a string intent, a numeric
      confidence, the language it was given and a dictionary of slots, and
      never an "error". */
  predicate RulesShaped(r: map<string, Json>, lang: string) {
    && {"intent", "confidence", "language", "slots"} <= r.Keys
    && r["intent"].JStr? && r["confidence"].JNum? && r["slots"].JObj? && r["language"] == JStr(lang)
    && "error" !in r
  }

  /** The result for text the rules cannot read. */
  function NoText(lang: string): (r: map<string, Json>)
    ensures RulesShaped(r, lang)
  {
    map["intent" := JStr("unknown"), "confidence" := JNum(0.0), "language" := JStr(lang), "slots" := JObj(map[])]
  }

  /** The result for a command. */
  function CommandResult(command: string, lang: string): (r: map<string, Json>)
    ensures RulesShaped(r, lang)
  {
    map["intent" := JStr(command), "confidence" := JNum(0.95), "language" := JStr(lang), "slots" := JObj(map[]),
        "source" := JStr("rules_command")]
  }

  /** The text the patterns see: lowercased, then stripped. */
  function RulesText(s: string): string { Strip(LowerStr(s)) }

  /** What `match_rules` returns for the prepared text `t` when it scores
      with the lexicon `bag`: a command first, the keyword verdict otherwise. */
  function Verdict(t: string, lang: string, bag: seq<Entry>): (r: map<string, Json>)
    ensures RulesShaped(r, lang)
  {
    if MenuCommand(t) then CommandResult("menu", lang)
    else if AddServiceCommand(t) then CommandResult("add_service", lang)
    else
      var best := BestOf(Scores(t, bag), |bag|);
      map["intent" := JStr(best.0), "confidence" := JNum(best.1), "language" := JStr(lang),
          "slots" := JObj(BasicSlots(t, lang == "ru")), "source" := JStr("rules_keywords")]
  }

  /** What `match_rules(text, lang)` returns when it scores with the lexicon
      `bag`: text that is empty or not a string is unknown before anything
      else is looked at. */
  function RulesResultIn(text: Json, lang: string, bag: seq<Entry>): (r: map<string, Json>)
    ensures RulesShaped(r, lang)
  {
    if !text.JStr? || text.s == [] then NoText(lang) else Verdict(RulesText(text.s), lang, bag)
  }

  /** What `match_rules(text, lang)` returns: scoring uses the language's own
      lexicon. */
  function RulesResult(text: Json, lang: string): (r: map<string, Json>)
    ensures RulesShaped(r, lang)
  {
    RulesResultIn(text, lang, LexFor(lang))
  }

  /** `match_rules(text, lang)`. */
  method MatchRules(text: Json, lang: string) returns (r: map<string, Json>)
    ensures r == RulesResult(text, lang)
  {
    if !text.JStr? || text.s == [] {
      r := NoText(lang);
    } else {
      var t := RulesText(text.s);
      if MenuCommand(t) {
        r := CommandResult("menu", lang);
      } else if AddServiceCommand(t) {
        r := CommandResult("add_service", lang);
      } else {
        var best, conf := ScoreKeywords(t, LexFor(lang));
        var slots := ExtractBasicSlots(t, lang == "ru");
        r := map["intent" := JStr(best), "confidence" := JNum(conf), "language" := JStr(lang),
                 "slots" := JObj(slots), "source" := JStr("rules_keywords")];
      }
    }
  }

  // ------------------------------------------------------------ properties

  /** Empty or non-string text is "unknown" at 0.0 with no slots and no source. */
  lemma NoTextUnknown(text: Json, lang: string, bag: seq<Entry>)
    requires !text.JStr? || text.s == []
    ensures RulesResultIn(text, lang, bag)["intent"] == JStr("unknown")
    ensures RulesResultIn(text, lang, bag)["confidence"] == JNum(0.0)
    ensures RulesResultIn(text, lang, bag)["slots"] == JObj(map[]) && "source" !in RulesResultIn(text, lang, bag)
  {
  }

  /** The commands come first, the menu before add_service, at 0.95 with empty
      slots; only then do the keywords decide, with source rules_keywords. */
  lemma CommandsFirst(t: string, lang: string, bag: seq<Entry>)
    ensures var r := Verdict(t, lang, bag);
      && (MenuCommand(t) ==> r["intent"] == JStr("menu"))
      && (AddServiceCommand(t) && !MenuCommand(t) ==> r["intent"] == JStr("add_service"))
      && (MenuCommand(t) || AddServiceCommand(t) ==>
            r["confidence"] == JNum(0.95) && r["slots"] == JObj(map[]) && r["source"] == JStr("rules_command"))
      && (!MenuCommand(t) && !AddServiceCommand(t) ==> r["source"] == JStr("rules_keywords"))
  {
  }

  /** An add-service phrase anywhere in the lowered text survives the strip. */
  lemma PhraseSurvivesStrip(s: string, k: nat, i: nat)
    requires k < |AddServicePhrases| && OccursAt(LowerStr(s), AddServicePhrases[k], i)
    ensures AddServiceCommand(RulesText(s))
  {
    var p := AddServicePhrases[k];
    assert p[0] != ' ' && !IsSpace(p[0]) && !IsSpace(p[|p| - 1]);
    StripKeepsOccurrence(LowerStr(s), p, i);
  }

  /** Any text containing an add-service phrase, in any letter case and
      anywhere, is add_service unless it is a menu command. */
  lemma AddServiceAnywhere(s: string, lang: string, bag: seq<Entry>, k: nat, i: nat)
    requires k < |AddServicePhrases| && OccursAt(LowerStr(s), AddServicePhrases[k], i)
    requires !MenuCommand(RulesText(s))
    ensures Verdict(RulesText(s), lang, bag) == CommandResult("add_service", lang)
  {
    PhraseSurvivesStrip(s, k, i);
  }

  /** A language without a lexicon of its own is treated as English; only the
      reported language differs. */
  lemma UnknownLanguageIsEnglish(text: Json, lang: string)
    requires lang != "ru"
    ensures RulesResult(text, lang) == RulesResult(text, "en")["language" := JStr(lang)]
  {
    assert LexFor(lang) == LexFor("en");
    if text.JStr? && text.s != [] {
      SameLexiconSameVerdict(RulesText(text.s), lang, LexFor(lang));
    }
  }

  /** Apart from the reported language, a language other than "ru" changes
      nothing for a given lexicon. */
  lemma SameLexiconSameVerdict(t: string, lang: string, bag: seq<Entry>)
    requires lang != "ru"
    ensures Verdict(t, lang, bag) == Verdict(t, "en", bag)["language" := JStr(lang)]
  {
  }

  /** On the keyword path the intent is the first lexicon entry with the
      greatest whole-word confidence min(0.3 + 0.15 * hits, 0.9), and "unknown"
      at 0.0 when no keyword occurs. */
  lemma KeywordVerdict(t: string, lang: string, bag: seq<Entry>)
    requires !MenuCommand(t) && !AddServiceCommand(t)
    ensures var r := Verdict(t, lang, bag);
      && r["confidence"].JNum? && r["intent"].JStr?
      && (forall j :: 0 <= j < |bag| ==> EntryConfidence(t, bag[j]) <= r["confidence"].r)
      && (r["confidence"].r == 0.0 <==>
            forall j, k :: 0 <= j < |bag| && 0 <= k < |bag[j].words| ==> !HasWholeWord(t, bag[j].words[k]))
      && (r["confidence"].r == 0.0 ==> r["intent"] == JStr("unknown"))
      && (r["confidence"].r > 0.0 ==>
            exists k :: (0 <= k < |bag| && JStr(bag[k].intent) == r["intent"]
                         && EntryConfidence(t, bag[k]) == r["confidence"].r
                         && forall j :: 0 <= j < k ==> EntryConfidence(t, bag[j]) < r["confidence"].r))
  {
    var scores := Scores(t, bag);
    BestIsFirstMaximum(scores, |bag|);
    forall j | 0 <= j < |bag| {
      HitCountZero(t, bag[j].words);
    }
    var best := BestOf(scores, |bag|);
    assert Verdict(t, lang, bag)["confidence"] == JNum(best.1);
    assert Verdict(t, lang, bag)["intent"] == JStr(best.0);
  }
}
