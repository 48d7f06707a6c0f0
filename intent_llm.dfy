/** The LLM classifier of intent/llm.py: the prompt with the rules' hint, the
    validation of the model's JSON reply, and the regex parser it falls back on
    when the reply is not the JSON it asked for. The model and `json.loads` are
    parameters. */
module IntentLlm {
  import opened PyText
  import opened PyRegex
  import opened JsonValue
  import opened Oracles
  import opened IntentLexicon

  // --------------------------------------------------------- fallback parser

  /** `v\s+service\b` at `i`. The greedy `\s+` needs no backtracking: giving a
      whitespace character back would leave it where "service" must start. */
  predicate VerbServiceAt(u: string, v: string, i: nat) {
    OccursAt(u, v, i) && i + |v| < |u| && IsSpace(u[i + |v|])
    && OccursAt(u, "service", SpaceRun(u, i + |v|)) && IsBoundary(u, SpaceRun(u, i + |v|) + 7)
  }

  /** One of the verbs, followed by `\s+service\b`, at `i`. */
  function VerbsAt(u: string, vs: seq<string>, i: nat): (b: bool)
    ensures b <==> exists k :: 0 <= k < |vs| && VerbServiceAt(u, vs[k], i)
  {
    if vs == [] then false else VerbServiceAt(u, vs[0], i) || VerbsAt(u, vs[1..], i)
  }

  /** `\b(vs...)\s+service\b` matches at `j`. */
  predicate ServiceAt(u: string, vs: seq<string>, j: nat) {
    IsBoundary(u, j) && VerbsAt(u, vs, j)
  }

  /** `re.search(r'\b(vs...)\s+service\b', u)` from `i` on finds something. */
  function ServiceAfterFrom(u: string, vs: seq<string>, i: nat): (b: bool)
    requires i <= |u|
    decreases |u| - i
    ensures b <==> exists j :: i <= j <= |u| && ServiceAt(u, vs, j)
  {
    if ServiceAt(u, vs, i) then true
    else if i == |u| then false
    else
      var b := ServiceAfterFrom(u, vs, i + 1);
      assert b <==> exists j :: i <= j <= |u| && ServiceAt(u, vs, j) by {
        if exists j :: i <= j <= |u| && ServiceAt(u, vs, j) {
          var j :| i <= j <= |u| && ServiceAt(u, vs, j);
          assert j != i;
        }
      }
      b
  }

  /** `re.search(pattern, text, re.IGNORECASE)` finds something, where `u` is
      the lowercased text and the patterns are lowercase. */
  function Matches(u: string, p: FallbackPattern): bool {
    match p
    case Words(ws) => SearchAlt(u, ws, 0).Some?
    case ServiceAfter(vs) => ServiceAfterFrom(u, vs, 0)
  }

  /** Whether each pattern matches, in table order. */
  function PatternHits(u: string, pats: seq<(string, FallbackPattern)>): (hits: seq<bool>)
    ensures |hits| == |pats|
    ensures forall j :: 0 <= j < |pats| ==> hits[j] == Matches(u, pats[j].1)
  {
    if pats == [] then [] else [Matches(u, pats[0].1)] + PatternHits(u, pats[1..])
  }

  /** The index of the first true entry from `k` on (`|hits|` when none is). */
  function FirstTrue(hits: seq<bool>, k: nat): (r: nat)
    requires k <= |hits|
    decreases |hits| - k
    ensures k <= r <= |hits|
    ensures r < |hits| ==> hits[r]
    ensures forall j :: k <= j < r ==> !hits[j]
  {
    if k == |hits| then |hits|
    else if hits[k] then k
    else FirstTrue(hits, k + 1)
  }

  /** The index of the first pattern that matches (`|pats|` when none does). */
  function FirstMatch(u: string, pats: seq<(string, FallbackPattern)>): nat {
    FirstTrue(PatternHits(u, pats), 0)
  }

  /** The intent of the first pattern that matches, or "unknown". */
  function FallbackIntent(u: string, pats: seq<(string, FallbackPattern)>): string {
    var k := FirstMatch(u, pats);
    if k < |pats| then pats[k].0 else "unknown"
  }

  /** Lines 97-101: the loop over the patterns in declaration order, leaving at
      the first that matches. */
  method DetectIntent(u: string, pats: seq<(string, FallbackPattern)>) returns (intent: string)
    ensures intent == FallbackIntent(u, pats)
  {
    ghost var hits := PatternHits(u, pats);
    intent := "unknown";
    var k := 0;
    while k < |pats|
      invariant k <= |pats|
      invariant FirstTrue(hits, k) == FirstTrue(hits, 0)
    {
      if Matches(u, pats[k].1) {
        intent := pats[k].0;
        break;
      }
      k := k + 1;
    }
  }

  /** The dictionary `_parse_llm_fallback` returns for the detected intent. */
  function FallbackJson(intent: string, lang: string): Json {
    JObj(map["intent" := JStr(intent),
             "confidence" := JNum(if intent != "unknown" then 0.6 else 0.0),
             "language" := JStr(lang),
             "slots" := JObj(map[]),
             "llm_fallback" := JBool(true)])
  }

  /** `_parse_llm_fallback(response_text, lang)` over the pattern table
      `pats` (the source's table is `FallbackPatterns`). */
  function FallbackResult(reply: string, lang: string, pats: seq<(string, FallbackPattern)>): Json {
    FallbackJson(FallbackIntent(LowerStr(reply), pats), lang)
  }

  /** `_parse_llm_fallback`: lowercase the reply, find the first pattern that
      matches, and build the result. */
  method ParseFallback(reply: string, lang: string) returns (r: Json)
    ensures r == FallbackResult(reply, lang, FallbackPatterns)
  {
    var intent := DetectIntent(LowerStr(reply), FallbackPatterns);
    r := FallbackJson(intent, lang);
  }

  /** The intent found is the one of the first matching pattern, "unknown"
      exactly when no pattern matches, and its confidence is 0.6 exactly when
      one does (no pattern of the table is named "unknown"). */
  lemma FallbackPicksFirst(reply: string, lang: string, pats: seq<(string, FallbackPattern)>)
    requires forall j :: 0 <= j < |pats| ==> pats[j].0 != "unknown"
    ensures var u := LowerStr(reply);
      var k := FirstMatch(u, pats);
      var r := FallbackResult(reply, lang, pats);
      (k < |pats| ==> r.o["intent"] == JStr(pats[k].0) && r.o["confidence"] == JNum(0.6))
      && (k == |pats| <==> forall j :: 0 <= j < |pats| ==> !Matches(u, pats[j].1))
      && (k == |pats| ==> r.o["intent"] == JStr("unknown") && r.o["confidence"] == JNum(0.0))
  {
    var u := LowerStr(reply);
    var k := FirstMatch(u, pats);
    FallbackJsonFields(FallbackIntent(u, pats), lang);
    if k < |pats| {
      assert FallbackIntent(u, pats) == pats[k].0 != "unknown";
    } else {
      assert FallbackIntent(u, pats) == "unknown";
    }
    if k < |pats| {
      assert PatternHits(u, pats)[k];
    }
  }

  lemma FallbackJsonFields(intent: string, lang: string)
    ensures var r := FallbackJson(intent, lang);
      r.JObj? && "intent" in r.o && "confidence" in r.o && "language" in r.o
      && r.o["intent"] == JStr(intent) && r.o["confidence"] == JNum(if intent != "unknown" then 0.6 else 0.0)
  {
  }

  /** No intent of the source's table is "unknown". */
  lemma NoPatternNamedUnknown()
    ensures forall j :: 0 <= j < |FallbackPatterns| ==> FallbackPatterns[j].0 != "unknown"
  {
  }

  /** A text the `\b(verbs)\s+service\b` pattern matches has "service" as a
      whole word, so any alternation holding "service" finds something. */
  lemma ServiceAfterHasServiceWord(u: string, vs: seq<string>, ws: seq<string>, s: nat)
    requires ServiceAfterFrom(u, vs, 0) && s < |ws| && ws[s] == "service"
    ensures SearchAlt(u, ws, 0).Some?
  {
    var j :| 0 <= j <= |u| && ServiceAt(u, vs, j);
    var v :| 0 <= v < |vs| && VerbServiceAt(u, vs[v], j);
    ServiceFound(u, vs[v], j, ws, s);
  }

  /** A verb-then-service match makes an alternation holding "service" find
      something. */
  lemma ServiceFound(u: string, v: string, j: nat, ws: seq<string>, s: nat)
    requires VerbServiceAt(u, v, j) && s < |ws| && ws[s] == "service"
    ensures SearchAlt(u, ws, 0).Some?
  {
    ServiceIsWholeWord(u, v, j);
    AlternationFindsWord(u, ws, s, SpaceRun(u, j + |v|));
  }

  /** The "service" after the verb and its spaces is a whole word. */
  lemma ServiceIsWholeWord(u: string, v: string, j: nat)
    requires VerbServiceAt(u, v, j)
    ensures WholeWordAt(u, "service", SpaceRun(u, j + |v|))
  {
    var e := SpaceRun(u, j + |v|);
    assert u[e] == "service"[0] == 's';
    assert IsSpace(u[e - 1]);
  }

  /** A pattern `a` whose every match is also matched by an earlier pattern `b`
      is never the first to match. */
  lemma {:induction false} ShadowedNeverFirst(u: string, pats: seq<(string, FallbackPattern)>, b: nat, a: nat, s: nat)
    requires b < a < |pats| && pats[a].1.ServiceAfter? && pats[b].1.Words?
    requires s < |pats[b].1.ws| && pats[b].1.ws[s] == "service"
    ensures FirstMatch(u, pats) != a
  {
    if FirstMatch(u, pats) == a {
      ServiceAfterHasServiceWord(u, pats[a].1.verbs, pats[b].1.ws, s);
    }
  }

  /** The shape of the source's table: "add_service" is the last pattern, a
      verb-then-service one, and the business pattern before it lists
      "service". */
  lemma AddServiceShadowed()
    ensures |FallbackPatterns| == 6 && FallbackPatterns[5].0 == "add_service"
    ensures FallbackPatterns[5].1.ServiceAfter? && FallbackPatterns[3].1.Words?
    ensures 1 < |FallbackPatterns[3].1.ws| && FallbackPatterns[3].1.ws[1] == "service"
    ensures forall j :: 0 <= j < 5 ==> FallbackPatterns[j].0 != "add_service"
  {
  }

  /** The business pattern, tried before the add-service one, matches every
      text the latter matches: the fallback never yields add_service. */
  lemma FallbackNeverAddService(reply: string)
    ensures FallbackIntent(LowerStr(reply), FallbackPatterns) != "add_service"
  {
    AddServiceShadowed();
    ShadowedNeverFirst(LowerStr(reply), FallbackPatterns, 3, 5, 1);
  }

  // --------------------------------------------------------- the classifier

  /** The rules' hint in the prompt: their intent and their confidence. */
  datatype Hint = Hint(intent: Json, confidence: real)

  /** What is sent to the model: the hint, the message and the language. The
      template text around them is not modelled. */
  datatype Prompt = Prompt(hint: Option<Hint>, text: string, lang: string)

  /** Lines 34-52: the hint is given when the context is non-empty and its
      "intent" is not "unknown". Building it raises when the context is no
      dictionary, lacks "intent" or "confidence", or holds a confidence `:.2f`
      cannot format. */
  function HintOf(ctx: Json): Outcome<Option<Hint>> {
    if !Truthy(ctx) then Ok(None)
    else if !ctx.JObj? then Raises(NoAttribute(ctx, "get"))
    else if Get(ctx.o, "intent") == JStr("unknown") then Ok(None)
    else if "intent" !in ctx.o then Raises(Quote("intent"))
    else if "confidence" !in ctx.o then Raises(Quote("confidence"))
    else
      match AsNumber(ctx.o["confidence"])
      case None =>
        var c := ctx.o["confidence"];
        Raises(if c.JStr? then "Unknown format code 'f' for object of type 'str'"
               else "unsupported format string passed to " + TypeName(c) + ".__format__")
      case Some(c) => Ok(Some(Hint(ctx.o["intent"], c)))
  }

  /** The answer for empty input and for every failure. */
  function UnknownResult(lang: string): Json {
    JObj(map["intent" := JStr("unknown"), "confidence" := JNum(0.0), "language" := JStr(lang), "slots" := JObj(map[])])
  }

  /** Lines 72-83, on the stripped reply and what `json.loads` made of it
      (None: invalid JSON). A dictionary with the four keys is returned as it
      is, and one missing a key goes to the fallback parser. `key in result`
      also runs on a list (membership) and a string (substring): when all four
      are found there, `setdefault` raises and the answer is unknown; when not,
      the fallback parser runs. On any other value `in` raises. */
  function Validated(reply: string, lang: string, parsed: Option<Json>, pats: seq<(string, FallbackPattern)>): Json {
    match parsed
    case None => FallbackResult(reply, lang, pats)
    case Some(JObj(o)) =>
      if "intent" in o && "confidence" in o && "language" in o && "slots" in o then JObj(o)
      else FallbackResult(reply, lang, pats)
    case Some(JArr(a)) =>
      if JStr("intent") in a && JStr("confidence") in a && JStr("language") in a && JStr("slots") in a
      then UnknownResult(lang)
      else FallbackResult(reply, lang, pats)
    case Some(JStr(s)) =>
      if Contains(s, "intent") && Contains(s, "confidence") && Contains(s, "language") && Contains(s, "slots")
      then UnknownResult(lang)
      else FallbackResult(reply, lang, pats)
    case Some(_) => UnknownResult(lang)
  }

  /** `classify_with_llm(text, lang, rules_context)`, where `ask` is the model's
      raw reply to a prompt (or the exception the request raised) and `parse`
      is `json.loads`. */
  function ClassifyWithLlm(text: Json, lang: string, ctx: Json,
                           ask: Prompt -> Outcome<string>, parse: string -> Option<Json>,
                           pats: seq<(string, FallbackPattern)>): (r: Json)
    ensures r != UnknownResult(lang) ==>
      && text.JStr? && text.s != [] && HintOf(ctx).Ok?
      && ask(Prompt(HintOf(ctx).value, text.s, lang)).Ok?
  {
    if !text.JStr? || text.s == [] then UnknownResult(lang)
    else
      match HintOf(ctx)
      case Raises(_) => UnknownResult(lang)
      case Ok(hint) =>
        match ask(Prompt(hint, text.s, lang))
        case Raises(_) => UnknownResult(lang)
        case Ok(raw) =>
          var reply := Strip(raw);
          Validated(reply, lang, parse(reply), pats)
  }

  /** Empty or non-string text is unknown whatever the model would say: the
      model is not asked. */
  lemma EmptyTextAsksNothing(text: Json, lang: string, ctx: Json,
                             ask1: Prompt -> Outcome<string>, ask2: Prompt -> Outcome<string>,
                             parse: string -> Option<Json>, pats: seq<(string, FallbackPattern)>)
    requires !text.JStr? || text.s == []
    ensures ClassifyWithLlm(text, lang, ctx, ask1, parse, pats) == ClassifyWithLlm(text, lang, ctx, ask2, parse, pats)
    ensures ClassifyWithLlm(text, lang, ctx, ask1, parse, pats).o["intent"] == JStr("unknown")
    ensures ClassifyWithLlm(text, lang, ctx, ask1, parse, pats).o["confidence"] == JNum(0.0)
  {
  }

  /** The prompt carries the rules' hint exactly when the context is a
      non-empty dictionary whose "intent" is not "unknown" (and can be read). */
  lemma HintIffKnownContext(ctx: Json)
    ensures HintOf(ctx).Ok? && HintOf(ctx).value.Some? <==>
      (ctx.JObj? && ctx.o != map[] && Get(ctx.o, "intent") != JStr("unknown")
       && "intent" in ctx.o && "confidence" in ctx.o && AsNumber(ctx.o["confidence"]).Some?)
    ensures HintOf(ctx).Ok? && HintOf(ctx).value.Some? ==>
      HintOf(ctx).value.value.intent == ctx.o["intent"]
  {
  }

  /** A reply that parses to a dictionary with intent, confidence, language and
      slots is the answer as it is; a reply that does not parse, or parses to a
      dictionary missing one of them, goes to the fallback parser. */
  lemma ReplyHandling(text: string, lang: string, ctx: Json,
                      ask: Prompt -> Outcome<string>, parse: string -> Option<Json>, pats: seq<(string, FallbackPattern)>)
    requires text != [] && HintOf(ctx).Ok? && ask(Prompt(HintOf(ctx).value, text, lang)).Ok?
    ensures var reply := Strip(ask(Prompt(HintOf(ctx).value, text, lang)).value);
      var r := ClassifyWithLlm(JStr(text), lang, ctx, ask, parse, pats);
      (parse(reply).None? ==> r == FallbackResult(reply, lang, pats))
      && (parse(reply).Some? && parse(reply).value.JObj? ==>
            var o := parse(reply).value.o;
            ("intent" in o && "confidence" in o && "language" in o && "slots" in o ==> r == JObj(o))
            && (!("intent" in o && "confidence" in o && "language" in o && "slots" in o) ==> r == FallbackResult(reply, lang, pats)))
  {
    var reply := Strip(ask(Prompt(HintOf(ctx).value, text, lang)).value);
    assert ClassifyWithLlm(JStr(text), lang, ctx, ask, parse, pats) == Validated(reply, lang, parse(reply), pats);
  }

  /** Whatever happens, the answer is a dictionary with an intent, a
      confidence and a language. */
  lemma AnswerHasIntent(text: Json, lang: string, ctx: Json,
                        ask: Prompt -> Outcome<string>, parse: string -> Option<Json>, pats: seq<(string, FallbackPattern)>)
    ensures var r := ClassifyWithLlm(text, lang, ctx, ask, parse, pats);
      r.JObj? && "intent" in r.o && "confidence" in r.o && "language" in r.o
  {
    if text.JStr? && text.s != [] && HintOf(ctx).Ok? {
      var a := ask(Prompt(HintOf(ctx).value, text.s, lang));
      if a.Ok? {
        var reply := Strip(a.value);
        ValidatedHasIntent(reply, lang, parse(reply), pats);
      }
    }
  }

  lemma ValidatedHasIntent(reply: string, lang: string, parsed: Option<Json>, pats: seq<(string, FallbackPattern)>)
    ensures var r := Validated(reply, lang, parsed, pats);
      r.JObj? && "intent" in r.o && "confidence" in r.o && "language" in r.o
  {
    var r := Validated(reply, lang, parsed, pats);
    var intent := FallbackIntent(LowerStr(reply), pats);
    match parsed
    case None =>
      FallbackJsonFields(intent, lang);
    case Some(JObj(o)) =>
      FallbackJsonFields(intent, lang);
    case Some(JArr(a)) =>
      if JStr("intent") in a && JStr("confidence") in a && JStr("language") in a && JStr("slots") in a {
        assert r == UnknownResult(lang);
        UnknownHasIntent(lang);
      } else {
        assert r == FallbackResult(reply, lang, pats);
        FallbackJsonFields(intent, lang);
      }
    case Some(JStr(t)) =>
      if Contains(t, "intent") && Contains(t, "confidence") && Contains(t, "language") && Contains(t, "slots") {
        assert r == UnknownResult(lang);
        UnknownHasIntent(lang);
      } else {
        assert r == FallbackResult(reply, lang, pats);
        FallbackJsonFields(intent, lang);
      }
    case Some(_) =>
      UnknownHasIntent(lang);
  }

  lemma UnknownHasIntent(lang: string)
    ensures var r := UnknownResult(lang);
      r.JObj? && "intent" in r.o && "confidence" in r.o && "language" in r.o
  {
  }
}
