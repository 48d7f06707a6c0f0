/** The orchestrator of intent/engine.py: the rules first, the LLM classifier
    when the rules fall short, a clarification question for a middling rules
    answer, and an answer that never raises. The rules and the classifier are
    collaborators whose answers are parameters; `refine_slots` is the model of
    intent/slots.py. */
module IntentDecide {
  import opened PyText
  import opened JsonValue
  import opened Oracles
  import opened IntentRules
  import opened IntentSlots
  import opened IntentLexicon
  import opened IntentLlm

  /** RULES_MIN_CONF, LLM_MIN_CONF and USE_LLM_FALLBACK as read at each call. */
  datatype Settings = Settings(rulesMin: real, llmMin: real, useLlm: bool)

  /** `refine_slots(text, lang, intent, base_slots)`: the model of
      intent/slots.py, or the stub `base_slots or {}` when it cannot be
      imported. */
  type Refiner = (Json, Json, string, Json) -> Outcome<Json>

  /** The values used when the environment sets none of them. */
  const Defaults: Settings := Settings(0.65, 0.75, true)

  /** `os.getenv("USE_LLM_FALLBACK", "true").lower() == "true"`. */
  function UseLlmFrom(v: Option<string>): (b: bool)
    ensures v.None? ==> b
  {
    LowerStr(if v.Some? then v.value else "true") == "true"
  }

  /** `lang_hint or "en"`. */
  function LangOf(hint: Option<string>): (lang: string)
    ensures hint.None? || hint.value == [] ==> lang == "en"
    ensures hint.Some? && hint.value != [] ==> lang == hint.value
  {
    if hint.Some? && hint.value != [] then hint.value else "en"
  }

  // ------------------------------------------------- clarification question

  const EnQuestions: map<string, string> := map[
    "food" := "Are you looking for food delivery or restaurant options?",
    "real_estate" := "Are you looking to rent or find real estate?",
    "transportation" := "Do you need a taxi, ride, or other transportation?",
    "business" := "Are you inquiring about business services?",
    "unknown" := "Could you please clarify what you're looking for?"]

  const RuQuestions: map<string, string> := map[
    "food" := "Вы ищете доставку еды или варианты ресторанов?",
    "real_estate" := "Вы хотите снять жилье или найти недвижимость?",
    "transportation" := "Вам нужно такси, поездка или другой транспорт?",
    "business" := "Вы интересуетесь бизнес-услугами?",
    "unknown" := "Не могли бы вы уточнить, что вы ищете?"]

  /** `questions.get(lang, questions['en'])`. */
  function QuestionsFor(lang: string): map<string, string> {
    if lang == "ru" then RuQuestions else EnQuestions
  }

  /** `lang_questions.get(intent, lang_questions['unknown'])` on a question
      table `qs`: a string intent is looked up, any other hashable value is
      no key of it, and a list or a dictionary cannot be hashed. */
  function QuestionIn(qs: map<string, string>, intent: Json): (r: Outcome<string>)
    requires "unknown" in qs
    ensures intent.JStr? && intent.s in qs ==> r == Ok(qs[intent.s])
    ensures intent.JStr? && intent.s !in qs ==> r == Ok(qs["unknown"])
    ensures intent.JNull? || intent.JBool? || intent.JInt? || intent.JNum? ==> r == Ok(qs["unknown"])
    ensures intent.JArr? || intent.JObj? ==> r.Raises?
  {
    match intent
    case JStr(s) => Ok(if s in qs then qs[s] else qs["unknown"])
    case JArr(_) => Raises("unhashable type: 'list'")
    case JObj(_) => Raises("unhashable type: 'dict'")
    case _ => Ok(qs["unknown"])
  }

  /** `_generate_clarification_question(intent, lang)`. */
  function ClarificationQuestion(intent: Json, lang: string): Outcome<string> {
    QuestionIn(QuestionsFor(lang), intent)
  }

  /** Every language but Russian gets the English questions, and an intent the
      table does not list (menu, add_service, ...) gets the generic one. */
  lemma QuestionFallbacks(intent: Json, lang: string)
    ensures lang != "ru" ==> ClarificationQuestion(intent, lang) == ClarificationQuestion(intent, "en")
    ensures intent.JStr? && intent.s !in QuestionsFor(lang) ==>
      ClarificationQuestion(intent, lang) == ClarificationQuestion(JStr("unknown"), lang)
    ensures ClarificationQuestion(JStr("menu"), lang) == ClarificationQuestion(JStr("unknown"), lang)
    ensures ClarificationQuestion(JStr("add_service"), lang) == ClarificationQuestion(JStr("unknown"), lang)
  {
    TablesListFourIntents();
  }

  /** Both tables list food, real_estate, transportation, business and unknown,
      and nothing else. */
  lemma TablesListFourIntents()
    ensures EnQuestions.Keys == {"food", "real_estate", "transportation", "business", "unknown"}
    ensures RuQuestions.Keys == {"food", "real_estate", "transportation", "business", "unknown"}
  {
  }

  // -------------------------------------------------------------- the answer

  /** The answer before anything is known: unknown, 0.0, the language, no
      slots, source fallback, and a clarification needed. */
  function Initial(lang: string): (r: map<string, Json>)
    ensures Shaped(r)
  {
    map["intent" := JStr("unknown"), "confidence" := JNum(0.0), "language" := JStr(lang),
        "slots" := JObj(map[]), "source" := JStr("fallback"), "need_clarification" := JBool(true)]
  }

  /** The keys every answer carries. */
  predicate Shaped(r: map<string, Json>) {
    "intent" in r && "confidence" in r && "language" in r && "slots" in r
    && "source" in r && "need_clarification" in r
  }

  /** The intent `refine_slots` compares with "food" and "real_estate": a
      string stands for itself, and anything else for the empty string, which
      equals neither. */
  function TextOf(j: Json): string {
    if j.JStr? then j.s else ""
  }

  /** A collaborator's answer taken into the result: `result.update(answer)`,
      the source and `need_clarification = False`, then `refine_slots` on the
      merged language, intent and slots. When `refine_slots` raises, the
      answer is the merged result with the error text. */
  function Accepted(result: map<string, Json>, answer: map<string, Json>, source: string, message: Json, refine: Refiner): (r: map<string, Json>)
    requires Shaped(result)
    ensures Shaped(r)
  {
    var merged := (result + answer)["source" := JStr(source)]["need_clarification" := JBool(false)];
    match refine(message, merged["language"], TextOf(merged["intent"]), merged["slots"])
    case Raises(e) => merged["error" := JStr(e)]
    case Ok(slots) => merged["slots" := slots]
  }

  /** The LLM step: `Some` of the answer when it ended `decide_intent` (taken,
      or failing), `None` when it fell through. */
  function LlmStep(result: map<string, Json>, s: Settings, llm: Collaborator<Json>, message: Json, refine: Refiner): (r: Option<map<string, Json>>)
    requires Shaped(result)
    ensures r.Some? ==> Shaped(r.value)
    ensures !s.useLlm || llm.Missing? ==> r.None?
  {
    if !s.useLlm || llm.Missing? then None
    else
      match CallMaybeAsync(llm)
      case None => None
      case Some(answer) =>
        if !Truthy(answer) then None
        else if !answer.JObj? then Some(result["error" := JStr(NoAttribute(answer, "get"))])
        else
          var c := GetOr(answer.o, "confidence", JNum(0.0));
          match AsNumber(c)
          case None => Some(result["error" := JStr(NotComparable(c))])
          case Some(x) =>
            if x >= s.llmMin then Some(Accepted(result, answer.o, "llm", message, refine)) else None
  }

  /** Lines 65-69: a rules confidence above 0.3 merges the rules' answer in and
      adds the question for the rules' intent; otherwise the result is
      returned as it is. */
  function ClarifyStep(result: map<string, Json>, rules: map<string, Json>, rc: real, lang: string): (r: map<string, Json>)
    requires Shaped(result)
    ensures Shaped(r)
  {
    if rc > 0.3 then
      var merged := (result + rules)["need_clarification" := JBool(true)];
      if "intent" !in rules then merged["error" := JStr("'intent'")]
      else
        match ClarificationQuestion(rules["intent"], lang)
        case Raises(e) => merged["error" := JStr(e)]
        case Ok(q) => merged["clarification_question" := JStr(q)]
    else result
  }

  /** `decide_intent(message, lang_hint)` once the settings are read, with
      `lang` = `lang_hint or "en"`, `rules` the rules function and `llm` the
      classifier as `_call_maybe_async` sees them. Every exception inside the
      `try` ends in the current result plus its text under "error". */
  function Decided(message: Json, lang: string, s: Settings, rules: Collaborator<Json>, llm: Collaborator<Json>,
                   refine: Refiner): (r: map<string, Json>)
    ensures Shaped(r)
  {
    var result := Initial(lang);
    match CallMaybeAsync(rules)
    case None => result["error" := JStr(NoAttribute(JNull, "get"))]
    case Some(answer) =>
      if !answer.JObj? then result["error" := JStr(NoAttribute(answer, "get"))]
      else FromRules(result, answer.o, lang, s, llm, message, refine)
  }

  /** Lines 51-69 once the rules answered with a dictionary `o`: its
      confidence against RULES_MIN_CONF, then the LLM step, then the
      clarification. */
  function FromRules(result: map<string, Json>, o: map<string, Json>, lang: string, s: Settings,
                     llm: Collaborator<Json>, message: Json, refine: Refiner): (r: map<string, Json>)
    requires Shaped(result)
    ensures Shaped(r)
  {
    var c := GetOr(o, "confidence", JNum(0.0));
    match AsNumber(c)
    case None => result["error" := JStr(NotComparable(c))]
    case Some(rc) =>
      if rc >= s.rulesMin then Accepted(result, o, "rules", message, refine)
      else
        match LlmStep(result, s, llm, message, refine)
        case Some(done) => done
        case None => ClarifyStep(result, o, rc, lang)
  }

  /** `decide_intent` step by step on the `result` dictionary. */
  method DecideIntent(message: Json, lang: string, s: Settings, rules: Collaborator<Json>, llm: Collaborator<Json>,
                      refine: Refiner)
    returns (result: map<string, Json>)
    ensures result == Decided(message, lang, s, rules, llm, refine)
  {
    result := Initial(lang);
    var rulesResult := CallMaybeAsync(rules);
    if rulesResult.None? {
      result := result["error" := JStr(NoAttribute(JNull, "get"))];
      return;
    }
    if !rulesResult.value.JObj? {
      result := result["error" := JStr(NoAttribute(rulesResult.value, "get"))];
      return;
    }
    result := DecideFromRules(result, rulesResult.value.o, lang, s, llm, message, refine);
  }

  /** Lines 51-69 step by step, once the rules answered with a dictionary. */
  method DecideFromRules(current: map<string, Json>, answer: map<string, Json>, lang: string, s: Settings,
                         llm: Collaborator<Json>, message: Json, refine: Refiner)
    returns (result: map<string, Json>)
    requires Shaped(current)
    ensures result == FromRules(current, answer, lang, s, llm, message, refine)
  {
    var c := GetOr(answer, "confidence", JNum(0.0));
    var rc := AsNumber(c);
    if rc.None? {
      result := current["error" := JStr(NotComparable(c))];
    } else if rc.value >= s.rulesMin {
      result := Accepted(current, answer, "rules", message, refine);
    } else {
      var step := LlmStep(current, s, llm, message, refine);
      if step.Some? {
        result := step.value;
      } else {
        result := ClarifyStep(current, answer, rc.value, lang);
      }
    }
  }

  /** `decide_intent(message, lang_hint)` with the repository's own
      collaborators: `match_rules` of intent/rules.py and `classify_with_llm`
      of intent/llm.py, which asks the model through `ask` and parses its reply
      with `parse`. */
  function DecideIntentResult(message: Json, hint: Option<string>, s: Settings,
                              ask: Prompt -> Outcome<string>, parse: string -> Option<Json>): (r: map<string, Json>)
    ensures Shaped(r)
  {
    var lang := LangOf(hint);
    var rules := JObj(RulesResult(message, lang));
    Decided(message, lang, s, Answers(rules), Answers(ClassifyWithLlm(message, lang, rules, ask, parse, FallbackPatterns)),
            RefineSlotsResult)
  }

  // -------------------------------------------------------------- properties

  /** A rules answer at or above RULES_MIN_CONF is taken, and the LLM is not
      consulted: the answer does not depend on it. */
  lemma RulesFirst(message: Json, lang: string, s: Settings, o: map<string, Json>, rc: real,
                   llm: Collaborator<Json>, refine: Refiner)
    requires AsNumber(GetOr(o, "confidence", JNum(0.0))) == Some(rc) && rc >= s.rulesMin
    ensures Decided(message, lang, s, Answers(JObj(o)), llm, refine) == Accepted(Initial(lang), o, "rules", message, refine)
  {
  }

  /** A taken answer carries the given source and no clarification, keeps every
      other key of the collaborator's answer over the current result, and its
      slots are what `refine_slots` made of the merged language, intent and
      slots; when `refine_slots` raises, its text is under "error". */
  lemma AcceptedFields(result: map<string, Json>, answer: map<string, Json>, source: string, message: Json, refine: Refiner)
    requires Shaped(result)
    ensures var r := Accepted(result, answer, source, message, refine);
      var merged := result + answer;
      var refined := refine(message, merged["language"], TextOf(merged["intent"]), merged["slots"]);
      r["source"] == JStr(source) && r["need_clarification"] == JBool(false)
      && (forall k :: k in merged && k != "source" && k != "need_clarification" && k != "slots" && k != "error" ==>
            k in r && r[k] == merged[k])
      && (forall k :: k in r ==> k in merged || k == "source" || k == "need_clarification" || k == "error")
      && (refined.Ok? ==> r["slots"] == refined.value && ("error" in r <==> "error" in merged))
      && (refined.Raises? ==> r["error"] == JStr(refined.error))
  {
  }

  /** The classifier is not consulted when USE_LLM_FALLBACK is off or it could
      not be imported. */
  lemma LlmOnlyWhenEnabled(message: Json, lang: string, s: Settings, rules: Collaborator<Json>,
                           llm: Collaborator<Json>, refine: Refiner)
    requires !s.useLlm || llm.Missing?
    ensures Decided(message, lang, s, rules, llm, refine) == Decided(message, lang, s, rules, Missing, refine)
  {
  }

  /** Below RULES_MIN_CONF, an enabled classifier's dictionary answer is taken
      with source "llm" exactly when its confidence reaches LLM_MIN_CONF, and
      is ignored otherwise. */
  lemma LlmAcceptedIff(message: Json, lang: string, s: Settings, o: map<string, Json>, rc: real,
                       lo: map<string, Json>, c: real, refine: Refiner)
    requires AsNumber(GetOr(o, "confidence", JNum(0.0))) == Some(rc) && rc < s.rulesMin
    requires s.useLlm && lo != map[] && AsNumber(GetOr(lo, "confidence", JNum(0.0))) == Some(c)
    ensures c >= s.llmMin ==>
      Decided(message, lang, s, Answers(JObj(o)), Answers(JObj(lo)), refine) == Accepted(Initial(lang), lo, "llm", message, refine)
    ensures c < s.llmMin ==>
      Decided(message, lang, s, Answers(JObj(o)), Answers(JObj(lo)), refine) == Decided(message, lang, s, Answers(JObj(o)), Missing, refine)
  {
  }

  /** When neither answer is taken, a rules confidence above 0.3 gives the
      merged rules answer with a clarification needed and the question for the
      rules' intent (the source is then the rules' own); at 0.3 or below the
      default answer comes back as it is. */
  lemma ClarifyOrDefault(message: Json, lang: string, s: Settings, o: map<string, Json>, rc: real, refine: Refiner)
    requires AsNumber(GetOr(o, "confidence", JNum(0.0))) == Some(rc) && rc < s.rulesMin
    ensures var r := Decided(message, lang, s, Answers(JObj(o)), Missing, refine);
      && (rc > 0.3 && "intent" in o && ClarificationQuestion(o["intent"], lang).Ok? ==>
            r == (Initial(lang) + o)["need_clarification" := JBool(true)]
                   ["clarification_question" := JStr(ClarificationQuestion(o["intent"], lang).value)])
      && (rc > 0.3 && "intent" !in o ==> "error" in r && r["need_clarification"] == JBool(true))
      && (rc <= 0.3 ==> r == Initial(lang))
  {
  }

  /** The default answer: unknown at 0.0 in the given language, source
      fallback, a clarification needed, and no question. */
  lemma DefaultAnswer(lang: string)
    ensures var r := Initial(lang);
      r["intent"] == JStr("unknown") && r["confidence"] == JNum(0.0) && r["language"] == JStr(lang)
      && r["source"] == JStr("fallback") && r["need_clarification"] == JBool(true)
      && r["slots"] == JObj(map[]) && "clarification_question" !in r && "error" !in r
  {
  }

  /** Rules that raised or could not be called (so `_call_maybe_async` gave
      None) or answered with no dictionary make `.get` raise: the default
      answer plus the AttributeError's text, which names the answer's type. */
  lemma RulesFailureRecorded(message: Json, lang: string, s: Settings, rules: Collaborator<Json>,
                             llm: Collaborator<Json>, refine: Refiner)
    requires !rules.Answers? || !rules.answer.JObj?
    ensures !rules.Answers? ==>
      Decided(message, lang, s, rules, llm, refine)
        == Initial(lang)["error" := JStr("'NoneType'" + " object has no attribute " + "'get'")]
    ensures rules.Answers? ==>
      Decided(message, lang, s, rules, llm, refine)
        == Initial(lang)["error" := JStr(NoAttribute(rules.answer, "get"))]
  {
    NoneHasNoGet();
  }

  /** A rules confidence that cannot be ordered against a float (a string,
      None, a list, a dictionary) makes the first comparison raise: the default
      answer plus the TypeError's text, which names the confidence's type. */
  lemma RulesConfidenceNotNumber(message: Json, lang: string, s: Settings, o: map<string, Json>,
                                 llm: Collaborator<Json>, refine: Refiner)
    requires "confidence" in o && AsNumber(o["confidence"]).None?
    ensures Decided(message, lang, s, Answers(JObj(o)), llm, refine)
      == Initial(lang)["error" := JStr(NotComparable(o["confidence"]))]
    ensures o["confidence"] == JStr("high") ==>
      Decided(message, lang, s, Answers(JObj(o)), llm, refine)
        == Initial(lang)["error" := JStr("'>=' not supported between instances of " + "'str'" + " and 'float'")]
  {
    StrNotComparable("high");
  }

  /** Below RULES_MIN_CONF, an enabled classifier whose truthy answer is no
      dictionary, or whose confidence cannot be ordered against a float, ends
      the call with the default answer plus the exception's text. */
  lemma LlmFailureRecorded(message: Json, lang: string, s: Settings, o: map<string, Json>, rc: real,
                           answer: Json, refine: Refiner)
    requires AsNumber(GetOr(o, "confidence", JNum(0.0))) == Some(rc) && rc < s.rulesMin
    requires s.useLlm && Truthy(answer)
    ensures !answer.JObj? ==>
      Decided(message, lang, s, Answers(JObj(o)), Answers(answer), refine)
        == Initial(lang)["error" := JStr(NoAttribute(answer, "get"))]
    ensures answer.JObj? && "confidence" in answer.o && AsNumber(answer.o["confidence"]).None? ==>
      Decided(message, lang, s, Answers(JObj(o)), Answers(answer), refine)
        == Initial(lang)["error" := JStr(NotComparable(answer.o["confidence"]))]
  {
  }

  /** A rules answer of that shape, with the LLM fallback off and a
      `refine_slots` that accepts the merged slots, leaves no error. */
  lemma NoErrorFromShapedRules(message: Json, lang: string, s: Settings, o: map<string, Json>,
                               llm: Collaborator<Json>, refine: Refiner)
    requires !s.useLlm && RulesShaped(o, lang)
    requires var merged := Initial(lang) + o;
      refine(message, merged["language"], TextOf(merged["intent"]), merged["slots"]).Ok?
    ensures "error" !in Decided(message, lang, s, Answers(JObj(o)), llm, refine)
  {
    var rc := o["confidence"].r;
    if rc >= s.rulesMin {
      AcceptedFields(Initial(lang), o, "rules", message, refine);
    } else {
      LlmOnlyWhenEnabled(message, lang, s, Answers(JObj(o)), llm, refine);
    }
  }

  /** With the repository's own rules and the LLM fallback off,
      `decide_intent` never records an error. */
  lemma NoErrorWithoutLlm(message: Json, hint: Option<string>, s: Settings,
                          ask: Prompt -> Outcome<string>, parse: string -> Option<Json>)
    requires !s.useLlm
    ensures "error" !in DecideIntentResult(message, hint, s, ask, parse)
  {
    var lang := LangOf(hint);
    var o := RulesResult(message, lang);
    var merged := Initial(lang) + o;
    RefineSlotsKeepsBase(message, merged["language"], TextOf(merged["intent"]), merged["slots"]);
    NoErrorFromShapedRules(message, lang, s, o, Answers(ClassifyWithLlm(message, lang, JObj(o), ask, parse, FallbackPatterns)),
                           RefineSlotsResult);
  }
}
