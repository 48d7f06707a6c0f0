/** The routing policy of the configurable intent engine
    (app/intent_engine/engine.py): score the domains, apply session bias, take the
    first maximal domain, then route strongly, route a session-biased candidate,
    ask the LLM when enabled, or fall back and ask a question. */
module IntentEngineDecide {
  import opened PyText
  import opened JsonValue
  import opened Oracles
  import opened IntentEngineRules
  import opened IntentEngineBias
  import opened IntentEngineSlots

  datatype Thresholds = Thresholds(routeStrong: real, candidateLow: real, candidateHigh: real)

  /** The loaded configuration: aliases, negation lists, weights and thresholds. */
  datatype Config = Config(aliases: seq<AliasEntry>, negations: seq<seq<string>>, weights: Weights, th: Thresholds)

  /** The decision record returned to the router. */
  datatype Decision = Decision(
    handled: bool, intent: Json, action: Json, entities: Json, targetAgent: Json,
    confidence: real, rationale: Json, followup: Json)

  const Clarify: string := "Please clarify what you need."

  /** The locale handed to `basic_slot_hints`: `session.get("locale", "en")`, then
      `locale or "en"`; a truthy value that is not a string has no `split`. */
  function SessionLocale(session: map<string, Json>): Outcome<string> {
    var v := GetOr(session, "locale", JStr("en"));
    if !Truthy(v) then Ok("en")
    else if v.JStr? then Ok(v.s)
    else Raises(NoAttribute(v, "split"))
  }

  /** The LLM branch: the answer dictionary's fields with their defaults, or the
      error record when the call or the reading of its answer raised. */
  function FromLlm(llm: Outcome<Json>, entities: Json): (d: Decision) {
    match llm
    case Raises(e) => LlmError(e, entities)
    case Ok(out) =>
      if !out.JObj? then LlmError(NoAttribute(out, "get"), entities)
      else
        var o := out.o;
        var conf := GetOr(o, "confidence", JNum(0.6));
        match ToFloat(conf)
        case None => LlmError(FloatError(conf), entities)
        case Some(c) =>
          Decision(Truthy(GetOr(o, "handled", JBool(true))), GetOr(o, "intent", JStr("fallback")), Get(o, "action"),
                   Or(Get(o, "entities"), JObj(map[])), Or(Get(o, "target_agent"), Get(o, "intent")),
                   c, Get(o, "rationale"), Get(o, "followup_question"))
  }

  function LlmError(e: string, entities: Json): Decision {
    Decision(false, JStr("fallback"), JNull, entities, JNull, 0.0, JStr("llm_error:" + e), JStr(Clarify))
  }

  /** `decide_intent(message, session, enable_llm)` with the configuration, the
      prompt file and the LLM's outcome as parameters. An absent session is
      passed as the empty map and an absent message as "". */
  function Decide(cfg: Config, message: string, session: map<string, Json>, enableLlm: bool,
                  prompt: Outcome<string>, llm: Outcome<Json>): (r: Outcome<Decision>)
    ensures cfg.aliases == [] ==> r.Raises?
    ensures r.Raises? ==> cfg.aliases == [] || SessionLocale(session).Raises? || (enableLlm && prompt.Raises?)
  {
    Route(cfg.th, BiasedScores(cfg, message, session), message, session, enableLlm, prompt, llm)
  }

  /** The scores after session bias, or the error raised on the way. */
  function BiasedScores(cfg: Config, message: string, session: map<string, Json>): (r: Outcome<seq<DomainScore>>)
    ensures r.Ok? ==> |r.value| == |cfg.aliases|
    ensures r.Raises? ==> cfg.aliases == []
  {
    var scores := Scores(message, cfg.aliases, cfg.negations, cfg.weights);
    BiasOutcome(scores, Get(session, "selected_agent"));
    if Biased(scores, Get(session, "selected_agent")).Ok? then
      BiasBounded(scores, Get(session, "selected_agent"));
      Biased(scores, Get(session, "selected_agent"))
    else
      Biased(scores, Get(session, "selected_agent"))
  }

  /** Everything `decide_intent` does once the biased scores are known. */
  function Route(th: Thresholds, biased: Outcome<seq<DomainScore>>, message: string, session: map<string, Json>,
                 enableLlm: bool, prompt: Outcome<string>, llm: Outcome<Json>): (r: Outcome<Decision>)
    ensures biased.Raises? ==> r == Raises(biased.error)
    ensures biased == Ok([]) ==> r.Raises?
    ensures r.Raises? ==>
      biased.Raises? || biased.value == [] || SessionLocale(session).Raises? || (enableLlm && prompt.Raises?)
  {
    match biased
    case Raises(e) => Raises(e)
    case Ok(b) =>
      if b == [] then Raises("max() arg is an empty sequence")
      else
        match SessionLocale(session)
        case Raises(e) => Raises(e)
        case Ok(locale) =>
          RouteOn(th, b, StrMap(Hints(message, locale)), Get(session, "selected_agent"), enableLlm, prompt, llm)
  }

  /** The routing decision on the biased scores `b`, once the slot hints
      `entities` are known: strong route, session-biased candidate, LLM, or
      the fallback question. */
  function RouteOn(th: Thresholds, b: seq<DomainScore>, entities: Json, selected: Json,
                   enableLlm: bool, prompt: Outcome<string>, llm: Outcome<Json>): (r: Outcome<Decision>)
    requires b != []
    ensures r.Raises? <==> enableLlm && prompt.Raises? && b[TopIndex(b)].score < th.routeStrong
                           && !CandidateRoute(th, b, selected)
  {
    var t := TopIndex(b);
    var top := b[t].domain;
    var topScore := b[t].score;
    if topScore >= th.routeStrong then
      Ok(Decision(true, JStr(top), JNull, entities, JStr(top), topScore, JStr("rules_strong"), JNull))
    else if CandidateRoute(th, b, selected) then
      Ok(Decision(true, JStr(top), JNull, entities, JStr(top), Min(0.9, topScore + 0.1),
                  JStr("rules_candidate_session_biased"), JNull))
    else if enableLlm then
      match prompt
      case Raises(e) => Raises(e)
      case Ok(_) => Ok(FromLlm(llm, entities))
    else
      Ok(Decision(false, JStr("fallback"), JNull, entities, JNull, topScore, JStr("rules_low"), JStr(Clarify)))
  }

  /** The session-biased candidate test on the top domain. */
  predicate CandidateRoute(th: Thresholds, b: seq<DomainScore>, selected: Json)
    requires b != []
  {
    var t := TopIndex(b);
    th.candidateLow <= b[t].score <= th.candidateHigh && selected == JStr(b[t].domain)
  }

  /** Every decision carries the slot hints of the message in the session's
      locale, except one read from an answer dictionary of the LLM, which
      carries that answer's entities. */
  lemma RouteCarriesHints(th: Thresholds, b: seq<DomainScore>, message: string, session: map<string, Json>,
                          enableLlm: bool, prompt: Outcome<string>, llm: Outcome<Json>)
    requires b != [] && SessionLocale(session).Ok? && prompt.Ok?
    ensures var r := Route(th, Ok(b), message, session, enableLlm, prompt, llm);
      r.Ok? && (r.value.entities == StrMap(Hints(message, SessionLocale(session).value))
                || (enableLlm && llm.Ok? && llm.value.JObj?))
  {
    var entities := StrMap(Hints(message, SessionLocale(session).value));
    var selected := Get(session, "selected_agent");
    assert Route(th, Ok(b), message, session, enableLlm, prompt, llm)
      == RouteOn(th, b, entities, selected, enableLlm, prompt, llm);
    RouteOnEntities(th, b, entities, selected, enableLlm, prompt, llm);
  }

  lemma RouteOnEntities(th: Thresholds, b: seq<DomainScore>, entities: Json, selected: Json,
                        enableLlm: bool, prompt: Outcome<string>, llm: Outcome<Json>)
    requires b != [] && prompt.Ok?
    ensures var r := RouteOn(th, b, entities, selected, enableLlm, prompt, llm);
      r.Ok? && (r.value.entities == entities || (enableLlm && llm.Ok? && llm.value.JObj?))
  {
  }

  /** A top score at or above route_strong routes to the top domain (the first
      maximal one after bias), with the rules_strong rationale. */
  lemma RouteStrong(th: Thresholds, b: seq<DomainScore>, entities: Json, selected: Json,
                    enableLlm: bool, prompt: Outcome<string>, llm: Outcome<Json>)
    requires b != [] && b[TopIndex(b)].score >= th.routeStrong
    ensures var t := TopIndex(b);
      RouteOn(th, b, entities, selected, enableLlm, prompt, llm)
        == Ok(Decision(true, JStr(b[t].domain), JNull, entities, JStr(b[t].domain), b[t].score, JStr("rules_strong"), JNull))
  {
  }

  /** Below route_strong, a top score within the candidate band on the selected
      agent routes to it with min(0.9, score + 0.1), before any LLM call. */
  lemma RouteCandidate(th: Thresholds, b: seq<DomainScore>, entities: Json, selected: Json,
                       enableLlm: bool, prompt: Outcome<string>, llm: Outcome<Json>)
    requires b != [] && b[TopIndex(b)].score < th.routeStrong && CandidateRoute(th, b, selected)
    ensures var t := TopIndex(b);
      RouteOn(th, b, entities, selected, enableLlm, prompt, llm)
        == Ok(Decision(true, JStr(b[t].domain), JNull, entities, JStr(b[t].domain), Min(0.9, b[t].score + 0.1),
                       JStr("rules_candidate_session_biased"), JNull))
    ensures RouteOn(th, b, entities, selected, enableLlm, prompt, llm).value.confidence <= 0.9
  {
  }

  /** With the LLM enabled and neither route taken, the LLM's answer decides. */
  lemma RouteLlm(th: Thresholds, b: seq<DomainScore>, entities: Json, selected: Json,
                 prompt: Outcome<string>, llm: Outcome<Json>)
    requires b != [] && prompt.Ok?
    requires b[TopIndex(b)].score < th.routeStrong && !CandidateRoute(th, b, selected)
    ensures RouteOn(th, b, entities, selected, true, prompt, llm) == Ok(FromLlm(llm, entities))
  {
  }

  /** With the LLM disabled and neither route taken, the decision is the
      unhandled fallback with the top score and the fixed question. */
  lemma RouteFallback(th: Thresholds, b: seq<DomainScore>, entities: Json, selected: Json,
                      prompt: Outcome<string>, llm: Outcome<Json>)
    requires b != []
    requires b[TopIndex(b)].score < th.routeStrong && !CandidateRoute(th, b, selected)
    ensures RouteOn(th, b, entities, selected, false, prompt, llm)
      == Ok(Decision(false, JStr("fallback"), JNull, entities, JNull, b[TopIndex(b)].score, JStr("rules_low"), JStr(Clarify)))
  {
  }

  /** A failing LLM call gives an unhandled fallback with confidence 0 and a
      rationale starting with "llm_error:". */
  lemma LlmErrorShape(e: string, entities: Json)
    ensures var d := FromLlm(Raises(e), entities);
      && !d.handled && d.intent == JStr("fallback") && d.confidence == 0.0 && d.targetAgent == JNull
      && d.rationale.JStr? && StartsWith(d.rationale.s, "llm_error:")
      && d.followup == JStr(Clarify) && d.entities == entities
  {
    assert ("llm_error:" + e)[..10] == "llm_error:";
  }

  /** An LLM answer that is no dictionary gives the error record, whose
      rationale is "llm_error:" and the AttributeError's text for `.get`. */
  lemma LlmNotDictionary(out: Json, entities: Json)
    requires !out.JObj?
    ensures FromLlm(Ok(out), entities) == LlmError(NoAttribute(out, "get"), entities)
    ensures FromLlm(Ok(out), entities).rationale == JStr("llm_error:" + NoAttribute(out, "get"))
  {
  }

  /** A confidence text that is no number gives the error record with the
      ValueError's text, which quotes the text as `repr` does. */
  lemma LlmConfidenceNotNumber(o: map<string, Json>, entities: Json)
    requires "confidence" in o && o["confidence"].JStr? && ParseDecimal(o["confidence"].s).None?
    ensures FromLlm(Ok(JObj(o)), entities)
      == LlmError("could not convert string to float: " + StrRepr(o["confidence"].s), entities)
  {
  }

  /** A confidence that is None, a list or a dictionary gives the error record
      with the TypeError's text, which names its type. */
  lemma LlmConfidenceWrongType(o: map<string, Json>, entities: Json)
    requires "confidence" in o && (o["confidence"].JNull? || o["confidence"].JArr? || o["confidence"].JObj?)
    ensures FromLlm(Ok(JObj(o)), entities)
      == LlmError("float() argument must be a string or a real number, not " + Quote(TypeName(o["confidence"])), entities)
  {
  }

  /** A list answer, word for word. */
  lemma LlmListText(entities: Json)
    ensures FromLlm(Ok(JArr([])), entities) == LlmError("'list'" + " object has no attribute " + "'get'", entities)
  {
    ListHasNoGet([]);
  }

  /** The confidence "x", word for word. */
  lemma LlmConfidenceXText(entities: Json)
    ensures FromLlm(Ok(JObj(map["confidence" := JStr("x")])), entities)
      == LlmError("could not convert string to float: " + "'x'", entities)
  {
    XNotFloat();
    var t := "x";
    assert !IsSpace(t[0]);
    StripOfStripped(t);
    assert IndexOfChar(t, '.', 0) == -1;
  }

  /** The confidence None, word for word. */
  lemma LlmConfidenceNoneText(entities: Json)
    ensures FromLlm(Ok(JObj(map["confidence" := JNull])), entities)
      == LlmError("float() argument must be a string or a real number, not " + "'NoneType'", entities)
  {
    NoneNotFloat();
  }

  /** The LLM's answer is taken with its defaults: handled True, intent
      "fallback", confidence 0.6, entities {} and the target falling back to the
      intent. */
  lemma LlmDefaults(entities: Json)
    ensures FromLlm(Ok(JObj(map[])), entities)
      == Decision(true, JStr("fallback"), JNull, JObj(map[]), JNull, 0.6, JNull, JNull)
  {
  }

  /** An absent or empty locale reads as English, a string locale is used as it
      is, and any other truthy value makes `split` raise. */
  lemma SessionLocaleCases(session: map<string, Json>)
    ensures "locale" !in session ==> SessionLocale(session) == Ok("en")
    ensures "locale" in session && !Truthy(session["locale"]) ==> SessionLocale(session) == Ok("en")
    ensures "locale" in session && session["locale"].JStr? && session["locale"].s != [] ==> SessionLocale(session) == Ok(session["locale"].s)
    ensures SessionLocale(session).Raises? <==> "locale" in session && Truthy(session["locale"]) && !session["locale"].JStr?
    ensures SessionLocale(session).Raises? ==> SessionLocale(session) == Raises(NoAttribute(session["locale"], "split"))
  {
  }
}
