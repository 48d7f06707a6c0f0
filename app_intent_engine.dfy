/** The rules-then-LLM policy of the `app.intent` package (app/intent/engine.py).
    The rules function and the LLM classifier are collaborators whose answers
    are parameters. The package defines no `rules_decide`, so the import fails
    and the stub below, which always reports 0.0, takes its place. */
module AppIntentEngine {
  import opened PyText
  import opened JsonValue
  import opened Oracles
  import IntentDecide

  /** INTENT_MIN_CONF, LLM_ACCEPT_CONF and INTENT_USE_LLM as the environment
      holds them (None when unset). */
  datatype AppEnv = AppEnv(minConf: Option<string>, llmConf: Option<string>, useLlm: Option<string>)

  /** The thresholds and the switch, once read. */
  datatype Thresholds = Thresholds(rulesMin: real, llmMin: real, useLlm: bool)

  /** `float(os.getenv(name, default))`: the conversion raises a ValueError
      quoting text that is not a number, and it runs inside the `try`. */
  function FloatEnv(v: Option<string>, default: string): (r: Outcome<real>)
    ensures v.Some? && ParseDecimal(v.value).Some? ==> r == Ok(ParseDecimal(v.value).value)
    ensures v.Some? && ParseDecimal(v.value).None? ==>
      r == Raises("could not convert string to float: " + StrRepr(v.value))
  {
    var text := if v.Some? then v.value else default;
    match ParseDecimal(text)
    case Some(x) => Ok(x)
    case None => Raises(FloatError(JStr(text)))
  }

  /** Lines 46-48. */
  function ThresholdsOf(env: AppEnv): Outcome<Thresholds> {
    match FloatEnv(env.minConf, "0.55")
    case Raises(e) => Raises(e)
    case Ok(rulesMin) =>
      match FloatEnv(env.llmConf, "0.70")
      case Raises(e) => Raises(e)
      case Ok(llmMin) => Ok(Thresholds(rulesMin, llmMin, IntentDecide.UseLlmFrom(env.useLlm)))
  }

  /** `lang_hint or "und"`. */
  function LangOrUnd(hint: Option<string>): (lang: string)
    ensures hint.None? || hint.value == [] ==> lang == "und"
    ensures hint.Some? && hint.value != [] ==> lang == hint.value
  {
    if hint.Some? && hint.value != [] then hint.value else "und"
  }

  /** The `rules_decide` stub of lines 12-13. */
  function StubRules(hint: Option<string>): (r: Json)
    ensures r.JObj? && "intent" in r.o && r.o["intent"] == JStr("unknown")
  {
    JObj(map["intent" := JStr("unknown"), "confidence" := JNum(0.0), "language" := JStr(LangOrUnd(hint))])
  }

  /** `d.setdefault("source", src)`. */
  function SetDefaultSource(d: map<string, Json>, src: string): (r: map<string, Json>)
    ensures "source" in r && r.Keys == d.Keys + {"source"}
    ensures "source" in d ==> r == d
    ensures "source" !in d ==> r["source"] == JStr(src) && forall k :: k in d ==> r[k] == d[k]
  {
    if "source" in d then d else d["source" := JStr(src)]
  }

  /** One tier, lines 52-54 or 59-61: a falsy or missing answer is passed
      over; a dictionary is accepted when its confidence (0.0 when absent)
      reaches the threshold; `.get` on any other value, or a confidence that
      cannot be compared with a float, raises. */
  function Tier(res: Option<Json>, threshold: real, src: string): (r: Outcome<Option<map<string, Json>>>)
  {
    if res.None? || !Truthy(res.value) then Ok(None)
    else if !res.value.JObj? then Raises(NoAttribute(res.value, "get"))
    else
      var o := res.value.o;
      var c := GetOr(o, "confidence", JNum(0.0));
      match AsNumber(c)
      case None => Raises(NotComparable(c))
      case Some(x) => if x >= threshold then Ok(Some(SetDefaultSource(o, src))) else Ok(None)
  }

  /** The fresh answer of lines 65-73 and 76-83. */
  function Unknown(hint: Option<string>, source: string): (r: map<string, Json>)
    ensures "source" in r && "intent" in r && r["intent"] == JStr("unknown")
  {
    map["intent" := JStr("unknown"), "confidence" := JNum(0.0), "language" := JStr(LangOrUnd(hint)),
        "need_clarification" := JBool(true), "next_questions" := JArr([]), "source" := JStr(source)]
  }

  function ErrorAnswer(hint: Option<string>, e: string): (r: map<string, Json>)
    ensures "source" in r && "intent" in r && r["intent"] == JStr("unknown")
  {
    Unknown(hint, "error")["error" := JStr(e)]
  }

  /** The LLM step of lines 57-61, once the rules were passed over. */
  function LlmTier(hint: Option<string>, th: Thresholds, llm: Collaborator<Json>): map<string, Json> {
    if th.useLlm && !llm.Missing? then
      match Tier(CallMaybeAsync(llm), th.llmMin, "llm")
      case Raises(e) => ErrorAnswer(hint, e)
      case Ok(Some(r)) => r
      case Ok(None) => Unknown(hint, "fallback")
    else Unknown(hint, "fallback")
  }

  /** `decide_intent(message, lang_hint)` with the environment `env`, the rules
      function `rules` and the classifier `llm` (Missing when it cannot be
      imported); the message reaches them only. */
  function AppDecided(hint: Option<string>, env: AppEnv, rules: Collaborator<Json>, llm: Collaborator<Json>): map<string, Json> {
    DecidedWith(hint, ThresholdsOf(env), rules, llm)
  }

  /** The policy once the environment has been read (or has raised). */
  function DecidedWith(hint: Option<string>, ths: Outcome<Thresholds>, rules: Collaborator<Json>, llm: Collaborator<Json>): map<string, Json> {
    match ths
    case Raises(e) => ErrorAnswer(hint, e)
    case Ok(th) =>
      match Tier(CallMaybeAsync(rules), th.rulesMin, "rules")
      case Raises(e) => ErrorAnswer(hint, e)
      case Ok(Some(r)) => r
      case Ok(None) => LlmTier(hint, th, llm)
  }

  /** The policy as the repository runs it, with the stub in the rules tier. */
  function AppDecideIntent(hint: Option<string>, env: AppEnv, llm: Collaborator<Json>): (r: map<string, Json>)
    ensures "source" in r
    ensures !(llm.Answers? && llm.answer.JObj?) ==> "intent" in r && r["intent"] == JStr("unknown")
  {
    var stub := StubRules(hint);
    AlwaysAnswers(hint, ThresholdsOf(env), Answers(stub), llm);
    assert SetDefaultSource(stub.o, "rules")["intent"] == JStr("unknown");
    DecidedWith(hint, ThresholdsOf(env), Answers(stub), llm)
  }

  // ------------------------------------------------------------- properties

  /** A tier accepts exactly a non-empty dictionary whose confidence (0.0 when
      absent) is a number at least the threshold, and gives it back with its
      "source" set only when it had none. Any other truthy value makes `.get`
      raise, and a confidence that is no number makes the comparison raise. */
  lemma TierAcceptsIff(j: Json, threshold: real, src: string)
    ensures Tier(Some(j), threshold, src).Ok? && Tier(Some(j), threshold, src).value.Some?
      <==> j.JObj? && j.o != map[]
           && AsNumber(GetOr(j.o, "confidence", JNum(0.0))).Some?
           && AsNumber(GetOr(j.o, "confidence", JNum(0.0))).value >= threshold
    ensures Tier(Some(j), threshold, src).Ok? && Tier(Some(j), threshold, src).value.Some? ==>
      var r := Tier(Some(j), threshold, src).value.value;
      "source" in r && (forall k :: k in j.o ==> k in r && (k != "source" ==> r[k] == j.o[k]))
      && ("source" in j.o ==> r == j.o) && ("source" !in j.o ==> r["source"] == JStr(src))
    ensures !Truthy(j) ==> Tier(Some(j), threshold, src) == Ok(None)
    ensures Truthy(j) && !j.JObj? ==> Tier(Some(j), threshold, src) == Raises(NoAttribute(j, "get"))
    ensures j.JObj? && j.o != map[] && "confidence" in j.o && AsNumber(j.o["confidence"]).None? ==>
      Tier(Some(j), threshold, src) == Raises(NotComparable(j.o["confidence"]))
  {
  }

  /** An accepted rules answer is the result, and the classifier is not
      consulted. */
  lemma RulesWin(hint: Option<string>, th: Thresholds, rules: Collaborator<Json>, llm: Collaborator<Json>)
    requires Tier(CallMaybeAsync(rules), th.rulesMin, "rules").Ok?
    requires Tier(CallMaybeAsync(rules), th.rulesMin, "rules").value.Some?
    ensures DecidedWith(hint, Ok(th), rules, llm) == Tier(CallMaybeAsync(rules), th.rulesMin, "rules").value.value
    ensures DecidedWith(hint, Ok(th), rules, llm) == DecidedWith(hint, Ok(th), rules, Missing)
  {
  }

  /** Once the rules are passed over, the classifier decides when it is enabled
      and importable: its answer is accepted if and only if the tier accepts
      it, and otherwise the fallback comes back. */
  lemma LlmAfterRules(hint: Option<string>, th: Thresholds, rules: Collaborator<Json>, llm: Collaborator<Json>)
    requires Tier(CallMaybeAsync(rules), th.rulesMin, "rules") == Ok(None)
    ensures !th.useLlm || llm.Missing? ==> DecidedWith(hint, Ok(th), rules, llm) == Unknown(hint, "fallback")
    ensures th.useLlm && !llm.Missing? ==>
      match Tier(CallMaybeAsync(llm), th.llmMin, "llm")
      case Ok(Some(r)) => DecidedWith(hint, Ok(th), rules, llm) == r
      case Ok(None) => DecidedWith(hint, Ok(th), rules, llm) == Unknown(hint, "fallback")
      case Raises(e) => DecidedWith(hint, Ok(th), rules, llm) == ErrorAnswer(hint, e)
  {
  }

  /** An environment value that is not a number gives the error answer before
      any tier runs. */
  lemma BadEnvironment(hint: Option<string>, e: string, rules: Collaborator<Json>, llm: Collaborator<Json>)
    ensures DecidedWith(hint, Raises(e), rules, llm) == ErrorAnswer(hint, e)
    ensures "error" in ErrorAnswer(hint, e) && ErrorAnswer(hint, e)["source"] == JStr("error")
  {
  }

  /** Nothing escapes: the result is an accepted answer of one of the two
      tiers, with a "source", or a fresh "unknown" at 0.0 in the hinted
      language (else "und") that asks for clarification, marked "fallback" or,
      after an exception, "error" with the message. */
  lemma AlwaysAnswers(hint: Option<string>, ths: Outcome<Thresholds>, rules: Collaborator<Json>, llm: Collaborator<Json>)
    ensures var r := DecidedWith(hint, ths, rules, llm);
      || r == Unknown(hint, "fallback")
      || (exists e :: r == ErrorAnswer(hint, e))
      || (rules.Answers? && rules.answer.JObj? && r == SetDefaultSource(rules.answer.o, "rules"))
      || (llm.Answers? && llm.answer.JObj? && r == SetDefaultSource(llm.answer.o, "llm"))
    ensures "source" in DecidedWith(hint, ths, rules, llm)
  {
    var r := DecidedWith(hint, ths, rules, llm);
    match ths
    case Raises(e) => assert r == ErrorAnswer(hint, e);
    case Ok(th) =>
      match Tier(CallMaybeAsync(rules), th.rulesMin, "rules")
      case Raises(e) => assert r == ErrorAnswer(hint, e);
      case Ok(Some(_)) =>
      case Ok(None) =>
        if th.useLlm && !llm.Missing? {
          match Tier(CallMaybeAsync(llm), th.llmMin, "llm")
          case Raises(e) => assert r == ErrorAnswer(hint, e);
          case Ok(_) =>
        }
  }

  /** The stub reports 0.0, so under a positive rules threshold the rules tier
      never accepts: the policy behaves as if there were no rules at all. */
  lemma StubNeverAccepted(hint: Option<string>, th: Thresholds, llm: Collaborator<Json>)
    requires th.rulesMin > 0.0
    ensures DecidedWith(hint, Ok(th), Answers(StubRules(hint)), llm) == DecidedWith(hint, Ok(th), Missing, llm)
    ensures DecidedWith(hint, Ok(th), Answers(StubRules(hint)), llm) == LlmTier(hint, th, llm)
  {
    var o := StubRules(hint).o;
    assert "confidence" in o && o["confidence"] == JNum(0.0);
  }

  /** INTENT_MIN_CONF="abc" gives the error answer with the ValueError's text,
      whatever the rules and the classifier would have said. */
  lemma BadThresholdQuoted(hint: Option<string>, llmConf: Option<string>, useLlm: Option<string>,
                           rules: Collaborator<Json>, llm: Collaborator<Json>)
    ensures FloatEnv(Some("abc"), "0.55") == Raises("could not convert string to float: " + "'abc'")
    ensures AppDecided(hint, AppEnv(Some("abc"), llmConf, useLlm), rules, llm)
      == ErrorAnswer(hint, "could not convert string to float: " + "'abc'")
  {
    var msg := "could not convert string to float: " + "'abc'";
    AbcNoNumber();
    AbcNotFloat();
    assert FloatEnv(Some("abc"), "0.55") == Raises(msg);
    assert ThresholdsOf(AppEnv(Some("abc"), llmConf, useLlm)) == Raises(msg);
    BadEnvironment(hint, msg, rules, llm);
  }

  lemma AbcNoNumber()
    ensures ParseDecimal("abc") == None
  {
    var t := "abc";
    assert !IsSpace(t[0]) && !IsSpace(t[|t| - 1]);
    StripOfStripped(t);
    assert IndexOfChar(t, '.', 0) == -1;
    assert !IsDigit(t[0]);
  }

  /** Unset variables give the thresholds 0.55 and 0.70 and the LLM enabled. */
  lemma DefaultThresholds()
    ensures ThresholdsOf(AppEnv(None, None, None)) == Ok(Thresholds(0.55, 0.70, true))
  {
    DefaultMin();
    DefaultLlm();
  }

  lemma DefaultMin()
    ensures FloatEnv(None, "0.55") == Ok(0.55)
  {
    TwoDigits("0.55", 5, 5);
  }

  lemma DefaultLlm()
    ensures FloatEnv(None, "0.70") == Ok(0.70)
  {
    TwoDigits("0.70", 7, 0);
  }

  /** `float` of "0.ab". */
  lemma TwoDigits(s: string, a: nat, b: nat)
    requires |s| == 4 && s[0] == '0' && s[1] == '.' && a < 10 && b < 10
    requires s[2] == DigitChar(a) && s[3] == DigitChar(b)
    ensures ParseDecimal(s) == Some((10 * a + b) as real / 100.0)
  {
    assert !IsSpace(s[0]) && !IsSpace(s[|s| - 1]);
    StripOfStripped(s);
    assert s[0] != '-' && s[0] != '+';
    assert IndexOfChar(s, '.', 0) == 1;
    var ip, fp := s[..1], s[2..];
    assert DigitsValue(ip) == 0 by { assert ip[..0] == []; }
    assert DigitsValue(fp) == 10 * a + b by {
      assert fp[..1] == [DigitChar(a)] && fp[..1][..0] == [];
    }
    assert Pow10(2) == 100;
  }
}
