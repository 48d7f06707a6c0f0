/** The keyword recogniser of the `app.intent` package
    (app/intent/recognizer.py): exact commands, then the add-service phrases,
    then a single word taken as a category, then three keyword families. */
module AppIntentRecognizer {
  import opened PyText

  /** The `type` of the returned dictionary, with the category where there is
      one. The commented-out "info_only_notice" branch has no constructor: it
      can never be returned. */
  datatype Recognized = UnknownText | ShowCategories | AddService | BrowseCategory(category: string)

  /** The phrase lists the recogniser consults. */
  datatype Phrases = Phrases(commands: seq<string>, add: seq<string>, food: seq<string>, transport: seq<string>, tech: string)

  const AppPhrases: Phrases := Phrases(
    ["menu", "/menu", "/start", "categories", "what do you have", "what services do you have"],
    ["add service", "create service"],
    ["food", "restaurant", "eat"],
    ["transport", "taxi", "bike"],
    "tech")

  /** `(text or "").strip().lower()`. */
  function Normalized(text: Option<string>): (t: string)
    ensures t == [] || (!IsSpace(t[0]) && !IsSpace(t[|t| - 1]))
    ensures forall i :: 0 <= i < |t| ==> !IsAsciiUpper(Lower(t[i]))
  {
    LowerStr(Strip(if text.Some? then text.value else ""))
  }

  /** The chain of checks on the normalised text `t`. */
  function RecognizeIn(t: string, p: Phrases): Recognized {
    if t == [] then UnknownText
    else if t in p.commands then ShowCategories
    else if ContainsAny(t, p.add) then AddService
    else if !Has(t, " ") && !Has(t, "/") then BrowseCategory(t)
    else if ContainsAny(t, p.food) then BrowseCategory("food")
    else if ContainsAny(t, p.transport) then BrowseCategory("transport")
    else if Has(t, p.tech) then BrowseCategory("tech")
    else UnknownText
  }

  /** `recognize_intent(text)`. */
  function RecognizeIntent(text: Option<string>): Recognized {
    RecognizeIn(Normalized(text), AppPhrases)
  }

  // ------------------------------------------------------------- properties

  /** A missing, empty or all-whitespace text is unknown. */
  lemma BlankIsUnknown(text: Option<string>)
    requires text.None? || forall i :: 0 <= i < |text.value| ==> IsSpace(text.value[i])
    ensures RecognizeIntent(text) == UnknownText
  {
  }

  /** Each add-service phrase holds a space. */
  predicate AllSpaced(ps: seq<string>) {
    forall k :: 0 <= k < |ps| ==> Contains(ps[k], " ")
  }

  lemma {:induction false} ContainedSpace(t: string, w: string)
    requires Contains(t, w) && Contains(w, " ")
    ensures Contains(t, " ")
  {
    var i :| 0 <= i <= |t| && OccursAt(t, w, i);
    var j :| 0 <= j <= |w| && OccursAt(w, " ", j);
    assert t[i + j] == w[j];
    assert OccursAt(t, " ", i + j);
  }

  /** The order of the checks: a command wins over everything, an add-service
      phrase over the single-word rule (which it can never meet, as every
      phrase holds a space), and the keyword families are consulted only for
      text holding a space or a slash. */
  lemma Precedence(t: string, p: Phrases)
    requires AllSpaced(p.add)
    ensures t != [] && t in p.commands ==> RecognizeIn(t, p) == ShowCategories
    ensures t !in p.commands && ContainsAny(t, p.add) ==> RecognizeIn(t, p) == AddService && Contains(t, " ")
    ensures RecognizeIn(t, p).BrowseCategory? && RecognizeIn(t, p).category != t ==> Contains(t, " ") || Contains(t, "/")
  {
    if t !in p.commands && ContainsAny(t, p.add) {
      var k :| 0 <= k < |p.add| && Contains(t, p.add[k]);
      ContainedSpace(t, p.add[k]);
    }
  }

  lemma AppPhrasesSpaced()
    ensures AllSpaced(AppPhrases.add)
  {
    assert OccursAt(AppPhrases.add[0], " ", 3);
    assert OccursAt(AppPhrases.add[1], " ", 6);
  }

  /** A category is never empty: it is the text itself when that is one word
      with neither a space nor a slash, and otherwise one of food, transport
      and tech, whose words the text holds. */
  lemma CategoryOrigin(t: string, p: Phrases)
    requires RecognizeIn(t, p).BrowseCategory?
    ensures var c := RecognizeIn(t, p).category;
      c != []
      && (!Contains(t, " ") && !Contains(t, "/") ==> c == t)
      && (Contains(t, " ") || Contains(t, "/") ==>
            ((c == "food" && ContainsAny(t, p.food))
             || (c == "transport" && ContainsAny(t, p.transport))
             || (c == "tech" && Contains(t, p.tech))))
  {
  }

  /** A slash command that is not a menu command is routed by its keywords:
      "/tech" browses tech. */
  lemma SlashTech()
    ensures RecognizeIntent(Some("/tech")) == BrowseCategory("tech")
  {
    var t := "/tech";
    StripOfStripped(t);
    LowerStrOfLower(t);
    SlashTechIn(t, AppPhrases);
  }

  lemma SlashTechIn(t: string, p: Phrases)
    requires t == "/tech" && p == AppPhrases
    ensures RecognizeIn(t, p) == BrowseCategory("tech")
  {
    SlashTechNotCommand(t, p.commands);
    SlashTechNoPhrase(t, p.add, "  ");
    SlashTechNoPhrase(t, p.food, "fra");
    SlashTechNoPhrase(t, p.transport, "rab");
    assert OccursAt(t, "/", 0);
    assert OccursAt(t, p.tech, 1);
  }

  lemma SlashTechNotCommand(t: string, commands: seq<string>)
    requires t == "/tech" && commands == AppPhrases.commands
    ensures t !in commands
  {
  }

  lemma SlashTechNoPhrase(t: string, ps: seq<string>, cs: seq<char>)
    requires t == "/tech" && |cs| == |ps|
    requires forall k :: 0 <= k < |ps| ==> cs[k] in ps[k] && cs[k] !in "/tech"
    ensures !ContainsAny(t, ps)
  {
    AbsentChars(t, ps, cs);
  }
}
