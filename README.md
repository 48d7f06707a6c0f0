# A verified model of a Telegram-to-catalogue router

The system routes Telegram chats to a service catalogue. A message is classified by one of three generations of intent engines:

- the configurable lexicon engine of `app/intent_engine/`;
- the command-and-keyword rules of `intent/`, with LLM fallback and slot refinement;
- the substring scorer and keyword recogniser of `app/intent/`.

From there the message goes to the add-service wizard, the information-only catalogue agent, or one of the JSON-in-chat front ends (the webhook, the direct "add service(s):" handler, pasted service JSON, Stage D documents, and the bridge route). The integrator pushes uploaded files to GitHub branches (Stage A) and promotes them to pull requests (Stage B). Around these sit the session store, the agent table with its memories and schemas, the catalogue clients and routes, and the admin and router-secret guards.

This project models that logic in Dafny, one module per Python file, plus a few shared modules:

- `PyText`, `PyRegex` and `PyOrder`: Python string, regex and ordering semantics; `PyOrder` also holds `sorted({x for x in xs if x})` on JSON values, which both clients use.
- `JsonValue`: JSON values, truthiness, and the messages of the exceptions Python raises on them (`.get` on a non-dictionary, `>=` against a float, `float()`).
- `Oracles`: answers of code outside the model.
- `JsonChat`: the JSON-in-chat helpers that the webhook and the direct handler share.

Pure code is modelled as functions and lemmas. Code that loops or mutates is modelled as methods over classes (the session store, the agent store, the remote branch, the info-only agent) or as methods with loop invariants, each proved against a specification function. The following are inputs or function parameters: network answers, the LLM's reply, `json.loads`, the clock, generated ids and environment variables.

## Model

| member | source | states |
|---|---|---|
| IntentEngineRules.TokenEnd | app/intent_engine/rules.py:3 | a token run ends at the first character outside `[\w\-]` |
| IntentEngineRules.Runs | app/intent_engine/rules.py:3-5 | `findall` yields non-empty runs made only of word characters and hyphens |
| IntentEngineRules.Tokenize | app/intent_engine/rules.py:4-5 | the tokens are the runs, one for one and in text order, each lowercased |
| IntentEngineRules.RunsSplitAtSeparator | app/intent_engine/rules.py:3-5 | a character outside `[\w\-]` splits the text: the runs of `a+c+b` are the runs of `a` followed by those of `b` |
| IntentEngineRules.RunsOfOneWord | app/intent_engine/rules.py:3-5 | a non-empty run of token characters is exactly one token, lowercased |
| IntentEngineRules.TokensOfTwoWords | app/intent_engine/rules.py:3-5 | two lowercase words joined by a space tokenize to exactly those two words |
| IntentEngineRules.LowerAll | app/intent_engine/rules.py:7 | `words_l` lowercases every word, keeping length and order |
| IntentEngineRules.ContainsAny | app/intent_engine/rules.py:6-9 | the flag is true exactly when the hit set is non-empty, and a token is a hit exactly when it equals a lowercased word |
| IntentEngineRules.PhraseNeverAToken | app/intent_engine/rules.py:3-24 | a strong alias containing a space never equals a token, lowercased or not, so it can never fire |
| IntentEngineRules.StrongHitIff | app/intent_engine/rules.py:6-24 | the strong test holds exactly when some token equals a lowercased strong alias |
| IntentEngineRules.FirstLowerIndex | app/intent_engine/rules.py:13-16 | the first word of the list whose lowercase is a given hit |
| IntentEngineRules.WeakHitsCharacterised | app/intent_engine/rules.py:10-17 | the weak hits are exactly the lowercased words contained in the lowercased text, with no duplicates |
| IntentEngineRules.WeakHitsOrdered | app/intent_engine/rules.py:13-16 | the weak hits keep the order of each word's first occurrence in the list |
| IntentEngineRules.WeakHitIff | app/intent_engine/rules.py:10-27 | the weak signal fires exactly when some lowercased weak word is a substring of the lowercased text |
| IntentEngineRules.SubstringHits | app/intent_engine/rules.py:10-17 | the loop appends each new lowercased word found in the text and returns the weak-hit list |
| IntentEngineRules.Clamp01 | app/intent_engine/rules.py:30 | `max(0, min(1, x))` lies in [0,1] and leaves values already in [0,1] unchanged |
| IntentEngineRules.Flatten | app/intent_engine/rules.py:28 | `sum(negations.values(), [])` holds exactly the words of all negation lists |
| IntentEngineRules.PreScores | app/intent_engine/rules.py:19-30 | every alias domain gets exactly one record, in order, computed from the same tokens and pooled negations |
| IntentEngineRules.ConflictPass | app/intent_engine/rules.py:31-35 | the conflict pass maps every record through the per-record penalty rule |
| IntentEngineRules.Scores | app/intent_engine/rules.py:18-36 | `score_domains` returns one record per alias domain |
| IntentEngineRules.ScoreDomain | app/intent_engine/rules.py:22-30 | one iteration of the domain loop computes that domain's record |
| IntentEngineRules.ScoreDomains | app/intent_engine/rules.py:18-36 | the two loops return exactly the records of the scoring specification |
| IntentEngineRules.ApplyConflict | app/intent_engine/rules.py:31-35 | the in-place conflict loop yields the conflict pass of the records |
| IntentEngineRules.AnyToken | app/intent_engine/rules.py:28 | the `any` is true exactly when some pooled negation word is a token |
| IntentEngineRules.CountStrong | app/intent_engine/rules.py:31-32 | the loop counts the records carrying `alias_strong` |
| IntentEngineRules.StrongPair | app/intent_engine/rules.py:31-32 | more than one strong record means two distinct strong-hit domains |
| IntentEngineRules.SignalsOfParts | app/intent_engine/rules.py:23-29 | each of the three optional signals is present exactly when its test holds, in the fixed order |
| IntentEngineRules.DomainRecordSignals | app/intent_engine/rules.py:24-30 | per domain: the score is in [0,1]; `alias_strong` iff a token equals a strong alias; `alias_weak` iff a weak word is a substring; `negation` iff one of those and a negation word is a token |
| IntentEngineRules.ScoresSignals | app/intent_engine/rules.py:18-36 | in the final records the three signals keep their conditions, and `conflict` is present exactly when the record has a strong hit and more than one domain does |
| IntentEngineRules.WithConflictSignals | app/intent_engine/rules.py:33-35 | the penalty keeps the strong, weak and negation signals, adds `conflict` exactly to strong-hit records and keeps the order |
| IntentEngineRules.ScoresBounds | app/intent_engine/rules.py:30-34 | every score is at least 0; it is at most 1 unless the conflict penalty applied, and always at most 1 when the conflict weight is not positive |
| IntentEngineRules.StrongOnlyRecord | app/intent_engine/rules.py:24-30 | a domain whose single strong alias is a token scores exactly the strong weight with only `alias_strong` |
| IntentEngineRules.ConflictCanExceedOne | app/intent_engine/rules.py:34 | with a positive conflict weight, a conflicting score can exceed 1 ("pizza cab" scores 1.5) |
| IntentEngineBias.TopIndex | app/intent_engine/bias.py:4 | `max(..., key=score)` picks the first record with the greatest score |
| IntentEngineBias.FindTop | app/intent_engine/bias.py:4 | the scan that replaces the best only on a strictly greater score finds that first maximal record |
| IntentEngineBias.ApplySessionBias | app/intent_engine/bias.py:2-9 | the in-place update returns exactly the bias specification (including the failure of `max` on an empty map) |
| IntentEngineBias.BiasOutcome | app/intent_engine/bias.py:3-4 | without a selected agent the scores come back unchanged; with one, it fails exactly on an empty score map |
| IntentEngineBias.BiasEffect | app/intent_engine/bias.py:4-8 | only the top record can change; it changes exactly when its score is in [0.60, 0.89] and it is the selected agent, becoming min(0.90, score+0.10) with `session_bias` appended |
| IntentEngineBias.BiasBounded | app/intent_engine/bias.py:6-7 | one application never lowers a score and never lifts one past 0.90, and keeps the domains |
| IntentEngineBias.BiasRepeatedBounded | app/intent_engine/bias.py:6-7 | however often it is applied, no score falls and none is pushed past 0.90 (the bias cap) |
| IntentEngineSlots.BaseLocale | app/intent_engine/slots.py:5 | the base locale has no "-" and defaults to "en" |
| IntentEngineSlots.AnyInScan | app/intent_engine/slots.py:6-9 | the `any(w in m ...)` scan agrees with substring containment of some word |
| IntentEngineSlots.BasicSlotHints | app/intent_engine/slots.py:4-10 | the method returns the hint map of the specification |
| IntentEngineSlots.ScanHints | app/intent_engine/slots.py:6-9 | the four conditional assignments, the last a `setdefault`, give the specified map |
| IntentEngineSlots.HintsShape | app/intent_engine/slots.py:6-9 | only "time" and "mode" keys, with values now/later and delivery/visit |
| IntentEngineSlots.HintsPrecedence | app/intent_engine/slots.py:6-9 | "later" overrides "now"; "delivery" wins over "visit"; each value appears exactly when its words occur |
| IntentEngineSlots.EmptyMessageNoHints | app/intent_engine/slots.py:5-10 | an empty message yields no hints |
| IntentEngineSlots.UnknownLocaleNoTime | app/intent_engine/slots.py:2-7 | a locale outside the NOW/LATER tables never yields a time hint |
| IntentEngineSlots.RegionIgnored | app/intent_engine/slots.py:5 | a region suffix is ignored: "de-AT" behaves as "de" |
| IntentEngineSlots.GoodMeansVisit | app/intent_engine/slots.py:9 | matching is by substring, so "good" gives mode "visit" |
| IntentEngineDecide.Decide | app/intent_engine/engine.py:10-36 | an empty alias table makes `max` fail; otherwise the decision fails only for a truthy locale that is not a string, or an unreadable prompt file with the LLM enabled |
| IntentEngineDecide.BiasedScores | app/intent_engine/engine.py:14-15 | one biased score per alias domain; the bias raises only when there are no domains |
| IntentEngineDecide.Route | app/intent_engine/engine.py:16-36 | a failure of the scores is passed on; no scores make `max` fail; otherwise it fails only on the locale or, with the LLM enabled, the prompt file |
| IntentEngineDecide.RouteOn | app/intent_engine/engine.py:16-36 | once scores exist, the decision raises exactly when neither rule route is taken, the LLM is enabled and the prompt file cannot be read |
| IntentEngineDecide.RouteCarriesHints | app/intent_engine/engine.py:17-36 | every answer carries the slot hints, except an LLM answer that supplies its own entities |
| IntentEngineDecide.RouteOnEntities | app/intent_engine/engine.py:19-36 | the route never fails once scores exist and the prompt reads, and carries the given entities unless the LLM answered |
| IntentEngineDecide.RouteStrong | app/intent_engine/engine.py:16-20 | a top score at or above route_strong routes to the first maximal domain with "rules_strong" |
| IntentEngineDecide.RouteCandidate | app/intent_engine/engine.py:22-23 | below route_strong, a top score in the candidate band on the selected agent routes there with min(0.9, score+0.1), before the LLM |
| IntentEngineDecide.RouteLlm | app/intent_engine/engine.py:25-34 | with the LLM enabled and neither rule route taken, the LLM's answer decides: its fields with their defaults, or the error record whose rationale is "llm_error:" followed by Python's message |
| IntentEngineDecide.RouteFallback | app/intent_engine/engine.py:36 | with the LLM disabled and no rule route, the answer is the unhandled "rules_low" fallback with the fixed question |
| IntentEngineDecide.LlmErrorShape | app/intent_engine/engine.py:33-34 | a failing LLM call gives an unhandled fallback, confidence 0, rationale "llm_error:..." and the fixed question |
| IntentEngineDecide.LlmDefaults | app/intent_engine/engine.py:30-32 | an empty LLM object reads as handled "fallback" with confidence 0.6 and empty entities |
| IntentEngineDecide.SessionLocaleCases | app/intent_engine/engine.py:13-17 | an absent or empty locale reads as "en", a string is used as given, and any other truthy value raises `'<type>' object has no attribute 'split'` |
| IntentEngineDecide.LlmNotDictionary | app/intent_engine/engine.py:29-34 | an LLM answer that is no dictionary gives the error record with rationale `llm_error:'<type>' object has no attribute 'get'` |
| IntentEngineDecide.LlmConfidenceNotNumber | app/intent_engine/engine.py:32-34 | a confidence text that is no number gives rationale `llm_error:could not convert string to float: ` followed by the text's `repr` |
| IntentEngineDecide.LlmConfidenceWrongType | app/intent_engine/engine.py:32-34 | a confidence that is None, a list or a dictionary gives rationale `llm_error:float() argument must be a string or a real number, not '<type>'` |
| IntentEngineDecide.LlmListText | app/intent_engine/engine.py:29-34 | a list answer gives the error text `'list' object has no attribute 'get'`, word for word |
| IntentEngineDecide.LlmConfidenceXText | app/intent_engine/engine.py:32-34 | the confidence "x" gives the error text `could not convert string to float: 'x'`, word for word |
| IntentEngineDecide.LlmConfidenceNoneText | app/intent_engine/engine.py:32-34 | the confidence None gives the error text `float() argument must be a string or a real number, not 'NoneType'`, word for word |
| IntentPatterns.LiteralEnds | intent/rules.py:50-51 | the word alternatives of the time group that occur at a position, in pattern order |
| IntentPatterns.ClockEnd | intent/rules.py:50-51 | `\d{1,2}:\d{2}` ends only where a clock shape was read |
| IntentPatterns.AmPmEnd | intent/rules.py:50 | `\d{1,2}[ap]m?` tries the "m" before giving it up |
| IntentPatterns.DigitEnds | intent/rules.py:50-51 | the digit alternatives give clock or (English only) am/pm ends |
| IntentPatterns.FirstBoundary | intent/rules.py:50-51 | the first candidate end where the closing `\b` holds, none exactly when no end has one |
| IntentPatterns.FirstBoundaryAppend | intent/rules.py:50-51 | once an earlier alternative succeeds, later alternatives are never tried |
| IntentPatterns.TimeAt | intent/rules.py:50-54 | a match at a position starts and ends on word boundaries and has the time shape |
| IntentPatterns.SearchTime | intent/rules.py:54 | `re.search` reports the leftmost position where the time pattern matches, none exactly when it matches nowhere |
| IntentPatterns.TimeMatchOf | intent/rules.py:54-56 | `group(0)` has the time shape, and is absent exactly when no position matches |
| IntentPatterns.TimeMatch | intent/rules.py:49-54 | the Russian table has no am/pm, any other language uses the English one |
| IntentPatterns.ShadowedAlternative | intent/rules.py:50-51 | an alternative extending an earlier word past a word boundary can never be the match |
| IntentPatterns.ShadowAt | intent/rules.py:50-51 | where an earlier word matches whole at a boundary, the match is one of those words |
| IntentPatterns.TimeAtLiteral | intent/rules.py:50-51 | a word ending at a boundary beats the digit alternatives |
| IntentPatterns.TodayEveningNeverMatched | intent/rules.py:51 | "сегодня вечером" can never be the match, since "сегодня" is tried first and the space is a boundary |
| IntentPatterns.NounFound | intent/rules.py:57 | trying the nouns in order decides the noun tail |
| IntentPatterns.DigitGroup | intent/rules.py:57 | `\d{1,3}` tries 3, 2, then 1 digits, each followed by the tail |
| IntentPatterns.WordGroup | intent/rules.py:57 | the number words are tried in order, each followed by the tail |
| IntentPatterns.GroupAt | intent/rules.py:57 | the group is digits (with backtracking) before words, and is followed by the noun tail |
| IntentPatterns.AfterPrefix | intent/rules.py:57 | after the optional word, `\s*` then a group of the party-size shape |
| IntentPatterns.PrefixTry | intent/rules.py:57 | each leading word is tried, then none |
| IntentPatterns.PeopleGroup | intent/rules.py:57-61 | `group(1)` of the leftmost party-size match has the digits-or-word shape, absent exactly when no position matches |
| IntentPatterns.WordIndex | intent/rules.py:62 | the position of a number word in the table |
| IntentPatterns.PeopleCount | intent/rules.py:62-63 | a number word maps to 1..10 |
| IntentPatterns.PeopleCountOfGroup | intent/rules.py:57-65 | every captured group gives a count, 1..10 from a word and up to 999 from digits, so the `pop` never happens |
| IntentRules.SlashCommandIn | intent/rules.py:25 | `^/(menu\|start\|help)$` holds exactly for "/" plus a command up to `$` |
| IntentRules.OpensWithAny | intent/rules.py:25 | the second menu branch holds exactly when the text begins with one of its words |
| IntentRules.HitCount | intent/rules.py:39 | the hit count is at most the number of words |
| IntentRules.HitCountZero | intent/rules.py:39-40 | no hit exactly when no word occurs as a whole word |
| IntentRules.KeywordConfidence | intent/rules.py:41 | with at least one hit the confidence lies in [0.45, 0.9] |
| IntentRules.EntryConfidence | intent/rules.py:39-41 | an intent's confidence is 0 exactly without hits and never exceeds 0.9 |
| IntentRules.Scores | intent/rules.py:38-41 | each lexicon entry is paired with the confidence it reaches |
| IntentRules.BestIsFirstMaximum | intent/rules.py:37-43 | the best confidence bounds all others; it is 0 (with "unknown") exactly when none scored; otherwise it is the first entry reaching it |
| IntentRules.ScoreKeywords | intent/rules.py:37-43 | the loop returns the first maximal intent and its confidence |
| IntentRules.ExtractBasicSlots | intent/rules.py:47-68 | the method fills exactly the slots of the specification |
| IntentRules.FillSlots | intent/rules.py:55-65 | time from the time match, people from the count when there is one |
| IntentRules.BasicSlotsShape | intent/rules.py:47-68 | only "time" and "people": time has the time shape, people is set exactly when the pattern matches and lies in 0..999 |
| IntentRules.MatchRules | intent/rules.py:29-45 | the method returns exactly the specified result |
| IntentRules.NoTextUnknown | intent/rules.py:30-31 | empty or non-string text is "unknown" at 0.0 with empty slots and no source |
| IntentRules.RulesResult | intent/rules.py:29-68 | every result has a string intent, a numeric confidence, a dictionary of slots, the language it was given and no "error", the shape `decide_intent` expects |
| IntentRules.CommandsFirst | intent/rules.py:33-45 | menu is tried before add_service; a command gives 0.95, empty slots, "rules_command"; otherwise the source is "rules_keywords" |
| IntentRules.PhraseSurvivesStrip | intent/rules.py:26-32 | an add-service phrase anywhere in the lowered text survives the strip |
| IntentRules.AddServiceAnywhere | intent/rules.py:26-35 | a text containing an add-service phrase in any case is add_service unless it is a menu command |
| IntentRules.UnknownLanguageIsEnglish | intent/rules.py:36-53 | a language without its own lexicon behaves as English; only the reported language differs |
| IntentRules.SameLexiconSameVerdict | intent/rules.py:36-45 | for a fixed lexicon, the language only changes the reported language |
| IntentRules.KeywordVerdict | intent/rules.py:37-45 | without a command, the confidence bounds every intent's, and is 0 (intent "unknown") exactly when no keyword occurs whole |
| IntentSlots.CopyOf | intent/slots.py:17 | `dict(base or {})`: a falsy base gives {}, a dictionary is copied, a list is read as key/value pairs, and a non-empty string, a number or True raises |
| IntentSlots.PairOf | intent/slots.py:17 | an element `dict()` accepts is a two-element list with a string key or a two-character string, and the pair is made of its two parts; a list of two with a string key and a string of two always succeed |
| IntentSlots.DictOfPairsRaises | intent/slots.py:17 | `dict(list)` succeeds exactly when every element is a pair, and otherwise raises the error of the first element that is not |
| IntentSlots.DictOfPairsMeaning | intent/slots.py:17 | a `dict(list)` that succeeds stores the elements' pairs in order |
| IntentSlots.StoreKeys | intent/slots.py:17 | storing pairs gives exactly their keys |
| IntentSlots.StoreLastWins | intent/slots.py:17 | each key holds the value of its last pair |
| IntentSlots.PatternLang | intent/slots.py:19 | looking the language up raises exactly for a list or a dictionary (unhashable), a string selects itself and any other value English |
| IntentSlots.RefineCopy | intent/slots.py:18-50 | the method returns `RefinedCopy`: the lookup's error, or the copy updated by the searches |
| IntentSlots.HitsOf | intent/slots.py:19-50 | the captured party size has the pattern's shape; cuisine is looked up only for food, property type only for real estate |
| IntentSlots.RefineSlots | intent/slots.py:14-51 | the method returns `RefineSlotsResult`: the base (or {}) for empty or non-string text, else the copy's error, else the language lookup's error, else the refined copy |
| IntentSlots.AssignSlots | intent/slots.py:21-50 | the assignments in order give the copied slots updated with what was found |
| IntentSlots.RefinedIsCopyUpdated | intent/slots.py:17-50 | the result is the copy with exactly the found keys overwritten and every other key kept |
| IntentSlots.RefineSlotsKeepsBase | intent/slots.py:15-51 | empty text returns the base as given (or {}); otherwise the copy's error comes first, then a list or dictionary language raises "unhashable type"; a falsy or dictionary base with a hashable language never raises, and a dictionary base comes back updated with the hits of its language |
| IntentSlots.UnknownLanguageAsEnglish | intent/slots.py:19 | every language but Russian finds the same slots as English |
| IntentSlots.FoundSlotShapes | intent/slots.py:20-50 | time has the time shape; people is 0..999 (1..10 from a word) and set whenever a group was captured; location has no digits or stops; cuisine and property are listed words |
| IntentSlots.TermSlot | intent/slots.py:36-42 | the term is "short-term" exactly when the first term match is a short alternative, else "long-term" |
| SlotPatterns.PlaceEnd | intent/slots.py:11 | the lazy group stops at the first place where the lookahead holds, having read only allowed characters |
| SlotPatterns.PlaceAfterSpaces | intent/slots.py:11 | the greedy `\s+` gives characters back one at a time until the group fits |
| SlotPatterns.PlaceFrom | intent/slots.py:11 | after the locative word: at least one whitespace, then a group of allowed characters |
| SlotPatterns.LocativeFrom | intent/slots.py:11 | the locative words are tried in order; one whose rest fails hands over to the next |
| SlotPatterns.PlaceAt | intent/slots.py:11 | a match starts on a word boundary and its group is a non-empty run of allowed characters |
| SlotPatterns.PlaceSearch | intent/slots.py:11-33 | the leftmost position where the location pattern matches, none exactly when it matches nowhere |
| SlotPatterns.PlaceOf | intent/slots.py:33-35 | `group(2).strip()` has only allowed characters and no surrounding whitespace |
| SlotPatterns.LocationOf | intent/slots.py:11-35 | the location never holds a digit or one of `.,!?;:` and is trimmed |
| SlotPatterns.PlaceFoundAfterWord | intent/slots.py:11-33 | a locative word at a boundary, whitespace, then a run of allowed characters up to a stop always gives a location |
| SlotPatterns.PiecesEnd | intent/slots.py:12 | where one term alternative ends when run from a position |
| SlotPatterns.TermFrom | intent/slots.py:12 | the first alternative that runs at a position, earlier ones having failed |
| SlotPatterns.TermSearch | intent/slots.py:12-36 | the leftmost position where some alternative runs |
| SlotPatterns.SearchTerm | intent/slots.py:12-38 | the match text is a run of the first alternative at the leftmost position, none exactly when nothing runs anywhere |
| SlotPatterns.MarkedIsShort | intent/slots.py:39-40 | a match containing "short", "корот", "ngắn" or "kurz" is short-term |
| SlotPatterns.ShortRunMarked | intent/slots.py:12-40 | every run of a short alternative contains its short marker |
| SlotPatterns.LongRunUnmarked | intent/slots.py:12-42 | no run of a long alternative contains a short marker, so it is long-term |
| SlotPatterns.TermIsShortIffShortAlternative | intent/slots.py:36-42 | the term is short-term exactly when the matched alternative is one of the short ones |
| IntentLlm.VerbsAt | intent/llm.py:95 | one of add/create/new followed by `\s+service\b` at a position |
| IntentLlm.ServiceAfterFrom | intent/llm.py:95-99 | the add-service pattern is found exactly when some position matches it |
| IntentLlm.PatternHits | intent/llm.py:89-99 | whether each pattern matches, in table order |
| IntentLlm.FirstTrue | intent/llm.py:98-101 | the first matching pattern, all earlier ones having failed |
| IntentLlm.DetectIntent | intent/llm.py:97-101 | the loop leaves at the first pattern that matches, or keeps "unknown" |
| IntentLlm.ParseFallback | intent/llm.py:88-102 | the fallback parser returns exactly the specified dictionary |
| IntentLlm.FallbackPicksFirst | intent/llm.py:97-102 | the intent is the first matching pattern's at 0.6, and "unknown" at 0.0 exactly when none matches |
| IntentLlm.FallbackJsonFields | intent/llm.py:102 | the fallback answer has intent, confidence (0.6 unless unknown) and language |
| IntentLlm.NoPatternNamedUnknown | intent/llm.py:89-96 | no pattern of the table is named "unknown" |
| IntentLlm.ServiceIsWholeWord | intent/llm.py:93-95 | the "service" after the verb and its spaces is a whole word |
| IntentLlm.ShadowedNeverFirst | intent/llm.py:98-101 | a pattern whose every match an earlier pattern also matches is never the first to match |
| IntentLlm.AddServiceShadowed | intent/llm.py:93-95 | add_service is the last pattern, and business, tried earlier, lists "service" |
| IntentLlm.FallbackNeverAddService | intent/llm.py:93-101 | the fallback parser can never yield add_service |
| IntentLlm.EmptyTextAsksNothing | intent/llm.py:31-32 | empty or non-string text is unknown at 0.0 without asking the model |
| IntentLlm.ClassifyWithLlm | intent/llm.py:26-86 | an answer other than the unknown result needs non-empty text, a readable rules context, and a model reply that did not raise |
| IntentLlm.HintIffKnownContext | intent/llm.py:34-52 | the prompt carries the rules' hint exactly when the context is a non-empty dictionary whose intent is not "unknown" |
| IntentLlm.ReplyHandling | intent/llm.py:63-83 | a reply that does not parse, or a dictionary missing a required key, goes to the fallback parser; a complete one is returned |
| IntentLlm.AnswerHasIntent | intent/llm.py:31-86 | whatever happens, the answer is a dictionary with intent, confidence and language |
| IntentLlm.ValidatedHasIntent | intent/llm.py:72-83 | the validated reply always has intent, confidence and language |
| IntentDecide.UseLlmFrom | intent/engine.py:46 | an unset USE_LLM_FALLBACK means true |
| IntentDecide.LangOf | intent/engine.py:47 | `lang_hint or "en"` |
| IntentDecide.QuestionIn | intent/engine.py:77-78 | a listed intent gets its question, any other hashable value the "unknown" one; a list or dictionary raises |
| IntentDecide.QuestionFallbacks | intent/engine.py:75-78 | every language but Russian gets the English questions; unlisted intents (menu, add_service) get the generic one |
| IntentDecide.TablesListFourIntents | intent/engine.py:76 | both tables list food, real_estate, transportation, business and unknown only |
| IntentDecide.Initial | intent/engine.py:48 | the initial result has the full answer shape |
| IntentDecide.Accepted | intent/engine.py:52-64 | an accepted answer keeps the answer shape |
| IntentDecide.LlmStep | intent/engine.py:57-64 | the LLM step keeps the shape and falls through when the LLM is off or missing |
| IntentDecide.FromRules | intent/engine.py:51-69 | the steps after a dictionary rules answer keep the answer shape |
| IntentDecide.ClarifyStep | intent/engine.py:65-69 | the clarification step keeps the shape |
| IntentDecide.Decided | intent/engine.py:43-73 | every outcome, including the error path, has the answer shape |
| IntentDecide.DecideIntent | intent/engine.py:43-73 | the step-by-step method on the result dictionary returns `Decided`: the rules answer taken, the LLM answer taken, the clarification, or the default, with every exception's `str(e)` under "error" |
| IntentDecide.DecideFromRules | intent/engine.py:51-69 | the step-by-step method after a dictionary rules answer returns `FromRules` |
| IntentDecide.RulesFirst | intent/engine.py:51-56 | a rules answer at or above RULES_MIN_CONF is taken and the LLM is not consulted |
| IntentDecide.AcceptedFields | intent/engine.py:52-63 | an accepted answer is the merge with the given source and no clarification, every other merged key kept; its slots are what `refine_slots` made of the merged language (any value), intent and slots, and when that raises (a base `dict()` rejects, a list or dictionary language) the error text is under "error" |
| IntentDecide.LlmOnlyWhenEnabled | intent/engine.py:57 | the classifier is not consulted when USE_LLM_FALLBACK is off or it could not be imported |
| IntentDecide.LlmAcceptedIff | intent/engine.py:57-64 | below the rules threshold, a non-empty LLM answer is taken exactly when its confidence reaches LLM_MIN_CONF |
| IntentDecide.ClarifyOrDefault | intent/engine.py:65-69 | a rules confidence above 0.3 gives the merged answer with a clarification question; otherwise the default comes back |
| IntentDecide.DefaultAnswer | intent/engine.py:48 | the default answer: unknown, 0.0, the language, source fallback, clarification needed, no question |
| IntentDecide.RulesFailureRecorded | intent/engine.py:29-73 | rules that raised or could not be called give the default plus `'NoneType' object has no attribute 'get'`; a non-dictionary answer gives the default plus `'<type>' object has no attribute 'get'` |
| IntentDecide.RulesConfidenceNotNumber | intent/engine.py:51-73 | a rules confidence that is no number gives the default plus `'>=' not supported between instances of '<type>' and 'float'`; for "high", `'str'` |
| IntentDecide.LlmFailureRecorded | intent/engine.py:57-73 | below the rules threshold, a truthy LLM answer that is no dictionary, or whose confidence is no number, gives the default plus the AttributeError's or the TypeError's message |
| IntentDecide.NoErrorFromShapedRules | intent/engine.py:50-69 | such an answer, with the LLM off and slots that refine, leaves no error |
| IntentDecide.NoErrorWithoutLlm | intent/engine.py:43-73 | with the repository's own rules and the LLM off, `decide_intent` never records an error |
| IntentDecide.DecideIntentResult | intent/engine.py:43-73 | every answer carries intent, confidence, language, slots, source and need_clarification |
| JsonValue.NoneHasNoGet | intent/engine.py:50-51 | `.get` on None raises `'NoneType' object has no attribute 'get'` |
| JsonValue.ListHasNoGet | app/intent_engine/engine.py:29-30 | `.get` on a list raises `'list' object has no attribute 'get'` |
| JsonValue.StrNotComparable | intent/engine.py:51 | a string compared with a float threshold raises `'>=' not supported between instances of 'str' and 'float'` |
| JsonValue.NoneNotFloat | app/intent_engine/engine.py:32 | `float(None)` raises `float() argument must be a string or a real number, not 'NoneType'` |
| JsonValue.XNotFloat | app/intent_engine/engine.py:32 | `float("x")` raises `could not convert string to float: 'x'` |
| JsonValue.AbcNotFloat | app/intent/engine.py:46 | `float("abc")` raises `could not convert string to float: 'abc'` |
| PyText.ReprOfPlain | app/intent/engine.py:46 | the ValueError quotes printable ASCII text without a single quote or a backslash between single quotes, unchanged |
| PyText.ReprRoundTrip | app/intent/engine.py:46 | what `repr()` writes between the quotes reads back as the original text: escaping loses nothing |
| Oracles.CallMaybeAsync | intent/engine.py:29-41 | (the same helper is repeated at app/intent/engine.py:26-38) the helper gives the answer of a function that answers, and None when there is no function or the call raised |
| AppIntentRules.SubstringHits | app/intent/rules.py:7 | the hit count is at most the number of words |
| AppIntentRules.SubstringHitsZero | app/intent/rules.py:7-8 | no hit exactly when no word is a substring of the text |
| AppIntentRules.SubstringConfidence | app/intent/rules.py:9 | with at least one hit the confidence lies in [0.6, 0.95] |
| AppIntentRules.DomainScore | app/intent/rules.py:7-9 | a domain scores 0 exactly without hits, and never more than 0.95 |
| AppIntentRules.DomainScores | app/intent/rules.py:6-9 | each domain paired with its score, in lexicon order |
| AppIntentRules.MatchRulesIn | app/intent/rules.py:4-11 | the loop keeps the first maximal domain and its score; the slots are always empty |
| AppIntentRules.MatchRules | app/intent/rules.py:3-11 | `match_rules` with the lexicon chosen by language |
| AppIntentRules.SubstringVerdict | app/intent/rules.py:5-11 | the kept score bounds every domain's; it is 0 ("unknown") exactly when no word occurs; otherwise it is the first domain reaching it, in [0.6, 0.95] |
| AppIntentRules.MissingTextAndLanguage | app/intent/rules.py:5 | a missing text reads as "", and a language without a lexicon scores with the English one |
| AppIntentSlots.ClockAt | app/intent/slots.py:4 | `\b\d{1,2}:\d{2}\b` tries two hour digits before one and sits on word boundaries |
| AppIntentSlots.TimeAt | app/intent/slots.py:4 | the first word alternative that runs at a position, else the clock |
| AppIntentSlots.TimeSearch | app/intent/slots.py:4-10 | the leftmost position where the time pattern matches |
| AppIntentSlots.TimeIn | app/intent/slots.py:10 | no time exactly when the pattern matches nowhere |
| AppIntentSlots.TimeIsLeftmost | app/intent/slots.py:10 | the time is the text of the leftmost match, cut from the message as written |
| AppIntentSlots.PeopleRest | app/intent/slots.py:5 | after the optional word, `\s*`, one or two digits and a noun |
| AppIntentSlots.PeopleAt | app/intent/slots.py:5 | a match captures one or two digits |
| AppIntentSlots.PeopleSearch | app/intent/slots.py:5-11 | the leftmost match, none exactly when no position matches |
| AppIntentSlots.PeopleIn | app/intent/slots.py:11-14 | no party size exactly when the pattern matches nowhere; `int()` never raises on the group |
| AppIntentSlots.PeopleBound | app/intent/slots.py:5-13 | a party size comes from one or two digits, so it is at most 99 |
| AppIntentSlots.AreaRun | app/intent/slots.py:6 | the greedy run of `[\w\-\sÀ-žĐđ]` characters |
| AppIntentSlots.AreaAfter | app/intent/slots.py:6 | `\s+` gives back one whitespace so the group is non-empty |
| AppIntentSlots.AreaFrom | app/intent/slots.py:6 | the locative words are tried in order, each with the rest of the pattern |
| AppIntentSlots.AreaAt | app/intent/slots.py:6 | a match's group is a non-empty run of the class |
| AppIntentSlots.AreaSearch | app/intent/slots.py:6-15 | the leftmost match of the location pattern |
| AppIntentSlots.LocationIn | app/intent/slots.py:15 | no location exactly when the pattern matches nowhere |
| AppIntentSlots.LocationShape | app/intent/slots.py:6-15 | a location is trimmed and, lowercased, made only of the class characters |
| AppIntentSlots.TermIn | app/intent/slots.py:16-18 | the term is "short-term" or "long-term" |
| AppIntentSlots.TermShortIffShortPhrase | app/intent/slots.py:7-18 | the term is short exactly when the first match is a short alternative |
| AppIntentSlots.ExtractSlots | app/intent/slots.py:8-19 | the method returns `ExtractedSlots`: the error of `dict(base or {})` (a list of pairs is accepted), or the copy with time, people, location and term assigned in order |
| AppIntentSlots.FilledKeys | app/intent/slots.py:10-18 | time and location are always present (kept from the base or None when unmatched); people and term change only on a match |
| AppIntentSlots.BaseKept | app/intent/slots.py:9-19 | a falsy or dictionary base never raises, keeps every base key and leaves keys other than the four untouched |
| AppIntentEngine.FloatEnv | app/intent/engine.py:46-47 | `float()` of an environment value converts decimal text and otherwise raises `could not convert string to float: ` followed by the text's `repr`, inside the `try` |
| AppIntentEngine.BadThresholdQuoted | app/intent/engine.py:45-73 | INTENT_MIN_CONF="abc" gives the error answer with `could not convert string to float: 'abc'` |
| AppIntentEngine.LangOrUnd | app/intent/engine.py:68-79 | `lang_hint or "und"` |
| AppIntentEngine.SetDefaultSource | app/intent/engine.py:53-60 | `setdefault("source", ...)` adds the source only when absent and changes nothing else |
| AppIntentEngine.TierAcceptsIff | app/intent/engine.py:52-61 | a tier accepts exactly a non-empty dictionary whose confidence reaches the threshold, and then carries a source; another truthy value raises `'<type>' object has no attribute 'get'`, and a confidence that is no number raises `'>=' not supported between instances of '<type>' and 'float'` |
| AppIntentEngine.RulesWin | app/intent/engine.py:51-54 | an accepted rules answer is the result and the classifier is not consulted |
| AppIntentEngine.LlmAfterRules | app/intent/engine.py:56-83 | after rejected rules, the LLM answer is taken when enabled and accepted, otherwise the fallback comes back |
| AppIntentEngine.BadEnvironment | app/intent/engine.py:45-73 | a non-numeric threshold gives the error answer before any tier runs |
| AppIntentEngine.AlwaysAnswers | app/intent/engine.py:41-83 | the function never raises: the answer is the fallback, the error answer, or a tier's answer, always with a source |
| AppIntentEngine.StubNeverAccepted | app/intent/engine.py:9-52 | the stub rules report 0.0, so under a positive threshold the policy behaves as if there were no rules |
| AppIntentEngine.AppDecideIntent | app/intent/engine.py:9-83 | every answer has a source; unless the classifier answers a dictionary, the intent is "unknown" |
| AppIntentEngine.DefaultThresholds | app/intent/engine.py:46-48 | unset variables give thresholds 0.55 and 0.70 with the LLM enabled |
| AppIntentRecognizer.Normalized | app/intent/recognizer.py:7 | the normalised text is trimmed and has no ASCII capitals |
| AppIntentRecognizer.BlankIsUnknown | app/intent/recognizer.py:7-9 | a missing, empty or all-whitespace text is unknown |
| AppIntentRecognizer.Precedence | app/intent/recognizer.py:12-23 | explicit commands come first, then add-service phrases (which contain a space), then single words browse themselves |
| AppIntentRecognizer.CategoryOrigin | app/intent/recognizer.py:22-31 | a browsed category is the text itself when it has no space or slash, else food, transport or tech whose words it holds |
| AppIntentRecognizer.SlashTech | app/intent/recognizer.py:12-31 | "/tech" is not a command and holds a slash, so it is routed by keyword to tech |
| SessionStore.SessionOf | app/core/session_store.py:26-30 | an absent chat has the empty session |
| SessionStore.Store.GetSession | app/core/session_store.py:26-30 | returns the chat's session, or {} |
| SessionStore.Store.UpdateSession | app/core/session_store.py:32-40 | the new store is the old one with the chat's session merged with the data |
| SessionStore.Store.ClearSessionState | app/core/session_store.py:42-52 | the new store is the old one with the chat's state cleared except for a truthy active agent |
| SessionStore.Store.SetActive | app/core/session_store.py:54-56 | the new store merges `{"active_agent": id}` into the chat's session |
| SessionStore.Store.GetActive | app/core/session_store.py:58-60 | returns the chat's active agent, or None |
| SessionStore.Store.ClearActive | app/core/session_store.py:62-68 | the new store drops only the chat's active agent |
| SessionStore.MergeOnlyGivenKeys | app/core/session_store.py:32-40 | merging creates the chat entry, overwrites exactly the given keys, keeps the chat's other keys and leaves other chats alone |
| SessionStore.SetThenGetActive | app/core/session_store.py:54-60 | `set_active` then `get_active` gives back the same id |
| SessionStore.AbsentChat | app/core/session_store.py:30-66 | an absent chat has no session and no active agent, and clearing it changes nothing |
| SessionStore.ClearKeepsActiveAgent | app/core/session_store.py:42-52 | clearing keeps at most the active agent (only when truthy), leaves other chats alone, and is idempotent |
| SessionStore.ClearAfterSetActive | app/core/session_store.py:42-56 | after `set_active` with a non-empty id, clearing keeps exactly that agent |
| SessionStore.ClearActiveOnlyActive | app/core/session_store.py:62-68 | `clear_active` removes only the active agent, is a no-op without one, and `get_active` then reads None |
| RouterText.CamelSplit | app/services/router_service.py:26 | a space goes before every ASCII capital that follows a lowercase letter, and no such pair remains |
| RouterText.DashRuns | app/services/router_service.py:27 | no underscore or dash remains after the runs are replaced |
| RouterText.SqueezeSpaces | app/services/router_service.py:28 | every whitespace becomes a single space, never two adjacent, and no dash is introduced |
| RouterText.NormalizedShape | app/services/router_service.py:18-29 | the normalised text has no underscore, dash or ASCII capital, is trimmed, and has single spaces only |
| RouterText.NormalizeNormal | app/services/router_service.py:18-29 | a text already in normal form normalises to itself |
| RouterText.NormalizeIdempotent | app/services/router_service.py:18-29 | normalising twice is normalising once |
| RouterText.NormalizeEmpty | app/services/router_service.py:23-24 | the empty text normalises to "" |
| RouterText.NormalizeCamel | app/services/router_service.py:19-29 | "AddService" becomes "add service" |
| RouterText.NormalizeSeparated | app/services/router_service.py:19-29 | "add_service" and "add-service" become "add service" |
| RouterText.CamelJoin | app/services/router_service.py:26 | two words joined at a lowercase-then-capital point are split there by one space |
| RouterText.CamelPlain | app/services/router_service.py:26 | text without capitals is not split |
| RouterText.DashPlain | app/services/router_service.py:27 | text without underscores or dashes is left alone |
| RouterService.IndexIn | app/services/router_service.py:82-115 | the first position of a value in a list |
| RouterService.StateIndex | app/services/router_service.py:82-115 | which of the seven wizard states a session names, if any |
| RouterService.Handle | app/services/router_service.py:62-167 | every reply names the agent it answers for (the argument, or the default); a reply that is not handled leaves the session alone and is in "llm" mode; the handler raises only when the stored state is a truthy non-string, or a wizard step finds a stored form that is not a dictionary |
| RouterService.DelegationAlwaysFails | app/services/router_service.py:157-163 | as written, any text outside the wizard that is not a start command or add request gets "[router_service error] Cannot run the event loop while another loop is running", because the coroutine starts a second event loop inside its own running one |
| RouterService.HandleAgentMessage | app/services/router_service.py:62-167 | the handler replies and updates the session store exactly as the wizard specification says |
| RouterService.AnswerOn | app/services/router_service.py:66-167 | the body after normalising replies and updates the store as specified |
| RouterService.WizardStepOn | app/services/router_service.py:82-138 | one wizard step fills the form and updates or clears the session as specified |
| RouterService.FieldStepOn | app/services/router_service.py:82-113 | one of the first six steps, as specified |
| RouterService.PriceStepOn | app/services/router_service.py:115-138 | the price step, as specified |
| RouterService.StateIndexOf | app/services/router_service.py:82-115 | the seven wizard states are distinct, each naming its own step |
| RouterService.CancelClears | app/services/router_service.py:73-79 | in any wizard state, "cancel" or "/cancel" clears the state |
| RouterService.WizardAdvances | app/services/router_service.py:82-113 | each of the first six steps stores its field and moves to the next state; the first starts a fresh form with the business name |
| RouterService.WizardNeedsForm | app/services/router_service.py:70-113 | a stored form that is not a dictionary makes every later field step raise |
| RouterService.PricingChoice | app/services/router_service.py:102-108 | "flat" stores flat, "time based" stores time_based, anything else keeps the state and asks again |
| RouterService.TimeBasedUnreachable | app/services/router_service.py:27-104 | "time-based" is listed but never reaches the step: normalising turns its dash into a space |
| RouterService.CurrencyStored | app/services/router_service.py:110-113 | the currency is stored stripped and in capitals |
| RouterService.PriceOutcomes | app/services/router_service.py:115-138 | a non-number keeps the state and asks again; otherwise the state is cleared and the reply is the error, the text result, or "Service created." |
| RouterService.PriceIgnoresCommas | app/services/router_service.py:116-118 | commas are removed before the price is read ("1,500" reads as 1500) |
| RouterService.StartOrDelegate | app/services/router_service.py:142-167 | without a state, a start command or add request opens the wizard; anything else goes to the service agent and leaves the session alone |
| RouterService.AddServiceRequested | app/services/router_service.py:150-152 | "add service" is an add request |
| RouterService.GluedRequested | app/services/router_service.py:151-152 | "addservice" is an add request through the glued pattern |
| InfoOnlyAgent.PageOf | app/agents/info_only_agent.py:17-19 | a chat without an entry reads as ("", 0) |
| InfoOnlyAgent.CardMessages | app/agents/info_only_agent.py:93-100 | at most one card per item of the page, stopping at the first card that raises |
| InfoOnlyAgent.CallbackCategory | app/agents/info_only_agent.py:71-72 | the category taken from a `CAT:` callback holds no ':' |
| InfoOnlyAgent.CardMessagesAllRender | app/agents/info_only_agent.py:93-100 | when every item renders, each gets its card in order and nothing is raised |
| InfoOnlyAgent.FirstFailure | app/agents/info_only_agent.py:93-100 | the first item whose card raises: the earlier cards are sent, its exception propagates, the later items are not sent |
| InfoOnlyAgent.ErrorSticks | app/agents/info_only_agent.py:93-100 | once an item fails, later items change nothing |
| InfoOnlyAgent.CardStep | app/agents/info_only_agent.py:93-100 | one more item appends its card, or records its exception |
| InfoOnlyAgent.ItemPageShape | app/agents/info_only_agent.py:90-109 | a page sends the cards of items[offset:offset+5] in order, then "Show more?" and the next offset exactly when items remain; it is always handled |
| InfoOnlyAgent.ItemPagesCover | app/agents/info_only_agent.py:12-92 | paging through a category loses and repeats nothing: the first k pages are the first 5k items |
| InfoOnlyAgent.SelectionResets | app/agents/info_only_agent.py:45-78 | opening a category sends its first page and stores (category, 5) when more items follow, (category, 0) otherwise; other chats keep theirs |
| InfoOnlyAgent.MoreContinues | app/agents/info_only_agent.py:81-103 | "ITEMS:MORE" sends the next page of the stored category and advances the offset when items remain, otherwise resends from the same offset |
| InfoOnlyAgent.CallbackOutcomes | app/agents/info_only_agent.py:59-88 | a callback is unhandled exactly when it is none of the three kinds, and then nothing is sent or stored |
| InfoOnlyAgent.MoreWithoutCategory | app/agents/info_only_agent.py:82-84 | "ITEMS:MORE" with no stored category answers "Nothing available right now." and changes nothing |
| InfoOnlyAgent.PageHandled | app/agents/info_only_agent.py:90-109 | sending a page of items always counts as handled |
| InfoOnlyAgent.MoreCallback | app/agents/info_only_agent.py:81-86 | "ITEMS:MORE" takes the third branch |
| InfoOnlyAgent.CategoryCallbackRoundTrip | app/agents/info_only_agent.py:70-72 | the category read back from a category button's data is the category exactly when it holds no ':' |
| InfoOnlyAgent.NavCallbackRoundTrip | app/agents/info_only_agent.py:61-67 | a navigation button's data `CATNAV:<kind>:<n>` sends the categories keyboard for page n |
| InfoOnlyAgent.NavDataParts | app/agents/info_only_agent.py:62 | the navigation data splits into exactly three parts |
| InfoOnlyAgent.Agent.constructor | app/agents/info_only_agent.py:11 | the pagination starts empty |
| InfoOnlyAgent.Agent.SetPage | app/agents/info_only_agent.py:14-15 | only this chat's entry is overwritten |
| InfoOnlyAgent.Agent.GetPage | app/agents/info_only_agent.py:17-19 | returns the stored entry, or ("", 0) |
| InfoOnlyAgent.Agent.SendMessage | app/agents/info_only_agent.py:21-24 | one message is appended to the outbox |
| InfoOnlyAgent.Agent.SendCards | app/agents/info_only_agent.py:93-100 | the outbox grows by the page's cards, up to the first card that raises, which is returned |
| InfoOnlyAgent.Agent.SendItemsPage | app/agents/info_only_agent.py:90-109 | the new pagination, the messages sent and the reply are those of the page specification |
| InfoOnlyAgent.Agent.ShowFirstPage | app/agents/info_only_agent.py:48-49 | stores (category, 0), then sends the first page |
| InfoOnlyAgent.Agent.ShowCategories | app/agents/info_only_agent.py:35-41 | "Nothing available right now." without categories, else the keyboard for page 0 |
| InfoOnlyAgent.Agent.HandleMessage | app/agents/info_only_agent.py:26-57 | the state and messages after `handle_message` are those of its specification |
| InfoOnlyAgent.Agent.Respond | app/agents/info_only_agent.py:29-57 | the branches on the recognised intent, as specified |
| InfoOnlyAgent.Agent.HandleCallback | app/agents/info_only_agent.py:59-88 | the state and messages after `handle_callback` are those of its specification |
| InfoOnlyAgent.Agent.HandleNav | app/agents/info_only_agent.py:61-67 | the navigation branch, as specified |
| InfoOnlyAgent.Agent.HandleSelect | app/agents/info_only_agent.py:70-78 | the category branch, as specified |
| InfoOnlyAgent.Agent.HandleMore | app/agents/info_only_agent.py:81-86 | the "Show more" branch, as specified |
| TelegramUi.Paginate | app/telegram/ui.py:5-10 | at most 6 categories, exactly categories[6p:6p+6], and more follow exactly when 6p+6 < len |
| TelegramUi.Visible | app/telegram/ui.py:22-27 | exactly the shown categories that are not "add service" or "cancel service", in order |
| TelegramUi.BuildCategoriesKeyboard | app/telegram/ui.py:12-38 | the keyboard is the one specified by the page, the filter and the navigation row |
| TelegramUi.FilterHidden | app/telegram/ui.py:22-27 | the loop leaves exactly the visible categories |
| TelegramUi.NavButtons | app/telegram/ui.py:31-35 | the loop builds the navigation row |
| TelegramUi.PagesCover | app/telegram/ui.py:5-10 | pages 0 to k-1 together are the first 6k categories: nothing lost or repeated |
| TelegramUi.MoreLeadsSomewhere | app/telegram/ui.py:9-35 | "More" never leads to an empty page, and a page without it ends the list |
| TelegramUi.KeyboardShape | app/telegram/ui.py:19-38 | one row per visible category with its `CAT:<name>:PAGE:<n>` data, then a navigation row exactly when there is a Back or More button; at most 7 rows |
| TelegramUi.NavRowShape | app/telegram/ui.py:31-37 | Back exactly after the first page, More exactly when another page follows, nothing else |
| TelegramRender.EscapeChar | app/telegram/render.py:8-9 | the escape of a character holds no markup character, and starts an entity exactly for markup and '&' |
| TelegramRender.HtmlEscape | app/telegram/render.py:8-9 | the escaped text is no shorter and holds no markup character |
| TelegramRender.Escape | app/telegram/render.py:8-9 | None reads as the empty text |
| TelegramRender.UnescapeStep | app/telegram/render.py:8-9 | an escaped character reads back first |
| TelegramRender.EscapeRoundTrip | app/telegram/render.py:8-9 | unescaping the escaped text gives the text back |
| TelegramRender.LinksFrom | app/telegram/render.py:6-14 | each URL found is a link that starts at or after the scan position |
| TelegramRender.ExtractLinks | app/telegram/render.py:11-15 | the text is kept, an empty text has no links, and every link found occurs in it |
| TelegramRender.LinkIsWord | app/telegram/render.py:6 | a link is a non-empty run without whitespace that occurs in the text |
| TelegramRender.LabelIgnoresCase | app/telegram/render.py:17-21 | the label does not depend on the URL's case and is one of the two labels |
| TelegramRender.TextOf | app/telegram/render.py:25-30 | a string is kept, a falsy value becomes "", and a truthy non-string raises where it is escaped |
| TelegramRender.FirstOf | app/telegram/render.py:25-30 | `d.get(a) or d.get(b) or default`: the first truthy of the two, else the default |
| TelegramRender.CardFields | app/telegram/render.py:25-30 | a card that renders has a non-empty title |
| TelegramRender.LinkLines | app/telegram/render.py:47-50 | one link line per URL, in order |
| TelegramRender.LineIf | app/telegram/render.py:36-45 | a line exactly when the text is non-empty |
| TelegramRender.BuildLines | app/telegram/render.py:34-50 | the lines appended one by one are the card's lines |
| TelegramRender.BuildHead | app/telegram/render.py:34-45 | the title, then the optional fields that are present |
| TelegramRender.AppendLinkLines | app/telegram/render.py:47-50 | the loop appends one line per link, in order |
| TelegramRender.RenderServiceCard | app/telegram/render.py:23-52 | the text is the card's lines joined by newlines, or the exception a field raises |
| TelegramRender.CardShape | app/telegram/render.py:34-50 | the bold escaped title first, one line per present field, then one link line per URL of the description, in order |
| TelegramRender.HeadShape | app/telegram/render.py:34-45 | the head is the bold escaped title and one line per present field |
| TelegramRender.TitleChoice | app/telegram/render.py:25 | the title shown is the item's title, else its name, else "Untitled" |
| TelegramRender.StringFieldsRender | app/telegram/render.py:23-52 | an item whose fields are all strings renders |
| BackendApi.Sextet | app/clients/backend_api.py:33-34 | each 6-bit value maps to a character of the URL-safe base64 alphabet |
| BackendApi.SextetValue | app/clients/backend_api.py:33-34 | every alphabet character has a 6-bit value that maps back to it |
| BackendApi.SextetRoundTrip | app/clients/backend_api.py:33-34 | a 6-bit value survives encoding and decoding |
| BackendApi.TrimPadding | app/clients/backend_api.py:34 | `rstrip(b"=")` keeps a prefix of the text, and that prefix does not end with '=' |
| BackendApi.Unpadded | app/clients/backend_api.py:33-34 | the unpadded encoding has only alphabet characters, exactly ceil(4n/3) of them |
| BackendApi.PadCount | app/clients/backend_api.py:34 | the number of '=' that fill the last group: fewer than 3 and completing a multiple of 3 bytes |
| BackendApi.PadCountStep | app/clients/backend_api.py:34 | the padding depends only on the length modulo 3 |
| BackendApi.PaddedIsUnpaddedPlusPad | app/clients/backend_api.py:34 | the padded encoding is the unpadded one followed by its '=' padding |
| BackendApi.PaddedPair | app/clients/backend_api.py:34 | two bytes get one '=' |
| BackendApi.PaddedByte | app/clients/backend_api.py:34 | one byte gets two '=' |
| BackendApi.TrimPads | app/clients/backend_api.py:34 | stripping the '=' padding gives the unpadded text back |
| BackendApi.B64UrlShape | app/clients/backend_api.py:33-34 | `_b64url` writes only URL-safe alphabet characters, no padding, exactly ceil(4n/3) of them |
| BackendApi.GroupRoundTrip | app/clients/backend_api.py:33-34 | three bytes survive being split into four sextets and joined back |
| BackendApi.LastPairDecode | app/clients/backend_api.py:33-34 | a final two-byte group decodes from its three characters |
| BackendApi.LastByteDecode | app/clients/backend_api.py:33-34 | a final byte decodes from its two characters |
| BackendApi.Decode3 | app/clients/backend_api.py:33-34 | four characters decode to their three bytes |
| BackendApi.Decode2 | app/clients/backend_api.py:33-34 | three characters decode to their two bytes |
| BackendApi.Decode1 | app/clients/backend_api.py:33-34 | two characters decode to their byte |
| BackendApi.DecodeAppend | app/clients/backend_api.py:33-34 | decoding works group by group |
| BackendApi.B64UrlRoundTrip | app/clients/backend_api.py:33-34 | decoding `_b64url(data)` gives `data` back: nothing is lost |
| BackendApi.UnpaddedRoundTrip | app/clients/backend_api.py:33-34 | the unpadded encoding decodes back to the data |
| BackendApi.Objects | app/clients/backend_api.py:84-89 | exactly the dictionaries of the list are kept |
| BackendApi.ObjectsAppend | app/clients/backend_api.py:84 | the filter works piece by piece, keeping the order |
| BackendApi.ServicesList | app/clients/backend_api.py:83-90 | a list is found only in a list or a dictionary answer |
| BackendApi.NormalizeServicesPayload | app/clients/backend_api.py:78-90 | no list gives []; otherwise the result is exactly the dictionaries of the list found |
| BackendApi.NormalizeShapes | app/clients/backend_api.py:78-90 | a list, then "results", then "items": the dictionaries of the first list found; an empty "results" list wins over "items" |
| BackendApi.IntKey | app/clients/backend_api.py:99 | an int stands for itself; anything but an int or a bool is not an int |
| BackendApi.CleanName | app/clients/backend_api.py:102-104 | the name is None or truthy; a string name is non-empty and stripped |
| BackendApi.ExtractCategoryName | app/clients/backend_api.py:92-104 | the name is None or a non-empty stripped string or other truthy value; the id is None or an int |
| BackendApi.CategoryNameSources | app/clients/backend_api.py:96-100 | the name comes from "category", else "type", else "category_name", else the map entry of an integer id |
| BackendApi.CategoryEntry | app/clients/backend_api.py:116-122 | a category entry kept has a non-empty stripped name |
| BackendApi.CategoryEntries | app/clients/backend_api.py:116-122 | the entries of all items, in order |
| BackendApi.EntryMapEntries | app/clients/backend_api.py:115-123 | every id in the map comes with a name an entry gave it, and every id an entry gives is in the map |
| BackendApi.CategoryMapEntries | app/clients/backend_api.py:107-125 | the category map holds exactly the ids of the valid entries, each with a non-empty stripped name |
| BackendApi.LastEntryWins | app/clients/backend_api.py:122 | a later entry for the same id overwrites the earlier one |
| BackendApi.CategoriesMap | app/clients/backend_api.py:107-125 | the loop builds the category map of the answer |
| BackendApi.NamesOf | app/clients/backend_api.py:232-233 | the category names of the services, in order |
| BackendApi.AnyBadSnoc | app/clients/backend_api.py:234 | a name that cannot be lowered is found in the prefix or the last element |
| BackendApi.FilterRaises | app/clients/backend_api.py:231-235 | the filter raises exactly when some name is truthy but not a string |
| BackendApi.FilterKeeps | app/clients/backend_api.py:231-235 | otherwise a service is kept exactly when its name matches the key, both trimmed and lowered |
| BackendApi.ListByCategorySound | app/clients/backend_api.py:213-241 | an empty key or a failed fetch lists nothing, and every service listed was fetched and matches the key |
| BackendApi.ListByCategoryComplete | app/clients/backend_api.py:213-241 | every matching service is listed, unless some name raises, which lists nothing |
| BackendApi.ListByCategory | app/clients/backend_api.py:213-241 | a non-empty list needs a key and a fetched answer, and is no longer than the services fetched |
| BackendApi.ListServicesByCategory | app/clients/backend_api.py:213-241 | the method returns the listing specification |
| BackendApi.FilterServices | app/clients/backend_api.py:231-235 | the loop computes the filter, ending at the first exception |
| BackendApi.NoRecovery | app/clients/backend_api.py:231-235 | once the filter raised on a prefix it raises on every longer list |
| PyOrder.TruthySetMeaning | app/clients/backend_api.py:253-257 | building the set of the truthy names raises exactly when one of them is a list or a dictionary; otherwise the set has no two equal values, each is a truthy string or number that is the first of its value among the names, and every truthy name has an equal one in it |
| PyOrder.SortedTruthyMeaning | app/clients/backend_api.py:253-258 | `sorted` of that set raises exactly when a truthy name is unhashable or the names mix strings and numbers; otherwise it is strictly ascending by Python's `<` (code points for strings, value for numbers), with each value the first truthy name equal to it and every truthy name covered |
| PyOrder.SortedTruthyRaises | app/clients/backend_api.py:253-258 | the only error it raises is TypeError |
| PyOrder.SortedTruthyOrderFree | app/clients/backend_api.py:253-258 | two lists of names with the same values, in any order and repeated any number of times, raise alike, and otherwise give sorted lists that are equal under Python's list `==` |
| PyOrder.SortedEquivalent | app/clients/backend_api.py:258 | two strictly ascending lists whose values match under `==` are equal as Python lists, position by position |
| BackendApi.NonEmptyCategoriesMeaning | app/clients/backend_api.py:244-258 | a failed fetch or no services gives []; otherwise it raises TypeError exactly when a truthy category name is a list or a dictionary or the names mix strings and numbers, and else gives the strictly ascending distinct truthy names, each taken from a service, covering every service's truthy name |
| BackendApi.NonEmptyCategories | app/clients/backend_api.py:244-258 | the method returns what `NonEmptyCategoriesOf` specifies |
| BackendApi.CollectNames | app/clients/backend_api.py:253-258 | the loop that adds each truthy name not yet equalled to the set, raising TypeError on a list or a dictionary, followed by `sorted`, gives `SortedTruthy` of the names |
| PyOrder.TruthySetStuck | app/clients/backend_api.py:253-257 | once building the set raised on a prefix it raises on every longer list |
| BackendApi.DropNone | app/clients/backend_api.py:205 | exactly the keys whose value is not None are kept, with their values |
| BackendApi.CategoryLookupIgnoresCase | app/clients/backend_api.py:185 | the category lookup ignores case |
| BackendApi.CategoryTable | app/clients/backend_api.py:22-30 | the table holds lowercase names with ids 1 to 7 |
| BackendApi.CreateServiceOutcome | app/clients/backend_api.py:185-206 | an unknown category is refused with "Category '<name>' not found."; a known one posts the payload with its id and without None values |
| BackendApi.CreateService | app/clients/backend_api.py:167-206 | only a truthy category that is not a string raises; a request goes to "/api/services/" with known fields only and none of them None |
| BackendApi.CreateBooking | app/clients/backend_api.py:155-165 | posts to /api/bookings/ the three fields, and the duration exactly when it is truthy |
| CatalogClient.Strict | app/clients/catalog_api.py:8 | strict unless CATALOG_STRICT is "0"; strict when unset |
| CatalogClient.NormCategoryKey | app/clients/catalog_api.py:10-13 | a dictionary gives its key, else name, else ""; anything else its stripped text, "" when falsy |
| CatalogClient.NormCategoryKeyIdempotent | app/clients/catalog_api.py:10-13 | normalising a non-dictionary twice changes nothing more |
| CatalogClient.KeysOf | app/clients/catalog_api.py:22 | the keys of the hook's categories, in order |
| CatalogClient.NonEmptyCategoriesWithHook | app/clients/catalog_api.py:19-23 | with the hook: raises TypeError exactly when a truthy key is a list or a dictionary or the truthy keys mix strings and numbers; otherwise the strictly ascending truthy keys, each the key of a category no earlier category's key equals, covering every truthy key |
| CatalogClient.NonEmptyCategoriesOrderFree | app/clients/catalog_api.py:22 | the same categories in another order or repeated raise alike and otherwise give lists equal under Python's `==` |
| CatalogClient.NonEmptyCategoriesWithoutHook | app/clients/catalog_api.py:25-29 | without the hook strict mode raises, and development mode serves ["food", "transport"] |
| CatalogClient.DevJson | app/clients/catalog_api.py:40-52 | a development service is a dictionary with its name and description, and a price hint or promo code exactly when it has one |
| CatalogClient.DevList | app/clients/catalog_api.py:40-52 | the development list, one dictionary per service, in order |
| CatalogClient.ListServicesOutcomes | app/clients/catalog_api.py:32-53 | the hook's answer passes through; without it strict mode raises, and development mode serves six food, two transport, or no services |
| CatalogClient.DevServicesShape | app/clients/catalog_api.py:39-52 | every development service has a string name and description, and only the first food entry has a promo code |
| CatalogClient.DevCatalogueConsistent | app/clients/catalog_api.py:29-53 | in development mode a category is offered exactly when it has services |
| CatalogRoutes.EntryOf | app/routes/catalog_api.py:19-26 | the entry keeps the agent's id, name, emoji and visibility, with its description as the blurb and no languages |
| CatalogRoutes.CatalogLimit | app/routes/catalog_api.py:27 | the limit clamped to 1..200 |
| CatalogRoutes.Catalog | app/routes/catalog_api.py:14-26 | no more entries than agents |
| CatalogRoutes.CatalogSound | app/routes/catalog_api.py:14-26 | every entry is that of a public or unlisted agent whose name contains the query |
| CatalogRoutes.CatalogComplete | app/routes/catalog_api.py:14-26 | every shown agent has its entry |
| CatalogRoutes.PublicAgentsMeaning | app/routes/catalog_api.py:11-29 | at most the clamped limit of entries, each of a shown agent; when fewer are shown than the limit, all of them |
| CatalogRoutes.EmptyQueryShowsAll | app/routes/catalog_api.py:17 | an empty query is no query, and then every public or unlisted agent is shown |
| CatalogRoutes.CatalogSameShown | app/routes/catalog_api.py:15-18 | the catalogue depends only on which agents are shown |
| CatalogRoutes.CatalogAppend | app/routes/catalog_api.py:14-26 | the catalogue is built row by row |
| CatalogRoutes.CatalogFull | app/routes/catalog_api.py:27-28 | once the limit is reached, later agents do not change the answer |
| CatalogRoutes.CatalogStep | app/routes/catalog_api.py:14-26 | a shown agent adds its entry, any other nothing |
| CatalogRoutes.PublicAgentsFrom | app/routes/catalog_api.py:13-29 | the loop computes the clamped catalogue |
| CatalogRoutes.PublicAgents | app/routes/catalog_api.py:11-29 | the route lists the catalogue of the non-archived agents |
| CatalogRoutes.PublicAgentsNotArchived | app/routes/catalog_api.py:12 | no archived agent reaches the public catalogue |
| AgentManager.MemorySchema | app/core/agent_manager.py:38-46 | a memory converts exactly when its scope is one of the two literals, keeping its id, content and scope |
| AgentManager.KeepAvailable | app/core/agent_manager.py:64 | exactly the tools that are registered, in order |
| AgentManager.ValidateTools | app/core/agent_manager.py:48-64 | no tools give []; with no registry the tools pass unchanged; otherwise exactly the registered ones are kept, in order |
| AgentManager.KeepAllAvailable | app/core/agent_manager.py:64 | a tool list that is all registered passes unchanged |
| AgentManager.SomesMeaning | app/core/agent_manager.py:73-76 | a value is kept exactly when some entry holds it |
| AgentManager.ListEntry | app/core/agent_manager.py:70-76 | a row contributes only when it is shown and validates, and then its schema |
| AgentManager.ListEntries | app/core/agent_manager.py:70-76 | the contributions of all rows, in order |
| AgentManager.ListedMeaning | app/core/agent_manager.py:66-77 | an agent is listed exactly when some shown row validates to it |
| AgentManager.ListedNotArchived | app/core/agent_manager.py:71-72 | without `include_archived` no archived agent is listed |
| AgentManager.IndexOf | app/core/agent_manager.py:81-138 | the index of the row with the id, None exactly when there is none |
| AgentManager.ArchivedNameSlipsThrough | app/core/agent_manager.py:86-88 | the name check as written lets a request reuse an archived agent's name, which the unique name column then refuses |
| AgentManager.NewRowSchema | app/core/agent_manager.py:89-105 | a new agent is active, created and updated at the same moment, with the request's name and visibility and its tools filtered |
| AgentManager.EmptyUpdateTouchesOnlyTime | app/core/agent_manager.py:112-118 | the empty update changes nothing but the update time |
| AgentManager.BrainLimit | app/core/agent_manager.py:175 | the limit clamped to 1..500 |
| AgentManager.BrainRows | app/core/agent_manager.py:164-173 | no more memories than rows |
| AgentManager.Records | app/core/agent_manager.py:174 | a successful conversion gives one record per memory |
| AgentManager.BrainRowsMembers | app/core/agent_manager.py:164-173 | every selected memory is one of the rows and matches the filters |
| AgentManager.ReadBrainBounds | app/core/agent_manager.py:161-177 | at most the clamped limit of records, each of a matching memory |
| AgentManager.BrainRowsAppend | app/core/agent_manager.py:169-173 | filtering goes row by row |
| AgentManager.RecordsOfPrefix | app/core/agent_manager.py:174 | conversion goes row by row |
| AgentManager.GuardsFirst | app/core/agent_manager.py:179-184 | a missing agent gives "agent_not_found", a tool it does not allow gives "tool_not_allowed", and only an allowed tool reaches the runner |
| AgentManager.AgentStore.constructor | app/models_agents.py:11 | the tables start empty and valid |
| AgentManager.AgentStore.ListAgents | app/core/agent_manager.py:66-77 | the loop returns the listing specification |
| AgentManager.AgentStore.GetAgent | app/core/agent_manager.py:79-82 | the agent of the row with the id, or None |
| AgentManager.AgentStore.CreateAgent | app/core/agent_manager.py:84-105 | a name held by any agent is refused with the ValueError and nothing changes; otherwise one active row is added, keeping names unique |
| AgentManager.AgentStore.UpdateAgent | app/core/agent_manager.py:107-124 | a missing id gives None; otherwise exactly the given fields and the update time change, and a name held elsewhere is refused |
| AgentManager.AgentStore.ArchiveAgent | app/core/agent_manager.py:126-134 | False for a missing id; otherwise only that row becomes archived with a fresh update time, and True is returned |
| AgentManager.AgentStore.Teach | app/core/agent_manager.py:136-159 | an unknown agent raises; otherwise one memory with the request's scope, user, tags (default []) and content is appended and returned |
| AgentManager.AgentStore.LogMessage | app/core/agent_manager.py:196-197 | a content of 1..8192 characters is taught with the shared scope and the one tag; any other fails validation and stores nothing |
| AgentManager.AgentStore.ExecTool | app/core/agent_manager.py:179-194 | the agent lookup, then the guards, then the runner |
| AgentManager.AgentStore.ReadBrain | app/core/agent_manager.py:161-177 | the loop returns the specification, stopping at the clamped limit |
| AgentManager.BrainSkip | app/core/agent_manager.py:170-173 | a memory that does not match leaves the records as they were |
| AgentManager.BrainAdd | app/core/agent_manager.py:174 | a matching memory that converts adds its record |
| AgentManager.BrainFail | app/core/agent_manager.py:174 | a matching memory that fails to convert ends `read_brain` with the error |
| AgentManager.BrainFull | app/core/agent_manager.py:175-176 | records that reach the limit are the answer |
| AgentManager.BrainDone | app/core/agent_manager.py:169-177 | the loop ran through every row below the limit |
| AgentManager.BrainRowsSnoc | app/core/agent_manager.py:169-173 | one more row adds itself exactly when it matches |
| AgentManager.RecordsSnoc | app/core/agent_manager.py:174 | one more memory adds its record or raises |
| AgentManager.BrainStops | app/core/agent_manager.py:175-176 | after the limit or an error, the remaining rows make no difference |
| AgentManager.RaisesExtends | app/core/agent_manager.py:174 | a conversion that raised on a prefix raises on any longer selection |
| AgentManager.RaisesPrefix | app/core/agent_manager.py:174 | a conversion that raised on a prefix raises on the whole list |
| AgentModels.ParseVisibility | app/agent_models.py:6 | a visibility is accepted only in its own spelling |
| AgentModels.ParseStatus | app/agent_models.py:7 | a status is accepted only in its own spelling |
| AgentModels.ParseScope | app/agent_models.py:8 | a scope is accepted only in its own spelling |
| AgentModels.LiteralsRoundTrip | app/agent_models.py:6-8 | each literal is accepted in its own spelling |
| AgentModels.ValidateCreate | app/agent_models.py:10-19 | a request validates exactly when its name has 2..64 characters and its visibility is a literal; visibility defaults to private, teachable to true, tools to [] |
| AgentModels.ValidateUpdate | app/agent_models.py:21-28 | only the given fields are checked, by the same rules |
| AgentModels.EmptyUpdateValid | app/agent_models.py:21-28 | the empty update is valid |
| AgentModels.ValidateTeach | app/agent_models.py:36-40 | a teach request validates exactly when its content has 1..8192 characters and its scope is a literal; scope defaults to shared |
| AgentModels.ToAgent | app/agent_models.py:30-34 | a stored row converts exactly when its name, visibility and status pass the checks; tools default to [] |
| AdminGuard.Stars | app/admin_guard.py:9-10 | `"*" * n`: exactly n stars |
| AdminGuard.Mask | app/admin_guard.py:5-10 | no token gives ""; otherwise the same length, all stars up to 4 characters, else the first and last two kept and stars between |
| AdminGuard.BearerSpaceAt6 | app/admin_guard.py:19-23 | a header whose lowercase form starts with "bearer " has its first space at index 6 |
| AdminGuard.BearerToken | app/admin_guard.py:19-23 | a token is taken exactly when the header starts with "bearer " in any case, and it is the stripped text after the first space |
| AdminGuard.AdminOutcomes | app/admin_guard.py:12-26 | no configured token gives 500; a missing or non-bearer header 403 "Bearer required"; access exactly when the stripped token equals the configured one, else 403 "invalid token" |
| AdminGuard.BearerRoundTrip | app/admin_guard.py:19-23 | any spelling of "bearer " followed by a token gives the stripped token |
| AdminGuard.AdminAcceptsOwnToken | app/admin_guard.py:12-26 | "Bearer <ADMIN_TOKEN>" is accepted whenever a token is configured |
| AdminGuard.RequireAdmin | app/admin_guard.py:12-26 | access exactly when a token is configured and the bearer token equals it; every refusal is 403 or 500, and 500 exactly when no token is configured |
| SecurityLegacy.Allowed | app/security_legacy.py:17 | exactly the non-empty secrets, none empty |
| SecurityLegacy.Present | app/security_legacy.py:22-25 | a header is presented exactly when it is non-empty |
| SecurityLegacy.Listed | app/security_legacy.py:26-27 | a bearer token is presented whenever there is one, even empty |
| SecurityLegacy.PresentedMembers | app/security_legacy.py:21-27 | the values presented are exactly the non-empty X-Router-Secret, the non-empty X-API-Key and the bearer token, at most three |
| SecurityLegacy.RequireRouterSecret | app/security_legacy.py:6-32 | access exactly when no secret is configured or some presented value is one of them; otherwise 401 "Unauthorized" |
| SecurityLegacy.CheckPresented | app/security_legacy.py:21-32 | access exactly when some presented value is allowed, else 401 |
| SecurityLegacy.AnyIn | app/security_legacy.py:29 | true exactly when some presented value is allowed |
| SecurityLegacy.LegacyAccessIff | app/security_legacy.py:21-30 | with secrets configured, access exactly when one of the three headers carries one of them |
| SecurityLegacy.NoSecretsConfigured | app/security_legacy.py:17-19 | no secret counts exactly when all three variables are unset or empty |
| RouterSecret.RouterSecretOutcomes | app/security/__init__.py:4-13 | no stripped secret gives 500; otherwise access exactly when the header equals it, else 403 "Forbidden" |
| RouterSecret.HeaderNotStripped | app/security/__init__.py:8-11 | the secret is stripped but the header is not: a header with a leading space is refused |
| RouterSecret.RequireRouterSecret | app/security/__init__.py:4-13 | access exactly when the stripped secret is set and the header equals it; every refusal is 403 or 500, and 500 exactly when no secret is set |
| BranchPusher.ValidateEnv | app/integrator/branch_pusher.py:12-22 | the configuration exactly when the token and the repository are non-empty, else the RuntimeError; the API has no trailing "/" and the main branch defaults to "main" |
| BranchPusher.ValidateBranchName | app/integrator/branch_pusher.py:24-27 | accepts exactly the names that are non-empty, hold no ".." or "//" and neither start nor end with "/"; otherwise BranchCreateError naming the branch |
| BranchPusher.TailAccepted | app/integrator/branch_pusher.py:26 | what follows the first "/" of an accepted name is accepted too |
| BranchPusher.BranchNameSegments | app/integrator/branch_pusher.py:24-27 | an accepted name is a "/"-separated path of non-empty segments, none of them "..", so it cannot climb out of `refs/heads/` |
| BranchPusher.BranchNameExamples | tests/test_branch_pusher.py:10-13 | "feature/x" is accepted and "bad..name" refused |
| BranchPusher.LeadingSlashes | app/integrator/branch_pusher.py:32 | POSIX `normpath` keeps at most two leading slashes, and some exactly when the path is absolute |
| BranchPusher.NormalizePathAsWritten | app/integrator/branch_pusher.py:29-36 | the function as written: a rejection carries the path; backslash climbs pass (see `BackslashClimbAccepted`) |
| BranchPusher.NormalizePath | app/integrator/branch_pusher.py:29-36 | backslashes are turned into "/" before normalising; a rejection carries the path |
| BranchPusher.NormalizePathSafe | app/integrator/branch_pusher.py:29-36 | an accepted path is "." or a relative path of segments none of which is empty, "." or "..": it cannot leave the repository root |
| BranchPusher.NormalizePathExamples | tests/test_branch_pusher.py:15-18 | "a//b/../c.txt" becomes "a/c.txt" and "../evil" is rejected |
| BranchPusher.NormPath | app/integrator/branch_pusher.py:32 | `os.path.normpath` never gives an empty path, and the result is absolute exactly when the input is |
| BranchPusher.BackslashClimbAccepted | app/integrator/branch_pusher.py:32-35 | as written, "a\\..\\..\\evil" passes as "a/../../evil", which climbs to "../evil"; with the steps swapped it is rejected |
| BranchPusher.AsWrittenKeepsClimb | app/integrator/branch_pusher.py:32-36 | the climbing path is accepted as written |
| BranchPusher.CorrectedRejectsClimb | app/integrator/branch_pusher.py:32-35 | the climbing path is rejected once backslashes are turned first |
| BranchPusher.Utf8 | app/integrator/branch_pusher.py:40 | one to four bytes per character, one exactly for ASCII, which is its own byte |
| BranchPusher.HexDigit | app/integrator/branch_pusher.py:40 | a digit or an upper-case letter A-F |
| BranchPusher.Escape | app/integrator/branch_pusher.py:40 | three characters starting with "%" |
| BranchPusher.Escapes | app/integrator/branch_pusher.py:40 | three characters per byte |
| BranchPusher.QuoteChars | app/integrator/branch_pusher.py:40 | `quote` writes only unreserved characters and "%", so no "/" |
| BranchPusher.QuoteRoundTrip | app/integrator/branch_pusher.py:40 | decoding what `quote` wrote gives back the UTF-8 bytes of the text |
| BranchPusher.QuoteAll | app/integrator/branch_pusher.py:40 | `quote` applied to every segment, in order |
| BranchPusher.EncodeContentsPathSegments | app/integrator/branch_pusher.py:38-40 | the encoding has the same segments, each quoted, and each decodes to the original segment's bytes |
| BranchPusher.EncodeContentsPathSpace | tests/test_branch_pusher.py:19-20 | a space anywhere in the path shows up as "%20" |
| BranchPusher.CleanChars | app/integrator/branch_pusher.py:46 | one character per character: newlines and printable ASCII kept, any other a space |
| BranchPusher.RStrip | app/integrator/branch_pusher.py:50-52 | a prefix without trailing whitespace, having dropped only whitespace |
| BranchPusher.StripEach | app/integrator/branch_pusher.py:50 | each line stripped, in order |
| BranchPusher.CollapseLines | app/integrator/branch_pusher.py:49-50 | the collapsed text is at most 403 characters |
| BranchPusher.CapLength | app/integrator/branch_pusher.py:51-52 | at most 257 characters; a text of at most 256 is kept; a longer one ends with "…"; no new character but "…" |
| BranchPusher.CleanedMessageChars | app/integrator/branch_pusher.py:46-47 | after the first pass only newlines and printable ASCII remain |
| BranchPusher.SanitizeCommitMessageShape | app/integrator/branch_pusher.py:42-53 | the message is 1 to 257 characters, has no newline, and holds only printable ASCII, "·" and "…"; a non-string gives the default |
| BranchPusher.SanitizeCommitMessage | app/integrator/branch_pusher.py:42-53 | the message is 1 to 257 characters; a message that is not a string gives the default |
| BranchPusher.CollapsedChars | app/integrator/branch_pusher.py:48-50 | after the collapse no newline is left |
| BranchPusher.SanitizeCommitMessageKeepsClean | app/integrator/branch_pusher.py:42-53 | a printable one-line message of at most 256 characters without surrounding spaces is kept |
| BranchPusher.SanitizeCommitMessageTwoLines | app/integrator/branch_pusher.py:42-53 | two clean lines become "a · b" |
| BranchPusher.CollapseTwoLines | app/integrator/branch_pusher.py:49-50 | two clean lines of at most 200 characters are joined with " · " |
| BranchPusher.Doubled | app/integrator/branch_pusher.py:65-79 | the k-th wait is the start doubled k times |
| BranchPusher.NetworkErrorText | app/integrator/branch_pusher.py:81 | the network error is a PushError |
| BranchPusher.RequestWithRetries | app/integrator/branch_pusher.py:55-81 | at most max_retries+1 requests with a doubling wait between them; the answer is the first final one, a 5xx only on the last attempt; otherwise the last network error is raised as a PushError |
| BranchPusher.CreateBranchMeaning | app/integrator/branch_pusher.py:83-107 | True exactly for a valid name, a found main branch and a 201; False exactly for a 422 "Reference already exists"; every other answer a BranchCreateError, unless a request failed for good |
| BranchPusher.CreateBranch | app/integrator/branch_pusher.py:83-107 | an answer needs a valid name, a found main branch and a completed POST, and is True exactly on a 201 |
| BranchPusher.PutErrorText | app/integrator/branch_pusher.py:142 | the write error is a PushError |
| BranchPusher.PutFileStep | app/integrator/branch_pusher.py:109-143 | skipped exactly when the branch already holds the same content; written only on a 200 or 201, which stores the content; any other answer a PushError that changes nothing |
| BranchPusher.Existing | app/integrator/branch_pusher.py:123-126 | a file is found exactly when the GET was served and the branch has the path |
| BranchPusher.ShaSent | app/integrator/branch_pusher.py:129-138 | the existing file's sha is sent exactly when it is non-empty |
| BranchPusher.PushFrom | app/integrator/branch_pusher.py:155-167 | a failed push stays failed; a successful run counts one write or skip per item |
| BranchPusher.PushItemCases | app/integrator/branch_pusher.py:156-167 | a rejected path raises its error; a put that raises ends the push; otherwise it is counted as written or skipped |
| BranchPusher.PushItemHolds | app/integrator/branch_pusher.py:157-162 | an item that succeeds leaves its content at its path |
| BranchPusher.PushItemKeeps | app/integrator/branch_pusher.py:157-162 | an item changes no other path |
| BranchPusher.PushFromErrors | app/integrator/branch_pusher.py:163-167 | every error of the loop is a PushError |
| BranchPusher.PushedSucceeds | app/integrator/branch_pusher.py:145-169 | a successful push counts every file as written or skipped, every path was accepted, and each file holds its content unless a later item has the same path |
| BranchPusher.Pushed | app/integrator/branch_pusher.py:145-169 | a push that ends without an error counts every item as written or skipped |
| BranchPusher.PushedFails | app/integrator/branch_pusher.py:163-167 | a push that fails raises a PushError |
| BranchPusher.PushedKeepsOthers | app/integrator/branch_pusher.py:145-169 | a push leaves every path no item normalises to as it was |
| BranchPusher.RemoteBranch.PutFile | app/integrator/branch_pusher.py:109-143 | the branch's files after `put_file` are those of its specification |
| BranchPusher.RemoteBranch.PushItemAt | app/integrator/branch_pusher.py:156-167 | one turn of the loop, as specified |
| BranchPusher.RemoteBranch.PushFiles | app/integrator/branch_pusher.py:145-169 | an invalid branch raises and changes nothing; otherwise the files and the answer are those of the push specification, with paths normalised by the corrected `NormalizePath` |
| StageA.KeepSlugChars | app/routes/integrations_stage_a.py:13-19 | only the characters of `[a-z0-9-]` are kept, and a text made of them is kept whole |
| StageA.Slugify | app/routes/integrations_stage_a.py:16-20 | the slug is 1 to 48 characters of `[a-z0-9-]` |
| StageA.SlugOrPatch | app/routes/integrations_stage_a.py:20 | the first 48 characters, or "patch" when empty; a slug of 1 to 48 characters is kept |
| StageA.SlugifyKeepsSlug | app/routes/integrations_stage_a.py:16-20 | a text that is already a slug is its own slug |
| StageA.SlugifyIdempotent | app/routes/integrations_stage_a.py:16-20 | making a slug of a slug changes nothing |
| StageA.SlugifyJoinsWords | app/routes/integrations_stage_a.py:17-19 | two slug words separated by any run of whitespace become the two words joined by one "-" |
| StageA.JoinedSlug | app/routes/integrations_stage_a.py:18 | two slug words joined by "-" are a slug word |
| StageA.SlugifyFallsBack | app/routes/integrations_stage_a.py:16-20 | a title with no ASCII letter, digit, "-" or whitespace, and neither the Kelvin sign nor the dotted capital I (which lower to ASCII letters), gives "patch" |
| StageA.NoSlugChars | app/routes/integrations_stage_a.py:19 | a text without slug characters leaves nothing |
| StageA.UsableFiles | app/routes/integrations_stage_a.py:25-31 | no more files than entries |
| StageA.UsableFilesCons | app/routes/integrations_stage_a.py:25-31 | the loop goes entry by entry, skipping directories and empty files |
| StageA.ExtractFromMeaning | app/routes/integrations_stage_a.py:25-36 | from any point of the loop: the files exactly when there are some, not too many and none too large; 400 exactly when there are none; otherwise 413 |
| StageA.ExtractZipMeaning | app/routes/integrations_stage_a.py:22-36 | the usable entries exactly when there are some, at most the count limit and none over the size limit; no usable entry is a 400; anything else a 413 |
| StageA.ExtractZip | app/routes/integrations_stage_a.py:22-36 | the loop returns the extraction specification |
| StageA.StageABranchShape | app/routes/integrations_stage_a.py:14-63 | both branch names an upload may use match the Stage-A pattern and have at most 255 characters |
| StageA.BranchParts | app/routes/integrations_stage_a.py:57 | where the date, the "-" and the slug sit in a Stage-A branch |
| StageA.StageABranchAccepted | app/routes/integrations_stage_a.py:57-64 | every branch an upload uses passes the branch pusher's validation and Stage B's, both as written and corrected |
| StageA.CreateFailure | app/routes/integrations_stage_a.py:65-66 | a BranchCreateError is a 404; any other exception is not caught |
| StageA.PushAnswer | app/routes/integrations_stage_a.py:68-75 | a push that succeeds answers the branch and its counts; a PushError is a 502 with its message |
| StageA.PlannedRefusals | app/routes/integrations_stage_a.py:40-53 | a misconfiguration is a 500, a name not ending in ".zip" a 400, an archive over the limit a 413, a bad archive a 400, each before any branch is made |
| StageA.PlannedBranch | app/routes/integrations_stage_a.py:55-64 | the branch is the dated slug branch, or it with "-2" exactly when the first creation found it existing |
| StageA.Planned | app/routes/integrations_stage_a.py:38-64 | a plan needs a valid configuration, a ".zip" name, a size within the limit and a readable archive, and its branch is the dated slug branch or it with "-2" |
| StageA.PlannedAnswer | app/routes/integrations_stage_a.py:40-64 | a planned push has a valid configuration, an archive whose usable files are pushed, and the created branch |
| StageA.CreatedBranchMeaning | app/routes/integrations_stage_a.py:59-64 | the base branch, or "-2" exactly when the first creation answered that it exists |
| StageA.SecondCreationUnchecked | app/routes/integrations_stage_a.py:63-64 | once the first creation finds the branch existing, the second creation's answer does not matter unless it raises |
| StageA.SubmitZip | app/routes/integrations_stage_a.py:38-75 | a refusal changes nothing; otherwise the branch's files and the answer are those of the push, with paths normalised by the corrected `NormalizePath` |
| StageA.SubmittedMeaning | app/routes/integrations_stage_a.py:68-75 | a success counts every file as written or skipped on the branch used; a failed push is a 502 |
| StageB.Need | app/routes/integrations_stage_b.py:13-17 | the stripped variable, or the RuntimeError naming it exactly when it is missing or blank |
| StageB.ValidateEnv | app/routes/integrations_stage_b.py:19-26 | a configuration has a token and a repository with exactly one "/" |
| StageB.ValidateEnvMeaning | app/routes/integrations_stage_b.py:19-26 | valid exactly when the stripped token and repository are non-empty and the repository holds one "/"; the token is checked first; the defaults are the public API and "main" |
| StageB.OwnerRepo | app/routes/integrations_stage_b.py:74-76 | splits exactly when there is a "/", at the first one |
| StageB.OwnerRepoRoundTrip | app/routes/integrations_stage_b.py:74-76 | an owner without "/" and a name joined by "/" split back into them |
| StageB.ConfiguredRepoSplits | app/routes/integrations_stage_b.py:24-76 | a repository `validate_env` accepts splits into an owner and a name without "/" |
| StageB.DollarText | app/routes/integrations_stage_b.py:36-37 | Python's `$` lets a pattern cover the text, or the text less one final newline |
| StageB.ValidateBranchName | app/routes/integrations_stage_b.py:39-43 | a refusal is a 400, "Invalid branch name" when the general shape fails |
| StageB.StageAChars | app/routes/integrations_stage_b.py:37 | past "stage-a/" a Stage-A name holds only slug characters |
| StageB.StageAIsBranch | app/routes/integrations_stage_b.py:36-37 | every Stage-A name of at most 255 characters has the general branch shape |
| StageB.ValidateBranchNameMeaning | app/routes/integrations_stage_b.py:36-43 | the corrected check accepts exactly the Stage-A names of at most 255 characters, and those hold only branch characters and no newline |
| StageB.AsWrittenDropsFinalNewline | app/routes/integrations_stage_b.py:36-43 | the check as written accepts a name exactly when the corrected one accepts it less a final newline |
| StageB.SampleBranchAccepted | app/routes/integrations_stage_b.py:37-43 | "stage-a/20240101-x" is accepted |
| StageB.TrailingNewlineAccepted | app/routes/integrations_stage_b.py:36-43 | as written, every accepted name with a newline appended is accepted too |
| StageB.NewlineBranchExample | app/routes/integrations_stage_b.py:36-43 | as written, "stage-a/20240101-x\n" is accepted |
| StageB.SettleMeaning | app/routes/integrations_stage_b.py:52-64 | an attempt is retried exactly when it is not the last, not rate-limited, and failed or got a 5xx; a rate limit is a 429; the last attempt always settles |
| StageB.Retried | app/routes/integrations_stage_b.py:46-67 | the outcome of the first attempt that is not retried: only a 429 or a 502 is raised, and a response given back is never a rate limit |
| StageB.RequestWithRetries | app/routes/integrations_stage_b.py:46-67 | at most max_retries+1 requests, none exactly when max_retries < 0, with doubling waits between them; the answer is the first attempt that settles, as `Retried` gives it; no attempt is "Unknown network error" |
| StageB.Sent | app/routes/integrations_stage_b.py:46-67 | a request of `promote` (two retries) fails only with a 429 or a 502 |
| StageB.SentMeaning | app/routes/integrations_stage_b.py:46-67 | a request answered at once with neither a 5xx nor a rate limit gets that response; one that fails on the network at every attempt is a 502 |
| StageB.SentOnce | app/routes/integrations_stage_b.py:46-67 | a response below 500 other than a 403 given at once is returned as it is |
| StageB.SpaceControls | app/routes/integrations_stage_b.py:71 | no control character is left and the text does not grow |
| StageB.ControlRunBecomesSpace | app/routes/integrations_stage_b.py:71 | each run of control characters between two others becomes one space |
| StageB.SanitizeTitle | app/routes/integrations_stage_b.py:70-72 | 1 to 120 characters, no control character, no leading whitespace |
| StageB.SanitizeTitleKeepsClean | app/routes/integrations_stage_b.py:70-72 | a clean stripped title of at most 120 characters is kept |
| StageB.SanitizeTitleBlank | app/routes/integrations_stage_b.py:72 | a title of only whitespace and control characters gives "Stage B Promote" |
| StageB.TagChars | app/routes/integrations_stage_b.py:165 | each character outside `[A-Za-z0-9._/-]` becomes "-", the others are kept |
| StageB.SafeTag | app/routes/integrations_stage_b.py:165 | only allowed characters, and no "/" at either end |
| StageB.SafeTagIdempotent | app/routes/integrations_stage_b.py:165 | making a tag safe twice changes nothing more |
| StageB.Truncate | app/routes/integrations_stage_b.py:98 | `int()` of a float truncates toward zero, from either side |
| StageB.RefSha | app/routes/integrations_stage_b.py:78-86 | a failed request fails the same way; a settled one fails only with a 500 (a non-2xx status or a body without `object.sha`) |
| StageB.FoundPr | app/routes/integrations_stage_b.py:88-100 | a failed request fails the same way; a settled one fails only with a 500 (a non-2xx status, or a first item without an integer "number") |
| StageB.CreatedPr | app/routes/integrations_stage_b.py:102-114 | a failed request fails the same way; a settled one fails with a 500 or with the failure of the search made again after a 422 |
| StageB.TagFound | app/routes/integrations_stage_b.py:116-124 | a failed request fails the same way; a settled one fails only with a 500 (a status outside 2xx other than 404) |
| StageB.TagCreated | app/routes/integrations_stage_b.py:126-132 | a failed request fails the same way; a settled one fails only with a 500 (a status outside 2xx) |
| StageB.PullNumber | app/routes/integrations_stage_b.py:157-160 | fails only with a 429, a 500 or a 502 |
| StageB.PullNumberMeaning | app/routes/integrations_stage_b.py:88-160 | an open pull request is reused; else a 200 or 201 gives the new number, a 422 "already exists" gives what the second search finds and a 500 when it finds nothing, another 2xx leaves the number None, any other status is a 500 |
| StageB.TagStep | app/routes/integrations_stage_b.py:162-173 | no tag unless a non-empty one is asked for; else the safe tag, which is acceptable; failures are 400 (bad tag), 429, 500 or 502 |
| StageB.PromoteChecked | app/routes/integrations_stage_b.py:150-175 | fails only with 400, 404, 429, 500 or 502; an answer has a truthy sha and the safe tag asked for |
| StageB.Promote | app/routes/integrations_stage_b.py:141-175 | an answer passed the configuration and the branch check and has a truthy sha and the safe tag asked for; a failure is the branch check's or one of 400, 404, 429, 500 and 502 |
| StageB.PromoteFailures | app/routes/integrations_stage_b.py:141-175 | a misconfiguration is a 500 naming it; the branch check's refusal is passed on; a failed branch-ref request is passed on; a missing or falsy sha is a 404; a failed pull-request step is passed on; otherwise the answer holds the number, the sha and the tag step's outcome |
| StageB.AcceptedCreationHasNoNumber | app/routes/integrations_stage_b.py:102-175 | a 2xx other than 200 and 201 to the creation, with no open pull request, gives an answer whose pull request number is None |
| StageB.NewlineBranchReachesGitHub | app/routes/integrations_stage_b.py:36-155 | the branch check as written lets "stage-a/20240101-x" with a final newline go on to GitHub; the corrected one refuses it with a 400 |
| StageB.ServedHead | app/routes/integrations_stage_b.py:78-86 | a GitHub that serves every request gives the branch's head, or None when it has none |
| StageB.ServedPull | app/routes/integrations_stage_b.py:88-160 | such a GitHub gives the open pull request's number, or the new one |
| StageB.ServedTag | app/routes/integrations_stage_b.py:162-173 | such a GitHub takes every acceptable tag |
| StageB.ServedFound | app/routes/integrations_stage_b.py:150-175 | once the branch has a head, the request model and the state model agree |
| StageB.ServedMissing | app/routes/integrations_stage_b.py:150-155 | without a head both answer 404 |
| StageB.PromoteFoundAnswer | app/routes/integrations_stage_b.py:157-175 | the state model answers the branch's pull request number or the new one, the head, and the safe tag when it is acceptable |
| StageB.PromoteFound | app/routes/integrations_stage_b.py:157-175 | the only refusal is 400 "Invalid tag name" for a tag whose safe form is unacceptable; an answer has a pull request number and the head sha, and a tag exactly when one was asked for, in its safe and acceptable form |
| StageB.PromoteServedAnswers | app/routes/integrations_stage_b.py:141-175 | `promote` against a GitHub that serves every request from a state answers what the state model answers |
| StageB.PullFor | app/routes/integrations_stage_b.py:88-160 | on a GitHub that serves every request: the branch's open pull request is reused; otherwise one is created for the branch alone, with the sanitized title and the base branch; other pull requests, heads and tags are untouched |
| StageB.TagAt | app/routes/integrations_stage_b.py:116-173 | on a GitHub that serves every request: an existing tag is kept as it is; a missing one is created on the head; nothing else changes |
| StageB.PromoteIdempotent | app/routes/integrations_stage_b.py:141-175 | on a GitHub that serves every request, promoting twice gives the same answer and changes nothing more on GitHub, whatever number a new pull request would get |
| StageB.PromoteFoundTwice | app/routes/integrations_stage_b.py:157-175 | from a found branch head, the second promotion repeats the first |
| StageB.PromoteFoundPulls | app/routes/integrations_stage_b.py:157-160 | the branch's pull request is reused, and otherwise one is created for the branch alone |
| StageB.PromoteFoundTags | app/routes/integrations_stage_b.py:162-173 | existing tags are kept; a new one is the answer's tag on the head |
| StageB.PromoteEffects | app/routes/integrations_stage_b.py:141-175 | on a GitHub that serves every request, heads never change; pull requests and tags change only as above |
| StageB.PromoteRefusals | app/routes/integrations_stage_b.py:144-155 | on a GitHub that serves every request: a misconfiguration is a 500, the branch check's refusal is passed on, a missing branch is a 404, and none of them changes anything |
| JsonChat.CutLines | app/tg/webhook.py:29-32 | one line per line, each cut at its first "//" |
| JsonChat.NoDoubleSlashMeansAbsent | app/tg/webhook.py:30 | a text has no "//" exactly when it does not contain it |
| JsonChat.DropTrailingCommas | app/tg/webhook.py:34 | the text does not grow, and a non-empty text keeps its first character or starts with the closer that replaced a comma |
| JsonChat.CleanJsonComments | app/tg/webhook.py:26-35 | the loop returns the cleaning specification (app/bot/tg_add_service_direct.py:15-24 is the same code) |
| JsonChat.JoinNoDoubleSlash | app/tg/webhook.py:33 | lines without "//" joined with newlines hold no "//" |
| JsonChat.DropKeepsNoDoubleSlash | app/tg/webhook.py:34 | dropping commas never brings two slashes together |
| JsonChat.CommentsRemovedHasNoSlashes | app/tg/webhook.py:26-35 | the cleaned text holds no "//" anywhere |
| JsonChat.SolidSkips | app/tg/webhook.py:34 | commas and whitespace contribute no solid character |
| JsonChat.DropKeepsSolid | app/tg/webhook.py:34 | dropping trailing commas removes only commas and whitespace: every other character stays, in order |
| JsonChat.DropWithoutCommas | app/tg/webhook.py:34 | a text without a comma is left alone |
| JsonChat.DropCommaBeforeCloser | app/tg/webhook.py:34 | a comma, any whitespace and a closing bracket become the bracket |
| JsonChat.DropIsOnePass | app/tg/webhook.py:34 | the substitution is one pass: ",,]" becomes ",]" |
| JsonChat.Dicts | app/tg/webhook.py:39-42 | only dictionaries of the list are kept, in order |
| JsonChat.DictsComplete | app/tg/webhook.py:39-42 | every dictionary of the list is kept |
| JsonChat.ServiceItems | app/tg/webhook.py:37-44 | a list gives its dictionaries; a dictionary with a "services" list its dictionaries; any other dictionary itself; anything else nothing |
| JsonChat.ServiceItemsMeaning | app/tg/webhook.py:37-44 | (the same shapes as app/bot/tg_add_service_direct.py:36-50) the items are exactly the dictionaries of the list the payload is or holds; only a list can give none |
| JsonChat.AddServicesStart | app/tg/webhook.py:284-288 | the payload starts at a "{" or "[" |
| JsonChat.AddServicesStartFirst | app/tg/webhook.py:284 | the "add service(s):" prefix holds no "{" or "[" before the payload |
| JsonChat.BasePrice | app/tg/webhook.py:157-158 | None is 0.0, a number its value, a list or dictionary refused by `float` |
| JsonChat.PyStr | app/tg/webhook.py:160-179 | a string is written as itself |
| JsonChat.SummaryLines | app/tg/webhook.py:242-244 | (also app/bot/tg_add_service_direct.py:132-135) the summary shows the first twelve lines, then "… and N more." exactly when there are more |
| TgWebhook.ObjectOf | app/tg/webhook.py:142-144 | an object exactly when the text parsed to a dictionary |
| TgWebhook.LineItem | app/tg/webhook.py:137-146 | one NDJSON line gives at most one object |
| TgWebhook.NdjsonItems | app/tg/webhook.py:136-147 | at most one object per line |
| TgWebhook.ParseServicesFromJsonText | app/tg/webhook.py:126-147 | the loop returns the parsing specification |
| TgWebhook.NdjsonItemsFromLines | app/tg/webhook.py:137-146 | every NDJSON item is the object of one of the lines |
| TgWebhook.NdjsonItemsHaveLines | app/tg/webhook.py:137-146 | the object of every line that holds one is an item |
| TgWebhook.ServicesFromTextMeaning | app/tg/webhook.py:126-147 | the whole text wins when it gives items; the lines are read one by one only when it fails to parse or gives none |
| TgWebhook.WebhookRequest | app/tg/webhook.py:162-176 | the call carries the user, the title and the price, with a truthy pricing model and currency and every field through `or` to its default |
| TgWebhook.Failed | app/tg/webhook.py:160-182 | an error line starts with the cross and is not counted |
| TgWebhook.CreatedReport | app/tg/webhook.py:177-182 | a creation line starts with the check mark, any other with the cross |
| TgWebhook.ReportLines | app/tg/webhook.py:149-183 | one line per item |
| TgWebhook.CreatedCount | app/tg/webhook.py:150-180 | no more created than items |
| TgWebhook.CreateServices | app/tg/webhook.py:149-183 | the loop returns the report lines and the count of creations |
| TgWebhook.ItemReportMarks | app/tg/webhook.py:153-182 | a line reports a creation exactly when it starts with the check mark |
| TgWebhook.CreatedCountIsCheckLines | app/tg/webhook.py:149-183 | the count is the number of check-mark lines |
| TgWebhook.MissingTitleLine | app/tg/webhook.py:153-155 | an item without a title or name gets "Missing 'title'" and the backend is not asked |
| TgWebhook.PriceHandling | app/tg/webhook.py:157-160 | a missing price is sent as 0.0; a price `float` refuses gives the price line without asking the backend |
| TgWebhook.RepositoryBackendCreatesNothing | app/tg/webhook.py:162-176 | with `create_service` as the repository defines it (no `promo_code` parameter), every call raises and nothing is counted |
| TgWebhook.NoCheckLines | app/tg/webhook.py:181-182 | a backend that always raises gives no check-mark line |
| TgWebhook.SizeRefusal | app/tg/webhook.py:215-233 | refused exactly when the declared size (zero meaning unknown) or the downloaded bytes exceed the limit; a refusal starts with the cross |
| TgWebhook.KindOf | app/tg/webhook.py:202-229 | a ZIP exactly for ".zip" in any case; a JSON document exactly for ".json" or ".ndjson" |
| TgWebhook.DocumentReply | app/tg/webhook.py:200-249 | an unresolved file gets the cross line; other documents get no reply exactly when they are neither ZIP nor JSON |
| TgWebhook.OversizeDocumentRefused | app/tg/webhook.py:214-233 | a document over its limit is refused before Stage A or the backend are consulted |
| TgWebhook.PromoteWithoutBranch | app/tg/webhook.py:255-258 | "/promote" without a branch gets the usage line and the integrator is not called |
| TgWebhook.Webhook | app/tg/webhook.py:186-197 | 403 exactly on a wrong secret; no chat means no message |
| TgWebhook.StageAReply | app/tg/webhook.py:220-225 | a failure gives the cross and its detail; an answer gives the branch, else the ref, else "(unknown)" |
| TgWebhook.PromoteLines | app/tg/webhook.py:263-268 | no lines exactly when pr_number, tag, sha, pr_url and url are all falsy; a truthy pr_number comes first |
| TgWebhook.PromoteReply | app/tg/webhook.py:260-271 | a failure gives "Promote failed" and its detail; an answer starts with "Promoted", then the pull request line when there is one, and is that line alone when nothing was answered |
| TgWebhook.RevertReply | app/tg/webhook.py:274-281 | the tag the revert started from, or "Revert failed" and the detail |
| TgWebhook.TextReply | app/tg/webhook.py:255-308 | "/promote" gives the usage line or the promotion reply; "/revert" the revert reply; text without an add-services prefix the hint; a prefix without a backend the backend error |
| TgAddServiceDirect.Slugify | app/bot/tg_add_service_direct.py:26-28 | never empty, no dash at either end, only lowercase letters, digits and dashes |
| TgAddServiceDirect.StripKeepsSingle | app/bot/tg_add_service_direct.py:27 | trimming dashes keeps single dashes single |
| TgAddServiceDirect.SlugifySingleDashes | app/bot/tg_add_service_direct.py:27 | a slug never holds two dashes side by side |
| TgAddServiceDirect.ReplaceRunsOfSingles | app/bot/tg_add_service_direct.py:27 | the run replacement leaves a slug-shaped text as it is |
| TgAddServiceDirect.SlugifyIdempotent | app/bot/tg_add_service_direct.py:26-28 | a slug is its own slug |
| TgAddServiceDirect.Coalesce | app/bot/tg_add_service_direct.py:30-34 | the default when no key is present with a value other than None or "" |
| TgAddServiceDirect.CoalesceFirst | app/bot/tg_add_service_direct.py:31-33 | the value of the first present key wins |
| TgAddServiceDirect.CoalesceOne | app/bot/tg_add_service_direct.py:30-34 | one key: its value when present, else the default |
| TgAddServiceDirect.CoalescePair | app/bot/tg_add_service_direct.py:30-34 | two keys: the first present one, else the default |
| TgAddServiceDirect.DirectRequest | app/bot/tg_add_service_direct.py:57-89 | the call carries the user, the title as name and the price |
| TgAddServiceDirect.Failed | app/bot/tg_add_service_direct.py:72-91 | an item's error line starts with the cross and is not a creation |
| TgAddServiceDirect.AfterCreate | app/bot/tg_add_service_direct.py:93-96 | a creation line starts with the check mark, any other with the cross |
| TgAddServiceDirect.AfterCreateSlug | app/bot/tg_add_service_direct.py:93-96 | a dictionary answer gives its truthy "slug", else the title's own slug, and its id |
| TgAddServiceDirect.AfterCreateRaises | app/bot/tg_add_service_direct.py:93 | a truthy answer that is not a dictionary escapes as an AttributeError |
| TgAddServiceDirect.CreateOneMissingTitle | app/bot/tg_add_service_direct.py:53-55 | without a title or name: "Missing 'title'", whatever the backend |
| TgAddServiceDirect.SameRequestAsWebhook | app/bot/tg_add_service_direct.py:53-89 | on non-empty text values the direct call equals the webhook's call |
| TgAddServiceDirect.PresentIsTruthy | app/bot/tg_add_service_direct.py:32 | on non-empty text values, present means truthy |
| TgAddServiceDirect.EmptyLocationDiffers | app/bot/tg_add_service_direct.py:62 | an empty "location" is sent as None here and as "" by the webhook |
| TgAddServiceDirect.Extend | app/bot/tg_add_service_direct.py:127-130 | one more item adds one line and at most one creation; an exception ends the loop |
| TgAddServiceDirect.CreateAll | app/bot/tg_add_service_direct.py:125-130 | one line per item and no more creations than items |
| TgAddServiceDirect.CreateItems | app/bot/tg_add_service_direct.py:125-130 | the loop returns the tally specification |
| TgAddServiceDirect.PrefixRaises | app/bot/tg_add_service_direct.py:127-128 | once an item raises, the whole handler raises the same |
| TgAddServiceDirect.TallyCountsChecks | app/bot/tg_add_service_direct.py:126-130 | the count is the number of check-mark lines |
| TgAddServiceDirect.CreateOneMarks | app/bot/tg_add_service_direct.py:52-96 | a created item's line starts with the check mark, any other with the cross |
| TgAddServiceDirect.DirectReplyCases | app/bot/tg_add_service_direct.py:107-117 | text without the prefix gets no reply; a payload that does not parse gets the parse error |
| TgAddServiceDirect.DirectReply | app/bot/tg_add_service_direct.py:106-136 | a reply needs the prefix, and is a cross line or the "Created" count |
| TgAddServiceDirect.ParseFailed | app/bot/tg_add_service_direct.py:113-117 | the reply starts with the cross and ends with the parse error |
| TgAddServiceDirect.CreatedReport | app/bot/tg_add_service_direct.py:132-136 | the reply starts with "Created " |
| ServiceJsonText.ClockSlug | bot/service_json_text.py:12 | "svc-" and the clock's digits: at least five slug characters |
| ServiceJsonText.DottedSlug | bot/service_json_text.py:10-12 | between 1 and 60 characters of `[a-z0-9._-]`, never starting with a dash |
| ServiceJsonText.DottedSlugKeeps | bot/service_json_text.py:10-12 | a text already in slug form is its own slug, whatever the clock |
| ServiceJsonText.GetPath | bot/service_json_text.py:14-21 | the loop returns the walk along the dot-separated keys |
| ServiceJsonText.WalkAppend | bot/service_json_text.py:16-20 | a walk splits at any point into two walks |
| ServiceJsonText.SplitFirst | bot/service_json_text.py:16 | splitting at the first dot gives the first key and the split of the rest |
| ServiceJsonText.SplitNone | bot/service_json_text.py:16 | a path without a dot is one key |
| ServiceJsonText.DottedPaths | bot/service_json_text.py:25-27 | "service.name" and "metadata.name" are two-key walks, "name" one key |
| ServiceJsonText.FirstTruthy | bot/service_json_text.py:32-34 | a value that is found is truthy and a candidate; none exactly when no candidate is truthy |
| ServiceJsonText.FirstTruthyAt | bot/service_json_text.py:32-34 | the first truthy position wins |
| ServiceJsonText.Candidates | bot/service_json_text.py:24-31 | one value per naming field |
| ServiceJsonText.DeriveServiceSlug | bot/service_json_text.py:23-35 | always a slug of 1 to 60 slug characters |
| ServiceJsonText.DeriveServiceSlugOrder | bot/service_json_text.py:23-35 | the first truthy naming field, in the declared order, gives the slug |
| ServiceJsonText.NameWins | bot/service_json_text.py:25-34 | a truthy "name" always gives the slug |
| ServiceJsonText.DeriveServiceSlugDefault | bot/service_json_text.py:35 | with no truthy naming field the slug is "svc" |
| ServiceJsonText.WordsEnd | bot/service_json_text.py:7 | a match of the trigger's words ends inside the text |
| ServiceJsonText.BraceAfterHasBrace | bot/service_json_text.py:7 | a trigger match holds a "{" |
| ServiceJsonText.TriggeredHasBrace | bot/service_json_text.py:7-40 | a triggered text holds a "{", so the first-brace search cannot fail |
| ServiceJsonText.NoCloserAfter | bot/service_json_text.py:40-41 | the guard `j < i` holds exactly when no "}" follows the first "{" |
| ServiceJsonText.ExtractRaisesIff | bot/service_json_text.py:37-42 | extraction raises exactly when the trigger matches and no "}" follows the first "{" |
| ServiceJsonText.ExtractJsonFromText | bot/service_json_text.py:37-50 | the only error is "No JSON object found", and only when the trigger matches |
| ServiceJsonText.TriggerCutIsFinal | bot/service_json_text.py:43-46 | after the trigger's cut, the second cut changes nothing |
| ServiceJsonText.CollapseKeepsNoDoubleSlash | bot/service_json_text.py:49 | collapsing whitespace never brings two slashes together |
| ServiceJsonText.CleanedNoSlashes | bot/service_json_text.py:47-50 | the extracted text holds no "//" |
| ServiceJsonText.CutNoSlashes | bot/service_json_text.py:47 | lines cut at their comments hold no "//" once joined |
| ServiceJsonText.StripNoSlashes | bot/service_json_text.py:50 | trimming keeps a text free of "//" |
| ServiceJsonText.CleanedSingleSpaces | bot/service_json_text.py:49-50 | no two horizontal whitespace characters stand side by side |
| ServiceJsonText.Utf8Len | bot/service_json_text.py:60 | the UTF-8 length lies between one and four bytes per character |
| ServiceJsonText.ServiceTextReply | bot/service_json_text.py:54-75 | only text holding both "{" and "}" can get a reply |
| ServiceJsonText.ServiceTextReplyCases | bot/service_json_text.py:59-68 | text over the byte limit gets the size refusal before parsing; a payload that is not a dictionary gets no reply |
| StageD.Basename | bot/tg_stage_d.py:24 | the base name holds no "/" |
| StageD.Stem | bot/tg_stage_d.py:24 | the stem is no longer than the base name |
| StageD.NestedName | bot/tg_stage_d.py:19-20 | a falsy value gives None, a dictionary its "name", anything else truthy the AttributeError |
| StageD.DeriveServiceSlug | bot/tg_stage_d.py:14-27 | a slug of 1 to 60 characters of `[a-z0-9._-]` whenever the derivation does not raise |
| StageD.NameFirst | bot/tg_stage_d.py:18 | a truthy "name" decides the slug |
| StageD.NestedNamesNext | bot/tg_stage_d.py:19-21 | then "service"'s name, then "metadata"'s name, then "id" |
| StageD.StemWhenUnnamed | bot/tg_stage_d.py:23-25 | a payload naming nothing takes the file's stem, or "svc-" and the clock |
| StageD.ServiceNotDictRaises | bot/tg_stage_d.py:19 | a truthy "service" that is not a dictionary makes the derivation raise |
| StageD.KindOf | bot/tg_stage_d.py:42-44 | a document is handled exactly when its lowered name ends in .patch, .diff, .yaml, .yml or .json |
| StageD.ServiceSubmit | bot/tg_stage_d.py:88-108 | a JSON submission goes to the edits route, or to the dry run |
| StageD.OnlyFiveExtensions | bot/tg_stage_d.py:42-44 | every other document is ignored without a reply |
| StageD.HandleDocs | bot/tg_stage_d.py:36-108 | only the JSON branch can raise, and only after a download within the limit; a submission is of the document's kind, after a download within the limit |
| StageD.DryRunDispatch | bot/tg_stage_d.py:65-128 | the dry-run route and the "kind" field are used exactly when the caption says "dryrun" |
| StageD.EndpointDry | bot/tg_stage_d.py:70-123 | the route is the dry run exactly for a dry run |
| StageD.OversizeRefused | bot/tg_stage_d.py:59-61 | a download over the limit is refused before anything is sent |
| StageD.JsonBecomesOneEdit | bot/tg_stage_d.py:88-107 | a JSON document becomes one file.create edit of services/<slug>/service.json titled "service-<slug>" |
| StageD.SubmitReplyShape | bot/tg_stage_d.py:77-136 | a status under 300 gives the check-mark reply, any other the cross |
| ServicesAddBridge.GroupFrom | app/routes/tg_services_add_bridge.py:20 | a captured group never holds "```" |
| ServicesAddBridge.FenceAt | app/routes/tg_services_add_bridge.py:20 | a fence match starts with "```" and captures no "```" |
| ServicesAddBridge.FenceAttempts | app/routes/tg_services_add_bridge.py:24 | one attempt per position of the text |
| ServicesAddBridge.FenceBlockLeftmost | app/routes/tg_services_add_bridge.py:24-26 | a block is found exactly when some position matches, and it is the leftmost match |
| ServicesAddBridge.TaggedFence | app/routes/tg_services_add_bridge.py:20 | a "json" tag is skipped, with the whitespace after it |
| ServicesAddBridge.CutCommandNone | app/routes/tg_services_add_bridge.py:30-33 | with no command matching, the text is kept |
| ServicesAddBridge.CutCommandFirst | app/routes/tg_services_add_bridge.py:30-32 | the first matching command in declared order is cut |
| ServicesAddBridge.ExtractWithoutFence | app/routes/tg_services_add_bridge.py:28-33 | without a fence, the first matching command is cut and the rest trimmed, else the trimmed text is kept |
| ServicesAddBridge.LongerCommandFirst | app/routes/tg_services_add_bridge.py:19-32 | "/svcjsonadd" is cut whole, before its prefix "/svcjson" |
| ServicesAddBridge.ExtractTrimmed | app/routes/tg_services_add_bridge.py:22-33 | the extracted payload never starts or ends with whitespace |
| ServicesAddBridge.CutCommandTrimmed | app/routes/tg_services_add_bridge.py:30-33 | cutting a command from a trimmed text leaves a trimmed text |
| ServicesAddBridge.Wrap | app/routes/tg_services_add_bridge.py:46-50 | the request data always has a "service" |
| ServicesAddBridge.WrapMeaning | app/routes/tg_services_add_bridge.py:46-50 | the data is kept exactly when its "service" is a dictionary; otherwise it becomes the only key's value |
| ServicesAddBridge.ServiceAddCases | app/routes/tg_services_add_bridge.py:37-50 | 400 exactly for an empty payload or invalid JSON; otherwise the wrapped data goes on |
| ServicesAddBridge.TelegramServiceAdd | app/routes/tg_services_add_bridge.py:36-50 | every refusal is a 400; the data sent on has a "service" and came from a payload that parsed |

## Left out

- Network transport is not modelled: HTTP to Telegram, GitHub, the integrator and the backend (aiohttp and httpx sessions, timeouts). Each call is replaced by the answer it returned or the exception it raised, given as a parameter.
- The Stage A and Stage B posts of app/tg/webhook.py:46-77 are not modelled step by step. This covers their fallback over two endpoint spellings, and the revert at app/tg/webhook.py:79-118 (GitHub releases, workflow lookup, dispatch). The webhook receives their outcome as an input.
- StageB.PromoteIdempotent: stated, like the other lemmas of the state model (StageB.PromoteServed), for a GitHub that serves every request; StageB.Promote covers failed requests, but a run cut short after creating a pull request is not followed by a second run in the model.
- StageB.PullFor: describes a GitHub that serves every request; the answers of a failing one are StageB.PullNumberMeaning's.
- StageB.TagAt: describes a GitHub that serves every request; the answers of a failing one are StageB.TagStep's.
- StageB.PromoteFoundTwice: describes a GitHub that serves every request.
- StageB.PromoteFoundPulls: describes a GitHub that serves every request.
- StageB.PromoteFoundTags: describes a GitHub that serves every request.
- StageB.PromoteEffects: describes a GitHub that serves every request; what a failed request leaves behind on GitHub is not modelled.
- StageB.PromoteRefusals: describes a GitHub that serves every request.
- StageB.IntOf: `int()` of text reads an optional sign and decimal digits inside whitespace; underscores between digits and non-ASCII digits are not modelled.
- IntentSlots.PairOf: in Python a pair whose key is a number, a bool or None makes a dictionary with a non-string key, and a dictionary of two keys gives its two keys as the pair in insertion order; the model's dictionaries have string keys and no order, so it reports both as errors.
- BranchPusher.RemoteBranch.PushFiles: normalises each path with the corrected `NormalizePath`, which turns backslashes into "/" before the ".." check. As written, the source accepts a path such as `a\..\..\evil` and writes it as `a/../../evil` (see Findings); the pushed files for such a path are not modelled.
- StageA.SubmitZip: goes through `PushFiles`, so it inherits the corrected `NormalizePath`. An archive entry whose name climbs out with backslashes is refused in the model but pushed by the source as written.
- TgWebhook.PromoteReply: the Stage B post is an input that answers or raises an HTTPException. In the source, an aiohttp error, a body on which `r.json()` fails, or a JSON answer that is not a dictionary (so `.get` fails) escapes the webhook with no reply; those paths are not modelled.
- TgWebhook.TextReply: the same holds for its /revert branch. An aiohttp error, a failing `r.json()` or `.get` on an answer that is not a dictionary escapes in the source and is not modelled.
- TgWebhook.StageAReply: every failure of the Stage A post is treated as the caught HTTPException. A network error that is not an HTTPException escapes the webhook in the source.
- RouterService.HandleAgentMessage: takes the service agent as a parameter and models the delegation as its authors intended. As written, the delegation always fails (see Findings and RouterService.DelegationAlwaysFails).
- LLM calls are not modelled (intent/llm.py:53-71 and the OpenAI/OpenRouter clients). The model's reply is a string parameter.
- `json.loads` and `json.dumps` are not modelled. They are parameters (`string -> Outcome<Json>`, `Json -> string`), as is `str()` of a JSON value.
- `_decode_bytes` at app/tg/webhook.py:120-124 is not modelled. The decoded text is an input.
- zipfile reading is not modelled. The archive is the list of entries it yields.
- Base64 decoding in `put_file` is not modelled.
- HMAC-SHA256 token signing is not modelled. Only `_b64url` is.
- The clock and the uuid and sha1 ids are parameters. The sleeps between retries are not modelled; only the number of attempts is.
- Persistence and locking are not modelled. The session file and its lock (app/core/session_store.py:6-24) and the SQLAlchemy tables become in-memory maps and lists. A commit rejected by a unique column is an IntegrityError that leaves the rows unchanged.
- Unicode handling is simplified:
  - NFKC normalisation (app/services/router_service.py:25) is not modelled.
  - `str.lower` and `re.IGNORECASE` follow Python on ASCII, Latin-1, Latin Extended-A, the Vietnamese letters and basic Cyrillic (U+0400-U+042F). Other characters keep their case. This includes the Kelvin sign U+212A, which Python lowers to "k", and the dotted capital I U+0130, which Python lowers to two characters.
  - `str.isspace` and `\s` follow Python on all of Unicode.
  - Unicode `\w` is approximated as ASCII letters, digits and "_", plus every non-ASCII character except whitespace, the Latin-1 signs, general punctuation and CJK brackets and stops. Other non-ASCII symbols count as word characters.
  - `\d` is the ASCII digits. Python's `\d` in a `str` pattern also matches the other Unicode decimal digits.
- `os.path.normpath` and `urllib.parse.quote` are written out for the inputs the code gives them. Drive letters and other non-POSIX paths are not modelled.
- PyText.StrRepr: writes every non-ASCII character as it is. Python's `repr` escapes the ones `str.isprintable` rejects (U+0080-U+00A0, U+2028 and others), so a ValueError quoting such text differs in those characters.
- Exception messages follow CPython 3.10 and 3.11. CPython 3.12 words the error of `max()` on no domains (IntentEngineDecide.Route) as "max() iterable argument is empty".
- AgentManager.AgentStore.CreateAgent: models the corrected check. As written, an archived agent's name passes the check and the commit raises IntegrityError (see Findings).
- Numbers are simplified:
  - Confidences, weights and prices are exact reals.
  - IEEE rounding is not modelled.
  - `round(x, 3)` in app/intent_engine/engine.py:20,23,36 is not applied: the reported confidence is the unrounded score.
  - `float()` of text accepts a sign, digits and a fraction. Exponents, "inf", "nan" and underscores are not modelled.
- Environment variables (tokens, secrets, size limits, integrator URLs) are parameters. `int()` of a malformed limit raising at import is not modelled.
- aiogram and FastAPI wiring is not modelled: handler registration, dependency injection, the `_WIRED` guard, FSM state finishing in bot/tg_stage_d.py:38-39, and `CancelHandler`.
- app/bot/tg_add_service_direct.py:105 holds an unterminated string literal, so the module cannot be imported. The model describes the handler as its authors wrote it.
- `create_service` at app/clients/backend_api.py:167-184 has no `promo_code` parameter. The webhook passes one at app/tg/webhook.py:175, so every call raises TypeError, which is caught per item (TgWebhook.RepositoryBackendCreatesNothing). Elsewhere the backend is an input that may answer or raise.
- Schema validation and storage behind the bridge route (`ServiceAddRequest`, `ServiceStore.put`, app/routes/tg_services_add_bridge.py:52-63) are not modelled. app/models/service_add.py and app/services/service_store.py are not part of this model.
- `_branch_pat` at app/routes/integrations_stage_a.py:14 is compiled but never used, so it has no counterpart.
- The `RequestError` clause of `submit_zip` (app/routes/integrations_stage_a.py:70) cannot be reached, because `push_files` wraps every error. It has no counterpart beyond that observation.
- In StageD, the AttributeError of a truthy non-dictionary "service" or "metadata" is modelled as the derivation raising. What the handler then does (the exception escapes it, with no reply) is not modelled.
- Catalogue hooks are modelled for the list answer only. Other answer types of the backend's synchronous hook are not modelled.
- Request-model fields present with a value of the wrong type are not modelled. Validation takes each field as given or absent.

## Findings

| source | as written | input that shows it | evidently intended | confidence | as-written member | corrected member |
|---|---|---|---|---|---|---|
| app/integrator/branch_pusher.py:32-35 | backslashes are replaced by "/" after `normpath`, so the ".." check runs on a path that still holds backslash-separated ".." segments | `a\..\..\evil` is accepted as `a/../../evil`, which climbs out of the repository | a path that climbs out of the repository is rejected, whatever its separators | high (not executed) | BranchPusher.BackslashClimbAccepted | BranchPusher.NormalizePathSafe |
| app/routes/integrations_stage_b.py:36-43 | `$` in the branch patterns also matches before a final newline | `stage-a/20240101-x` followed by a newline is accepted as a branch name | only the Stage-A names themselves are accepted | high (not executed) | StageB.TrailingNewlineAccepted | StageB.ValidateBranchNameMeaning |
| app/core/agent_manager.py:86-88 | the name check looks only at agents that are not archived, while the name column is unique over all rows (app/models_agents.py:11) | creating an agent under an archived agent's name passes the check and then fails at the commit | a name held by any row is refused with the "already exists" error | high (not executed) | AgentManager.ArchivedNameSlipsThrough | AgentManager.AgentStore.CreateAgent |
| app/services/router_service.py:157-163 | the coroutine `handle_agent_message` calls `run_until_complete` on a fresh event loop while its own loop is running | any text outside the wizard that is neither a start command nor an add request, e.g. "hello" with no stored state | the service agent is awaited and its answer returned | high (not executed) | RouterService.DelegationAlwaysFails | RouterService.StartOrDelegate |
