/** Slot hints of the configurable intent engine (app/intent_engine/slots.py): a
    time hint from per-locale "now"/"later" words and a mode hint from delivery
    and visit words, all found as lowercase substrings. */
module IntentEngineSlots {
  import opened PyText

  /** The NOW table, keyed by the base language of the locale. */
  function NowWords(loc: string): seq<string> {
    if loc == "en" then ["now"]
    else if loc == "ru" then ["сейчас"]
    else if loc == "vi" then ["bây giờ"]
    else if loc == "de" then ["jetzt"]
    else if loc == "ko" then ["지금"]
    else []
  }

  /** The LATER table. */
  function LaterWords(loc: string): seq<string> {
    if loc == "en" then ["later"]
    else if loc == "ru" then ["позже"]
    else if loc == "vi" then ["sau"]
    else if loc == "de" then ["später"]
    else if loc == "ko" then ["나중"]
    else []
  }

  const DeliveryWords: seq<string> := ["delivery", "доставка", "giao hàng", "lieferung", "배달"]
  const VisitWords: seq<string> := ["visit", "go", "посетить", "đến", "besuchen", "방문"]

  /** A locale the tables know. */
  predicate KnownLocale(loc: string) { loc in {"en", "ru", "vi", "de", "ko"} }

  /** `(locale or "en").split("-")[0]`; an absent locale is passed as "". */
  function BaseLocale(locale: string): (loc: string)
    ensures '-' !in loc
    ensures locale == [] ==> loc == "en"
  {
    var l := if locale == [] then "en" else locale;
    Split(l, '-')[0]
  }

  /** `any(w in m for w in words)`. */
  predicate AnyIn(m: string, words: seq<string>) {
    exists k :: 0 <= k < |words| && Contains(m, words[k])
  }

  /** `any(w in m for w in words)`, scanning the words in order. */
  function AnyInScan(m: string, words: seq<string>): (b: bool)
    ensures b == AnyIn(m, words)
  {
    if words == [] then false
    else if Has(m, words[0]) then true
    else
      var b := AnyInScan(m, words[1..]);
      assert AnyIn(m, words[1..]) ==> AnyIn(m, words) by {
        if AnyIn(m, words[1..]) {
          var k :| 0 <= k < |words[1..]| && Contains(m, words[1..][k]);
          assert words[k + 1] == words[1..][k];
        }
      }
      b
  }

  /** The hints declared outright, for the lowercased message `m` and the word
      lists consulted: time is "later" when a LATER word occurs, else "now"
      when a NOW word occurs; mode is "delivery" when a delivery word occurs,
      else "visit" when a visit word occurs. */
  function HintsOf(m: string, now: seq<string>, later: seq<string>, delivery: seq<string>, visit: seq<string>): map<string, string> {
    var time := if AnyIn(m, later) then "later" else if AnyIn(m, now) then "now" else "";
    var mode := if AnyIn(m, delivery) then "delivery" else if AnyIn(m, visit) then "visit" else "";
    (if time != "" then map["time" := time] else map[])
      + (if mode != "" then map["mode" := mode] else map[])
  }

  /** The hints of `message` for `locale`. */
  function Hints(message: string, locale: string): map<string, string> {
    var loc := BaseLocale(locale);
    HintsOf(LowerStr(message), NowWords(loc), LaterWords(loc), DeliveryWords, VisitWords)
  }

  /** `basic_slot_hints(message, locale)`: the tables are looked up, then
      `ScanHints` runs the four conditional assignments. An absent message is
      passed as "". */
  method BasicSlotHints(message: string, locale: string) returns (ents: map<string, string>)
    ensures ents == Hints(message, locale)
  {
    var loc := BaseLocale(locale);
    ents := ScanHints(LowerStr(message), NowWords(loc), LaterWords(loc), DeliveryWords, VisitWords);
  }

  /** The four conditional assignments of `basic_slot_hints`, in order, the last
      one a `setdefault`. */
  method ScanHints(m: string, now: seq<string>, later: seq<string>, delivery: seq<string>, visit: seq<string>)
    returns (ents: map<string, string>)
    ensures ents == HintsOf(m, now, later, delivery, visit)
  {
    ents := map[];
    if AnyInScan(m, now) {
      ents := ents["time" := "now"];
    }
    if AnyInScan(m, later) {
      ents := ents["time" := "later"];
    }
    if AnyInScan(m, delivery) {
      ents := ents["mode" := "delivery"];
    }
    if AnyInScan(m, visit) && "mode" !in ents {
      ents := ents["mode" := "visit"];
    }
  }

  /** The keys are among time and mode, and each takes one of its two values. */
  lemma HintsShape(message: string, locale: string)
    ensures Hints(message, locale).Keys <= {"time", "mode"}
    ensures "time" in Hints(message, locale) ==> Hints(message, locale)["time"] in {"now", "later"}
    ensures "mode" in Hints(message, locale) ==> Hints(message, locale)["mode"] in {"delivery", "visit"}
  {
  }

  /** Later overrides now, and delivery takes precedence over visit. */
  lemma HintsPrecedence(message: string, locale: string)
    ensures var h := Hints(message, locale);
      var m := LowerStr(message);
      var loc := BaseLocale(locale);
      && ("time" in h && h["time"] == "later" <==> AnyIn(m, LaterWords(loc)))
      && ("time" in h && h["time"] == "now" <==> AnyIn(m, NowWords(loc)) && !AnyIn(m, LaterWords(loc)))
      && ("mode" in h && h["mode"] == "delivery" <==> AnyIn(m, DeliveryWords))
      && ("mode" in h && h["mode"] == "visit" <==> AnyIn(m, VisitWords) && !AnyIn(m, DeliveryWords))
  {
  }

  /** An empty message has no hints. */
  lemma EmptyMessageNoHints(locale: string)
    ensures Hints("", locale) == map[]
  {
    assert LowerStr("") == "";
    forall w: string | w != [] ensures !Contains("", w) {
    }
  }

  /** A locale the tables do not know never yields a time hint. */
  lemma UnknownLocaleNoTime(message: string, locale: string)
    requires !KnownLocale(BaseLocale(locale))
    ensures "time" !in Hints(message, locale)
  {
  }

  /** A region suffix is ignored: "de-AT" behaves as "de". */
  lemma RegionIgnored(message: string, region: string, plain: string)
    requires region == "de-AT" && plain == "de"
    ensures Hints(message, region) == Hints(message, plain)
  {
    RegionBase(region, plain);
  }

  lemma RegionBase(region: string, plain: string)
    requires region == "de-AT" && plain == "de"
    ensures BaseLocale(region) == BaseLocale(plain) == "de"
  {
    assert region == plain + ['-'] + "AT";
    SplitJoin(region, '-');
    assert IndexOfChar(region, '-', 0) == 2;
    assert IndexOfChar(plain, '-', 0) == -1;
  }

  /** Matching is by substring, so "good" counts as a visit because it contains "go". */
  lemma GoodMeansVisit()
    ensures Hints("good", "en") == map["mode" := "visit"]
  {
    assert LowerStr("good") == "good";
    assert OccursAt("good", "go", 0);
    assert AnyIn("good", VisitWords) by { assert Contains("good", VisitWords[1]); }
    assert !AnyIn("good", DeliveryWords) by {
      forall k | 0 <= k < |DeliveryWords| ensures !Contains("good", DeliveryWords[k]) {
        assert |DeliveryWords[k]| > 4 || DeliveryWords[k] == "배달";
        if DeliveryWords[k] == "배달" { AbsentChar("good", "배달", '배'); }
      }
    }
    assert !AnyIn("good", LaterWords("en")) by {
      assert |LaterWords("en")[0]| > 4;
    }
    assert !AnyIn("good", NowWords("en")) by { AbsentChar("good", "now", 'n'); }
  }
}
