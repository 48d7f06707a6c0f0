/** The substring scorer of the `app.intent` package (app/intent/rules.py): each
    domain of the language's lexicon scores min(0.5 + 0.1 * hits, 0.95) for
    the words occurring anywhere in the lowercased text, and the first domain
    with the strictly greatest score wins. */
module AppIntentRules {
  import opened PyText
  import opened JsonValue
  import opened IntentLexicon
  import opened IntentRules

  const AppEn: seq<Entry> := [
    Entry("food", ["food", "eat", "restaurant", "menu", "delivery", "order"]),
    Entry("real_estate", ["rent", "apartment", "flat", "house", "lease", "real estate"]),
    Entry("transportation", ["taxi", "ride", "bus", "train", "airport", "uber"]),
    Entry("business", ["service", "company", "invoice", "payment", "booking", "categories"])
  ]

  const AppRu: seq<Entry> := [
    Entry("food", ["еда", "поесть", "ресторан", "меню", "доставка", "заказать"]),
    Entry("real_estate", ["аренда", "квартира", "дом", "жильё", "снять"]),
    Entry("transportation", ["такси", "поездка", "автобус", "поезд", "аэропорт"]),
    Entry("business", ["услуга", "компания", "счёт", "оплата", "бронь", "категории"])
  ]

  const AppVi: seq<Entry> := [
    Entry("food", ["đồ ăn", "ăn", "nhà hàng", "thực đơn", "giao hàng", "đặt món"]),
    Entry("real_estate", ["thuê", "căn hộ", "nhà", "bất động sản"]),
    Entry("transportation", ["taxi", "xe buýt", "tàu", "sân bay"]),
    Entry("business", ["dịch vụ", "công ty", "hóa đơn", "thanh toán", "đặt chỗ", "danh mục"])
  ]

  const AppDe: seq<Entry> := [
    Entry("food", ["essen", "restaurant", "speisekarte", "lieferung", "bestellen"]),
    Entry("real_estate", ["mieten", "wohnung", "haus", "immobilie"]),
    Entry("transportation", ["taxi", "bus", "zug", "flughafen"]),
    Entry("business", ["service", "firma", "rechnung", "zahlung", "buchung", "kategorien"])
  ]

  const AppKo: seq<Entry> := [
    Entry("food", ["음식", "먹다", "식당", "메뉴", "배달", "주문"]),
    Entry("real_estate", ["임대", "아파트", "집", "부동산"]),
    Entry("transportation", ["택시", "버스", "기차", "공항"]),
    Entry("business", ["서비스", "회사", "청구서", "결제", "예약", "카테고리"])
  ]

  /** `LEX.get(lang, LEX['en'])`. */
  function AppLexFor(lang: string): seq<Entry> {
    if lang == "ru" then AppRu
    else if lang == "vi" then AppVi
    else if lang == "de" then AppDe
    else if lang == "ko" then AppKo
    else AppEn
  }

  /** `(text or '').lower()`. */
  function LoweredText(text: Option<string>): string {
    LowerStr(if text.Some? then text.value else "")
  }

  /** `sum(1 for w in words if w in t)`. */
  function SubstringHits(t: string, words: seq<string>): (n: nat)
    ensures n <= |words|
  {
    if words == [] then 0 else (if Has(t, words[0]) then 1 else 0) + SubstringHits(t, words[1..])
  }

  /** No hit means that none of the words occurs in the text. */
  lemma {:induction false} SubstringHitsZero(t: string, words: seq<string>)
    ensures SubstringHits(t, words) == 0 <==> forall k :: 0 <= k < |words| ==> !Contains(t, words[k])
  {
    if words != [] {
      SubstringHitsZero(t, words[1..]);
      assert forall k :: 1 <= k < |words| ==> words[1..][k - 1] == words[k];
    }
  }

  /** `min(0.5 + 0.1 * hits, 0.95)`. */
  function SubstringConfidence(hits: nat): (c: real)
    ensures hits >= 1 ==> 0.6 <= c <= 0.95
  {
    if 0.5 + 0.1 * hits as real <= 0.95 then 0.5 + 0.1 * hits as real else 0.95
  }

  /** The score one domain reaches on `t`: 0 without a hit. */
  function DomainScore(t: string, e: Entry): (c: real)
    ensures c == 0.0 <==> SubstringHits(t, e.words) == 0
    ensures 0.0 <= c <= 0.95
  {
    var h := SubstringHits(t, e.words);
    if h > 0 then SubstringConfidence(h) else 0.0
  }

  /** Each domain with its score. */
  function DomainScores(t: string, bag: seq<Entry>): (s: seq<(string, real)>)
    ensures |s| == |bag|
    ensures forall j :: 0 <= j < |bag| ==> s[j] == (bag[j].intent, DomainScore(t, bag[j]))
  {
    seq(|bag|, j requires 0 <= j < |bag| => (bag[j].intent, DomainScore(t, bag[j])))
  }

  /** `match_rules(text, lang)` on the lexicon `bag`: the domain and score the
      loop keeps, and the slots, always empty. */
  method MatchRulesIn(text: Option<string>, bag: seq<Entry>) returns (best: string, conf: real, slots: map<string, Json>)
    ensures (best, conf) == BestOf(DomainScores(LoweredText(text), bag), |bag|)
    ensures slots == map[]
  {
    var t := LoweredText(text);
    best, conf := "unknown", 0.0;
    var i := 0;
    while i < |bag|
      invariant 0 <= i <= |bag|
      invariant (best, conf) == BestOf(DomainScores(t, bag), i)
      invariant conf >= 0.0
    {
      ghost var scores := DomainScores(t, bag);
      assert scores[i] == (bag[i].intent, DomainScore(t, bag[i]));
      var hits := SubstringHits(t, bag[i].words);
      if hits > 0 {
        var c := SubstringConfidence(hits);
        if c > conf {
          best, conf := bag[i].intent, c;
        }
      }
      i := i + 1;
    }
    slots := map[];
  }

  /** `match_rules(text, lang)`. */
  method MatchRules(text: Option<string>, lang: string) returns (best: string, conf: real, slots: map<string, Json>)
    ensures (best, conf) == BestOf(DomainScores(LoweredText(text), AppLexFor(lang)), |AppLexFor(lang)|)
    ensures slots == map[]
  {
    best, conf, slots := MatchRulesIn(text, AppLexFor(lang));
  }

  /** The domain chosen is the first with the greatest score, every score being
      min(0.5 + 0.1 * hits, 0.95) over the words found as substrings; no hit at
      all gives "unknown" at 0.0. */
  lemma SubstringVerdict(t: string, bag: seq<Entry>)
    ensures var b := BestOf(DomainScores(t, bag), |bag|);
      && (forall j :: 0 <= j < |bag| ==> DomainScore(t, bag[j]) <= b.1)
      && (b.1 == 0.0 <==> forall j, k :: 0 <= j < |bag| && 0 <= k < |bag[j].words| ==> !Contains(t, bag[j].words[k]))
      && (b.1 == 0.0 ==> b.0 == "unknown")
      && (b.1 > 0.0 ==>
            (0.6 <= b.1 <= 0.95
             && exists k :: (0 <= k < |bag| && bag[k].intent == b.0 && DomainScore(t, bag[k]) == b.1
                             && forall j :: 0 <= j < k ==> DomainScore(t, bag[j]) < b.1)))
  {
    var scores := DomainScores(t, bag);
    BestIsFirstMaximum(scores, |bag|);
    forall j | 0 <= j < |bag| {
      SubstringHitsZero(t, bag[j].words);
    }
  }

  /** A missing text reads as the empty one, and a language without a lexicon
      of its own scores with the English lexicon. */
  lemma MissingTextAndLanguage(lang: string)
    requires lang !in {"ru", "vi", "de", "ko"}
    ensures LoweredText(None) == LoweredText(Some(""))
    ensures AppLexFor(lang) == AppEn
  {
  }
}
