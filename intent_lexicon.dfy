module IntentLexicon {
  /** One lexicon entry: an intent and its keywords. */
  datatype Entry = Entry(intent: string, words: seq<string>)

  const EnLex: seq<Entry> := [
    Entry("food", ["food", "eat", "restaurant", "menu", "delivery", "order", "meal", "dinner", "lunch", "breakfast", "cuisine"]),
    Entry("real_estate", ["rent", "apartment", "flat", "house", "lease", "real estate", "property", "accommodation", "room", "studio"]),
    Entry("transportation", ["taxi", "ride", "bus", "train", "airport", "uber", "lyft", "transport", "car", "vehicle"]),
    Entry("business", ["service", "company", "invoice", "payment", "booking", "categories", "business", "enterprise", "commercial"]),
    Entry("menu", ["menu", "help", "start", "what can you do", "options", "services"]),
    Entry("add_service", ["add service", "create service", "new service", "register service"])
  ]

  const RuLex: seq<Entry> := [
    Entry("food", ["еда", "поесть", "ресторан", "меню", "доставка", "заказать", "кухня", "ужин", "обед", "завтрак"]),
    Entry("real_estate", ["аренда", "квартира", "дом", "жильё", "снять", "недвижимость", "помещение", "комната"]),
    Entry("transportation", ["такси", "поездка", "автобус", "поезд", "аэропорт", "транспорт", "машина"]),
    Entry("business", ["услуга", "компания", "счёт", "оплата", "бронь", "категории", "бизнес", "предприятие"]),
    Entry("menu", ["меню", "помощь", "старт", "что ты умеешь", "опции", "сервисы"]),
    Entry("add_service", ["добавить услугу", "создать услугу", "новая услуга"])
  ]


  const SlashCommands: seq<string> := ["menu", "start", "help"]
  const MenuOpenings: seq<string> := ["menu", "categories", "help", "what can you do"]
  const AddServicePhrases: seq<string> :=
    ["add service", "create service", "new service", "добавить услугу", "создать услугу", "новая услуга"]

  /** A pattern of the LLM-reply fallback parser (intent/llm.py): a whole-word
      alternation `\b(w0|w1|...)\b`, or `\b(v0|v1|...)\s+service\b`. */
  datatype FallbackPattern = Words(ws: seq<string>) | ServiceAfter(verbs: seq<string>)

  /** The fallback patterns with their intents, in declaration order. */
  const FallbackPatterns: seq<(string, FallbackPattern)> := [
    ("food", Words(["food", "restaurant", "meal", "eat", "dining"])),
    ("real_estate", Words(["real estate", "rent", "apartment", "house", "property"])),
    ("transportation", Words(["transport", "taxi", "ride", "bus", "car"])),
    ("business", Words(["business", "service", "company", "enterprise"])),
    ("menu", Words(["menu", "help", "start", "categories"])),
    ("add_service", ServiceAfter(["add", "create", "new"]))
  ]
}
