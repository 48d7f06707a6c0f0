/** The word lists and term alternatives of the slot refiner's patterns
    (intent/slots.py), kept apart from the matchers that run them. */
module SlotLexicon {
  /** The locative words, in the order the alternation tries them. */
  const LocationWords: seq<string> := ["in", "at", "в", "bei", "nach", "에서"]

  /** One element of a term alternative: a literal, the greedy `\s*`, or the
      optional hyphen `-?`. */
  datatype Piece = Lit(s: string) | Spaces | OptHyphen

  /** A term alternative: its elements in order. */
  datatype Alt = Done | Then(first: Piece, rest: Alt)

  const ShortTerm: Alt := Then(Lit("short"), Then(Spaces, Then(OptHyphen, Then(Lit("term"), Done))))
  const LongTerm: Alt := Then(Lit("long"), Then(Spaces, Then(OptHyphen, Then(Lit("term"), Done))))
  const ShortTermRu: Alt := Then(Lit("на"), Then(Spaces, Then(Lit("короткий"), Then(Spaces, Then(Lit("срок"), Done)))))
  const LongTermRu: Alt := Then(Lit("долгосрочно"), Done)
  const ShortTermVi: Alt := Then(Lit("ngắn"), Then(Spaces, Then(Lit("hạn"), Done)))
  const LongTermVi: Alt := Then(Lit("dài"), Then(Spaces, Then(Lit("hạn"), Done)))
  const ShortTermDe: Alt := Then(Lit("kurzfristig"), Done)
  const LongTermDe: Alt := Then(Lit("langfristig"), Done)

  /** The alternatives of the term pattern, in order: short and long
      alternate. Backtracking never finds a second way through any of them:
      every element after `\s*` begins with a character that is not
      whitespace, and the element after `-?` begins with a letter, so the
      greedy choice is the only one that can succeed. */
  const TermAlternatives: seq<Alt> :=
    [ShortTerm, LongTerm, ShortTermRu, LongTermRu, ShortTermVi, LongTermVi, ShortTermDe, LongTermDe]

  /** The words whose presence makes a term short. */
  const ShortMarks: seq<string> := ["short", "корот", "ngắn", "kurz"]

  /** The cuisines and property types the refiner looks for, in the order the
      alternations try them. */
  const Cuisines: seq<string> := ["italian", "chinese", "mexican", "japanese", "vegan", "vegetarian", "gluten-free"]
  const PropertyTypes: seq<string> := ["apartment", "house", "studio", "condo", "loft", "penthouse"]
}
