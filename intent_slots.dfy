/** Slot refinement (intent/slots.py): the slots the rules or the LLM produced
    are copied and then completed, one pattern after another, from the
    lowercased message. */
module IntentSlots {
  import opened PyText
  import opened PyRegex
  import opened JsonValue
  import opened Oracles
  import opened IntentPatterns
  import opened SlotLexicon
  import opened SlotPatterns

  /** `dict(base_slots or {})`: a falsy value gives an empty dictionary and
      a dictionary is copied; a list is read as key/value pairs (see
      `DictOfPairs`); a non-empty string raises on its first one-character
      element and a number or True is not iterable. */
  function CopyOf(base: Json): (r: Outcome<map<string, Json>>)
    ensures !Truthy(base) ==> r == Ok(map[])
    ensures base.JObj? ==> r == Ok(base.o)
    ensures Truthy(base) && !base.JObj? && !base.JArr? ==> r.Raises?
  {
    if !Truthy(base) then Ok(map[])
    else
      match base
      case JObj(o) => Ok(o)
      case JArr(a) => DictOfPairs(a, |a|)
      case JStr(_) => Raises(WrongLength(0, 1))
      case _ => Raises("'" + TypeName(base) + "' object is not iterable")
  }

  /** The ValueError of `dict()` on an element of the wrong length. */
  function WrongLength(i: nat, n: nat): string {
    "dictionary update sequence element #" + NatToString(i) + " has length " + NatToString(n) + "; 2 is required"
  }

  /** Element `i` of the list given to `dict()` as a key and a value: a list
      of two values whose first is a string, or a string of two characters.
      A number, a bool or None is no sequence; any other length is a
      ValueError; a list or a dictionary as the key is unhashable. A key of
      another hashable type, and a dictionary of two keys (whose order the
      model does not keep), are reported as errors (see "Left out"). */
  function PairOf(e: Json, i: nat): (r: Outcome<(string, Json)>)
    ensures r.Ok? ==>
      || (e.JArr? && |e.a| == 2 && e.a[0] == JStr(r.value.0) && e.a[1] == r.value.1)
      || (e.JStr? && |e.s| == 2 && e.s == r.value.0 + [e.s[1]] && r.value.1 == JStr([e.s[1]]))
    ensures e.JArr? && |e.a| == 2 && e.a[0].JStr? ==> r.Ok?
    ensures e.JStr? && |e.s| == 2 ==> r.Ok?
  {
    match e
    case JArr(p) =>
      if |p| != 2 then Raises(WrongLength(i, |p|))
      else if p[0].JStr? then Ok((p[0].s, p[1]))
      else if p[0].JArr? || p[0].JObj? then Raises("unhashable type: '" + TypeName(p[0]) + "'")
      else Raises("dictionary key of type '" + TypeName(p[0]) + "'")
    case JStr(s) =>
      if |s| != 2 then Raises(WrongLength(i, |s|)) else Ok(([s[0]], JStr([s[1]])))
    case JObj(o) =>
      if |o| != 2 then Raises(WrongLength(i, |o|)) else Raises("dictionary key order")
    case _ => Raises("cannot convert dictionary update sequence element #" + NatToString(i) + " to a sequence")
  }

  /** `dict()` of the first `n` elements of a list: the pairs are stored one
      after another, so a later pair overwrites an earlier key, and the
      first element that is no pair raises. */
  function DictOfPairs(a: seq<Json>, n: nat): Outcome<map<string, Json>>
    requires n <= |a|
  {
    if n == 0 then Ok(map[])
    else
      match DictOfPairs(a, n - 1)
      case Raises(e) => Raises(e)
      case Ok(d) =>
        match PairOf(a[n - 1], n - 1)
        case Raises(e) => Raises(e)
        case Ok(kv) => Ok(d[kv.0 := kv.1])
  }

  /** `dict(list)` succeeds exactly when every element is a pair; otherwise
      it raises the error of the first element that is no pair. */
  lemma {:induction false} DictOfPairsRaises(a: seq<Json>, n: nat)
    requires n <= |a|
    ensures DictOfPairs(a, n).Ok? <==> forall i :: 0 <= i < n ==> PairOf(a[i], i).Ok?
    ensures DictOfPairs(a, n).Raises? ==>
      exists i :: 0 <= i < n && PairOf(a[i], i).Raises? && DictOfPairs(a, n).error == PairOf(a[i], i).error
        && forall j :: 0 <= j < i ==> PairOf(a[j], j).Ok?
    decreases n
  {
    if n > 0 {
      DictOfPairsRaises(a, n - 1);
      var p := PairOf(a[n - 1], n - 1);
      if DictOfPairs(a, n - 1).Ok? && p.Raises? {
        assert DictOfPairs(a, n) == Raises(p.error);
      }
    }
  }

  /** The pairs of the first `n` elements, when every one is a pair. */
  function PairsOf(a: seq<Json>, n: nat): (ps: seq<(string, Json)>)
    requires n <= |a| && forall i :: 0 <= i < n ==> PairOf(a[i], i).Ok?
    ensures |ps| == n && forall i :: 0 <= i < n ==> ps[i] == PairOf(a[i], i).value
  {
    seq(n, i requires 0 <= i < n => PairOf(a[i], i).value)
  }

  /** `d[k] = v` for the pairs in order. */
  function Store(ps: seq<(string, Json)>): map<string, Json> {
    if ps == [] then map[] else Store(ps[..|ps| - 1])[ps[|ps| - 1].0 := ps[|ps| - 1].1]
  }

  /** Storing pairs in order gives a dictionary of exactly their keys. */
  lemma {:induction false} StoreKeys(ps: seq<(string, Json)>)
    ensures forall k :: k in Store(ps) <==> exists i :: 0 <= i < |ps| && ps[i].0 == k
  {
    if ps != [] {
      var n := |ps| - 1;
      var p := ps[..n];
      StoreKeys(p);
      forall k ensures k in Store(ps) <==> exists i :: 0 <= i < |ps| && ps[i].0 == k {
        if k in Store(p) {
          var i :| 0 <= i < n && p[i].0 == k;
          assert ps[i].0 == k;
        }
        if exists i :: 0 <= i < |ps| && ps[i].0 == k {
          var i :| 0 <= i < |ps| && ps[i].0 == k;
          if i < n {
            assert p[i].0 == k;
          }
        }
      }
    }
  }

  /** Each key holds the value of its last pair. */
  lemma {:induction false} StoreLastWins(ps: seq<(string, Json)>, i: nat)
    requires i < |ps| && forall j :: i < j < |ps| ==> ps[j].0 != ps[i].0
    ensures ps[i].0 in Store(ps) && Store(ps)[ps[i].0] == ps[i].1
  {
    var n := |ps| - 1;
    if i < n {
      var p := ps[..n];
      assert p[i] == ps[i];
      assert forall j :: i < j < |p| ==> p[j] == ps[j];
      StoreLastWins(p, i);
    }
  }

  /** A `dict()` of a list that succeeds stores the elements' pairs in
      order. */
  lemma {:induction false} DictOfPairsMeaning(a: seq<Json>, n: nat)
    requires n <= |a| && DictOfPairs(a, n).Ok?
    ensures forall i :: 0 <= i < n ==> PairOf(a[i], i).Ok?
    ensures DictOfPairs(a, n).value == Store(PairsOf(a, n))
    decreases n
  {
    if n > 0 {
      DictOfPairsMeaning(a, n - 1);
      var ps := PairsOf(a, n);
      assert ps[..n - 1] == PairsOf(a, n - 1);
    }
  }

  /** A value that `TIME_PATTERNS.get(lang, ...)` can look up, and the
      language the patterns are then chosen for: a list or a dictionary is
      unhashable; any value other than a string selects English. */
  function PatternLang(lang: Json): (r: Outcome<string>)
    ensures lang.JStr? ==> r == Ok(lang.s)
    ensures lang.JArr? || lang.JObj? <==> r.Raises?
    ensures r.Raises? ==> r.error == "unhashable type: '" + TypeName(lang) + "'"
  {
    match lang
    case JStr(s) => Ok(s)
    case JArr(_) => Raises("unhashable type: 'list'")
    case JObj(_) => Raises("unhashable type: 'dict'")
    case _ => Ok("en")
  }

  /** What the patterns find in the lowercased text: the time, the party-size
      group, the place, the term, and the cuisine or property type the intent
      asks for. */
  datatype Hits = Hits(time: Option<string>, group: Option<string>, location: Option<string>,
                       term: Option<string>, cuisine: Option<string>, property: Option<string>)

  /** The pattern searches of lines 19-50: every language but Russian uses the
      English time pattern; the cuisine is looked for only for food and the
      property type only for real estate. */
  function HitsOf(t: string, lang: string, intent: string): (h: Hits)
    ensures h.group.Some? ==> PeopleShape(h.group.value)
    ensures intent != "food" ==> h.cuisine == None
    ensures intent != "real_estate" ==> h.property == None
  {
    Hits(TimeMatch(t, lang == "ru"), PeopleGroup(t, SlotsNouns), LocationOf(t), TermOf(t),
         if intent == "food" then SearchAltText(t, Cuisines) else None,
         if intent == "real_estate" then SearchAltText(t, PropertyTypes) else None)
  }

  /** `slots[key] = value` when the pattern found a value. */
  function Put(slots: map<string, Json>, key: string, v: Option<string>): map<string, Json> {
    if v.Some? then slots[key := JStr(v.value)] else slots
  }

  /** Lines 23-32: the party size from the group, popped again when the group
      gives no count. */
  function PutPeople(slots: map<string, Json>, group: Option<string>): map<string, Json> {
    if group.None? then slots
    else if PeopleCount(group.value).Some? then slots["people" := JInt(PeopleCount(group.value).value)]
    else slots - {"people"}
  }

  /** The assignments of lines 21-50 in order, on the copied slots. */
  function Apply(h: Hits, slots: map<string, Json>): map<string, Json> {
    var s2 := PutPeople(Put(slots, "time", h.time), h.group);
    Put(Put(Put(Put(s2, "location", h.location), "term", h.term), "cuisine", h.cuisine), "property_type", h.property)
  }

  /** `refine_slots(text, lang, intent, base_slots)`. */
  function RefineSlotsResult(text: Json, lang: Json, intent: string, base: Json): Outcome<Json> {
    if !text.JStr? || text.s == [] then Ok(if Truthy(base) then base else JObj(map[]))
    else
      match CopyOf(base)
      case Raises(e) => Raises(e)
      case Ok(o) => RefinedCopy(text.s, lang, intent, o)
  }

  /** Lines 18-50 on the copy `o`: the time pattern is chosen by looking the
      language up, then the searches run on the lowercased text. */
  function RefinedCopy(text: string, lang: Json, intent: string, o: map<string, Json>): Outcome<Json> {
    match PatternLang(lang)
    case Raises(e) => Raises(e)
    case Ok(l) => Ok(JObj(Apply(HitsOf(LowerStr(text), l, intent), o)))
  }

  /** `refine_slots`: copy the base slots, run the searches, then assign or
      pop one key after another. The searches only read the text, so running
      them all before the assignments changes nothing. */
  method RefineSlots(text: Json, lang: Json, intent: string, base: Json) returns (r: Outcome<Json>)
    ensures r == RefineSlotsResult(text, lang, intent, base)
  {
    if !text.JStr? || text.s == [] {
      return Ok(if Truthy(base) then base else JObj(map[]));
    }
    var copy := CopyOf(base);
    if copy.Raises? {
      return Raises(copy.error);
    }
    r := RefineCopy(text.s, lang, intent, copy.value);
  }

  /** Lines 18-50: choose the time pattern, run the searches, assign. */
  method RefineCopy(text: string, lang: Json, intent: string, o: map<string, Json>) returns (r: Outcome<Json>)
    ensures r == RefinedCopy(text, lang, intent, o)
  {
    var l := PatternLang(lang);
    if l.Raises? {
      return Raises(l.error);
    }
    var h := HitsOf(LowerStr(text), l.value, intent);
    var slots := AssignSlots(h, o);
    return Ok(JObj(slots));
  }

  /** Lines 21-50: the assignments to the copied dictionary, in order. */
  method AssignSlots(h: Hits, o: map<string, Json>) returns (slots: map<string, Json>)
    ensures slots == Apply(h, o)
  {
    slots := o;
    if h.time.Some? {
      slots := slots["time" := JStr(h.time.value)];
    }
    assert slots == Put(o, "time", h.time);
    ghost var s1 := slots;
    if h.group.Some? {
      var count := PeopleCount(h.group.value);
      if count.Some? {
        slots := slots["people" := JInt(count.value)];
      } else {
        slots := slots - {"people"};
      }
    }
    assert slots == PutPeople(s1, h.group);
    ghost var s2 := slots;
    if h.location.Some? {
      slots := slots["location" := JStr(h.location.value)];
    }
    assert slots == Put(s2, "location", h.location);
    ghost var s3 := slots;
    if h.term.Some? {
      slots := slots["term" := JStr(h.term.value)];
    }
    assert slots == Put(s3, "term", h.term);
    ghost var s4 := slots;
    if h.cuisine.Some? {
      slots := slots["cuisine" := JStr(h.cuisine.value)];
    }
    assert slots == Put(s4, "cuisine", h.cuisine);
    ghost var s5 := slots;
    if h.property.Some? {
      slots := slots["property_type" := JStr(h.property.value)];
    }
    assert slots == Put(s5, "property_type", h.property);
  }

  // ------------------------------------------------------------- properties

  /** The value the patterns found for `key`, if any. */
  function FoundValue(h: Hits, key: string): Option<Json> {
    if key == "time" && h.time.Some? then Some(JStr(h.time.value))
    else if key == "people" && h.group.Some? && PeopleCount(h.group.value).Some? then Some(JInt(PeopleCount(h.group.value).value))
    else if key == "location" && h.location.Some? then Some(JStr(h.location.value))
    else if key == "term" && h.term.Some? then Some(JStr(h.term.value))
    else if key == "cuisine" && h.cuisine.Some? then Some(JStr(h.cuisine.value))
    else if key == "property_type" && h.property.Some? then Some(JStr(h.property.value))
    else None
  }

  /** `r` is `o` updated with what the patterns found: a key with a found
      value holds it, every other key is kept or absent as in `o`. */
  ghost predicate UpdatedWith(r: map<string, Json>, o: map<string, Json>, h: Hits) {
    forall key ::
      (FoundValue(h, key).Some? ==> key in r && r[key] == FoundValue(h, key).value)
      && (FoundValue(h, key).None? ==> (key in r <==> key in o) && (key in o ==> r[key] == o[key]))
  }

  /** The refined slots are the copied slots updated with what the patterns
      found: no key is dropped, and a key is overwritten only when its pattern
      matched. */
  lemma RefinedIsCopyUpdated(t: string, lang: string, intent: string, o: map<string, Json>)
    ensures UpdatedWith(Apply(HitsOf(t, lang, intent), o), o, HitsOf(t, lang, intent))
  {
    var h := HitsOf(t, lang, intent);
    if h.group.Some? {
      PeopleCountOfGroup(h.group.value);
    }
    ApplyIsUpdate(h, o);
  }

  lemma ApplyIsUpdate(h: Hits, o: map<string, Json>)
    requires h.group.Some? ==> PeopleCount(h.group.value).Some?
    ensures UpdatedWith(Apply(h, o), o, h)
  {
  }

  /** Empty or non-string text returns the base slots themselves (or a fresh
      empty dictionary); otherwise the copy's error comes first, then a list
      or dictionary language raises, and else a dictionary of base slots
      comes back updated with what the patterns found for the language, and
      is never touched in place. */
  lemma RefineSlotsKeepsBase(text: Json, lang: Json, intent: string, base: Json)
    ensures (!text.JStr? || text.s == []) && Truthy(base) ==> RefineSlotsResult(text, lang, intent, base) == Ok(base)
    ensures (!text.JStr? || text.s == []) && !Truthy(base) ==> RefineSlotsResult(text, lang, intent, base) == Ok(JObj(map[]))
    ensures text.JStr? && text.s != [] && CopyOf(base).Raises? ==> RefineSlotsResult(text, lang, intent, base) == Raises(CopyOf(base).error)
    ensures text.JStr? && text.s != [] && CopyOf(base).Ok? && (lang.JArr? || lang.JObj?) ==>
      RefineSlotsResult(text, lang, intent, base) == Raises("unhashable type: '" + TypeName(lang) + "'")
    ensures (!Truthy(base) || base.JObj?) && !lang.JArr? && !lang.JObj? ==> RefineSlotsResult(text, lang, intent, base).Ok?
    ensures text.JStr? && text.s != [] && base.JObj? && lang.JStr? ==>
      var r := RefineSlotsResult(text, lang, intent, base).value;
      r.JObj? && UpdatedWith(r.o, base.o, HitsOf(LowerStr(text.s), lang.s, intent))
  {
    if text.JStr? && text.s != [] && base.JObj? && lang.JStr? {
      RefinedIsCopyUpdated(LowerStr(text.s), lang.s, intent, base.o);
    }
  }

  /** Every language but Russian finds the same slots as English. */
  lemma UnknownLanguageAsEnglish(t: string, lang: string, intent: string)
    requires lang != "ru"
    ensures HitsOf(t, lang, intent) == HitsOf(t, "en", intent)
  {
  }

  /** What each found slot looks like: a time of the language's shape; a party
      size of 1 to 10 from a number word or at most 999 from digits; a location
      without digits and without `. , ! ? ; :`; a cuisine only for food and a
      property type only for real estate, each one of the listed words. */
  lemma FoundSlotShapes(t: string, lang: string, intent: string)
    ensures var h := HitsOf(t, lang, intent);
      (h.time.Some? ==> TimeShape(h.time.value, TimeWords(lang == "ru"), lang != "ru"))
      && (FoundValue(h, "people").Some? ==>
            (FoundValue(h, "people").value.JInt? && 0 <= FoundValue(h, "people").value.i <= 999
             && (h.group.value in NumberWords ==> 1 <= FoundValue(h, "people").value.i <= 10)))
      && (h.group.Some? ==> FoundValue(h, "people").Some?)
      && (h.location.Some? ==> forall q :: 0 <= q < |h.location.value| ==>
            !IsDigit(h.location.value[q]) && !IsStop(h.location.value[q]))
      && (h.cuisine.Some? ==> intent == "food" && h.cuisine.value in Cuisines)
      && (h.property.Some? ==> intent == "real_estate" && h.property.value in PropertyTypes)
  {
    var h := HitsOf(t, lang, intent);
    if h.group.Some? {
      PeopleCountOfGroup(h.group.value);
    }
  }

  /** The term is "short-term" exactly when the first term phrase of the text
      is one of the short ones, and "long-term" otherwise. */
  lemma TermSlot(s: string, lang: string, intent: string)
    requires HitsOf(LowerStr(s), lang, intent).term.Some?
    ensures var v := HitsOf(LowerStr(s), lang, intent).term.value;
      (v == "short-term" || v == "long-term")
      && (v == "short-term" <==> SearchTerm(LowerStr(s), TermAlternatives).value.alt % 2 == 0)
  {
    TermIsShortIffShortAlternative(s);
  }
}
