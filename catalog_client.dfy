/** The synchronous catalogue client (app/clients/catalog_api.py): it defers
    to a synchronous hook of the backend client when one exists, fails loudly
    in strict mode when it does not, and otherwise serves a fixed
    development catalogue. Whether a hook exists is a parameter
    (`Collaborator.Missing` when the backend module has no such function). */
module CatalogClient {
  import opened PyText
  import opened JsonValue
  import opened Oracles
  import opened PyOrder

  /** `CATALOG_STRICT` read from the environment: strict unless it is "0". */
  function Strict(env: Option<string>): (b: bool)
    ensures env.None? ==> b
    ensures !b <==> env == Some("0")
  {
    match env
    case None => true
    case Some(v) => v != "0"
  }

  /** `_norm_category_key(c)`: a dictionary gives its "key", else its
      "name", else "" (whatever type they hold, unstripped); anything else
      gives `str(c or "")` stripped. `show` is `str()` on a float, a list or
      a dictionary nested elsewhere, whose text is not part of this model. */
  function NormCategoryKey(c: Json, show: Json -> string): (r: Json)
    ensures c.JObj? ==> r == Or(Or(Get(c.o, "key"), Get(c.o, "name")), JStr(""))
    ensures !c.JObj? ==> r.JStr? && (r.s == [] || (!IsSpace(r.s[0]) && !IsSpace(r.s[|r.s| - 1])))
    ensures !c.JObj? && !Truthy(c) ==> r == JStr("")
    ensures c.JStr? ==> r == JStr(Strip(c.s))
  {
    match c
    case JObj(o) => Or(Or(Get(o, "key"), Get(o, "name")), JStr(""))
    case _ => JStr(Strip(StrOf(c, show)))
  }

  /** `str(c or "")` on a value that is not a dictionary. */
  function StrOf(c: Json, show: Json -> string): string {
    if !Truthy(c) then ""
    else match c
      case JStr(s) => s
      case JBool(_) => "True"
      case JInt(i) => IntToString(i)
      case _ => show(c)
  }

  /** Normalising a key twice changes nothing more, for every value that is
      not a dictionary. */
  lemma NormCategoryKeyIdempotent(c: Json, show: Json -> string)
    requires !c.JObj?
    ensures NormCategoryKey(NormCategoryKey(c, show), show) == NormCategoryKey(c, show)
  {
    var r := NormCategoryKey(c, show);
    StripOfStripped(r.s);
  }

  /** The keys of the hook's categories. */
  function KeysOf(cats: seq<Json>, show: Json -> string): (keys: seq<Json>)
    ensures |keys| == |cats| && forall i :: 0 <= i < |cats| ==> keys[i] == NormCategoryKey(cats[i], show)
  {
    seq(|cats|, i requires 0 <= i < |cats| => NormCategoryKey(cats[i], show))
  }

  const MissingCategoriesHook := "RuntimeError: backend_api.get_non_empty_categories() is missing. Implement it."
  const MissingServicesHook := "RuntimeError: backend_api.list_services_by_category() is missing. Implement it."

  /** `CatalogAPI.get_non_empty_categories()`: with the hook, the sorted set
      of the truthy keys of what it returns; without it, an error in strict
      mode and the development pair otherwise. The hook's answer is taken as
      a list. */
  function NonEmptyCategories(hook: Collaborator<seq<Json>>, strict: bool, show: Json -> string): Outcome<seq<Json>> {
    match hook
    case Missing => if strict then Raises(MissingCategoriesHook) else Ok([JStr("food"), JStr("transport")])
    case Fails(e) => Raises(e)
    case Answers(cats) => SortedTruthy(KeysOf(cats, show))
  }

  /** `y` is the key of a category and no earlier category's truthy key
      equals it. */
  predicate FirstKey(cats: seq<Json>, show: Json -> string, y: Json) {
    exists i :: 0 <= i < |cats| && NormCategoryKey(cats[i], show) == y &&
      (forall j :: 0 <= j < i && Truthy(NormCategoryKey(cats[j], show)) ==> !PyEq(NormCategoryKey(cats[j], show), y))
  }

  /** With the hook, the call raises TypeError exactly when a truthy key is
      a list or a dictionary or when the truthy keys mix strings and
      numbers; otherwise the categories are ascending, each is the key of a
      category that no earlier category's key equals, and every truthy key
      has an equal one among them. */
  lemma NonEmptyCategoriesWithHook(cats: seq<Json>, strict: bool, show: Json -> string)
    ensures NonEmptyCategories(Answers(cats), strict, show).Raises? <==>
      (exists i :: 0 <= i < |cats| && Truthy(NormCategoryKey(cats[i], show)) && !Hashable(NormCategoryKey(cats[i], show))) ||
      ((exists i :: 0 <= i < |cats| && Truthy(NormCategoryKey(cats[i], show)) && NormCategoryKey(cats[i], show).JStr?) &&
       (exists j :: 0 <= j < |cats| && Truthy(NormCategoryKey(cats[j], show)) && IsNumber(NormCategoryKey(cats[j], show))))
    ensures NonEmptyCategories(Answers(cats), strict, show).Raises? ==> NonEmptyCategories(Answers(cats), strict, show) == Raises("TypeError")
    ensures NonEmptyCategories(Answers(cats), strict, show).Ok? ==>
      var r := NonEmptyCategories(Answers(cats), strict, show).value;
      && StrictlySorted(r)
      && (forall y :: y in r ==> Truthy(y) && FirstKey(cats, show, y))
      && (forall i :: 0 <= i < |cats| && Truthy(NormCategoryKey(cats[i], show)) ==> HasEqual(r, NormCategoryKey(cats[i], show)))
  {
    var keys := KeysOf(cats, show);
    SortedTruthyMeaning(keys);
    SortedTruthyRaises(keys);
    if NonEmptyCategories(Answers(cats), strict, show).Ok? {
      var r := NonEmptyCategories(Answers(cats), strict, show).value;
      forall y | y in r ensures FirstKey(cats, show, y) {
        assert FirstOf(keys, y);
      }
    }
  }

  /** The answer depends only on which categories the hook returns: the
      same categories in another order, or repeated, raise alike and
      otherwise give lists equal under Python's `==`. */
  lemma NonEmptyCategoriesOrderFree(cats: seq<Json>, other: seq<Json>, strict: bool, show: Json -> string)
    requires forall c :: c in cats <==> c in other
    ensures NonEmptyCategories(Answers(cats), strict, show).Raises? <==> NonEmptyCategories(Answers(other), strict, show).Raises?
    ensures NonEmptyCategories(Answers(cats), strict, show).Ok? ==>
      var a := NonEmptyCategories(Answers(cats), strict, show).value;
      var b := NonEmptyCategories(Answers(other), strict, show).value;
      |a| == |b| && forall i :: 0 <= i < |a| ==> PyEq(a[i], b[i])
  {
    var keys := KeysOf(cats, show);
    var others := KeysOf(other, show);
    forall y ensures y in keys <==> y in others {
      if y in keys {
        var i :| 0 <= i < |keys| && keys[i] == y;
        assert cats[i] in other;
        var j :| 0 <= j < |other| && other[j] == cats[i];
        assert others[j] == y;
      }
      if y in others {
        var j :| 0 <= j < |others| && others[j] == y;
        assert other[j] in cats;
        var i :| 0 <= i < |cats| && cats[i] == other[j];
        assert keys[i] == y;
      }
    }
    SortedTruthyOrderFree(keys, others);
  }

  /** Without the hook, strict mode raises and the development mode serves
      "food" and "transport". */
  lemma NonEmptyCategoriesWithoutHook(strict: bool, show: Json -> string)
    ensures strict ==> NonEmptyCategories(Missing, strict, show) == Raises(MissingCategoriesHook)
    ensures !strict ==> NonEmptyCategories(Missing, strict, show) == Ok([JStr("food"), JStr("transport")])
    ensures !strict ==> StrictlySorted(NonEmptyCategories(Missing, strict, show).value)
  {
    if !strict {
      assert StrLess("food", "transport") by {
        assert "food"[0] < "transport"[0];
      }
    }
  }

  /** One development service: name, description, and the optional price
      hint and promo code. */
  datatype DevService = DevService(name: string, description: string, priceHint: Option<string>, promo: Option<string>)

  /** The dictionary a development service is served as. */
  function DevJson(d: DevService): (r: Json)
    ensures r.JObj? && Get(r.o, "name") == JStr(d.name) && Get(r.o, "description") == JStr(d.description)
    ensures "price_hint" in r.o <==> d.priceHint.Some?
    ensures "promo_code" in r.o <==> d.promo.Some?
    ensures d.promo.Some? ==> r.o["promo_code"] == JStr(d.promo.value)
  {
    var base := map["name" := JStr(d.name), "description" := JStr(d.description)];
    var withHint := if d.priceHint.Some? then base["price_hint" := JStr(d.priceHint.value)] else base;
    JObj(if d.promo.Some? then withHint["promo_code" := JStr(d.promo.value)] else withHint)
  }

  function DevList(ds: seq<DevService>): (r: Json)
    ensures r.JArr? && |r.a| == |ds| && forall i :: 0 <= i < |ds| ==> r.a[i] == DevJson(ds[i])
  {
    JArr(seq(|ds|, i requires 0 <= i < |ds| => DevJson(ds[i])))
  }

  /** The development catalogue of "food". */
  function FoodServices(): seq<DevService> {
    [ DevService("Pizza Place", "Best slices. https://t.me/pizzaplace_bot", Some("$$"), Some("SLICE10")),
      DevService("Sushi Bar", "Fresh nigiri.", Some("$$$"), None),
      DevService("Burger Truck", "Smash burgers at the park.", None, None),
      DevService("Pasta Corner", "Homemade pasta daily.", None, None),
      DevService("Vegan Deli", "Plant-based goodies.", None, None),
      DevService("Curry House", "Spicy!", None, None) ]
  }

  /** The development catalogue of "transport". */
  function TransportServices(): seq<DevService> {
    [ DevService("City Taxi", "Call a cab. https://example.com/taxi", None, None),
      DevService("Bike Rentals", "Hourly rentals near you.", None, None) ]
  }

  /** `CatalogAPI.list_services_by_category(category_key)`: the hook's answer
      as it is; without the hook an error in strict mode, otherwise the
      development services of the exact key "food" or "transport", and none
      for any other key. */
  function ListServicesByCategory(key: string, hook: Collaborator<Json>, strict: bool): Outcome<Json> {
    match hook
    case Answers(a) => Ok(a)
    case Fails(e) => Raises(e)
    case Missing =>
      if strict then Raises(MissingServicesHook)
      else if key == "food" then Ok(DevList(FoodServices()))
      else if key == "transport" then Ok(DevList(TransportServices()))
      else Ok(JArr([]))
  }

  /** The three outcomes without the hook, and the answer passed through
      unchanged with it. */
  lemma ListServicesOutcomes(key: string, hook: Collaborator<Json>, strict: bool)
    ensures hook.Answers? ==> ListServicesByCategory(key, hook, strict) == Ok(hook.answer)
    ensures hook.Missing? && strict ==> ListServicesByCategory(key, hook, strict) == Raises(MissingServicesHook)
    ensures hook.Missing? && !strict ==>
      && ListServicesByCategory(key, hook, strict).Ok?
      && ListServicesByCategory(key, hook, strict).value.JArr?
      && |ListServicesByCategory(key, hook, strict).value.a| == (if key == "food" then 6 else if key == "transport" then 2 else 0)
  {
  }

  /** Every development service is a dictionary with a name and a
      description, and only the first food entry carries a promo code. */
  lemma DevServicesShape(key: string, show: Json -> string)
    requires ListServicesByCategory(key, Missing, false) != Ok(JArr([]))
    ensures var r := ListServicesByCategory(key, Missing, false).value;
      && r.JArr?
      && (forall s :: s in r.a ==> s.JObj? && Get(s.o, "name").JStr? && Get(s.o, "description").JStr?)
      && (forall i :: 0 <= i < |r.a| ==> ("promo_code" in r.a[i].o <==> key == "food" && i == 0))
  {
    var ds := if key == "food" then FoodServices() else TransportServices();
    var r := DevList(ds);
    forall s | s in r.a ensures s.JObj? && Get(s.o, "name").JStr? && Get(s.o, "description").JStr? {
      var i :| 0 <= i < |r.a| && r.a[i] == s;
    }
  }

  /** In development mode the two halves agree: a category is offered
      exactly when it has services. */
  lemma DevCatalogueConsistent(key: string, show: Json -> string)
    ensures JStr(key) in NonEmptyCategories(Missing, false, show).value <==>
      ListServicesByCategory(key, Missing, false).value != JArr([])
  {
    if key == "food" {
      assert |DevList(FoodServices()).a| == 6;
    } else if key == "transport" {
      assert |DevList(TransportServices()).a| == 2;
    } else {
      assert JStr(key) !in [JStr("food"), JStr("transport")];
    }
  }
}
