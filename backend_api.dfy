/** The catalogue backend client (app/clients/backend_api.py): the JWT
    helper's base64url encoding, the normalisers of the backend's answers,
    the request payloads of `create_service` and `create_booking`, and the
    client-side filtering and sorting behind the info-only agent. HTTP calls
    are parameters: each fetch is given as the decoded JSON it returned, or
    the exception it raised. */
module BackendApi {
  import opened PyText
  import opened JsonValue
  import opened Oracles
  import opened PyOrder

  // ------------------------------------------------------------- _b64url

  /** A character of the URL- and filename-safe alphabet of section 5 of
      RFC 4648: A-Z, a-z, 0-9, '-' and '_'. */
  predicate UrlChar(c: char) {
    IsAsciiUpper(c) || IsAsciiLower(c) || IsDigit(c) || c == '-' || c == '_'
  }

  /** The alphabet's character for the 6-bit value `v`. */
  function Sextet(v: int): (c: char)
    requires 0 <= v < 64
    ensures UrlChar(c)
  {
    if v < 26 then ('A' as int + v) as char
    else if v < 52 then ('a' as int + v - 26) as char
    else if v < 62 then ('0' as int + v - 52) as char
    else if v == 62 then '-'
    else '_'
  }

  /** The 6-bit value of an alphabet character. */
  function SextetValue(c: char): (v: int)
    requires UrlChar(c)
    ensures 0 <= v < 64 && Sextet(v) == c
  {
    if IsAsciiUpper(c) then c as int - 'A' as int
    else if IsAsciiLower(c) then c as int - 'a' as int + 26
    else if IsDigit(c) then c as int - '0' as int + 52
    else if c == '-' then 62
    else 63
  }

  /** `base64.urlsafe_b64encode(data)`: each 3 bytes become 4 characters, and
      a final group of 1 or 2 bytes becomes 2 or 3 characters padded with '='
      to 4. */
  function PaddedB64Url(data: seq<Byte>): string
    decreases |data|
  {
    if |data| == 0 then []
    else if |data| == 1 then
      var a := data[0] as int;
      [Sextet(a / 4), Sextet(a % 4 * 16), '=', '=']
    else if |data| == 2 then
      var a, b := data[0] as int, data[1] as int;
      [Sextet(a / 4), Sextet(a % 4 * 16 + b / 16), Sextet(b % 16 * 4), '=']
    else
      var a, b, c := data[0] as int, data[1] as int, data[2] as int;
      [Sextet(a / 4), Sextet(a % 4 * 16 + b / 16), Sextet(b % 16 * 4 + c / 64), Sextet(c % 64)]
      + PaddedB64Url(data[3..])
  }

  /** `.rstrip(b"=")`. */
  function TrimPadding(s: string): (r: string)
    ensures |r| <= |s| && r == s[..|r|]
    ensures r != [] ==> r[|r| - 1] != '='
    decreases |s|
  {
    if s != [] && s[|s| - 1] == '=' then TrimPadding(s[..|s| - 1]) else s
  }

  /** `_b64url(data)`. */
  function B64Url(data: seq<Byte>): string {
    TrimPadding(PaddedB64Url(data))
  }

  /** The encoding without padding, group by group. */
  function Unpadded(data: seq<Byte>): (r: string)
    ensures forall i :: 0 <= i < |r| ==> UrlChar(r[i])
    ensures |r| == (4 * |data| + 2) / 3
    decreases |data|
  {
    if |data| == 0 then []
    else if |data| == 1 then
      var a := data[0] as int;
      [Sextet(a / 4), Sextet(a % 4 * 16)]
    else if |data| == 2 then
      var a, b := data[0] as int, data[1] as int;
      [Sextet(a / 4), Sextet(a % 4 * 16 + b / 16), Sextet(b % 16 * 4)]
    else
      var a, b, c := data[0] as int, data[1] as int, data[2] as int;
      [Sextet(a / 4), Sextet(a % 4 * 16 + b / 16), Sextet(b % 16 * 4 + c / 64), Sextet(c % 64)]
      + Unpadded(data[3..])
  }

  /** The number of '=' signs that fill the last group of `n` bytes. */
  function PadCount(n: nat): (k: nat)
    ensures k < 3 && (n + k) % 3 == 0
  {
    (3 - n % 3) % 3
  }

  lemma PadCountStep(n: nat)
    ensures PadCount(n + 3) == PadCount(n)
  {
    assert (n + 3) % 3 == n % 3;
  }

  /** The padded encoding is the unpadded one followed by the '=' signs that
      fill its last group. */
  lemma {:induction false} PaddedIsUnpaddedPlusPad(data: seq<Byte>)
    ensures PaddedB64Url(data) == Unpadded(data) + seq(PadCount(|data|), _ => '=')
    decreases |data|
  {
    if |data| >= 3 {
      PaddedIsUnpaddedPlusPad(data[3..]);
      var a, b, c := data[0] as int, data[1] as int, data[2] as int;
      var group := [Sextet(a / 4), Sextet(a % 4 * 16 + b / 16), Sextet(b % 16 * 4 + c / 64), Sextet(c % 64)];
      var pad := seq(PadCount(|data|), _ => '=');
      PadCountStep(|data[3..]|);
      assert PaddedB64Url(data) == group + (Unpadded(data[3..]) + pad);
      assert Unpadded(data) == group + Unpadded(data[3..]);
    } else if |data| == 2 {
      PaddedPair(data);
    } else if |data| == 1 {
      PaddedByte(data);
    }
  }

  lemma PaddedPair(data: seq<Byte>)
    requires |data| == 2
    ensures PaddedB64Url(data) == Unpadded(data) + ['=']
  {
  }

  lemma PaddedByte(data: seq<Byte>)
    requires |data| == 1
    ensures PaddedB64Url(data) == Unpadded(data) + ['=', '=']
  {
  }

  lemma {:induction false} TrimPads(u: string, n: nat)
    requires u == [] || u[|u| - 1] != '='
    ensures TrimPadding(u + seq(n, _ => '=')) == u
    decreases n
  {
    if n > 0 {
      var s := u + seq(n, _ => '=');
      assert s[..|s| - 1] == u + seq(n - 1, _ => '=');
      TrimPads(u, n - 1);
    } else {
      assert u + seq(n, _ => '=') == u;
    }
  }

  /** `_b64url` writes only characters of the base64url alphabet (no '='
      padding) and exactly ceil(4n/3) of them. */
  lemma B64UrlShape(data: seq<Byte>)
    ensures B64Url(data) == Unpadded(data)
    ensures forall i :: 0 <= i < |B64Url(data)| ==> UrlChar(B64Url(data)[i])
    ensures |B64Url(data)| == (4 * |data| + 2) / 3
  {
    PaddedIsUnpaddedPlusPad(data);
    var u := Unpadded(data);
    if u != [] {
      assert UrlChar(u[|u| - 1]);
    }
    TrimPads(u, PadCount(|data|));
  }

  /** Decoding unpadded base64url text, the inverse of `_b64url`. */
  function B64UrlDecode(s: string): seq<Byte>
    requires forall i :: 0 <= i < |s| ==> UrlChar(s[i])
    decreases |s|
  {
    if |s| < 2 then []
    else if |s| == 2 then
      [(SextetValue(s[0]) * 4 + SextetValue(s[1]) / 16) as Byte]
    else if |s| == 3 then
      var v0, v1, v2 := SextetValue(s[0]), SextetValue(s[1]), SextetValue(s[2]);
      [(v0 * 4 + v1 / 16) as Byte, (v1 % 16 * 16 + v2 / 4) as Byte]
    else
      var v0, v1, v2, v3 := SextetValue(s[0]), SextetValue(s[1]), SextetValue(s[2]), SextetValue(s[3]);
      [(v0 * 4 + v1 / 16) as Byte, (v1 % 16 * 16 + v2 / 4) as Byte, (v2 % 4 * 64 + v3) as Byte]
      + B64UrlDecode(s[4..])
  }

  lemma SextetRoundTrip(v: int)
    requires 0 <= v < 64
    ensures SextetValue(Sextet(v)) == v
  {
  }

  /** One group of three bytes survives encoding and decoding. */
  lemma GroupRoundTrip(a: int, b: int, c: int)
    requires 0 <= a < 256 && 0 <= b < 256 && 0 <= c < 256
    ensures (a / 4) * 4 + (a % 4 * 16 + b / 16) / 16 == a
    ensures (a % 4 * 16 + b / 16) % 16 * 16 + (b % 16 * 4 + c / 64) / 4 == b
    ensures (b % 16 * 4 + c / 64) % 4 * 64 + c % 64 == c
  {
  }

  /** One group: the characters `_b64url` writes for up to three bytes decode
      to those bytes. */
  /** A final group of two bytes: its three characters decode to them. */
  lemma LastPairDecode(data: seq<Byte>)
    requires |data| == 2
    ensures B64UrlDecode(Unpadded(data)) == data
  {
    var a, b := data[0] as int, data[1] as int;
    assert Unpadded(data) == [Sextet(a / 4), Sextet(a % 4 * 16 + b / 16), Sextet(b % 16 * 4)];
    Decode2(a, b);
    assert data == [a as Byte, b as Byte];
  }

  /** A final single byte: its two characters decode to it. */
  lemma LastByteDecode(data: seq<Byte>)
    requires |data| == 1
    ensures B64UrlDecode(Unpadded(data)) == data
  {
    var a := data[0] as int;
    assert Unpadded(data) == [Sextet(a / 4), Sextet(a % 4 * 16)];
    Decode1(a);
    assert data == [a as Byte];
  }

  lemma Decode3(a: int, b: int, c: int)
    requires 0 <= a < 256 && 0 <= b < 256 && 0 <= c < 256
    ensures B64UrlDecode([Sextet(a / 4), Sextet(a % 4 * 16 + b / 16), Sextet(b % 16 * 4 + c / 64), Sextet(c % 64)])
      == [a as Byte, b as Byte, c as Byte]
  {
    GroupRoundTrip(a, b, c);
    SextetRoundTrip(a / 4);
    SextetRoundTrip(a % 4 * 16 + b / 16);
    SextetRoundTrip(b % 16 * 4 + c / 64);
    SextetRoundTrip(c % 64);
  }

  lemma Decode2(a: int, b: int)
    requires 0 <= a < 256 && 0 <= b < 256
    ensures B64UrlDecode([Sextet(a / 4), Sextet(a % 4 * 16 + b / 16), Sextet(b % 16 * 4)]) == [a as Byte, b as Byte]
  {
    GroupRoundTrip(a, b, 0);
    SextetRoundTrip(a / 4);
    SextetRoundTrip(a % 4 * 16 + b / 16);
    SextetRoundTrip(b % 16 * 4);
  }

  lemma Decode1(a: int)
    requires 0 <= a < 256
    ensures B64UrlDecode([Sextet(a / 4), Sextet(a % 4 * 16)]) == [a as Byte]
  {
    GroupRoundTrip(a, 0, 0);
    SextetRoundTrip(a / 4);
    SextetRoundTrip(a % 4 * 16);
  }

  lemma DecodeAppend(head: string, tail: string)
    requires |head| == 4
    requires forall i :: 0 <= i < |head| ==> UrlChar(head[i])
    requires forall i :: 0 <= i < |tail| ==> UrlChar(tail[i])
    ensures forall i :: 0 <= i < |head + tail| ==> UrlChar((head + tail)[i])
    ensures B64UrlDecode(head + tail) == B64UrlDecode(head) + B64UrlDecode(tail)
  {
    assert (head + tail)[4..] == tail;
    assert head[4..] == [];
  }

  /** Nothing is lost: decoding `_b64url(data)` gives `data` back. */
  lemma B64UrlRoundTrip(data: seq<Byte>)
    ensures forall i :: 0 <= i < |B64Url(data)| ==> UrlChar(B64Url(data)[i])
    ensures B64UrlDecode(B64Url(data)) == data
  {
    B64UrlShape(data);
    UnpaddedRoundTrip(data);
  }

  lemma {:induction false} UnpaddedRoundTrip(data: seq<Byte>)
    ensures B64UrlDecode(Unpadded(data)) == data
    decreases |data|
  {
    if |data| >= 3 {
      var a, b, c := data[0] as int, data[1] as int, data[2] as int;
      var group := [Sextet(a / 4), Sextet(a % 4 * 16 + b / 16), Sextet(b % 16 * 4 + c / 64), Sextet(c % 64)];
      assert Unpadded(data) == group + Unpadded(data[3..]);
      Decode3(a, b, c);
      DecodeAppend(group, Unpadded(data[3..]));
      UnpaddedRoundTrip(data[3..]);
      assert data == [a as Byte, b as Byte, c as Byte] + data[3..];
    } else if |data| == 2 {
      LastPairDecode(data);
    } else if |data| == 1 {
      LastByteDecode(data);
    }
  }

  // --------------------------------------------------------- normalisers

  /** `[x for x in a if isinstance(x, dict)]`. */
  function Objects(a: seq<Json>): (r: seq<map<string, Json>>)
    ensures |r| <= |a|
    ensures forall o :: o in r <==> JObj(o) in a
    decreases |a|
  {
    if a == [] then []
    else
      assert forall x :: x in a <==> x == a[0] || x in a[1..] by {
        assert a == [a[0]] + a[1..];
      }
      (if a[0].JObj? then [a[0].o] else []) + Objects(a[1..])
  }

  /** Filtering keeps the order of the list: it works piece by piece. */
  lemma {:induction false} ObjectsAppend(a: seq<Json>, b: seq<Json>)
    ensures Objects(a + b) == Objects(a) + Objects(b)
    decreases |a|
  {
    if a != [] {
      assert (a + b)[1..] == a[1..] + b;
      ObjectsAppend(a[1..], b);
    } else {
      assert a + b == b;
    }
  }

  /** The list a services answer carries: the answer itself when it is a list,
      else its "results" list, else its "items" list. */
  function ServicesList(data: Json): (r: Option<seq<Json>>)
    ensures r.Some? ==> data.JArr? || data.JObj?
  {
    match data
    case JArr(a) => Some(a)
    case JObj(o) =>
      if "results" in o && o["results"].JArr? then Some(o["results"].a)
      else if "items" in o && o["items"].JArr? then Some(o["items"].a)
      else None
    case _ => None
  }

  /** `_normalize_services_payload(data)`. */
  function NormalizeServicesPayload(data: Json): (r: seq<map<string, Json>>)
    ensures ServicesList(data).None? ==> r == []
    ensures ServicesList(data).Some? ==> forall o :: o in r <==> JObj(o) in ServicesList(data).value
  {
    match ServicesList(data)
    case None => []
    case Some(a) => Objects(a)
  }

  /** The three accepted shapes: a list keeps its dictionaries; a dictionary
      takes its "results" list even when an "items" list is also there (and
      even when "results" is empty); and every other answer gives no
      services. */
  lemma NormalizeShapes(data: Json)
    ensures data.JArr? ==> forall o :: o in NormalizeServicesPayload(data) <==> JObj(o) in data.a
    ensures data.JObj? && "results" in data.o && data.o["results"].JArr? ==>
      forall o :: o in NormalizeServicesPayload(data) <==> JObj(o) in data.o["results"].a
    ensures data.JObj? && "results" in data.o && data.o["results"] == JArr([]) ==> NormalizeServicesPayload(data) == []
    ensures data.JObj? && !("results" in data.o && data.o["results"].JArr?) && "items" in data.o && data.o["items"].JArr? ==>
      forall o :: o in NormalizeServicesPayload(data) <==> JObj(o) in data.o["items"].a
    ensures !data.JArr? && !data.JObj? ==> NormalizeServicesPayload(data) == []
  {
  }

  // ------------------------------------------------ category names and ids

  /** The integer a value stands for under `isinstance(v, int)`: an int, or a
      bool (True is 1 and False is 0, also as a dictionary key). */
  function IntKey(v: Json): (r: Option<int>)
    ensures v.JInt? ==> r == Some(v.i)
    ensures !v.JInt? && !v.JBool? ==> r == None
  {
    match v
    case JInt(i) => Some(i)
    case JBool(b) => Some(if b then 1 else 0)
    case _ => None
  }

  /** The clean-up of lines 102-104: a string is stripped, and a falsy name
      becomes None. */
  function CleanName(name: Json): (r: Json)
    ensures r == JNull || Truthy(r)
    ensures r.JStr? ==> r.s != [] && Strip(r.s) == r.s
  {
    var n := if name.JStr? then JStr(Strip(name.s)) else name;
    if !Truthy(n) then JNull
    else if n.JStr? then
      StripOfStripped(n.s);
      n
    else n
  }

  /** `_extract_category_name(svc, cat_map)`: the category name (None as
      JNull) and the category id (None as JNull). */
  function ExtractCategoryName(svc: map<string, Json>, catMap: map<int, string>): (r: (Json, Json))
    ensures r.0 == JNull || Truthy(r.0)
    ensures r.0.JStr? ==> r.0.s != [] && Strip(r.0.s) == r.0.s
    ensures r.1 == JNull || r.1.JInt? || r.1.JBool?
  {
    var first := Or(Or(Get(svc, "category"), Get(svc, "type")), Get(svc, "category_name"));
    var cid := Get(svc, "category_id");
    var name :=
      if !Truthy(first) && IntKey(cid).Some? then
        (if IntKey(cid).value in catMap then JStr(catMap[IntKey(cid).value]) else JNull)
      else first;
    (CleanName(name), if IntKey(cid).Some? then cid else JNull)
  }

  /** The name alone. */
  function NameOf(svc: map<string, Json>, catMap: map<int, string>): Json {
    ExtractCategoryName(svc, catMap).0
  }

  /** Where the name comes from: "category", then "type", then
      "category_name" (the first truthy one), and only when all three are
      falsy the category map entry of an integer "category_id". */
  lemma CategoryNameSources(svc: map<string, Json>, catMap: map<int, string>)
    ensures Truthy(Get(svc, "category")) ==> NameOf(svc, catMap) == CleanName(Get(svc, "category"))
    ensures !Truthy(Get(svc, "category")) && Truthy(Get(svc, "type")) ==>
      NameOf(svc, catMap) == CleanName(Get(svc, "type"))
    ensures !Truthy(Get(svc, "category")) && !Truthy(Get(svc, "type")) && Truthy(Get(svc, "category_name")) ==>
      NameOf(svc, catMap) == CleanName(Get(svc, "category_name"))
    ensures !Truthy(Get(svc, "category")) && !Truthy(Get(svc, "type")) && !Truthy(Get(svc, "category_name")) ==>
      NameOf(svc, catMap) ==
        match IntKey(Get(svc, "category_id"))
        case None => JNull
        case Some(k) => if k in catMap then CleanName(JStr(catMap[k])) else JNull
  {
  }

  // ------------------------------------------------------ the category map

  /** The entries `_categories_map_async` reads from the categories answer:
      a list as it is; from a dictionary the first truthy of "categories",
      "results" and "items", which contributes only when it is a list (other
      iterables hold no dictionaries, and a non-iterable raises, which the
      function catches). A failed fetch gives nothing. */
  function CategoryItems(categories: Outcome<Json>): seq<Json> {
    match categories
    case Raises(_) => []
    case Ok(JArr(a)) => a
    case Ok(JObj(o)) =>
      var v := Or(Or(Get(o, "categories"), Get(o, "results")), Get(o, "items"));
      if v.JArr? then v.a else []
    case Ok(_) => []
  }

  /** The (id, name) one category entry contributes: a dictionary whose "id"
      is an int (or bool) and whose first truthy of "name", "label" and "key"
      is a string that is not blank; the name is stripped. */
  function CategoryEntry(c: Json): (r: Option<(int, string)>)
    ensures r.Some? ==> r.value.1 != [] && Strip(r.value.1) == r.value.1
  {
    if !c.JObj? then None
    else
      var nm := Or(Or(Get(c.o, "name"), Get(c.o, "label")), Get(c.o, "key"));
      var cid := IntKey(Get(c.o, "id"));
      if cid.Some? && nm.JStr? && Strip(nm.s) != [] then
        StripOfStripped(Strip(nm.s));
        Some((cid.value, Strip(nm.s)))
      else None
  }

  /** The entries of all items, in order. */
  function CategoryEntries(items: seq<Json>): (es: seq<Option<(int, string)>>)
    ensures |es| == |items| && forall i :: 0 <= i < |items| ==> es[i] == CategoryEntry(items[i])
  {
    seq(|items|, i requires 0 <= i < |items| => CategoryEntry(items[i]))
  }

  /** The map built from entries in order: a later entry with the same id
      replaces an earlier one. */
  function EntryMap(es: seq<Option<(int, string)>>): map<int, string>
    decreases |es|
  {
    if es == [] then map[]
    else
      var m := EntryMap(es[..|es| - 1]);
      match es[|es| - 1]
      case None => m
      case Some((k, v)) => m[k := v]
  }

  /** The category map of the categories answer's items. */
  function CategoryMapOf(items: seq<Json>): map<int, string> {
    EntryMap(CategoryEntries(items))
  }

  /** Some entry gives id `k` the name `v`. */
  predicate HasEntry(es: seq<Option<(int, string)>>, k: int, v: string) {
    exists i :: 0 <= i < |es| && es[i] == Some((k, v))
  }

  /** Every id in the map comes with a name some entry gave it, and every id
      some entry gives is in the map. */
  lemma {:induction false} EntryMapEntries(es: seq<Option<(int, string)>>)
    ensures forall k :: k in EntryMap(es) ==> HasEntry(es, k, EntryMap(es)[k])
    ensures forall i :: 0 <= i < |es| && es[i].Some? ==> es[i].value.0 in EntryMap(es)
    decreases |es|
  {
    if es != [] {
      var n := |es| - 1;
      var init := es[..n];
      EntryMapEntries(init);
      forall k | k in EntryMap(es) ensures HasEntry(es, k, EntryMap(es)[k]) {
        if es[n].Some? && es[n].value.0 == k {
          assert es[n] == Some((k, EntryMap(es)[k]));
        } else {
          assert k in EntryMap(init);
          var i :| 0 <= i < |init| && init[i] == Some((k, EntryMap(init)[k]));
          assert es[i] == init[i];
        }
      }
      forall i | 0 <= i < |es| && es[i].Some? ensures es[i].value.0 in EntryMap(es) {
        if i < n {
          assert es[i] == init[i];
        }
      }
    }
  }

  /** The map of `_categories_map_async` holds exactly the ids some valid
      entry gives, each with a name that entry gave it: a stripped, non-blank
      string. */
  lemma CategoryMapEntries(items: seq<Json>)
    ensures forall k :: k in CategoryMapOf(items) ==>
      && HasEntry(CategoryEntries(items), k, CategoryMapOf(items)[k])
      && CategoryMapOf(items)[k] != [] && Strip(CategoryMapOf(items)[k]) == CategoryMapOf(items)[k]
    ensures forall i :: 0 <= i < |items| && CategoryEntry(items[i]).Some? ==>
      CategoryEntry(items[i]).value.0 in CategoryMapOf(items)
  {
    var es := CategoryEntries(items);
    EntryMapEntries(es);
    forall k | k in CategoryMapOf(items)
      ensures CategoryMapOf(items)[k] != [] && Strip(CategoryMapOf(items)[k]) == CategoryMapOf(items)[k]
    {
      var i :| 0 <= i < |es| && es[i] == Some((k, CategoryMapOf(items)[k]));
      assert CategoryEntry(items[i]) == es[i];
    }
  }

  /** The last entry for an id wins. */
  lemma LastEntryWins(es: seq<Option<(int, string)>>, k: int, v: string)
    ensures EntryMap(es + [Some((k, v))])[k] == v
  {
    assert (es + [Some((k, v))])[..|es|] == es;
  }

  /** `_categories_map_async(user_id)` with the categories answer given. */
  method CategoriesMap(categories: Outcome<Json>) returns (out: map<int, string>)
    ensures out == CategoryMapOf(CategoryItems(categories))
  {
    var items := CategoryItems(categories);
    ghost var es := CategoryEntries(items);
    out := map[];
    var i := 0;
    while i < |items|
      invariant 0 <= i <= |items|
      invariant out == EntryMap(es[..i])
    {
      EntryMapStep(es, i);
      var entry := CategoryEntry(items[i]);
      if entry.Some? {
        out := out[entry.value.0 := entry.value.1];
      }
      i := i + 1;
    }
    assert es[..i] == es;
  }

  lemma EntryMapStep(es: seq<Option<(int, string)>>, i: nat)
    requires i < |es|
    ensures EntryMap(es[..i + 1]) ==
      match es[i]
      case None => EntryMap(es[..i])
      case Some((k, v)) => EntryMap(es[..i])[k := v]
  {
    assert es[..i + 1][..i] == es[..i];
  }

  // ------------------------------------- filtering and sorting by category

  /** The category names of the services, in order. */
  function NamesOf(items: seq<map<string, Json>>, catMap: map<int, string>): (names: seq<Json>)
    ensures |names| == |items| && forall i :: 0 <= i < |items| ==> names[i] == NameOf(items[i], catMap)
  {
    seq(|items|, i requires 0 <= i < |items| => NameOf(items[i], catMap))
  }

  /** A truthy name that is not a string: `.lower()` raises AttributeError on
      it, and `sorted` cannot order it among strings. */
  predicate BadName(name: Json) {
    Truthy(name) && !name.JStr?
  }

  predicate AnyBad(names: seq<Json>) {
    exists i :: 0 <= i < |names| && BadName(names[i])
  }

  /** `name and name.lower().strip() == category_key.lower().strip()`. */
  predicate KeyMatches(name: Json, key: string) {
    Truthy(name) && name.JStr? && Strip(LowerStr(name.s)) == Strip(LowerStr(key))
  }

  /** The test of the loop of lines 231-235, as a function value, so that
      the facts about the loop are proved once for any test. */
  function Matcher(key: string): Json -> bool {
    name => KeyMatches(name, key)
  }

  /** The loop of lines 231-235 over the services and their names, for the
      test `keep`. */
  function FilterBy(items: seq<map<string, Json>>, names: seq<Json>, keep: Json -> bool): Outcome<seq<map<string, Json>>>
    requires |names| == |items|
    decreases |items|
  {
    if items == [] then Ok([])
    else
      var n := |items| - 1;
      match FilterBy(items[..n], names[..n], keep)
      case Raises(e) => Raises(e)
      case Ok(f) =>
        if BadName(names[n]) then Raises("AttributeError")
        else if keep(names[n]) then Ok(f + [items[n]])
        else Ok(f)
  }

  /** The loop of lines 231-235 with the category key. */
  function FilterByName(items: seq<map<string, Json>>, names: seq<Json>, key: string): Outcome<seq<map<string, Json>>>
    requires |names| == |items|
  {
    FilterBy(items, names, Matcher(key))
  }

  /** The service at `i` is kept: its name matches the key. */
  predicate KeptAt(items: seq<map<string, Json>>, names: seq<Json>, key: string, i: int, s: map<string, Json>)
    requires |names| == |items|
  {
    0 <= i < |items| && items[i] == s && KeyMatches(names[i], key)
  }

  /** The service at `i` passes the test `keep`. */
  predicate KeptBy(items: seq<map<string, Json>>, names: seq<Json>, keep: Json -> bool, i: int, s: map<string, Json>)
    requires |names| == |items|
  {
    0 <= i < |items| && items[i] == s && keep(names[i])
  }

  lemma AnyBadSnoc(names: seq<Json>)
    requires names != []
    ensures AnyBad(names) <==> AnyBad(names[..|names| - 1]) || BadName(names[|names| - 1])
  {
    var n := |names| - 1;
    if AnyBad(names) {
      var j :| 0 <= j < |names| && BadName(names[j]);
      if j < n {
        assert names[..n][j] == names[j];
      }
    }
    if AnyBad(names[..n]) {
      var j :| 0 <= j < n && BadName(names[..n][j]);
      assert names[j] == names[..n][j];
    }
  }

  /** The filter raises exactly when some name is not a string. */
  lemma FilterRaises(items: seq<map<string, Json>>, names: seq<Json>, key: string)
    requires |names| == |items|
    ensures FilterByName(items, names, key).Raises? <==> AnyBad(names)
  {
    FilterByRaises(items, names, Matcher(key));
  }

  lemma {:induction false} FilterByRaises(items: seq<map<string, Json>>, names: seq<Json>, keep: Json -> bool)
    requires |names| == |items|
    ensures FilterBy(items, names, keep).Raises? <==> AnyBad(names)
    decreases |items|
  {
    if items != [] {
      var n := |items| - 1;
      FilterByRaises(items[..n], names[..n], keep);
      AnyBadSnoc(names);
      assert names[..n] == names[..|names| - 1];
    }
  }

  /** Otherwise every service kept has a name that matches the key, and
      every service whose name matches is kept. */
  lemma FilterKeeps(items: seq<map<string, Json>>, names: seq<Json>, key: string)
    requires |names| == |items|
    ensures FilterByName(items, names, key).Ok? ==>
      var f := FilterByName(items, names, key).value;
      && |f| <= |items|
      && (forall s :: s in f ==> exists i :: KeptAt(items, names, key, i, s))
      && (forall i :: 0 <= i < |items| && KeyMatches(names[i], key) ==> items[i] in f)
  {
    var keep := Matcher(key);
    if FilterBy(items, names, keep).Ok? {
      var f := FilterBy(items, names, keep).value;
      FilterKeptFrom(items, names, keep);
      forall s | s in f ensures exists i :: KeptAt(items, names, key, i, s) {
        var i :| KeptBy(items, names, keep, i, s);
        assert KeptAt(items, names, key, i, s);
      }
      forall i | 0 <= i < |items| && KeyMatches(names[i], key) ensures items[i] in f {
        assert keep(names[i]);
        FilterKeepsAt(items, names, keep, i);
      }
    }
  }

  /** Every kept service sits at a position whose name passes the test. */
  lemma {:induction false} FilterKeptFrom(items: seq<map<string, Json>>, names: seq<Json>, keep: Json -> bool)
    requires |names| == |items|
    ensures FilterBy(items, names, keep).Ok? ==>
      var f := FilterBy(items, names, keep).value;
      |f| <= |items| && forall s :: s in f ==> exists i :: KeptBy(items, names, keep, i, s)
    decreases |items|
  {
    if items != [] && FilterBy(items, names, keep).Ok? {
      var n := |items| - 1;
      FilterSnoc(items, names, keep);
      FilterKeptFrom(items[..n], names[..n], keep);
      var f0 := FilterBy(items[..n], names[..n], keep).value;
      forall s | s in FilterBy(items, names, keep).value ensures exists i :: KeptBy(items, names, keep, i, s) {
        if s in f0 {
          var i :| KeptBy(items[..n], names[..n], keep, i, s);
          assert KeptBy(items, names, keep, i, s);
        } else {
          assert KeptBy(items, names, keep, n, s);
        }
      }
    }
  }

  /** A service whose name passes the test is kept. */
  lemma {:induction false} FilterKeepsAt(items: seq<map<string, Json>>, names: seq<Json>, keep: Json -> bool, i: nat)
    requires |names| == |items| && i < |items| && keep(names[i])
    requires FilterBy(items, names, keep).Ok?
    ensures items[i] in FilterBy(items, names, keep).value
    decreases |items|
  {
    var n := |items| - 1;
    FilterSnoc(items, names, keep);
    if i < n {
      assert items[..n][i] == items[i] && names[..n][i] == names[i];
      FilterKeepsAt(items[..n], names[..n], keep, i);
    }
  }

  /** One more service: the filter of the others, and the new one when its
      name passes the test. */
  lemma FilterSnoc(items: seq<map<string, Json>>, names: seq<Json>, keep: Json -> bool)
    requires |names| == |items| && items != []
    requires FilterBy(items, names, keep).Ok?
    ensures var n := |items| - 1;
      && FilterBy(items[..n], names[..n], keep).Ok?
      && !BadName(names[n])
      && FilterBy(items, names, keep).value ==
        FilterBy(items[..n], names[..n], keep).value + (if keep(names[n]) then [items[n]] else [])
  {
  }

  /** `list_services_by_category_async(category_key)` with the services and
      categories answers given. */
  function ListByCategory(key: string, services: Outcome<Json>, categories: Outcome<Json>): (r: seq<map<string, Json>>)
    ensures r != [] ==> key != [] && services.Ok? && |r| <= |NormalizeServicesPayload(services.value)|
  {
    if key == [] then []
    else match services
      case Raises(_) => []
      case Ok(data) =>
        var items := NormalizeServicesPayload(data);
        if items == [] then []
        else
          var names := NamesOf(items, CategoryMapOf(CategoryItems(categories)));
          FilterKeptFrom(items, names, Matcher(key));
          match FilterByName(items, names, key)
          case Ok(f) => f
          case Raises(_) => []
  }

  /** An empty key or a failed fetch gives no services; otherwise every
      service listed comes from the answer and its name matches the key,
      trimmed and without regard to case. */
  lemma ListByCategorySound(key: string, services: Outcome<Json>, categories: Outcome<Json>)
    ensures key == [] || services.Raises? ==> ListByCategory(key, services, categories) == []
    ensures forall s :: s in ListByCategory(key, services, categories) ==>
      && services.Ok?
      && s in NormalizeServicesPayload(services.value)
      && KeyMatches(NameOf(s, CategoryMapOf(CategoryItems(categories))), key)
  {
    if key != [] && services.Ok? {
      var items := NormalizeServicesPayload(services.value);
      var catMap := CategoryMapOf(CategoryItems(categories));
      var names := NamesOf(items, catMap);
      FilterKeeps(items, names, key);
      forall s | s in ListByCategory(key, services, categories)
        ensures s in items && KeyMatches(NameOf(s, catMap), key)
      {
        var i :| KeptAt(items, names, key, i, s);
      }
    }
  }

  /** When every name is a string (or falsy), every service of the answer
      whose name matches the key is listed; a non-string name makes the
      listing empty. */
  lemma ListByCategoryComplete(key: string, services: Outcome<Json>, categories: Outcome<Json>)
    requires key != [] && services.Ok?
    ensures var items := NormalizeServicesPayload(services.value);
      var catMap := CategoryMapOf(CategoryItems(categories));
      && (!AnyBad(NamesOf(items, catMap)) ==>
           forall s :: s in items && KeyMatches(NameOf(s, catMap), key) ==> s in ListByCategory(key, services, categories))
      && (AnyBad(NamesOf(items, catMap)) ==> ListByCategory(key, services, categories) == [])
  {
    var items := NormalizeServicesPayload(services.value);
    var catMap := CategoryMapOf(CategoryItems(categories));
    var names := NamesOf(items, catMap);
    FilterRaises(items, names, key);
    FilterKeeps(items, names, key);
    if !AnyBad(names) {
      forall s | s in items && KeyMatches(NameOf(s, catMap), key)
        ensures s in ListByCategory(key, services, categories)
      {
        var i :| 0 <= i < |items| && items[i] == s;
      }
    }
  }

  /** `list_services_by_category_async(category_key)`: fetches every service
      and filters on the client. */
  method ListServicesByCategory(key: string, services: Outcome<Json>, categories: Outcome<Json>)
    returns (filtered: seq<map<string, Json>>)
    ensures filtered == ListByCategory(key, services, categories)
  {
    if key == [] {
      return [];
    }
    if services.Raises? {
      return [];
    }
    var items := NormalizeServicesPayload(services.value);
    if items == [] {
      return [];
    }
    var catMap := CategoriesMap(categories);
    var r := FilterServices(items, catMap, key);
    filtered := if r.Ok? then r.value else [];
  }

  /** The loop of lines 231-235; an exception ends it. */
  method FilterServices(items: seq<map<string, Json>>, catMap: map<int, string>, key: string)
    returns (r: Outcome<seq<map<string, Json>>>)
    ensures r == FilterByName(items, NamesOf(items, catMap), key)
  {
    ghost var names := NamesOf(items, catMap);
    ghost var keep := Matcher(key);
    var filtered := [];
    var i := 0;
    while i < |items|
      invariant 0 <= i <= |items|
      invariant FilterBy(items[..i], names[..i], keep) == Ok(filtered)
    {
      FilterStep(items, names, keep, i);
      var name := NameOf(items[i], catMap);
      if BadName(name) {
        NoRecovery(items, names, keep, i + 1);
        return Raises("AttributeError");
      }
      if KeyMatches(name, key) {
        filtered := filtered + [items[i]];
      }
      i := i + 1;
    }
    assert items[..i] == items && names[..i] == names;
    r := Ok(filtered);
  }

  lemma FilterStep(items: seq<map<string, Json>>, names: seq<Json>, keep: Json -> bool, i: nat)
    requires |names| == |items| && i < |items|
    ensures FilterBy(items[..i + 1], names[..i + 1], keep) ==
      match FilterBy(items[..i], names[..i], keep)
      case Raises(e) => Raises(e)
      case Ok(f) =>
        if BadName(names[i]) then Raises("AttributeError")
        else if keep(names[i]) then Ok(f + [items[i]])
        else Ok(f)
  {
    assert items[..i + 1][..i] == items[..i] && names[..i + 1][..i] == names[..i];
  }

  /** Once the filter raised on a prefix it raises on every longer one. */
  lemma {:induction false} NoRecovery(items: seq<map<string, Json>>, names: seq<Json>, keep: Json -> bool, i: nat)
    requires |names| == |items| && i <= |items|
    requires FilterBy(items[..i], names[..i], keep).Raises?
    ensures FilterBy(items, names, keep) == FilterBy(items[..i], names[..i], keep)
    decreases |items| - i
  {
    if i < |items| {
      FilterStep(items, names, keep, i);
      NoRecovery(items, names, keep, i + 1);
    } else {
      assert items[..i] == items && names[..i] == names;
    }
  }

  /** `get_non_empty_categories_async()` with the services and categories
      answers given: `sorted` of the set of the truthy names. */
  function NonEmptyCategoriesOf(services: Outcome<Json>, categories: Outcome<Json>): Outcome<seq<Json>> {
    match services
    case Raises(_) => Ok([])
    case Ok(data) =>
      var items := NormalizeServicesPayload(data);
      if items == [] then Ok([])
      else SortedTruthy(NamesOf(items, CategoryMapOf(CategoryItems(categories))))
  }

  /** A failed fetch or an answer without services gives no categories;
      otherwise the call raises TypeError exactly when a truthy name is a
      list or a dictionary, or when the names mix strings and numbers, and
      the categories are ascending, each the name of a service that no
      earlier service's name equals, and cover every service's truthy
      name. */
  lemma NonEmptyCategoriesMeaning(services: Outcome<Json>, categories: Outcome<Json>)
    ensures services.Raises? ==> NonEmptyCategoriesOf(services, categories) == Ok([])
    ensures services.Ok? && NormalizeServicesPayload(services.value) == [] ==> NonEmptyCategoriesOf(services, categories) == Ok([])
    ensures services.Ok? ==>
      var names := NamesOf(NormalizeServicesPayload(services.value), CategoryMapOf(CategoryItems(categories)));
      && (NonEmptyCategoriesOf(services, categories).Raises? <==> AnyUnhashable(names) || MixedValues(names))
      && (NonEmptyCategoriesOf(services, categories).Raises? ==> NonEmptyCategoriesOf(services, categories) == Raises("TypeError"))
      && (NonEmptyCategoriesOf(services, categories).Ok? ==>
            var r := NonEmptyCategoriesOf(services, categories).value;
            && StrictlySorted(r)
            && (forall y :: y in r ==> Truthy(y) && FirstOf(names, y))
            && Covers(r, names))
  {
    if services.Ok? {
      var items := NormalizeServicesPayload(services.value);
      var names := NamesOf(items, CategoryMapOf(CategoryItems(categories)));
      SortedTruthyMeaning(names);
      SortedTruthyRaises(names);
      if items == [] {
        assert names == [];
        assert !AnyUnhashable(names) && !MixedValues(names);
      }
    }
  }

  /** `get_non_empty_categories_async()`. */
  method NonEmptyCategories(services: Outcome<Json>, categories: Outcome<Json>) returns (r: Outcome<seq<Json>>)
    ensures r == NonEmptyCategoriesOf(services, categories)
  {
    if services.Raises? {
      return Ok([]);
    }
    var items := NormalizeServicesPayload(services.value);
    if items == [] {
      return Ok([]);
    }
    var catMap := CategoriesMap(categories);
    r := CollectNames(items, catMap);
  }

  /** The set-building loop of lines 254-257 and the final `sorted`: each
      truthy name not equal to one already in the set joins it, a list or
      a dictionary raises TypeError, and `sorted` raises TypeError on a
      mix of strings and numbers. */
  method CollectNames(items: seq<map<string, Json>>, catMap: map<int, string>) returns (r: Outcome<seq<Json>>)
    ensures r == SortedTruthy(NamesOf(items, catMap))
  {
    ghost var names := NamesOf(items, catMap);
    var seen: seq<Json> := [];
    var i := 0;
    while i < |items|
      invariant 0 <= i <= |items|
      invariant TruthySet(names[..i]) == Ok(seen)
    {
      assert names[..i + 1][..i] == names[..i];
      var name := NameOf(items[i], catMap);
      assert names[..i + 1][i] == name;
      if Truthy(name) {
        if !Hashable(name) {
          TruthySetStuck(names, i + 1);
          return Raises("TypeError");
        }
        if !HasEqual(seen, name) {
          seen := seen + [name];
        }
      }
      i := i + 1;
    }
    assert names[..i] == names;
    if Mixed(seen) {
      return Raises("TypeError");
    }
    SetSortable(names, seen);
    r := Ok(Sorted(seen));
  }

  // ------------------------------------------------------ request payloads

  /** A POST the client sends: the path and the JSON body. */
  datatype Request = Post(path: string, body: map<string, Json>)

  /** What `create_service` does: send a request, or answer an error dict
      without sending anything. */
  datatype Creation = Send(request: Request) | Rejected(error: string)

  /** `CATEGORY_NAME_TO_ID.get(name)`. */
  function CategoryId(name: string): Option<int> {
    match name
    case "food" => Some(1)
    case "sim card" => Some(2)
    case "real estate" => Some(3)
    case "surf" => Some(4)
    case "sport" => Some(5)
    case "tourism" => Some(6)
    case "tech" => Some(7)
    case _ => None
  }

  /** `str(v)` of a falsy value, as the error text shows it. */
  function FalsyText(v: Json): string {
    match v
    case JNull => "None"
    case JBool(_) => "False"
    case JInt(_) => "0"
    case JNum(_) => "0.0"
    case JStr(s) => s
    case JArr(_) => "[]"
    case JObj(_) => "{}"
  }

  /** The arguments of `create_service` after `user_id`; None is JNull. */
  datatype ServiceArgs = ServiceArgs(
    businessName: Json, name: Json, description: Json, categoryName: Json,
    pricingModel: Json, currency: Json, basePrice: Json,
    location: Json, place: Json, delivery: Json, requiresBooking: Json,
    timeUnit: Json, minDuration: Json, maxDuration: Json, attributes: Json)

  /** The payload of lines 188-204 before None values are dropped. */
  function RawServicePayload(args: ServiceArgs, categoryId: int): map<string, Json> {
    map[
      "business_name" := args.businessName,
      "name" := args.name,
      "description" := args.description,
      "category_id" := JInt(categoryId),
      "pricing_model" := args.pricingModel,
      "currency" := args.currency,
      "base_price" := args.basePrice,
      "location" := args.location,
      "place" := args.place,
      "delivery" := args.delivery,
      "requires_booking" := args.requiresBooking,
      "time_unit" := args.timeUnit,
      "min_duration" := args.minDuration,
      "max_duration" := args.maxDuration,
      "attributes" := Or(args.attributes, JObj(map[]))]
  }

  /** `{k: v for k, v in payload.items() if v is not None}`. */
  function DropNone(payload: map<string, Json>): (r: map<string, Json>)
    ensures forall k :: k in r <==> k in payload && payload[k] != JNull
    ensures forall k :: k in r ==> r[k] == payload[k]
  {
    map k | k in payload && payload[k] != JNull :: payload[k]
  }

  /** `create_service(...)`: the category is looked up in lowercase; an
      unknown one is answered with an error and no request. A category name
      that is truthy but not a string has no `.lower()`. */
  function CreateService(args: ServiceArgs): (r: Outcome<Creation>)
    ensures r.Raises? <==> Truthy(args.categoryName) && !args.categoryName.JStr?
    ensures r.Ok? && r.value.Send? ==>
      && r.value.request.path == "/api/services/"
      && r.value.request.body.Keys <= ServiceKeys
      && (forall k :: k in r.value.request.body ==> r.value.request.body[k] != JNull)
  {
    var cat := Or(args.categoryName, JStr(""));
    if !cat.JStr? then Raises("AttributeError")
    else match CategoryId(LowerStr(cat.s))
      case None =>
        var shown := if args.categoryName.JStr? then args.categoryName.s else FalsyText(args.categoryName);
        Ok(Rejected("Category '" + shown + "' not found."))
      case Some(id) => Ok(Send(Post("/api/services/", DropNone(RawServicePayload(args, id)))))
  }

  /** The table lookup ignores case. */
  lemma CategoryLookupIgnoresCase(a: string, b: string)
    requires LowerStr(a) == LowerStr(b)
    ensures CategoryId(LowerStr(a)) == CategoryId(LowerStr(b))
  {
  }

  /** The table holds seven categories, all in lowercase, with ids 1 to 7. */
  lemma CategoryTable(name: string)
    ensures CategoryId(name).Some? ==> 1 <= CategoryId(name).value <= 7 && LowerStr(name) == name
  {
    if CategoryId(name).Some? {
      LowerStrOfLower(name);
    }
  }

  /** An unknown category gives the error dict and sends nothing; a known
      one sends to "/api/services/" a body with its table id, "attributes"
      (an empty dict when none was given), and every other field exactly
      when it is not None. */
  lemma CreateServiceOutcome(args: ServiceArgs)
    requires args.categoryName.JStr? || !Truthy(args.categoryName)
    ensures var name := if args.categoryName.JStr? then args.categoryName.s else "";
      CreateService(args).Ok?
      && (CategoryId(LowerStr(name)).None? ==> CreateService(args).value.Rejected?)
      && (CategoryId(LowerStr(name)).None? && args.categoryName.JStr? ==>
           CreateService(args).value == Rejected("Category '" + name + "' not found."))
      && (CategoryId(LowerStr(name)).Some? ==>
        && CreateService(args).value.Send?
        && CreateService(args).value.request.path == "/api/services/"
        && var body := CreateService(args).value.request.body;
          && body["category_id"] == JInt(CategoryId(LowerStr(name)).value)
          && body["attributes"] == (if Truthy(args.attributes) then args.attributes else JObj(map[]))
          && ("location" in body <==> args.location != JNull)
          && ("min_duration" in body <==> args.minDuration != JNull)
          && (forall k :: k in body ==> body[k] != JNull)
          && body.Keys <= ServiceKeys)
  {
  }

  /** The fifteen fields a service payload may carry. */
  const ServiceKeys: set<string> := {
    "business_name", "name", "description", "category_id", "pricing_model", "currency", "base_price",
    "location", "place", "delivery", "requires_booking", "time_unit", "min_duration", "max_duration", "attributes"}

  /** `create_booking(...)`: the duration is sent only when it is truthy. */
  function CreateBooking(serviceId: string, fullName: string, scheduledAt: string, duration: Option<int>): (r: Request)
    ensures r.path == "/api/bookings/"
    ensures "duration" in r.body <==> duration.Some? && duration.value != 0
    ensures r.body.Keys - {"duration"} == {"service_id", "full_name", "scheduled_at"}
    ensures r.body["service_id"] == JStr(serviceId) && r.body["full_name"] == JStr(fullName)
    ensures r.body["scheduled_at"] == JStr(scheduledAt)
    ensures "duration" in r.body ==> r.body["duration"] == JInt(duration.value)
  {
    var payload := map["service_id" := JStr(serviceId), "full_name" := JStr(fullName), "scheduled_at" := JStr(scheduledAt)];
    if duration.Some? && duration.value != 0 then Post("/api/bookings/", payload["duration" := JInt(duration.value)])
    else Post("/api/bookings/", payload)
  }
}
