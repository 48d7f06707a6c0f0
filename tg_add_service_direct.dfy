/** The direct "add service(s):" chat handler (app/bot/tg_add_service_direct.py):
    it cleans and parses the JSON after the prefix, creates every item through
    the backend, and replies with a summary. Comment cleaning, payload shapes,
    the prefix and the summary are the ones of `JsonChat`; this module holds
    what differs from the webhook: its own slug, `_coalesce`, and an
    exception after the backend call that escapes the handler. */
module TgAddServiceDirect {
  import opened PyText
  import opened JsonValue
  import opened Oracles
  import opened JsonChat
  import TgWebhook

  // ------------------------------------------------------------------ slug

  predicate SlugChar(c: char) { IsAsciiLower(c) || IsDigit(c) }

  /** No two dashes side by side. */
  predicate SingleDashes(s: string) {
    forall i :: 0 <= i < |s| - 1 ==> !(s[i] == '-' && s[i + 1] == '-')
  }

  /** The lowered title with each run of other characters made one "-". */
  function Dashed(title: string): string {
    ReplaceRuns(LowerStr(title), c => !SlugChar(c), '-')
  }

  /** `_slugify(title)`: lowercase letters and digits, runs of anything else
      one "-", trimmed of dashes, and "service" when nothing is left. */
  function Slugify(title: string): (r: string)
    ensures r != [] && r[0] != '-' && r[|r| - 1] != '-'
    ensures forall i :: 0 <= i < |r| ==> SlugChar(r[i]) || r[i] == '-'
  {
    var s := StripChar(Dashed(title), '-');
    assert forall i :: 0 <= i < |s| ==> s[i] in Dashed(title);
    if s == [] then "service" else s
  }

  /** Trimming dashes keeps the dashes single. */
  lemma {:induction false} StripKeepsSingle(s: string)
    requires SingleDashes(s)
    ensures SingleDashes(StripChar(s, '-'))
    decreases |s|
  {
    if s != [] && s[0] == '-' {
      StripKeepsSingle(s[1..]);
    } else if s != [] && s[|s| - 1] == '-' {
      StripKeepsSingle(s[..|s| - 1]);
    }
  }

  /** Words of letters and digits joined by single dashes. */
  lemma SlugifySingleDashes(title: string)
    ensures SingleDashes(Slugify(title))
  {
    ReplaceRunsSingles(LowerStr(title), c => !SlugChar(c), '-');
    StripKeepsSingle(Dashed(title));
  }

  /** Text whose only other characters are single dashes is its own run
      replacement. */
  lemma {:induction false} ReplaceRunsOfSingles(s: string)
    requires forall i :: 0 <= i < |s| ==> SlugChar(s[i]) || s[i] == '-'
    requires SingleDashes(s)
    ensures ReplaceRuns(s, c => !SlugChar(c), '-') == s
    decreases |s|
  {
    if s != [] {
      var p: char -> bool := c => !SlugChar(c);
      ReplaceRunsOfSingles(s[1..]);
      if p(s[0]) {
        assert RunEnd(s, p, 0) == 1 by {
          assert |s| > 1 ==> !p(s[1]);
        }
      }
    }
  }

  /** A slug is its own slug. */
  lemma SlugifyIdempotent(title: string)
    ensures Slugify(Slugify(title)) == Slugify(title)
  {
    var u := Slugify(title);
    SlugifySingleDashes(title);
    assert LowerStr(u) == u;
    ReplaceRunsOfSingles(u);
    assert Dashed(u) == u;
  }

  // ------------------------------------------------------------- coalesce

  /** A value `_coalesce` takes: present, and neither None nor "". */
  predicate Present(d: map<string, Json>, k: string) {
    k in d && d[k] != JNull && d[k] != JStr("")
  }

  /** `_coalesce(d, *keys, default)`. */
  function Coalesce(d: map<string, Json>, keys: seq<string>, default: Json): (r: Json)
    ensures (forall i :: 0 <= i < |keys| ==> !Present(d, keys[i])) ==> r == default
  {
    if keys == [] then default
    else if Present(d, keys[0]) then d[keys[0]]
    else Coalesce(d, keys[1..], default)
  }

  /** The value is that of the first key that is present. */
  lemma {:induction false} CoalesceFirst(d: map<string, Json>, keys: seq<string>, default: Json, i: nat)
    requires i < |keys| && Present(d, keys[i])
    requires forall j :: 0 <= j < i ==> !Present(d, keys[j])
    ensures Coalesce(d, keys, default) == d[keys[i]]
    decreases i
  {
    if i > 0 {
      CoalesceFirst(d, keys[1..], default, i - 1);
    }
  }

  // ------------------------------------------------------------ create one

  /** The call `_create_one` makes for an item with a title and a price. */
  function DirectRequest(it: map<string, Json>, userId: string, title: Json, price: real): (q: ServiceRequest)
    ensures q.userId == userId && q.name == title && q.basePrice == price
  {
    ServiceRequest(
      userId,
      Coalesce(it, ["business_name", "business"], JStr("")),
      title,
      Coalesce(it, ["description"], JStr("")),
      Coalesce(it, ["category_name", "category"], JStr("")),
      Coalesce(it, ["pricing_model"], JStr("flat")),
      Coalesce(it, ["currency"], JStr("VND")),
      price,
      Coalesce(it, ["location"], JNull),
      Get(it, "place"), Get(it, "delivery"), Get(it, "requires_booking"), Get(it, "promo_code"))
  }

  type Report = TgWebhook.Report

  /** The error line of an item with a title. */
  function Failed(title: Json, why: string, show: Json -> string): (r: Report)
    ensures !r.created && StartsWith(r.line, Cross)
  {
    TgWebhook.Report(false, Cross + " '" + PyStr(title, show) + "': " + why)
  }

  /** `_create_one(user_id, item)`: the report, or what Python raises after
      the backend answered (a truthy answer that is not a dictionary, or a
      title that is not text when the slug falls back to it). */
  function CreateOne(userId: string, it: map<string, Json>, backend: Backend, show: Json -> string): (r: Outcome<Report>) {
    var title := Coalesce(it, ["title", "name"], JNull);
    if !Truthy(title) then Ok(TgWebhook.Report(false, Cross + " Missing 'title'"))
    else match BasePrice(Get(it, "base_price"))
      case None => Ok(Failed(title, "base_price must be a number", show))
      case Some(p) => AfterCreate(title, backend(DirectRequest(it, userId, title, p)), show)
  }

  /** The rest of `_create_one` once the backend answered or raised. */
  function AfterCreate(title: Json, answer: Outcome<Json>, show: Json -> string): (r: Outcome<Report>)
    ensures r.Ok? && r.value.created ==> StartsWith(r.value.line, Check)
    ensures r.Ok? && !r.value.created ==> StartsWith(r.value.line, Cross)
  {
    match answer
    case Raises(e) => Ok(Failed(title, e, show))
    case Ok(created) =>
      var rec := if Truthy(created) then created else JObj(map[]);
      if !rec.JObj? then Raises(NoAttribute(rec, "get"))
      else
        var slug := Get(rec.o, "slug");
        if Truthy(slug) then Ok(TgWebhook.Report(true, CreatedLine(title, PyStr(slug, show), Get(rec.o, "id"), show)))
        else if title.JStr? then Ok(TgWebhook.Report(true, CreatedLine(title, Slugify(title.s), Get(rec.o, "id"), show)))
        else Raises(NoAttribute(title, "lower"))
  }

  /** Once the backend answered with a dictionary, a title that is text
      always gives a report; the slug is the backend's when truthy, else the
      title's own slug. */
  lemma AfterCreateSlug(title: Json, o: map<string, Json>, show: Json -> string)
    requires title.JStr? && title.s != []
    ensures var slug := if Truthy(Get(o, "slug")) then PyStr(Get(o, "slug"), show) else Slugify(title.s);
      AfterCreate(title, Ok(JObj(o)), show) == Ok(TgWebhook.Report(true, CreatedLine(title, slug, Get(o, "id"), show)))
  {
  }

  /** A truthy answer that is not a dictionary escapes as an exception. */
  lemma AfterCreateRaises(title: Json, created: Json, show: Json -> string)
    requires Truthy(created) && !created.JObj?
    ensures AfterCreate(title, Ok(created), show) == Raises(NoAttribute(created, "get"))
  {
  }

  /** An item without a usable title or name is refused before the backend
      is asked. */
  lemma CreateOneMissingTitle(userId: string, it: map<string, Json>, backend: Backend, other: Backend, show: Json -> string)
    requires !Present(it, "title") && !Present(it, "name")
    ensures CreateOne(userId, it, backend, show) == Ok(TgWebhook.Report(false, Cross + " Missing 'title'"))
    ensures CreateOne(userId, it, backend, show) == CreateOne(userId, it, other, show)
  {
  }

  /** Where the item's values are all non-empty text, the direct handler
      sends the backend the same call as the webhook. */
  lemma SameRequestAsWebhook(it: map<string, Json>, userId: string, price: real)
    requires forall k :: k in it ==> it[k].JStr? && it[k].s != []
    ensures Coalesce(it, ["title", "name"], JNull) == Or(Get(it, "title"), Get(it, "name"))
    ensures var title := Coalesce(it, ["title", "name"], JNull);
      DirectRequest(it, userId, title, price) == TgWebhook.WebhookRequest(it, userId, title, price)
  {
    PresentIsTruthy(it, "title");
    PresentIsTruthy(it, "name");
    CoalescePair(it, "title", "name", JNull);
    PresentIsTruthy(it, "business_name");
    PresentIsTruthy(it, "business");
    CoalescePair(it, "business_name", "business", JStr(""));
    PresentIsTruthy(it, "category_name");
    PresentIsTruthy(it, "category");
    CoalescePair(it, "category_name", "category", JStr(""));
    PresentIsTruthy(it, "description");
    CoalesceOne(it, "description", JStr(""));
    PresentIsTruthy(it, "pricing_model");
    CoalesceOne(it, "pricing_model", JStr("flat"));
    PresentIsTruthy(it, "currency");
    CoalesceOne(it, "currency", JStr("VND"));
    PresentIsTruthy(it, "location");
    CoalesceOne(it, "location", JNull);
  }

  /** On text values that are never empty, present means truthy. */
  lemma PresentIsTruthy(it: map<string, Json>, k: string)
    requires forall k :: k in it ==> it[k].JStr? && it[k].s != []
    ensures Present(it, k) <==> Truthy(Get(it, k))
  {
  }

  lemma CoalesceOne(d: map<string, Json>, a: string, default: Json)
    ensures Coalesce(d, [a], default) == if Present(d, a) then d[a] else default
  {
    assert [a][1..] == [];
  }

  lemma CoalescePair(d: map<string, Json>, a: string, b: string, default: Json)
    ensures Coalesce(d, [a, b], default) == if Present(d, a) then d[a] else if Present(d, b) then d[b] else default
  {
    assert [a, b][1..] == [b];
    CoalesceOne(d, b, default);
  }

  /** An empty "location" is where the two differ: the webhook passes "",
      the direct handler None. */
  lemma EmptyLocationDiffers(userId: string)
    ensures var it := map["title" := JStr("Spa"), "location" := JStr("")];
      DirectRequest(it, userId, JStr("Spa"), 0.0).location == JNull
      && TgWebhook.WebhookRequest(it, userId, JStr("Spa"), 0.0).location == JStr("")
  {
    var it := map["title" := JStr("Spa"), "location" := JStr("")];
    assert !Present(it, "location");
  }

  // --------------------------------------------------------------- handler

  /** The count of created services and the lines so far. */
  datatype Tally = Tally(ok: nat, lines: seq<string>)

  /** One more pass of the loop: the tally grows by the item's report, and
      an exception, earlier or now, ends the loop. */
  function Extend(prev: Outcome<Tally>, one: Outcome<Report>): (r: Outcome<Tally>)
    ensures r.Ok? <==> prev.Ok? && one.Ok?
    ensures r.Ok? ==> |r.value.lines| == |prev.value.lines| + 1 && r.value.ok <= prev.value.ok + 1
  {
    match prev
    case Raises(e) => Raises(e)
    case Ok(t) =>
      match one
      case Raises(e) => Raises(e)
      case Ok(rep) => Ok(Tally(t.ok + (if rep.created then 1 else 0), t.lines + [rep.line]))
  }

  /** The loop of the handler over the items. */
  function CreateAll(userId: string, items: seq<map<string, Json>>, backend: Backend, show: Json -> string): (r: Outcome<Tally>)
    ensures r.Ok? ==> |r.value.lines| == |items| && r.value.ok <= |items|
  {
    if items == [] then Ok(Tally(0, []))
    else
      var n := |items| - 1;
      Extend(CreateAll(userId, items[..n], backend, show), CreateOne(userId, items[n], backend, show))
  }

  /** The handler's loop: one line per item, `ok` counting the creations. */
  method CreateItems(userId: string, items: seq<map<string, Json>>, backend: Backend, show: Json -> string)
    returns (r: Outcome<Tally>)
    ensures r == CreateAll(userId, items, backend, show)
  {
    var lines: seq<string> := [];
    var ok: nat := 0;
    var i := 0;
    while i < |items|
      invariant 0 <= i <= |items|
      invariant CreateAll(userId, items[..i], backend, show) == Ok(Tally(ok, lines))
    {
      var one := CreateOne(userId, items[i], backend, show);
      CreateAllStep(userId, items, i, backend, show);
      if one.Raises? {
        r := Raises(one.error);
        PrefixRaises(userId, items, i + 1, backend, show);
        return;
      }
      if one.value.created {
        ok := ok + 1;
      }
      lines := lines + [one.value.line];
      i := i + 1;
    }
    assert items[..i] == items;
    r := Ok(Tally(ok, lines));
  }

  lemma CreateAllStep(userId: string, items: seq<map<string, Json>>, i: nat, backend: Backend, show: Json -> string)
    requires i < |items|
    ensures CreateAll(userId, items[..i + 1], backend, show) ==
      Extend(CreateAll(userId, items[..i], backend, show), CreateOne(userId, items[i], backend, show))
  {
    assert items[..i + 1][..i] == items[..i];
  }

  /** Once the loop raised on a prefix, the whole loop raises the same. */
  lemma {:induction false} PrefixRaises(userId: string, items: seq<map<string, Json>>, i: nat, backend: Backend, show: Json -> string)
    requires i <= |items| && CreateAll(userId, items[..i], backend, show).Raises?
    ensures CreateAll(userId, items, backend, show) == CreateAll(userId, items[..i], backend, show)
    decreases |items| - i
  {
    if i < |items| {
      assert items[..i + 1][..i] == items[..i];
      PrefixRaises(userId, items, i + 1, backend, show);
    } else {
      assert items[..i] == items;
    }
  }

  /** The count is the number of check-mark lines. */
  lemma {:induction false} TallyCountsChecks(userId: string, items: seq<map<string, Json>>, backend: Backend, show: Json -> string)
    requires CreateAll(userId, items, backend, show).Ok?
    ensures var t := CreateAll(userId, items, backend, show).value; t.ok == TgWebhook.CheckLines(t.lines)
    decreases |items|
  {
    if items != [] {
      var n := |items| - 1;
      var prev := CreateAll(userId, items[..n], backend, show);
      var one := CreateOne(userId, items[n], backend, show);
      assert CreateAll(userId, items, backend, show) == Extend(prev, one);
      TallyCountsChecks(userId, items[..n], backend, show);
      var t, rep := prev.value, one.value;
      assert CreateAll(userId, items, backend, show).value == Tally(t.ok + (if rep.created then 1 else 0), t.lines + [rep.line]);
      TgWebhook.CheckLinesSnoc(t.lines, rep.line);
      CreateOneMarks(userId, items[n], backend, show);
      if !rep.created {
        assert rep.line[0] == Cross[0] != Check[0];
      }
    }
  }

  lemma CreateOneMarks(userId: string, it: map<string, Json>, backend: Backend, show: Json -> string)
    ensures var r := CreateOne(userId, it, backend, show);
      && (r.Ok? && r.value.created ==> StartsWith(r.value.line, Check))
      && (r.Ok? && !r.value.created ==> StartsWith(r.value.line, Cross))
  {
    assert StartsWith(Cross + " Missing 'title'", Cross);
  }

  const NoItems := Cross + " No services found in JSON (expect object, array, or {services:[...]})."

  /** The reply to a message (None: ignored, or the handler raised). */
  function DirectReply(text: string, userId: string, parse: Parser, backend: Backend, show: Json -> string): (r: Option<string>)
    ensures r.Some? ==> AddServicesStart(text).Some?
    ensures r.Some? ==> StartsWith(r.value, Cross) || StartsWith(r.value, "Created ")
  {
    match AddServicesStart(text)
    case None => None
    case Some(k) =>
      match parse(CommentsRemoved(Strip(text[k..])))
      case Raises(e) => Some(ParseFailed(e))
      case Ok(payload) =>
        var items := ServiceItems(payload);
        if items == [] then
          assert NoItems[..|Cross|] == Cross;
          Some(NoItems)
        else match CreateAll(userId, items, backend, show)
          case Raises(_) => None
          case Ok(t) => Some(CreatedReport(t.ok, |items|, t.lines))
  }

  /** The reply to JSON that does not parse. */
  function ParseFailed(e: string): (r: string)
    ensures StartsWith(r, Cross) && EndsWith(r, e)
  {
    var r := Cross + " Could not parse JSON: " + e;
    assert r[..|Cross|] == Cross;
    r
  }

  /** The count of services created out of those sent, then one line each. */
  function CreatedReport(ok: nat, n: nat, lines: seq<string>): (r: string)
    ensures StartsWith(r, "Created ")
  {
    var r := "Created " + NatToString(ok) + "/" + NatToString(n) + " services:\n" + Summary(lines);
    assert r[..8] == "Created ";
    r
  }

  /** Text without the prefix gets no reply; a prefix followed by JSON that
      does not parse gets the parse error. */
  lemma DirectReplyCases(text: string, userId: string, parse: Parser, backend: Backend, show: Json -> string)
    ensures AddServicesStart(text).None? ==> DirectReply(text, userId, parse, backend, show).None?
    ensures AddServicesStart(text).Some? ==>
      var k := AddServicesStart(text).value;
      var parsed := parse(CommentsRemoved(Strip(text[k..])));
      parsed.Raises? ==> DirectReply(text, userId, parse, backend, show) == Some(Cross + " Could not parse JSON: " + parsed.error)
  {
  }
}
