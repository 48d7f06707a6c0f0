/** The Telegram webhook (app/tg/webhook.py): a ZIP document goes to Stage A,
    a JSON or NDJSON document or an "add services:" message creates services
    through the backend, "/promote" and "/revert" go to the integrator and
    GitHub. Telegram, the integrator, GitHub and the backend are inputs: the
    stored file, the answers of the two integrator routes and of the revert,
    `json.loads` and `create_service`. */
module TgWebhook {
  import opened PyText
  import opened JsonValue
  import opened Oracles
  import opened JsonChat

  // ------------------------------------------------- services from a file

  /** The object one NDJSON line holds: none when it is blank or a "//"
      line, or when it does not parse to an object once cleaned. */
  function LineObject(line: string, parse: Parser): Option<map<string, Json>> {
    var s := Strip(line);
    if s == [] || StartsWith(s, "//") then None
    else ObjectOf(parse(CommentsRemoved(s)))
  }

  /** The dictionary `json.loads` gave, if it gave one. */
  function ObjectOf(parsed: Outcome<Json>): (r: Option<map<string, Json>>)
    ensures r.Some? <==> parsed.Ok? && parsed.value.JObj?
    ensures r.Some? ==> parsed.value == JObj(r.value)
  {
    if parsed.Ok? && parsed.value.JObj? then Some(parsed.value.o) else None
  }

  /** What one NDJSON line contributes: its object, if it holds one. */
  function LineItem(line: string, parse: Parser): (r: seq<map<string, Json>>)
    ensures |r| <= 1
  {
    match LineObject(line, parse)
    case Some(o) => [o]
    case None => []
  }

  /** The NDJSON reading of `lines`, one object per line at most. */
  function NdjsonItems(lines: seq<string>, parse: Parser): (r: seq<map<string, Json>>)
    ensures |r| <= |lines|
  {
    if lines == [] then []
    else NdjsonItems(lines[..|lines| - 1], parse) + LineItem(lines[|lines| - 1], parse)
  }

  /** `_parse_services_from_json_text(text)`: the items of the whole cleaned
      text when it parses and has some; otherwise the NDJSON reading of the
      raw lines. */
  function ServicesFromText(text: string, parse: Parser): seq<map<string, Json>> {
    var whole := parse(CommentsRemoved(text));
    if whole.Ok? && ServiceItems(whole.value) != [] then ServiceItems(whole.value)
    else NdjsonItems(SplitLines(text), parse)
  }

  /** `_parse_services_from_json_text(text)`: the whole text, then the loop
      over the lines. */
  method ParseServicesFromJsonText(text: string, parse: Parser) returns (items: seq<map<string, Json>>)
    ensures items == ServicesFromText(text, parse)
  {
    var cleaned := CleanJsonComments(text);
    var whole := parse(cleaned);
    if whole.Ok? {
      var found := ServiceItems(whole.value);
      if found != [] {
        return found;
      }
    }
    var lines := SplitLines(text);
    items := [];
    var i := 0;
    while i < |lines|
      invariant 0 <= i <= |lines|
      invariant items == NdjsonItems(lines[..i], parse)
    {
      NdjsonStep(lines, i, parse);
      var s := Strip(lines[i]);
      if s == [] || StartsWith(s, "//") {
        i := i + 1;
        continue;
      }
      var c := CleanJsonComments(s);
      var obj := parse(c);
      if obj.Ok? && obj.value.JObj? {
        items := items + [obj.value.o];
      }
      i := i + 1;
    }
    assert lines[..i] == lines;
  }

  lemma NdjsonStep(lines: seq<string>, i: nat, parse: Parser)
    requires i < |lines|
    ensures NdjsonItems(lines[..i + 1], parse) == NdjsonItems(lines[..i], parse) + LineItem(lines[i], parse)
  {
    assert lines[..i + 1][..i] == lines[..i];
  }

  lemma LineItemOf(line: string, parse: Parser, d: map<string, Json>)
    requires LineObject(line, parse) == Some(d)
    ensures LineItem(line, parse) == [d]
  {
  }

  /** Every NDJSON item is the object of one of the lines. */
  lemma {:induction false} NdjsonItemsFromLines(lines: seq<string>, parse: Parser, d: map<string, Json>)
    requires d in NdjsonItems(lines, parse)
    ensures exists k :: 0 <= k < |lines| && LineObject(lines[k], parse) == Some(d)
    decreases |lines|
  {
    var n := |lines| - 1;
    if d in NdjsonItems(lines[..n], parse) {
      NdjsonItemsFromLines(lines[..n], parse, d);
      var k :| 0 <= k < n && LineObject(lines[..n][k], parse) == Some(d);
      assert lines[..n][k] == lines[k];
    } else {
      assert NdjsonItems(lines, parse) == NdjsonItems(lines[..n], parse) + LineItem(lines[n], parse);
    }
  }

  /** The object of every line that holds one is an NDJSON item. */
  lemma {:induction false} NdjsonItemsHaveLines(lines: seq<string>, parse: Parser, k: nat, d: map<string, Json>)
    requires k < |lines| && LineObject(lines[k], parse) == Some(d)
    ensures d in NdjsonItems(lines, parse)
    decreases |lines|
  {
    var n := |lines| - 1;
    assert NdjsonItems(lines, parse) == NdjsonItems(lines[..n], parse) + LineItem(lines[n], parse);
    if k < n {
      assert lines[..n][k] == lines[k];
      NdjsonItemsHaveLines(lines[..n], parse, k, d);
    } else {
      assert k == n;
      LineItemOf(lines[n], parse, d);
      var m := |NdjsonItems(lines[..n], parse)|;
      assert NdjsonItems(lines, parse)[m] == d;
    }
  }

  /** The whole text wins when it gives items; the NDJSON reading of the raw
      lines is used only when it fails to parse or gives none. */
  lemma ServicesFromTextMeaning(text: string, parse: Parser)
    ensures var whole := parse(CommentsRemoved(text));
      && (whole.Ok? && ServiceItems(whole.value) != [] ==> ServicesFromText(text, parse) == ServiceItems(whole.value))
      && (whole.Raises? || ServiceItems(whole.value) == [] ==> ServicesFromText(text, parse) == NdjsonItems(SplitLines(text), parse))
  {
  }

  // ----------------------------------------------------- creating services

  /** The call `_create_services` makes for an item with a title and a
      price: each field through `or` to its default. */
  function WebhookRequest(it: map<string, Json>, userId: string, title: Json, price: real): (q: ServiceRequest)
    ensures q.userId == userId && q.name == title && q.basePrice == price
    ensures Truthy(q.pricingModel) && Truthy(q.currency)
    ensures q.description.JStr? ==> Get(it, "description") == q.description || q.description == JStr("")
  {
    ServiceRequest(
      userId,
      Or(Or(Get(it, "business_name"), Get(it, "business")), JStr("")),
      title,
      Or(Get(it, "description"), JStr("")),
      Or(Or(Get(it, "category_name"), Get(it, "category")), JStr("")),
      Or(Get(it, "pricing_model"), JStr("flat")),
      Or(Get(it, "currency"), JStr("VND")),
      price,
      Get(it, "location"), Get(it, "place"), Get(it, "delivery"),
      Get(it, "requires_booking"), Get(it, "promo_code"))
  }

  /** The line of one item and whether it counts as created. */
  datatype Report = Report(created: bool, line: string)

  /** The error line of an item with a title. */
  function Failed(title: Json, why: string, show: Json -> string): (r: Report)
    ensures !r.created && StartsWith(r.line, Cross)
  {
    Report(false, Cross + " '" + PyStr(title, show) + "': " + why)
  }

  /** After `create_service` answered: the record's id and slug, the slug
      falling back to the lowered title with "-" for spaces; a truthy record
      that is not a dictionary, or a title that is not text when the
      fallback is needed, makes Python raise inside the `try`. */
  function CreatedReport(title: Json, created: Json, show: Json -> string): (r: Report)
    ensures r.created ==> StartsWith(r.line, Check)
    ensures !r.created ==> StartsWith(r.line, Cross)
  {
    var rec := if Truthy(created) then created else JObj(map[]);
    if !rec.JObj? then Failed(title, NoAttribute(rec, "get"), show)
    else
      var sid := Get(rec.o, "id");
      var slug := Get(rec.o, "slug");
      if Truthy(slug) then Report(true, CreatedLine(title, PyStr(slug, show), sid, show))
      else if title.JStr? then Report(true, CreatedLine(title, ReplaceChar(LowerStr(title.s), ' ', '-'), sid, show))
      else Failed(title, NoAttribute(title, "lower"), show)
  }

  /** One pass of the loop of `_create_services`. */
  function ItemReport(it: map<string, Json>, userId: string, backend: Backend, show: Json -> string): Report {
    var title := Or(Get(it, "title"), Get(it, "name"));
    if !Truthy(title) then Report(false, Cross + " Missing 'title'")
    else match BasePrice(Get(it, "base_price"))
      case None => Failed(title, "base_price must be number", show)
      case Some(p) =>
        Answered(title, backend(WebhookRequest(it, userId, title, p)), show)
  }

  /** The report once `create_service` answered or raised. */
  function Answered(title: Json, answer: Outcome<Json>, show: Json -> string): Report {
    match answer
    case Raises(e) => Failed(title, e, show)
    case Ok(created) => CreatedReport(title, created, show)
  }

  /** The lines of the first items, one per item. */
  function ReportLines(items: seq<map<string, Json>>, userId: string, backend: Backend, show: Json -> string): (r: seq<string>)
    ensures |r| == |items|
  {
    if items == [] then []
    else
      var n := |items| - 1;
      ReportLines(items[..n], userId, backend, show) + [ItemReport(items[n], userId, backend, show).line]
  }

  /** How many of the items count as created. */
  function CreatedCount(items: seq<map<string, Json>>, userId: string, backend: Backend, show: Json -> string): (ok: nat)
    ensures ok <= |items|
  {
    if items == [] then 0
    else
      var n := |items| - 1;
      CreatedCount(items[..n], userId, backend, show) + (if ItemReport(items[n], userId, backend, show).created then 1 else 0)
  }

  /** `_create_services(items, user_id)`: the loop counting `ok` and
      appending one line per item. */
  method CreateServices(items: seq<map<string, Json>>, userId: string, backend: Backend, show: Json -> string)
    returns (ok: nat, lines: seq<string>)
    ensures lines == ReportLines(items, userId, backend, show)
    ensures ok == CreatedCount(items, userId, backend, show)
  {
    ok, lines := 0, [];
    var i := 0;
    while i < |items|
      invariant 0 <= i <= |items|
      invariant lines == ReportLines(items[..i], userId, backend, show)
      invariant ok == CreatedCount(items[..i], userId, backend, show)
    {
      ReportStep(items, i, userId, backend, show);
      var it := items[i];
      var title := Or(Get(it, "title"), Get(it, "name"));
      if !Truthy(title) {
        lines := lines + [Cross + " Missing 'title'"];
        i := i + 1;
        continue;
      }
      var price := BasePrice(Get(it, "base_price"));
      if price.None? {
        lines := lines + [Failed(title, "base_price must be number", show).line];
        i := i + 1;
        continue;
      }
      var answer := backend(WebhookRequest(it, userId, title, price.value));
      if answer.Raises? {
        lines := lines + [Failed(title, answer.error, show).line];
      } else {
        var report := CreatedReport(title, answer.value, show);
        lines := lines + [report.line];
        if report.created {
          ok := ok + 1;
        }
      }
      i := i + 1;
    }
    assert items[..i] == items;
  }

  lemma ReportStep(items: seq<map<string, Json>>, i: nat, userId: string, backend: Backend, show: Json -> string)
    requires i < |items|
    ensures ReportLines(items[..i + 1], userId, backend, show) ==
      ReportLines(items[..i], userId, backend, show) + [ItemReport(items[i], userId, backend, show).line]
    ensures CreatedCount(items[..i + 1], userId, backend, show) ==
      CreatedCount(items[..i], userId, backend, show) + (if ItemReport(items[i], userId, backend, show).created then 1 else 0)
  {
    assert items[..i + 1][..i] == items[..i];
  }

  /** A line reports a creation exactly when it starts with the check mark,
      and every other line with the cross. */
  lemma ItemReportMarks(it: map<string, Json>, userId: string, backend: Backend, show: Json -> string)
    ensures var r := ItemReport(it, userId, backend, show);
      && (r.created ==> StartsWith(r.line, Check))
      && (!r.created ==> StartsWith(r.line, Cross))
  {
  }

  /** The count is the number of check-mark lines. */
  lemma {:induction false} CreatedCountIsCheckLines(items: seq<map<string, Json>>, userId: string, backend: Backend, show: Json -> string)
    ensures CreatedCount(items, userId, backend, show) == CheckLines(ReportLines(items, userId, backend, show))
    decreases |items|
  {
    if items != [] {
      var n := |items| - 1;
      CreatedCountIsCheckLines(items[..n], userId, backend, show);
      ItemReportMarks(items[n], userId, backend, show);
      CheckLinesSnoc(ReportLines(items[..n], userId, backend, show), ItemReport(items[n], userId, backend, show).line);
      assert Cross[0] != Check[0];
    }
  }

  /** The number of lines starting with the check mark. */
  function CheckLines(lines: seq<string>): nat {
    if lines == [] then 0
    else CheckLines(lines[..|lines| - 1]) + (if StartsWith(lines[|lines| - 1], Check) then 1 else 0)
  }

  lemma CheckLinesSnoc(lines: seq<string>, l: string)
    ensures CheckLines(lines + [l]) == CheckLines(lines) + (if StartsWith(l, Check) then 1 else 0)
  {
    assert (lines + [l])[..|lines|] == lines;
  }

  /** An item without a title or name gets the missing-title line and the
      backend is not asked: the line is the same whatever it would answer. */
  lemma MissingTitleLine(it: map<string, Json>, userId: string, backend: Backend, other: Backend, show: Json -> string)
    requires !Truthy(Get(it, "title")) && !Truthy(Get(it, "name"))
    ensures ItemReport(it, userId, backend, show) == Report(false, Cross + " Missing 'title'")
    ensures ItemReport(it, userId, backend, show) == ItemReport(it, userId, other, show)
  {
  }

  /** A missing price is sent as 0.0; a price `float` refuses gives the
      price line without asking the backend. */
  lemma PriceHandling(it: map<string, Json>, userId: string, backend: Backend, show: Json -> string)
    requires Truthy(Or(Get(it, "title"), Get(it, "name")))
    ensures var title := Or(Get(it, "title"), Get(it, "name"));
      && ("base_price" !in it ==>
            ItemReport(it, userId, backend, show) == Answered(title, backend(WebhookRequest(it, userId, title, 0.0)), show))
      && (BasePrice(Get(it, "base_price")).None? ==> ItemReport(it, userId, backend, show) == Failed(title, "base_price must be number", show))
  {
  }

  /** The message of the TypeError the repository's `create_service` raises:
      it has no `promo_code` parameter. */
  const PromoTypeError := "create_service() got an unexpected keyword argument 'promo_code'"

  /** With the backend as the repository has it, every call raises, so no
      service is ever counted as created. */
  lemma RepositoryBackendCreatesNothing(items: seq<map<string, Json>>, userId: string, show: Json -> string)
    ensures CreatedCount(items, userId, _ => Raises(PromoTypeError), show) == 0
  {
    var backend: Backend := _ => Raises(PromoTypeError);
    CreatedCountIsCheckLines(items, userId, backend, show);
    NoCheckLines(items, userId, backend, show);
  }

  lemma {:induction false} NoCheckLines(items: seq<map<string, Json>>, userId: string, backend: Backend, show: Json -> string)
    requires forall q :: backend(q).Raises?
    ensures CheckLines(ReportLines(items, userId, backend, show)) == 0
    decreases |items|
  {
    if items != [] {
      var n := |items| - 1;
      NoCheckLines(items[..n], userId, backend, show);
      ItemReportMarks(items[n], userId, backend, show);
      CheckLinesSnoc(ReportLines(items[..n], userId, backend, show), ItemReport(items[n], userId, backend, show).line);
      assert Cross[0] != Check[0];
    }
  }

  // ------------------------------------------------------------- documents

  const DefaultMaxZipMb := 60
  const DefaultMaxJsonMb := 5

  const MiB := 1024 * 1024

  /** The reply refusing a document over `maxMb` MiB: first by the size
      Telegram declares (zero meaning unknown), then by the bytes that came. */
  function SizeRefusal(kind: string, declared: int, downloaded: nat, maxMb: int): (r: Option<string>)
    ensures r.None? <==> (declared == 0 || declared <= maxMb * MiB) && downloaded <= maxMb * MiB
    ensures r.Some? ==> StartsWith(r.value, Cross)
  {
    if declared != 0 && declared > maxMb * MiB then
      Some(Cross + " " + kind + " too large (> " + IntToString(maxMb) + "MB).")
    else if downloaded > maxMb * MiB then
      Some(Cross + " " + kind + " too large after download (> " + IntToString(maxMb) + "MB).")
    else None
  }

  /** A Telegram document: its name, the size it declares, whether Telegram
      resolved a file path for it, and the bytes downloaded. */
  datatype Document = Document(fileName: string, declaredSize: int, resolved: bool, blob: seq<Byte>)

  /** What a document is taken as, by its lowered name. */
  datatype DocumentKind = ZipDocument | JsonDocument | OtherDocument

  function KindOf(fileName: string): (k: DocumentKind)
    ensures k == ZipDocument <==> EndsWith(LowerStr(fileName), ".zip")
    ensures k == JsonDocument <==>
      !EndsWith(LowerStr(fileName), ".zip") && (EndsWith(LowerStr(fileName), ".json") || EndsWith(LowerStr(fileName), ".ndjson"))
  {
    var name := LowerStr(fileName);
    if EndsWith(name, ".zip") then ZipDocument
    else if EndsWith(name, ".json") || EndsWith(name, ".ndjson") then JsonDocument
    else OtherDocument
  }

  /** What the outside world answers the webhook with. */
  datatype World = World(
    parse: Parser, backend: Option<Backend>, show: Json -> string,
    stageA: Outcome<map<string, Json>>, promote: Outcome<map<string, Json>>, revert: Outcome<string>,
    decoded: string)

  /** The two "Created" replies: the count over the items, then the summary. */
  function CreatedReply(items: seq<map<string, Json>>, userId: string, backend: Backend, show: Json -> string, fromFile: bool): string {
    var lines := ReportLines(items, userId, backend, show);
    "Created " + NatToString(CreatedCount(items, userId, backend, show)) + "/" + NatToString(|items|)
      + " services" + (if fromFile then " (from file)" else "") + ":\n" + Summary(lines)
  }

  const NoBackend := Cross + " Backend API not available (app.clients.backend_api)."

  /** The reply to a ZIP document: a size refusal or what Stage A said. */
  function ZipReply(doc: Document, maxZipMb: int, w: World): string {
    match SizeRefusal("ZIP", doc.declaredSize, |doc.blob|, maxZipMb)
    case Some(m) => m
    case None => StageAReply(w.stageA, w.show)
  }

  /** The reply to a JSON or NDJSON document: a size refusal, the missing
      backend, no items, or the summary of the creations. */
  function JsonFileReply(doc: Document, userId: string, maxJsonMb: int, w: World): string {
    match SizeRefusal("JSON", doc.declaredSize, |doc.blob|, maxJsonMb)
    case Some(m) => m
    case None =>
      if w.backend.None? then NoBackend
      else
        var items := ServicesFromText(w.decoded, w.parse);
        if items == [] then Cross + " No valid services found in the JSON file."
        else CreatedReply(items, userId, w.backend.value, w.show, true)
  }

  /** The reply to a document (None: no reply). */
  function DocumentReply(doc: Document, userId: string, maxZipMb: int, maxJsonMb: int, w: World): (r: Option<string>)
    ensures !doc.resolved ==> r == Some(Cross + " Cannot resolve file from Telegram.")
    ensures doc.resolved ==> (r.None? <==> KindOf(doc.fileName) == OtherDocument)
  {
    if !doc.resolved then Some(Cross + " Cannot resolve file from Telegram.")
    else if KindOf(doc.fileName) == ZipDocument then Some(ZipReply(doc, maxZipMb, w))
    else if KindOf(doc.fileName) == JsonDocument then Some(JsonFileReply(doc, userId, maxJsonMb, w))
    else None
  }

  /** The reply to what Stage A answered: its branch (or ref), or the detail
      of its failure. */
  function StageAReply(answer: Outcome<map<string, Json>>, show: Json -> string): (r: string)
    ensures answer.Raises? ==> StartsWith(r, Cross) && EndsWith(r, answer.error)
    ensures answer.Ok? ==> StartsWith(r, Check + " Stage A uploaded\nBranch: ")
    ensures answer.Ok? && Get(answer.value, "branch").JStr? && Truthy(Get(answer.value, "branch")) ==>
      EndsWith(r, Get(answer.value, "branch").s)
    ensures answer.Ok? && !Truthy(Get(answer.value, "branch")) && Get(answer.value, "ref").JStr? && Truthy(Get(answer.value, "ref")) ==>
      EndsWith(r, Get(answer.value, "ref").s)
    ensures answer.Ok? && !Truthy(Get(answer.value, "branch")) && !Truthy(Get(answer.value, "ref")) ==> EndsWith(r, "(unknown)")
  {
    match answer
    case Raises(detail) => Cross + " Stage A failed: " + detail
    case Ok(j) =>
      var branch := Or(Or(Get(j, "branch"), Get(j, "ref")), JStr("(unknown)"));
      Check + " Stage A uploaded\nBranch: " + PyStr(branch, show)
  }

  /** A document over its size limit is refused before Stage A or the
      backend are consulted: the reply does not depend on their answers. */
  lemma OversizeDocumentRefused(doc: Document, userId: string, maxZipMb: int, maxJsonMb: int, w: World, w': World)
    requires doc.resolved && KindOf(doc.fileName) != OtherDocument
    requires var lim := if KindOf(doc.fileName) == ZipDocument then maxZipMb else maxJsonMb;
      (doc.declaredSize != 0 && doc.declaredSize > lim * MiB) || |doc.blob| > lim * MiB
    ensures DocumentReply(doc, userId, maxZipMb, maxJsonMb, w) == DocumentReply(doc, userId, maxZipMb, maxJsonMb, w')
    ensures var r := DocumentReply(doc, userId, maxZipMb, maxJsonMb, w); r.Some? && StartsWith(r.value, Cross)
  {
    if KindOf(doc.fileName) == ZipDocument {
      assert SizeRefusal("ZIP", doc.declaredSize, |doc.blob|, maxZipMb).Some?;
    } else {
      assert SizeRefusal("JSON", doc.declaredSize, |doc.blob|, maxJsonMb).Some?;
    }
  }

  // ------------------------------------------------------------------ text

  const Usage := "Usage: /promote stage-a/<branch>"
  const Hint := "Send a .zip (Stage A), /promote stage-a/<branch>, /revert, or attach services.json/.ndjson."

  /** The lines under "Promoted": the pull request, tag, commit and link the
      promotion answered, each only when it is truthy, in that order. */
  function PromoteLines(j: map<string, Json>, show: Json -> string): (ls: seq<string>)
    ensures ls == [] <==> (!Truthy(Get(j, "pr_number")) && !Truthy(Get(j, "tag")) && !Truthy(Get(j, "sha"))
                           && !Truthy(Get(j, "pr_url")) && !Truthy(Get(j, "url")))
    ensures Truthy(Get(j, "pr_number")) ==> ls[0] == "PR: #" + PyStr(Get(j, "pr_number"), show)
    ensures |ls| <= 4
  {
    var pr := Get(j, "pr_number");
    var sha := Get(j, "sha");
    var tag := Get(j, "tag");
    var url := Or(Get(j, "pr_url"), Get(j, "url"));
    (if Truthy(pr) then ["PR: #" + PyStr(pr, show)] else [])
      + (if Truthy(tag) then ["Tag: " + PyStr(tag, show)] else [])
      + (if Truthy(sha) then ["SHA: " + PyStr(sha, show)] else [])
      + (if Truthy(url) then [PyStr(url, show)] else [])
  }

  /** The reply listing what the promotion answered. */
  function PromoteReply(answer: Outcome<map<string, Json>>, show: Json -> string): (r: string)
    ensures answer.Raises? ==> StartsWith(r, Cross + " Promote failed: ") && EndsWith(r, answer.error)
    ensures answer.Ok? ==> StartsWith(r, Check + " Promoted")
    ensures answer.Ok? && !Truthy(Get(answer.value, "pr_number")) && !Truthy(Get(answer.value, "tag"))
      && !Truthy(Get(answer.value, "sha")) && !Truthy(Get(answer.value, "pr_url")) && !Truthy(Get(answer.value, "url"))
      ==> r == Check + " Promoted"
    ensures answer.Ok? && Truthy(Get(answer.value, "pr_number")) ==>
      StartsWith(r, Check + " Promoted\nPR: #" + PyStr(Get(answer.value, "pr_number"), show))
  {
    match answer
    case Raises(detail) => Cross + " Promote failed: " + detail
    case Ok(j) =>
      var rest := PromoteLines(j, show);
      JoinHead(Check + " Promoted", rest, "\n");
      Join([Check + " Promoted"] + rest, "\n")
  }

  /** The reply to "/revert": the tag the revert started from, or the detail
      of its failure. */
  function RevertReply(revert: Outcome<string>): (r: string)
    ensures revert.Ok? ==> EndsWith(r, revert.value + ". Check GitHub Actions.")
    ensures revert.Raises? ==> StartsWith(r, Cross + " Revert failed: ") && EndsWith(r, revert.error)
  {
    match revert
    case Ok(tag) => "\U{1f501} Revert started to tag: " + tag + ". Check GitHub Actions."
    case Raises(detail) => Cross + " Revert failed: " + detail
  }

  /** The reply to a text message, already stripped. */
  function TextReply(text: string, userId: string, w: World): (r: string)
    ensures StartsWith(text, "/promote") ==> r == Usage || r == PromoteReply(w.promote, w.show)
    ensures !StartsWith(text, "/promote") && StartsWith(text, "/revert") ==> r == RevertReply(w.revert)
    ensures !StartsWith(text, "/promote") && !StartsWith(text, "/revert") ==>
      (AddServicesStart(text).None? ==> r == Hint)
      && (AddServicesStart(text).Some? && w.backend.None? ==> r == NoBackend)
  {
    if StartsWith(text, "/promote") then
      var parts := SplitOnce(text);
      if |parts| == 1 then Usage else PromoteReply(w.promote, w.show)
    else if StartsWith(text, "/revert") then RevertReply(w.revert)
    else match AddServicesStart(text)
      case None => Hint
      case Some(k) =>
        if w.backend.None? then NoBackend
        else match w.parse(CommentsRemoved(Strip(text[k..])))
          case Raises(e) => Cross + " JSON parse error: " + e
          case Ok(payload) =>
            var items := ServiceItems(payload);
            if items == [] then Cross + " No services found in JSON."
            else CreatedReply(items, userId, w.backend.value, w.show, false)
  }

  /** "/promote" with no branch after it, or glued to more text, gets the
      usage line and the integrator is not called. */
  lemma PromoteWithoutBranch(text: string, userId: string, w: World, w': World)
    requires StartsWith(text, "/promote")
    requires forall i :: 0 <= i < |text| ==> !IsSpace(text[i])
    ensures TextReply(text, userId, w) == Usage == TextReply(text, userId, w')
  {
    assert text[0] == '/';
    var b := WordRun(text, 0);
    assert SpaceRun(text, 0) == 0;
    WordRunToEnd(text, 0);
  }

  lemma {:induction false} WordRunToEnd(s: string, i: nat)
    requires i <= |s| && forall j :: i <= j < |s| ==> !IsSpace(s[j])
    ensures WordRun(s, i) == |s|
    decreases |s| - i
  {
    if i < |s| {
      WordRunToEnd(s, i + 1);
    }
  }

  /** A message the webhook receives: whether it names a chat, its document
      if any, its text, and the id used as the backend's user id. */
  datatype Incoming = Incoming(hasChat: bool, document: Option<Document>, text: string, userId: string)

  /** `POST /tg/{secret}/update`: 403 on a wrong secret; otherwise the one
      message sent back, if any (the route itself always answers ok). */
  function Webhook(secret: string, configured: string, m: Incoming, maxZipMb: int, maxJsonMb: int, w: World): (r: Http<Option<string>>)
    ensures secret != configured <==> r == HttpError(403, "Forbidden")
    ensures r.Answer? && !m.hasChat ==> r.value.None?
  {
    if secret != configured then HttpError(403, "Forbidden")
    else if !m.hasChat then Answer(None)
    else match m.document
      case Some(doc) => Answer(DocumentReply(doc, m.userId, maxZipMb, maxJsonMb, w))
      case None => Answer(Some(TextReply(Strip(m.text), m.userId, w)))
  }
}
