/** The Stage D document handler (bot/tg_stage_d.py): a patch, a service JSON
    or a YAML edit spec sent as a Telegram document goes to the integrator's
    Stage D routes, to the dry-run route when the caption asks for it. The
    download, the integrator's answer, `json.loads`/`json.dumps` and the
    clock are inputs. */
module StageD {
  import opened PyText
  import opened JsonValue
  import opened Oracles
  import opened JsonChat
  import ServiceJsonText

  // ------------------------------------------------------------------ slug

  /** `os.path.basename(p)`: what follows the last "/". */
  function Basename(p: string): (r: string)
    ensures forall i :: 0 <= i < |r| ==> r[i] != '/'
  {
    var k := RFind(p, "/");
    var r := p[k + 1..];
    assert forall i :: 0 <= i < |r| ==> r[i] != '/' by {
      forall i | 0 <= i < |r| ensures r[i] != '/' {
        assert !OccursAt(p, "/", k + 1 + i);
        assert p[k + 1 + i..k + 1 + i + 1] == [r[i]];
      }
    }
    r
  }

  /** `os.path.splitext(b)[0]` for a name without "/": the text before the
      last ".", unless only dots come before it (".env" keeps its dot). */
  function Stem(b: string): (r: string)
    ensures |r| <= |b|
  {
    var d := RFind(b, ".");
    if d != -1 && exists j :: 0 <= j < d && b[j] != '.' then b[..d] else b
  }

  /** `(v or {}).get("name")`: the AttributeError when `v` is truthy and not
      a dictionary. */
  function NestedName(v: Json): (r: Outcome<Json>)
    ensures !Truthy(v) ==> r == Ok(JNull)
    ensures v.JObj? ==> r == Ok(Get(v.o, "name"))
  {
    var o := if Truthy(v) then v else JObj(map[]);
    if o.JObj? then Ok(Get(o.o, "name")) else Raises(NoAttribute(o, "get"))
  }

  /** The `name` expression: "name", then service.name, then metadata.name,
      else "id", for a dictionary payload; None otherwise. */
  function PayloadName(payload: Json): Outcome<Json> {
    if !payload.JObj? then Ok(JNull)
    else
      var p := payload.o;
      if Truthy(Get(p, "name")) then Ok(Get(p, "name"))
      else match NestedName(Get(p, "service"))
        case Raises(e) => Raises(e)
        case Ok(s) =>
          if Truthy(s) then Ok(s)
          else match NestedName(Get(p, "metadata"))
            case Raises(e) => Raises(e)
            case Ok(m) => if Truthy(m) then Ok(m) else Ok(Get(p, "id"))
  }

  /** The name the slug is made from when the payload names nothing: the
      file's stem, else "svc-<now>". */
  function FallbackName(fileName: string, now: nat): string {
    var base := Stem(Basename(fileName));
    if base != [] then base else ServiceJsonText.ClockSlug(now)
  }

  /** `_derive_service_slug(payload, filename)`. */
  function DeriveServiceSlug(payload: Json, fileName: string, now: nat, show: Json -> string): (r: Outcome<string>)
    ensures r.Ok? ==> 1 <= |r.value| <= 60 && forall i :: 0 <= i < |r.value| ==> ServiceJsonText.DotSlugChar(r.value[i])
  {
    match PayloadName(payload)
    case Raises(e) => Raises(e)
    case Ok(name) =>
      Ok(ServiceJsonText.DottedSlug(if Truthy(name) then PyStr(name, show) else FallbackName(fileName, now), now))
  }

  /** A truthy "name" decides the slug whatever else the payload holds. */
  lemma NameFirst(p: map<string, Json>, fileName: string, now: nat, show: Json -> string)
    requires Truthy(Get(p, "name"))
    ensures DeriveServiceSlug(JObj(p), fileName, now, show) == Ok(ServiceJsonText.DottedSlug(PyStr(p["name"], show), now))
  {
  }

  /** Then service.name, then metadata.name, then "id". */
  lemma NestedNamesNext(p: map<string, Json>, s: map<string, Json>, fileName: string, now: nat, show: Json -> string)
    requires !Truthy(Get(p, "name")) && Get(p, "service") == JObj(s)
    ensures Truthy(Get(s, "name")) ==>
      DeriveServiceSlug(JObj(p), fileName, now, show) == Ok(ServiceJsonText.DottedSlug(PyStr(s["name"], show), now))
    ensures !Truthy(Get(s, "name")) && !Truthy(Get(p, "metadata")) && Truthy(Get(p, "id")) ==>
      DeriveServiceSlug(JObj(p), fileName, now, show) == Ok(ServiceJsonText.DottedSlug(PyStr(p["id"], show), now))
  {
  }

  /** A payload naming nothing takes the file's stem, or the clock. */
  lemma StemWhenUnnamed(payload: Json, fileName: string, now: nat, show: Json -> string)
    requires PayloadName(payload).Ok? && !Truthy(PayloadName(payload).value)
    ensures DeriveServiceSlug(payload, fileName, now, show) == Ok(ServiceJsonText.DottedSlug(FallbackName(fileName, now), now))
  {
  }

  /** A truthy "service" that is not a dictionary, with no "name" before it,
      makes the derivation raise. */
  lemma ServiceNotDictRaises(p: map<string, Json>, fileName: string, now: nat, show: Json -> string)
    requires !Truthy(Get(p, "name")) && Truthy(Get(p, "service")) && !Get(p, "service").JObj?
    ensures DeriveServiceSlug(JObj(p), fileName, now, show) == Raises(NoAttribute(Get(p, "service"), "get"))
  {
  }

  // --------------------------------------------------------------- handler

  const DefaultMaxBytes := 500 * 1024

  /** What a document is taken as, by its lowered name. */
  datatype DocKind = Patch | ServiceJson | Spec | Ignored

  function KindOf(name: string): (k: DocKind)
    ensures k != Ignored <==>
      EndsWith(name, ".patch") || EndsWith(name, ".diff") || EndsWith(name, ".yaml")
      || EndsWith(name, ".yml") || EndsWith(name, ".json")
  {
    if EndsWith(name, ".patch") || EndsWith(name, ".diff") then Patch
    else if EndsWith(name, ".json") then ServiceJson
    else if EndsWith(name, ".yaml") || EndsWith(name, ".yml") then Spec
    else Ignored
  }

  /** A caption asks for a dry run when it holds "dryrun" in any case. */
  predicate Dry(caption: string) {
    Contains(LowerStr(caption), "dryrun")
  }

  /** The Stage D route a document goes to. */
  function Endpoint(k: DocKind, dry: bool): string {
    "/integrations/stage-d/" + (if dry then "dry-run" else if k == Patch then "submit-patch" else "submit-edits")
  }

  /** Where a service's JSON is created. */
  function ServicePath(svc: string): string {
    "services/" + svc + "/service.json"
  }

  /** The edit spec of a service JSON: one file.create of its content. */
  function EditSpec(svc: string, content: string): Json {
    JObj(map["edits" := JArr([JObj(map[
      "op" := JStr("file.create"),
      "path" := JStr(ServicePath(svc)),
      "content" := JStr(content + "\n")])])])
  }

  /** The file part of the form. */
  datatype Upload = RawFile(fileName: string, data: seq<Byte>, contentType: string) | EditFile(spec: Json)

  /** What the handler does with a document. */
  datatype Action =
    | Ignore
    | Reply(text: string)
    | Submit(kind: DocKind, dry: bool, path: string, title: string, formKind: Option<string>, upload: Upload, service: Option<string>)

  const TooLarge := Cross + " File too large (max 500KB)."

  /** The form title of a patch or a spec. */
  function UploadTitle(username: string, now: nat): string {
    "tg-" + (if username == [] then "user" else username) + "-" + NatToString(now)
  }

  /** `handle_docs`: the action taken, or what escapes it (the slug
      derivation runs outside every `try`). */
  function HandleDocs(fileName: string, caption: string, username: string, download: Outcome<seq<Byte>>,
                      parse: seq<Byte> -> Outcome<Json>, dumps: Json -> string, maxBytes: int, now: nat,
                      show: Json -> string): (r: Outcome<Action>)
    ensures r.Raises? ==> KindOf(LowerStr(fileName)) == ServiceJson && download.Ok? && |download.value| <= maxBytes
    ensures r.Ok? && r.value.Submit? ==>
      && r.value.kind == KindOf(LowerStr(fileName)) && r.value.kind != Ignored
      && download.Ok? && |download.value| <= maxBytes
  {
    var name := LowerStr(fileName);
    var k := KindOf(name);
    if k == Ignored then Ok(Ignore)
    else match download
      case Raises(e) => Ok(Reply(Cross + " Failed to download file: " + e))
      case Ok(data) =>
        if |data| > maxBytes then Ok(Reply(TooLarge))
        else
          var dry := Dry(caption);
          var title := UploadTitle(username, now);
          if k == Patch then
            Ok(Submit(k, dry, Endpoint(k, dry), title, if dry then Some("patch") else None, RawFile(fileName, data, "text/x-diff"), None))
          else if k == ServiceJson then ServiceSubmit(data, fileName, dry, parse, dumps, now, show)
          else
            var ct := if EndsWith(name, ".yaml") || EndsWith(name, ".yml") then "application/x-yaml" else "application/json";
            Ok(Submit(k, dry, Endpoint(k, dry), title, if dry then Some("edits") else None, RawFile(fileName, data, ct), None))
  }

  /** The JSON branch of `handle_docs`. */
  function ServiceSubmit(data: seq<Byte>, fileName: string, dry: bool, parse: seq<Byte> -> Outcome<Json>,
                         dumps: Json -> string, now: nat, show: Json -> string): (r: Outcome<Action>)
    ensures r.Ok? && r.value.Submit? ==> r.value.kind == ServiceJson && r.value.path == Endpoint(ServiceJson, dry)
  {
    match parse(data)
    case Raises(_) => Ok(Reply(Cross + " Invalid JSON."))
    case Ok(payload) =>
      match DeriveServiceSlug(payload, fileName, now, show)
      case Raises(e) => Raises(e)
      case Ok(svc) =>
        Ok(Submit(ServiceJson, dry, Endpoint(ServiceJson, dry), "service-" + svc,
                  if dry then Some("edits") else None, EditFile(EditSpec(svc, dumps(payload))), Some(svc)))
  }

  /** Only .patch, .diff, .yaml, .yml and .json documents are handled. */
  lemma OnlyFiveExtensions(fileName: string, caption: string, username: string, download: Outcome<seq<Byte>>,
                           parse: seq<Byte> -> Outcome<Json>, dumps: Json -> string, maxBytes: int, now: nat, show: Json -> string)
    ensures var r := HandleDocs(fileName, caption, username, download, parse, dumps, maxBytes, now, show);
      var name := LowerStr(fileName);
      r == Ok(Ignore) <==>
        !(EndsWith(name, ".patch") || EndsWith(name, ".diff") || EndsWith(name, ".yaml") || EndsWith(name, ".yml") || EndsWith(name, ".json"))
  {
  }

  /** Whatever is submitted goes to the dry-run route, with a form kind,
      exactly when the caption asks for a dry run. */
  lemma DryRunDispatch(fileName: string, caption: string, username: string, download: Outcome<seq<Byte>>,
                       parse: seq<Byte> -> Outcome<Json>, dumps: Json -> string, maxBytes: int, now: nat, show: Json -> string)
    requires var r := HandleDocs(fileName, caption, username, download, parse, dumps, maxBytes, now, show);
      r.Ok? && r.value.Submit?
    ensures var a := HandleDocs(fileName, caption, username, download, parse, dumps, maxBytes, now, show).value;
      && (a.path == "/integrations/stage-d/dry-run" <==> Dry(caption))
      && (a.formKind.Some? <==> Dry(caption))
      && a.kind == KindOf(LowerStr(fileName))
  {
    var a := HandleDocs(fileName, caption, username, download, parse, dumps, maxBytes, now, show).value;
    EndpointDry(a.kind, Dry(caption));
  }

  lemma EndpointDry(k: DocKind, dry: bool)
    ensures Endpoint(k, dry) == "/integrations/stage-d/dry-run" <==> dry
  {
    var tail := if dry then "dry-run" else if k == Patch then "submit-patch" else "submit-edits";
    if !dry {
      assert Endpoint(k, dry)[22] != "/integrations/stage-d/dry-run"[22];
    }
  }

  /** A downloaded file over the limit is refused before anything else. */
  lemma OversizeRefused(fileName: string, caption: string, username: string, data: seq<Byte>,
                        parse: seq<Byte> -> Outcome<Json>, dumps: Json -> string, maxBytes: int, now: nat, show: Json -> string)
    requires KindOf(LowerStr(fileName)) != Ignored && |data| > maxBytes
    ensures HandleDocs(fileName, caption, username, Ok(data), parse, dumps, maxBytes, now, show) == Ok(Reply(TooLarge))
  {
  }

  /** A JSON document that parses becomes one file.create edit of its
      service's service.json, titled after the service. */
  lemma JsonBecomesOneEdit(fileName: string, caption: string, username: string, data: seq<Byte>,
                           parse: seq<Byte> -> Outcome<Json>, dumps: Json -> string, maxBytes: int, now: nat, show: Json -> string)
    requires KindOf(LowerStr(fileName)) == ServiceJson && |data| <= maxBytes
    requires parse(data).Ok? && DeriveServiceSlug(parse(data).value, fileName, now, show).Ok?
    ensures var svc := DeriveServiceSlug(parse(data).value, fileName, now, show).value;
      HandleDocs(fileName, caption, username, Ok(data), parse, dumps, maxBytes, now, show)
        == Ok(Submit(ServiceJson, Dry(caption), Endpoint(ServiceJson, Dry(caption)), "service-" + svc,
                     if Dry(caption) then Some("edits") else None,
                     EditFile(EditSpec(svc, dumps(parse(data).value))), Some(svc)))
  {
  }

  // ------------------------------------------------------------ the answer

  /** What the integrator answered: its status with the branch and file
      names of the body, or what was raised on the way. */
  datatype Posted = Posted(status: int, branch: Json, files: seq<string>) | PostFailed(error: string)

  /** The reply to the integrator's answer. */
  function SubmitReply(k: DocKind, dry: bool, svc: string, answer: Posted, show: Json -> string): string {
    var what := if k == Patch then "Patch" else if k == ServiceJson then "Service apply" else "Spec";
    match answer
    case PostFailed(e) => Cross + " " + what + " failed: " + e
    case Posted(status, branch, files) =>
      if status < 300 then
        Check + " " + (if k == Patch then "Patch " else if k == ServiceJson then "Service '" + svc + "' " else "Spec ")
          + (if dry then "(dry-run) " else "") + (if k == ServiceJson then "applied" else "ok")
          + "\nBranch: " + PyStr(branch, show)
          + "\nFiles: " + (if files == [] then "(none)" else Join(files, ", "))
      else Cross + " " + what + " error " + IntToString(status) + "."
  }

  /** A success reply names the branch and says "(dry-run)" exactly for a
      dry run; a status of 300 or more gives the error line. */
  lemma SubmitReplyShape(k: DocKind, dry: bool, svc: string, answer: Posted, show: Json -> string)
    requires answer.Posted?
    ensures answer.status < 300 ==> StartsWith(SubmitReply(k, dry, svc, answer, show), Check)
    ensures answer.status >= 300 ==> StartsWith(SubmitReply(k, dry, svc, answer, show), Cross)
  {
  }
}
