/** The Telegram "add service" bridge route (app/routes/tg_services_add_bridge.py):
    the JSON payload is taken from the first fenced block of the message, or
    from what follows a known command, and a bare service is wrapped as
    {"service": ...} before schema validation. `json.loads` is an input. */
module ServicesAddBridge {
  import opened PyText
  import opened JsonValue
  import opened Oracles
  import PyRegex

  /** The commands whose prefix is cut, in the order they are tried. */
  const CmdPrefixes: seq<string> := ["/svcjsonadd", "/svcadd", "/svcjson", "/addservice"]

  // ------------------------------------------------------------ the fence

  /** `\s*([\s\S]*?)```` from `p`: the greedy whitespace run, then the
      shortest text up to the next "```". Giving back whitespace to the
      group cannot help the closer, which starts with a backquote. */
  function GroupFrom(t: string, p: nat): (r: Option<string>)
    requires p <= |t|
    ensures r.Some? ==> !Contains(r.value, "```")
  {
    var q := SpaceRun(t, p);
    var c := FindFrom(t, "```", q);
    if c == -1 then None
    else
      var g := t[q..c];
      OccursOfSlice(t, "```", q, c);
      assert !Contains(g, "```");
      Some(g)
  }

  /** Whether the optional "json" tag (in any case) follows at `a`. */
  predicate JsonTagAt(t: string, a: nat) {
    a + 4 <= |t| && LowerStr(t[a..a + 4]) == "json"
  }

  /** `FENCE_RX` tried at `i`: "```", the optional tag (tried with it
      first), then the group. */
  function FenceAt(t: string, i: nat): (r: Option<string>)
    requires i <= |t|
    ensures r.Some? ==> OccursAt(t, "```", i) && !Contains(r.value, "```")
  {
    if !OccursAt(t, "```", i) then None
    else if JsonTagAt(t, i + 3) && GroupFrom(t, i + 7).Some? then GroupFrom(t, i + 7)
    else GroupFrom(t, i + 3)
  }

  function FenceAttempts(t: string): (r: seq<Option<string>>)
    ensures |r| == |t| + 1 && forall i :: 0 <= i <= |t| ==> r[i] == FenceAt(t, i)
  {
    seq(|t| + 1, i requires 0 <= i <= |t| => FenceAt(t, i))
  }

  /** `FENCE_RX.search(text).group(1)`, or None. */
  function FenceBlock(t: string): Option<string> {
    var att := FenceAttempts(t);
    match PyRegex.Leftmost(att, 0)
    case None => None
    case Some(i) => att[i]
  }

  /** The block found is the one of the leftmost fence that closes, and it
      holds no "```" of its own. */
  lemma FenceBlockLeftmost(t: string)
    ensures FenceBlock(t).Some? <==> exists i :: 0 <= i <= |t| && FenceAt(t, i).Some?
    ensures FenceBlock(t).Some? ==>
      exists i :: 0 <= i <= |t| && FenceAt(t, i) == FenceBlock(t) && forall j :: 0 <= j < i ==> FenceAt(t, j).None?
    ensures FenceBlock(t).Some? ==> !Contains(FenceBlock(t).value, "```")
  {
    var att := FenceAttempts(t);
    match PyRegex.Leftmost(att, 0)
    case None =>
      assert forall i :: 0 <= i <= |t| ==> att[i].None?;
    case Some(i) =>
      assert FenceAt(t, i) == FenceBlock(t);
  }

  /** A tagged fence gives the text after the tag and its whitespace. */
  lemma TaggedFence(t: string, i: nat)
    requires i + 7 <= |t| && OccursAt(t, "```", i) && JsonTagAt(t, i + 3)
    requires GroupFrom(t, i + 7).Some?
    ensures FenceAt(t, i) == Some(t[SpaceRun(t, i + 7)..FindFrom(t, "```", SpaceRun(t, i + 7))])
  {
  }

  // ---------------------------------------------------------- the command

  /** The loop over `CMD_PREFIXES`: the first command the lowered text
      starts with is cut off and the rest trimmed; the text is kept when
      none matches. */
  function CutCommand(s: string, lower: string, cmds: seq<string>): string
    requires |lower| == |s|
  {
    if cmds == [] then s
    else if StartsWith(lower, cmds[0]) then Strip(s[|cmds[0]|..])
    else CutCommand(s, lower, cmds[1..])
  }

  /** `cmds[k]` is the first command the lowered text starts with. */
  predicate FirstMatch(lower: string, cmds: seq<string>, k: nat)
    requires k < |cmds|
  {
    StartsWith(lower, cmds[k]) && forall j :: 0 <= j < k ==> !StartsWith(lower, cmds[j])
  }

  /** The text is kept when no command matches. */
  lemma {:induction false} CutCommandNone(s: string, lower: string, cmds: seq<string>)
    requires |lower| == |s| && forall k :: 0 <= k < |cmds| ==> !StartsWith(lower, cmds[k])
    ensures CutCommand(s, lower, cmds) == s
    decreases |cmds|
  {
    if cmds != [] {
      assert !StartsWith(lower, cmds[0]);
      assert forall k :: 0 <= k < |cmds[1..]| ==> cmds[1..][k] == cmds[k + 1];
      CutCommandNone(s, lower, cmds[1..]);
    }
  }

  /** The command cut is the first one in declared order that matches. */
  lemma {:induction false} CutCommandFirst(s: string, lower: string, cmds: seq<string>, k: nat)
    requires |lower| == |s| && k < |cmds| && FirstMatch(lower, cmds, k)
    ensures CutCommand(s, lower, cmds) == Strip(s[|cmds[k]|..])
    decreases k
  {
    if k > 0 {
      assert !StartsWith(lower, cmds[0]);
      var rest := cmds[1..];
      assert rest[k - 1] == cmds[k];
      assert FirstMatch(lower, rest, k - 1);
      CutCommandFirst(s, lower, rest, k - 1);
    }
  }

  /** `extract_json_block(text)`. */
  function ExtractJsonBlock(text: string): string {
    match FenceBlock(text)
    case Some(g) => Strip(g)
    case None =>
      var s := Strip(text);
      CutCommand(s, LowerStr(s), CmdPrefixes)
  }

  /** With no closed fence, the trimmed text loses the first command of
      the declared list that it starts with (in any case), else is kept. */
  lemma ExtractWithoutFence(text: string, k: nat)
    requires FenceBlock(text).None?
    ensures var s := Strip(text);
      (forall j :: 0 <= j < |CmdPrefixes| ==> !StartsWith(LowerStr(s), CmdPrefixes[j])) ==> ExtractJsonBlock(text) == s
    ensures var s := Strip(text);
      k < |CmdPrefixes| && FirstMatch(LowerStr(s), CmdPrefixes, k) ==> ExtractJsonBlock(text) == Strip(s[|CmdPrefixes[k]|..])
  {
    var s := Strip(text);
    if forall j :: 0 <= j < |CmdPrefixes| ==> !StartsWith(LowerStr(s), CmdPrefixes[j]) {
      CutCommandNone(s, LowerStr(s), CmdPrefixes);
    }
    if k < |CmdPrefixes| && FirstMatch(LowerStr(s), CmdPrefixes, k) {
      CutCommandFirst(s, LowerStr(s), CmdPrefixes, k);
    }
  }

  /** "/svcjsonadd" is tried before "/svcjson", which is its prefix: the
      whole longer command is cut. */
  lemma LongerCommandFirst(text: string)
    requires FenceBlock(text).None? && StartsWith(LowerStr(Strip(text)), "/svcjsonadd")
    ensures ExtractJsonBlock(text) == Strip(Strip(text)[11..])
  {
  }

  /** The extracted payload never starts or ends with whitespace. */
  lemma ExtractTrimmed(text: string)
    ensures var r := ExtractJsonBlock(text);
      r == [] || (!IsSpace(r[0]) && !IsSpace(r[|r| - 1]))
  {
    if FenceBlock(text).None? {
      var s := Strip(text);
      CutCommandTrimmed(s, LowerStr(s), CmdPrefixes);
    }
  }

  lemma {:induction false} CutCommandTrimmed(s: string, lower: string, cmds: seq<string>)
    requires |lower| == |s| && (s == [] || (!IsSpace(s[0]) && !IsSpace(s[|s| - 1])))
    ensures var r := CutCommand(s, lower, cmds);
      r == [] || (!IsSpace(r[0]) && !IsSpace(r[|r| - 1]))
    decreases |cmds|
  {
    if cmds != [] && !StartsWith(lower, cmds[0]) {
      CutCommandTrimmed(s, lower, cmds[1..]);
    }
  }

  // ------------------------------------------------------------ the route

  /** The payload-shape rule: a dictionary with a dictionary "service" is
      kept, anything else becomes the "service" of a new dictionary. */
  function Wrap(data: Json): (r: map<string, Json>)
    ensures "service" in r
  {
    if data.JObj? && "service" in data.o && data.o["service"].JObj? then data.o
    else map["service" := data]
  }

  /** The data is kept exactly when it already has the wrapped shape;
      otherwise it is the "service" of a one-key dictionary. */
  lemma WrapMeaning(data: Json)
    ensures data.JObj? && Wrap(data) == data.o <==> data.JObj? && "service" in data.o && data.o["service"].JObj?
    ensures !(data.JObj? && "service" in data.o && data.o["service"].JObj?) ==>
      Wrap(data).Keys == {"service"} && Wrap(data)["service"] == data
  {
  }

  /** `telegram_service_add` up to schema validation: the request data, or
      the 400 raised. */
  function TelegramServiceAdd(text: string, parse: string -> Outcome<Json>): (r: Http<map<string, Json>>)
    ensures r.HttpError? ==> r.status == 400
    ensures r.Answer? ==> "service" in r.value && ExtractJsonBlock(text) != [] && parse(ExtractJsonBlock(text)).Ok?
  {
    var raw := ExtractJsonBlock(text);
    if raw == [] then HttpError(400, "No JSON payload found after command")
    else match parse(raw)
      case Raises(e) => HttpError(400, "Invalid JSON: " + e)
      case Ok(data) => Answer(Wrap(data))
  }

  /** An empty payload and invalid JSON are both 400s; anything that parses
      goes on, wrapped, to validation. */
  lemma ServiceAddCases(text: string, parse: string -> Outcome<Json>)
    ensures var r := TelegramServiceAdd(text, parse);
      var raw := ExtractJsonBlock(text);
      && (r.HttpError? <==> raw == [] || parse(raw).Raises?)
      && (r.HttpError? ==> r.status == 400)
      && (r.Answer? ==> "service" in r.value && r.value == Wrap(parse(raw).value))
  {
    var raw := ExtractJsonBlock(text);
    if raw != [] && parse(raw).Ok? {
      WrapMeaning(parse(raw).value);
    }
  }
}
