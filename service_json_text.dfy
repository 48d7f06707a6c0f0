/** Service JSON pasted as chat text (bot/service_json_text.py): the JSON is
    cut out of the message and cleaned, and a service slug is derived from
    the first naming field. The dotted slug defined here is also the one of
    bot/tg_stage_d.py. The clock is the parameter `now`. */
module ServiceJsonText {
  import opened PyText
  import opened JsonValue
  import opened Oracles
  import opened JsonChat

  // ------------------------------------------------------------------ slug

  /** The characters `[a-z0-9._-]` keeps. */
  predicate DotSlugChar(c: char) {
    IsAsciiLower(c) || IsDigit(c) || c == '.' || c == '_' || c == '-'
  }

  /** The stripped, lowered name with each run of other characters made one
      "-". */
  function DashedName(name: string): string {
    ReplaceRuns(LowerStr(Strip(name)), c => !DotSlugChar(c), '-')
  }

  /** The slug when the name leaves nothing. */
  function ClockSlug(now: nat): (r: string)
    ensures |r| >= 5 && r[0] == 's'
    ensures forall i :: 0 <= i < |r| ==> DotSlugChar(r[i])
  {
    "svc-" + NatToString(now)
  }

  /** `_slugify(name)`: `[a-z0-9._-]` kept, other runs one "-", dashes
      trimmed, "svc-<now>" when nothing is left, cut to 60 characters. */
  function DottedSlug(name: string, now: nat): (r: string)
    ensures 1 <= |r| <= 60 && r[0] != '-'
    ensures forall i :: 0 <= i < |r| ==> DotSlugChar(r[i])
  {
    CutSlug(TrimmedDashes(name), now)
  }

  /** The dashed name with its "-" trimmed at both ends. */
  function TrimmedDashes(name: string): (r: string)
    ensures r == [] || (r[0] != '-' && r[|r| - 1] != '-')
    ensures forall i :: 0 <= i < |r| ==> DotSlugChar(r[i])
  {
    var d := DashedName(name);
    DashedNameChars(name);
    StripCharSlugChars(d);
    StripChar(d, '-')
  }

  lemma DashedNameChars(name: string)
    ensures forall i :: 0 <= i < |DashedName(name)| ==> DotSlugChar(DashedName(name)[i])
  {
  }

  /** Trimming a character keeps only characters of the text. */
  lemma StripCharSlugChars(d: string)
    requires forall i :: 0 <= i < |d| ==> DotSlugChar(d[i])
    ensures forall i :: 0 <= i < |StripChar(d, '-')| ==> DotSlugChar(StripChar(d, '-')[i])
  {
    var r := StripChar(d, '-');
    forall i | 0 <= i < |r| ensures DotSlugChar(r[i]) {
      assert r[i] in d;
    }
  }

  /** The clock slug in place of an empty one, then the cut to 60. */
  function CutSlug(slug: string, now: nat): (r: string)
    requires slug == [] || slug[0] != '-'
    requires forall i :: 0 <= i < |slug| ==> DotSlugChar(slug[i])
    ensures 1 <= |r| <= 60 && r[0] != '-'
    ensures forall i :: 0 <= i < |r| ==> DotSlugChar(r[i])
    ensures slug != [] ==> r == Take(slug, 60)
  {
    Take(if slug == [] then ClockSlug(now) else slug, 60)
  }

  /** A slug already in this form is kept as it is, whatever the clock. */
  lemma DottedSlugKeeps(s: string, now: nat)
    requires 1 <= |s| <= 60 && s[0] != '-' && s[|s| - 1] != '-'
    requires forall i :: 0 <= i < |s| ==> DotSlugChar(s[i])
    ensures DottedSlug(s, now) == s
  {
    DashedNameOfSlug(s);
    assert TrimmedDashes(s) == StripChar(s, '-') == s;
  }

  lemma DashedNameOfSlug(s: string)
    requires forall i :: 0 <= i < |s| ==> DotSlugChar(s[i])
    ensures DashedName(s) == s
  {
    StripOfSlug(s);
    LowerOfSlug(s);
    ReplaceRunsOfClean(s, c => !DotSlugChar(c), '-');
  }

  lemma StripOfSlug(s: string)
    requires forall i :: 0 <= i < |s| ==> DotSlugChar(s[i])
    ensures Strip(s) == s
  {
    if s != [] {
      assert DotSlugChar(s[0]) && DotSlugChar(s[|s| - 1]);
    }
    StripOfStripped(s);
  }

  lemma LowerOfSlug(s: string)
    requires forall i :: 0 <= i < |s| ==> DotSlugChar(s[i])
    ensures LowerStr(s) == s
  {
    assert forall i :: 0 <= i < |s| ==> LowerStr(s)[i] == s[i];
  }

  // -------------------------------------------------------------- lookups

  /** Following `keys` from `cur`: None (JNull) at a missing key or a value
      that is not a dictionary. */
  function Walk(cur: Json, keys: seq<string>): Json {
    if keys == [] then cur
    else if cur.JObj? && keys[0] in cur.o then Walk(cur.o[keys[0]], keys[1..])
    else JNull
  }

  /** `_get(d, path)`: the walk along the dot-separated keys. */
  method GetPath(d: Json, path: string) returns (r: Json)
    ensures r == Walk(d, Split(path, '.'))
  {
    var keys := Split(path, '.');
    var cur := d;
    var i := 0;
    while i < |keys|
      invariant 0 <= i <= |keys|
      invariant Walk(d, keys) == Walk(cur, keys[i..])
    {
      assert keys[i..][1..] == keys[i + 1..];
      if cur.JObj? && keys[i] in cur.o {
        cur := cur.o[keys[i]];
      } else {
        return JNull;
      }
      i := i + 1;
    }
    r := cur;
  }

  /** A walk splits at any point into two walks. */
  lemma {:induction false} WalkAppend(d: Json, a: seq<string>, b: seq<string>)
    ensures Walk(d, a + b) == Walk(Walk(d, a), b)
    decreases |a|
  {
    if a == [] {
      assert a + b == b;
    } else {
      assert (a + b)[1..] == a[1..] + b;
      if d.JObj? && a[0] in d.o {
        WalkAppend(d.o[a[0]], a[1..], b);
      }
    }
  }

  lemma SplitFirst(s: string, sep: char, k: nat)
    requires k < |s| && s[k] == sep && forall j :: 0 <= j < k ==> s[j] != sep
    ensures Split(s, sep) == [s[..k]] + Split(s[k + 1..], sep)
  {
    assert IndexOfChar(s, sep, 0) == k;
  }

  lemma SplitNone(s: string, sep: char)
    requires forall j :: 0 <= j < |s| ==> s[j] != sep
    ensures Split(s, sep) == [s]
  {
  }

  /** The dotted paths split into their keys. */
  lemma DottedPaths()
    ensures Split("name", '.') == ["name"]
    ensures Split("service.name", '.') == ["service", "name"]
    ensures Split("metadata.name", '.') == ["metadata", "name"]
  {
    SplitNone("name", '.');
    SplitServiceName();
    SplitMetadataName();
  }

  lemma SplitServiceName()
    ensures Split("service.name", '.') == ["service", "name"]
  {
    assert "service.name" == "service" + ['.'] + "name";
    SplitTwo("service", "name", '.');
  }

  lemma SplitMetadataName()
    ensures Split("metadata.name", '.') == ["metadata", "name"]
  {
    assert "metadata.name" == "metadata" + ['.'] + "name";
    SplitTwo("metadata", "name", '.');
  }

  /** Two keys joined by the separator split back into the two. */
  lemma SplitTwo(a: string, b: string, sep: char)
    requires sep !in a && sep !in b
    ensures Split(a + [sep] + b, sep) == [a, b]
  {
    var s := a + [sep] + b;
    assert forall j :: 0 <= j < |a| ==> s[j] == a[j];
    SplitFirst(s, sep, |a|);
    assert s[..|a|] == a && s[|a| + 1..] == b;
    SplitNone(b, sep);
  }

  /** The naming fields, in the order they are tried. */
  const CandidatePaths: seq<string> := ["name", "service.name", "metadata.name", "id", "title", "business_name"]

  /** The first truthy value. */
  function FirstTruthy(cs: seq<Json>): (r: Option<Json>)
    ensures r.Some? ==> Truthy(r.value) && r.value in cs
    ensures r.None? <==> forall k :: 0 <= k < |cs| ==> !Truthy(cs[k])
  {
    if cs == [] then None
    else if Truthy(cs[0]) then Some(cs[0])
    else FirstTruthy(cs[1..])
  }

  /** The value of the first truthy position wins. */
  lemma {:induction false} FirstTruthyAt(cs: seq<Json>, k: nat)
    requires k < |cs| && Truthy(cs[k])
    requires forall j :: 0 <= j < k ==> !Truthy(cs[j])
    ensures FirstTruthy(cs) == Some(cs[k])
    decreases k
  {
    if k > 0 {
      FirstTruthyAt(cs[1..], k - 1);
    }
  }

  /** The values of the naming fields in a payload. */
  function Candidates(payload: map<string, Json>): (r: seq<Json>)
    ensures |r| == |CandidatePaths|
  {
    seq(|CandidatePaths|, k requires 0 <= k < |CandidatePaths| => Walk(JObj(payload), Split(CandidatePaths[k], '.')))
  }

  /** `_derive_service_slug(payload)`: the slug of the first truthy naming
      field, else of "svc". */
  function DeriveServiceSlug(payload: map<string, Json>, now: nat, show: Json -> string): (r: string)
    ensures 1 <= |r| <= 60 && forall i :: 0 <= i < |r| ==> DotSlugChar(r[i])
  {
    match FirstTruthy(Candidates(payload))
    case Some(c) => DottedSlug(PyStr(c, show), now)
    case None => DottedSlug("svc", now)
  }

  /** The first truthy naming field gives the slug; with none, it is "svc". */
  lemma DeriveServiceSlugOrder(payload: map<string, Json>, now: nat, show: Json -> string, k: nat)
    requires k < |CandidatePaths| && Truthy(Candidates(payload)[k])
    requires forall j :: 0 <= j < k ==> !Truthy(Candidates(payload)[j])
    ensures DeriveServiceSlug(payload, now, show) == DottedSlug(PyStr(Candidates(payload)[k], show), now)
  {
    FirstTruthyAt(Candidates(payload), k);
  }

  /** A truthy "name" field always gives the slug. */
  lemma NameWins(payload: map<string, Json>, now: nat, show: Json -> string)
    requires Truthy(Get(payload, "name"))
    ensures DeriveServiceSlug(payload, now, show) == DottedSlug(PyStr(payload["name"], show), now)
  {
    SplitNone("name", '.');
    var c := Candidates(payload);
    assert CandidatePaths[0] == "name";
    assert c[0] == Walk(JObj(payload), ["name"]);
    assert "name" in payload;
    assert c[0] == Walk(payload["name"], []);
    DeriveServiceSlugOrder(payload, now, show, 0);
  }

  lemma DeriveServiceSlugDefault(payload: map<string, Json>, now: nat, show: Json -> string)
    requires forall j :: 0 <= j < |CandidatePaths| ==> !Truthy(Candidates(payload)[j])
    ensures DeriveServiceSlug(payload, now, show) == "svc"
  {
    DottedSlugKeeps("svc", now);
  }

  // ------------------------------------------------------------ extraction

  /** The whitespace `[ \t\r\f\v]` collapses (not newlines). */
  predicate HSpace(c: char) {
    c == ' ' || c == '\t' || c == '\r' || c == '\U{000C}' || c == '\U{000B}'
  }

  /** The end of `w1`, optional whitespace, `w2` matched at `i` ignoring
      case. */
  function WordsEnd(t: string, i: nat, w1: string, w2: string): (r: Option<nat>)
    requires i <= |t|
    ensures r.Some? ==> r.value <= |t|
  {
    if !WordAt(t, i, w1) then None
    else
      var j := SpaceRun(t, i + |w1|);
      if WordAt(t, j, w2) then Some(j + |w2|) else None
  }

  /** After the words: optional whitespace, an optional colon, optional
      whitespace and "{". */
  predicate BraceAfter(t: string, e: Option<nat>)
    requires e.Some? ==> e.value <= |t|
  {
    e.Some? &&
    var f := SpaceRun(t, e.value);
    var g := if f < |t| && t[f] == ':' then SpaceRun(t, f + 1) else f;
    g < |t| && t[g] == '{'
  }

  /** `_TRIG.search(s)`: `^\s*(add\s*service|service\s*add|add\s*svc)\s*:?\s*\{`
      ignoring case; the pattern is anchored, so it can only match at the
      start. */
  predicate Triggered(t: string) {
    var a := SpaceRun(t, 0);
    BraceAfter(t, WordsEnd(t, a, "add", "service"))
    || BraceAfter(t, WordsEnd(t, a, "service", "add"))
    || BraceAfter(t, WordsEnd(t, a, "add", "svc"))
  }

  lemma BraceAfterHasBrace(t: string, e: Option<nat>)
    requires e.Some? ==> e.value <= |t|
    requires BraceAfter(t, e)
    ensures Contains(t, "{")
  {
    var f := SpaceRun(t, e.value);
    var g := if f < |t| && t[f] == ':' then SpaceRun(t, f + 1) else f;
    assert t[g..g + 1] == "{";
    assert OccursAt(t, "{", g);
  }

  lemma TriggeredHasBrace(t: string)
    requires Triggered(t)
    ensures Contains(t, "{")
  {
    var a := SpaceRun(t, 0);
    if BraceAfter(t, WordsEnd(t, a, "add", "service")) {
      BraceAfterHasBrace(t, WordsEnd(t, a, "add", "service"));
    } else if BraceAfter(t, WordsEnd(t, a, "service", "add")) {
      BraceAfterHasBrace(t, WordsEnd(t, a, "service", "add"));
    } else {
      BraceAfterHasBrace(t, WordsEnd(t, a, "add", "svc"));
    }
  }

  /** From the first "{" to the last "}" when both occur (Python's slice:
      empty when the last "}" comes first). */
  function Sliced(s: string): string {
    if Contains(s, "{") && Contains(s, "}") then PySlice(s, Find(s, "{"), RFind(s, "}") + 1) else s
  }

  /** Each line cut at "//", trailing commas dropped, each run of `HSpace`
      one space, stripped. */
  function Cleaned(s: string): string {
    Strip(Collapsed(DropTrailingCommas(Join(CutLines(Split(s, '\n')), "\n"))))
  }

  function Collapsed(s: string): string {
    ReplaceRuns(s, HSpace, ' ')
  }

  /** The message with no-break spaces made spaces, stripped. */
  function Normalized(text: string): string {
    Strip(ReplaceChar(text, '\U{00A0}', ' '))
  }

  const NoJsonObject := "No JSON object found"

  /** The trigger's own cut: from the first "{" to the last "}", or the
      ValueError when no "}" comes after the first "{". Without the trigger
      the text is kept. */
  function TriggerCut(s: string): Outcome<string> {
    if Triggered(s) then
      var i := Find(s, "{");
      var j := RFind(s, "}");
      if i == -1 || j == -1 || j < i then Raises(NoJsonObject)
      else Ok(s[i..j + 1])
    else Ok(s)
  }

  /** `_extract_json_from_text(text)`. */
  function ExtractJsonFromText(text: string): (r: Outcome<string>)
    ensures r.Raises? ==> r.error == NoJsonObject && Triggered(Normalized(text))
  {
    match TriggerCut(Normalized(text))
    case Raises(e) => Raises(e)
    case Ok(s) => Ok(Cleaned(Sliced(s)))
  }

  /** With "{" at `i`, the last "}" comes before it (or is absent) exactly
      when no "}" follows. */
  lemma NoCloserAfter(s: string, i: nat)
    requires i < |s| && s[i] == '{'
    ensures RFind(s, "}") == -1 || RFind(s, "}") < i <==> forall k :: i < k < |s| ==> s[k] != '}'
  {
    var j := RFind(s, "}");
    if j != -1 && j >= i {
      assert OccursAt(s, "}", j);
      assert s[j..j + 1] == "}";
      assert s[j] == '}' && j != i;
    }
    if exists k :: i < k < |s| && s[k] == '}' {
      var k :| i < k < |s| && s[k] == '}';
      assert s[k..k + 1] == "}";
      assert OccursAt(s, "}", k);
      assert j != -1 && !(k > j);
    }
  }

  /** Extraction fails exactly when the trigger matches and no "}" comes
      after the first "{". */
  lemma ExtractRaisesIff(text: string)
    ensures var s := Normalized(text);
      ExtractJsonFromText(text).Raises? <==>
        Triggered(s) && forall k :: Find(s, "{") < k < |s| ==> s[k] != '}'
  {
    TriggerCutRaisesIff(Normalized(text));
  }

  lemma TriggerCutRaisesIff(s: string)
    ensures TriggerCut(s).Raises? <==> Triggered(s) && forall k :: Find(s, "{") < k < |s| ==> s[k] != '}'
  {
    if Triggered(s) {
      TriggeredHasBrace(s);
      var i := Find(s, "{");
      assert OccursAt(s, "{", i);
      assert s[i..i + 1] == "{";
      NoCloserAfter(s, i);
    }
  }

  /** After the trigger's own cut the second cut changes nothing: the text
      already runs from "{" to "}". */
  lemma TriggerCutIsFinal(s: string, i: nat, j: nat)
    requires i <= j < |s| && s[i] == '{' && s[j] == '}'
    ensures Sliced(s[i..j + 1]) == s[i..j + 1]
  {
    var t := s[i..j + 1];
    assert t[0] == '{' && t[|t| - 1] == '}';
    assert t[0..1] == "{" && t[|t| - 1..|t|] == "}";
    assert OccursAt(t, "{", 0);
    assert OccursAt(t, "}", |t| - 1);
    var a := Find(t, "{");
    var b := RFind(t, "}");
    assert a == 0;
    assert b == |t| - 1;
  }

  /** Collapsing whitespace never brings two slashes together. */
  lemma {:induction false} CollapseKeepsNoDoubleSlash(s: string)
    requires NoDoubleSlash(s)
    ensures NoDoubleSlash(Collapsed(s))
    decreases |s|
  {
    if s != [] {
      if HSpace(s[0]) {
        var e := RunEnd(s, HSpace, 0);
        var rest := s[e..];
        assert forall i :: 0 <= i < |rest| ==> rest[i] == s[e + i];
        CollapseKeepsNoDoubleSlash(rest);
        NoDoubleSlashConcat([' '], Collapsed(rest));
      } else {
        var rest := s[1..];
        assert forall i :: 0 <= i < |rest| ==> rest[i] == s[1 + i];
        CollapseKeepsNoDoubleSlash(rest);
        ReplaceRunsSingles(rest, HSpace, ' ');
        NoDoubleSlashConcat([s[0]], Collapsed(rest));
      }
    }
  }

  /** The extracted text holds no "//". */
  lemma CleanedNoSlashes(s: string)
    ensures !Contains(Cleaned(s), "//")
  {
    var cut := CutLines(Split(s, '\n'));
    CutNoSlashes(cut);
    var d := DropTrailingCommas(Join(cut, "\n"));
    DropKeepsNoDoubleSlash(Join(cut, "\n"));
    var c := Collapsed(d);
    CollapseKeepsNoDoubleSlash(d);
    StripNoSlashes(c);
  }

  lemma CutNoSlashes(cut: seq<string>)
    requires forall k :: 0 <= k < |cut| ==> !Contains(cut[k], "//")
    ensures NoDoubleSlash(Join(cut, "\n"))
  {
    forall k | 0 <= k < |cut| ensures NoDoubleSlash(cut[k]) {
      NoDoubleSlashMeansAbsent(cut[k]);
    }
    JoinNoDoubleSlash(cut);
  }

  lemma StripNoSlashes(c: string)
    requires NoDoubleSlash(c)
    ensures !Contains(Strip(c), "//")
  {
    var r := Strip(c);
    var o := StripOffset(c);
    assert forall i :: 0 <= i < |r| ==> r[i] == c[o + i];
    NoDoubleSlashMeansAbsent(r);
  }

  /** No two whitespace characters of `HSpace` stand side by side in the
      extracted text. */
  lemma CleanedSingleSpaces(s: string)
    ensures var r := Cleaned(s); forall i :: 0 <= i < |r| - 1 ==> !(HSpace(r[i]) && HSpace(r[i + 1]))
  {
    var d := DropTrailingCommas(Join(CutLines(Split(s, '\n')), "\n"));
    var c := Collapsed(d);
    ReplaceRunsSingles(d, HSpace, ' ');
    var r := Strip(c);
    var o := StripOffset(c);
    assert forall i :: 0 <= i < |r| ==> r[i] == c[o + i];
  }

  // --------------------------------------------------------------- handler

  const DefaultMaxServiceJsonBytes := 512000

  /** The length of `s` encoded as UTF-8. */
  function Utf8Len(s: string): (n: nat)
    ensures |s| <= n <= 4 * |s|
  {
    if s == [] then 0
    else
      var c := s[0] as int;
      (if c < 0x80 then 1 else if c < 0x800 then 2 else if c < 0x10000 then 3 else 4) + Utf8Len(s[1..])
  }

  const TooLarge := Cross + " JSON too large."

  /** The reply to a text message (None: ignored). */
  function ServiceTextReply(txt: string, maxBytes: int, parse: Parser, now: nat, show: Json -> string): (r: Option<string>)
    ensures r.Some? ==> Contains(txt, "{") && Contains(txt, "}")
  {
    if !Contains(txt, "{") || !Contains(txt, "}") then None
    else match ExtractJsonFromText(txt)
      case Raises(_) => None
      case Ok(raw) =>
        if Utf8Len(raw) > maxBytes then Some(TooLarge)
        else match parse(raw)
          case Ok(JObj(payload)) =>
            Some(Check + " Service detected (no prompts)\nservice: `" + DeriveServiceSlug(payload, now, show) + "`")
          case _ => None
  }

  /** Only a payload that is a dictionary gets the detection reply; text
      too long once encoded gets the size refusal before any parsing. */
  lemma ServiceTextReplyCases(txt: string, maxBytes: int, parse: Parser, now: nat, show: Json -> string)
    requires Contains(txt, "{") && Contains(txt, "}") && ExtractJsonFromText(txt).Ok?
    ensures var raw := ExtractJsonFromText(txt).value;
      && (Utf8Len(raw) > maxBytes ==> ServiceTextReply(txt, maxBytes, parse, now, show) == Some(TooLarge))
      && (Utf8Len(raw) <= maxBytes && !(parse(raw).Ok? && parse(raw).value.JObj?) ==> ServiceTextReply(txt, maxBytes, parse, now, show).None?)
  {
  }
}
