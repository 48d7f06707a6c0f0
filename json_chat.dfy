/** The pieces the chat front ends share when they take services as JSON
    text: the comment and trailing-comma cleaning (app/tg/webhook.py and
    app/bot/tg_add_service_direct.py carry the same code), the accepted
    payload shapes, the "add services:" prefix, the request a service item
    becomes, and the twelve-line summary. */
module JsonChat {
  import opened PyText
  import opened JsonValue
  import opened Oracles

  // ------------------------------------------------------------ comments

  /** Each line cut at its first "//". */
  function CutLines(lines: seq<string>): (r: seq<string>)
    ensures |r| == |lines|
    ensures forall k :: 0 <= k < |lines| ==> r[k] == BeforeFirst(lines[k], "//")
  {
    seq(|lines|, k requires 0 <= k < |lines| => BeforeFirst(lines[k], "//"))
  }

  /** The text holds no "//". */
  predicate NoDoubleSlash(s: string) {
    forall i :: 0 <= i < |s| - 1 ==> !(s[i] == '/' && s[i + 1] == '/')
  }

  lemma NoDoubleSlashMeansAbsent(s: string)
    ensures NoDoubleSlash(s) <==> !Contains(s, "//")
  {
    if !NoDoubleSlash(s) {
      var i :| 0 <= i < |s| - 1 && s[i] == '/' && s[i + 1] == '/';
      assert OccursAt(s, "//", i);
    }
    if Contains(s, "//") {
      var i :| 0 <= i <= |s| && OccursAt(s, "//", i);
      assert s[i..i + 2] == "//";
      assert s[i] == '/' && s[i + 1] == '/';
    }
  }

  /** `,\s*` followed by "}" or "]" starts at the head of `s`. */
  predicate CommaBeforeCloser(s: string)
    requires s != []
  {
    var k := SpaceRun(s, 1);
    s[0] == ',' && k < |s| && (s[k] == '}' || s[k] == ']')
  }

  /** `re.sub(r",\s*([}\]])", r"\1", s)`: each comma followed by whitespace
      and a closing bracket gives way to the bracket, scanning once from the
      left. */
  function DropTrailingCommas(s: string): (r: string)
    decreases |s|
    ensures |r| <= |s|
    ensures s != [] ==> r != [] && (r[0] == s[0] || r[0] == '}' || r[0] == ']')
  {
    if s == [] then []
    else if CommaBeforeCloser(s) then
      var k := SpaceRun(s, 1);
      [s[k]] + DropTrailingCommas(s[k + 1..])
    else [s[0]] + DropTrailingCommas(s[1..])
  }

  /** `_clean_json_comments(txt)`: every line cut at its first "//" (even
      inside a string), the lines joined with "\n", trailing commas dropped,
      whitespace stripped. */
  function CommentsRemoved(txt: string): string {
    Strip(DropTrailingCommas(Join(CutLines(SplitLines(txt)), "\n")))
  }

  /** `_clean_json_comments(txt)`: the loop over the lines. */
  method CleanJsonComments(txt: string) returns (r: string)
    ensures r == CommentsRemoved(txt)
  {
    var all := SplitLines(txt);
    var lines: seq<string> := [];
    var i := 0;
    while i < |all|
      invariant 0 <= i <= |all|
      invariant lines == CutLines(all[..i])
    {
      var line := all[i];
      if Has(line, "//") {
        line := BeforeFirst(line, "//");
      }
      lines := lines + [line];
      i := i + 1;
    }
    assert all[..i] == all;
    r := Strip(DropTrailingCommas(Join(lines, "\n")));
  }

  lemma NoDoubleSlashConcat(a: string, b: string)
    requires NoDoubleSlash(a) && NoDoubleSlash(b)
    requires a == [] || b == [] || a[|a| - 1] != '/' || b[0] != '/'
    ensures NoDoubleSlash(a + b)
  {
    var s := a + b;
    forall i | 0 <= i < |s| - 1 ensures !(s[i] == '/' && s[i + 1] == '/') {
      if i + 1 < |a| {
        assert s[i] == a[i] && s[i + 1] == a[i + 1];
      } else if i >= |a| {
        assert s[i] == b[i - |a|] && s[i + 1] == b[i + 1 - |a|];
      }
    }
  }

  /** Lines without "//" joined with "\n" hold no "//". */
  lemma {:induction false} JoinNoDoubleSlash(parts: seq<string>)
    requires forall k :: 0 <= k < |parts| ==> NoDoubleSlash(parts[k])
    ensures NoDoubleSlash(Join(parts, "\n"))
    decreases |parts|
  {
    if |parts| > 1 {
      JoinNoDoubleSlash(parts[1..]);
      NoDoubleSlashConcat(parts[0], "\n");
      NoDoubleSlashConcat(parts[0] + "\n", Join(parts[1..], "\n"));
    }
  }

  /** Dropping commas never brings two slashes together. */
  lemma {:induction false} DropKeepsNoDoubleSlash(s: string)
    requires NoDoubleSlash(s)
    ensures NoDoubleSlash(DropTrailingCommas(s))
    decreases |s|
  {
    if s != [] {
      if CommaBeforeCloser(s) {
        var k := SpaceRun(s, 1);
        var rest := s[k + 1..];
        assert forall i :: 0 <= i < |rest| ==> rest[i] == s[k + 1 + i];
        DropKeepsNoDoubleSlash(rest);
        NoDoubleSlashConcat([s[k]], DropTrailingCommas(rest));
      } else {
        var rest := s[1..];
        assert forall i :: 0 <= i < |rest| ==> rest[i] == s[1 + i];
        DropKeepsNoDoubleSlash(rest);
        NoDoubleSlashConcat([s[0]], DropTrailingCommas(rest));
      }
    }
  }

  /** The cleaned text holds no "//" anywhere. */
  lemma CommentsRemovedHasNoSlashes(txt: string)
    ensures !Contains(CommentsRemoved(txt), "//")
  {
    var cut := CutLines(SplitLines(txt));
    forall k | 0 <= k < |cut| ensures NoDoubleSlash(cut[k]) {
      NoDoubleSlashMeansAbsent(cut[k]);
    }
    JoinNoDoubleSlash(cut);
    var d := DropTrailingCommas(Join(cut, "\n"));
    DropKeepsNoDoubleSlash(Join(cut, "\n"));
    var r := Strip(d);
    var o := StripOffset(d);
    assert forall i :: 0 <= i < |r| ==> r[i] == d[o + i];
    NoDoubleSlashMeansAbsent(r);
  }

  /** The characters other than commas and whitespace, in order. */
  function Solid(s: string): string {
    if s == [] then []
    else (if s[0] != ',' && !IsSpace(s[0]) then [s[0]] else []) + Solid(s[1..])
  }

  /** Commas and whitespace contribute nothing to `Solid`. */
  lemma {:induction false} SolidSkips(s: string, k: nat)
    requires k <= |s|
    requires forall i :: 0 <= i < k ==> s[i] == ',' || IsSpace(s[i])
    ensures Solid(s) == Solid(s[k..])
    decreases k
  {
    if k > 0 {
      assert s[1..][k - 1..] == s[k..];
      SolidSkips(s[1..], k - 1);
    }
  }

  /** Dropping trailing commas removes only commas and whitespace: every
      other character stays, in order. */
  lemma {:induction false} DropKeepsSolid(s: string)
    ensures Solid(DropTrailingCommas(s)) == Solid(s)
    decreases |s|
  {
    if s != [] {
      if CommaBeforeCloser(s) {
        var k := SpaceRun(s, 1);
        var rest := s[k + 1..];
        DropKeepsSolid(rest);
        SolidSkips(s, k);
        assert s[k..][1..] == rest;
        assert ([s[k]] + DropTrailingCommas(rest))[1..] == DropTrailingCommas(rest);
      } else {
        DropKeepsSolid(s[1..]);
        assert ([s[0]] + DropTrailingCommas(s[1..]))[1..] == DropTrailingCommas(s[1..]);
      }
    }
  }

  /** A text without a comma is left alone. */
  lemma {:induction false} DropWithoutCommas(s: string)
    requires ',' !in s
    ensures DropTrailingCommas(s) == s
    decreases |s|
  {
    if s != [] {
      assert s[0] in s;
      assert forall c :: c in s[1..] ==> c in s;
      DropWithoutCommas(s[1..]);
    }
  }

  /** One comma, any whitespace and a closing bracket become the bracket. */
  lemma DropCommaBeforeCloser(ws: string, c: char, b: string)
    requires forall i :: 0 <= i < |ws| ==> IsSpace(ws[i])
    requires c == '}' || c == ']'
    ensures DropTrailingCommas([','] + ws + [c] + b) == [c] + DropTrailingCommas(b)
  {
    var s := [','] + ws + [c] + b;
    SpaceRunOver(s, ws);
    assert s[|ws| + 2..] == b;
  }

  lemma SpaceRunOver(s: string, ws: string)
    requires forall i :: 0 <= i < |ws| ==> IsSpace(ws[i])
    requires |ws| + 1 < |s| && s[1..|ws| + 1] == ws && !IsSpace(s[|ws| + 1])
    ensures SpaceRun(s, 1) == |ws| + 1
  {
    assert forall t :: 1 <= t < |ws| + 1 ==> s[t] == ws[t - 1];
    SpaceRunFrom(s, 1, |ws| + 1);
  }

  lemma {:induction false} SpaceRunFrom(s: string, i: nat, j: nat)
    requires i <= j < |s|
    requires forall t :: i <= t < j ==> IsSpace(s[t])
    requires !IsSpace(s[j])
    ensures SpaceRun(s, i) == j
    decreases j - i
  {
    if i < j {
      SpaceRunFrom(s, i + 1, j);
    }
  }

  /** It is one pass: a comma the pass lets through stays, even when the
      comma after it was dropped. */
  lemma DropIsOnePass()
    ensures DropTrailingCommas(",,]") == ",]"
  {
    var s := ",,]";
    assert SpaceRun(s, 1) == 1;
    assert s[1..] == [','] + [] + [']'] + [];
    DropCommaBeforeCloser([], ']', []);
  }

  // --------------------------------------------------------------- shapes

  /** The dictionaries among `xs`, in order. */
  function Dicts(xs: seq<Json>): (r: seq<map<string, Json>>)
    ensures |r| <= |xs|
    ensures forall d :: d in r ==> JObj(d) in xs
  {
    if xs == [] then []
    else (if xs[0].JObj? then [xs[0].o] else []) + Dicts(xs[1..])
  }

  /** Every dictionary of `xs` is among `Dicts(xs)`. */
  lemma {:induction false} DictsComplete(xs: seq<Json>)
    ensures forall x :: x in xs && x.JObj? ==> x.o in Dicts(xs)
  {
    if xs != [] {
      DictsComplete(xs[1..]);
      assert forall x :: x in xs ==> x == xs[0] || x in xs[1..];
    }
  }

  /** `_normalize_services(payload)` (the same code as
      `_normalize_payloads(raw)`): the dictionaries of a list; the
      dictionaries of the "services" list of a dictionary holding one; any
      other dictionary as the only item; nothing for anything else. */
  function ServiceItems(payload: Json): (r: seq<map<string, Json>>)
    ensures payload.JArr? ==> r == Dicts(payload.a)
    ensures payload.JObj? && Get(payload.o, "services").JArr? ==> r == Dicts(payload.o["services"].a)
    ensures payload.JObj? && !Get(payload.o, "services").JArr? ==> r == [payload.o]
    ensures !payload.JArr? && !payload.JObj? ==> r == []
  {
    if payload.JArr? then Dicts(payload.a)
    else if payload.JObj? then
      if Get(payload.o, "services").JArr? then Dicts(payload.o["services"].a) else [payload.o]
    else []
  }

  /** The items are exactly the dictionaries of the list the payload is or
      holds; a dictionary without such a list is the one item. */
  lemma ServiceItemsMeaning(payload: Json)
    ensures var r := ServiceItems(payload);
      && (payload.JArr? ==> forall x :: x in payload.a ==> (x.JObj? <==> x.JObj? && x.o in r))
      && (payload.JArr? ==> forall d :: d in r ==> JObj(d) in payload.a)
      && (r == [] ==> !payload.JObj? || Get(payload.o, "services").JArr?)
  {
    if payload.JArr? {
      DictsComplete(payload.a);
    }
  }

  // -------------------------------------------------------- "add services:"

  /** `w` (lower-case ASCII) occurs at `i` ignoring case. */
  predicate WordAt(t: string, i: nat, w: string) {
    i + |w| <= |t| && forall j :: 0 <= j < |w| ==> Lower(t[i + j]) == w[j]
  }

  /** Where group 1 of `^\s*add\s+services?\s*:\s*(\{.*|\[.*)` (ignoring
      case, "." matching newlines) starts in `t`: the "{" or "[" after the
      prefix. The pattern is anchored, so `search` and `match` agree. */
  function AddServicesStart(t: string): (r: Option<nat>)
    ensures r.Some? ==> r.value < |t| && (t[r.value] == '{' || t[r.value] == '[')
  {
    var a := SpaceRun(t, 0);
    if !WordAt(t, a, "add") then None
    else
      var b := SpaceRun(t, a + 3);
      if b == a + 3 || !WordAt(t, b, "service") then None
      else
        var c := if b + 7 < |t| && Lower(t[b + 7]) == 's' then b + 8 else b + 7;
        var d := SpaceRun(t, c);
        if d == |t| || t[d] != ':' then None
        else
          var e := SpaceRun(t, d + 1);
          if e < |t| && (t[e] == '{' || t[e] == '[') then Some(e) else None
  }

  /** The payload starts at the first "{" or "[" and everything before it is
      the prefix: "add", whitespace, "service" or "services", a colon, with
      optional whitespace around; in particular no "{" or "[" comes earlier. */
  lemma AddServicesStartFirst(t: string)
    requires AddServicesStart(t).Some?
    ensures var e := AddServicesStart(t).value;
      forall i :: 0 <= i < e ==> t[i] != '{' && t[i] != '['
  {
    var a := SpaceRun(t, 0);
    var b := SpaceRun(t, a + 3);
    forall i | 0 <= i < AddServicesStart(t).value ensures t[i] != '{' && t[i] != '[' {
      if a <= i < a + 3 {
        assert Lower(t[i]) == "add"[i - a];
      } else if b <= i < b + 7 {
        assert Lower(t[i]) == "service"[i - b];
      } else if i == b + 7 && Lower(t[b + 7]) == 's' {
        assert Lower(t[i]) == 's';
      }
    }
  }

  // -------------------------------------------------------------- services

  /** The keyword arguments of `backend_api.create_service` as one call. */
  datatype ServiceRequest = ServiceRequest(
    userId: string, businessName: Json, name: Json, description: Json, categoryName: Json,
    pricingModel: Json, currency: Json, basePrice: real, location: Json, place: Json,
    delivery: Json, requiresBooking: Json, promoCode: Json)

  /** `json.loads(s)`: the value, or the message of the JSONDecodeError. */
  type Parser = string -> Outcome<Json>

  /** `backend_api.create_service(...)`: the created record, or the message of
      what it raised. */
  type Backend = ServiceRequest -> Outcome<Json>

  /** `float(bp) if bp is not None else 0.0`: None on a value `float` refuses. */
  function BasePrice(bp: Json): (r: Option<real>)
    ensures bp.JNull? ==> r == Some(0.0)
    ensures bp.JInt? ==> r == Some(bp.i as real)
    ensures bp.JNum? ==> r == Some(bp.r)
    ensures bp.JArr? || bp.JObj? ==> r == None
  {
    if bp.JNull? then Some(0.0) else ToFloat(bp)
  }

  /** `str(v)` inside an f-string; the text of floats, lists and
      dictionaries is `show`. */
  function PyStr(v: Json, show: Json -> string): (r: string)
    ensures v.JStr? ==> r == v.s
  {
    match v
    case JNull => "None"
    case JBool(b) => if b then "True" else "False"
    case JInt(i) => IntToString(i)
    case JStr(s) => s
    case _ => show(v)
  }

  const Cross := "\U{274c}"
  const Check := "\U{2705}"
  const Arrow := "\U{2192}"

  /** The line reporting a created service, with its id when there is one. */
  function CreatedLine(title: Json, slug: string, sid: Json, show: Json -> string): string {
    Check + " " + PyStr(title, show) + " " + Arrow + " slug: " + slug
      + (if sid.JNull? then "" else " | id: " + PyStr(sid, show))
  }

  // --------------------------------------------------------------- summary

  const MaxLines := 12

  /** The last line of a summary that leaves `n` lines out. */
  function MoreLine(n: nat): string {
    "\U{2026} and " + NatToString(n) + " more."
  }

  /** The body of a summary reply: the first twelve lines joined with "\n",
      and a line counting the rest when there are more. */
  function Summary(lines: seq<string>): string {
    Join(Take(lines, MaxLines), "\n")
      + (if |lines| > MaxLines then "\n" + MoreLine(|lines| - MaxLines) else "")
  }

  lemma {:induction false} JoinSnoc(parts: seq<string>, p: string, sep: string)
    requires parts != []
    ensures Join(parts + [p], sep) == Join(parts, sep) + sep + p
    decreases |parts|
  {
    if |parts| == 1 {
      assert parts + [p] == [parts[0], p];
      assert Join([p], sep) == p;
    } else {
      assert (parts + [p])[1..] == parts[1..] + [p];
      JoinSnoc(parts[1..], p, sep);
    }
  }

  /** Split at "\n", a summary of one-line entries gives back at most twelve
      of them, in order, and one more line counting the rest when there are
      more than twelve. */
  lemma SummaryLines(lines: seq<string>)
    requires lines != []
    requires forall k :: 0 <= k < |lines| ==> '\n' !in lines[k]
    ensures Split(Summary(lines), '\n') ==
      Take(lines, MaxLines) + (if |lines| > MaxLines then [MoreLine(|lines| - MaxLines)] else [])
    ensures |Split(Summary(lines), '\n')| <= MaxLines + 1
  {
    var shown := Take(lines, MaxLines);
    assert forall k :: 0 <= k < |shown| ==> shown[k] == lines[k];
    if |lines| > MaxLines {
      var more := MoreLine(|lines| - MaxLines);
      assert '\n' !in more by {
        assert forall c :: c in NatToString(|lines| - MaxLines) ==> IsDigit(c);
      }
      JoinSnoc(shown, more, "\n");
      ConcatAssoc(Join(shown, "\n"), "\n", more);
      JoinSplit(shown + [more], '\n');
    } else {
      assert Summary(lines) == Join(shown, "\n") + "";
      assert Join(shown, "\n") + "" == Join(shown, "\n");
      JoinSplit(shown, '\n');
    }
  }
}
