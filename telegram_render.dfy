/** The HTML service card sent to Telegram (app/telegram/render.py): escaped
    fields, optional lines in a fixed order, and one link line per URL found
    in the description. */
module TelegramRender {
  import opened PyText
  import opened JsonValue
  import opened Oracles

  // ------------------------------------------------------------- escaping

  /** The characters `html.escape` never leaves in its output. */
  predicate Markup(c: char) {
    c == '<' || c == '>' || c == '"' || c == '\''
  }

  /** `html.escape` of one character, with `quote=True`. */
  function EscapeChar(c: char): (r: string)
    ensures r != [] && forall i :: 0 <= i < |r| ==> !Markup(r[i])
    ensures r[0] == '&' <==> Markup(c) || c == '&'
  {
    if c == '&' then "&amp;"
    else if c == '<' then "&lt;"
    else if c == '>' then "&gt;"
    else if c == '"' then "&quot;"
    else if c == '\'' then "&#x27;"
    else [c]
  }

  /** `html.escape(s, quote=True)`. */
  function HtmlEscape(s: string): (r: string)
    ensures |r| >= |s|
    ensures forall i :: 0 <= i < |r| ==> !Markup(r[i])
  {
    if s == [] then [] else EscapeChar(s[0]) + HtmlEscape(s[1..])
  }

  /** `_escape(s)`: None reads as the empty text. */
  function Escape(s: Option<string>): (r: string)
    ensures s.None? ==> r == []
  {
    HtmlEscape(if s.Some? then s.value else "")
  }

  /** Reading the five entities back: the inverse of `HtmlEscape`. */
  function Unescape(r: string): string
    decreases |r|
  {
    if r == [] then []
    else if r[0] != '&' then [r[0]] + Unescape(r[1..])
    else if StartsWith(r, "&amp;") then "&" + Unescape(r[5..])
    else if StartsWith(r, "&lt;") then "<" + Unescape(r[4..])
    else if StartsWith(r, "&gt;") then ">" + Unescape(r[4..])
    else if StartsWith(r, "&quot;") then "\"" + Unescape(r[6..])
    else if StartsWith(r, "&#x27;") then "'" + Unescape(r[6..])
    else "&" + Unescape(r[1..])
  }

  /** Unescaping an escaped character followed by anything gives the
      character back first. */
  lemma UnescapeStep(c: char, rest: string)
    ensures Unescape(EscapeChar(c) + rest) == [c] + Unescape(rest)
  {
    var r := EscapeChar(c) + rest;
    if c == '&' {
      assert r[..5] == "&amp;" && r[5..] == rest;
    } else if c == '<' {
      assert r[..4] == "&lt;" && r[4..] == rest;
      assert r[1] != 'a';
    } else if c == '>' {
      assert r[..4] == "&gt;" && r[4..] == rest;
      assert r[1] != 'a' && r[1] != 'l';
    } else if c == '"' {
      assert r[..6] == "&quot;" && r[6..] == rest;
      assert r[1] != 'a' && r[1] != 'l' && r[1] != 'g';
    } else if c == '\'' {
      assert r[..6] == "&#x27;" && r[6..] == rest;
      assert r[1] != 'a' && r[1] != 'l' && r[1] != 'g' && r[1] != 'q';
    } else {
      assert r[0] == c && r[1..] == rest;
    }
  }

  /** Escaping loses nothing: the entities read back to the original text. */
  lemma {:induction false} EscapeRoundTrip(s: string)
    ensures Unescape(HtmlEscape(s)) == s
  {
    if s != [] {
      EscapeRoundTrip(s[1..]);
      UnescapeStep(s[0], HtmlEscape(s[1..]));
    }
  }

  // ------------------------------------------------------------- links

  /** `https?://` matches at `i` (ignoring case) with at least one
      non-whitespace character after it, so `URL_RE` matches there. */
  predicate UrlAt(t: string, i: nat) {
    && i + 4 <= |t| && LowerStr(t[i..i + 4]) == "http"
    && ((i + 8 < |t| && Lower(t[i + 4]) == 's' && t[i + 5..i + 8] == "://" && !IsSpace(t[i + 8]))
        || (i + 7 < |t| && t[i + 4..i + 7] == "://" && !IsSpace(t[i + 7])))
  }

  /** `u` is the match of `URL_RE` at `j`: the run of non-whitespace
      characters from a place where `https?://` matches. */
  predicate LinkAt(t: string, u: string, j: nat) {
    OccursAt(t, u, j) && UrlAt(t, j) && j + |u| == WordRun(t, j)
  }

  /** `u` is one of the matches of `URL_RE` in `t`. */
  ghost predicate LinkIn(t: string, u: string) {
    exists j: nat :: LinkAt(t, u, j)
  }

  /** `URL_RE.findall(t[i:])`: at each position a match takes the whole run of
      non-whitespace characters; the scan resumes after it. */
  function LinksFrom(t: string, i: nat): (r: seq<string>)
    requires i <= |t|
    decreases |t| - i
    ensures forall u :: u in r ==> exists j :: i <= j && LinkAt(t, u, j)
  {
    if i == |t| then []
    else if UrlAt(t, i) then
      var e := WordRun(t, i);
      var rest := LinksFrom(t, e);
      assert LinkAt(t, t[i..e], i);
      [t[i..e]] + rest
    else LinksFrom(t, i + 1)
  }

  /** `extract_links(text)`: the text itself and the URLs in it, each the
      whole run of non-whitespace characters from where `https?://` matches. */
  function ExtractLinks(text: string): (r: (string, seq<string>))
    ensures r.0 == text
    ensures text == [] ==> r.1 == []
    ensures forall u :: u in r.1 ==> LinkIn(text, u)
  {
    if text == [] then ("", []) else (text, LinksFrom(text, 0))
  }

  /** A link is non-empty text without whitespace that occurs in the
      description. */
  lemma LinkIsWord(text: string, u: string)
    requires LinkIn(text, u)
    ensures u != [] && Contains(text, u)
    ensures forall k :: 0 <= k < |u| ==> !IsSpace(u[k])
  {
    var j: nat :| LinkAt(text, u, j);
    assert LowerStr(text[j..j + 4])[0] == 'h';
    assert !IsSpace(text[j]);
    forall k | 0 <= k < |u| ensures !IsSpace(u[k]) {
      assert u[k] == text[j + k];
    }
  }

  /** `label_for_link(url)`. */
  function LabelForLink(url: string): string {
    var u := LowerStr(url);
    if StartsWith(u, "https://t.me/") || StartsWith(u, "https://telegram.me/") then "Open in Telegram"
    else "Open link"
  }

  /** The label does not depend on the case of the URL. */
  lemma LabelIgnoresCase(url: string)
    ensures LabelForLink(LowerStr(url)) == LabelForLink(url)
    ensures LabelForLink(url) in {"Open in Telegram", "Open link"}
  {
    LowerStrIdempotent(url);
  }

  // ------------------------------------------------------------- the card

  /** The six texts a card shows, after the `or` chains of lines 25-30. */
  datatype Card = Card(title: string, description: string, location: string, hours: string, priceHint: string, promo: string)

  /** A field after its `or ""` chain, as `_escape` and `extract_links` take
      it: a string, or nothing when it is falsy; any other truthy value makes
      them raise. */
  function TextOf(j: Json): (r: Outcome<string>)
    ensures j.JStr? ==> r == Ok(j.s)
    ensures !Truthy(j) && !j.JStr? ==> r == Ok("")
    ensures Truthy(j) && !j.JStr? ==> r.Raises?
  {
    match j
    case JStr(s) => Ok(s)
    case _ => if Truthy(j) then Raises("TypeError: expected string") else Ok("")
  }

  /** `d.get(a) or d.get(b) or default`. */
  function FirstOf(d: map<string, Json>, a: string, b: string, default: string): (r: Json)
    ensures Truthy(Get(d, a)) ==> r == Get(d, a)
    ensures !Truthy(Get(d, a)) && Truthy(Get(d, b)) ==> r == Get(d, b)
    ensures !Truthy(Get(d, a)) && !Truthy(Get(d, b)) ==> r == JStr(default)
  {
    Or(Or(Get(d, a), Get(d, b)), JStr(default))
  }

  /** The card's texts taken from the item: title, else name, else
      "Untitled"; location, else address; hours, else opening_hours. */
  function CardFields(item: map<string, Json>): (r: Outcome<Card>)
    ensures r.Ok? ==> r.value.title != []
  {
    match TextOf(FirstOf(item, "title", "name", "Untitled"))
    case Raises(e) => Raises(e)
    case Ok(title) =>
      match TextOf(FirstOf(item, "description", "description", ""))
      case Raises(e) => Raises(e)
      case Ok(desc) =>
        match TextOf(FirstOf(item, "location", "address", ""))
        case Raises(e) => Raises(e)
        case Ok(location) =>
          match TextOf(FirstOf(item, "hours", "opening_hours", ""))
          case Raises(e) => Raises(e)
          case Ok(hours) =>
            match TextOf(FirstOf(item, "price_hint", "price_hint", ""))
            case Raises(e) => Raises(e)
            case Ok(priceHint) =>
              match TextOf(FirstOf(item, "promo_code", "promo_code", ""))
              case Raises(e) => Raises(e)
              case Ok(promo) => Ok(Card(title, desc, location, hours, priceHint, promo))
  }

  /** The line for one URL: its escaped address and its label. */
  function LinkLine(url: string): string {
    "🔗 <a href=\"" + HtmlEscape(url) + "\">" + HtmlEscape(LabelForLink(url)) + "</a>"
  }

  /** One link line per URL, in order. */
  function LinkLines(links: seq<string>): (r: seq<string>)
    ensures |r| == |links| && forall k :: 0 <= k < |links| ==> r[k] == LinkLine(links[k])
  {
    seq(|links|, k requires 0 <= k < |links| => LinkLine(links[k]))
  }

  /** `[line]` when `text` is non-empty. */
  function LineIf(text: string, line: string): (r: seq<string>)
    ensures |r| == if text == [] then 0 else 1
  {
    if text != [] then [line] else []
  }

  /** The fixed lines of a card: the bold title, then each non-empty optional
      field in the order description, location, hours, price hint, promo. */
  function HeadLines(c: Card): seq<string> {
    ["<b>" + HtmlEscape(c.title) + "</b>"]
    + LineIf(c.description, HtmlEscape(c.description))
    + LineIf(c.location, "📍 " + HtmlEscape(c.location))
    + LineIf(c.hours, "🕒 " + HtmlEscape(c.hours))
    + LineIf(c.priceHint, "💲 " + HtmlEscape(c.priceHint))
    + LineIf(c.promo, "🎁 Use promo code <b>" + HtmlEscape(c.promo) + "</b> to get 10% off!")
  }

  /** All the lines of a card: the fixed ones, then one per link in the
      description, in order. */
  function CardLines(c: Card): seq<string> {
    var links := ExtractLinks(c.description).1;
    HeadLines(c) + LinkLines(links)
  }

  /** Lines 34-50 for resolved fields: the lines appended one by one. */
  method BuildLines(c: Card) returns (lines: seq<string>)
    ensures lines == CardLines(c)
  {
    var (descText, links) := ExtractLinks(c.description);
    lines := BuildHead(c, descText);
    lines := AppendLinkLines(lines, links);
  }

  /** Lines 34-45: the title, then the optional fields that are present. */
  method BuildHead(c: Card, descText: string) returns (lines: seq<string>)
    requires descText == c.description
    ensures lines == HeadLines(c)
  {
    lines := ["<b>" + HtmlEscape(c.title) + "</b>"];
    if descText != [] {
      lines := lines + [HtmlEscape(descText)];
    }
    assert lines == ["<b>" + HtmlEscape(c.title) + "</b>"] + LineIf(c.description, HtmlEscape(c.description));
    var upper := lines;
    if c.location != [] {
      lines := lines + ["📍 " + HtmlEscape(c.location)];
    }
    assert lines == upper + LineIf(c.location, "📍 " + HtmlEscape(c.location));
    upper := lines;
    if c.hours != [] {
      lines := lines + ["🕒 " + HtmlEscape(c.hours)];
    }
    assert lines == upper + LineIf(c.hours, "🕒 " + HtmlEscape(c.hours));
    upper := lines;
    if c.priceHint != [] {
      lines := lines + ["💲 " + HtmlEscape(c.priceHint)];
    }
    assert lines == upper + LineIf(c.priceHint, "💲 " + HtmlEscape(c.priceHint));
    upper := lines;
    if c.promo != [] {
      lines := lines + ["🎁 Use promo code <b>" + HtmlEscape(c.promo) + "</b> to get 10% off!"];
    }
    assert lines == upper + LineIf(c.promo, "🎁 Use promo code <b>" + HtmlEscape(c.promo) + "</b> to get 10% off!");
  }

  /** Lines 47-50: one line per link, in order. */
  method AppendLinkLines(head: seq<string>, links: seq<string>) returns (lines: seq<string>)
    ensures lines == head + LinkLines(links)
  {
    lines := head;
    var i := 0;
    while i < |links|
      invariant i <= |links|
      invariant lines == head + seq(i, k requires 0 <= k < i => LinkLine(links[k]))
    {
      var linkLabel := LabelForLink(links[i]);
      var safeUrl := HtmlEscape(links[i]);
      lines := lines + ["🔗 <a href=\"" + safeUrl + "\">" + HtmlEscape(linkLabel) + "</a>"];
      i := i + 1;
    }
    assert seq(i, k requires 0 <= k < i => LinkLine(links[k])) == LinkLines(links);
  }

  /** What `render_service_card(item)` produces: the card's lines joined with
      newlines, or the exception a non-text field raises. */
  function CardText(item: map<string, Json>): Outcome<string> {
    match CardFields(item)
    case Raises(e) => Raises(e)
    case Ok(c) => Ok(Join(CardLines(c), "\n"))
  }

  /** `render_service_card(item)`. */
  method RenderServiceCard(item: map<string, Json>) returns (r: Outcome<string>)
    ensures r == CardText(item)
  {
    match CardFields(item)
    case Raises(e) =>
      r := Raises(e);
    case Ok(c) =>
      var lines := BuildLines(c);
      r := Ok(Join(lines, "\n"));
  }

  // ------------------------------------------------------------- properties

  /** The card starts with the escaped title in bold, holds one line per
      non-empty optional field, and ends with one link line per URL of the
      description, in order. */
  lemma CardShape(c: Card)
    ensures var lines := CardLines(c);
      var links := ExtractLinks(c.description).1;
      && lines[0] == "<b>" + HtmlEscape(c.title) + "</b>"
      && |lines| == 1 + |LineIf(c.description, "")| + |LineIf(c.location, "")| + |LineIf(c.hours, "")|
                      + |LineIf(c.priceHint, "")| + |LineIf(c.promo, "")| + |links|
      && forall k :: 0 <= k < |links| ==> lines[|lines| - |links| + k] == LinkLine(links[k])
  {
    HeadShape(c);
    var links := ExtractLinks(c.description).1;
    ConcatParts(HeadLines(c), LinkLines(links));
  }

  lemma ConcatParts(h: seq<string>, t: seq<string>)
    requires h != []
    ensures (h + t)[0] == h[0] && |h + t| == |h| + |t|
    ensures forall k :: 0 <= k < |t| ==> (h + t)[|h + t| - |t| + k] == t[k]
  {
  }

  lemma HeadShape(c: Card)
    ensures var h := HeadLines(c);
      && h[0] == "<b>" + HtmlEscape(c.title) + "</b>"
      && |h| == 1 + |LineIf(c.description, "")| + |LineIf(c.location, "")| + |LineIf(c.hours, "")|
                  + |LineIf(c.priceHint, "")| + |LineIf(c.promo, "")|
  {
  }

  /** The title shown is the item's title, else its name, else "Untitled";
      an item with neither shows "Untitled". */
  lemma TitleChoice(item: map<string, Json>)
    requires CardFields(item).Ok?
    ensures var t := CardFields(item).value.title;
      && (Truthy(Get(item, "title")) ==> Get(item, "title") == JStr(t))
      && (!Truthy(Get(item, "title")) && Truthy(Get(item, "name")) ==> Get(item, "name") == JStr(t))
      && (!Truthy(Get(item, "title")) && !Truthy(Get(item, "name")) ==> t == "Untitled")
  {
  }

  /** An item whose fields are all strings renders. */
  lemma StringFieldsRender(item: map<string, Json>)
    requires forall k :: k in item ==> item[k].JStr?
    ensures CardFields(item).Ok?
  {
  }
}
