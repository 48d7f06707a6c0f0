/** The information-only Telegram agent (app/agents/info_only_agent.py): it
    shows the category keyboard, sends a category's services five cards at a
    time with a "Show more" button, and keeps each chat's place in a
    dictionary. The backend's answers are parameters: the category list, and
    the services of a category as a function of its name. Messages sent to
    Telegram go to an outbox. */
module InfoOnlyAgent {
  import opened PyText
  import opened JsonValue
  import opened Oracles
  import opened TelegramUi
  import opened TelegramRender
  import AppIntentRecognizer

  const ItemPageSize: nat := 5

  type Item = map<string, Json>

  /** One `_PAGINATION` entry: the category being browsed and the offset of
      the next page. */
  datatype PageState = PageState(category: string, offset: int)

  /** A message handed to `send_message`: the chat, the text, the inline
      keyboard if any, and whether it is sent as HTML without link previews. */
  datatype Sent = Sent(chat: string, text: string, keyboard: Option<seq<seq<Button>>>, html: bool)

  /** The dictionary a handler returns: `handled` and `output`. */
  datatype Reply = Reply(handled: bool, output: Option<string>)

  /** What a handler does: the new pagination dictionary, the messages it
      sends in order, and its reply or the exception it raises. */
  datatype Effect = Effect(pagination: map<string, PageState>, sent: seq<Sent>, reply: Outcome<Reply>)

  /** `_get_page(chat_id)`: the stored entry, or ("", 0). */
  function PageOf(pagination: map<string, PageState>, chat: string): (p: PageState)
    ensures chat !in pagination ==> p == PageState("", 0)
  {
    if chat in pagination then pagination[chat] else PageState("", 0)
  }

  /** `min(offset + ITEM_PAGE_SIZE, len(items))`. */
  function ItemsEnd(items: seq<Item>, offset: int): int {
    if offset + ItemPageSize < |items| then offset + ItemPageSize else |items|
  }

  /** `items[offset:end]`. */
  function PageItems(items: seq<Item>, offset: int): seq<Item> {
    PySlice(items, offset, ItemsEnd(items, offset))
  }

  /** The card messages for `page`, in order, up to the first item whose card
      cannot be rendered, and that item's exception. */
  function CardMessages(chat: string, page: seq<Item>): (r: (seq<Sent>, Option<string>))
    ensures |r.0| <= |page|
    decreases |page|
  {
    if page == [] then ([], None)
    else
      var prior := CardMessages(chat, page[..|page| - 1]);
      if prior.1.Some? then prior
      else match CardText(page[|page| - 1])
        case Raises(e) => (prior.0, Some(e))
        case Ok(text) => (prior.0 + [Sent(chat, text, None, true)], None)
  }

  function ShowMore(chat: string): Sent {
    Sent(chat, "Show more?", Some([[Button("Show more", "ITEMS:MORE")]]), false)
  }

  /** `_send_items_page(chat_id, items, offset)`. */
  function ItemsPageEffect(pagination: map<string, PageState>, chat: string, items: seq<Item>, offset: int): Effect {
    var end := ItemsEnd(items, offset);
    var cards := CardMessages(chat, PySlice(items, offset, end));
    if cards.1.Some? then Effect(pagination, cards.0, Raises(cards.1.value))
    else if end < |items| then
      Effect(pagination[chat := PageState(PageOf(pagination, chat).category, end)], cards.0 + [ShowMore(chat)], Ok(Reply(true, None)))
    else Effect(pagination, cards.0, Ok(Reply(true, None)))
  }

  /** A category chosen with items: the chat's place is reset to its start
      and the first page is sent. */
  function OpenCategory(pagination: map<string, PageState>, chat: string, category: string, items: seq<Item>): Effect {
    ItemsPageEffect(pagination[chat := PageState(category, 0)], chat, items, 0)
  }

  /** The category keyboard, or "Nothing available right now." when there
      are no categories. */
  function CategoriesEffect(pagination: map<string, PageState>, chat: string, categories: seq<string>): Effect {
    if categories == [] then Effect(pagination, [], Ok(Reply(true, Some("Nothing available right now."))))
    else Effect(pagination, [Sent(chat, "Available categories:", Some(KeyboardOf(categories, 0)), false)], Ok(Reply(true, None)))
  }

  /** `handle_message(chat_id, text)`. */
  function MessageEffect(pagination: map<string, PageState>, chat: string, text: string,
                         categories: seq<string>, listServices: string -> seq<Item>): Effect {
    IntentEffect(pagination, chat, AppIntentRecognizer.RecognizeIntent(Some(text)), categories, listServices)
  }

  /** What `handle_message` does once the text's intent is known. */
  function IntentEffect(pagination: map<string, PageState>, chat: string, intent: AppIntentRecognizer.Recognized,
                        categories: seq<string>, listServices: string -> seq<Item>): Effect {
    match intent
    case AddService =>
      Effect(pagination, [], Ok(Reply(true, Some("Okay, let’s add a service. Send JSON or follow the prompts."))))
    case BrowseCategory(cat) =>
      var items := listServices(cat);
      if items == [] then Effect(pagination, [], Ok(Reply(true, Some("Nothing available right now."))))
      else OpenCategory(pagination, chat, cat, items)
    case _ => CategoriesEffect(pagination, chat, categories)
  }

  /** The category of a `CAT:` callback: `data.split(":")[1]`. */
  function CallbackCategory(data: string): (r: string)
    requires StartsWith(data, "CAT:")
    ensures ':' !in r
  {
    assert data[3] == ':';
    var parts := Split(data, ':');
    assert IndexOfChar(data, ':', 0) != -1;
    parts[1]
  }

  /** `handle_callback(chat_id, user_id, data)`. */
  function CallbackEffect(pagination: map<string, PageState>, chat: string, data: string,
                          categories: seq<string>, listServices: string -> seq<Item>): Effect {
    if StartsWith(data, "CATNAV:") then NavEffect(pagination, chat, data, categories)
    else if StartsWith(data, "CAT:") then SelectEffect(pagination, chat, data, listServices)
    else if data == "ITEMS:MORE" then MoreEffect(pagination, chat, listServices)
    else Effect(pagination, [], Ok(Reply(false, None)))
  }

  /** Lines 61-67, a `CATNAV:<kind>:<page>` button: the data must split into
      exactly three parts and the last must parse as an integer; the kind is
      not looked at. */
  function NavEffect(pagination: map<string, PageState>, chat: string, data: string, categories: seq<string>): Effect {
    var parts := Split(data, ':');
    if |parts| != 3 then Effect(pagination, [], Raises("ValueError: wrong number of values to unpack"))
    else match ParseInt(parts[2])
      case None => Effect(pagination, [], Raises("ValueError: invalid literal for int()"))
      case Some(page) =>
        Effect(pagination, [Sent(chat, "Available categories:", Some(KeyboardOf(categories, page)), false)], Ok(Reply(true, None)))
  }

  /** Lines 70-78, a `CAT:<name>:...` button. */
  function SelectEffect(pagination: map<string, PageState>, chat: string, data: string, listServices: string -> seq<Item>): Effect
    requires StartsWith(data, "CAT:")
  {
    var category := CallbackCategory(data);
    var items := listServices(category);
    if items == [] then
      Effect(pagination, [Sent(chat, "Nothing available in this category right now.", None, false)], Ok(Reply(true, None)))
    else OpenCategory(pagination, chat, category, items)
  }

  /** Lines 81-86, the "Show more" button. */
  function MoreEffect(pagination: map<string, PageState>, chat: string, listServices: string -> seq<Item>): Effect {
    var st := PageOf(pagination, chat);
    if st.category == [] then Effect(pagination, [], Ok(Reply(true, Some("Nothing available right now."))))
    else ItemsPageEffect(pagination, chat, listServices(st.category), st.offset)
  }

  // ------------------------------------------------------------- properties

  /** Every item of `page` renders to a card. */
  predicate AllRender(page: seq<Item>) {
    forall k :: 0 <= k < |page| ==> CardText(page[k]).Ok?
  }

  /** The messages for items that all render: one HTML card per item, in
      order. */
  function Cards(chat: string, page: seq<Item>): seq<Sent>
    requires AllRender(page)
  {
    seq(|page|, k requires 0 <= k < |page| => Sent(chat, CardText(page[k]).value, None, true))
  }

  lemma AllRenderSlice(items: seq<Item>, lo: nat, hi: nat)
    requires AllRender(items) && lo <= hi <= |items|
    ensures AllRender(items[lo..hi])
  {
    forall k | 0 <= k < hi - lo ensures CardText(items[lo..hi][k]).Ok? {
      assert items[lo..hi][k] == items[lo + k];
    }
  }

  /** When every item renders, each gets its card and nothing is raised. */
  lemma {:induction false} CardMessagesAllRender(chat: string, page: seq<Item>)
    requires AllRender(page)
    ensures CardMessages(chat, page) == (Cards(chat, page), None)
    decreases |page|
  {
    if page != [] {
      var init := page[..|page| - 1];
      AllRenderSlice(page, 0, |page| - 1);
      CardMessagesAllRender(chat, init);
      CardsSnoc(chat, page);
      assert CardText(page[|page| - 1]).Ok?;
      CardStep(chat, page, |page| - 1);
      assert page[..|page|] == page;
    } else {
      assert Cards(chat, page) == [];
    }
  }

  lemma CardsSnoc(chat: string, page: seq<Item>)
    requires AllRender(page) && page != [] && AllRender(page[..|page| - 1])
    ensures Cards(chat, page) == Cards(chat, page[..|page| - 1]) + [Sent(chat, CardText(page[|page| - 1]).value, None, true)]
  {
    var a := Cards(chat, page);
    var b := Cards(chat, page[..|page| - 1]) + [Sent(chat, CardText(page[|page| - 1]).value, None, true)];
    forall k | 0 <= k < |a| ensures a[k] == b[k] {
      CardsAt(chat, page, k);
    }
  }

  lemma CardsAt(chat: string, page: seq<Item>, k: nat)
    requires AllRender(page) && page != [] && AllRender(page[..|page| - 1]) && k < |page|
    ensures Cards(chat, page)[k] == (Cards(chat, page[..|page| - 1]) + [Sent(chat, CardText(page[|page| - 1]).value, None, true)])[k]
  {
    if k < |page| - 1 {
      CardsAtInit(chat, page, k);
    }
  }

  lemma CardsAtInit(chat: string, page: seq<Item>, k: nat)
    requires AllRender(page) && k < |page| - 1 && AllRender(page[..|page| - 1])
    ensures Cards(chat, page)[k] == Cards(chat, page[..|page| - 1])[k]
  {
    assert page[..|page| - 1][k] == page[k];
  }

  /** An item whose card raises: the cards of the items before it have been
      sent, its exception propagates, and the items after it are not sent. */
  lemma FirstFailure(chat: string, page: seq<Item>, i: nat)
    requires i < |page| && AllRender(page[..i]) && CardText(page[i]).Raises?
    ensures CardMessages(chat, page) == (Cards(chat, page[..i]), Some(CardText(page[i]).error))
  {
    CardMessagesAllRender(chat, page[..i]);
    CardStep(chat, page, i);
    ErrorSticks(chat, page, i + 1);
  }

  /** A page of items that all render: at most five cards, those of
      `items[offset..end]`, then "Show more?" and the stored offset moved to
      `end` (same category) exactly when items remain; the reply is handled
      with no output. */
  lemma ItemPageShape(pagination: map<string, PageState>, chat: string, items: seq<Item>, offset: int)
    requires 0 <= offset <= |items| && AllRender(items)
    ensures var e := ItemsPageEffect(pagination, chat, items, offset);
      var end := ItemsEnd(items, offset);
      && offset <= end <= offset + ItemPageSize && end <= |items|
      && (end < |items| ==> end == offset + ItemPageSize)
      && e.reply == Ok(Reply(true, None))
      && AllRender(items[offset..end])
      && e.sent == Cards(chat, items[offset..end]) + (if end < |items| then [ShowMore(chat)] else [])
      && e.pagination == (if end < |items| then pagination[chat := PageState(PageOf(pagination, chat).category, end)] else pagination)
  {
    var end := ItemsEnd(items, offset);
    AllRenderSlice(items, offset, end);
    CardMessagesAllRender(chat, items[offset..end]);
  }

  /** The pages at offsets 0, 5, 10, ... before the k-th, one after the
      other. */
  function FirstItemPages(items: seq<Item>, k: nat): seq<Item> {
    if k == 0 then [] else FirstItemPages(items, k - 1) + PageItems(items, (k - 1) * ItemPageSize)
  }

  /** Paging through a category loses and repeats nothing: the first k pages
      are the first 5k items (or all of them). */
  lemma {:induction false} ItemPagesCover(items: seq<Item>, k: nat)
    ensures FirstItemPages(items, k) == items[..Min(k * 5, |items|)]
  {
    if k > 0 {
      ItemPagesCover(items, k - 1);
      var lo := Min((k - 1) * 5, |items|);
      var hi := Min(k * 5, |items|);
      assert PageItems(items, (k - 1) * ItemPageSize) == items[lo..hi];
      PrefixThenSlice(items, lo, hi);
    }
  }

  /** Choosing a category (by message or by button) whose items all render:
      the first page is sent and the chat's entry becomes (category, 5) when
      more items follow, (category, 0) otherwise; other chats keep theirs. */
  lemma SelectionResets(pagination: map<string, PageState>, chat: string, category: string, items: seq<Item>)
    requires AllRender(items)
    ensures var e := OpenCategory(pagination, chat, category, items);
      var end := Min(5, |items|);
      && e.reply == Ok(Reply(true, None))
      && AllRender(items[..end])
      && Cards(chat, items[..end]) <= e.sent
      && PageOf(e.pagination, chat) == PageState(category, if |items| > 5 then 5 else 0)
      && forall other :: other != chat ==> PageOf(e.pagination, other) == PageOf(pagination, other)
  {
    ItemPageShape(pagination[chat := PageState(category, 0)], chat, items, 0);
  }

  /** "Show more" with a stored category whose items all render: the page at
      the stored offset is sent; the offset then advances by five when items
      remain, and otherwise stays, so pressing again resends the last page. */
  lemma MoreContinues(pagination: map<string, PageState>, chat: string, categories: seq<string>, listServices: string -> seq<Item>)
    requires PageOf(pagination, chat).category != []
    requires 0 <= PageOf(pagination, chat).offset <= |listServices(PageOf(pagination, chat).category)|
    requires AllRender(listServices(PageOf(pagination, chat).category))
    ensures var st := PageOf(pagination, chat);
      var items := listServices(st.category);
      var end := ItemsEnd(items, st.offset);
      var e := CallbackEffect(pagination, chat, "ITEMS:MORE", categories, listServices);
      && e.reply == Ok(Reply(true, None))
      && AllRender(items[st.offset..end])
      && Cards(chat, items[st.offset..end]) <= e.sent
      && (end < |items| ==> PageOf(e.pagination, chat) == PageState(st.category, st.offset + 5))
      && (end == |items| ==> e.pagination == pagination && CallbackEffect(e.pagination, chat, "ITEMS:MORE", categories, listServices) == e)
  {
    var st := PageOf(pagination, chat);
    MoreCallback(pagination, chat, categories, listServices);
    ItemPageShape(pagination, chat, listServices(st.category), st.offset);
  }

  /** A callback is left unhandled exactly when it is none of the three
      kinds, and then nothing is sent or stored. */
  lemma CallbackOutcomes(pagination: map<string, PageState>, chat: string, data: string, categories: seq<string>, listServices: string -> seq<Item>)
    ensures var e := CallbackEffect(pagination, chat, data, categories, listServices);
      && (e.reply == Ok(Reply(false, None)) <==> !StartsWith(data, "CATNAV:") && !StartsWith(data, "CAT:") && data != "ITEMS:MORE")
      && (e.reply == Ok(Reply(false, None)) ==> e.pagination == pagination && e.sent == [])
  {
    if StartsWith(data, "CATNAV:") {
      assert NavEffect(pagination, chat, data, categories).reply != Ok(Reply(false, None));
    } else if StartsWith(data, "CAT:") {
      var items := listServices(CallbackCategory(data));
      if items != [] {
        PageHandled(pagination[chat := PageState(CallbackCategory(data), 0)], chat, items, 0);
      }
    } else if data == "ITEMS:MORE" {
      MoreCallback(pagination, chat, categories, listServices);
      var st := PageOf(pagination, chat);
      if st.category != [] {
        PageHandled(pagination, chat, listServices(st.category), st.offset);
      }
    }
  }

  /** "Show more" in a chat with no stored category (none chosen yet, or the
      entry lost on restart) answers "Nothing available right now." and
      changes nothing. */
  lemma MoreWithoutCategory(pagination: map<string, PageState>, chat: string, categories: seq<string>, listServices: string -> seq<Item>)
    requires PageOf(pagination, chat).category == []
    ensures CallbackEffect(pagination, chat, "ITEMS:MORE", categories, listServices)
      == Effect(pagination, [], Ok(Reply(true, Some("Nothing available right now."))))
  {
    MoreCallback(pagination, chat, categories, listServices);
  }

  /** Sending a page of items always counts as handled. */
  lemma PageHandled(pagination: map<string, PageState>, chat: string, items: seq<Item>, offset: int)
    ensures ItemsPageEffect(pagination, chat, items, offset).reply != Ok(Reply(false, None))
  {
  }

  /** "ITEMS:MORE" takes the third branch of `handle_callback`. */
  lemma MoreCallback(pagination: map<string, PageState>, chat: string, categories: seq<string>, listServices: string -> seq<Item>)
    ensures CallbackEffect(pagination, chat, "ITEMS:MORE", categories, listServices) == MoreEffect(pagination, chat, listServices)
  {
    assert !StartsWith("ITEMS:MORE", "CATNAV:") && !StartsWith("ITEMS:MORE", "CAT:") by {
      assert "ITEMS:MORE"[0] != 'C';
    }
  }

  /** The callback of a category button (`CAT:<name>:PAGE:<n>`) selects that
      category exactly when the name holds no ':'; a name with one is cut at
      its first ':'. */
  lemma CategoryCallbackRoundTrip(c: string, page: int)
    ensures StartsWith("CAT:" + c + ":PAGE:" + IntToString(page), "CAT:")
    ensures CallbackCategory("CAT:" + c + ":PAGE:" + IntToString(page)) == c <==> ':' !in c
  {
    var data := "CAT:" + c + ":PAGE:" + IntToString(page);
    assert data[..4] == "CAT:";
    if ':' !in c {
      NoColonInInt(page);
      JoinThree(c, "PAGE", IntToString(page));
      JoinCons("CAT", [c, "PAGE", IntToString(page)], ":");
      assert ["CAT"] + [c, "PAGE", IntToString(page)] == ["CAT", c, "PAGE", IntToString(page)];
      assert data == "CAT" + ":" + (c + ":" + "PAGE" + ":" + IntToString(page)) by {
        assert ":" + "PAGE" + ":" == ":PAGE:";
        assert "CAT" + ":" == "CAT:";
      }
      JoinSplit(["CAT", c, "PAGE", IntToString(page)], ':');
    }
  }

  lemma NoColonInInt(n: int)
    ensures ':' !in IntToString(n)
  {
    var s := IntToString(n);
    if n < 0 {
      assert forall j :: 1 <= j < |s| ==> s[1..][j - 1] == s[j];
    }
  }

  /** The callback of a navigation button (`CATNAV:<kind>:<n>`, any kind
      without ':') sends the categories keyboard for page n. */
  lemma NavCallbackRoundTrip(pagination: map<string, PageState>, chat: string, kind: string, n: int,
                             categories: seq<string>, listServices: string -> seq<Item>)
    requires ':' !in kind
    ensures CallbackEffect(pagination, chat, "CATNAV:" + kind + ":" + IntToString(n), categories, listServices)
      == Effect(pagination, [Sent(chat, "Available categories:", Some(KeyboardOf(categories, n)), false)], Ok(Reply(true, None)))
  {
    var data := "CATNAV:" + kind + ":" + IntToString(n);
    NavDataParts(kind, n);
    IntRoundTrip(n);
    assert NavEffect(pagination, chat, data, categories)
      == Effect(pagination, [Sent(chat, "Available categories:", Some(KeyboardOf(categories, n)), false)], Ok(Reply(true, None)));
  }

  lemma NavDataParts(kind: string, n: int)
    requires ':' !in kind
    ensures StartsWith("CATNAV:" + kind + ":" + IntToString(n), "CATNAV:")
    ensures Split("CATNAV:" + kind + ":" + IntToString(n), ':') == ["CATNAV", kind, IntToString(n)]
  {
    var data := "CATNAV:" + kind + ":" + IntToString(n);
    assert data[..7] == "CATNAV:";
    NoColonInInt(n);
    JoinThree("CATNAV", kind, IntToString(n));
    assert "CATNAV" + ":" == "CATNAV:";
    JoinSplit(["CATNAV", kind, IntToString(n)], ':');
  }

  lemma JoinThree(a: string, b: string, c: string)
    ensures Join([a, b, c], ":") == a + ":" + b + ":" + c
  {
    JoinCons(a, [b, c], ":");
    JoinCons(b, [c], ":");
    assert [a, b, c] == [a] + [b, c] && [b, c] == [b] + [c];
  }

  /** Once an item fails to render, later items change nothing. */
  lemma {:induction false} ErrorSticks(chat: string, page: seq<Item>, i: nat)
    requires i <= |page| && CardMessages(chat, page[..i]).1.Some?
    ensures CardMessages(chat, page) == CardMessages(chat, page[..i])
    decreases |page| - i
  {
    if i < |page| {
      assert page[..i + 1][..i] == page[..i];
      ErrorSticks(chat, page, i + 1);
    } else {
      assert page[..i] == page;
    }
  }

  /** One more item: its card is appended, or its exception recorded. */
  lemma CardStep(chat: string, page: seq<Item>, i: nat)
    requires i < |page| && CardMessages(chat, page[..i]).1 == None
    ensures CardText(page[i]).Raises? ==>
      CardMessages(chat, page[..i + 1]) == (CardMessages(chat, page[..i]).0, Some(CardText(page[i]).error))
    ensures CardText(page[i]).Ok? ==>
      CardMessages(chat, page[..i + 1]) == (CardMessages(chat, page[..i]).0 + [Sent(chat, CardText(page[i]).value, None, true)], None)
  {
    assert page[..i + 1][..i] == page[..i];
  }

  /** The agent's state: the pagination dictionary and the messages sent. */
  class Agent {
    var pagination: map<string, PageState>
    var outbox: seq<Sent>

    constructor()
      ensures pagination == map[] && outbox == []
    {
      pagination := map[];
      outbox := [];
    }

    /** `_set_page`: only this chat's entry is overwritten. */
    method SetPage(chat: string, category: string, offset: int)
      modifies this
      ensures pagination == old(pagination)[chat := PageState(category, offset)]
      ensures outbox == old(outbox)
    {
      pagination := pagination[chat := PageState(category, offset)];
    }

    method GetPage(chat: string) returns (p: PageState)
      ensures p == PageOf(pagination, chat)
    {
      if chat in pagination {
        p := pagination[chat];
      } else {
        p := PageState("", 0);
      }
    }

    method SendMessage(chat: string, text: string, keyboard: Option<seq<seq<Button>>>, html: bool)
      modifies this
      ensures outbox == old(outbox) + [Sent(chat, text, keyboard, html)]
      ensures pagination == old(pagination)
    {
      outbox := outbox + [Sent(chat, text, keyboard, html)];
    }

    /** Lines 93-100: one card per item of the page, stopping at an item
        whose card raises. */
    method SendCards(chat: string, page: seq<Item>) returns (err: Option<string>)
      modifies this
      ensures outbox == old(outbox) + CardMessages(chat, page).0
      ensures err == CardMessages(chat, page).1
      ensures pagination == old(pagination)
    {
      var i := 0;
      while i < |page|
        invariant i <= |page|
        invariant CardMessages(chat, page[..i]).1 == None
        invariant outbox == old(outbox) + CardMessages(chat, page[..i]).0
        invariant pagination == old(pagination)
      {
        CardStep(chat, page, i);
        var msg := RenderServiceCard(page[i]);
        if msg.Raises? {
          ErrorSticks(chat, page, i + 1);
          return Some(msg.error);
        }
        ghost var sent := CardMessages(chat, page[..i]).0;
        SendMessage(chat, msg.value, None, true);
        assert outbox == old(outbox) + (sent + [Sent(chat, msg.value, None, true)]);
        i := i + 1;
      }
      assert page[..i] == page;
      return None;
    }

    /** `_send_items_page(chat_id, items, offset)`. */
    method SendItemsPage(chat: string, items: seq<Item>, offset: int) returns (r: Outcome<Reply>)
      modifies this
      ensures var e := ItemsPageEffect(old(pagination), chat, items, offset);
        pagination == e.pagination && outbox == old(outbox) + e.sent && r == e.reply
    {
      var end := ItemsEnd(items, offset);
      var err := SendCards(chat, PySlice(items, offset, end));
      if err.Some? {
        return Raises(err.value);
      }
      if end < |items| {
        var st := GetPage(chat);
        SetPage(chat, st.category, end);
        SendMessage(chat, "Show more?", Some([[Button("Show more", "ITEMS:MORE")]]), false);
      }
      return Ok(Reply(true, None));
    }

    /** Lines 48-49 and 77-78: `_set_page(chat_id, category, 0)`, then the
        first page. */
    method ShowFirstPage(chat: string, category: string, items: seq<Item>) returns (r: Outcome<Reply>)
      modifies this
      ensures var e := OpenCategory(old(pagination), chat, category, items);
        pagination == e.pagination && outbox == old(outbox) + e.sent && r == e.reply
    {
      SetPage(chat, category, 0);
      r := SendItemsPage(chat, items, 0);
    }

    /** The keyboard branch shared by lines 35-41 and 51-57. */
    method ShowCategories(chat: string, categories: seq<string>) returns (r: Outcome<Reply>)
      modifies this
      ensures var e := CategoriesEffect(old(pagination), chat, categories);
        pagination == e.pagination && outbox == old(outbox) + e.sent && r == e.reply
    {
      if categories == [] {
        return Ok(Reply(true, Some("Nothing available right now.")));
      }
      var kb := BuildCategoriesKeyboard(categories, 0);
      SendMessage(chat, "Available categories:", Some(kb), false);
      return Ok(Reply(true, None));
    }

    /** `handle_message(chat_id, text, telegram)`. */
    method HandleMessage(chat: string, text: string, categories: seq<string>, listServices: string -> seq<Item>)
        returns (r: Outcome<Reply>)
      modifies this
      ensures var e := MessageEffect(old(pagination), chat, text, categories, listServices);
        pagination == e.pagination && outbox == old(outbox) + e.sent && r == e.reply
    {
      var intent := AppIntentRecognizer.RecognizeIntent(Some(text));
      r := Respond(chat, intent, categories, listServices);
    }

    /** Lines 31-57, the branches on the recognised intent. */
    method Respond(chat: string, intent: AppIntentRecognizer.Recognized, categories: seq<string>, listServices: string -> seq<Item>)
        returns (r: Outcome<Reply>)
      modifies this
      ensures var e := IntentEffect(old(pagination), chat, intent, categories, listServices);
        pagination == e.pagination && outbox == old(outbox) + e.sent && r == e.reply
    {
      match intent
      case AddService =>
        r := Ok(Reply(true, Some("Okay, let’s add a service. Send JSON or follow the prompts.")));
      case BrowseCategory(cat) =>
        var items := listServices(cat);
        if items == [] {
          return Ok(Reply(true, Some("Nothing available right now.")));
        }
        r := ShowFirstPage(chat, cat, items);
      case ShowCategories =>
        r := ShowCategories(chat, categories);
      case UnknownText =>
        r := ShowCategories(chat, categories);
    }

    /** `handle_callback(chat_id, user_id, data, telegram)`; the user id is
        not used. */
    method HandleCallback(chat: string, data: string, categories: seq<string>, listServices: string -> seq<Item>)
        returns (r: Outcome<Reply>)
      modifies this
      ensures var e := CallbackEffect(old(pagination), chat, data, categories, listServices);
        pagination == e.pagination && outbox == old(outbox) + e.sent && r == e.reply
    {
      if StartsWith(data, "CATNAV:") {
        r := HandleNav(chat, data, categories);
      } else if StartsWith(data, "CAT:") {
        r := HandleSelect(chat, data, listServices);
      } else if data == "ITEMS:MORE" {
        r := HandleMore(chat, listServices);
      } else {
        r := Ok(Reply(false, None));
      }
    }

    method HandleNav(chat: string, data: string, categories: seq<string>) returns (r: Outcome<Reply>)
      modifies this
      ensures var e := NavEffect(old(pagination), chat, data, categories);
        pagination == e.pagination && outbox == old(outbox) + e.sent && r == e.reply
    {
      var parts := Split(data, ':');
      if |parts| != 3 {
        return Raises("ValueError: wrong number of values to unpack");
      }
      var page := ParseInt(parts[2]);
      if page.None? {
        return Raises("ValueError: invalid literal for int()");
      }
      var kb := BuildCategoriesKeyboard(categories, page.value);
      SendMessage(chat, "Available categories:", Some(kb), false);
      return Ok(Reply(true, None));
    }

    method HandleSelect(chat: string, data: string, listServices: string -> seq<Item>) returns (r: Outcome<Reply>)
      requires StartsWith(data, "CAT:")
      modifies this
      ensures var e := SelectEffect(old(pagination), chat, data, listServices);
        pagination == e.pagination && outbox == old(outbox) + e.sent && r == e.reply
    {
      var category := CallbackCategory(data);
      var items := listServices(category);
      if items == [] {
        SendMessage(chat, "Nothing available in this category right now.", None, false);
        return Ok(Reply(true, None));
      }
      r := ShowFirstPage(chat, category, items);
    }

    method HandleMore(chat: string, listServices: string -> seq<Item>) returns (r: Outcome<Reply>)
      modifies this
      ensures var e := MoreEffect(old(pagination), chat, listServices);
        pagination == e.pagination && outbox == old(outbox) + e.sent && r == e.reply
    {
      var st := GetPage(chat);
      if st.category == [] {
        return Ok(Reply(true, Some("Nothing available right now.")));
      }
      var items := listServices(st.category);
      r := SendItemsPage(chat, items, st.offset);
    }
  }
}
