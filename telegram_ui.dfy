/** The paged category keyboard (app/telegram/ui.py): six categories per page,
    the admin actions hidden, and Back / More buttons below. */
module TelegramUi {
  import opened PyText

  const PageSize: nat := 6

  /** One inline button: its label and its callback data. */
  datatype Button = Button(text: string, callbackData: string)

  /** The result of `paginate_categories`: the page's categories and whether
      another page follows. */
  datatype Page = Page(shown: seq<string>, hasMore: bool)

  function Min(a: int, b: int): int { if a <= b then a else b }

  /** `paginate_categories(categories, page)`. */
  function Paginate(categories: seq<string>, page: int): (p: Page)
    ensures |p.shown| <= PageSize
    ensures p.hasMore <==> page * 6 + 6 < |categories|
    ensures 0 <= page ==>
      var lo := Min(page * 6, |categories|);
      p.shown == categories[lo..Min(lo + 6, |categories|)]
  {
    var start := page * PageSize;
    var end := start + PageSize;
    Page(PySlice(categories, start, end), end < |categories|)
  }

  /** A name the menu hides from end users: "add service" or "cancel service"
      once stripped and lowercased. */
  predicate Hidden(c: string) {
    var name := LowerStr(Strip(c));
    name == "add service" || name == "cancel service"
  }

  /** The categories of `shown` that are not hidden, in their order. */
  function Visible(shown: seq<string>): (r: seq<string>)
    ensures |r| <= |shown|
    ensures forall c :: c in r <==> c in shown && !Hidden(c)
  {
    if shown == [] then []
    else
      var init := shown[..|shown| - 1];
      var c := shown[|shown| - 1];
      assert forall x :: x in shown <==> x in init || x == c;
      Visible(init) + (if Hidden(c) then [] else [c])
  }

  /** The row for one category: `CAT:<name>:PAGE:<n>`. */
  function CategoryRow(c: string, page: int): seq<Button> {
    [Button(c, "CAT:" + c + ":PAGE:" + IntToString(page))]
  }

  /** The navigation buttons: Back to the previous page after the first one,
      More to the next page when there is one. */
  function NavRow(page: int, hasMore: bool): seq<Button> {
    (if page > 0 then [Button("« Back", "CATNAV:BACK:" + IntToString(page - 1))] else [])
    + (if hasMore then [Button("More…", "CATNAV:MORE:" + IntToString(page + 1))] else [])
  }

  /** The rows of the `inline_keyboard` that `build_categories_keyboard`
      returns. */
  function KeyboardOf(categories: seq<string>, page: int): seq<seq<Button>> {
    var p := Paginate(categories, page);
    var v := Visible(p.shown);
    var nav := NavRow(page, p.hasMore);
    seq(|v|, i requires 0 <= i < |v| => CategoryRow(v[i], page)) + (if nav != [] then [nav] else [])
  }

  /** `build_categories_keyboard(categories, page)`. */
  method BuildCategoriesKeyboard(categories: seq<string>, page: int) returns (rows: seq<seq<Button>>)
    ensures rows == KeyboardOf(categories, page)
  {
    var p := Paginate(categories, page);
    var filtered := FilterHidden(p.shown);
    rows := seq(|filtered|, k requires 0 <= k < |filtered| => CategoryRow(filtered[k], page));
    var nav := NavButtons(page, p.hasMore);
    if nav != [] {
      rows := rows + [nav];
    }
  }

  /** Lines 22-27: the loop that drops the hidden names. */
  method FilterHidden(shown: seq<string>) returns (filtered: seq<string>)
    ensures filtered == Visible(shown)
  {
    filtered := [];
    var i := 0;
    while i < |shown|
      invariant i <= |shown|
      invariant filtered == Visible(shown[..i])
    {
      assert shown[..i + 1][..i] == shown[..i];
      if !Hidden(shown[i]) {
        filtered := filtered + [shown[i]];
      }
      i := i + 1;
    }
    assert shown[..i] == shown;
  }

  /** Lines 31-35: the navigation buttons, appended one by one. */
  method NavButtons(page: int, hasMore: bool) returns (nav: seq<Button>)
    ensures nav == NavRow(page, hasMore)
  {
    nav := [];
    if page > 0 {
      nav := nav + [Button("« Back", "CATNAV:BACK:" + IntToString(page - 1))];
    }
    if hasMore {
      nav := nav + [Button("More…", "CATNAV:MORE:" + IntToString(page + 1))];
    }
  }

  // ------------------------------------------------------------- properties

  /** The pages before page `k`, one after the other. */
  function FirstPages(categories: seq<string>, k: nat): seq<string> {
    if k == 0 then [] else FirstPages(categories, k - 1) + Paginate(categories, k - 1).shown
  }

  /** Paging loses and repeats nothing: pages 0 to k-1 together are the first
      6k categories (or all of them). */
  lemma {:induction false} PagesCover(categories: seq<string>, k: nat)
    ensures FirstPages(categories, k) == categories[..Min(k * 6, |categories|)]
  {
    if k > 0 {
      PagesCover(categories, k - 1);
      var lo := Min((k - 1) * 6, |categories|);
      var hi := Min(lo + 6, |categories|);
      assert hi == Min(k * 6, |categories|);
      var page := Paginate(categories, k - 1).shown;
      assert page == categories[lo..hi];
      assert FirstPages(categories, k) == categories[..lo] + page;
      PrefixThenSlice(categories, lo, hi);
    }
  }

  lemma PrefixThenSlice<T>(s: seq<T>, lo: nat, hi: nat)
    requires lo <= hi <= |s|
    ensures s[..lo] + s[lo..hi] == s[..hi]
  {
  }

  /** "More" never leads to an empty page, and a page with nothing after it
      ends the list. */
  lemma MoreLeadsSomewhere(categories: seq<string>, page: nat)
    ensures Paginate(categories, page).hasMore ==> Paginate(categories, page + 1).shown != []
    ensures !Paginate(categories, page).hasMore ==> FirstPages(categories, page + 1) == categories
  {
    PagesCover(categories, page + 1);
  }

  /** The keyboard: one row per visible category of the page, in order, each a
      single button whose callback names the category and the page; then a
      navigation row exactly when there is a previous or a next page, holding
      Back (to page-1) exactly when page > 0 and More (to page+1) exactly when
      another page follows. At most 6 + 1 rows. */
  lemma KeyboardShape(categories: seq<string>, page: int)
    ensures var kb := KeyboardOf(categories, page);
      var p := Paginate(categories, page);
      var v := Visible(p.shown);
      && |v| <= |kb| <= PageSize + 1
      && (forall i :: 0 <= i < |v| ==> kb[i] == [Button(v[i], "CAT:" + v[i] + ":PAGE:" + IntToString(page))] && !Hidden(v[i]))
      && (|kb| > |v| <==> page > 0 || p.hasMore)
      && (|kb| > |v| ==>
            && (Button("« Back", "CATNAV:BACK:" + IntToString(page - 1)) in kb[|kb| - 1] <==> page > 0)
            && (Button("More…", "CATNAV:MORE:" + IntToString(page + 1)) in kb[|kb| - 1] <==> p.hasMore)
            && |kb[|kb| - 1]| <= 2)
  {
    var p := Paginate(categories, page);
    var v := Visible(p.shown);
    forall i | 0 <= i < |v| ensures !Hidden(v[i]) {
      assert v[i] in v;
    }
    NavRowShape(page, p.hasMore);
  }

  /** Back is in the navigation row exactly after the first page, More
      exactly when another page follows, and nothing else is. */
  lemma NavRowShape(page: int, hasMore: bool)
    ensures var nav := NavRow(page, hasMore);
      && |nav| <= 2
      && (nav == [] <==> page <= 0 && !hasMore)
      && (Button("« Back", "CATNAV:BACK:" + IntToString(page - 1)) in nav <==> page > 0)
      && (Button("More…", "CATNAV:MORE:" + IntToString(page + 1)) in nav <==> hasMore)
  {
    assert "« Back"[0] != "More…"[0];
  }
}
