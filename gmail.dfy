/** The order notification mail (lib/gmail.ts): the order's items grouped by farm, a plain-text
    body, and either nothing sent (the default `MOCK` mode) or a raw message handed to Gmail in
    the URL-safe base64 alphabet without padding. */
module Gmail {
  import opened Wrappers
  import opened Strings
  import opened Types
  import opened DataStore

  // ---------------------------------------------------------------- grouping by farm

  /** What `itemsByFarm` holds for one item: its product, the ordered quantity and the order's price. */
  datatype FarmLine = FarmLine(product: Product, quantity: real, price: real)

  /** One entry of `itemsByFarm`. */
  datatype FarmGroup = FarmGroup(farmId: string, lines: seq<FarmLine>)

  function FarmIds(groups: seq<FarmGroup>): (r: seq<string>)
    ensures |r| == |groups| && forall j :: 0 <= j < |groups| ==> r[j] == groups[j].farmId
  {
    seq(|groups|, j requires 0 <= j < |groups| => groups[j].farmId)
  }

  /** The position of the farm's entry. */
  function GroupIndex(groups: seq<FarmGroup>, farmId: string): (r: Option<nat>)
    ensures r.Some? ==> r.value < |groups| && groups[r.value].farmId == farmId
    ensures r.None? <==> farmId !in FarmIds(groups)
  {
    if groups == [] then None
    else if groups[0].farmId == farmId then Some(0)
    else
      assert FarmIds(groups) == [groups[0].farmId] + FarmIds(groups[1..]);
      match GroupIndex(groups[1..], farmId)
      case None => None
      case Some(k) => Some(k + 1)
  }

  /** `has`/`set(farmId, [])` and `get(farmId).push(line)`: a farm seen before gets the line at the
      end of its entry, a new farm a new entry at the end. */
  function AddLine(groups: seq<FarmGroup>, farmId: string, line: FarmLine): seq<FarmGroup>
  {
    match GroupIndex(groups, farmId)
    case Some(k) => groups[k := groups[k].(lines := groups[k].lines + [line])]
    case None => groups + [FarmGroup(farmId, [line])]
  }

  /** The line an item contributes: none when `getProductById` finds no product. */
  function LineFor(store: Store, item: OrderItem): Option<FarmLine>
    reads store
  {
    match store.ProductById(item.productId)
    case None => None
    case Some(p) => Some(FarmLine(p, item.quantity, item.price))
  }

  /** `itemsByFarm` after the loop over the order's items. */
  function Grouped(store: Store, items: seq<OrderItem>): seq<FarmGroup>
    reads store
  {
    if items == [] then []
    else
      var last := items[|items| - 1];
      var g := Grouped(store, items[..|items| - 1]);
      match LineFor(store, last)
      case None => g
      case Some(line) => AddLine(g, last.farmId, line)
  }

  /** The `for` loop that fills `itemsByFarm`. */
  method GroupByFarm(store: Store, items: seq<OrderItem>) returns (groups: seq<FarmGroup>)
    ensures groups == Grouped(store, items)
  {
    groups := [];
    var i := 0;
    while i < |items|
      invariant 0 <= i <= |items|
      invariant groups == Grouped(store, items[..i])
    {
      assert items[..i + 1][..i] == items[..i];
      var product := store.ProductById(items[i].productId);
      if product.Some? {
        var line := FarmLine(product.value, items[i].quantity, items[i].price);
        var index := GroupIndex(groups, items[i].farmId);
        if index.None? {
          groups := groups + [FarmGroup(items[i].farmId, [line])];
        } else {
          var k := index.value;
          groups := groups[k := groups[k].(lines := groups[k].lines + [line])];
        }
      }
      i := i + 1;
    }
    assert items[..i] == items;
  }

  // ---- the reference definitions the grouping is proved against

  /** The farm ids of the items whose product exists, in order. */
  function KnownFarmIds(store: Store, items: seq<OrderItem>): seq<string>
    reads store
  {
    if items == [] then []
    else
      var last := items[|items| - 1];
      KnownFarmIds(store, items[..|items| - 1]) + if LineFor(store, last).Some? then [last.farmId] else []
  }

  /** Each id once, at its first appearance. */
  function FirstSeen(ids: seq<string>): seq<string>
  {
    if ids == [] then []
    else
      var f := FirstSeen(ids[..|ids| - 1]);
      var last := ids[|ids| - 1];
      f + if last in f then [] else [last]
  }

  /** The lines of the farm's items, in order. */
  function LinesOf(store: Store, items: seq<OrderItem>, farmId: string): seq<FarmLine>
    reads store
  {
    if items == [] then []
    else
      var last := items[|items| - 1];
      var front := LinesOf(store, items[..|items| - 1], farmId);
      match LineFor(store, last)
      case Some(line) => if last.farmId == farmId then front + [line] else front
      case None => front
  }

  /** The same ids as the input, none twice. */
  lemma {:induction false} FirstSeenIsDistinct(ids: seq<string>)
    ensures forall x :: x in FirstSeen(ids) <==> x in ids
    ensures Seqs.Distinct(FirstSeen(ids))
  {
    if ids != [] {
      var front := ids[..|ids| - 1];
      var last := ids[|ids| - 1];
      FirstSeenIsDistinct(front);
      assert ids == front + [last];
      var f := FirstSeen(front);
      if last !in f {
        var r := f + [last];
        assert forall i :: 0 <= i < |f| ==> r[i] == f[i];
      }
    }
  }

  /** A farm none of whose items has a product has no lines. */
  lemma {:induction false} NoLinesForUnseenFarm(store: Store, items: seq<OrderItem>, farmId: string)
    requires farmId !in KnownFarmIds(store, items)
    ensures LinesOf(store, items, farmId) == []
  {
    if items != [] {
      var front := items[..|items| - 1];
      assert KnownFarmIds(store, front) <= KnownFarmIds(store, items);
      NoLinesForUnseenFarm(store, front, farmId);
    }
  }

  lemma AddLineFarmIds(groups: seq<FarmGroup>, farmId: string, line: FarmLine)
    ensures FarmIds(AddLine(groups, farmId, line)) == FarmIds(groups) + if farmId in FarmIds(groups) then [] else [farmId]
  {
  }

  /** With each farm at most once, the line goes to the farm's entry and to no other. */
  lemma AddLineLines(groups: seq<FarmGroup>, farmId: string, line: FarmLine)
    requires Seqs.Distinct(FarmIds(groups))
    ensures var r := AddLine(groups, farmId, line);
      forall j :: 0 <= j < |r| ==>
        r[j].lines == if j < |groups| then groups[j].lines + (if groups[j].farmId == farmId then [line] else [])
                      else [line]
  {
    var r := AddLine(groups, farmId, line);
    match GroupIndex(groups, farmId)
    case Some(k) =>
      forall j | 0 <= j < |r| && j != k
        ensures groups[j].farmId != farmId
      {
        assert FarmIds(groups)[j] != FarmIds(groups)[k];
      }
    case None =>
  }

  /** The entries come in the order of each farm's first item with a product, each farm once;
      items without a product are left out. */
  lemma {:induction false} GroupOrder(store: Store, items: seq<OrderItem>)
    ensures FarmIds(Grouped(store, items)) == FirstSeen(KnownFarmIds(store, items))
    ensures Seqs.Distinct(FarmIds(Grouped(store, items)))
  {
    if items != [] {
      var front := items[..|items| - 1];
      var last := items[|items| - 1];
      GroupOrder(store, front);
      var k := KnownFarmIds(store, front);
      match LineFor(store, last)
      case None =>
        assert KnownFarmIds(store, items) == k + [] == k;
      case Some(line) =>
        var f := last.farmId;
        assert KnownFarmIds(store, items) == k + [f];
        assert (k + [f])[..|k + [f]| - 1] == k;
        AddLineFarmIds(Grouped(store, front), f, line);
        FirstSeenIsDistinct(k + [f]);
    }
  }

  lemma LinesOfStep(store: Store, items: seq<OrderItem>, farmId: string)
    requires items != []
    ensures var last := items[|items| - 1];
      LinesOf(store, items, farmId)
      == LinesOf(store, items[..|items| - 1], farmId)
         + if LineFor(store, last).Some? && last.farmId == farmId then [LineFor(store, last).value] else []
  {
  }

  /** Each entry holds exactly its farm's lines, in item order. */
  lemma {:induction false} GroupLines(store: Store, items: seq<OrderItem>)
    ensures forall j :: 0 <= j < |Grouped(store, items)| ==>
              Grouped(store, items)[j].lines == LinesOf(store, items, Grouped(store, items)[j].farmId)
  {
    if items != [] {
      var front := items[..|items| - 1];
      var last := items[|items| - 1];
      GroupLines(store, front);
      var g := Grouped(store, front);
      match LineFor(store, last)
      case None =>
        assert Grouped(store, items) == g;
        forall j | 0 <= j < |g|
          ensures g[j].lines == LinesOf(store, items, g[j].farmId)
        {
          LinesOfStep(store, items, g[j].farmId);
        }
      case Some(line) =>
        var f := last.farmId;
        var r := AddLine(g, f, line);
        assert Grouped(store, items) == r;
        assert forall x :: LinesOf(store, items, x) == LinesOf(store, front, x) + if x == f then [line] else [];
        GroupOrder(store, front);
        AddLineLines(g, f, line);
        AddLineFarmIds(g, f, line);
        assert FarmIds(r) == FarmIds(g) + if f in FarmIds(g) then [] else [f];
        if f !in FarmIds(g) {
          FirstSeenIsDistinct(KnownFarmIds(store, front));
          NoLinesForUnseenFarm(store, front, f);
          assert r[|g|].farmId == f;
        }
        forall j | 0 <= j < |r|
          ensures r[j].lines == LinesOf(store, items, r[j].farmId)
        {
          if j < |g| {
            assert r[j].farmId == g[j].farmId;
          }
        }
    }
  }

  // ---------------------------------------------------------------- the body

  /** `a || b` on strings. */
  function OrText(a: string, b: string): string
  {
    if a != "" then a else b
  }

  function OrTbd(v: Option<string>): string
  {
    if v.Some? && v.value != "" then v.value else "TBD"
  }

  /** The body's opening block, up to `Order Items:`. */
  function BodyHead(orderId: string, user: User, order: Order): string
  {
    "\nFarm2Table Premium Order #" + orderId + "\n\nCustomer Information:\n- Name: " + user.name
    + "\n- Email: " + user.email + "\n- Delivery Date: " + OrTbd(order.deliveryDate)
    + "\n- Delivery Window: " + OrTbd(order.deliveryWindow) + "\n\nOrder Items:\n"
  }

  /** The heading of a farm's lines; `farmName` is `getFarmById(farmId)?.name`. */
  function FarmHeading(farmName: Option<string>): string
  {
    "\n" + OrText(if farmName.Some? then farmName.value else "", "Unknown Farm") + ":\n"
  }

  /** One item line; `show` is the number-to-text conversion and `money` is `toFixed(2)`. */
  function ItemLine(line: FarmLine, show: real -> string, money: real -> string): string
  {
    "  - " + OrText(line.product.name, "Unknown") + " (" + show(line.quantity) + " " + line.product.unit
    + ") - $" + money(line.price * line.quantity) + "\n"
  }

  function ItemLines(lines: seq<FarmLine>, show: real -> string, money: real -> string): string
  {
    if lines == [] then ""
    else ItemLines(lines[..|lines| - 1], show, money) + ItemLine(lines[|lines| - 1], show, money)
  }

  function FarmName(store: Store, farmId: string): Option<string>
    reads store
  {
    match store.FarmById(farmId)
    case None => None
    case Some(f) => Some(f.name)
  }

  /** The farm sections, in the entries' order. */
  function Sections(store: Store, groups: seq<FarmGroup>, show: real -> string, money: real -> string): string
    reads store
  {
    if groups == [] then ""
    else
      var last := groups[|groups| - 1];
      Sections(store, groups[..|groups| - 1], show, money) + FarmHeading(FarmName(store, last.farmId))
      + ItemLines(last.lines, show, money)
  }

  /** The closing block: subtotal and total (both the order's total) and the order's link. */
  function BodyFoot(orderId: string, total: real, appBaseUrl: string, money: real -> string): string
  {
    "\nSubtotal: $" + money(total) + "\n" + "Total: $" + money(total) + "\n\n"
    + "View Order: " + appBaseUrl + "/dashboard/orders/" + orderId + "\n"
  }

  function EmailBody(store: Store, orderId: string, user: User, order: Order, groups: seq<FarmGroup>,
                     appBaseUrl: string, show: real -> string, money: real -> string): string
    reads store
  {
    BodyHead(orderId, user, order) + Sections(store, groups, show, money) + BodyFoot(orderId, order.total, appBaseUrl, money)
  }

  lemma ItemLinesStep(lines: seq<FarmLine>, k: nat, show: real -> string, money: real -> string)
    requires k < |lines|
    ensures ItemLines(lines[..k + 1], show, money) == ItemLines(lines[..k], show, money) + ItemLine(lines[k], show, money)
  {
    assert lines[..k + 1][..k] == lines[..k];
  }

  lemma SectionsStep(store: Store, groups: seq<FarmGroup>, i: nat, show: real -> string, money: real -> string)
    requires i < |groups|
    ensures Sections(store, groups[..i + 1], show, money)
            == Sections(store, groups[..i], show, money) + FarmHeading(FarmName(store, groups[i].farmId))
               + ItemLines(groups[i].lines, show, money)
  {
    assert groups[..i + 1][..i] == groups[..i];
  }

  lemma Assoc(a: string, b: string, c: string)
    ensures a + b + c == a + (b + c)
  {
  }

  /** The inner loop: a farm's heading and then one line per item. */
  method BuildSection(heading: string, lines: seq<FarmLine>, show: real -> string, money: real -> string)
    returns (section: string)
    ensures section == heading + ItemLines(lines, show, money)
  {
    section := heading;
    var k := 0;
    while k < |lines|
      invariant 0 <= k <= |lines|
      invariant section == heading + ItemLines(lines[..k], show, money)
    {
      ItemLinesStep(lines, k, show, money);
      Assoc(heading, ItemLines(lines[..k], show, money), ItemLine(lines[k], show, money));
      section := section + ItemLine(lines[k], show, money);
      k := k + 1;
    }
    assert lines[..k] == lines;
  }

  /** The nested loops that grow `emailBody` with `+=`. */
  method BuildBody(store: Store, orderId: string, user: User, order: Order, groups: seq<FarmGroup>,
                   appBaseUrl: string, show: real -> string, money: real -> string) returns (body: string)
    ensures body == EmailBody(store, orderId, user, order, groups, appBaseUrl, show, money)
  {
    var head := BodyHead(orderId, user, order);
    var sections := "";
    var i := 0;
    while i < |groups|
      invariant 0 <= i <= |groups|
      invariant sections == Sections(store, groups[..i], show, money)
    {
      var section := BuildSection(FarmHeading(FarmName(store, groups[i].farmId)), groups[i].lines, show, money);
      SectionsStep(store, groups, i, show, money);
      Assoc(sections, FarmHeading(FarmName(store, groups[i].farmId)), ItemLines(groups[i].lines, show, money));
      sections := sections + section;
      i := i + 1;
    }
    assert groups[..i] == groups;
    body := head + sections + BodyFoot(orderId, order.total, appBaseUrl, money);
  }

  // ---------------------------------------------------------------- the raw message

  const ContentTypeLine := "Content-Type: text/plain; charset=utf-8"

  /** The header lines, an empty line and the body, joined by "\n". */
  function RawMessage(to: string, subject: string, body: string): string
  {
    Join(["To: " + to, "Subject: " + subject, ContentTypeLine, "", body], "\n")
  }

  function Headers(to: string, subject: string): string
  {
    "To: " + to + "\n" + "Subject: " + subject + "\n" + ContentTypeLine
  }

  lemma JoinCons(x: string, xs: seq<string>, sep: string)
    requires xs != []
    ensures Join([x] + xs, sep) == x + sep + Join(xs, sep)
  {
    assert ([x] + xs)[1..] == xs;
  }

  /** Five lines, the fourth empty, joined by line breaks. */
  lemma JoinWithBlankLine(a: string, b: string, c: string, body: string)
    ensures Join([a, b, c, "", body], "\n") == a + "\n" + b + "\n" + c + "\n\n" + body
  {
    var tail := "" + "\n" + body;
    JoinCons("", [body], "\n");
    assert ["", body] == [""] + [body];
    JoinCons(c, ["", body], "\n");
    assert [c, "", body] == [c] + ["", body];
    JoinCons(b, [c, "", body], "\n");
    assert [b, c, "", body] == [b] + [c, "", body];
    JoinCons(a, [b, c, "", body], "\n");
    assert [a, b, c, "", body] == [a] + [b, c, "", body];
    assert Join([a, b, c, "", body], "\n") == a + "\n" + (b + "\n" + (c + "\n" + tail));
    assert tail == "\n" + body;
    Assoc(c, "\n", tail);
    Assoc(c + "\n", "\n", body);
    assert "\n" + "\n" == "\n\n";
    Assoc(c, "\n\n", body);
    var h2 := b + "\n" + c;
    Assoc(b, "\n", c + "\n\n" + body);
    Assoc(b + "\n", c, "\n\n" + body);
    Assoc(h2, "\n\n", body);
    Assoc(a, "\n", h2 + "\n\n" + body);
    Assoc(a + "\n", h2, "\n\n" + body);
    Assoc(a + "\n" + h2, "\n\n", body);
    Assoc(a + "\n", b + "\n", c);
    Assoc(a + "\n", b, "\n");
  }

  lemma RawMessageIsHeadersThenBody(to: string, subject: string, body: string)
    ensures RawMessage(to, subject, body) == Headers(to, subject) + "\n\n" + body
  {
    JoinWithBlankLine("To: " + to, "Subject: " + subject, ContentTypeLine, body);
  }

  /** No two line breaks in a row, and none at the end: the text holds no empty line. */
  predicate NoBlankLine(h: string)
  {
    h != [] && h[|h| - 1] != '\n' && forall j :: 0 <= j < |h| - 1 && h[j] == '\n' ==> h[j + 1] != '\n'
  }

  lemma ThreeLines(a: string, b: string, c: string)
    requires a != [] && b != [] && c != []
    requires '\n' !in a && '\n' !in b && '\n' !in c
    ensures NoBlankLine(a + "\n" + b + "\n" + c)
  {
    var h := a + "\n" + b + "\n" + c;
    forall j | 0 <= j < |h| - 1 && h[j] == '\n'
      ensures h[j + 1] != '\n'
    {
      if j == |a| {
        assert h[j + 1] == b[0];
      } else if j == |a| + 1 + |b| {
        assert h[j + 1] == c[0];
      }
    }
    assert h[|h| - 1] == c[|c| - 1];
  }

  /** After a block with no empty line, the first blank line is the one that follows it. */
  lemma FirstBlankLine(h: string, body: string)
    requires NoBlankLine(h)
    ensures IndexOf(h + "\n\n" + body, "\n\n") == Some(|h|)
  {
    var raw := h + "\n\n" + body;
    forall j | 0 <= j < |h|
      ensures !OccursAt(raw, "\n\n", j)
    {
      assert raw[j] == h[j];
      if j + 1 < |h| {
        assert raw[j + 1] == h[j + 1];
      }
      if j + 2 <= |raw| {
        assert raw[j..j + 2][0] == raw[j] && raw[j..j + 2][1] == raw[j + 1];
      }
    }
    assert raw[|h|..|h| + 2] == "\n\n";
    assert OccursAt(raw, "\n\n", |h|);
  }

  lemma ContentTypeIsOneLine()
    ensures ContentTypeLine != [] && '\n' !in ContentTypeLine
  {
  }

  /** With no line break in the recipient or the subject, the first blank line of the raw message
      is the one that ends the headers. */
  lemma HeadersEndAtFirstBlankLine(to: string, subject: string, body: string)
    requires '\n' !in to && '\n' !in subject
    ensures IndexOf(RawMessage(to, subject, body), "\n\n") == Some(|Headers(to, subject)|)
  {
    var a := "To: " + to;
    var b := "Subject: " + subject;
    assert '\n' !in "To: " && '\n' !in "Subject: ";
    ContentTypeIsOneLine();
    ThreeLines(a, b, ContentTypeLine);
    RawMessageIsHeadersThenBody(to, subject, body);
    FirstBlankLine(Headers(to, subject), body);
  }

  // ---------------------------------------------------------------- URL-safe base64

  /** `replace(/x/g, y)` for one character. */
  function ReplaceChar(s: string, x: char, y: char): (r: string)
    ensures |r| == |s| && forall i :: 0 <= i < |s| ==> r[i] == if s[i] == x then y else s[i]
  {
    seq(|s|, i requires 0 <= i < |s| => if s[i] == x then y else s[i])
  }

  /** `replace(/c+$/, '')`: every trailing `c` removed. */
  function StripTrailing(s: string, c: char): (r: string)
    ensures |r| <= |s| && r == s[..|r|]
    ensures r == [] || r[|r| - 1] != c
    ensures forall i :: |r| <= i < |s| ==> s[i] == c
  {
    if s != [] && s[|s| - 1] == c then StripTrailing(s[..|s| - 1], c) else s
  }

  /** `replace(/\+/g, '-')` then `replace(/\//g, '_')`. */
  function ToUrlAlphabet(s: string): (r: string)
    ensures |r| == |s| && forall i :: 0 <= i < |s| ==> r[i] == if s[i] == '+' then '-' else if s[i] == '/' then '_' else s[i]
  {
    ReplaceChar(ReplaceChar(s, '+', '-'), '/', '_')
  }

  /** The rewrite of Node's base64 text into the URL-safe alphabet of section 5 of RFC 4648,
      with the padding dropped as section 3.2 permits. */
  function UrlSafe(b64: string): (r: string)
    ensures '+' !in r && '/' !in r
    ensures r == [] || r[|r| - 1] != '='
  {
    var s := ToUrlAlphabet(b64);
    var r := StripTrailing(s, '=');
    assert forall i :: 0 <= i < |r| ==> r[i] == s[i];
    r
  }

  predicate IsBase64Char(c: char)
  {
    'A' <= c <= 'Z' || 'a' <= c <= 'z' || '0' <= c <= '9' || c == '+' || c == '/'
  }

  predicate IsUrlSafeChar(c: char)
  {
    'A' <= c <= 'Z' || 'a' <= c <= 'z' || '0' <= c <= '9' || c == '-' || c == '_'
  }

  /** Base64 text as section 4 of RFC 4648 writes it: alphabet characters, then at most two `=`
      bringing the length to a multiple of four. */
  predicate Base64Text(data: string, pad: nat)
  {
    pad <= 2 && (|data| + pad) % 4 == 0 && forall i :: 0 <= i < |data| ==> IsBase64Char(data[i])
  }

  function Padding(n: nat): (r: string)
    ensures |r| == n && forall i :: 0 <= i < n ==> r[i] == '='
  {
    seq(n, i => '=')
  }

  function FromUrlAlphabet(u: string): (r: string)
    ensures |r| == |u| && forall i :: 0 <= i < |u| ==> r[i] == if u[i] == '-' then '+' else if u[i] == '_' then '/' else u[i]
  {
    ReplaceChar(ReplaceChar(u, '-', '+'), '_', '/')
  }

  /** The inverse: the standard alphabet back, and the padding restored. */
  function FromUrlSafe(u: string): string
  {
    FromUrlAlphabet(u) + Padding((4 - |u| % 4) % 4)
  }

  lemma AlphabetRoundTrip(data: string)
    requires forall i :: 0 <= i < |data| ==> IsBase64Char(data[i])
    ensures forall i :: 0 <= i < |data| ==> IsUrlSafeChar(ToUrlAlphabet(data)[i]) && ToUrlAlphabet(data)[i] != '='
    ensures FromUrlAlphabet(ToUrlAlphabet(data)) == data
  {
  }

  lemma PaddedAlphabet(data: string, pad: nat)
    ensures ToUrlAlphabet(data + Padding(pad)) == ToUrlAlphabet(data) + Padding(pad)
  {
  }

  lemma StripPadding(s: string, pad: nat)
    requires s == [] || s[|s| - 1] != '='
    ensures StripTrailing(s + Padding(pad), '=') == s
    decreases pad
  {
    if pad == 0 {
      assert s + Padding(0) == s;
    } else {
      assert (s + Padding(pad))[..|s| + pad - 1] == s + Padding(pad - 1);
      StripPadding(s, pad - 1);
    }
  }

  lemma PadCount(n: nat, pad: nat)
    requires pad <= 2 && (n + pad) % 4 == 0
    ensures (4 - n % 4) % 4 == pad
  {
  }

  /** Padded base64 text comes out of the rewrite as its characters in the URL-safe alphabet. */
  lemma UrlSafeOfPadded(data: string, pad: nat)
    requires forall i :: 0 <= i < |data| ==> IsBase64Char(data[i])
    ensures UrlSafe(data + Padding(pad)) == ToUrlAlphabet(data)
  {
    AlphabetRoundTrip(data);
    PaddedAlphabet(data, pad);
    StripPadding(ToUrlAlphabet(data), pad);
  }

  /** On base64 text the rewrite keeps only URL-safe characters and undoes exactly. */
  lemma UrlSafeRoundTrip(data: string, pad: nat)
    requires Base64Text(data, pad)
    ensures forall i :: 0 <= i < |UrlSafe(data + Padding(pad))| ==> IsUrlSafeChar(UrlSafe(data + Padding(pad))[i])
    ensures FromUrlSafe(UrlSafe(data + Padding(pad))) == data + Padding(pad)
  {
    UrlSafeOfPadded(data, pad);
    AlphabetRoundTrip(data);
    PadCount(|data|, pad);
  }

  // ---------------------------------------------------------------- sending

  datatype SendResult = SendResult(success: bool, message: string)

  /** The environment variables the function reads; unset and empty both fall back to the default. */
  datatype MailEnv = MailEnv(emailMode: Option<string>, notifyTo: Option<string>, appBaseUrl: Option<string>)

  function EnvOr(v: Option<string>, default: string): string
  {
    if Given(v) then v.value else default
  }

  function EmailMode(env: MailEnv): string { EnvOr(env.emailMode, "MOCK") }
  function NotifyTo(env: MailEnv): string { EnvOr(env.notifyTo, "orders@example.com") }
  function AppBaseUrl(env: MailEnv): string { EnvOr(env.appBaseUrl, "http://localhost:3000") }

  function Subject(orderId: string): string
  {
    "Farm2Table Premium Order #" + orderId
  }

  /** `sendOrderEmail`, reading the store. `encode` is `Buffer.from(_).toString('base64')`,
      `deliver` says whether `gmail.users.messages.send` succeeds; `sent` is the raw text handed
      to it, `None` when nothing is sent. */
  method SendOrderEmail(store: Store, orderId: string, env: MailEnv, show: real -> string, money: real -> string,
                        encode: string -> string, deliver: string -> bool)
    returns (r: SendResult, sent: Option<string>)
    ensures store.OrderById(orderId).None? ==> r == SendResult(false, "Order not found") && sent.None?
    ensures store.OrderById(orderId).Some? && store.UserById(store.OrderById(orderId).value.userId).None? ==>
              r == SendResult(false, "User not found") && sent.None?
    ensures !r.success <==>
              store.OrderById(orderId).None? || store.UserById(store.OrderById(orderId).value.userId).None?
    ensures r.success && EmailMode(env) == "MOCK" ==> r.message == "Email sent (MOCK mode)" && sent.None?
    ensures r.success && EmailMode(env) != "MOCK" ==>
              var order := store.OrderById(orderId).value;
              var user := store.UserById(order.userId).value;
              var body := EmailBody(store, orderId, user, order, Grouped(store, order.items), AppBaseUrl(env), show, money);
              sent == Some(UrlSafe(encode(RawMessage(NotifyTo(env), Subject(orderId), body))))
              && r.message == (if deliver(sent.value) then "Email sent successfully" else "Email sent (MOCK fallback)")
  {
    sent := None;
    var order := store.OrderById(orderId);
    if order.None? {
      return SendResult(false, "Order not found"), sent;
    }
    var user := store.UserById(order.value.userId);
    if user.None? {
      return SendResult(false, "User not found"), sent;
    }
    var groups := GroupByFarm(store, order.value.items);
    var body := BuildBody(store, orderId, user.value, order.value, groups, AppBaseUrl(env), show, money);
    if EmailMode(env) == "MOCK" {
      return SendResult(true, "Email sent (MOCK mode)"), sent;
    }
    var raw := UrlSafe(encode(RawMessage(NotifyTo(env), Subject(orderId), body)));
    sent := Some(raw);
    if deliver(raw) {
      r := SendResult(true, "Email sent successfully");
    } else {
      r := SendResult(true, "Email sent (MOCK fallback)");
    }
  }
}
