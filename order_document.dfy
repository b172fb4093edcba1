/**
 * The layout of the order document (`generateCartPDF`,
 * src/app/api/utils/generatePDF.ts:3-89). Each drawing call becomes a record
 * of the page it targets, what it writes, its position and its font size, and
 * each `addPage` appends a page size. A y-cursor walks down the first page:
 * a header, one four-line block per item, a page-break rule after each item,
 * and a five-line summary. Every drawing call goes to the page object created
 * first, so even after a break all text lands on page 0.
 *
 * Text is kept as structured values; number and date formatting are not
 * modelled.
 */
module OrderDocument {
  import opened Catalog
  import opened Store
  import opened CartPage

  /** What a drawing call writes. */
  datatype Text =
    | Title                                   // "Заказ"
    | DateLine                                // the date, in the local format
    | ItemsHeading                            // "Товары:"
    | ItemName(number: int, name: string)
    | ItemQuantity(quantity: int, unit: string)
    | ItemUnitPrice(price: real)
    | ItemLineTotal(total: real)
    | Continued                               // "(continued on next page)"
    | SummaryHeading                          // "Сводка заказа:"
    | SubtotalLine(amount: real)
    | ShippingLine(amount: real)
    | TaxLine(amount: real)
    | TotalLine(amount: real)

  /** One drawing call; `size` is None when the library's default size is used. */
  datatype Draw = Draw(page: nat, text: Text, x: int, y: int, size: Option<int>)

  datatype PageSize = PageSize(width: int, height: int)

  datatype Document = Document(pages: seq<PageSize>, draws: seq<Draw>)

  const SheetSize: PageSize := PageSize(600, 800)
  const TopY: int := 750
  const FirstItemY: int := 660
  const BreakBelow: int := 100

  /** The `drawText` helper: always page 0; callers that omit the size pass its default, 12. */
  function DrawText(text: Text, x: int, y: int, size: int): Draw
  {
    Draw(0, text, x, y, Some(size))
  }

  function HeaderDraws(): seq<Draw>
  {
    [DrawText(Title, 250, 750, 20), DrawText(DateLine, 50, 710, 12), DrawText(ItemsHeading, 50, 680, 14)]
  }

  /** The four lines of item `index`, starting at y. */
  function ItemDraws(index: int, cp: CartProduct, y: int): seq<Draw>
  {
    [ DrawText(ItemName(index + 1, cp.product.name), 50, y, 12),
      DrawText(ItemQuantity(cp.cartInfo.quantity, cp.product.price.unit), 70, y - 20, 12),
      DrawText(ItemUnitPrice(cp.cartInfo.price), 70, y - 40, 12),
      DrawText(ItemLineTotal(cp.cartInfo.price * cp.cartInfo.quantity as real), 70, y - 60, 12) ]
  }

  function SummaryDraws(summary: OrderSummary, y: int): seq<Draw>
  {
    [ DrawText(SummaryHeading, 50, y, 14),
      DrawText(SubtotalLine(summary.subtotal), 50, y - 20, 12),
      DrawText(ShippingLine(summary.shipping), 50, y - 40, 12),
      DrawText(TaxLine(summary.tax), 50, y - 60, 12),
      DrawText(TotalLine(summary.total), 50, y - 80, 12) ]
  }

  /** Where the layout stands between items. */
  datatype Cursor = Cursor(pages: seq<PageSize>, draws: seq<Draw>, y: int)

  /** One pass of the `forEach` body: the item's block, the cursor 90 lower,
      and when that is below 100 a continuation marker there, the cursor back
      at 750 and a new page. */
  function ItemStep(c: Cursor, index: int, cp: CartProduct): Cursor
  {
    var draws := c.draws + ItemDraws(index, cp, c.y);
    var y := c.y - 90;
    if y < BreakBelow then Cursor(c.pages + [SheetSize], draws + [Draw(0, Continued, 50, y, None)], TopY)
    else Cursor(c.pages, draws, y)
  }

  /** The layout after the first n items. */
  function AfterItems(items: seq<CartProduct>, n: nat): Cursor
    requires n <= |items|
  {
    if n == 0 then Cursor([SheetSize], HeaderDraws(), FirstItemY)
    else ItemStep(AfterItems(items, n - 1), n - 1, items[n - 1])
  }

  /** The whole document the layout produces. */
  function Layout(items: seq<CartProduct>, summary: OrderSummary): Document
  {
    var c := AfterItems(items, |items|);
    Document(c.pages, c.draws + SummaryDraws(summary, c.y))
  }

  /** `generateCartPDF`: the y-cursor loop over the items. */
  method GenerateCartPdf(cartProducts: seq<CartProduct>, orderSummary: OrderSummary) returns (doc: Document)
    ensures doc == Layout(cartProducts, orderSummary)
    ensures |doc.pages| >= 1 && doc.pages[0] == PageSize(600, 800)
    ensures forall k :: 0 <= k < |doc.draws| ==> doc.draws[k].page == 0
  {
    var pages := [SheetSize];
    var draws: seq<Draw> := [];
    var yPosition := 750;
    draws := draws + [DrawText(Title, 250, yPosition, 20)];
    yPosition := yPosition - 40;
    draws := draws + [DrawText(DateLine, 50, yPosition, 12)];
    yPosition := yPosition - 30;
    draws := draws + [DrawText(ItemsHeading, 50, yPosition, 14)];
    yPosition := yPosition - 20;

    var index := 0;
    while index < |cartProducts|
      invariant 0 <= index <= |cartProducts|
      invariant Cursor(pages, draws, yPosition) == AfterItems(cartProducts, index)
    {
      var product := cartProducts[index];
      ghost var start := Cursor(pages, draws, yPosition);
      ghost var block := ItemDraws(index, product, yPosition);
      draws := draws + [DrawText(ItemName(index + 1, product.product.name), 50, yPosition, 12)];
      assert draws == start.draws + block[..1];
      yPosition := yPosition - 20;
      draws := draws + [DrawText(ItemQuantity(product.cartInfo.quantity, product.product.price.unit), 70, yPosition, 12)];
      assert block[..2] == block[..1] + [block[1]];
      assert draws == start.draws + block[..2];
      yPosition := yPosition - 20;
      draws := draws + [DrawText(ItemUnitPrice(product.cartInfo.price), 70, yPosition, 12)];
      assert block[..3] == block[..2] + [block[2]];
      assert draws == start.draws + block[..3];
      yPosition := yPosition - 20;
      ghost var lineTotal := product.cartInfo.price * product.cartInfo.quantity as real;
      assert block[3].y == yPosition;
      assert block[3].text == ItemLineTotal(lineTotal);
      assert block[3] == DrawText(ItemLineTotal(lineTotal), 70, yPosition, 12);
      draws := draws + [DrawText(ItemLineTotal(product.cartInfo.price * product.cartInfo.quantity as real), 70, yPosition, 12)];
      assert block == block[..3] + [block[3]];
      assert draws == start.draws + block;
      yPosition := yPosition - 30;
      if yPosition < 100 {
        draws := draws + [Draw(0, Continued, 50, yPosition, None)];
        yPosition := 750;
        pages := pages + [SheetSize];
      }
      index := index + 1;
    }

    draws := draws + [DrawText(SummaryHeading, 50, yPosition, 14)];
    yPosition := yPosition - 20;
    draws := draws + [DrawText(SubtotalLine(orderSummary.subtotal), 50, yPosition, 12)];
    yPosition := yPosition - 20;
    draws := draws + [DrawText(ShippingLine(orderSummary.shipping), 50, yPosition, 12)];
    yPosition := yPosition - 20;
    draws := draws + [DrawText(TaxLine(orderSummary.tax), 50, yPosition, 12)];
    yPosition := yPosition - 20;
    draws := draws + [DrawText(TotalLine(orderSummary.total), 50, yPosition, 12)];
    doc := Document(pages, draws);
    LayoutOnFirstPage(cartProducts, orderSummary);
    PagesBeforeItems(cartProducts, |cartProducts|);
  }

  /** The number of continuation markers among the drawing calls. */
  function Breaks(draws: seq<Draw>): nat
  {
    if |draws| == 0 then 0 else Breaks(draws[..|draws| - 1]) + (if draws[|draws| - 1].text == Continued then 1 else 0)
  }

  lemma {:induction false} BreaksAppend(a: seq<Draw>, b: seq<Draw>)
    ensures Breaks(a + b) == Breaks(a) + Breaks(b)
  {
    if |b| > 0 {
      assert (a + b)[..|a + b| - 1] == a + b[..|b| - 1];
      BreaksAppend(a, b[..|b| - 1]);
    } else {
      assert a + b == a;
    }
  }

  /** A sequence of calls with no continuation marker has no breaks. */
  lemma {:induction false} NoBreaks(draws: seq<Draw>)
    requires forall k :: 0 <= k < |draws| ==> draws[k].text != Continued
    ensures Breaks(draws) == 0
  {
    if |draws| > 0 {
      NoBreaks(draws[..|draws| - 1]);
    }
  }

  /** Between items the cursor stays within [100, 750]. */
  lemma {:induction false} CursorRange(items: seq<CartProduct>, n: nat)
    requires n <= |items|
    ensures BreakBelow <= AfterItems(items, n).y <= TopY
  {
    if n > 0 {
      CursorRange(items, n - 1);
    }
  }

  /** One item step adds a page exactly when it adds a continuation marker. */
  lemma StepBreaks(c: Cursor, index: int, cp: CartProduct)
    ensures var d := ItemStep(c, index, cp);
      && |d.pages| - |c.pages| == Breaks(d.draws) - Breaks(c.draws)
      && d.pages[..|c.pages|] == c.pages
      && forall k :: |c.pages| <= k < |d.pages| ==> d.pages[k] == SheetSize
  {
    var block := ItemDraws(index, cp, c.y);
    NoBreaks(block);
    BreaksAppend(c.draws, block);
    if c.y - 90 < BreakBelow {
      var marker := [Draw(0, Continued, 50, c.y - 90, None)];
      assert marker[..0] == [];
      BreaksAppend(c.draws + block, marker);
    }
  }

  /** The document has one page more than it has continuation markers, and
      every page is 600 by 800. */
  lemma PagesMatchBreaks(items: seq<CartProduct>, n: nat)
    requires n <= |items|
    ensures var c := AfterItems(items, n);
      && |c.pages| == 1 + Breaks(c.draws)
      && (forall k :: 0 <= k < |c.pages| ==> c.pages[k] == PageSize(600, 800))
  {
    PageCount(items, n);
    PagesAllSized(items, n);
  }

  lemma {:induction false} PageCount(items: seq<CartProduct>, n: nat)
    requires n <= |items|
    ensures |AfterItems(items, n).pages| == 1 + Breaks(AfterItems(items, n).draws)
  {
    if n == 0 {
      NoBreaks(HeaderDraws());
    } else {
      PageCount(items, n - 1);
      StepBreaks(AfterItems(items, n - 1), n - 1, items[n - 1]);
    }
  }

  lemma {:induction false} PagesAllSized(items: seq<CartProduct>, n: nat)
    requires n <= |items|
    ensures forall k :: 0 <= k < |AfterItems(items, n).pages| ==> AfterItems(items, n).pages[k] == PageSize(600, 800)
  {
    if n > 0 {
      PagesAllSized(items, n - 1);
      var c := AfterItems(items, n - 1);
      var d := AfterItems(items, n);
      StepBreaks(c, n - 1, items[n - 1]);
      forall k | 0 <= k < |d.pages| ensures d.pages[k] == PageSize(600, 800) {
        if k < |c.pages| { assert d.pages[k] == d.pages[..|c.pages|][k]; }
      }
    }
  }

  /** Every drawing call so far targets page 0 at a height of 10 or more. */
  lemma {:induction false} DrawsPlaced(items: seq<CartProduct>, n: nat)
    requires n <= |items|
    ensures var c := AfterItems(items, n);
      forall k :: 0 <= k < |c.draws| ==> c.draws[k].page == 0 && c.draws[k].y >= 10
  {
    if n > 0 {
      DrawsPlaced(items, n - 1);
      CursorRange(items, n - 1);
      var c := AfterItems(items, n - 1);
      var block := ItemDraws(n - 1, items[n - 1], c.y);
      var d := AfterItems(items, n);
      assert forall k :: 0 <= k < |block| ==> block[k].page == 0 && block[k].y >= 40;
      forall k | 0 <= k < |d.draws| ensures d.draws[k].page == 0 && d.draws[k].y >= 10 {
        if k < |c.draws| { assert d.draws[k] == c.draws[k]; }
        else if k < |c.draws| + 4 { assert d.draws[k] == block[k - |c.draws|]; }
      }
    }
  }

  /** The three facts above together. */
  lemma CursorInvariant(items: seq<CartProduct>, n: nat)
    requires n <= |items|
    ensures var c := AfterItems(items, n);
      && BreakBelow <= c.y <= TopY
      && |c.pages| == 1 + Breaks(c.draws)
      && (forall k :: 0 <= k < |c.pages| ==> c.pages[k] == PageSize(600, 800))
      && (forall k :: 0 <= k < |c.draws| ==> c.draws[k].page == 0 && c.draws[k].y >= 10)
  {
    CursorRange(items, n);
    PagesMatchBreaks(items, n);
    DrawsPlaced(items, n);
  }

  /** The pages present after n items. */
  lemma {:induction false} PagesBeforeItems(items: seq<CartProduct>, n: nat)
    requires n <= |items|
    ensures |AfterItems(items, n).pages| >= 1 && AfterItems(items, n).pages[0] == PageSize(600, 800)
  {
    CursorInvariant(items, n);
  }

  /** Every drawing call of the document targets page 0, and none is below
      y = 10; the document has one page per continuation marker plus one. */
  lemma LayoutOnFirstPage(items: seq<CartProduct>, summary: OrderSummary)
    ensures var doc := Layout(items, summary);
      && (forall k :: 0 <= k < |doc.draws| ==> doc.draws[k].page == 0 && doc.draws[k].y >= 10)
      && |doc.pages| == 1 + Breaks(doc.draws)
      && (forall k :: 0 <= k < |doc.pages| ==> doc.pages[k] == PageSize(600, 800))
  {
    var c := AfterItems(items, |items|);
    CursorInvariant(items, |items|);
    var tail := SummaryDraws(summary, c.y);
    NoBreaks(tail);
    BreaksAppend(c.draws, tail);
  }

  /** The layout after n items is a prefix of the layout after n + m items. */
  lemma {:induction false} AfterItemsPrefix(items: seq<CartProduct>, n: nat, m: nat)
    requires n + m <= |items|
    ensures AfterItems(items, n).draws <= AfterItems(items, n + m).draws
  {
    if m > 0 {
      AfterItemsPrefix(items, n, m - 1);
    }
  }

  /** The document opens with the title at 750 (size 20), the date at 710
      (size 12) and the item heading at 680 (size 14). */
  lemma HeaderPlacement(items: seq<CartProduct>, summary: OrderSummary)
    ensures Layout(items, summary).draws[..3] == HeaderDraws()
    ensures HeaderDraws()[0].y == 750 && HeaderDraws()[1].y == 710 && HeaderDraws()[2].y == 680
  {
    AfterItemsPrefix(items, 0, |items|);
  }

  /** Item k is drawn, at its place in the sequence of calls, as four lines at
      y, y - 20, y - 40, y - 60, numbered k + 1, with y at least 100 and the
      line total the stored unit price times the quantity. */
  lemma ItemBlock(items: seq<CartProduct>, summary: OrderSummary, k: nat)
    requires k < |items|
    ensures var o := |AfterItems(items, k).draws|;
      var y := AfterItems(items, k).y;
      var draws := Layout(items, summary).draws;
      && o + 4 <= |draws|
      && draws[o..o + 4] == ItemDraws(k, items[k], y)
      && y >= BreakBelow
      && draws[o].text == ItemName(k + 1, items[k].product.name)
      && draws[o + 3].text == ItemLineTotal(items[k].cartInfo.price * items[k].cartInfo.quantity as real)
      && draws[o + 3].y >= 40
  {
    CursorInvariant(items, k);
    BlockInPrefix(items, k);
    AfterItemsPrefix(items, k + 1, |items| - (k + 1));
    var before := AfterItems(items, k);
    var after := AfterItems(items, k + 1);
    var o := |before.draws|;
    var draws := Layout(items, summary).draws;
    assert after.draws <= draws;
    SliceOfPrefix(after.draws, draws, o, o + 4);
  }

  /** The block of item k follows the calls made before it. */
  lemma BlockInPrefix(items: seq<CartProduct>, k: nat)
    requires k < |items|
    ensures var before := AfterItems(items, k);
      var after := AfterItems(items, k + 1);
      |before.draws| + 4 <= |after.draws|
      && after.draws[|before.draws|..|before.draws| + 4] == ItemDraws(k, items[k], before.y)
  {
  }

  lemma SliceOfPrefix(a: seq<Draw>, b: seq<Draw>, i: int, j: int)
    requires a <= b && 0 <= i <= j <= |a|
    ensures b[i..j] == a[i..j]
  {
  }

  /** The summary follows every item: five lines at y, y - 20, ..., y - 80 for
      a cursor y of at least 100, so all of them at 20 or higher. */
  lemma SummaryBlock(items: seq<CartProduct>, summary: OrderSummary)
    ensures var draws := Layout(items, summary).draws;
      var y := AfterItems(items, |items|).y;
      && |draws| >= 5
      && draws[|draws| - 5..] == SummaryDraws(summary, y)
      && y >= BreakBelow
      && forall k :: |draws| - 5 <= k < |draws| ==> draws[k].y >= 20
  {
  }

  /** The document prices each line with the price stored on the cart line,
      while its summary's subtotal uses the catalogue: a bulk line of product
      1001 added at 360 and then lowered to quantity 1 prints a line total of
      360 beside a subtotal of 380. */
  lemma LineTotalsCanDisagreeWithSubtotal()
    ensures var items := [CartProduct(Cement(), CartItem(1001, 1, 360.0, true))];
      var doc := Layout(items, BuildOrderSummary(items));
      && doc.draws[6].text == ItemLineTotal(360.0)
      && doc.draws[|doc.draws| - 4].text == SubtotalLine(380.0)
  {
  }
}
