/** src/utils/pdfGenerator.ts: the production sheets. The batch sheet opens with
    a summary (one row per distinct product name, its quantities summed, its unit
    taken from the first item seen) and then lists every order with its items,
    moving a vertical cursor down the page and starting a new page when an order
    header would not fit. Drawing is not modelled: the number of lines the notes
    wrap to and where a drawn table ends are inputs. */
module ProductionSheet {
  import opened Wrappers

  /** A fetched item with its joined product (`productos (nombre, empaque)`). */
  datatype SheetItem = SheetItem(orderId: string, cantidad: Option<int>, nombre: string, empaque: string)

  datatype SummaryEntry = SummaryEntry(qty: int, unit: string)

  /** A row of the summary table: [qty, unit, name]. */
  datatype SummaryRow = SummaryRow(qty: int, unit: string, name: string)

  predicate Distinct<T(==)>(s: seq<T>)
  {
    forall i, j :: 0 <= i < j < |s| ==> s[i] != s[j]
  }

  /** Σ cantidad over the items with that product name (null counts as 0). */
  function NameQty(items: seq<SheetItem>, name: string): int
  {
    if items == [] then 0
    else
      var last := items[|items| - 1];
      NameQty(items[..|items| - 1], name) + (if last.nombre == name then OrZero(last.cantidad) else 0)
  }

  /** The unit of the first item with that name, if any. */
  function FirstUnit(items: seq<SheetItem>, name: string): Option<string>
  {
    if items == [] then None
    else
      var earlier := FirstUnit(items[..|items| - 1], name);
      var last := items[|items| - 1];
      if earlier.Some? then earlier
      else if last.nombre == name then Some(last.empaque)
      else None
  }

  /** FirstUnit finds exactly the first item with that name. */
  lemma {:induction false} FirstUnitIsFirst(items: seq<SheetItem>, name: string)
    ensures FirstUnit(items, name).None? <==> forall k :: 0 <= k < |items| ==> items[k].nombre != name
    ensures FirstUnit(items, name).Some? ==>
      exists k :: 0 <= k < |items| && items[k].nombre == name && items[k].empaque == FirstUnit(items, name).value
        && forall j :: 0 <= j < k ==> items[j].nombre != name
  {
    if items != [] {
      var init := items[..|items| - 1];
      FirstUnitIsFirst(init, name);
      if FirstUnit(init, name).Some? {
        var k :| 0 <= k < |init| && init[k].nombre == name && init[k].empaque == FirstUnit(init, name).value
          && forall j :: 0 <= j < k ==> init[j].nombre != name;
        assert items[k] == init[k];
      } else if items[|items| - 1].nombre == name {
        assert forall j :: 0 <= j < |items| - 1 ==> items[j] == init[j];
      }
    }
  }

  /** The first `forEach`: `summaryTotals`, with `names` recording the order in
      which the record's keys were created. For names that are not integer-like
      this is the order `Object.entries` lists them in; JavaScript lists
      integer-like keys first, in ascending numeric order. */
  method SummaryTotals(items: seq<SheetItem>) returns (names: seq<string>, totals: map<string, SummaryEntry>)
    ensures Distinct(names)
    ensures forall n :: n in names <==> n in totals
    ensures forall n :: n in totals <==> FirstUnit(items, n).Some?
    ensures forall n :: n in totals ==> totals[n].qty == NameQty(items, n)
    ensures forall n :: n in totals ==> totals[n].unit == FirstUnit(items, n).value
    ensures forall n :: n !in totals ==> NameQty(items, n) == 0
  {
    names, totals := [], map[];
    for j := 0 to |items|
      invariant Distinct(names)
      invariant forall n :: n in names <==> n in totals
      invariant forall n :: FirstUnit(items[..j], n) == if n in totals then Some(totals[n].unit) else None
      invariant forall n :: NameQty(items[..j], n) == if n in totals then totals[n].qty else 0
    {
      var item := items[j];
      assert items[..j + 1][..j] == items[..j];
      if item.nombre !in totals {
        totals := totals[item.nombre := SummaryEntry(0, item.empaque)];
        names := names + [item.nombre];
      }
      totals := totals[item.nombre := totals[item.nombre].(qty := totals[item.nombre].qty + OrZero(item.cantidad))];
    }
    assert items[..|items|] == items;
  }

  /** Σ cantidad over all fetched items. */
  function TotalQty(items: seq<SheetItem>): int
  {
    if items == [] then 0 else TotalQty(items[..|items| - 1]) + OrZero(items[|items| - 1].cantidad)
  }

  /** Σ qty over the summary rows of the given names. */
  function SumOver(names: seq<string>, items: seq<SheetItem>): int
  {
    if names == [] then 0 else SumOver(names[..|names| - 1], items) + NameQty(items, names[|names| - 1])
  }

  lemma {:induction false} SumOverSnoc(names: seq<string>, items: seq<SheetItem>, x: SheetItem)
    requires Distinct(names)
    ensures SumOver(names, items + [x]) == SumOver(names, items) + (if x.nombre in names then OrZero(x.cantidad) else 0)
  {
    assert (items + [x])[..|items|] == items;
    if names != [] {
      var init := names[..|names| - 1];
      assert Distinct(init);
      SumOverSnoc(init, items, x);
      assert x.nombre in names <==> x.nombre in init || x.nombre == names[|names| - 1];
      assert names[|names| - 1] !in init;
    }
  }

  /** Conservation: the summary's quantities add up to the quantity of all items
      fetched, as long as its names are distinct and cover every item. */
  lemma {:induction false} SummaryConservesQuantity(names: seq<string>, items: seq<SheetItem>)
    requires Distinct(names)
    requires forall k :: 0 <= k < |items| ==> items[k].nombre in names
    ensures SumOver(names, items) == TotalQty(items)
  {
    if items == [] {
      ZeroOver(names);
    } else {
      var init := items[..|items| - 1];
      var x := items[|items| - 1];
      assert items == init + [x];
      SummaryConservesQuantity(names, init);
      SumOverSnoc(names, init, x);
    }
  }

  lemma {:induction false} ZeroOver(names: seq<string>)
    ensures SumOver(names, []) == 0
  {
    if names != [] {
      ZeroOver(names[..|names| - 1]);
    }
  }

  /** The summary table body, in key order. */
  function SummaryBody(names: seq<string>, totals: map<string, SummaryEntry>): (r: seq<SummaryRow>)
    requires forall n :: n in names ==> n in totals
    ensures |r| == |names|
    ensures forall i :: 0 <= i < |names| ==>
      r[i] == SummaryRow(totals[names[i]].qty, totals[names[i]].unit, names[i])
  {
    seq(|names|, i requires 0 <= i < |names| => SummaryRow(totals[names[i]].qty, totals[names[i]].unit, names[i]))
  }

  /** The items of one order, in fetch order. */
  function ItemsFor(items: seq<SheetItem>, orderId: string): (r: seq<SheetItem>)
    ensures forall x :: x in r <==> x in items && x.orderId == orderId
  {
    if items == [] then []
    else
      var last := items[|items| - 1];
      ItemsFor(items[..|items| - 1], orderId) + (if last.orderId == orderId then [last] else [])
  }

  /** The filter distributes over concatenation: together with the one-item
      case this fixes the order and the multiplicity of the kept items. */
  lemma {:induction false} ItemsForAppend(a: seq<SheetItem>, b: seq<SheetItem>, orderId: string)
    ensures ItemsFor(a + b, orderId) == ItemsFor(a, orderId) + ItemsFor(b, orderId)
  {
    if b != [] {
      assert (a + b)[..|a + b| - 1] == a + b[..|b| - 1];
      ItemsForAppend(a, b[..|b| - 1], orderId);
    } else {
      assert a + b == a;
    }
  }

  /** One item is kept exactly when it belongs to the order. */
  lemma ItemsForSingle(x: SheetItem, orderId: string)
    ensures ItemsFor([x], orderId) == if x.orderId == orderId then [x] else []
  {
    assert [x][..0] == [];
  }

  /** The second `forEach`: `itemsByOrder`. */
  method GroupByOrder(items: seq<SheetItem>) returns (groups: map<string, seq<SheetItem>>)
    ensures forall id :: id in groups <==> ItemsFor(items, id) != []
    ensures forall id :: id in groups ==> groups[id] == ItemsFor(items, id)
  {
    groups := map[];
    for j := 0 to |items|
      invariant forall id :: (if id in groups then groups[id] else []) == ItemsFor(items[..j], id)
      invariant forall id :: id in groups ==> groups[id] != []
    {
      var item := items[j];
      assert items[..j + 1][..j] == items[..j];
      ghost var before := groups;
      if item.orderId !in groups {
        groups := groups[item.orderId := []];
      }
      groups := groups[item.orderId := groups[item.orderId] + [item]];
      forall id
        ensures (if id in groups then groups[id] else []) == ItemsFor(items[..j + 1], id)
      {
        assert ItemsFor(items[..j + 1], id) ==
          ItemsFor(items[..j], id) + (if item.orderId == id then [item] else []);
      }
    }
    assert items[..|items|] == items;
  }

  /** `itemsByOrder[id] || []`. */
  function GroupOf(groups: map<string, seq<SheetItem>>, id: string): seq<SheetItem>
  {
    if id in groups then groups[id] else []
  }

  // ---- layout -------------------------------------------------------------

  const PageHeight := 216
  const HeaderHeight := 40
  const TopMargin := 20

  /** Where the summary table starts: below the title, and below the period
      line when a start date was given. */
  function SummaryStart(start: Option<string>, end: Option<string>): (y: int)
    ensures Truthy(start) ==> y == 38
    ensures !Truthy(start) ==> y == 30
  {
    var cursor := TopMargin + 7;
    var cursor := if Truthy(start) && Truthy(end) then cursor + 8
                  else if Truthy(start) then cursor + 8
                  else cursor;
    cursor + 3
  }

  /** What one order contributes to the layout. */
  datatype Block = Block(hasNotes: bool, noteLines: nat, itemCount: nat, tableFinalY: int)

  /** Where an order header is drawn: on a new page when it would not fit. */
  function HeaderY(cursor: int): (y: int)
    ensures y + HeaderHeight <= PageHeight
    ensures cursor + HeaderHeight > PageHeight <==> y == TopMargin && cursor != TopMargin
    ensures cursor + HeaderHeight <= PageHeight ==> y == cursor
  {
    if cursor + HeaderHeight > PageHeight then TopMargin else cursor
  }

  /** The cursor after one order: header +5, notes +4 per line +2, then the
      table's end +10, or +15 for "(Sin productos)". */
  function AfterOrder(cursor: int, b: Block): int
  {
    var y := HeaderY(cursor) + 5;
    var y := if b.hasNotes then y + b.noteLines * 4 + 2 else y;
    if b.itemCount > 0 then b.tableFinalY + 10 else y + 15
  }

  /** Header positions of a run of orders starting at `cursor`. */
  function HeaderYs(cursor: int, blocks: seq<Block>): (r: seq<int>)
    ensures |r| == |blocks|
    ensures forall i :: 0 <= i < |r| ==> r[i] + HeaderHeight <= PageHeight
    decreases |blocks|
  {
    if blocks == [] then [] else [HeaderY(cursor)] + HeaderYs(AfterOrder(cursor, blocks[0]), blocks[1..])
  }

  /** The per-order `for` loop of the batch sheet. */
  method LayOutOrders(start: int, blocks: seq<Block>) returns (headers: seq<int>, cursor: int)
    ensures headers == HeaderYs(start, blocks)
  {
    headers := [];
    cursor := start;
    assert blocks[0..] == blocks;
    for i := 0 to |blocks|
      invariant headers + HeaderYs(cursor, blocks[i..]) == HeaderYs(start, blocks)
    {
      assert blocks[i..][1..] == blocks[i + 1..];
      var b := blocks[i];
      ghost var before := cursor;
      if cursor + HeaderHeight > PageHeight {
        cursor := TopMargin;
      }
      headers := headers + [cursor];
      cursor := cursor + 5;
      if b.hasNotes {
        cursor := cursor + b.noteLines * 4 + 2;
      }
      if b.itemCount > 0 {
        cursor := b.tableFinalY + 10;
      } else {
        cursor := cursor + 15;
      }
      assert cursor == AfterOrder(before, b);
      assert HeaderYs(before, blocks[i..]) == [HeaderY(before)] + HeaderYs(cursor, blocks[i + 1..]);
    }
  }

  /** An order with no items and no notes moves the cursor exactly 20 below its
      header; notes add 4 per wrapped line plus 2. */
  lemma EmptyOrderSpacing(cursor: int, noteLines: nat)
    ensures AfterOrder(cursor, Block(false, noteLines, 0, 0)) == HeaderY(cursor) + 20
    ensures AfterOrder(cursor, Block(true, noteLines, 0, 0)) == HeaderY(cursor) + 20 + 4 * noteLines + 2
  {
  }

  // ---- the two generators -----------------------------------------------

  datatype SingleOutcome = SingleFailed | NoProducts | SingleSheet(tableStart: int, rows: seq<SheetItem>)

  /** Where the single-order table starts: 38, or below the wrapped notes. */
  function SingleTableStart(notes: Option<string>, noteLines: nat): (y: int)
    ensures !Truthy(notes) ==> y == 38
    ensures Truthy(notes) ==> y == 36 + 4 * noteLines + 2 && y >= 38
  {
    if Truthy(notes) then 36 + noteLines * 4 + 2 else 38
  }

  /** generateProductionPdf: aborts when the order has no items; `items || []`
      turns a null result into none. */
  function SingleSheetFor(fetched: Fetch<seq<SheetItem>>, notes: Option<string>, noteLines: nat): (r: SingleOutcome)
    ensures fetched.FetchError? <==> r.SingleFailed?
    ensures r.NoProducts? <==> fetched.NoData? || (fetched.Data? && fetched.rows == [])
    ensures r.SingleSheet? ==> r.rows == fetched.rows && r.rows != []
    ensures r.SingleSheet? ==> r.tableStart == SingleTableStart(notes, noteLines)
  {
    match fetched
    case FetchError => SingleFailed
    case NoData => NoProducts
    case Data(items) =>
      if |items| == 0 then NoProducts else SingleSheet(SingleTableStart(notes, noteLines), items)
  }

  /** An order of the batch, as the sheet needs it. */
  datatype SheetOrder = SheetOrder(id: string, notes: Option<string>)

  /** The layout block of each order: its notes, the wrapped line count and
      table end the drawing library reports, and how many items it has. */
  function BatchBlocks(orders: seq<SheetOrder>, items: seq<SheetItem>,
                       noteLines: seq<nat>, tableEnds: seq<int>): (r: seq<Block>)
    requires |noteLines| == |orders| && |tableEnds| == |orders|
    ensures |r| == |orders|
    ensures forall i :: 0 <= i < |r| ==>
      r[i].hasNotes == Truthy(orders[i].notes) && r[i].itemCount == |ItemsFor(items, orders[i].id)|
  {
    seq(|orders|, i requires 0 <= i < |orders| =>
      Block(Truthy(orders[i].notes), noteLines[i], |ItemsFor(items, orders[i].id)|, tableEnds[i]))
  }

  datatype BatchOutcome = Skipped | BatchFailed | BatchSheet(summary: seq<SummaryRow>, headers: seq<int>)

  /** generateBatchProductionPdf. `noteLines[i]` and `tableEnds[i]` stand for
      what the drawing library reports for order i; `summaryEnd` for where the
      summary table ends. */
  method GenerateBatch(orders: seq<SheetOrder>, fetched: Fetch<seq<SheetItem>>,
                       start: Option<string>, end: Option<string>,
                       summaryEnd: int, noteLines: seq<nat>, tableEnds: seq<int>)
    returns (r: BatchOutcome)
    requires |noteLines| == |orders| && |tableEnds| == |orders|
    ensures orders == [] <==> r.Skipped?
    ensures orders != [] && fetched.FetchError? <==> r.BatchFailed?
    ensures r.BatchSheet? ==>
      var items := if fetched.Data? then fetched.rows else [];
      && |r.headers| == |orders|
      && r.headers == HeaderYs(summaryEnd + 15, BatchBlocks(orders, items, noteLines, tableEnds))
      && (forall i :: 0 <= i < |orders| ==> r.headers[i] + HeaderHeight <= PageHeight)
      && (forall k :: 0 <= k < |r.summary| ==>
            r.summary[k].qty == NameQty(items, r.summary[k].name) &&
            Some(r.summary[k].unit) == FirstUnit(items, r.summary[k].name))
      && (forall n :: FirstUnit(items, n).Some? <==> exists k :: 0 <= k < |r.summary| && r.summary[k].name == n)
      && (forall k, l :: 0 <= k < l < |r.summary| ==> r.summary[k].name != r.summary[l].name)
  {
    if |orders| == 0 {
      return Skipped;
    }
    if fetched.FetchError? {
      return BatchFailed;
    }
    var items := if fetched.Data? then fetched.rows else [];
    var names, totals := SummaryTotals(items);
    var groups := GroupByOrder(items);
    var summary := SummaryBody(names, totals);
    forall n | FirstUnit(items, n).Some?
      ensures exists k :: 0 <= k < |summary| && summary[k].name == n
    {
      var k :| 0 <= k < |names| && names[k] == n;
      assert summary[k].name == n;
    }
    var blocks := seq(|orders|, i requires 0 <= i < |orders| =>
      Block(Truthy(orders[i].notes), noteLines[i], |GroupOf(groups, orders[i].id)|, tableEnds[i]));
    forall i | 0 <= i < |orders|
      ensures GroupOf(groups, orders[i].id) == ItemsFor(items, orders[i].id)
    {
    }
    assert blocks == BatchBlocks(orders, items, noteLines, tableEnds);
    var headers, _ := LayOutOrders(summaryEnd + 15, blocks);
    r := BatchSheet(summary, headers);
  }
}
