/** The Kivy bakery: the order form with one quantity spinner per menu
    line and its summary labels, the save that appends a record to the day
    file, and the history view that lists a day's records, including the
    older records the command-line program writes. The text `time.asctime`
    returned and the random order number are parameters; widgets, layout
    and popups are reduced to the texts they show. */
module BakeryGui {
  import opened Wrappers
  import opened PyText
  import opened Ledger
  import BakeryCli

  /** `BAKERY_ITEMS` in insertion order, which is the order `dict.items()`
      yields them in, with the prices in cents. */
  const Menu: seq<(string, nat)> := [
    ("Bread", 250), ("Croissant", 175), ("Donut", 125), ("Cake Slice", 350), ("Muffin", 150),
    ("Cupcake", 200), ("Cookie", 100), ("Brownie", 225), ("Coffee", 250), ("Tea", 175)]

  // ---------------------------------------------------------------------------
  // The clock

  /** The four fields `get_current_date_time` returns. */
  datatype Stamp = Stamp(date: string, month: string, year: string, time: string)

  /** `get_current_date_time`, applied to the text `time.asctime` returned. */
  function ClockStamp(s: string): Stamp {
    Stamp(Strip(Slice(s, 8, 10)), Slice(s, 4, 7), Slice(s, 20, 24), Slice(s, 11, 19))
  }

  /** On a real `asctime` text the slices pick out the day without its
      padding, the month's name, the year and the time of day. */
  lemma ClockStampOfAscTime(t: LocalTime)
    requires ValidLocalTime(t)
    ensures ClockStamp(AscTime(t)) == Stamp(Decimal(t.day), MonthNames[t.month - 1], Decimal(t.year), ClockField(t))
  {
    var s := AscTime(t);
    assert Slice(s, 8, 10) == DayField(t.day);
    assert Slice(s, 4, 7) == MonthNames[t.month - 1];
    assert Slice(s, 11, 19) == ClockField(t);
    assert Slice(s, 20, 24) == Decimal(t.year);
    DayFieldStrip(t.day);
  }

  // ---------------------------------------------------------------------------
  // One menu line

  /** `OrderItem`: a menu line with its quantity spinner and the label that
      shows the line's total. `quantity` is the number the spinner shows;
      its only values are "0" to "10", so `int()` of its text is that number. */
  class OrderItem {
    ghost const position: nat
    const itemName: string
    const price: nat
    var quantity: nat
    var totalLabel: string

    /** The spinner shows one of its values and, through the binding to
        `update_total`, the label shows the line's total. */
    predicate Valid()
      reads this
    {
      quantity <= 10 && totalLabel == "$" + Money2(quantity * price)
    }

    /** A new line shows "0" and "$0.00". */
    constructor(position: nat, itemName: string, price: nat)
      ensures Valid()
      ensures this.position == position && this.itemName == itemName && this.price == price && quantity == 0
    {
      this.position := position;
      this.itemName := itemName;
      this.price := price;
      quantity := 0;
      totalLabel := "$" + Money2(0);
    }

    /** Setting the spinner to `q`; the binding relabels the line. */
    method SetQuantity(q: nat)
      requires q <= 10
      modifies this
      ensures Valid() && quantity == q
    {
      quantity := q;
      totalLabel := "$" + Money2(q * price);
    }

    /** `get_item_info`, whose `total` is `get_total`: the quantity times
        the price. */
    function Info(): (l: LineItem)
      reads this
    {
      LineItem(itemName, quantity, price, quantity * price)
    }
  }

  // ---------------------------------------------------------------------------
  // Totals and order details

  /** The number of items `calculate_total` counts in the first `n` lines. */
  function ItemCount(ls: seq<LineItem>, n: nat): nat
    requires n <= |ls|
  {
    if n == 0 then 0
    else ItemCount(ls, n - 1) + (if ls[n - 1].quantity > 0 then ls[n - 1].quantity else 0)
  }

  /** The amount `calculate_total` adds up over the first `n` lines. */
  function AmountDue(ls: seq<LineItem>, n: nat): int
    requires n <= |ls|
  {
    if n == 0 then 0
    else AmountDue(ls, n - 1) + (if ls[n - 1].quantity > 0 then ls[n - 1].total else 0)
  }

  /** The `order_details` that `save_order` collects from the first `n`
      lines: those with a positive quantity, in menu order. */
  function Details(ls: seq<LineItem>, n: nat): seq<LineItem>
    requires n <= |ls|
  {
    if n == 0 then []
    else Details(ls, n - 1) + (if ls[n - 1].quantity > 0 then [ls[n - 1]] else [])
  }

  /** The loop of `calculate_total` over the menu lines' `get_item_info`. */
  method Summarize(ls: seq<LineItem>) returns (totalItems: nat, totalAmount: int)
    ensures totalItems == ItemCount(ls, |ls|) && totalAmount == AmountDue(ls, |ls|)
  {
    totalItems, totalAmount := 0, 0;
    var i := 0;
    while i < |ls|
      invariant 0 <= i <= |ls|
      invariant totalItems == ItemCount(ls, i) && totalAmount == AmountDue(ls, i)
    {
      if ls[i].quantity > 0 {
        totalItems := totalItems + ls[i].quantity;
        totalAmount := totalAmount + ls[i].total;
      }
      i := i + 1;
    }
  }

  /** The quantities of an order's details, added up. */
  function QuantitySum(ds: seq<LineItem>): int {
    if |ds| == 0 then 0 else QuantitySum(ds[..|ds| - 1]) + ds[|ds| - 1].quantity
  }

  /** The totals of an order's details, added up. */
  function TotalSum(ds: seq<LineItem>): int {
    if |ds| == 0 then 0 else TotalSum(ds[..|ds| - 1]) + ds[|ds| - 1].total
  }

  /** The summary and the saved details agree: the item count is the sum of
      the detail quantities and the amount due the sum of their totals. */
  lemma {:induction false} DetailsAgree(ls: seq<LineItem>, n: nat)
    requires n <= |ls|
    ensures ItemCount(ls, n) == QuantitySum(Details(ls, n))
    ensures AmountDue(ls, n) == TotalSum(Details(ls, n))
  {
    if n > 0 {
      DetailsAgree(ls, n - 1);
      var d := Details(ls, n - 1);
      if ls[n - 1].quantity > 0 {
        assert (d + [ls[n - 1]])[..|d|] == d;
      } else {
        assert Details(ls, n) == d;
      }
    }
  }

  /** The positions of the lines with a positive quantity among the first
      `n`, in increasing order. */
  function PositiveIndices(ls: seq<LineItem>, n: nat): seq<nat>
    requires n <= |ls|
  {
    if n == 0 then []
    else PositiveIndices(ls, n - 1) + (if ls[n - 1].quantity > 0 then [n - 1] else [])
  }

  /** The positions of the positive lines are strictly increasing, lie
      below `n` and each names a line with a positive quantity. */
  lemma {:induction false} PositiveIndicesSorted(ls: seq<LineItem>, n: nat)
    requires n <= |ls|
    ensures forall k :: 0 <= k < |PositiveIndices(ls, n)| ==>
      PositiveIndices(ls, n)[k] < n && ls[PositiveIndices(ls, n)[k]].quantity > 0
    ensures forall k1, k2 :: 0 <= k1 < k2 < |PositiveIndices(ls, n)| ==>
      PositiveIndices(ls, n)[k1] < PositiveIndices(ls, n)[k2]
  {
    if n > 0 {
      PositiveIndicesSorted(ls, n - 1);
      var p := PositiveIndices(ls, n - 1);
      assert forall k :: 0 <= k < |p| ==> p[k] < n - 1;
      if ls[n - 1].quantity > 0 {
        var q := p + [n - 1];
        assert PositiveIndices(ls, n) == q;
        assert forall k :: 0 <= k < |p| ==> q[k] == p[k];
        assert q[|p|] == n - 1;
      } else {
        assert PositiveIndices(ls, n) == p;
      }
    }
  }

  /** A position below `n` is listed exactly when its line has a positive
      quantity. */
  lemma {:induction false} PositiveIndicesCover(ls: seq<LineItem>, n: nat)
    requires n <= |ls|
    ensures forall j :: 0 <= j < n ==> (j in PositiveIndices(ls, n) <==> ls[j].quantity > 0)
  {
    if n > 0 {
      PositiveIndicesCover(ls, n - 1);
      PositiveIndicesSorted(ls, n - 1);
      var p := PositiveIndices(ls, n - 1);
      assert n - 1 !in p;
      if ls[n - 1].quantity > 0 {
        assert PositiveIndices(ls, n) == p + [n - 1];
      } else {
        assert PositiveIndices(ls, n) == p;
      }
    }
  }

  /** The `k`-th detail is the line at the `k`-th positive position. */
  lemma {:induction false} DetailsAtIndices(ls: seq<LineItem>, n: nat)
    requires n <= |ls|
    ensures |Details(ls, n)| == |PositiveIndices(ls, n)|
    ensures forall k :: 0 <= k < |PositiveIndices(ls, n)| ==>
      PositiveIndices(ls, n)[k] < n && Details(ls, n)[k] == ls[PositiveIndices(ls, n)[k]]
  {
    if n > 0 {
      DetailsAtIndices(ls, n - 1);
      var d, p := Details(ls, n - 1), PositiveIndices(ls, n - 1);
      if ls[n - 1].quantity > 0 {
        var e, q := d + [ls[n - 1]], p + [n - 1];
        assert Details(ls, n) == e && PositiveIndices(ls, n) == q;
        assert forall k :: 0 <= k < |p| ==> e[k] == d[k] && q[k] == p[k];
        assert e[|d|] == ls[q[|p|]];
      } else {
        assert Details(ls, n) == d && PositiveIndices(ls, n) == p;
      }
    }
  }

  /** The details are exactly the lines with a positive quantity, each
      taken once and in menu order: the `k`-th detail is the line at the
      `k`-th position of a strictly increasing sequence that holds every
      position with a positive quantity and no other. */
  lemma {:induction false} DetailsAreOrderedLines(ls: seq<LineItem>, n: nat)
    requires n <= |ls|
    ensures var d, p := Details(ls, n), PositiveIndices(ls, n);
      && |d| == |p|
      && (forall k :: 0 <= k < |p| ==> p[k] < n && ls[p[k]].quantity > 0 && d[k] == ls[p[k]])
      && (forall k1, k2 :: 0 <= k1 < k2 < |p| ==> p[k1] < p[k2])
      && (forall j :: 0 <= j < n && ls[j].quantity > 0 ==> j in p)
  {
    PositiveIndicesSorted(ls, n);
    PositiveIndicesCover(ls, n);
    DetailsAtIndices(ls, n);
  }

  /** Nothing is counted exactly when no detail is collected, so
      `total_items == 0` is the check that the order is empty. */
  lemma {:induction false} NothingOrdered(ls: seq<LineItem>, n: nat)
    requires n <= |ls|
    ensures ItemCount(ls, n) == 0 <==> Details(ls, n) == []
    ensures ItemCount(ls, n) == 0 <==> forall j :: 0 <= j < n ==> ls[j].quantity <= 0
    ensures ItemCount(ls, n) == 0 ==> AmountDue(ls, n) == 0
  {
    if n > 0 {
      NothingOrdered(ls, n - 1);
    }
  }

  // ---------------------------------------------------------------------------
  // Records and how the history shows them

  /** The record `save_order_to_json` writes. */
  function OrderRecord(name: string, id: string, items: seq<LineItem>, bill: int, time: string, date: string, month: string): Record {
    map["Customer_name" := Text(name), "Customer_id" := Text(id), "Order_items" := Items(items),
        "Total_bill" := Amount(bill), "Time" := Text(time), "Date" := Text(date + " " + month)]
  }

  /** A saved record holds six fields: the items as a list, the bill as a
      number and the date as the day and the month's name. */
  lemma OrderRecordFields(name: string, id: string, items: seq<LineItem>, bill: int, time: string, date: string, month: string)
    ensures var r := OrderRecord(name, id, items, bill, time, date, month);
      && r.Keys == {"Customer_name", "Customer_id", "Order_items", "Total_bill", "Time", "Date"}
      && HasHeader(r) && HasItemList(r) && r["Order_items"].lines == items
      && r["Total_bill"] == Amount(bill) && r["Date"] == Text(date + " " + month)
  {
  }

  /** `f"{item['item']} x{item['quantity']} - ${item['total']:.2f}"`. */
  function LineText(l: LineItem): string {
    l.item + " x" + IntToString(l.quantity) + " - $" + Fixed2(l.total)
  }

  function LineTexts(ls: seq<LineItem>): (ts: seq<string>)
    ensures |ts| == |ls|
  {
    seq(|ls|, i requires 0 <= i < |ls| => LineText(ls[i]))
  }

  /** The bill the history shows: `Total_bill`, else the older `Bill`,
      else "0.00". */
  function BillShown(r: Record): (s: string)
    ensures "Total_bill" in r ==> s == Str(r["Total_bill"])
    ensures "Total_bill" !in r && "Bill" in r ==> s == Str(r["Bill"])
    ensures "Total_bill" !in r && "Bill" !in r ==> s == "0.00"
  {
    Str(Get(r, "Total_bill", Get(r, "Bill", Text("0.00"))))
  }

  /** A record holds its items in the current form: `Order_items` is a list. */
  predicate HasItemList(r: Record) {
    "Order_items" in r && r["Order_items"].Items?
  }

  /** The item lines the history shows: one per entry of `Order_items`
      when that is a list, else the older `Order` text, else "Unknown". */
  function ItemLines(r: Record): (ls: seq<string>)
    ensures HasItemList(r) ==> ls == LineTexts(r["Order_items"].lines)
    ensures !HasItemList(r) && "Order" in r ==> ls == [Str(r["Order"])]
    ensures !HasItemList(r) && "Order" !in r ==> ls == ["Unknown"]
  {
    if HasItemList(r) then LineTexts(r["Order_items"].lines)
    else [Str(Get(r, "Order", Text("Unknown")))]
  }

  /** One order's box in the history. */
  datatype Card = Card(customer: string, id: string, time: string, items: seq<string>, total: string)

  /** The fields the history reads with `order[...]`, which raises
      `KeyError` when one is missing. */
  predicate HasHeader(r: Record) {
    "Customer_name" in r && "Customer_id" in r && "Time" in r
  }

  /** The box `display_orders` builds for one record. */
  function CardOf(r: Record): (c: Option<Card>)
    ensures c.Some? <==> HasHeader(r)
    ensures c.Some? ==> c.value.items == ItemLines(r) && c.value.total == "Total: $" + BillShown(r)
  {
    if HasHeader(r) then
      Some(Card("Customer: " + Str(r["Customer_name"]), "ID: " + Str(r["Customer_id"]), "Time: " + Str(r["Time"]),
                ItemLines(r), "Total: $" + BillShown(r)))
    else None
  }

  /** The number of records, from `i` on, that `display_orders` gets
      through before one lacks a header field. */
  function HeaderRun(rs: seq<Record>, i: nat): (k: nat)
    requires i <= |rs|
    decreases |rs| - i
    ensures i <= k <= |rs|
    ensures forall j :: i <= j < k ==> HasHeader(rs[j])
    ensures k < |rs| ==> !HasHeader(rs[k])
  {
    if i == |rs| || !HasHeader(rs[i]) then i else HeaderRun(rs, i + 1)
  }

  /** The order history panel. */
  datatype History =
    | Blank                    // nothing fetched yet
    | NoOrders                 // "No orders found for the selected date"
    | Cards(cards: seq<Card>)  // one box per record
    | Raised(cards: seq<Card>) // the boxes added before a record without a header raised `KeyError`

  /** What `display_orders` leaves in the panel for `rs`: the panel is
      cleared, then a box is added per record until one lacks a header field. */
  function HistoryOf(rs: seq<Record>): (h: History)
    ensures h == NoOrders <==> rs == []
    ensures rs != [] ==> h.Cards? || h.Raised?
    ensures h.Cards? <==> rs != [] && forall i :: 0 <= i < |rs| ==> HasHeader(rs[i])
    ensures h.Cards? || h.Raised? ==> |h.cards| <= |rs| && forall i :: 0 <= i < |h.cards| ==> Some(h.cards[i]) == CardOf(rs[i])
    ensures h.Cards? ==> |h.cards| == |rs|
    ensures h.Raised? ==> |h.cards| < |rs| && !HasHeader(rs[|h.cards|])
  {
    if rs == [] then NoOrders
    else
      var k := HeaderRun(rs, 0);
      var cs := seq(k, i requires 0 <= i < k => CardOf(rs[i]).value);
      if k == |rs| then Cards(cs) else Raised(cs)
  }

  /** A record this program saved is shown as it was saved: its header,
      each saved item on a line of its own and its bill as `str` prints it. */
  lemma SavedOrderShows(name: string, id: string, items: seq<LineItem>, bill: int, time: string, date: string, month: string)
    ensures CardOf(OrderRecord(name, id, items, bill, time, date, month))
         == Some(Card("Customer: " + name, "ID: " + id, "Time: " + time, LineTexts(items), "Total: $" + FloatRepr(bill)))
  {
  }

  /** A record the command-line program saved has no item list and no
      `Total_bill`: the history shows its `Order` text and its `Bill`. */
  lemma OlderRecordShows(name: string, id: int, order: string, bill: string, time: string)
    ensures var r := BakeryCli.OrderRecord(name, id, order, bill, time);
      && !HasItemList(r) && ItemLines(r) == [order] && BillShown(r) == bill
      && CardOf(r) == Some(Card("Customer: " + name, "ID: " + IntToString(id), "Time: " + time, [order], "Total: $" + bill))
  {
  }

  /** Both programs take the same day and month from a clock text, so they
      write one day's orders to the same file and each reads the other's. */
  lemma SameDayFile(t: LocalTime)
    requires ValidLocalTime(t)
    ensures var gui, cli := ClockStamp(AscTime(t)), BakeryCli.ClockStamp(AscTime(t));
      && gui.date == cli.date && gui.month == cli.month && gui.time == cli.time
      && DayFileName(gui.month, gui.date) == DayFileName(cli.month, cli.date)
  {
    ClockStampOfAscTime(t);
    BakeryCli.ClockStampOfAscTime(t);
  }

  // ---------------------------------------------------------------------------
  // Receipt and details texts

  /** The bullet lines for the first `n` texts. */
  function BulletLines(texts: seq<string>, n: nat): string
    requires n <= |texts|
  {
    if n == 0 then "" else BulletLines(texts, n - 1) + "• " + texts[n - 1] + "\n"
  }

  /** The bullet lines of a receipt or a details popup: one per item. */
  function ItemBlock(items: seq<LineItem>): string {
    BulletLines(LineTexts(items), |items|)
  }

  /** The loop of `save_order` and `show_order_details` that adds one
      bullet line per item, given the items' texts. */
  method AppendItemLines(texts: seq<string>) returns (block: string)
    ensures block == BulletLines(texts, |texts|)
  {
    block := "";
    var i := 0;
    while i < |texts|
      invariant 0 <= i <= |texts|
      invariant block == BulletLines(texts, i)
    {
      block := block + "• " + texts[i] + "\n";
      i := i + 1;
    }
  }

  /** The receipt's lines above the items. */
  function ReceiptHead(name: string, id: string, st: Stamp): string {
    "Customer: " + name + "\n" + "Order ID: " + id + "\n" + "Date: " + st.date + " " + st.month + " " + st.year + "\n"
    + "Time: " + st.time + "\n\n" + "Items Ordered:\n"
  }

  /** The lines of the details popup above the items: `Date` falls back
      to "Unknown". */
  function DetailsHead(r: Record): string
    requires HasHeader(r)
  {
    "Customer: " + Str(r["Customer_name"]) + "\n" + "Order ID: " + Str(r["Customer_id"]) + "\n"
    + "Date: " + Str(Get(r, "Date", Text("Unknown"))) + "\n" + "Time: " + Str(r["Time"]) + "\n\n"
  }

  /** The items of the details popup: a bullet line per entry of the item
      list, else the older `Order` text, else "Unknown". */
  function DetailsBody(r: Record): string {
    if HasItemList(r) then "Items Ordered:\n" + ItemBlock(r["Order_items"].lines)
    else "Order: " + Str(Get(r, "Order", Text("Unknown"))) + "\n"
  }

  /** The text `show_order_details` puts in its popup, or `None` when the
      record lacks a header field and the handler raises `KeyError`; the
      bill falls back as in the history. */
  function DetailsText(r: Record): (t: Option<string>)
    ensures t.Some? <==> HasHeader(r)
  {
    if !HasHeader(r) then None
    else Some(DetailsHead(r) + DetailsBody(r) + "\nTotal: $" + BillShown(r))
  }

  /** The details of a saved order repeat its receipt, except that the date
      has no year and the total is printed by `str` rather than `:.2f`. */
  lemma DetailsOfSavedOrder(name: string, id: string, items: seq<LineItem>, bill: int, st: Stamp)
    ensures DetailsText(OrderRecord(name, id, items, bill, st.time, st.date, st.month))
         == Some(("Customer: " + name + "\n" + "Order ID: " + id + "\n" + "Date: " + (st.date + " " + st.month) + "\n"
                  + "Time: " + st.time + "\n\n") + ("Items Ordered:\n" + ItemBlock(items)) + "\nTotal: $" + FloatRepr(bill))
  {
    var r := OrderRecord(name, id, items, bill, st.time, st.date, st.month);
    assert r["Customer_name"] == Text(name) && r["Customer_id"] == Text(id) && r["Time"] == Text(st.time);
    assert r["Order_items"] == Items(items) && r["Total_bill"] == Amount(bill) && r["Date"] == Text(st.date + " " + st.month);
    assert DetailsHead(r) == "Customer: " + name + "\n" + "Order ID: " + id + "\n" + "Date: " + (st.date + " " + st.month) + "\n"
                             + "Time: " + st.time + "\n\n";
    assert DetailsBody(r) == "Items Ordered:\n" + ItemBlock(items);
    assert BillShown(r) == FloatRepr(bill);
  }

  /** The details of a command-line record: no date, and its `Order` text
      and `Bill` in place of the items and the total. */
  lemma DetailsOfOlderRecord(name: string, id: int, order: string, bill: string, time: string)
    ensures DetailsText(BakeryCli.OrderRecord(name, id, order, bill, time))
         == Some(("Customer: " + name + "\n" + "Order ID: " + IntToString(id) + "\n" + "Date: " + "Unknown" + "\n"
                  + "Time: " + time + "\n\n") + ("Order: " + order + "\n") + "\nTotal: $" + bill)
  {
    var r := BakeryCli.OrderRecord(name, id, order, bill, time);
    assert r["Customer_name"] == Text(name) && r["Customer_id"] == Whole(id) && r["Time"] == Text(time);
    assert DetailsBody(r) == "Order: " + order + "\n";
  }

  // ---------------------------------------------------------------------------
  // The day files

  /** `save_order_to_json`: the day's records, or none when the file is
      missing or does not decode, with the new record added at the end. */
  method SaveOrderToJson(store: Store, name: string, id: string, items: seq<LineItem>, bill: int,
                         time: string, date: string, month: string)
    modifies store
    ensures store.files == Appended(old(store.files), DayFileName(month, date), OrderRecord(name, id, items, bill, time, date, month))
  {
    var filename := DayFileName(month, date);
    var data: seq<Record> := [];
    if filename in store.files {
      match store.files[filename] {
        case Orders(rs) => data := rs;
        case Undecodable => data := [];
      }
    }
    data := data + [OrderRecord(name, id, items, bill, time, date, month)];
    store.Write(filename, data);
  }

  /** `read_orders_from_json`: the day's records, or none when the file is
      missing or does not decode. */
  function ReadOrdersFromJson(files: map<string, FileContent>, date: string, month: string): (rs: seq<Record>)
    ensures var name := DayFileName(month, date);
      rs == (if name in files && files[name].Orders? then files[name].records else [])
  {
    Existing(files, DayFileName(month, date))
  }

  /** Saving and reading name the same file: after a save, reading that day
      gives what it gave before plus the new record, and reading any other
      day of the same month gives what it gave before. */
  lemma ReadAfterSave(files: map<string, FileContent>, r: Record, date: string, month: string, other: string)
    requires other != date
    ensures var after := Appended(files, DayFileName(month, date), r);
      && ReadOrdersFromJson(after, date, month) == ReadOrdersFromJson(files, date, month) + [r]
      && ReadOrdersFromJson(after, other, month) == ReadOrdersFromJson(files, other, month)
  {
    DayFileNameInjective(month, date, month, other);
  }

  /** The part of `save_order` between the checks and `clear_form`: the
      details are saved with the id drawn and the clock's date, and the
      receipt lists them. */
  method Checkout(store: Store, name: string, idNumber: int, clock: string, details: seq<LineItem>, amount: int)
    returns (receipt: string)
    requires 1000 <= idNumber <= 9999
    modifies store
    ensures var st, id := ClockStamp(clock), "CUST-" + Decimal(idNumber);
      && store.files == Appended(old(store.files), DayFileName(st.month, st.date), OrderRecord(name, id, details, amount, st.time, st.date, st.month))
      && receipt == ReceiptHead(name, id, st) + ItemBlock(details) + "\nTotal: $" + Fixed2(amount)
  {
    var id := "CUST-" + Decimal(idNumber);
    var st := ClockStamp(clock);
    SaveOrderToJson(store, name, id, details, amount, st.time, st.date, st.month);
    receipt := ReceiptHead(name, id, st);
    var block := AppendItemLines(LineTexts(details));
    receipt := receipt + block + "\nTotal: $" + Fixed2(amount);
  }

  // ---------------------------------------------------------------------------
  // The application

  /** The message popups the application shows. */
  datatype Popup = Popup(title: string, message: string)

  /** The fields of the application other than the menu lines. */
  datatype Form = Form(customerName: string, phone: string, totalItemsLabel: string, totalAmountLabel: string,
                       dateInput: string, monthInput: string, history: History)

  /** The menu's lines with every spinner on `q`. */
  function MenuLines(q: nat): (ls: seq<LineItem>)
    ensures |ls| == |Menu|
    ensures forall i :: 0 <= i < |Menu| ==> ls[i] == LineItem(Menu[i].0, q, Menu[i].1, q * Menu[i].1)
  {
    seq(|Menu|, i requires 0 <= i < |Menu| => LineItem(Menu[i].0, q, Menu[i].1, q * Menu[i].1))
  }

  /** After `clear_form` the summary reads "0" while every spinner holds
      "1": calculating again counts one item per menu line, and saving
      would order every line. */
  lemma {:induction false} ClearedFormCountsEveryLine(n: nat)
    requires n <= |Menu|
    ensures ItemCount(MenuLines(1), n) == n
    ensures |Details(MenuLines(1), n)| == n
  {
    if n > 0 {
      ClearedFormCountsEveryLine(n - 1);
    }
  }

  /** `BakeryShopApp` after `build`: the menu lines, the two text inputs of
      the order tab and its summary labels, the date and month inputs of the
      view tab and the order history panel. `store` is the working
      directory the day files live in. */
  class BakeryShop {
    const orderItems: seq<OrderItem>
    const store: Store
    var customerName: string
    var phone: string
    var totalItemsLabel: string
    var totalAmountLabel: string
    var dateInput: string
    var monthInput: string
    var history: History

    /** The menu lines' objects. */
    ghost function Spinners(): set<OrderItem> {
      set i | 0 <= i < |orderItems| :: orderItems[i]
    }

    /** The lines follow the menu: one per entry, with its name and price. */
    predicate OnMenu() {
      && |orderItems| == |Menu|
      && forall i :: 0 <= i < |orderItems| ==> orderItems[i].itemName == Menu[i].0 && orderItems[i].price == Menu[i].1
    }

    /** Each line is a distinct object, known by its position. */
    ghost predicate Distinct() {
      forall i :: 0 <= i < |orderItems| ==> orderItems[i].position == i
    }

    /** Each line shows a spinner value and the label that goes with it. */
    ghost predicate Consistent()
      reads Spinners()
    {
      forall i :: 0 <= i < |orderItems| ==> orderItems[i].Valid()
    }

    /** `get_item_info` of every menu line. */
    function Lines(): (ls: seq<LineItem>)
      reads Spinners()
      ensures |ls| == |orderItems|
      ensures forall i :: 0 <= i < |orderItems| ==> ls[i] == orderItems[i].Info()
    {
      seq(|orderItems|, i requires 0 <= i < |orderItems| reads Spinners() => orderItems[i].Info())
    }

    /** The other fields, for saying what a handler leaves alone. */
    function State(): Form
      reads this
    {
      Form(customerName, phone, totalItemsLabel, totalAmountLabel, dateInput, monthInput, history)
    }

    /** `build`: a line per menu entry with its spinner on "0", empty inputs,
        the summary at "0" and "$0.00", no month chosen and no history. */
    constructor(store: Store)
      ensures OnMenu() && Distinct() && Consistent() && fresh(Spinners())
      ensures this.store == store
      ensures Lines() == MenuLines(0)
      ensures State() == Form("", "", "0", "$0.00", "", "Select Month", Blank)
    {
      var items: seq<OrderItem> := [];
      var i := 0;
      while i < |Menu|
        invariant 0 <= i <= |Menu| && |items| == i
        invariant forall j :: 0 <= j < i ==> fresh(items[j])
        invariant forall j :: 0 <= j < i ==>
          && items[j].position == j && items[j].itemName == Menu[j].0 && items[j].price == Menu[j].1
          && items[j].quantity == 0 && items[j].Valid()
      {
        var line := new OrderItem(i, Menu[i].0, Menu[i].1);
        items := items + [line];
        i := i + 1;
      }
      orderItems := items;
      this.store := store;
      customerName, phone := "", "";
      totalItemsLabel, totalAmountLabel := "0", "$0.00";
      dateInput, monthInput := "", "Select Month";
      history := Blank;
      new;
      assert forall j :: 0 <= j < |orderItems| ==> Lines()[j] == MenuLines(0)[j];
    }

    /** Typing a name and a phone number into the order tab. */
    method EnterCustomer(name: string, number: string)
      modifies this
      ensures State() == old(State()).(customerName := name, phone := number)
    {
      customerName, phone := name, number;
    }

    /** Picking `q` on the spinner of menu line `i`: that line alone changes. */
    method PickQuantity(i: nat, q: nat)
      requires Distinct() && i < |orderItems| && q <= 10
      modifies orderItems[i]
      ensures orderItems[i].Valid() && orderItems[i].quantity == q
      ensures forall j :: 0 <= j < |orderItems| && j != i ==>
        orderItems[j].quantity == old(orderItems[j].quantity) && orderItems[j].totalLabel == old(orderItems[j].totalLabel)
      ensures Lines() == old(Lines())[i := old(Lines())[i].(quantity := q, total := q * orderItems[i].price)]
      ensures old(Consistent()) ==> Consistent()
      ensures State() == old(State())
    {
      orderItems[i].SetQuantity(q);
      assert forall j :: 0 <= j < |orderItems| && j != i ==> orderItems[j].Info() == old(orderItems[j].Info());
    }

    /** Typing a date and picking a month in the view tab. */
    method EnterDay(date: string, month: string)
      modifies this
      ensures State() == old(State()).(dateInput := date, monthInput := month)
    {
      dateInput, monthInput := date, month;
    }

    /** `calculate_total`: the item count and the amount of the lines with a
        positive quantity, shown in the summary labels and returned. */
    method CalculateTotal() returns (totalItems: nat, totalAmount: int)
      modifies this
      ensures Lines() == old(Lines()) && (old(Consistent()) ==> Consistent())
      ensures totalItems == ItemCount(Lines(), |orderItems|) && totalAmount == AmountDue(Lines(), |orderItems|)
      ensures State() == old(State()).(totalItemsLabel := Decimal(totalItems), totalAmountLabel := "$" + Fixed2(totalAmount))
    {
      totalItems, totalAmount := Summarize(Lines());
      ShowTotals(totalItems, totalAmount);
    }

    /** Writing the two summary labels, which no menu line depends on. */
    method ShowTotals(totalItems: nat, totalAmount: int)
      modifies this
      ensures Lines() == old(Lines()) && (old(Consistent()) ==> Consistent())
      ensures State() == old(State()).(totalItemsLabel := Decimal(totalItems), totalAmountLabel := "$" + Fixed2(totalAmount))
    {
      ghost var ls := Lines();
      totalItemsLabel := Decimal(totalItems);
      totalAmountLabel := "$" + Fixed2(totalAmount);
      assert forall i :: 0 <= i < |orderItems| ==> orderItems[i].quantity == old(orderItems[i].quantity) && orderItems[i].totalLabel == old(orderItems[i].totalLabel);
      assert Lines() == ls;
    }

    /** The loop of `save_order` that collects `order_details`. */
    method CollectDetails() returns (details: seq<LineItem>)
      ensures details == Details(Lines(), |orderItems|)
    {
      details := [];
      var i := 0;
      while i < |orderItems|
        invariant 0 <= i <= |orderItems|
        invariant details == Details(Lines(), i)
      {
        var line := orderItems[i].Info();
        if line.quantity > 0 {
          details := details + [line];
        }
        i := i + 1;
      }
    }

    /** `clear_form`: empty inputs, every spinner on "1", and the summary
        labels back to "0" and "$0.00". */
    method ClearForm()
      requires OnMenu() && Distinct()
      modifies this, Spinners()
      ensures Consistent() && Lines() == MenuLines(1)
      ensures State() == old(State()).(customerName := "", phone := "", totalItemsLabel := "0", totalAmountLabel := "$0.00")
    {
      customerName, phone := "", "";
      totalItemsLabel, totalAmountLabel := "0", "$0.00";
      var i := 0;
      while i < |orderItems|
        invariant 0 <= i <= |orderItems|
        invariant forall j :: 0 <= j < i ==> orderItems[j].quantity == 1 && orderItems[j].Valid()
        invariant State() == old(State()).(customerName := "", phone := "", totalItemsLabel := "0", totalAmountLabel := "$0.00")
      {
        PickQuantity(i, 1);
        i := i + 1;
      }
      assert forall j :: 0 <= j < |orderItems| ==> Lines()[j] == MenuLines(1)[j];
    }

    /** `save_order` with `idNumber` the `randint(1000, 9999)` it draws and
        `clock` the `asctime` text it reads. Without a name or a phone number
        nothing happens but the error. Otherwise the totals are calculated;
        with no item counted the order is refused and nothing is saved. Else
        the lines with a positive quantity are saved with the amount due,
        the receipt shows them, and the form is cleared. */
    method SaveOrder(idNumber: int, clock: string) returns (popup: Popup)
      requires OnMenu() && Distinct() && Consistent() && 1000 <= idNumber <= 9999
      modifies this, Spinners(), store
      ensures Consistent()
      ensures old(customerName) == "" || old(phone) == "" ==>
        && popup == Popup("Error", "Please enter customer name and phone number")
        && store.files == old(store.files) && Lines() == old(Lines()) && State() == old(State())
      ensures old(customerName) != "" && old(phone) != "" && ItemCount(old(Lines()), |orderItems|) == 0 ==>
        && popup == Popup("Error", "Please add at least one item to the order")
        && store.files == old(store.files) && Lines() == old(Lines())
        && State() == old(State()).(totalItemsLabel := "0", totalAmountLabel := "$0.00")
      ensures old(customerName) != "" && old(phone) != "" && ItemCount(old(Lines()), |orderItems|) > 0 ==>
        var details, amount := Details(old(Lines()), |orderItems|), AmountDue(old(Lines()), |orderItems|);
        var st, id := ClockStamp(clock), "CUST-" + Decimal(idNumber);
        && store.files == Appended(old(store.files), DayFileName(st.month, st.date),
                                   OrderRecord(old(customerName), id, details, amount, st.time, st.date, st.month))
        && popup == Popup("Order Saved Successfully", ReceiptHead(old(customerName), id, st) + ItemBlock(details) + "\nTotal: $" + Fixed2(amount))
        && Lines() == MenuLines(1)
        && State() == old(State()).(customerName := "", phone := "", totalItemsLabel := "0", totalAmountLabel := "$0.00")
    {
      if customerName == "" || phone == "" {
        return Popup("Error", "Please enter customer name and phone number");
      }
      popup := TotalAndPlace(idNumber, clock);
    }

    /** The part of `save_order` after the check on the name: the totals,
        the check that something was ordered, and the order placed. */
    method TotalAndPlace(idNumber: int, clock: string) returns (popup: Popup)
      requires OnMenu() && Distinct() && Consistent() && 1000 <= idNumber <= 9999
      modifies this, Spinners(), store
      ensures Consistent()
      ensures ItemCount(old(Lines()), |orderItems|) == 0 ==>
        && popup == Popup("Error", "Please add at least one item to the order")
        && store.files == old(store.files) && Lines() == old(Lines())
        && State() == old(State()).(totalItemsLabel := "0", totalAmountLabel := "$0.00")
      ensures ItemCount(old(Lines()), |orderItems|) > 0 ==>
        var details, amount := Details(old(Lines()), |orderItems|), AmountDue(old(Lines()), |orderItems|);
        var st, id := ClockStamp(clock), "CUST-" + Decimal(idNumber);
        && store.files == Appended(old(store.files), DayFileName(st.month, st.date),
                                   OrderRecord(old(customerName), id, details, amount, st.time, st.date, st.month))
        && popup == Popup("Order Saved Successfully", ReceiptHead(old(customerName), id, st) + ItemBlock(details) + "\nTotal: $" + Fixed2(amount))
        && Lines() == MenuLines(1)
        && State() == old(State()).(customerName := "", phone := "", totalItemsLabel := "0", totalAmountLabel := "$0.00")
    {
      ghost var ls := Lines();
      var totalItems, totalAmount := CalculateTotal();
      assert totalItems == ItemCount(ls, |orderItems|) && store.files == old(store.files);
      if totalItems == 0 {
        NothingOrdered(ls, |orderItems|);
        ZeroAmount();
        assert totalAmount == 0;
        return Popup("Error", "Please add at least one item to the order");
      }
      popup := PlaceOrder(idNumber, clock, totalAmount);
    }

    /** The part of `save_order` after the checks: collecting the details,
        saving them with the receipt, and clearing the form. */
    method PlaceOrder(idNumber: int, clock: string, totalAmount: int) returns (popup: Popup)
      requires OnMenu() && Distinct() && 1000 <= idNumber <= 9999
      modifies this, Spinners(), store
      ensures Consistent()
      ensures var details := Details(old(Lines()), |orderItems|);
        var st, id := ClockStamp(clock), "CUST-" + Decimal(idNumber);
        && store.files == Appended(old(store.files), DayFileName(st.month, st.date),
                                   OrderRecord(old(customerName), id, details, totalAmount, st.time, st.date, st.month))
        && popup == Popup("Order Saved Successfully", ReceiptHead(old(customerName), id, st) + ItemBlock(details) + "\nTotal: $" + Fixed2(totalAmount))
        && Lines() == MenuLines(1)
        && State() == old(State()).(customerName := "", phone := "", totalItemsLabel := "0", totalAmountLabel := "$0.00")
    {
      var details := CollectDetails();
      var receipt := Checkout(store, customerName, idNumber, clock, details, totalAmount);
      popup := Popup("Order Saved Successfully", receipt);
      ClearForm();
    }

    /** `display_orders`: the panel is cleared and filled with a box per
        record, stopping at a record that lacks a header field. */
    method DisplayOrders(orders: seq<Record>)
      modifies this
      ensures State() == old(State()).(history := HistoryOf(orders))
    {
      if orders == [] {
        history := NoOrders;
        return;
      }
      var cards: seq<Card> := [];
      var i := 0;
      while i < |orders|
        invariant 0 <= i <= |orders| && |cards| == i
        invariant forall j :: 0 <= j < i ==> HasHeader(orders[j]) && Some(cards[j]) == CardOf(orders[j])
        invariant State() == old(State())
      {
        var card := CardOf(orders[i]);
        if card.None? {
          assert HeaderRun(orders, 0) == i;
          history := Raised(cards);
          assert cards == HistoryOf(orders).cards;
          return;
        }
        cards := cards + [card.value];
        i := i + 1;
      }
      assert HeaderRun(orders, 0) == |orders|;
      history := Cards(cards);
      assert cards == HistoryOf(orders).cards;
    }

    /** `fetch_orders`: without a date or a month the error, otherwise the
        day's records displayed. */
    method FetchOrders() returns (popup: Option<Popup>)
      modifies this
      ensures dateInput == old(dateInput) && monthInput == old(monthInput)
      ensures old(dateInput) == "" || old(monthInput) == "Select Month" ==>
        popup == Some(Popup("Error", "Please select a date and month")) && State() == old(State())
      ensures old(dateInput) != "" && old(monthInput) != "Select Month" ==>
        popup == None && State() == old(State()).(history := HistoryOf(ReadOrdersFromJson(store.files, dateInput, monthInput)))
    {
      if dateInput == "" || monthInput == "Select Month" {
        return Some(Popup("Error", "Please select a date and month"));
      }
      var data := ReadOrdersFromJson(store.files, dateInput, monthInput);
      DisplayOrders(data);
      popup := None;
    }

    /** `show_order_details` for the record of a box: the details popup, or
        `None` when a header field is missing and the handler raises. */
    method ShowOrderDetails(order: Record) returns (popup: Option<Popup>)
      ensures popup.Some? <==> HasHeader(order)
      ensures popup.Some? ==> popup.value == Popup("Order Details", DetailsText(order).value)
    {
      if !HasHeader(order) {
        return None;
      }
      var text := "Customer: " + Str(order["Customer_name"]) + "\n" + "Order ID: " + Str(order["Customer_id"]) + "\n"
        + "Date: " + Str(Get(order, "Date", Text("Unknown"))) + "\n" + "Time: " + Str(order["Time"]) + "\n\n";
      if HasItemList(order) {
        var block := AppendItemLines(LineTexts(order["Order_items"].lines));
        text := text + ("Items Ordered:\n" + block);
      } else {
        text := text + ("Order: " + Str(Get(order, "Order", Text("Unknown"))) + "\n");
      }
      text := text + "\nTotal: $" + BillShown(order);
      popup := Some(Popup("Order Details", text));
    }
  }
}
