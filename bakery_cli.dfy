/** The command-line bakery: `order` saves one order to the day file,
    `print` and `pdf` read a day's orders back, and `clear` clears the
    screen. The parsed argument record, the text `time.asctime` returned
    and the random customer id are parameters; what pandas, FPDF and the
    console do with the orders is not modelled. */
module BakeryCli {
  import opened Wrappers
  import opened PyText
  import opened Ledger

  // ---------------------------------------------------------------------------
  // The clock

  /** The three values `order_process` takes from the clock text. */
  datatype Stamp = Stamp(time: string, date: string, month: string)

  /** The slicing of `order_process`: the time, the date, which is stripped
      only when it holds a space, and the month. */
  function ClockStamp(s: string): Stamp {
    var testDate := Slice(s, 8, 10);
    Stamp(Slice(s, 11, 19), if ' ' in testDate then Strip(testDate) else testDate, Slice(s, 4, 7))
  }

  /** On a real `asctime` text the slices pick out the time of day, the day
      without its padding and the month's name. */
  lemma ClockStampOfAscTime(t: LocalTime)
    requires ValidLocalTime(t)
    ensures ClockStamp(AscTime(t)) == Stamp(ClockField(t), Decimal(t.day), MonthNames[t.month - 1])
  {
    var s := AscTime(t);
    assert Slice(s, 8, 10) == DayField(t.day);
    assert Slice(s, 4, 7) == MonthNames[t.month - 1];
    assert Slice(s, 11, 19) == ClockField(t);
    DayFieldStrip(t.day);
  }

  // ---------------------------------------------------------------------------
  // The day file

  /** The record `save_order_to_json` writes: five fields and no date. */
  function OrderRecord(name: string, id: int, order: string, bill: string, time: string): (r: Record)
    ensures r.Keys == {"Customer_name", "Customer_id", "Order", "Bill", "Time"}
    ensures "Date" !in r
    ensures r["Order"] == Text(order) && r["Bill"] == Text(bill)
  {
    map["Customer_name" := Text(name), "Customer_id" := Whole(id), "Order" := Text(order),
        "Bill" := Text(bill), "Time" := Text(time)]
  }

  /** How a step ended: normally, or with `json.load` raising on a day file
      that does not decode, which nothing catches. */
  datatype Outcome = Done | DecodeError

  /** A day file exists and does not decode. */
  predicate Corrupt(files: map<string, FileContent>, name: string) {
    name in files && files[name].Undecodable?
  }

  /** What `save_order_to_json` does to the store: a corrupt day file stops
      it before anything is written; otherwise the day's records, none if
      the file is missing, are written back with the new record at the end. */
  function SaveEffect(files: map<string, FileContent>, name: string, r: Record): (o: (Outcome, map<string, FileContent>)) {
    if Corrupt(files, name) then (DecodeError, files) else (Done, Appended(files, name, r))
  }

  /** `save_order_to_json`. */
  method SaveOrderToJson(store: Store, name: string, id: int, order: string, bill: string,
                         time: string, date: string, month: string) returns (outcome: Outcome)
    modifies store
    ensures (outcome, store.files) == SaveEffect(old(store.files), DayFileName(month, date), OrderRecord(name, id, order, bill, time))
  {
    var filename := DayFileName(month, date);
    var data: seq<Record> := [];
    if filename in store.files {
      match store.files[filename] {
        case Orders(rs) => data := rs;
        case Undecodable => return DecodeError;
      }
    }
    data := data + [OrderRecord(name, id, order, bill, time)];
    store.Write(filename, data);
    outcome := Done;
  }

  /** `read_orders_from_json`: the day's records, none when the file is
      missing, and `None` when the file does not decode and `json.load`
      raises. */
  function ReadOrdersFromJson(files: map<string, FileContent>, date: string, month: string): (r: Option<seq<Record>>)
    ensures var name := DayFileName(month, date);
      && (name !in files ==> r == Some([]))
      && (name in files && files[name].Orders? ==> r == Some(files[name].records))
      && (Corrupt(files, name) <==> r.None?)
  {
    var name := DayFileName(month, date);
    if name !in files then Some([])
    else match files[name]
      case Orders(rs) => Some(rs)
      case Undecodable => None
  }

  /** A save is seen by the next read of that day: unless the file was
      corrupt, the read gives what it gave before plus the new record. A
      corrupt file makes both the save and the read raise, and the save
      changes nothing. */
  lemma SaveThenRead(files: map<string, FileContent>, r: Record, date: string, month: string)
    ensures var (o, after) := SaveEffect(files, DayFileName(month, date), r);
      && (o == Done <==> ReadOrdersFromJson(files, date, month).Some?)
      && (o == Done ==> ReadOrdersFromJson(after, date, month) == Some(ReadOrdersFromJson(files, date, month).value + [r]))
      && (o == DecodeError ==> after == files)
  {
  }

  // ---------------------------------------------------------------------------
  // order_process

  /** The arguments of the `order` subcommand; `--bill` was read as a float,
      here a whole number of cents. */
  datatype OrderArgs = OrderArgs(customer: string, order: string, billCents: int)

  /** What `order_process` ends with. */
  datatype OrderResult = Rejected | Saved | SaveRaised

  /** What `order_process` does, given the clock text and the customer id:
      an empty name or order text is rejected and nothing is saved;
      otherwise the record is saved as `save_order_to_json` saves it. */
  function OrderEffect(files: map<string, FileContent>, args: OrderArgs, clock: string, customerId: int): (OrderResult, map<string, FileContent>) {
    var bill := FloatRepr(args.billCents);
    var st := ClockStamp(clock);
    if |args.customer| == 0 || |args.order| == 0 || |bill| == 0 then (Rejected, files)
    else
      var (o, after) := SaveEffect(files, DayFileName(st.month, st.date), OrderRecord(args.customer, customerId, args.order, bill, st.time));
      (if o == Done then Saved else SaveRaised, after)
  }

  /** `order_process` with `customerId` the `randint(1000000000, 3999999999)`
      it draws and `clock` the `asctime` text it reads. */
  method OrderProcess(store: Store, args: OrderArgs, clock: string, customerId: int) returns (result: OrderResult)
    requires 1000000000 <= customerId <= 3999999999
    modifies store
    ensures (result, store.files) == OrderEffect(old(store.files), args, clock, customerId)
  {
    var bill := FloatRepr(args.billCents);
    var st := ClockStamp(clock);
    if |args.customer| == 0 || |args.order| == 0 || |bill| == 0 {
      return Rejected;
    }
    var o := SaveOrderToJson(store, args.customer, customerId, args.order, bill, st.time, st.date, st.month);
    result := if o == Done then Saved else SaveRaised;
  }

  /** The check on the bill never fires, because `str` of a float is never
      empty: an order is rejected exactly when its name or its text is
      empty, and a rejected order changes no file. */
  lemma RejectedIff(files: map<string, FileContent>, args: OrderArgs, clock: string, customerId: int)
    ensures var (result, after) := OrderEffect(files, args, clock, customerId);
      && (result == Rejected <==> args.customer == "" || args.order == "")
      && (result == Rejected ==> after == files)
  {
  }

  /** A saved order lands at the end of the day's list, as a record of the
      five fields holding the name, the id, the order text, the bill as
      `str` prints it and the time; the earlier records stay as they were. */
  lemma SavedOrderAppends(files: map<string, FileContent>, args: OrderArgs, clock: string, customerId: int)
    ensures var (result, after) := OrderEffect(files, args, clock, customerId);
      var st := ClockStamp(clock);
      var before := ReadOrdersFromJson(files, st.date, st.month);
      result == Saved ==>
        && before.Some?
        && ReadOrdersFromJson(after, st.date, st.month)
           == Some(before.value + [OrderRecord(args.customer, customerId, args.order, FloatRepr(args.billCents), st.time)])
  {
    var st := ClockStamp(clock);
    var r := OrderRecord(args.customer, customerId, args.order, FloatRepr(args.billCents), st.time);
    SaveThenRead(files, r, st.date, st.month);
  }

  // ---------------------------------------------------------------------------
  // main

  /** The subcommand argparse parsed, with its arguments. */
  datatype Command =
    | NoCommand
    | Order(args: OrderArgs)
    | Print(date: string, month: string)
    | Pdf(date: string, month: string)
    | Clear

  /** What a run of `main` did. */
  datatype Run =
    | ShowedHelp                                     // `parser.print_help()`
    | Ordered(result: OrderResult)                   // `order_process`
    | Printed(orders: Option<seq<Record>>)           // `print_orders`, handing the day's orders to pandas
    | Reported(orders: Option<seq<Record>>)          // `generate_pdf`, handing them to FPDF
    | ClearedScreen                                  // `clear_screen`

  /** `main`: help and nothing else without a subcommand, otherwise exactly
      the function the subcommand was bound to. */
  method RunCommand(store: Store, cmd: Command, clock: string, customerId: int) returns (run: Run)
    requires 1000000000 <= customerId <= 3999999999
    modifies store
    ensures cmd.NoCommand? ==> run == ShowedHelp && store.files == old(store.files)
    ensures cmd.Order? ==> run.Ordered? && (run.result, store.files) == OrderEffect(old(store.files), cmd.args, clock, customerId)
    ensures cmd.Print? ==> run == Printed(ReadOrdersFromJson(old(store.files), cmd.date, cmd.month)) && store.files == old(store.files)
    ensures cmd.Pdf? ==> run == Reported(ReadOrdersFromJson(old(store.files), cmd.date, cmd.month)) && store.files == old(store.files)
    ensures cmd.Clear? ==> run == ClearedScreen && store.files == old(store.files)
  {
    match cmd {
      case NoCommand => run := ShowedHelp;
      case Order(args) =>
        var result := OrderProcess(store, args, clock, customerId);
        run := Ordered(result);
      case Print(date, month) => run := Printed(ReadOrdersFromJson(store.files, date, month));
      case Pdf(date, month) => run := Reported(ReadOrdersFromJson(store.files, date, month));
      case Clear => run := ClearedScreen;
    }
  }
}
