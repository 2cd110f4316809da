/** What the two bakery programs share: the JSON values an order record
    holds, the day files the records are kept in, the text `time.asctime`
    returns, and Python's two ways of printing an amount of money. Amounts
    are whole cents: every price on the menu is a multiple of a quarter, so
    the programs' float arithmetic on them is exact. */
module Ledger {
  import opened Wrappers
  import opened PyText

  // ---------------------------------------------------------------------------
  // Printing money

  /** `f"{x:.2f}"` for a non-negative amount of `cents`. */
  function Money2(cents: nat): (r: string)
    ensures |r| >= 4 && r[|r| - 3] == '.'
  {
    Decimal(cents / 100) + "." + Pad2(cents % 100)
  }

  /** `f"{x:.2f}"` for any amount of `cents`. */
  function Fixed2(cents: int): (r: string)
    ensures |r| >= 4
    ensures r[0] == '-' <==> cents < 0
    ensures cents >= 0 ==> r == Money2(cents)
    ensures cents < 0 ==> r[1..] == Money2(-cents)
  {
    if cents < 0 then "-" + Money2(-cents) else Money2(cents)
  }

  /** The digits `str(x)` prints after the point for a fraction of `c`
      hundredths: trailing zeros dropped, but at least one digit. */
  function Fraction(c: nat): (r: string)
    requires c < 100
    ensures 1 <= |r| <= 2
    ensures r[0] == DigitChar(c / 10)
    ensures |r| == 1 <==> c % 10 == 0
    ensures |r| == 2 ==> r[1] == DigitChar(c % 10)
  {
    if c % 10 == 0 then [DigitChar(c / 10)] else [DigitChar(c / 10), DigitChar(c % 10)]
  }

  /** `str(x)` for a float `x` holding a whole number of `cents`: the
      shortest decimal that reads back as `x`. */
  function FloatRepr(cents: int): (r: string)
    ensures |r| >= 3
    ensures r[0] == '-' <==> cents < 0
  {
    if cents < 0 then "-" + Unsigned(-cents) else Unsigned(cents)
  }

  /** `str(x)` for a non-negative `x`. */
  function Unsigned(m: nat): (r: string)
    ensures |r| >= 3 && r[0] != '-'
  {
    Decimal(m / 100) + "." + Fraction(m % 100)
  }

  /** Two digits for a number below a hundred. */
  lemma Pad2Digits(n: nat)
    requires n < 100
    ensures Pad2(n) == [DigitChar(n / 10), DigitChar(n % 10)]
  {
    if n >= 10 {
      assert Decimal(n / 10) == [DigitChar(n / 10)];
    }
  }

  /** `:.2f` prints different amounts differently. */
  lemma Money2Injective(a: nat, b: nat)
    ensures Money2(a) == Money2(b) <==> a == b
  {
    if Money2(a) == Money2(b) {
      var x, y := Money2(a), Money2(b);
      Pad2Digits(a % 100);
      Pad2Digits(b % 100);
      var da, db := Decimal(a / 100), Decimal(b / 100);
      assert x == da + "." + Pad2(a % 100);
      assert y == db + "." + Pad2(b % 100);
      assert |da| == |db|;
      assert x[..|da|] == da && y[..|db|] == db;
      DecimalInjective(a / 100, b / 100);
      assert x[|x| - 2] == DigitChar(a % 100 / 10) && x[|x| - 1] == DigitChar(a % 100 % 10);
      assert y[|y| - 2] == DigitChar(b % 100 / 10) && y[|y| - 1] == DigitChar(b % 100 % 10);
    }
  }

  /** The two digits `:.2f` prints after the point are the tens and the
      units of the cents. */
  lemma Money2Cents(cents: nat)
    ensures var r := Money2(cents);
      && r[|r| - 2] == DigitChar(cents % 100 / 10)
      && r[|r| - 1] == DigitChar(cents % 10)
  {
    var c := cents % 100;
    var q, p := Decimal(cents / 100) + ".", Pad2(c);
    Pad2Digits(c);
    UnitsOfCents(cents);
    assert Money2(cents) == q + p;
    assert (q + p)[|q| + 1] == p[1];
  }

  /** The units of the cents are the units of the amount. */
  lemma UnitsOfCents(cents: nat)
    ensures cents % 100 % 10 == cents % 10
  {
    var dollars, rest := cents / 100, cents % 100;
    var tens, units := rest / 10, rest % 10;
    assert cents == 100 * dollars + rest;
    assert rest == 10 * tens + units;
    LastDigit(cents, 10 * dollars + tens, units);
  }

  /** The last decimal digit of `10 * q + u` is `u`. */
  lemma LastDigit(x: nat, q: nat, u: nat)
    requires x == 10 * q + u && u < 10
    ensures x % 10 == u
  {
  }

  /** The digits `:.2f` prints before the point read back as the whole
      dollars of the amount. */
  lemma Money2Dollars(cents: nat)
    ensures var r := Money2(cents);
      ParseInt(r[..|r| - 3], 10) == Some(cents / 100)
  {
    Money2Head(cents);
    NaturalRoundTrip(cents / 100);
  }

  /** The text `:.2f` prints before the point is `str` of the whole dollars. */
  lemma Money2Head(cents: nat)
    ensures var r := Money2(cents); r[..|r| - 3] == Decimal(cents / 100)
  {
    var d, p := Decimal(cents / 100), Pad2(cents % 100);
    assert |p| == 2;
    var r := d + "." + p;
    assert r[..|d|] == d;
  }

  /** `str` and `:.2f` print a non-negative amount alike, except that `str`
      drops a trailing zero of the cents. */
  lemma FloatReprMoney2(cents: nat)
    ensures cents % 10 != 0 ==> Unsigned(cents) == Money2(cents)
    ensures cents % 10 == 0 ==> Unsigned(cents) + "0" == Money2(cents)
  {
    var d, c := Decimal(cents / 100), cents % 100;
    Pad2Digits(c);
    UnitsOfCents(cents);
    assert Money2(cents) == d + "." + [DigitChar(c / 10), DigitChar(c % 10)];
    if c % 10 == 0 {
      assert (d + "." + Fraction(c)) + "0" == d + "." + [DigitChar(c / 10), DigitChar(0)];
    }
  }

  /** `str` and `:.2f` print any amount of cents alike, except that `str`
      drops a trailing zero of the cents. */
  lemma FloatReprFixed2(cents: int)
    ensures var m := if cents < 0 then -cents else cents;
      && (m % 10 != 0 ==> FloatRepr(cents) == Fixed2(cents))
      && (m % 10 == 0 ==> FloatRepr(cents) + "0" == Fixed2(cents))
  {
    var m := if cents < 0 then -cents else cents;
    FloatReprMoney2(m);
    if cents < 0 {
      assert FloatRepr(cents) + "0" == "-" + (Unsigned(m) + "0");
    }
  }

  /** The zero amount prints as "0", "0.00" and "$0.00": the summary labels of an empty form. */
  lemma ZeroAmount()
    ensures Decimal(0) == "0" && Money2(0) == "0.00" && Fixed2(0) == "0.00"
    ensures "$" + Fixed2(0) == "$0.00"
  {
    assert Decimal(0) == [DigitChar(0)];
  }

  /** A whole-dollar amount: `:.2f` prints two zeros after the point where
      `str` prints one, so the receipt and the order history show the same
      bill differently. */
  lemma WholeDollars(cents: nat)
    requires cents % 100 == 0
    ensures Money2(cents) == Decimal(cents / 100) + ".00"
    ensures FloatRepr(cents) == Decimal(cents / 100) + ".0"
  {
  }

  // ---------------------------------------------------------------------------
  // Records

  /** One entry of `order_details`: the dictionary `get_item_info` returns,
      with the price and the line total in cents. */
  datatype LineItem = LineItem(item: string, quantity: int, price: int, total: int)

  /** The values the records hold, as `json.load` gives them back. */
  datatype Value =
    | Text(s: string)
    | Whole(n: int)
    | Amount(cents: int)
    | Items(lines: seq<LineItem>)

  /** One order, as a JSON object. */
  type Record = map<string, Value>

  /** `dict.get(key, default)`. */
  function Get(r: Record, key: string, default: Value): (v: Value)
    ensures key in r ==> v == r[key]
    ensures key !in r ==> v == default
  {
    if key in r then r[key] else default
  }

  /** `repr` of a line item's dictionary. */
  function LineRepr(l: LineItem): string {
    "{'item': '" + l.item + "', 'quantity': " + IntToString(l.quantity)
    + ", 'price': " + FloatRepr(l.price) + ", 'total': " + FloatRepr(l.total) + "}"
  }

  /** `str(v)`, as an f-string or `str()` prints a value of a record. */
  function Str(v: Value): string {
    match v
    case Text(s) => s
    case Whole(n) => IntToString(n)
    case Amount(c) => FloatRepr(c)
    case Items(lines) => "[" + Join(seq(|lines|, i requires 0 <= i < |lines| => LineRepr(lines[i])), ", ") + "]"
  }

  // ---------------------------------------------------------------------------
  // Day files

  /** `f"BakeryShop{month}{date}.json"`: the file that holds one day's orders. */
  function DayFileName(month: string, date: string): (r: string)
    ensures |r| == |month| + |date| + 15
  {
    "BakeryShop" + month + date + ".json"
  }

  /** Months of one length (the three-letter names both programs use) make
      the name unique to the day: the month and the date can be read back. */
  lemma DayFileNameInjective(m1: string, d1: string, m2: string, d2: string)
    requires |m1| == |m2|
    ensures DayFileName(m1, d1) == DayFileName(m2, d2) <==> m1 == m2 && d1 == d2
  {
    if DayFileName(m1, d1) == DayFileName(m2, d2) {
      var a, b := DayFileName(m1, d1), DayFileName(m2, d2);
      assert a[10..10 + |m1|] == m1 && b[10..10 + |m2|] == m2;
      assert a[10 + |m1|..|a| - 5] == d1 && b[10 + |m2|..|b| - 5] == d2;
    }
  }

  /** What a day file holds: the list of records it decodes to, or text
      that `json.load` rejects. A name missing from the store is a file
      that does not exist. */
  datatype FileContent = Orders(records: seq<Record>) | Undecodable

  /** The working directory, as the programs see it through `open`,
      `os.path.exists`, `json.load` and `json.dump`. */
  class Store {
    var files: map<string, FileContent>

    constructor(files: map<string, FileContent>)
      ensures this.files == files
    {
      this.files := files;
    }

    /** `json.dump(data, file)` after `open(name, 'w')`: the file now holds
        `records`, and no other file changes. */
    method Write(name: string, records: seq<Record>)
      modifies this
      ensures files == old(files)[name := Orders(records)]
    {
      files := files[name := Orders(records)];
    }
  }

  /** The records a day file holds, where a missing or undecodable file
      counts as no records. */
  function Existing(files: map<string, FileContent>, name: string): (rs: seq<Record>)
    ensures name !in files ==> rs == []
    ensures name in files && files[name].Undecodable? ==> rs == []
    ensures name in files && files[name].Orders? ==> rs == files[name].records
  {
    if name in files && files[name].Orders? then files[name].records else []
  }

  /** The store after the records of `name`, with `r` added at the end,
      were written back to it. */
  function Appended(files: map<string, FileContent>, name: string, r: Record): map<string, FileContent> {
    files[name := Orders(Existing(files, name) + [r])]
  }

  /** Appending keeps a ledger: the file gains exactly one record, at its
      end, the earlier records are untouched, and no other file changes. */
  lemma AppendedKeepsEarlier(files: map<string, FileContent>, name: string, r: Record, other: string)
    requires other != name
    ensures var after := Existing(Appended(files, name, r), name);
      && |after| == |Existing(files, name)| + 1
      && after[..|after| - 1] == Existing(files, name)
      && after[|after| - 1] == r
    ensures other in Appended(files, name, r) <==> other in files
    ensures other in files ==> Appended(files, name, r)[other] == files[other]
  {
    var after := Existing(Appended(files, name, r), name);
    assert after == Existing(files, name) + [r];
  }

  // ---------------------------------------------------------------------------
  // time.asctime

  /** `time.localtime()` broken down into the fields `asctime` prints;
      `weekday` counts from Monday and `month` from 1. */
  datatype LocalTime = LocalTime(weekday: nat, month: nat, day: nat, hour: nat, minute: nat, second: nat, year: nat)

  /** The ranges `time.localtime` gives, for four-digit years. */
  predicate ValidLocalTime(t: LocalTime) {
    && t.weekday < 7 && 1 <= t.month <= 12 && 1 <= t.day <= 31
    && t.hour < 24 && t.minute < 60 && t.second < 60 && 1000 <= t.year <= 9999
  }

  const WeekdayNames: seq<string> := ["Mon", "Tue", "Wed", "Thu", "Fri", "Sat", "Sun"]
  const MonthNames: seq<string> := ["Jan", "Feb", "Mar", "Apr", "May", "Jun", "Jul", "Aug", "Sep", "Oct", "Nov", "Dec"]

  /** The day of the month as `%2d` prints it: a space before a single digit. */
  function DayField(day: nat): (r: string)
    requires 1 <= day <= 31
    ensures |r| == 2
  {
    if day < 10 then " " + Decimal(day) else Decimal(day)
  }

  /** The day field with its padding stripped is the day's number. */
  lemma DayFieldStrip(day: nat)
    requires 1 <= day <= 31
    ensures Strip(DayField(day)) == Decimal(day)
    ensures ' ' in DayField(day) <==> day < 10
  {
    var f := DayField(day);
    if day < 10 {
      assert f == [' ', DigitChar(day)];
      assert SpaceRunEnd(f, 0) == 1;
      assert SpaceRunStart(f, 1, 2) == 2;
    } else {
      StripUnchanged(f);
    }
  }

  /** `HH:MM:SS`. */
  function ClockField(t: LocalTime): (r: string)
    requires ValidLocalTime(t)
    ensures |r| == 8
  {
    Pad2(t.hour) + ":" + Pad2(t.minute) + ":" + Pad2(t.second)
  }

  /** `time.asctime(t)`, such as "Sun Jun  2 14:03:09 2024": the weekday
      at 0, the month at 4, the day at 8, the time at 11 and the year at 20. */
  function AscTime(t: LocalTime): (s: string)
    requires ValidLocalTime(t)
    ensures |s| == 24
    ensures s[4..7] == MonthNames[t.month - 1]
    ensures s[8..10] == DayField(t.day)
    ensures s[11..19] == ClockField(t)
    ensures s[20..24] == Decimal(t.year)
  {
    NameLengths();
    var w, m, d, c, y := WeekdayNames[t.weekday], MonthNames[t.month - 1], DayField(t.day), ClockField(t), Decimal(t.year);
    var withMonth := w + " " + m;
    var withDay := withMonth + " " + d;
    var withClock := withDay + " " + c;
    var s := withClock + " " + y;
    assert s[4..7] == m by { assert forall i :: 0 <= i < 3 ==> s[4 + i] == m[i]; }
    assert s[8..10] == d by { assert forall i :: 0 <= i < 2 ==> s[8 + i] == d[i]; }
    assert s[11..19] == c by { assert forall i :: 0 <= i < 8 ==> s[11 + i] == c[i]; }
    assert s[20..24] == y by { assert forall i :: 0 <= i < 4 ==> s[20 + i] == y[i]; }
    s
  }

  /** Every weekday and month name is three letters long. */
  lemma NameLengths()
    ensures forall i :: 0 <= i < |WeekdayNames| ==> |WeekdayNames[i]| == 3
    ensures forall i :: 0 <= i < |MonthNames| ==> |MonthNames[i]| == 3
  {
  }
}
