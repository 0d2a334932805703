/** The monthly invoice aggregator of src/lib/invoice.ts: a client's time entries for
    one calendar month priced item by item, the billing model's base, GST, and TDS
    decided by an annualised year-to-date threshold test. */
module Invoice {
  import opened Common

  datatype BillingModel = Hourly | Monthly | Project

  /** The fields of a stored client that the aggregator reads. */
  datatype StoredClient = StoredClient(
    id: string,
    name: string,
    billingModel: BillingModel,
    amount: real,          // the monthly fee, or the fixed project price
    domestic: bool,
    tdsDeducts: bool)

  datatype TimeEntry = TimeEntry(
    id: string,
    clientId: string,
    description: string,
    date: string,          // "YYYY-MM-DD"
    hours: real,
    rate: real)

  datatype Item = Item(description: string, hours: real, rate: real, amount: real)

  datatype AggregatedInvoice = AggregatedInvoice(
    clientId: string,
    clientName: string,
    month: int,
    year: int,
    items: seq<Item>,
    subtotal: real,
    gst: real,
    tds: real,
    total: real)

  const GstRate: real := 0.18
  const TdsRate: real := 0.1
  const TdsThreshold: real := 30000.0

  // ---------------------------------------------------------------- dates

  datatype MonthYear = MonthYear(month: int, year: int)

  predicate IsLeapYear(year: int)
  {
    (year % 4 == 0 && year % 100 != 0) || year % 400 == 0
  }

  function DaysInMonth(month: int, year: int): int
    requires 1 <= month <= 12
  {
    if month == 2 then (if IsLeapYear(year) then 29 else 28)
    else if month == 4 || month == 6 || month == 9 || month == 11 then 30
    else 31
  }

  predicate DateShaped(date: string)
  {
    |date| == 10 && date[4] == '-' && date[7] == '-' &&
    AllDigits(date[..4]) && AllDigits(date[5..7]) && AllDigits(date[8..])
  }

  /** `monthFromDate`: the calendar month and year of a "YYYY-MM-DD" string read as local
      midnight. A string that is not a valid date gives JavaScript's Invalid Date, whose
      month and year are NaN and equal nothing: here `None`. */
  function MonthFromDate(date: string): (r: Option<MonthYear>)
    ensures r.Some? ==> DateShaped(date) && 1 <= r.value.month <= 12 && 0 <= r.value.year <= 9999
  {
    if !DateShaped(date) then None
    else
      var year := DecimalValue(date[..4]);
      var month := DecimalValue(date[5..7]);
      var day := DecimalValue(date[8..]);
      assert year <= 9999 by { DecimalBound(date[..4]); }
      if 1 <= month <= 12 && 1 <= day <= DaysInMonth(month, year) then Some(MonthYear(month, year)) else None
  }

  lemma {:induction false} DecimalBound(s: string)
    requires AllDigits(s)
    ensures DecimalValue(s) < Pow10(|s|)
    decreases |s|
  {
    if s != [] {
      DecimalBound(s[..|s| - 1]);
    }
  }

  /** A date written the way the time-entry form stores it. */
  function FormatDate(year: nat, month: nat, day: nat): string
  {
    PadDecimal(year, 4) + "-" + PadDecimal(month, 2) + "-" + PadDecimal(day, 2)
  }

  /** Reading back the month and year of a well-formed date gives what was written. */
  lemma MonthFromFormattedDate(year: nat, month: nat, day: nat)
    requires year <= 9999 && 1 <= month <= 12 && 1 <= day <= DaysInMonth(month, year)
    ensures MonthFromDate(FormatDate(year, month, day)) == Some(MonthYear(month, year))
  {
    assert Pow10(2) == 100 && Pow10(4) == 10000 by {
      assert Pow10(1) == 10;
      assert Pow10(3) == 1000;
    }
    PadDecimalExact(year, 4);
    PadDecimalExact(month, 2);
    PadDecimalExact(day, 2);
    var d := FormatDate(year, month, day);
    assert d[..4] == PadDecimal(year, 4);
    assert d[5..7] == PadDecimal(month, 2);
    assert d[8..] == PadDecimal(day, 2);
  }

  /** A string that yields a month is a well-formed date of that month: it is the padded
      year, month and a day that month has. */
  lemma MonthFromDateIsFormattedDate(date: string)
    requires MonthFromDate(date).Some?
    ensures var my := MonthFromDate(date).value;
            exists day :: 1 <= day <= DaysInMonth(my.month, my.year) && date == FormatDate(my.year, my.month, day)
  {
    var year, month, day := DecimalValue(date[..4]), DecimalValue(date[5..7]), DecimalValue(date[8..]);
    DecimalBound(date[..4]);
    DecimalBound(date[5..7]);
    DecimalBound(date[8..]);
    assert Pow10(2) == 100 && Pow10(4) == 10000 by {
      assert Pow10(1) == 10;
      assert Pow10(3) == 1000;
    }
    PadDecimalExact(year, 4);
    PadDecimalExact(month, 2);
    PadDecimalExact(day, 2);
    DecimalInjective(date[..4], PadDecimal(year, 4));
    DecimalInjective(date[5..7], PadDecimal(month, 2));
    DecimalInjective(date[8..], PadDecimal(day, 2));
    assert date == date[..4] + "-" + date[5..7] + "-" + date[8..];
    assert date == FormatDate(year, month, day);
  }

  /** A well-shaped string naming a month outside 1..12 or a day the month does not have
      yields nothing, so it matches no month. */
  lemma ImpossibleDateMatchesNoMonth(year: nat, month: nat, day: nat)
    requires year <= 9999 && month <= 99 && day <= 99
    requires !(1 <= month <= 12 && 1 <= day <= DaysInMonth(month, year))
    ensures MonthFromDate(FormatDate(year, month, day)) == None
  {
    assert Pow10(2) == 100 && Pow10(4) == 10000 by {
      assert Pow10(1) == 10;
      assert Pow10(3) == 1000;
    }
    PadDecimalExact(year, 4);
    PadDecimalExact(month, 2);
    PadDecimalExact(day, 2);
    var d := FormatDate(year, month, day);
    assert d[..4] == PadDecimal(year, 4);
    assert d[5..7] == PadDecimal(month, 2);
    assert d[8..] == PadDecimal(day, 2);
  }

  // ---------------------------------------------------------------- filters

  function OfClient(id: string): TimeEntry -> bool
  {
    (e: TimeEntry) => e.clientId == id
  }

  predicate InMonth(e: TimeEntry, month: int, year: int)
  {
    MonthFromDate(e.date) == Some(MonthYear(month, year))
  }

  function DatedIn(month: int, year: int): TimeEntry -> bool
  {
    (e: TimeEntry) => InMonth(e, month, year)
  }

  /** The year-to-date test: same year, month no later than the target. */
  predicate UpToMonth(e: TimeEntry, month: int, year: int)
  {
    var my := MonthFromDate(e.date);
    my.Some? && my.value.year == year && my.value.month <= month
  }

  function DatedUpTo(month: int, year: int): TimeEntry -> bool
  {
    (e: TimeEntry) => UpToMonth(e, month, year)
  }

  /** The client's entries in the target month, in input order. */
  function Relevant(client: StoredClient, entries: seq<TimeEntry>, month: int, year: int): seq<TimeEntry>
  {
    Filter(Filter(entries, OfClient(client.id)), DatedIn(month, year))
  }

  /** `Math.round(hours * rate)`: a line priced and rounded on its own. */
  function Priced(hours: real, rate: real): real
  {
    Round(hours * rate)
  }

  function EntryAmount(e: TimeEntry): real
  {
    Priced(e.hours, e.rate)
  }

  function ItemOf(e: TimeEntry): (it: Item)
    ensures it.amount == Priced(it.hours, it.rate)
  {
    Item(e.description, e.hours, e.rate, EntryAmount(e))
  }

  function ItemAmount(i: Item): real { i.amount }

  function Items(es: seq<TimeEntry>): seq<Item>
  {
    seq(|es|, i requires 0 <= i < |es| => ItemOf(es[i]))
  }

  /** The client's rounded receipts from January of the target year through the target month. */
  function YearToDate(client: StoredClient, entries: seq<TimeEntry>, month: int, year: int): real
  {
    SumOf(Filter(Filter(entries, DatedUpTo(month, year)), OfClient(client.id)), EntryAmount)
  }

  /** The figure compared with the TDS threshold: a monthly fee projected over twelve
      months, otherwise the year-to-date receipts. */
  function Annualized(client: StoredClient, entries: seq<TimeEntry>, month: int, year: int): real
  {
    if client.billingModel == Monthly then client.amount * 12.0 else YearToDate(client, entries, month, year)
  }

  // ---------------------------------------------------------------- aggregation

  /** `aggregateMonthlyInvoice`. */
  function AggregateMonthlyInvoice(
    client: StoredClient, entries: seq<TimeEntry>, gstRegistered: bool, targetMonth: int, targetYear: int)
    : (inv: AggregatedInvoice)
    ensures inv.clientId == client.id && inv.clientName == client.name
    ensures inv.month == targetMonth && inv.year == targetYear
    ensures forall i :: 0 <= i < |inv.items| ==>
      inv.items[i].amount == Priced(inv.items[i].hours, inv.items[i].rate)
    ensures inv.subtotal == if client.billingModel == Hourly then SumOf(inv.items, ItemAmount) else client.amount
    ensures inv.gst == if client.domestic && gstRegistered then Round(inv.subtotal * GstRate) else 0.0
    ensures inv.tds ==
      if client.tdsDeducts && Annualized(client, entries, targetMonth, targetYear) > TdsThreshold
      then Round(inv.subtotal * TdsRate) else 0.0
    ensures inv.total == inv.subtotal + inv.gst - inv.tds
  {
    var relevant := Relevant(client, entries, targetMonth, targetYear);
    var items := Items(relevant);
    var subtotalFromTime := SumOf(items, ItemAmount);
    var base :=
      if client.billingModel == Monthly then client.amount
      else if client.billingModel == Project then client.amount
      else subtotalFromTime;
    var gst := if client.domestic && gstRegistered then Round(base * GstRate) else 0.0;
    var annualized := Annualized(client, entries, targetMonth, targetYear);
    var tds := if client.tdsDeducts && annualized > TdsThreshold then Round(base * TdsRate) else 0.0;
    AggregatedInvoice(client.id, client.name, targetMonth, targetYear, items, base, gst, tds, base + gst - tds)
  }

  /** The items are exactly the client's entries dated in the target month, in input order. */
  lemma ItemsAreTheMonthsEntries(
    client: StoredClient, entries: seq<TimeEntry>, gstRegistered: bool, month: int, year: int, e: TimeEntry)
    ensures ItemOf(e) in AggregateMonthlyInvoice(client, entries, gstRegistered, month, year).items
      <== e in entries && e.clientId == client.id && InMonth(e, month, year)
    ensures forall it :: it in AggregateMonthlyInvoice(client, entries, gstRegistered, month, year).items ==>
      exists x :: x in entries && x.clientId == client.id && InMonth(x, month, year) && it == ItemOf(x)
  {
    var relevant := Relevant(client, entries, month, year);
    FilterMembers(entries, OfClient(client.id));
    FilterMembers(Filter(entries, OfClient(client.id)), DatedIn(month, year));
    assert forall x :: x in relevant <==> x in entries && x.clientId == client.id && InMonth(x, month, year);
    var items := Items(relevant);
    if e in relevant {
      var k :| 0 <= k < |relevant| && relevant[k] == e;
      assert items[k] == ItemOf(e);
    }
    forall it | it in items
      ensures exists x :: x in entries && x.clientId == client.id && InMonth(x, month, year) && it == ItemOf(x)
    {
      var k :| 0 <= k < |items| && items[k] == it;
      assert relevant[k] in relevant;
    }
  }

  /** One entry yields one item when it is the client's and dated in the target month, and
      none otherwise; with `ItemsFollowInputOrder` this fixes the item list exactly. */
  lemma SingleEntryItems(client: StoredClient, e: TimeEntry, gstRegistered: bool, month: int, year: int)
    ensures AggregateMonthlyInvoice(client, [e], gstRegistered, month, year).items ==
      if e.clientId == client.id && InMonth(e, month, year) then [ItemOf(e)] else []
  {
    var ofClient, datedIn := OfClient(client.id), DatedIn(month, year);
    assert [e][1..] == [];
    assert Filter([e], ofClient) == if ofClient(e) then [e] else [];
    assert Filter([], datedIn) == [];
    assert Filter([e], datedIn) == if datedIn(e) then [e] else [];
    assert Relevant(client, [e], month, year) ==
      if e.clientId == client.id && InMonth(e, month, year) then [e] else [];
  }

  /** Aggregating a concatenation lists the first part's items before the second's. */
  lemma ItemsFollowInputOrder(
    client: StoredClient, xs: seq<TimeEntry>, ys: seq<TimeEntry>, gstRegistered: bool, month: int, year: int)
    ensures AggregateMonthlyInvoice(client, xs + ys, gstRegistered, month, year).items ==
      AggregateMonthlyInvoice(client, xs, gstRegistered, month, year).items +
      AggregateMonthlyInvoice(client, ys, gstRegistered, month, year).items
  {
    FilterAppend(xs, ys, OfClient(client.id));
    FilterAppend(Filter(xs, OfClient(client.id)), Filter(ys, OfClient(client.id)), DatedIn(month, year));
  }

  /** An entry of another client, or one dated after the target month or in another year,
      changes nothing in the invoice. */
  lemma IrrelevantEntryIgnored(
    client: StoredClient, xs: seq<TimeEntry>, e: TimeEntry, ys: seq<TimeEntry>,
    gstRegistered: bool, month: int, year: int)
    requires e.clientId != client.id || !UpToMonth(e, month, year)
    ensures AggregateMonthlyInvoice(client, xs + [e] + ys, gstRegistered, month, year) ==
      AggregateMonthlyInvoice(client, xs + ys, gstRegistered, month, year)
  {
    FilterFilterDrops(xs, e, ys, OfClient(client.id), DatedIn(month, year));
    FilterFilterDrops(xs, e, ys, DatedUpTo(month, year), OfClient(client.id));
    assert Relevant(client, xs + [e] + ys, month, year) == Relevant(client, xs + ys, month, year);
    assert YearToDate(client, xs + [e] + ys, month, year) == YearToDate(client, xs + ys, month, year);
    assert Annualized(client, xs + [e] + ys, month, year) == Annualized(client, xs + ys, month, year);
  }

  /** A monthly client's base, GST, TDS and total do not depend on the time entries. */
  lemma MonthlyIgnoresEntries(
    client: StoredClient, entries: seq<TimeEntry>, others: seq<TimeEntry>, gstRegistered: bool, month: int, year: int)
    requires client.billingModel == Monthly
    ensures var a := AggregateMonthlyInvoice(client, entries, gstRegistered, month, year);
            var b := AggregateMonthlyInvoice(client, others, gstRegistered, month, year);
            a.subtotal == b.subtotal == client.amount && a.gst == b.gst && a.tds == b.tds && a.total == b.total
  {
  }

  /** A domestic, deducting monthly client: ₹2,000 a month (₹24,000 a year) draws no TDS,
      ₹3,000 a month (₹36,000 a year) draws ₹300. */
  lemma MonthlyTdsThresholdExample(entries: seq<TimeEntry>, month: int, year: int)
    ensures AggregateMonthlyInvoice(StoredClient("c", "C", Monthly, 2000.0, true, true), entries, false, month, year).tds == 0.0
    ensures AggregateMonthlyInvoice(StoredClient("c", "C", Monthly, 3000.0, true, true), entries, false, month, year).tds == 300.0
  {
    assert (300.0 + 0.5).Floor == 300;
  }

  /** Items are rounded one by one: two half-rupee entries bill ₹2, although their exact
      sum, ₹1, rounds to ₹1. */
  lemma SumOfRoundedIsNotRoundedSum()
    ensures var e := TimeEntry("t", "c", "", "2025-01-15", 0.5, 1.0);
            var inv := AggregateMonthlyInvoice(StoredClient("c", "C", Hourly, 0.0, false, false), [e, e], false, 1, 2025);
            inv.subtotal == 2.0 && Round(e.hours * e.rate + e.hours * e.rate) == 1.0
  {
    var e := TimeEntry("t", "c", "", "2025-01-15", 0.5, 1.0);
    MidJanuary();
    assert (1.0).Floor == 1 && (1.5).Floor == 1;
    var es := [e, e];
    assert es[1..] == [e] && es[1..][1..] == [];
    var ofC, inJan := OfClient("c"), DatedIn(1, 2025);
    assert ofC(e) && inJan(e);
    assert Filter([], ofC) == [] && Filter([], inJan) == [];
    assert Filter([e], ofC) == [e] && Filter([e], inJan) == [e];
    assert Filter(es, ofC) == es;
    assert Filter(es, inJan) == es;
    assert Priced(0.5, 1.0) == 1.0;
    var items := Items(es);
    assert items == [ItemOf(e), ItemOf(e)];
    assert items[..1] == [ItemOf(e)] && items[..1][..0] == [];
    assert SumOf(items[..1], ItemAmount) == 1.0;
    assert SumOf(items, ItemAmount) == 2.0;
  }

  lemma MidJanuary()
    ensures MonthFromDate("2025-01-15") == Some(MonthYear(1, 2025))
  {
    var d := "2025-01-15";
    assert d[..4] == "2025" && d[5..7] == "01" && d[8..] == "15";
    assert DecimalValue("2025") == 2025 by {
      assert "2"[..0] == "";
      assert DecimalValue("2") == 2;
      assert "20"[..1] == "2";
      assert DecimalValue("20") == 20;
      assert "202"[..2] == "20";
      assert DecimalValue("202") == 202;
      assert "2025"[..3] == "202";
    }
    assert DecimalValue("01") == 1 by {
      assert "01"[..1] == "0" && "0"[..0] == "";
    }
    assert DecimalValue("15") == 15 by {
      assert "15"[..1] == "1" && "1"[..0] == "";
    }
  }
}
