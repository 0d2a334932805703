/** The clients page of src/app/dashboard/clients/page.tsx: the per-client charge
    estimate (`calcRow`), the column totals over all clients, and the client list
    that the add and delete buttons edit. */
module Clients {
  import opened Common
  import Invoice

  /** The page's own billing model: it offers only these two. */
  datatype BillingModel = Monthly | Project

  datatype Client = Client(
    id: string,
    name: string,
    email: string,
    billingModel: BillingModel,
    amount: real,          // base amount before tax
    domestic: bool,        // an India client; exports are zero-rated
    tdsDeducts: bool)

  datatype Row = Row(base: real, gst: real, tds: real, net: real, note: string)

  datatype Totals = Totals(base: real, gst: real, tds: real, net: real)

  const GstRate: real := 0.18
  const TdsRate: real := 0.1
  const TdsThreshold: real := 30000.0
  const TdsAppliesNote: string := "TDS @10% applies (est. >₹30k/yr)"
  const TdsNotApplicableNote: string := "TDS likely not applicable (≤₹30k/yr)"

  /** A monthly fee counts twelve times a year; a project fee once. */
  function Annualized(c: Client): real
  {
    if c.billingModel == Monthly then c.amount * 12.0 else c.amount
  }

  predicate TdsApplies(c: Client)
  {
    c.tdsDeducts && Annualized(c) > TdsThreshold
  }

  /** `calcRow`: the unrounded estimate shown in the client's table row. */
  function CalcRow(c: Client, gstRegistered: bool): (r: Row)
    ensures r.base == c.amount
    ensures r.gst == if c.domestic && gstRegistered then GstRate * c.amount else 0.0
    ensures r.tds == if TdsApplies(c) then TdsRate * c.amount else 0.0
    ensures r.net == r.base + r.gst - r.tds
    ensures r.note == TdsAppliesNote <==> TdsApplies(c)
    ensures c.amount >= 0.0 ==> 0.9 * r.base <= r.net <= 1.18 * r.base
  {
    var base := c.amount;
    var gst := if c.domestic && gstRegistered then base * GstRate else 0.0;
    var tdsApplies := TdsApplies(c);
    var tds := if tdsApplies then base * TdsRate else 0.0;
    var note := if tdsApplies then TdsAppliesNote else TdsNotApplicableNote;
    assert TdsAppliesNote[4] != TdsNotApplicableNote[4];
    Row(base, gst, tds, base + gst - tds, note)
  }

  /** The ₹30,000 test is strict: ₹2,500 a month (exactly ₹30,000 a year) draws no TDS. */
  lemma MonthlyThresholdIsStrict(c: Client, gstRegistered: bool)
    requires c.billingModel == Monthly && c.tdsDeducts
    ensures CalcRow(c, gstRegistered).tds > 0.0 <==> c.amount > 2500.0
  {
  }

  /** For a monthly client the row is the unrounded form of the monthly invoice:
      same base, and GST and TDS that round to the invoice's, whatever time was logged. */
  lemma RowMatchesMonthlyInvoice(
    c: Client, gstRegistered: bool, entries: seq<Invoice.TimeEntry>, month: int, year: int)
    requires c.billingModel == Monthly
    ensures var inv := Invoice.AggregateMonthlyInvoice(
              Invoice.StoredClient(c.id, c.name, Invoice.Monthly, c.amount, c.domestic, c.tdsDeducts),
              entries, gstRegistered, month, year);
            var r := CalcRow(c, gstRegistered);
            inv.subtotal == r.base && inv.gst == Round(r.gst) && inv.tds == Round(r.tds)
  {
    assert Round(0.0) == 0.0;
  }

  // ---------------------------------------------------------------- totals

  function AddRow(acc: Totals, r: Row): Totals
  {
    Totals(acc.base + r.base, acc.gst + r.gst, acc.tds + r.tds, acc.net + r.net)
  }

  /** The `totals` reduce: rows added to the accumulator in list order. */
  function SumRows(clients: seq<Client>, gstRegistered: bool): Totals
  {
    if clients == [] then Totals(0.0, 0.0, 0.0, 0.0)
    else AddRow(SumRows(clients[..|clients| - 1], gstRegistered), CalcRow(clients[|clients| - 1], gstRegistered))
  }

  function ClientAmount(c: Client): real { c.amount }

  /** The totals are the column sums of the rows, and they balance like each row does. */
  lemma {:induction false} TotalsAreColumnSums(clients: seq<Client>, gstRegistered: bool)
    ensures SumRows(clients, gstRegistered).base == SumOf(clients, ClientAmount)
    ensures SumRows(clients, gstRegistered).gst == SumOf(clients, (c: Client) => CalcRow(c, gstRegistered).gst)
    ensures SumRows(clients, gstRegistered).tds == SumOf(clients, (c: Client) => CalcRow(c, gstRegistered).tds)
    ensures SumRows(clients, gstRegistered).net ==
      SumRows(clients, gstRegistered).base + SumRows(clients, gstRegistered).gst - SumRows(clients, gstRegistered).tds
    decreases |clients|
  {
    if clients != [] {
      TotalsAreColumnSums(clients[..|clients| - 1], gstRegistered);
    }
  }

  lemma SumRowsSnoc(clients: seq<Client>, i: int, gstRegistered: bool)
    requires 0 <= i < |clients|
    ensures SumRows(clients[..i + 1], gstRegistered) ==
      AddRow(SumRows(clients[..i], gstRegistered), CalcRow(clients[i], gstRegistered))
  {
    assert clients[..i + 1][..i] == clients[..i];
  }

  /** The `totals` reduce as written: one pass that adds each row's fields to an
      accumulator in place. */
  method ComputeTotals(clients: seq<Client>, gstRegistered: bool) returns (acc: Totals)
    ensures acc == SumRows(clients, gstRegistered)
    ensures acc.net == acc.base + acc.gst - acc.tds
    ensures clients == [] ==> acc == Totals(0.0, 0.0, 0.0, 0.0)
  {
    acc := Totals(0.0, 0.0, 0.0, 0.0);
    for i := 0 to |clients|
      invariant acc == SumRows(clients[..i], gstRegistered)
    {
      var r := CalcRow(clients[i], gstRegistered);
      SumRowsSnoc(clients, i, gstRegistered);
      acc := acc.(base := acc.base + r.base, gst := acc.gst + r.gst, tds := acc.tds + r.tds, net := acc.net + r.net);
      assert acc == AddRow(SumRows(clients[..i], gstRegistered), r);
    }
    assert clients[..|clients|] == clients;
    TotalsAreColumnSums(clients, gstRegistered);
  }

  /** The `totals` memo: the inputs it was last computed from and the value it holds. */
  datatype Memo = Memo(clients: seq<Client>, gstRegistered: bool, totals: Totals)

  predicate Current(m: Memo)
  {
    m.totals == SumRows(m.clients, m.gstRegistered)
  }

  /** The memo as written: recomputed only when its one dependency, the client list,
      changes. Lists are compared by value; React compares the array by identity, so a
      new array with the same clients (a second delete of a removed id) recomputes there
      and not here. */
  function MemoTotalsAsWritten(memo: Memo, clients: seq<Client>, gstRegistered: bool): (m: Memo)
    ensures m.clients == clients
    ensures memo.clients == clients ==> m.totals == memo.totals
    ensures memo.clients != clients ==> m.totals == SumRows(clients, gstRegistered)
  {
    if memo.clients == clients then memo else Memo(clients, gstRegistered, SumRows(clients, gstRegistered))
  }

  /** Ticking "GST registered" leaves the totals stale: once computed for a client list,
      the memo keeps the totals of the old flag while every row shows the new one. */
  lemma StaleTotalsAfterGstToggle(memo: Memo, clients: seq<Client>)
    requires memo.clients != clients
    ensures var before := MemoTotalsAsWritten(memo, clients, false);
            MemoTotalsAsWritten(before, clients, true).totals == SumRows(clients, false)
  {
  }

  /** The toggle does change the totals: a single domestic client with a positive amount
      has no GST unregistered and 18% registered, so the stale memo shows ₹0 beside a
      positive row. */
  lemma GstToggleChangesTotals(c: Client)
    requires c.domestic && c.amount > 0.0
    ensures SumRows([c], false).gst == 0.0
    ensures SumRows([c], true).gst == GstRate * c.amount > 0.0
  {
    assert [c][..0] == [];
  }

  /** The memo keyed on both inputs the rows read: whatever it held before, what it holds
      after is the totals of the current rows. */
  function MemoTotals(memo: Memo, clients: seq<Client>, gstRegistered: bool): (m: Memo)
    requires Current(memo)
    ensures Current(m) && m.clients == clients && m.gstRegistered == gstRegistered
    ensures m.totals == SumRows(clients, gstRegistered)
    ensures m.totals.net == m.totals.base + m.totals.gst - m.totals.tds
  {
    TotalsAreColumnSums(clients, gstRegistered);
    if memo.clients == clients && memo.gstRegistered == gstRegistered then memo
    else Memo(clients, gstRegistered, SumRows(clients, gstRegistered))
  }

  // ---------------------------------------------------------------- client list

  function NotId(id: string): Client -> bool
  {
    (c: Client) => c.id != id
  }

  /** `arr.filter((c) => c.id !== id)`. */
  function WithoutId(clients: seq<Client>, id: string): seq<Client>
  {
    Filter(clients, NotId(id))
  }

  /** Deleting keeps exactly the clients with another id, in their order; deleting the
      same id twice changes nothing more. */
  lemma WithoutIdKeepsOthers(xs: seq<Client>, ys: seq<Client>, id: string)
    ensures forall c :: c in WithoutId(xs, id) <==> c in xs && c.id != id
    ensures WithoutId(xs + ys, id) == WithoutId(xs, id) + WithoutId(ys, id)
    ensures WithoutId(WithoutId(xs, id), id) == WithoutId(xs, id)
  {
    FilterMembers(xs, NotId(id));
    FilterAppend(xs, ys, NotId(id));
    FilterKeepsAll(WithoutId(xs, id), NotId(id));
  }

  lemma {:induction false} FilterKeepsAll(xs: seq<Client>, keep: Client -> bool)
    requires forall c :: c in xs ==> keep(c)
    ensures Filter(xs, keep) == xs
    decreases |xs|
  {
    if xs != [] {
      assert xs[0] in xs;
      FilterKeepsAll(xs[1..], keep);
    }
  }

  /** The page's state: the client list, the GST-registration checkbox and the form. */
  class ClientsPage {
    var clients: seq<Client>
    var gstRegistered: bool
    var name: string
    var email: string
    var billingModel: BillingModel
    var amount: real
    var domestic: bool
    var tds: bool

    constructor ()
      ensures clients == [] && !gstRegistered
      ensures name == "" && email == "" && billingModel == Monthly && amount == 25000.0 && domestic && tds
    {
      clients := [];
      gstRegistered := false;
      name, email, billingModel, amount, domestic, tds := "", "", Monthly, 25000.0, true, true;
    }

    /** `addClient`, with `crypto.randomUUID()` passed in as `newId`. An empty name or a
        zero amount leaves everything as it was; otherwise one client built from the form
        is put first and the name and email fields are cleared. */
    method AddClient(newId: string)
      modifies this
      ensures old(name) == "" || old(amount) == 0.0 ==> unchanged(this)
      ensures old(name) != "" && old(amount) != 0.0 ==>
        clients == [Client(newId, old(name), old(email), old(billingModel), old(amount), old(domestic), old(tds))] + old(clients) &&
        name == "" && email == ""
      ensures gstRegistered == old(gstRegistered) && billingModel == old(billingModel) && amount == old(amount)
      ensures domestic == old(domestic) && tds == old(tds)
    {
      if name == "" || amount == 0.0 {
        return;
      }
      clients := [Client(newId, name, email, billingModel, amount, domestic, tds)] + clients;
      name := "";
      email := "";
    }

    /** `removeClient`: every client with this id goes; the rest keep their order. */
    method RemoveClient(id: string)
      modifies this`clients
      ensures clients == WithoutId(old(clients), id)
      ensures forall c :: c in clients <==> c in old(clients) && c.id != id
    {
      WithoutIdKeepsOthers(clients, [], id);
      clients := WithoutId(clients, id);
    }

    /** The "GST registered?" checkbox: only the flag changes. */
    method SetGstRegistered(checked: bool)
      modifies this`gstRegistered
      ensures gstRegistered == checked
    {
      gstRegistered := checked;
    }

    /** The totals above the table as the corrected memo (`MemoTotals`) gives them: those of
        the current clients under the current GST flag. The page as written can still show
        the totals of the previous flag after the checkbox changes (`MemoTotalsAsWritten`). */
    method CurrentTotals() returns (t: Totals)
      ensures t == SumRows(clients, gstRegistered)
      ensures t.net == t.base + t.gst - t.tds
    {
      t := ComputeTotals(clients, gstRegistered);
    }
  }
}
