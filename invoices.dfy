/** The invoices page of src/app/dashboard/invoices/page.tsx: a list of invoices that
    "Create Invoice" grows by one single-item invoice, and the unrounded invoice total. */
module Invoices {
  import opened Common

  datatype LineItem = LineItem(description: string, hours: real, rate: real)

  datatype Invoice = Invoice(id: string, client: string, date: string, items: seq<LineItem>, paid: bool)

  function LineAmount(it: LineItem): real { it.hours * it.rate }

  /** `total`: hours times rate summed over the items, with no rounding. */
  function Total(inv: Invoice): real
  {
    SumOf(inv.items, LineAmount)
  }

  /** The total of items joined together is the sum of their totals, and an item adds its
      hours times its rate. */
  lemma TotalAppend(inv: Invoice, more: seq<LineItem>)
    ensures Total(inv.(items := inv.items + more)) == Total(inv) + SumOf(more, LineAmount)
    ensures |more| == 1 ==> Total(inv.(items := inv.items + more)) == Total(inv) + more[0].hours * more[0].rate
  {
    var joined := inv.(items := inv.items + more);
    SumOfAppend(inv.items, more, LineAmount);
    assert Total(joined) == Total(inv) + SumOf(more, LineAmount);
    if |more| == 1 {
      SumOfPrepend(more[0], [], LineAmount);
      assert more == [more[0]] + [];
      assert SumOf(more, LineAmount) == LineAmount(more[0]);
    }
  }

  /** Non-negative hours and rates never give a negative total. */
  lemma TotalNonNegative(inv: Invoice)
    requires forall i :: 0 <= i < |inv.items| ==> inv.items[i].hours >= 0.0 && inv.items[i].rate >= 0.0
    ensures Total(inv) >= 0.0
  {
    SumOfNonNegative(inv.items, LineAmount);
  }

  /** The invoice "Create Invoice" builds: one item, unpaid; its total is the item's
      hours times its rate. */
  function NewInvoice(id: string, client: string, today: string, desc: string, hours: real, rate: real): (inv: Invoice)
    ensures inv.id == id && inv.client == client && inv.date == today && !inv.paid
    ensures inv.items == [LineItem(desc, hours, rate)]
    ensures Total(inv) == hours * rate
  {
    var inv := Invoice(id, client, today, [LineItem(desc, hours, rate)], false);
    SumOfPrepend(LineItem(desc, hours, rate), [], LineAmount);
    assert inv.items == [LineItem(desc, hours, rate)] + [];
    inv
  }

  /** The page's state: the invoice list and the form. */
  class InvoicesPage {
    var invoices: seq<Invoice>
    var client: string
    var itemDesc: string
    var hours: real
    var rate: real

    constructor ()
      ensures invoices == [] && client == "" && itemDesc == "" && hours == 1.0 && rate == 1500.0
    {
      invoices := [];
      client, itemDesc, hours, rate := "", "", 1.0, 1500.0;
    }

    /** `addItem`, with `crypto.randomUUID()` as `id` and today's `YYYY-MM-DD` as `today`.
        An empty client or item description changes nothing; otherwise one invoice is put
        first and the description is cleared, while client, hours and rate stay. */
    method AddItem(id: string, today: string)
      modifies this`invoices, this`itemDesc
      ensures old(client) == "" || old(itemDesc) == "" ==> invoices == old(invoices) && itemDesc == old(itemDesc)
      ensures old(client) != "" && old(itemDesc) != "" ==>
        invoices == [NewInvoice(id, client, today, old(itemDesc), hours, rate)] + old(invoices) &&
        itemDesc == ""
    {
      if client == "" || itemDesc == "" {
        return;
      }
      invoices := [NewInvoice(id, client, today, itemDesc, hours, rate)] + invoices;
      itemDesc := "";
    }
  }
}
