/** The expenses page of src/app/dashboard/expenses/page.tsx: a list of deductible
    expenses that "Add Expense" grows by one, and their total. */
module Expenses {
  import opened Common

  /** `note` is optional: the two starting expenses have none. */
  datatype Expense = Expense(id: string, category: string, amount: real, note: Option<string>, date: string)

  function ExpenseAmount(e: Expense): real { e.amount }

  /** The `total` reduce. */
  function Total(expenses: seq<Expense>): real
  {
    SumOf(expenses, ExpenseAmount)
  }

  /** Putting an expense first raises the total by exactly its amount. */
  lemma TotalPrepend(e: Expense, expenses: seq<Expense>)
    ensures Total([e] + expenses) == e.amount + Total(expenses)
  {
    SumOfPrepend(e, expenses, ExpenseAmount);
  }

  /** The list the page starts with, dated today. */
  function Initial(today: string): (es: seq<Expense>)
    ensures |es| == 2 && Total(es) == 2099.0
  {
    var es := [Expense("e1", "Internet", 1200.0, None, today), Expense("e2", "Subscriptions", 899.0, None, today)];
    SumOfPrepend(es[0], [es[1]], ExpenseAmount);
    SumOfPrepend(es[1], [], ExpenseAmount);
    assert es == [es[0]] + [es[1]] && [es[1]] == [es[1]] + [];
    es
  }

  /** Only positive amounts are added, so a list built by the page has a non-negative total. */
  lemma TotalNonNegative(expenses: seq<Expense>)
    requires forall i :: 0 <= i < |expenses| ==> expenses[i].amount >= 0.0
    ensures Total(expenses) >= 0.0
  {
    SumOfNonNegative(expenses, ExpenseAmount);
  }

  /** The page's state: the expense list and the form. */
  class ExpensesPage {
    var expenses: seq<Expense>
    var category: string
    var amount: real
    var note: string

    /** Every listed expense has a positive amount, so the total shown is never negative. */
    ghost predicate Valid()
      reads this
    {
      forall i :: 0 <= i < |expenses| ==> expenses[i].amount > 0.0
    }

    constructor (today: string)
      ensures Valid()
      ensures expenses == Initial(today)
      ensures category == "Laptop" && amount == 50000.0 && note == ""
    {
      expenses := Initial(today);
      category, amount, note := "Laptop", 50000.0, "";
    }

    /** `add`, with `crypto.randomUUID()` as `id` and today's `YYYY-MM-DD` as `today`. A zero
        or negative amount changes nothing; otherwise one expense built from the form is put
        first, the total rises by its amount, and amount and note are reset while the
        category stays. */
    method Add(id: string, today: string)
      requires Valid()
      modifies this`expenses, this`amount, this`note
      ensures Valid() && Total(expenses) >= 0.0
      ensures old(amount) <= 0.0 ==> unchanged(this)
      ensures old(amount) > 0.0 ==>
        expenses == [Expense(id, category, old(amount), Some(old(note)), today)] + old(expenses) &&
        Total(expenses) == Total(old(expenses)) + old(amount) &&
        amount == 0.0 && note == ""
    {
      if amount <= 0.0 {
        TotalNonNegative(expenses);
        return;
      }
      var e := Expense(id, category, amount, Some(note), today);
      TotalPrepend(e, expenses);
      expenses := [e] + expenses;
      amount := 0.0;
      note := "";
      TotalNonNegative(expenses);
    }
  }
}
