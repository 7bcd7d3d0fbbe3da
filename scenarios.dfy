/** Properties that span several ledger calls, and worked examples of the
    ledger's behaviour, stated as client code. */
module Scenarios {
  import opened Ids
  import opened Amounts
  import opened Budget

  /** Adding an entry and then deleting it by the id it was given puts both
      collections back as they were. */
  method AddThenDeleteRestores(l: Ledger, kind: Kind, description: string, value: int)
    returns (item: Item)
    requires l.Valid()
    modifies l
    ensures l.Valid()
    ensures l.inc == old(l.inc) && l.exp == old(l.exp)
    ensures l.GetBudget() == old(l.GetBudget())
  {
    ghost var ids := l.Ids(kind);
    item := l.AddItem(kind, description, value);
    if kind == Inc {
      AddThenRemove(old(l.inc), ids, item.income);
      assert l.Ids(kind) == ids + [NextId(ids)];
    } else {
      AddThenRemove(old(l.exp), ids, item.expense);
      assert l.Ids(kind) == ids + [NextId(ids)];
    }
    l.DeleteItem(kind, item.Id());
  }

  /** Recomputing twice with no mutation in between gives the same snapshot. */
  method RecalculateIsIdempotent(l: Ledger) returns (first: Snapshot, second: Snapshot)
    modifies l
    ensures first == second && second == l.GetBudget()
    ensures l.inc == old(l.inc) && l.exp == old(l.exp)
  {
    l.CalculateBudget();
    first := l.GetBudget();
    l.CalculateBudget();
    second := l.GetBudget();
  }

  /** Deleting an entry that exists and recomputing lowers that kind's total
      by exactly the amount of the removed entry. */
  method DeleteThenRecalculate(l: Ledger, kind: Kind, id: int)
    requires l.Valid()
    modifies l
    ensures l.Valid()
    ensures var i := IndexOf(old(l.Ids(kind)), id);
            l.Total(kind) == Sum(old(l.Values(kind))) - (if i == -1 then 0 else old(l.Values(kind))[i])
  {
    ghost var values := l.Values(kind);
    ghost var i := IndexOf(l.Ids(kind), id);
    l.DeleteItem(kind, id);
    ghost var after := Sum(l.Values(kind));
    if i != -1 {
      assert l.Values(kind) == RemoveAt(values, i);
      SumRemoveAt(values, i);
    }
    assert after == Sum(values) - (if i == -1 then 0 else values[i]);
    l.CalculateBudget();
    assert l.Total(kind) == after;
  }

  /** Adding entries one by one to a collection that is empty, with no
      deletes in between, numbers them 0, 1, 2, ... in stored order. */
  method AddsNumberFromZero(l: Ledger, kind: Kind, entries: seq<(string, int)>)
    returns (items: seq<Item>)
    requires l.Valid() && l.Ids(kind) == []
    modifies l
    ensures l.Valid()
    ensures |items| == |entries| && forall i :: 0 <= i < |items| ==> items[i].Id() == i
    ensures |l.Ids(kind)| == |entries| && forall i :: 0 <= i < |entries| ==> l.Ids(kind)[i] == i
  {
    items := [];
    for n := 0 to |entries|
      invariant l.Valid()
      invariant |items| == n && forall i :: 0 <= i < n ==> items[i].Id() == i
      invariant |l.Ids(kind)| == n && forall i :: 0 <= i < n ==> l.Ids(kind)[i] == i
    {
      var item := l.AddItem(kind, entries[n].0, entries[n].1);
      items := items + [item];
    }
  }

  /** After a recompute with non-negative expenses, the stored percentage is
      the sentinel -1 exactly when the income total is not positive, and it
      lies between 0 and 100 when expenses do not exceed a positive income. */
  method RecalculatedSentinel(l: Ledger)
    requires forall i :: 0 <= i < |l.exp| ==> 0 <= l.exp[i].value
    modifies l
    ensures l.percentage == -1 <==> l.totalInc <= 0
    ensures 0 < l.totalInc && l.totalExp <= l.totalInc ==> 0 <= l.percentage <= 100
  {
    l.CalculateBudget();
    SpendSentinel(l.Values(Inc), l.Values(Exp));
    if 0 < l.totalInc && l.totalExp <= l.totalInc {
      ShareBounds(l.totalExp, l.totalInc);
    }
  }

  method SalaryAndRent() {
    var l := new Ledger();
    var salary := l.AddItem(Inc, "Salary", 1000);
    var rent := l.AddItem(Exp, "Rent", 300);
    assert salary.Id() == 0 && rent.Id() == 0;
    assert l.Values(Inc) == [1000] && l.Values(Exp) == [300];
    SingletonSum(1000);
    SingletonSum(300);
    l.CalculateBudget();
    assert l.GetBudget() == Snapshot(700, 1000, 300, 30);
  }

  method ExpenseWithoutIncome() {
    var l := new Ledger();
    var coffee := l.AddItem(Exp, "Coffee", 50);
    assert l.Values(Inc) == [];
    l.CalculateBudget();
    assert l.GetBudget().percentage == -1;
  }

  method IdsAfterDeletingFirst() {
    var l := new Ledger();
    var a := l.AddItem(Inc, "A", 100);
    var b := l.AddItem(Inc, "B", 200);
    assert l.Ids(Inc) == [0, 1];
    var c := DeleteFirstThenAdd(l);
    assert a.Id() == 0 && b.Id() == 1 && c.Id() == 2;
  }

  /** From incomes with ids [0, 1], deleting id 0 and adding again gives id 2:
      one past the remaining maximum, not the freed 0. */
  method DeleteFirstThenAdd(l: Ledger) returns (c: Item)
    requires l.Valid() && l.Ids(Inc) == [0, 1]
    modifies l
    ensures c.Id() == 2
  {
    ghost var before := l.inc;
    assert IndexOf([0, 1], 0) == 0;
    l.DeleteItem(Inc, 0);
    assert l.inc == [before[1]];
    c := l.AddItem(Inc, "C", 300);
  }

  /** Ids are not a counter: deleting the last entry frees its id again. */
  method IdReusedAfterDeletingLast() {
    var l := new Ledger();
    var a := l.AddItem(Exp, "A", 10);
    var b := l.AddItem(Exp, "B", 20);
    assert l.Ids(Exp) == [0, 1];
    var c := DeleteLastThenAdd(l);
    assert c.Id() == 1;
  }

  /** From expenses with ids [0, 1], deleting id 1 and adding again gives id 1. */
  method DeleteLastThenAdd(l: Ledger) returns (c: Item)
    requires l.Valid() && l.Ids(Exp) == [0, 1]
    modifies l
    ensures c.Id() == 1
  {
    ghost var before := l.exp;
    assert IndexOf([0, 1], 1) == 1;
    l.DeleteItem(Exp, 1);
    assert l.exp == [before[0]];
    c := l.AddItem(Exp, "C", 30);
  }

  method ExpensePercentages() {
    var l := new Ledger();
    var x := l.AddItem(Exp, "X", 25);
    var e := x.expense;
    assert fresh(e) && l.exp == [e];
    var y := l.AddItem(Inc, "Y", 100);
    assert l.exp == [e] && l.Values(Inc) == [100];
    var percentages := RecomputeOneExpense(l, e);
    assert percentages == [25];
  }

  /** With one expense of 25 against one income of 100, the recomputed
      per-expense percentages are [25]. */
  method RecomputeOneExpense(l: Ledger, e: Expense) returns (percentages: seq<int>)
    requires l.Valid() && l.exp == [e] && e.value == 25 && l.Values(Inc) == [100]
    modifies l, e
    ensures percentages == [25]
  {
    SingletonSum(100);
    l.CalculateBudget();
    assert l.totalInc == 100 && l.exp == [e];
    l.CalculatePercentages();
    QuarterShare();
    percentages := l.GetPercentages();
    assert |percentages| == 1 && percentages[0] == e.percentage == 25;
  }

  lemma SingletonSum(v: int)
    ensures Sum([v]) == v
  {
    assert [v][..0] == [];
  }

  lemma QuarterShare()
    ensures Share(25, 100) == 25
  {
    assert Round(2500, 100) == 5100 / 200 == 25;
  }
}
