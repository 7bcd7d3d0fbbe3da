/** The budget ledger: two ordered collections of entries, the stored totals,
    the net budget and the overall spend percentage. The four aggregates are
    fields that only calculateTotal and calculateBudget overwrite;
    calculatePercentages overwrites only the percentage cached in each
    expense. Between a mutation and those calls they are stale. */
module Budget {
  import opened Ids
  import opened Amounts

  /** Which collection an entry belongs to. */
  datatype Kind = Inc | Exp

  /** An income entry; nothing changes it after construction. */
  datatype Income = Income(id: int, description: string, value: int)

  /** An expense entry. Its percentage of income is a cached value that
      CalcPercentage overwrites in place; a new expense starts at -1. */
  class Expense {
    const id: int
    const description: string
    const value: int
    var percentage: int

    constructor (id: int, description: string, value: int)
      ensures this.id == id && this.description == description && this.value == value
      ensures percentage == -1
    {
      this.id := id;
      this.description := description;
      this.value := value;
      percentage := -1;
    }

    /** Caches this expense's share of totalIncome, or -1 when there is no
        positive income. */
    method CalcPercentage(totalIncome: int)
      modifies this
      ensures totalIncome > 0 ==> percentage == Round(100 * value, totalIncome)
      ensures totalIncome <= 0 ==> percentage == -1
    {
      if totalIncome > 0 {
        percentage := Round(100 * value, totalIncome);
      } else {
        percentage := -1;
      }
    }

    /** The cached percentage, as last stored; nothing is recomputed. */
    function GetPercentage(): (p: int)
      reads this
      ensures p == percentage
    {
      percentage
    }
  }

  /** What addItem hands back: the very entry it stored. */
  datatype Item = IncomeItem(income: Income) | ExpenseItem(expense: Expense) {
    function Id(): int {
      match this
      case IncomeItem(x) => x.id
      case ExpenseItem(e) => e.id
    }
    function Description(): string {
      match this
      case IncomeItem(x) => x.description
      case ExpenseItem(e) => e.description
    }
    function Value(): int {
      match this
      case IncomeItem(x) => x.value
      case ExpenseItem(e) => e.value
    }
  }

  /** The four aggregates getBudget returns. */
  datatype Snapshot = Snapshot(budget: int, totalIncome: int, totalExpenses: int, percentage: int)

  /** Each expense is its own object, so updating one leaves the others alone. */
  predicate Distinct(s: seq<Expense>) {
    forall i, j :: 0 <= i < j < |s| ==> s[i] != s[j]
  }

  /** The percentages the expense objects hold, in stored order. */
  function PercentagesOf(s: seq<Expense>): (r: seq<int>)
    reads s
    ensures |r| == |s|
    ensures forall i :: 0 <= i < |s| ==> r[i] == s[i].percentage
  {
    if |s| == 0 then [] else PercentagesOf(s[..|s| - 1]) + [s[|s| - 1].GetPercentage()]
  }

  class Ledger {
    var inc: seq<Income>
    var exp: seq<Expense>
    var totalInc: int
    var totalExp: int
    var budget: int
    var percentage: int

    /** Ids stay non-negative and strictly increasing in each collection,
        and no expense object is stored twice. */
    ghost predicate Valid()
      reads this
    {
      WellFormed(Ids(Inc)) && WellFormed(Ids(Exp)) && Distinct(exp)
    }

    /** The ids of one collection, in stored order (the map in deleteItem). */
    function Ids(kind: Kind): (r: seq<int>)
      reads this
      ensures kind == Inc ==> |r| == |inc| && forall i :: 0 <= i < |inc| ==> r[i] == inc[i].id
      ensures kind == Exp ==> |r| == |exp| && forall i :: 0 <= i < |exp| ==> r[i] == exp[i].id
    {
      if kind == Inc then var s := inc; seq(|s|, i requires 0 <= i < |s| => s[i].id)
      else var s := exp; seq(|s|, i requires 0 <= i < |s| => s[i].id)
    }

    /** The amounts of one collection, in stored order (what calculateTotal
        adds up). */
    function Values(kind: Kind): (r: seq<int>)
      reads this
      ensures kind == Inc ==> |r| == |inc| && forall i :: 0 <= i < |inc| ==> r[i] == inc[i].value
      ensures kind == Exp ==> |r| == |exp| && forall i :: 0 <= i < |exp| ==> r[i] == exp[i].value
    {
      if kind == Inc then var s := inc; seq(|s|, i requires 0 <= i < |s| => s[i].value)
      else var s := exp; seq(|s|, i requires 0 <= i < |s| => s[i].value)
    }

    function Total(kind: Kind): int
      reads this
    {
      if kind == Inc then totalInc else totalExp
    }

    /** An empty ledger: no entries, zero totals, zero budget, percentage -1. */
    constructor ()
      ensures Valid()
      ensures inc == [] && exp == []
      ensures totalInc == 0 && totalExp == 0 && budget == 0 && percentage == -1
    {
      inc, exp := [], [];
      totalInc, totalExp := 0, 0;
      budget, percentage := 0, -1;
    }

    /** Appends a new entry of the given kind at the tail of its collection
        and returns it. Its id is one past the last stored id (0 for an
        empty collection), which is larger than every id in use. Nothing
        else changes; in particular the aggregates are not recomputed. */
    method AddItem(kind: Kind, description: string, value: int) returns (item: Item)
      requires Valid()
      modifies this
      ensures Valid()
      ensures item.Id() == NextId(old(Ids(kind)))
      ensures forall i :: 0 <= i < |old(Ids(kind))| ==> old(Ids(kind))[i] < item.Id()
      ensures item.Description() == description && item.Value() == value
      ensures kind == Inc ==> item.IncomeItem? && inc == old(inc) + [item.income] && exp == old(exp)
      ensures kind == Exp ==>
                item.ExpenseItem? && fresh(item.expense) && item.expense.percentage == -1 &&
                exp == old(exp) + [item.expense] && inc == old(inc)
      ensures totalInc == old(totalInc) && totalExp == old(totalExp)
      ensures budget == old(budget) && percentage == old(percentage)
    {
      var ids := Ids(kind);
      var id;
      if |ids| > 0 {
        id := ids[|ids| - 1] + 1;
      } else {
        id := 0;
      }
      NextIdIsFresh(ids);
      if kind == Exp {
        var e := new Expense(id, description, value);
        exp := exp + [e];
        assert Ids(Exp) == ids + [id];
        item := ExpenseItem(e);
      } else {
        var x := Income(id, description, value);
        inc := inc + [x];
        assert Ids(Inc) == ids + [id];
        item := IncomeItem(x);
      }
    }

    /** Removes the first entry of the given kind whose id matches, keeping
        the others in order; when no entry has that id nothing changes. The
        other collection and the aggregates are never touched. */
    method DeleteItem(kind: Kind, id: int)
      requires Valid()
      modifies this
      ensures Valid()
      ensures var i := IndexOf(old(Ids(kind)), id);
              kind == Inc ==> inc == (if i == -1 then old(inc) else RemoveAt(old(inc), i))
      ensures var i := IndexOf(old(Ids(kind)), id);
              kind == Exp ==> exp == (if i == -1 then old(exp) else RemoveAt(old(exp), i))
      ensures kind == Inc ==> exp == old(exp)
      ensures kind == Exp ==> inc == old(inc)
      ensures totalInc == old(totalInc) && totalExp == old(totalExp)
      ensures budget == old(budget) && percentage == old(percentage)
    {
      var ids := Ids(kind);
      var index := FindIndex(ids, id);
      if index != -1 {
        RemoveAtWellFormed(ids, index);
        if kind == Inc {
          ghost var other := Ids(Exp);
          inc := RemoveAt(inc, index);
          assert Ids(Inc) == RemoveAt(ids, index) && Ids(Exp) == other;
        } else {
          ghost var other := Ids(Inc);
          exp := RemoveAt(exp, index);
          assert Ids(Exp) == RemoveAt(ids, index) && Ids(Inc) == other;
        }
      }
    }

    /** Stores the in-order sum of one collection's amounts as its total. */
    method CalculateTotal(kind: Kind)
      modifies this
      ensures Total(kind) == Sum(Values(kind))
      ensures kind == Inc ==> totalExp == old(totalExp)
      ensures kind == Exp ==> totalInc == old(totalInc)
      ensures inc == old(inc) && exp == old(exp)
      ensures budget == old(budget) && percentage == old(percentage)
    {
      var values := Values(kind);
      var sum := 0;
      for i := 0 to |values|
        invariant sum == Sum(values[..i])
      {
        assert values[..i + 1][..i] == values[..i];
        sum := sum + values[i];
      }
      assert values[..|values|] == values;
      if kind == Inc {
        totalInc := sum;
      } else {
        totalExp := sum;
      }
    }

    /** Recomputes both totals, the net budget and the overall spend
        percentage from the current collections. */
    method CalculateBudget()
      modifies this
      ensures totalInc == Sum(Values(Inc)) && totalExp == Sum(Values(Exp))
      ensures budget == totalInc - totalExp
      ensures totalInc > 0 ==> percentage == Round(100 * totalExp, totalInc)
      ensures totalInc <= 0 ==> percentage == -1
      ensures inc == old(inc) && exp == old(exp)
    {
      CalculateTotal(Exp);
      CalculateTotal(Inc);
      budget := totalInc - totalExp;
      if totalInc > 0 {
        percentage := Round(100 * totalExp, totalInc);
      } else {
        percentage := -1;
      }
    }

    /** Overwrites each expense's cached percentage with its share of the
        income total left by the last CalculateBudget (not a fresh sum). */
    method CalculatePercentages()
      requires Valid()
      modifies exp
      ensures forall i :: 0 <= i < |exp| ==> exp[i].percentage == Share(exp[i].value, totalInc)
    {
      for i := 0 to |exp|
        invariant forall j :: 0 <= j < i ==> exp[j].percentage == Share(exp[j].value, totalInc)
      {
        exp[i].CalcPercentage(totalInc);
      }
    }

    /** The cached percentages, one per expense, in the expense order. */
    function GetPercentages(): (r: seq<int>)
      reads this, exp
      ensures |r| == |exp|
      ensures forall i :: 0 <= i < |exp| ==> r[i] == exp[i].percentage
    {
      PercentagesOf(exp)
    }

    /** The stored aggregates as one snapshot; nothing is recomputed. */
    function GetBudget(): (s: Snapshot)
      reads this
      ensures s.budget == budget && s.totalIncome == totalInc
      ensures s.totalExpenses == totalExp && s.percentage == percentage
    {
      Snapshot(budget, totalInc, totalExp, percentage)
    }
  }
}
