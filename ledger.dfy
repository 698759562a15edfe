/**
 * The finance database shared by the finance tool and the finance MCP
 * server: the transactions, categories and goals tables, the
 * `ORDER BY date DESC, id DESC LIMIT n` selection, the month filters and
 * sums, and the query builder that binds one parameter per placeholder.
 */
module Ledger {
  import opened Text

  /** A transactions row; `kind` is the `type` column. */
  datatype Txn = Txn(id: nat, date: string, amount: real, category: string, description: string, kind: string)

  /** A categories row. */
  datatype Category = Category(name: string, kind: string, budget: real, color: string)

  /** A goals row; `targetDate` is `None` (SQL NULL) when none was given. */
  datatype Goal = Goal(id: nat, name: string, target: real, current: real, targetDate: Option<string>)

  /** The values the `type` CHECK constraint admits. */
  predicate IsKind(k: string)
  {
    k == "income" || k == "expense"
  }

  // ---------------------------------------------------------------------
  // Newest first
  // ---------------------------------------------------------------------

  /** `t` comes before `u` under ORDER BY date DESC, id DESC. */
  predicate Newer(t: Txn, u: Txn)
  {
    TextLess(u.date, t.date) || (t.date == u.date && t.id > u.id)
  }

  predicate UniqueIds(ts: seq<Txn>)
  {
    forall i, j :: 0 <= i < j < |ts| ==> ts[i].id != ts[j].id
  }

  lemma NewerTransitive(t: Txn, u: Txn, v: Txn)
    requires Newer(t, u) && Newer(u, v)
    ensures Newer(t, v)
  {
    if TextLess(u.date, t.date) && TextLess(v.date, u.date) {
      TextLessTransitive(v.date, u.date, t.date);
    }
  }

  lemma NewerTotal(t: Txn, u: Txn)
    requires t.id != u.id
    ensures Newer(t, u) || Newer(u, t)
  {
    if t.date != u.date {
      TextLessTotal(t.date, u.date);
    }
  }

  lemma NewerIrreflexive(t: Txn)
    ensures !Newer(t, t)
  {
    TextLessIrreflexive(t.date);
  }

  /** The position of the newest row. */
  function NewestIndex(ts: seq<Txn>): (k: nat)
    requires |ts| > 0
    ensures k < |ts|
  {
    if |ts| == 1 then 0
    else
      var k := NewestIndex(ts[1..]) + 1;
      if Newer(ts[0], ts[k]) then 0 else k
  }

  /** The row at `NewestIndex` comes before every other row. */
  lemma {:induction false} NewestIsNewest(ts: seq<Txn>)
    requires |ts| > 0 && UniqueIds(ts)
    ensures forall j :: 0 <= j < |ts| && j != NewestIndex(ts) ==> Newer(ts[NewestIndex(ts)], ts[j])
  {
    if |ts| > 1 {
      var tail := ts[1..];
      NewestIsNewest(tail);
      var k := NewestIndex(tail) + 1;
      NewerTotal(ts[0], ts[k]);
      if Newer(ts[0], ts[k]) {
        forall j | 1 <= j < |ts| && j != k
          ensures Newer(ts[0], ts[j])
        {
          assert tail[j - 1] == ts[j] && tail[k - 1] == ts[k];
          NewerTransitive(ts[0], ts[k], ts[j]);
        }
      } else {
        forall j | 0 <= j < |ts| && j != k
          ensures Newer(ts[k], ts[j])
        {
          if j > 0 {
            assert tail[j - 1] == ts[j] && tail[k - 1] == ts[k];
          }
        }
      }
    }
  }

  /** The rows without the one at position `k`. */
  function Remove(ts: seq<Txn>, k: nat): (r: seq<Txn>)
    requires k < |ts|
    ensures |r| == |ts| - 1
  {
    ts[..k] + ts[k + 1..]
  }

  /** Removing a row keeps ids unique and every other row, and drops only that row. */
  lemma RemoveRows(ts: seq<Txn>, k: nat)
    requires k < |ts| && UniqueIds(ts)
    ensures UniqueIds(Remove(ts, k)) && ts[k] !in Remove(ts, k)
    ensures forall x :: x in Remove(ts, k) ==> x in ts
    ensures forall j :: 0 <= j < |ts| && j != k ==> ts[j] in Remove(ts, k)
    ensures forall x :: x in ts && x != ts[k] ==> x in Remove(ts, k)
  {
    var r := Remove(ts, k);
    assert forall j :: 0 <= j < |r| ==> r[j] == (if j < k then ts[j] else ts[j + 1]);
    assert forall j :: 0 <= j < |ts| && j != k ==> ts[j] == r[if j < k then j else j - 1];
    forall x | x in ts && x != ts[k]
      ensures x in r
    {
      var j :| 0 <= j < |ts| && ts[j] == x;
      assert ts[j] == r[if j < k then j else j - 1];
    }
  }

  /** The first `n` rows newest first, or all of them when there are fewer. */
  function Latest(ts: seq<Txn>, n: nat): (r: seq<Txn>)
    requires UniqueIds(ts)
    ensures |r| == if n < |ts| then n else |ts|
    decreases n
  {
    if n == 0 || |ts| == 0 then []
    else
      var k := NewestIndex(ts);
      RemoveRows(ts, k);
      [ts[k]] + Latest(Remove(ts, k), n - 1)
  }

  /** Every row selected is a row of the table. */
  lemma {:induction false} LatestFromTable(ts: seq<Txn>, n: nat)
    requires UniqueIds(ts)
    ensures forall x :: x in Latest(ts, n) ==> x in ts
    decreases n
  {
    if n > 0 && |ts| > 0 {
      var k := NewestIndex(ts);
      var rest := Remove(ts, k);
      RemoveRows(ts, k);
      var r' := Latest(rest, n - 1);
      LatestFromTable(rest, n - 1);
      ConsWithin(ts[k], r', rest, ts);
      assert Latest(ts, n) == [ts[k]] + r';
    }
  }

  lemma ConsWithin(x0: Txn, r: seq<Txn>, mid: seq<Txn>, ts: seq<Txn>)
    requires x0 in ts && (forall x :: x in r ==> x in mid) && (forall x :: x in mid ==> x in ts)
    ensures forall x :: x in [x0] + r ==> x in ts
  {
  }

  /** The newest row comes before every row left after removing it. */
  lemma NewestBeforeRest(ts: seq<Txn>)
    requires |ts| > 0 && UniqueIds(ts)
    ensures forall y :: y in Remove(ts, NewestIndex(ts)) ==> Newer(ts[NewestIndex(ts)], y)
  {
    var k := NewestIndex(ts);
    RemoveRows(ts, k);
    NewestIsNewest(ts);
    forall y | y in Remove(ts, k)
      ensures Newer(ts[k], y)
    {
      var j :| 0 <= j < |Remove(ts, k)| && Remove(ts, k)[j] == y;
      assert y == ts[if j < k then j else j + 1];
    }
  }

  lemma ConsSorted(x0: Txn, r: seq<Txn>)
    requires forall i :: 0 <= i < |r| - 1 ==> Newer(r[i], r[i + 1])
    requires |r| > 0 ==> Newer(x0, r[0])
    ensures forall i :: 0 <= i < |[x0] + r| - 1 ==> Newer(([x0] + r)[i], ([x0] + r)[i + 1])
  {
    var s := [x0] + r;
    forall i | 0 <= i < |s| - 1
      ensures Newer(s[i], s[i + 1])
    {
      if i > 0 {
        assert s[i] == r[i - 1] && s[i + 1] == r[i];
      }
    }
  }

  lemma ConsKeepsNewest(x0: Txn, r: seq<Txn>, rest: seq<Txn>, ts: seq<Txn>)
    requires forall x, y :: x in rest && x !in r && y in r ==> Newer(y, x)
    requires forall x :: x in ts && x != x0 ==> x in rest
    requires forall x :: x in rest ==> Newer(x0, x)
    ensures forall x, y :: x in ts && x !in [x0] + r && y in [x0] + r ==> Newer(y, x)
  {
    forall x, y | x in ts && x !in [x0] + r && y in [x0] + r
      ensures Newer(y, x)
    {
      assert x != x0 && x in rest;
    }
  }

  /** The selection is listed newest first. */
  lemma {:induction false} LatestSorted(ts: seq<Txn>, n: nat)
    requires UniqueIds(ts)
    ensures forall i :: 0 <= i < |Latest(ts, n)| - 1 ==> Newer(Latest(ts, n)[i], Latest(ts, n)[i + 1])
    decreases n
  {
    if n > 0 && |ts| > 0 {
      var k := NewestIndex(ts);
      var rest := Remove(ts, k);
      RemoveRows(ts, k);
      var r' := Latest(rest, n - 1);
      LatestSorted(rest, n - 1);
      if |r'| > 0 {
        LatestFromTable(rest, n - 1);
        NewestBeforeRest(ts);
        assert r'[0] in r';
      }
      ConsSorted(ts[k], r');
      assert Latest(ts, n) == [ts[k]] + r';
    }
  }

  /** A row left out is older than every row selected. */
  lemma {:induction false} LatestKeepsNewest(ts: seq<Txn>, n: nat)
    requires UniqueIds(ts)
    ensures forall x, y :: x in ts && x !in Latest(ts, n) && y in Latest(ts, n) ==> Newer(y, x)
    decreases n
  {
    if n > 0 && |ts| > 0 {
      var k := NewestIndex(ts);
      var rest := Remove(ts, k);
      RemoveRows(ts, k);
      var r' := Latest(rest, n - 1);
      LatestKeepsNewest(rest, n - 1);
      NewestBeforeRest(ts);
      ConsKeepsNewest(ts[k], r', rest, ts);
      assert Latest(ts, n) == [ts[k]] + r';
    }
  }

  /**
   * The selection is sorted newest first, takes only rows of the table, and
   * leaves out only rows older than every row it returns.
   */
  lemma LatestIsTop(ts: seq<Txn>, n: nat)
    requires UniqueIds(ts)
    ensures forall x :: x in Latest(ts, n) ==> x in ts
    ensures forall i :: 0 <= i < |Latest(ts, n)| - 1 ==> Newer(Latest(ts, n)[i], Latest(ts, n)[i + 1])
    ensures forall x, y :: x in ts && x !in Latest(ts, n) && y in Latest(ts, n) ==> Newer(y, x)
  {
    LatestFromTable(ts, n);
    LatestSorted(ts, n);
    LatestKeepsNewest(ts, n);
  }

  /** SQLite's LIMIT: a negative limit returns every row. */
  function Limit(limit: int, rows: nat): nat
  {
    if limit < 0 then rows else limit
  }

  // ---------------------------------------------------------------------
  // Filters and sums
  // ---------------------------------------------------------------------

  /** `date LIKE '<month>-%'`. */
  predicate InMonth(t: Txn, month: string)
  {
    StartsWith(t.date, month + "-")
  }

  /** The WHERE clause of a transaction listing; "" turns a filter off. */
  predicate Selected(t: Txn, category: string, month: string)
  {
    (category == "" || t.category == category) && (month == "" || InMonth(t, month))
  }

  function Filter(ts: seq<Txn>, category: string, month: string): (r: seq<Txn>)
    ensures forall x :: x in r <==> x in ts && Selected(x, category, month)
    ensures UniqueIds(ts) ==> UniqueIds(r)
  {
    if |ts| == 0 then []
    else
      var rest := Filter(ts[1..], category, month);
      assert forall x :: x in ts[1..] ==> x in ts;
      assert forall x :: x in ts ==> x == ts[0] || x in ts[1..];
      if Selected(ts[0], category, month) then
        assert UniqueIds(ts) ==> forall x :: x in ts[1..] ==> x.id != ts[0].id;
        [ts[0]] + rest
      else rest
  }

  /** `SUM(amount)` over the rows of one type in one month, optionally one category; 0 for none. */
  function Spent(ts: seq<Txn>, kind: string, month: string, category: Option<string>): real
  {
    if |ts| == 0 then 0.0
    else
      var t := ts[0];
      (if t.kind == kind && InMonth(t, month) && (category.None? || t.category == category.value) then t.amount else 0.0)
      + Spent(ts[1..], kind, month, category)
  }

  /** `dict(SELECT category, SUM(amount) ... WHERE type = 'expense' AND <month> GROUP BY category)`. */
  function ByCategory(ts: seq<Txn>, month: string): map<string, real>
  {
    if |ts| == 0 then map[]
    else
      var m := ByCategory(ts[1..], month);
      var t := ts[0];
      if t.kind == "expense" && InMonth(t, month) then
        m[t.category := (if t.category in m then m[t.category] else 0.0) + t.amount]
      else m
  }

  /** `t` is an expense of `category` in `month`. */
  predicate ExpenseIn(t: Txn, month: string, category: string)
  {
    t.kind == "expense" && InMonth(t, month) && t.category == category
  }

  predicate HasExpense(ts: seq<Txn>, month: string, category: string)
  {
    exists i :: 0 <= i < |ts| && ExpenseIn(ts[i], month, category)
  }

  lemma HasExpenseCons(ts: seq<Txn>, month: string, category: string)
    requires |ts| > 0
    ensures HasExpense(ts, month, category) <==> ExpenseIn(ts[0], month, category) || HasExpense(ts[1..], month, category)
  {
    if HasExpense(ts[1..], month, category) {
      var i :| 0 <= i < |ts[1..]| && ExpenseIn(ts[1..][i], month, category);
      assert ts[i + 1] == ts[1..][i];
    }
    if HasExpense(ts, month, category) && !ExpenseIn(ts[0], month, category) {
      var i :| 0 <= i < |ts| && ExpenseIn(ts[i], month, category);
      assert ts[1..][i - 1] == ts[i];
    }
  }

  /**
   * The grouping has one key per category spent in that month, holding that
   * category's sum.
   */
  lemma {:induction false} ByCategoryExact(ts: seq<Txn>, month: string)
    ensures forall c :: c in ByCategory(ts, month) <==> HasExpense(ts, month, c)
    ensures forall c :: c in ByCategory(ts, month) ==> ByCategory(ts, month)[c] == Spent(ts, "expense", month, Some(c))
    ensures forall c :: c !in ByCategory(ts, month) ==> Spent(ts, "expense", month, Some(c)) == 0.0
  {
    if |ts| > 0 {
      ByCategoryExact(ts[1..], month);
      forall c {
        HasExpenseCons(ts, month, c);
      }
    }
  }

  /** With no negative amounts, no sum is negative. */
  lemma {:induction false} SpentNonNegative(ts: seq<Txn>, kind: string, month: string, category: Option<string>)
    requires forall i :: 0 <= i < |ts| ==> ts[i].amount >= 0.0
    ensures Spent(ts, kind, month, category) >= 0.0
  {
    if |ts| > 0 {
      SpentNonNegative(ts[1..], kind, month, category);
    }
  }

  /** `(net / income * 100) if income > 0 else 0`. */
  function SavingsRate(income: real, expenses: real): (r: real)
    ensures income <= 0.0 ==> r == 0.0
  {
    if income > 0.0 then (income - expenses) / income * 100.0 else 0.0
  }

  /** With no negative expenses the rate is at most 100, and exactly 100 when nothing was spent. */
  lemma SavingsRateBounds(income: real, expenses: real)
    requires income > 0.0 && expenses >= 0.0
    ensures SavingsRate(income, expenses) <= 100.0
    ensures SavingsRate(income, expenses) == 100.0 <==> expenses == 0.0
    ensures SavingsRate(income, expenses) >= 0.0 <==> expenses <= income
  {
  }

  // ---------------------------------------------------------------------
  // The listing query
  // ---------------------------------------------------------------------

  datatype SqlParam = TextParam(s: string) | IntParam(i: int)

  /** A clause appended to the listing query; each ends in one placeholder. */
  datatype Clause = CategoryIs | DateLike | OrderAndLimit

  function ClauseText(c: Clause): string
  {
    match c
    case CategoryIs => " AND category = ?"
    case DateLike => " AND date LIKE ?"
    case OrderAndLimit => " ORDER BY date DESC, id DESC LIMIT ?"
  }

  /** The query text: the base selection followed by its clauses. */
  function QueryText(clauses: seq<Clause>): string
  {
    if |clauses| == 0 then "SELECT * FROM transactions WHERE 1=1"
    else QueryText(clauses[..|clauses| - 1]) + ClauseText(clauses[|clauses| - 1])
  }

  /**
   * The listing query, built clause by clause: a category clause and a
   * month clause when those filters are set, the ordering and limit last,
   * and beside each clause the parameter its placeholder binds.
   */
  method BuildListingQuery(category: string, month: string, limit: int) returns (clauses: seq<Clause>, params: seq<SqlParam>)
    ensures |clauses| == |params| >= 1
    ensures clauses[|clauses| - 1] == OrderAndLimit && params[|params| - 1] == IntParam(limit)
    ensures forall i :: 0 <= i < |clauses| - 1 ==> clauses[i] != OrderAndLimit
    ensures CategoryIs in clauses <==> category != ""
    ensures DateLike in clauses <==> month != ""
    ensures forall i :: 0 <= i < |clauses| && clauses[i] == CategoryIs ==> params[i] == TextParam(category)
    ensures forall i :: 0 <= i < |clauses| && clauses[i] == DateLike ==> params[i] == TextParam(month + "-%")
  {
    clauses := [];
    params := [];
    if category != "" {
      clauses := clauses + [CategoryIs];
      params := params + [TextParam(category)];
    }
    if month != "" {
      clauses := clauses + [DateLike];
      params := params + [TextParam(month + "-%")];
    }
    clauses := clauses + [OrderAndLimit];
    params := params + [IntParam(limit)];
  }

  /**
   * The rows the listing query returns: `ORDER BY date DESC, id DESC LIMIT ?`
   * over the rows the filters select.
   */
  function Listing(ts: seq<Txn>, category: string, month: string, limit: int): (r: seq<Txn>)
    requires UniqueIds(ts)
    ensures limit >= 0 ==> |r| <= limit
    ensures |r| == if 0 <= limit < |Filter(ts, category, month)| then limit else |Filter(ts, category, month)|
    ensures forall x :: x in r ==> x in ts && Selected(x, category, month)
    ensures forall i :: 0 <= i < |r| - 1 ==> Newer(r[i], r[i + 1])
    ensures forall x, y :: x in ts && Selected(x, category, month) && x !in r && y in r ==> Newer(y, x)
  {
    var selected := Filter(ts, category, month);
    LatestIsTop(selected, Limit(limit, |selected|));
    Latest(selected, Limit(limit, |selected|))
  }

  // ---------------------------------------------------------------------
  // The tables
  // ---------------------------------------------------------------------

  const DefaultCategories: seq<Category> := [
    Category("Food & Dining", "expense", 500.0, "#e74c3c"),
    Category("Transportation", "expense", 300.0, "#f39c12"),
    Category("Shopping", "expense", 200.0, "#9b59b6"),
    Category("Entertainment", "expense", 150.0, "#e67e22"),
    Category("Bills & Utilities", "expense", 400.0, "#34495e"),
    Category("Healthcare", "expense", 100.0, "#16a085"),
    Category("Education", "expense", 50.0, "#2980b9"),
    Category("Salary", "income", 0.0, "#27ae60"),
    Category("Freelance", "income", 0.0, "#f1c40f"),
    Category("Investments", "income", 0.0, "#8e44ad")
  ]

  function Names(cs: seq<Category>): set<string>
  {
    set c | c in cs :: c.name
  }

  lemma NamesAppend(cs: seq<Category>, c: Category)
    ensures Names(cs + [c]) == Names(cs) + {c.name}
  {
    assert forall x :: x in cs + [c] <==> x in cs || x == c;
  }

  /** Category names are unique. */
  predicate UniqueNames(cs: seq<Category>)
  {
    forall i, j :: 0 <= i < j < |cs| ==> cs[i].name != cs[j].name
  }

  class Database {
    var transactions: seq<Txn>
    var categories: seq<Category>
    var goals: seq<Goal>
    var nextTxnId: nat
    var nextGoalId: nat

    /** Row ids are unique and below the next id; types satisfy their CHECK; category names are unique. */
    ghost predicate Valid()
      reads this
    {
      && UniqueIds(transactions)
      && (forall t :: t in transactions ==> t.id < nextTxnId && IsKind(t.kind))
      && (forall g :: g in goals ==> g.id < nextGoalId)
      && UniqueNames(categories)
    }

    /** A fresh database file: empty tables, ids counting from 1. */
    constructor()
      ensures Valid()
      ensures transactions == [] && categories == [] && goals == []
    {
      transactions := [];
      categories := [];
      goals := [];
      nextTxnId := 1;
      nextGoalId := 1;
    }

    /**
     * The default categories, each inserted unless a category of that name
     * exists (`INSERT OR IGNORE` on the unique name).
     */
    method SetupCategories()
      requires Valid()
      modifies this
      ensures Valid()
      ensures old(categories) <= categories
      ensures Names(categories) == Names(old(categories)) + Names(DefaultCategories)
      ensures Names(DefaultCategories) <= Names(old(categories)) ==> categories == old(categories)
      ensures transactions == old(transactions) && goals == old(goals)
      ensures nextTxnId == old(nextTxnId) && nextGoalId == old(nextGoalId)
    {
      InsertCategories(DefaultCategories);
    }

    /** Each category of `cs` in turn, by `InsertCategory`. */
    method InsertCategories(cs: seq<Category>)
      requires Valid()
      modifies this
      ensures Valid()
      ensures old(categories) <= categories
      ensures Names(categories) == Names(old(categories)) + Names(cs)
      ensures Names(cs) <= Names(old(categories)) ==> categories == old(categories)
      ensures transactions == old(transactions) && goals == old(goals)
      ensures nextTxnId == old(nextTxnId) && nextGoalId == old(nextGoalId)
    {
      var i := 0;
      while i < |cs|
        invariant 0 <= i <= |cs|
        invariant Valid()
        invariant old(categories) <= categories
        invariant Names(categories) == Names(old(categories)) + Names(cs[..i])
        invariant Names(cs) <= Names(old(categories)) ==> categories == old(categories)
        invariant transactions == old(transactions) && goals == old(goals)
        invariant nextTxnId == old(nextTxnId) && nextGoalId == old(nextGoalId)
      {
        var c := cs[i];
        assert cs[..i + 1] == cs[..i] + [c];
        NamesAppend(cs[..i], c);
        assert c.name in Names(cs);
        InsertCategory(c);
        i := i + 1;
      }
      assert cs[..i] == cs;
    }

    /** One `INSERT OR IGNORE` into categories: the row is added unless its name is taken. */
    method InsertCategory(c: Category)
      requires Valid()
      modifies this
      ensures Valid()
      ensures c.name in Names(old(categories)) ==> categories == old(categories)
      ensures c.name !in Names(old(categories)) ==> categories == old(categories) + [c]
      ensures Names(categories) == Names(old(categories)) + {c.name}
      ensures transactions == old(transactions) && goals == old(goals)
      ensures nextTxnId == old(nextTxnId) && nextGoalId == old(nextGoalId)
    {
      if c.name !in Names(categories) {
        NamesAppend(categories, c);
        assert forall x :: x in categories ==> x.name in Names(categories);
        categories := categories + [c];
      }
    }

    /** An INSERT into transactions; `None` when the type fails its CHECK and nothing is stored. */
    method InsertTransaction(date: string, amount: real, category: string, description: string, kind: string)
      returns (id: Option<nat>)
      requires Valid()
      modifies this
      ensures Valid()
      ensures IsKind(kind) ==>
        && id == Some(old(nextTxnId)) && nextTxnId == old(nextTxnId) + 1
        && transactions == old(transactions) + [Txn(old(nextTxnId), date, amount, category, description, kind)]
      ensures !IsKind(kind) ==> id.None? && unchanged(this)
      ensures categories == old(categories) && goals == old(goals) && nextGoalId == old(nextGoalId)
    {
      if !IsKind(kind) {
        return None;
      }
      var t := Txn(nextTxnId, date, amount, category, description, kind);
      transactions := transactions + [t];
      id := Some(nextTxnId);
      nextTxnId := nextTxnId + 1;
    }

    /** An INSERT into goals: saved amount 0. */
    method InsertGoal(name: string, target: real, targetDate: Option<string>) returns (id: nat)
      requires Valid()
      modifies this
      ensures Valid()
      ensures id == old(nextGoalId) && nextGoalId == old(nextGoalId) + 1
      ensures goals == old(goals) + [Goal(id, name, target, 0.0, targetDate)]
      ensures transactions == old(transactions) && categories == old(categories) && nextTxnId == old(nextTxnId)
    {
      id := nextGoalId;
      goals := goals + [Goal(id, name, target, 0.0, targetDate)];
      nextGoalId := nextGoalId + 1;
    }
  }
}
