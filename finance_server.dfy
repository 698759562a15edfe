/**
 * The finance MCP server's tools: each opens the shared finance database,
 * runs its statements and returns a reply record, turning a failing
 * statement into an unsuccessful reply. Also the budget check with its
 * over-budget and warning alerts, and the one-time demo seeding.
 */
module FinanceServer {
  import opened Text
  import opened Ledger

  /** What `add_transaction` echoes back under `details`. */
  datatype Details = Details(id: nat, amount: real, category: string, description: string, kind: string, date: string)

  /** The filters `get_transactions` echoes back; `None` is a filter that was not passed. */
  datatype Filters = Filters(category: Option<string>, month: Option<string>, limit: int)

  /** One entry of `budget_status` (before rounding). */
  datatype BudgetEntry = BudgetEntry(category: string, budget: real, spent: real, remaining: real, percentage: real)

  datatype Reply =
    | TxnAdded(details: Details)
    | TxnList(transactions: seq<Txn>, count: nat, filters: Filters)
    | MonthSummary(period: string, income: real, expenses: real, net: real, savingsRate: real, byCategory: map<string, real>)
    | GoalAdded(goalId: nat, name: string, target: real, targetDate: Option<string>)
    | BudgetStatus(month: string, entries: seq<BudgetEntry>, alerts: seq<string>, totalCategories: nat)
    | Raised

  // ---------------------------------------------------------------------
  // add_transaction / get_transactions / get_financial_summary / add_financial_goal
  // ---------------------------------------------------------------------

  /**
   * `add_transaction`: the date defaults to today; a type the CHECK refuses
   * makes the INSERT raise and nothing is stored.
   */
  method AddTransaction(db: Database, amount: real, category: string, description: string, kind: string, date: Option<string>, today: string)
    returns (r: Reply)
    requires db.Valid()
    modifies db
    ensures db.Valid()
    ensures IsKind(kind) ==>
      && r == TxnAdded(Details(old(db.nextTxnId), amount, category, description, kind, GetOr(date, today)))
      && db.transactions == old(db.transactions) + [Txn(old(db.nextTxnId), GetOr(date, today), amount, category, description, kind)]
    ensures !IsKind(kind) ==> r == Raised && unchanged(db)
  {
    var d := GetOr(date, today);
    var id := db.InsertTransaction(d, amount, category, description, kind);
    if id.None? {
      return Raised;
    }
    r := TxnAdded(Details(id.value, amount, category, description, kind, d));
  }

  /** `get_transactions`: the listing query, its rows, and the filters it was called with. */
  method GetTransactions(db: Database, limit: int, category: Option<string>, month: Option<string>) returns (r: Reply)
    requires db.Valid()
    ensures r.TxnList? && r.count == |r.transactions|
    ensures r.filters == Filters(category, month, limit)
    ensures r.transactions == Listing(db.transactions, GetOr(category, ""), GetOr(month, ""), limit)
    ensures limit >= 0 ==> r.count <= limit
  {
    var clauses, params := BuildListingQuery(GetOr(category, ""), GetOr(month, ""), limit);
    var rows := Listing(db.transactions, GetOr(category, ""), GetOr(month, ""), limit);
    r := TxnList(rows, |rows|, Filters(category, month, limit));
  }

  /**
   * `get_financial_summary`: only a missing month falls back to the current
   * one, so an empty month is used as given.
   */
  function FinancialSummary(ts: seq<Txn>, month: Option<string>, currentMonth: string): (r: Reply)
    ensures r.MonthSummary? && r.period == (if month.Some? then month.value else currentMonth)
    ensures r.income == Spent(ts, "income", r.period, None) && r.expenses == Spent(ts, "expense", r.period, None)
    ensures r.net == r.income - r.expenses
    ensures r.income <= 0.0 ==> r.savingsRate == 0.0
    ensures r.income > 0.0 ==> r.savingsRate == r.net / r.income * 100.0
    ensures forall c :: c in r.byCategory <==> HasExpense(ts, r.period, c)
    ensures forall c :: c in r.byCategory ==> r.byCategory[c] == Spent(ts, "expense", r.period, Some(c))
  {
    var period := GetOr(month, currentMonth);
    var income := Spent(ts, "income", period, None);
    var expenses := Spent(ts, "expense", period, None);
    ByCategoryExact(ts, period);
    MonthSummary(period, income, expenses, income - expenses, SavingsRate(income, expenses), ByCategory(ts, period))
  }

  /** `add_financial_goal`: a new goal with nothing saved, echoed back. */
  method AddFinancialGoal(db: Database, name: string, target: real, targetDate: Option<string>) returns (r: Reply)
    requires db.Valid()
    modifies db
    ensures db.Valid()
    ensures r == GoalAdded(old(db.nextGoalId), name, target, targetDate)
    ensures db.goals == old(db.goals) + [Goal(old(db.nextGoalId), name, target, 0.0, targetDate)]
    ensures db.transactions == old(db.transactions) && db.categories == old(db.categories)
  {
    var id := db.InsertGoal(name, target, targetDate);
    r := GoalAdded(id, name, target, targetDate);
  }

  // ---------------------------------------------------------------------
  // get_budget_status
  // ---------------------------------------------------------------------

  /** `SELECT name, budget_amount FROM categories WHERE type = "expense" AND budget_amount > 0`, in table order. */
  function Budgeted(cs: seq<Category>): (r: seq<Category>)
    ensures forall c :: c in r <==> c in cs && c.kind == "expense" && c.budget > 0.0
    ensures |r| <= |cs|
  {
    if |cs| == 0 then []
    else
      assert forall c :: c in cs <==> c == cs[0] || c in cs[1..];
      (if cs[0].kind == "expense" && cs[0].budget > 0.0 then [cs[0]] else []) + Budgeted(cs[1..])
  }

  /** The status of one budgeted category, given the month's spending by category. */
  function EntryOf(c: Category, spending: map<string, real>): BudgetEntry
  {
    var spent := if c.name in spending then spending[c.name] else 0.0;
    BudgetEntry(c.name, c.budget, spent, c.budget - spent, if c.budget > 0.0 then spent / c.budget * 100.0 else 0.0)
  }

  /** How far over its threshold a percentage of the budget is. */
  datatype Level = Fine | Warning | OverBudget

  function LevelOf(percentage: real): (l: Level)
    ensures l == OverBudget <==> percentage >= 100.0
    ensures l == Warning <==> 80.0 <= percentage < 100.0
    ensures l == Fine <==> percentage < 80.0
  {
    if percentage >= 100.0 then OverBudget else if percentage >= 80.0 then Warning else Fine
  }

  /** The alert text of an entry; `fixed1` renders a percentage with one decimal. */
  function AlertText(e: BudgetEntry, fixed1: real -> string): string
  {
    if LevelOf(e.percentage) == OverBudget then "🚨 OVER BUDGET: " + e.category + " (" + fixed1(e.percentage) + "%)"
    else "⚠️ WARNING: " + e.category + " (" + fixed1(e.percentage) + "%)"
  }

  /** The alerts of a run of entries, one for each entry at 80% or more, in order. */
  function Alerts(es: seq<BudgetEntry>, fixed1: real -> string): (r: seq<string>)
    ensures |r| <= |es|
  {
    if |es| == 0 then []
    else Alerts(es[..|es| - 1], fixed1) + (if LevelOf(es[|es| - 1].percentage) == Fine then [] else [AlertText(es[|es| - 1], fixed1)])
  }

  lemma AlertsSnoc(es: seq<BudgetEntry>, e: BudgetEntry, fixed1: real -> string)
    ensures Alerts(es + [e], fixed1) == Alerts(es, fixed1) + (if LevelOf(e.percentage) == Fine then [] else [AlertText(e, fixed1)])
  {
    assert (es + [e])[..|es|] == es;
  }

  lemma EntriesNext(es: seq<BudgetEntry>, cs: seq<Category>, e: BudgetEntry, spending: map<string, real>)
    requires |es| < |cs| && e == EntryOf(cs[|es|], spending)
    requires forall k :: 0 <= k < |es| ==> es[k] == EntryOf(cs[k], spending)
    ensures forall k :: 0 <= k < |es| + 1 ==> (es + [e])[k] == EntryOf(cs[k], spending)
  {
  }

  /** Appending an entry appends its alert text, by level, or nothing below 80%. */
  lemma AlertsNext(es: seq<BudgetEntry>, e: BudgetEntry, fixed1: real -> string)
    ensures Alerts(es + [e], fixed1) == Alerts(es, fixed1)
      + (if e.percentage >= 100.0 then ["🚨 OVER BUDGET: " + e.category + " (" + fixed1(e.percentage) + "%)"]
         else if e.percentage >= 80.0 then ["⚠️ WARNING: " + e.category + " (" + fixed1(e.percentage) + "%)"]
         else [])
  {
    AlertsSnoc(es, e, fixed1);
  }

  /** An entry at or above 80% gets exactly one alert; so no two entries share one and a quiet month has none. */
  lemma {:induction false} AlertsCount(es: seq<BudgetEntry>, fixed1: real -> string)
    ensures |Alerts(es, fixed1)| == |set i | 0 <= i < |es| && es[i].percentage >= 80.0|
    ensures (forall i :: 0 <= i < |es| ==> es[i].percentage < 80.0) ==> Alerts(es, fixed1) == []
  {
    if |es| > 0 {
      AlertsCount(es[..|es| - 1], fixed1);
      HotStep(es);
    }
  }

  /** The entries at 80% or more gain the last index exactly when the last entry is one of them. */
  lemma HotStep(es: seq<BudgetEntry>)
    requires |es| > 0
    ensures var init := es[..|es| - 1];
      |set i | 0 <= i < |es| && es[i].percentage >= 80.0|
      == |set i | 0 <= i < |init| && init[i].percentage >= 80.0| + (if es[|es| - 1].percentage >= 80.0 then 1 else 0)
  {
    var init := es[..|es| - 1];
    var before := set i | 0 <= i < |init| && init[i].percentage >= 80.0;
    var now := set i | 0 <= i < |es| && es[i].percentage >= 80.0;
    if es[|es| - 1].percentage >= 80.0 {
      assert now == before + {|es| - 1};
    } else {
      assert now == before;
    }
  }

  /**
   * The budget check: one entry per budgeted category, spending defaulting
   * to 0, and the alerts of those entries.
   */
  method GetBudgetStatus(db: Database, currentMonth: string, fixed1: real -> string) returns (r: Reply)
    requires db.Valid()
    ensures r.BudgetStatus? && r.month == currentMonth
    ensures |r.entries| == |Budgeted(db.categories)| == r.totalCategories
    ensures forall i :: 0 <= i < |r.entries| ==> r.entries[i] == EntryOf(Budgeted(db.categories)[i], ByCategory(db.transactions, currentMonth))
    ensures r.alerts == Alerts(r.entries, fixed1)
  {
    var budgets := Budgeted(db.categories);
    var spending := ByCategory(db.transactions, currentMonth);
    var entries: seq<BudgetEntry> := [];
    var alerts: seq<string> := [];
    var i := 0;
    while i < |budgets|
      invariant 0 <= i <= |budgets|
      invariant |entries| == i
      invariant forall k :: 0 <= k < i ==> entries[k] == EntryOf(budgets[k], spending)
      invariant alerts == Alerts(entries, fixed1)
    {
      var c := budgets[i];
      var spent := if c.name in spending then spending[c.name] else 0.0;
      var percentage := if c.budget > 0.0 then spent / c.budget * 100.0 else 0.0;
      var e := BudgetEntry(c.name, c.budget, spent, c.budget - spent, percentage);
      assert e == EntryOf(c, spending);
      EntriesNext(entries, budgets, e, spending);
      AlertsNext(entries, e, fixed1);
      entries := entries + [e];
      if percentage >= 100.0 {
        alerts := alerts + ["🚨 OVER BUDGET: " + c.name + " (" + fixed1(percentage) + "%)"];
      } else if percentage >= 80.0 {
        alerts := alerts + ["⚠️ WARNING: " + c.name + " (" + fixed1(percentage) + "%)"];
      }
      i := i + 1;
    }
    r := BudgetStatus(currentMonth, entries, alerts, |entries|);
  }

  /**
   * Each entry holds its category's spending this month (0 when there was
   * none) and what is left of its budget.
   */
  lemma EntryMeaning(ts: seq<Txn>, c: Category, month: string)
    requires c.budget > 0.0
    ensures EntryOf(c, ByCategory(ts, month)).spent == Spent(ts, "expense", month, Some(c.name))
    ensures EntryOf(c, ByCategory(ts, month)).remaining == c.budget - Spent(ts, "expense", month, Some(c.name))
    ensures !HasExpense(ts, month, c.name) ==> EntryOf(c, ByCategory(ts, month)).percentage == 0.0
  {
    ByCategoryExact(ts, month);
  }

  // ---------------------------------------------------------------------
  // Demo seeding
  // ---------------------------------------------------------------------

  /** The demo transactions of `main`: amount, category, description and type; all are dated today. */
  const DemoRows: seq<(real, string, string, string)> :=
    [(3500.0, "Salary", "Monthly salary", "income"),
     (85.50, "Food & Dining", "Groceries", "expense"),
     (45.00, "Transportation", "Gas", "expense"),
     (12.99, "Entertainment", "Netflix subscription", "expense")]

  /** The rows `executemany` stores for the demo data, numbered from `next`. */
  function DemoTxns(next: nat, today: string): (r: seq<Txn>)
    ensures |r| == 4
    ensures forall i :: 0 <= i < 4 ==> r[i].id == next + i && r[i].date == today && IsKind(r[i].kind)
  {
    seq(4, i requires 0 <= i < 4 => Txn(next + i, today, DemoRows[i].0, DemoRows[i].1, DemoRows[i].2, DemoRows[i].3))
  }

  /** The transactions after seeding: the demo rows into an empty table, otherwise nothing. */
  function Seeded(ts: seq<Txn>, next: nat, today: string): seq<Txn>
  {
    if |ts| == 0 then DemoTxns(next, today) else ts
  }

  /** Restarting the server does not add the demo rows a second time. */
  lemma SeedingIdempotent(ts: seq<Txn>, next: nat, next': nat, today: string, today': string)
    ensures Seeded(Seeded(ts, next, today), next', today') == Seeded(ts, next, today)
  {
  }

  /** `main`: create the tables and default categories, then seed an empty transactions table. */
  method SetupAndSeed(db: Database, today: string)
    requires db.Valid()
    modifies db
    ensures db.Valid()
    ensures db.transactions == Seeded(old(db.transactions), old(db.nextTxnId), today)
    ensures Names(db.categories) == Names(old(db.categories)) + Names(DefaultCategories)
    ensures db.goals == old(db.goals)
  {
    db.SetupCategories();
    if |db.transactions| == 0 {
      var rows := DemoRows;
      var i := 0;
      var start := db.nextTxnId;
      while i < |rows|
        invariant 0 <= i <= 4
        invariant db.Valid()
        invariant db.nextTxnId == start + i
        invariant db.transactions == DemoTxns(start, today)[..i]
        invariant Names(db.categories) == Names(old(db.categories)) + Names(DefaultCategories)
        invariant db.goals == old(db.goals)
      {
        var id := db.InsertTransaction(today, rows[i].0, rows[i].1, rows[i].2, rows[i].3);
        assert DemoTxns(start, today)[..i + 1] == DemoTxns(start, today)[..i] + [DemoTxns(start, today)[i]];
        i := i + 1;
      }
    }
  }
}
