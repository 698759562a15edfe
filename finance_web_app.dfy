/**
 * The Flask finance web app's own logic: the budget alert system that
 * compares each budgeted category's monthly spending with its budget, the
 * spending percentages of the budgets page, and the six-month series of the
 * spending chart. Pages, forms and JSON rendering are not part of this model.
 */
module FinanceWebApp {
  import opened Text
  import opened Ledger
  import FinanceTool
  import FinanceClient

  type Numbers = FinanceClient.Numbers

  // ---------------------------------------------------------------------
  // Budget alerts
  // ---------------------------------------------------------------------

  datatype AlertLevel = Danger | Warning | Info

  /** One alert dictionary: `type`, `category`, `message`, `percentage`, `spent`, `budget`. */
  datatype BudgetAlert = BudgetAlert(level: AlertLevel, category: string, message: string,
                                     percentage: real, spent: real, budget: real)

  /** `SELECT name, budget_amount FROM categories WHERE type = "expense" AND budget_amount > 0`. */
  function BudgetRows(cs: seq<Category>): (r: seq<(string, real)>)
    ensures forall b :: b in r ==> b.1 > 0.0
    ensures forall b :: b in r <==> exists c :: c in cs && c.kind == "expense" && c.budget > 0.0 && b == (c.name, c.budget)
  {
    if |cs| == 0 then []
    else if cs[0].kind == "expense" && cs[0].budget > 0.0 then [(cs[0].name, cs[0].budget)] + BudgetRows(cs[1..])
    else BudgetRows(cs[1..])
  }

  /** Budgeted categories keep the table's unique names. */
  lemma {:induction false} BudgetRowsDistinct(cs: seq<Category>)
    requires UniqueNames(cs)
    ensures forall i, j :: 0 <= i < j < |BudgetRows(cs)| ==> BudgetRows(cs)[i].0 != BudgetRows(cs)[j].0
  {
    if |cs| > 0 {
      assert UniqueNames(cs[1..]);
      BudgetRowsDistinct(cs[1..]);
      var r := BudgetRows(cs[1..]);
      forall b | b in r
        ensures b.0 != cs[0].name
      {
        var c :| c in cs[1..] && c.kind == "expense" && c.budget > 0.0 && b == (c.name, c.budget);
        var k :| 0 <= k < |cs[1..]| && cs[1..][k] == c;
        assert cs[k + 1] == c;
      }
    }
  }

  /** `expenses_by_category.get(category, 0)`. */
  function SpentOn(byCategory: map<string, real>, category: string): real
  {
    if category in byCategory then byCategory[category] else 0.0
  }

  /** `spent / budget * 100`, and 0 for a budget that is not positive. */
  function Percentage(spent: real, budget: real): (p: real)
    ensures budget <= 0.0 ==> p == 0.0
    ensures budget > 0.0 ==> p * budget == spent * 100.0
  {
    if budget > 0.0 then spent / budget * 100.0 else 0.0
  }

  /** The level of an alert at percentage `p`; none below 60%. */
  function LevelOf(p: real): (r: Option<AlertLevel>)
    ensures r == Some(Danger) <==> p >= 100.0
    ensures r == Some(Warning) <==> 80.0 <= p < 100.0
    ensures r == Some(Info) <==> 60.0 <= p < 80.0
    ensures r.None? <==> p < 60.0
  {
    if p >= 100.0 then Some(Danger)
    else if p >= 80.0 then Some(Warning)
    else if p >= 60.0 then Some(Info)
    else None
  }

  /** The opening words of each level's message. */
  function Headline(level: AlertLevel): string
  {
    match level
    case Danger => "Budget exceeded! "
    case Warning => "Budget warning: "
    case Info => "Budget check: "
  }

  /** The alerts (none or one) for one budgeted category. */
  function AlertsOf(n: Numbers, byCategory: map<string, real>, b: (string, real)): (r: seq<BudgetAlert>)
    ensures |r| <= 1
    ensures |r| == 1 <==> Percentage(SpentOn(byCategory, b.0), b.1) >= 60.0
    ensures |r| == 1 ==> r[0].category == b.0 && r[0].budget == b.1 && r[0].spent == SpentOn(byCategory, b.0)
    ensures |r| == 1 ==> r[0].percentage == Percentage(r[0].spent, b.1) && LevelOf(r[0].percentage) == Some(r[0].level)
  {
    var spent := SpentOn(byCategory, b.0);
    var p := Percentage(spent, b.1);
    match LevelOf(p)
    case None => []
    case Some(level) =>
      [BudgetAlert(level, b.0, Headline(level) + "Spent $" + n.fixed2(spent) + " of $" + n.fixed2(b.1) + " (" + n.fixed1(p) + "%)",
                   p, spent, b.1)]
  }

  /** The alerts of the budgeted categories, in their order. */
  function Alerts(n: Numbers, byCategory: map<string, real>, bs: seq<(string, real)>): seq<BudgetAlert>
  {
    if |bs| == 0 then [] else Alerts(n, byCategory, bs[..|bs| - 1]) + AlertsOf(n, byCategory, bs[|bs| - 1])
  }

  /** Every alert belongs to a budgeted category and is at 60% or more. */
  lemma {:induction false} AlertsSound(n: Numbers, byCategory: map<string, real>, bs: seq<(string, real)>)
    ensures forall a :: a in Alerts(n, byCategory, bs) ==>
      a.percentage >= 60.0 && a.spent == SpentOn(byCategory, a.category) && (a.category, a.budget) in bs
  {
    if |bs| > 0 {
      var init := bs[..|bs| - 1];
      AlertsSound(n, byCategory, init);
      assert forall b :: b in init ==> b in bs;
    }
  }

  /** Every budgeted category at 60% or more has its alert. */
  lemma {:induction false} AlertsComplete(n: Numbers, byCategory: map<string, real>, bs: seq<(string, real)>, i: nat)
    requires i < |bs| && Percentage(SpentOn(byCategory, bs[i].0), bs[i].1) >= 60.0
    ensures AlertsOf(n, byCategory, bs[i])[0] in Alerts(n, byCategory, bs)
  {
    if i < |bs| - 1 {
      AlertsComplete(n, byCategory, bs[..|bs| - 1], i);
    }
  }

  /** The categories of the alerts, in order. */
  function AlertCategories(alerts: seq<BudgetAlert>): (r: seq<string>)
    ensures |r| == |alerts| && forall i :: 0 <= i < |r| ==> r[i] == alerts[i].category
  {
    if |alerts| == 0 then [] else AlertCategories(alerts[..|alerts| - 1]) + [alerts[|alerts| - 1].category]
  }

  /** With unique category names, no category is alerted twice. */
  lemma {:induction false} OneAlertPerCategory(n: Numbers, byCategory: map<string, real>, bs: seq<(string, real)>)
    requires forall i, j :: 0 <= i < j < |bs| ==> bs[i].0 != bs[j].0
    ensures forall i, j :: 0 <= i < j < |Alerts(n, byCategory, bs)| ==>
      Alerts(n, byCategory, bs)[i].category != Alerts(n, byCategory, bs)[j].category
    ensures |Alerts(n, byCategory, bs)| <= |bs|
  {
    if |bs| > 0 {
      var init := bs[..|bs| - 1];
      var last := bs[|bs| - 1];
      OneAlertPerCategory(n, byCategory, init);
      AlertsSound(n, byCategory, init);
      var before := Alerts(n, byCategory, init);
      forall i | 0 <= i < |before|
        ensures before[i].category != last.0
      {
        assert before[i] in before;
        var k :| 0 <= k < |init| && init[k] == (before[i].category, before[i].budget);
      }
    }
  }

  /** A budgeted category with no spending this month is at 0% and raises no alert. */
  lemma NoSpendingNoAlert(n: Numbers, byCategory: map<string, real>, b: (string, real))
    requires b.0 !in byCategory && b.1 > 0.0
    ensures AlertsOf(n, byCategory, b) == []
  {
  }

  /** The alert list for a summary reply: empty when the summary did not succeed. */
  function AlertsFor(n: Numbers, summary: FinanceTool.Response, bs: seq<(string, real)>): (r: seq<BudgetAlert>)
    ensures !summary.MonthSummary? ==> r == []
    ensures |r| <= |bs|
  {
    if summary.MonthSummary? then
      AlertsLength(n, summary.byCategory, bs);
      Alerts(n, summary.byCategory, bs)
    else []
  }

  lemma {:induction false} AlertsLength(n: Numbers, byCategory: map<string, real>, bs: seq<(string, real)>)
    ensures |Alerts(n, byCategory, bs)| <= |bs|
  {
    if |bs| > 0 {
      AlertsLength(n, byCategory, bs[..|bs| - 1]);
    }
  }

  /** The loop of `check_budget_alerts` over the budgeted categories. */
  method CollectAlerts(n: Numbers, summary: FinanceTool.Response, bs: seq<(string, real)>) returns (alerts: seq<BudgetAlert>)
    ensures alerts == AlertsFor(n, summary, bs)
  {
    alerts := [];
    if !summary.MonthSummary? {
      return;
    }
    for i := 0 to |bs|
      invariant alerts == Alerts(n, summary.byCategory, bs[..i])
    {
      assert bs[..i + 1][..i] == bs[..i];
      var spent := SpentOn(summary.byCategory, bs[i].0);
      var p := Percentage(spent, bs[i].1);
      var level := LevelOf(p);
      if level.Some? {
        alerts := alerts + [BudgetAlert(level.value, bs[i].0,
          Headline(level.value) + "Spent $" + n.fixed2(spent) + " of $" + n.fixed2(bs[i].1) + " (" + n.fixed1(p) + "%)",
          p, spent, bs[i].1)];
      }
    }
    assert bs[..|bs|] == bs;
  }

  /** The month `check_budget_alerts` looks at: the one given, or the current month. */
  function AlertMonth(month: Option<string>, clock: FinanceTool.Clock): string
  {
    GetOr(month, clock.month)
  }

  const NoArgs := FinanceTool.Args(None, None, None, None, None, None, None, None, None, None, None, None)

  class BudgetAlertSystem {
    const n: Numbers
    const tool: FinanceTool.Tool

    ghost predicate Valid()
      reads this, tool, tool.db
    {
      tool.Valid()
    }

    constructor(n: Numbers, tool: FinanceTool.Tool)
      requires tool.Valid()
      ensures this.n == n && this.tool == tool && Valid()
    {
      this.n := n;
      this.tool := tool;
    }

    /** `check_budget_alerts`: the month's summary against each positive expense budget. */
    method CheckBudgetAlerts(month: Option<string>, clock: FinanceTool.Clock) returns (alerts: seq<BudgetAlert>)
      requires Valid()
      modifies tool.db
      ensures Valid() && unchanged(tool.db)
      ensures alerts == AlertsFor(n, FinanceTool.Summary(tool.db.transactions, NoArgs.(month := Some(AlertMonth(month, clock))), clock),
                                  BudgetRows(tool.db.categories))
    {
      var m := if month.None? then clock.month else month.value;
      var summary := tool.Execute("get_summary", NoArgs.(month := Some(m)), clock);
      alerts := CollectAlerts(n, summary, BudgetRows(tool.db.categories));
    }
  }

  /** The alerts of a real summary are exactly the budgeted categories at 60% or more, once each. */
  lemma CheckedAlerts(n: Numbers, ts: seq<Txn>, cs: seq<Category>, args: FinanceTool.Args, clock: FinanceTool.Clock)
    requires UniqueNames(cs)
    ensures var r := FinanceTool.Summary(ts, args, clock);
      var alerts := AlertsFor(n, r, BudgetRows(cs));
      && (forall a :: a in alerts ==> a.percentage >= 60.0 && (a.category, a.budget) in BudgetRows(cs))
      && (forall i, j :: 0 <= i < j < |alerts| ==> alerts[i].category != alerts[j].category)
  {
    var r := FinanceTool.Summary(ts, args, clock);
    BudgetRowsDistinct(cs);
    AlertsSound(n, r.byCategory, BudgetRows(cs));
    OneAlertPerCategory(n, r.byCategory, BudgetRows(cs));
  }

  // ---------------------------------------------------------------------
  // The budgets page
  // ---------------------------------------------------------------------

  /** A category row of the budgets page with its `spent` and `percentage` added. */
  datatype BudgetLine = BudgetLine(category: Category, spent: real, percentage: real)

  /** `SELECT * FROM categories WHERE type = "expense"`, in table order. */
  function ExpenseRows(cs: seq<Category>): (r: seq<Category>)
    ensures multiset(r) <= multiset(cs)
    ensures forall c :: c in r <==> c in cs && c.kind == "expense"
  {
    if |cs| == 0 then []
    else
      assert cs == [cs[0]] + cs[1..];
      if cs[0].kind == "expense" then [cs[0]] + ExpenseRows(cs[1..])
      else ExpenseRows(cs[1..])
  }

  /**
   * SQLite's default (binary) collation on text: code point by code point,
   * a prefix before any longer text.
   */
  predicate NameBefore(a: string, b: string)
  {
    if |a| == 0 then true
    else if |b| == 0 then false
    else if a[0] != b[0] then a[0] < b[0]
    else NameBefore(a[1..], b[1..])
  }

  lemma {:induction false} NameBeforeTotal(a: string, b: string)
    ensures NameBefore(a, b) || NameBefore(b, a)
  {
    if |a| > 0 && |b| > 0 && a[0] == b[0] {
      NameBeforeTotal(a[1..], b[1..]);
    }
  }

  lemma {:induction false} NameBeforeTrans(a: string, b: string, c: string)
    requires NameBefore(a, b) && NameBefore(b, c)
    ensures NameBefore(a, c)
  {
    if |a| > 0 && |b| > 0 && |c| > 0 && a[0] == b[0] && b[0] == c[0] {
      NameBeforeTrans(a[1..], b[1..], c[1..]);
    }
  }

  /** Two names that each come before the other are the same name. */
  lemma {:induction false} NameBeforeAntisym(a: string, b: string)
    requires NameBefore(a, b) && NameBefore(b, a)
    ensures a == b
  {
    if |a| > 0 && |b| > 0 {
      NameBeforeAntisym(a[1..], b[1..]);
      assert a == [a[0]] + a[1..] && b == [b[0]] + b[1..];
    }
  }

  predicate SortedByName(cs: seq<Category>)
  {
    forall i, j :: 0 <= i < j < |cs| ==> NameBefore(cs[i].name, cs[j].name)
  }

  /** Places `c` in a name-sorted list before the first row it comes before. */
  function InsertByName(c: Category, cs: seq<Category>): (r: seq<Category>)
    requires SortedByName(cs)
    ensures multiset(r) == multiset(cs) + multiset{c}
    ensures SortedByName(r)
  {
    if |cs| == 0 then [c]
    else if NameBefore(c.name, cs[0].name) then
      FirstBeforeAll(c, cs);
      [c] + cs
    else
      var rest := InsertByName(c, cs[1..]);
      HeadBeforeRest(c, cs, rest);
      [cs[0]] + rest
  }

  /** A row that comes before the head of a sorted list comes before all of it. */
  lemma FirstBeforeAll(c: Category, cs: seq<Category>)
    requires SortedByName(cs) && |cs| > 0 && NameBefore(c.name, cs[0].name)
    ensures SortedByName([c] + cs)
  {
    forall j | 0 < j < |cs|
      ensures NameBefore(c.name, cs[j].name)
    {
      NameBeforeTrans(c.name, cs[0].name, cs[j].name);
    }
    assert forall j :: 0 < j < |[c] + cs| ==> ([c] + cs)[j] == cs[j - 1];
  }

  /** The head of a sorted list stays in front when `c`, which does not come before it, is inserted behind it. */
  lemma HeadBeforeRest(c: Category, cs: seq<Category>, rest: seq<Category>)
    requires SortedByName(cs) && |cs| > 0 && !NameBefore(c.name, cs[0].name)
    requires SortedByName(rest) && multiset(rest) == multiset(cs[1..]) + multiset{c}
    ensures multiset([cs[0]] + rest) == multiset(cs) + multiset{c}
    ensures SortedByName([cs[0]] + rest)
  {
    assert cs == [cs[0]] + cs[1..];
    forall x | x in rest
      ensures NameBefore(cs[0].name, x.name)
    {
      assert x in multiset(rest);
      if x == c {
        NameBeforeTotal(c.name, cs[0].name);
      } else {
        assert x in multiset(cs[1..]);
        var j :| 0 <= j < |cs[1..]| && cs[1..][j] == x;
        assert cs[j + 1] == x;
      }
    }
    assert forall j :: 0 < j < |[cs[0]] + rest| ==> ([cs[0]] + rest)[j] in rest;
  }

  /** The rows ordered by name, as `ORDER BY name` returns them. */
  function SortByName(cs: seq<Category>): (r: seq<Category>)
    ensures multiset(r) == multiset(cs)
    ensures SortedByName(r)
  {
    if |cs| == 0 then []
    else
      assert cs == [cs[0]] + cs[1..];
      InsertByName(cs[0], SortByName(cs[1..]))
  }

  /** `SELECT * FROM categories WHERE type = "expense" ORDER BY name`. */
  function ExpenseCategories(cs: seq<Category>): (r: seq<Category>)
    ensures multiset(r) == multiset(ExpenseRows(cs))
    ensures forall c :: c in r <==> c in cs && c.kind == "expense"
    ensures SortedByName(r)
  {
    var r := SortByName(ExpenseRows(cs));
    assert forall c :: c in r <==> c in multiset(ExpenseRows(cs));
    r
  }

  /** With unique names, the page's list has each expense category exactly once, in strictly increasing name order. */
  lemma ExpenseCategoriesOrdered(cs: seq<Category>)
    requires UniqueNames(cs)
    ensures forall i, j :: 0 <= i < j < |ExpenseCategories(cs)| ==>
      ExpenseCategories(cs)[i].name != ExpenseCategories(cs)[j].name
      && NameBefore(ExpenseCategories(cs)[i].name, ExpenseCategories(cs)[j].name)
  {
    var r := ExpenseCategories(cs);
    forall i, j | 0 <= i < j < |r|
      ensures r[i].name != r[j].name
    {
      if r[i].name == r[j].name {
        assert r[i] in cs && r[j] in cs;
        SameNameSameRow(cs, r[i], r[j]);
        SecondCopy(r, i, j);
        UniqueOnce(cs, r[i]);
        assert false;
      }
    }
    forall i, j | 0 <= i < j < |r|
      ensures NameBefore(r[i].name, r[j].name)
    {
    }
  }

  /** Among rows with unique names, one name picks one row. */
  lemma SameNameSameRow(cs: seq<Category>, a: Category, b: Category)
    requires UniqueNames(cs) && a in cs && b in cs && a.name == b.name
    ensures a == b
  {
  }

  /** Rows with unique names are each there once. */
  lemma {:induction false} UniqueOnce(cs: seq<Category>, c: Category)
    requires UniqueNames(cs)
    ensures multiset(cs)[c] <= 1
  {
    if |cs| > 0 {
      assert cs == [cs[0]] + cs[1..];
      assert UniqueNames(cs[1..]) by {
        forall i, j | 0 <= i < j < |cs[1..]| ensures cs[1..][i].name != cs[1..][j].name {
          assert cs[1..][i] == cs[i + 1] && cs[1..][j] == cs[j + 1];
        }
      }
      UniqueOnce(cs[1..], c);
      if cs[0] == c {
        assert c !in cs[1..] by {
          forall k | 0 <= k < |cs[1..]| ensures cs[1..][k] != c {
            assert cs[1..][k] == cs[k + 1];
          }
        }
      }
    }
  }

  /** A row at two positions is there at least twice. */
  lemma SecondCopy(r: seq<Category>, i: int, j: int)
    requires 0 <= i < j < |r| && r[i] == r[j]
    ensures multiset(r)[r[i]] >= 2
  {
    assert r == r[..j] + r[j..];
    assert r[i] == r[..j][i];
    assert r[j] == r[j..][0];
  }

  /** The loop of `budgets()`: each category gets its month's spending and its share of the budget. */
  method BudgetLines(cs: seq<Category>, byCategory: map<string, real>) returns (lines: seq<BudgetLine>)
    ensures |lines| == |cs|
    ensures forall i :: 0 <= i < |cs| ==> lines[i].category == cs[i] && lines[i].spent == SpentOn(byCategory, cs[i].name)
    ensures forall i :: 0 <= i < |cs| ==> cs[i].budget <= 0.0 ==> lines[i].percentage == 0.0
    ensures forall i :: 0 <= i < |cs| ==> cs[i].budget > 0.0 ==> lines[i].percentage * cs[i].budget == lines[i].spent * 100.0
    ensures forall i :: 0 <= i < |cs| ==> lines[i].percentage == Percentage(lines[i].spent, cs[i].budget)
  {
    lines := [];
    for i := 0 to |cs|
      invariant |lines| == i
      invariant forall k :: 0 <= k < i ==> lines[k].category == cs[k] && lines[k].spent == SpentOn(byCategory, cs[k].name)
      invariant forall k :: 0 <= k < i ==> lines[k].percentage == Percentage(lines[k].spent, cs[k].budget)
    {
      var spent := SpentOn(byCategory, cs[i].name);
      var percentage := if cs[i].budget > 0.0 then spent / cs[i].budget * 100.0 else 0.0;
      lines := lines + [BudgetLine(cs[i], spent, percentage)];
    }
  }

  /** `budgets()`: the expense categories with the current month's spending. */
  method BudgetsPage(tool: FinanceTool.Tool, clock: FinanceTool.Clock) returns (lines: seq<BudgetLine>)
    requires tool.Valid()
    modifies tool.db
    ensures tool.Valid() && unchanged(tool.db)
    ensures |lines| == |ExpenseCategories(tool.db.categories)|
    ensures forall i :: 0 <= i < |lines| ==> lines[i].category == ExpenseCategories(tool.db.categories)[i]
    ensures forall i :: 0 <= i < |lines| ==> lines[i].category.kind == "expense" && lines[i].category in tool.db.categories
    ensures forall i, j :: 0 <= i < j < |lines| ==>
      NameBefore(lines[i].category.name, lines[j].category.name) && lines[i].category.name != lines[j].category.name
    ensures forall i :: 0 <= i < |lines| ==> lines[i].percentage == Percentage(lines[i].spent, lines[i].category.budget)
    ensures forall i :: 0 <= i < |lines| ==> lines[i].category.budget <= 0.0 ==> lines[i].percentage == 0.0
    ensures forall i :: 0 <= i < |lines| ==>
      lines[i].spent == SpendingIn(tool.db.transactions, clock, lines[i].category.name)
  {
    var cs := ExpenseCategories(tool.db.categories);
    var summary := tool.Execute("get_summary", NoArgs.(month := Some(clock.month)), clock);
    var byCategory := if summary.MonthSummary? then summary.byCategory else map[];
    lines := BudgetLines(cs, byCategory);
    ExpenseCategoriesOrdered(tool.db.categories);
    forall i | 0 <= i < |lines|
      ensures lines[i].category in tool.db.categories
    {
      assert cs[i] in cs;
    }
  }

  /** What the current month's summary reports as spent on a category, 0 when nothing was. */
  function SpendingIn(ts: seq<Txn>, clock: FinanceTool.Clock, name: string): real
    requires UniqueIds(ts)
  {
    SpentOn(FinanceTool.Summary(ts, NoArgs.(month := Some(clock.month)), clock).byCategory, name)
  }

  // ---------------------------------------------------------------------
  // The spending chart
  // ---------------------------------------------------------------------

  /** The four series of `api_spending_chart`. */
  datatype Chart = Chart(labels: seq<string>, income: seq<real>, expenses: seq<real>, net: seq<real>)

  /**
   * The dates the chart looks at: for `i` from 0, the month ("%Y-%m") and the
   * label ("%b %Y") of the day 30·i days before now.
   */
  type Calendar = nat -> (string, string)

  /** The summary of the month `i` steps back. */
  function MonthBack(ts: seq<Txn>, calendar: Calendar, clock: FinanceTool.Clock, i: nat): FinanceTool.Response
    requires UniqueIds(ts)
  {
    FinanceTool.Summary(ts, NoArgs.(month := Some(calendar(i).0)), clock)
  }

  /** The chart after the first `k` turns of the loop, which visits 5, 4, …, 0 steps back. */
  function ChartUpTo(ts: seq<Txn>, calendar: Calendar, clock: FinanceTool.Clock, k: nat): Chart
    requires UniqueIds(ts) && k <= 6
  {
    if k == 0 then Chart([], [], [], [])
    else
      var c := ChartUpTo(ts, calendar, clock, k - 1);
      var r := MonthBack(ts, calendar, clock, 6 - k);
      Chart(c.labels + [calendar(6 - k).1], c.income + [r.income], c.expenses + [r.expenses], c.net + [r.net])
  }

  /** The four series have one point per `Calendar` index (30·i days back), six in all, the oldest first. */
  lemma {:induction false} ChartShape(ts: seq<Txn>, calendar: Calendar, clock: FinanceTool.Clock, k: nat)
    requires UniqueIds(ts) && k <= 6
    ensures var c := ChartUpTo(ts, calendar, clock, k);
      && |c.labels| == |c.income| == |c.expenses| == |c.net| == k
      && forall j :: 0 <= j < k ==>
           && c.labels[j] == calendar(5 - j).1
           && c.income[j] == MonthBack(ts, calendar, clock, 5 - j).income
           && c.expenses[j] == MonthBack(ts, calendar, clock, 5 - j).expenses
           && c.net[j] == c.income[j] - c.expenses[j]
  {
    if k > 0 {
      ChartShape(ts, calendar, clock, k - 1);
    }
  }

  /** `api_spending_chart`: one point per summary that succeeds, from five months back to now. */
  method SpendingChart(tool: FinanceTool.Tool, calendar: Calendar, clock: FinanceTool.Clock) returns (chart: Chart)
    requires tool.Valid()
    modifies tool.db
    ensures tool.Valid() && unchanged(tool.db)
    ensures chart == ChartUpTo(tool.db.transactions, calendar, clock, 6)
  {
    chart := Chart([], [], [], []);
    for k := 0 to 6
      invariant tool.Valid() && unchanged(tool.db)
      invariant chart == ChartUpTo(tool.db.transactions, calendar, clock, k)
    {
      var i := 5 - k;
      var summary := tool.Execute("get_summary", NoArgs.(month := Some(calendar(i).0)), clock);
      if summary.MonthSummary? {
        chart := Chart(chart.labels + [calendar(i).1], chart.income + [summary.income],
                       chart.expenses + [summary.expenses], chart.net + [summary.net]);
      }
    }
  }
}
