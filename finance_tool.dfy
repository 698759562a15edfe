/**
 * The personal-finance MCP tool: one `execute` entry point that dispatches
 * an action name to the handler of that action over the finance database,
 * and turns every failure into an unsuccessful reply instead of raising.
 */
module FinanceTool {
  import opened Text
  import opened Ledger

  /** The keyword arguments of one call; `None` for an argument not passed. */
  datatype Args = Args(
    amount: Option<real>, category: Option<string>, description: Option<string>,
    kind: Option<string>, date: Option<string>, limit: Option<int>, month: Option<string>,
    days: Option<int>, goalName: Option<string>, targetAmount: Option<real>,
    targetDate: Option<string>, format: Option<string>)

  /**
   * The clock readings the handlers take: today as YYYY-MM-DD, the current
   * month as YYYY-MM, the first day of the month, and today as YYYYMMDD.
   */
  datatype Clock = Clock(today: string, month: string, firstOfMonth: string, stamp: string)

  /** One category of the spending report: its number of expenses and their sum. */
  datatype ReportRow = ReportRow(transactions: nat, total: real)

  /** A goal row together with its computed `progress_percent`. */
  datatype GoalView = GoalView(goal: Goal, progressPercent: real)

  /**
   * The reply dictionary. Every constructor but `Failure` and `Raised` is
   * a `success: True` reply; `Raised` is the `success: False` reply built
   * from an exception, whose message is not modelled.
   */
  datatype Response =
    | TxnAdded(id: nat, kind: string, amount: real, category: string)
    | TxnList(transactions: seq<Txn>, count: nat)
    | MonthSummary(period: string, income: real, expenses: real, net: real, byCategory: map<string, real>, savingsRate: real)
    | Spending(report: map<string, ReportRow>, periodDays: int)
    | GoalAdded(goalId: nat, name: string, target: real)
    | GoalList(goals: seq<GoalView>)
    | Exported(file: string, recordCount: nat)
    | Failure(error: string)
    | Raised

  // ---------------------------------------------------------------------
  // Dispatch
  // ---------------------------------------------------------------------

  /** The branches of `execute`; `UnknownAction` is its final `else`. */
  datatype Action =
    | AddTransaction | GetTransactions | GetSummary | SetBudget | GetBudget | AddGoal
    | GetGoals | SpendingReport | MonthlySummary | ExportData | UnknownAction

  function ActionOf(name: string): (a: Action)
    ensures a == UnknownAction <==>
      name !in {"add_transaction", "get_transactions", "get_summary", "set_budget", "get_budget",
                "add_goal", "get_goals", "spending_report", "monthly_summary", "export_data"}
  {
    if name == "add_transaction" then AddTransaction
    else if name == "get_transactions" then GetTransactions
    else if name == "get_summary" then GetSummary
    else if name == "set_budget" then SetBudget
    else if name == "get_budget" then GetBudget
    else if name == "add_goal" then AddGoal
    else if name == "get_goals" then GetGoals
    else if name == "spending_report" then SpendingReport
    else if name == "monthly_summary" then MonthlySummary
    else if name == "export_data" then ExportData
    else UnknownAction
  }

  /** Branches whose handler method the tool does not define, so calling it raises. */
  predicate Undefined(a: Action)
  {
    a == SetBudget || a == GetBudget || a == MonthlySummary
  }

  /** The action names the tool's JSON schema advertises. */
  const SchemaActions: seq<string> := [
    "add_transaction", "get_transactions", "get_summary", "set_budget", "get_budget",
    "add_goal", "update_goal", "get_goals", "get_categories", "spending_report",
    "monthly_summary", "export_data", "import_csv"]

  /**
   * Three advertised actions have no branch at all, and three more reach a
   * handler that does not exist: only seven of the thirteen can succeed.
   */
  lemma SchemaMismatch()
    ensures forall a :: a in ["update_goal", "get_categories", "import_csv"] ==> a in SchemaActions && ActionOf(a) == UnknownAction
    ensures forall a :: a in ["set_budget", "get_budget", "monthly_summary"] ==> a in SchemaActions && Undefined(ActionOf(a))
  {
    assert SchemaActions[6] == "update_goal" && SchemaActions[8] == "get_categories" && SchemaActions[12] == "import_csv";
    assert SchemaActions[3] == "set_budget" && SchemaActions[4] == "get_budget" && SchemaActions[10] == "monthly_summary";
  }

  // ---------------------------------------------------------------------
  // Handlers as functions of the tables
  // ---------------------------------------------------------------------

  /** A string argument used as a filter: `None` and "" both switch it off. */
  function Given(o: Option<string>): string
  {
    GetOr(o, "")
  }

  /** The row `_add_transaction` inserts, before the type CHECK: type "expense", description "" and today's date by default. */
  function NewTxn(id: nat, amount: real, category: string, args: Args, today: string): Txn
  {
    Txn(id, GetOr(args.date, today), amount, category, GetOr(args.description, ""), GetOr(args.kind, "expense"))
  }

  /** Given only an amount and a category, the row is an expense dated today with no description. */
  lemma AddTransactionDefaults(id: nat, amount: real, category: string, args: Args, today: string)
    requires args.description.None? && args.kind.None? && args.date.None?
    ensures NewTxn(id, amount, category, args, today) == Txn(id, today, amount, category, "", "expense")
    ensures IsKind(NewTxn(id, amount, category, args, today).kind)
  {
  }

  /** `_get_transactions`: the newest rows of the filters in force, at most `limit` (10 by default) of them. */
  function ListTransactions(ts: seq<Txn>, args: Args): (r: Response)
    requires UniqueIds(ts)
    ensures r.TxnList? && r.count == |r.transactions|
    ensures GetOr(args.limit, 10) >= 0 ==> r.count <= GetOr(args.limit, 10)
    ensures forall x :: x in r.transactions ==> x in ts && Selected(x, Given(args.category), Given(args.month))
    ensures r.transactions == Listing(ts, Given(args.category), Given(args.month), GetOr(args.limit, 10))
  {
    var rows := Listing(ts, Given(args.category), Given(args.month), GetOr(args.limit, 10));
    TxnList(rows, |rows|)
  }

  /** The month a summary covers: the `month` argument, or the current month when it is missing or empty. */
  function Period(args: Args, clock: Clock): string
  {
    if Given(args.month) != "" then args.month.value else clock.month
  }

  /** `_get_summary` over the month `Period` picks. */
  function Summary(ts: seq<Txn>, args: Args, clock: Clock): (r: Response)
    ensures r.MonthSummary? && r.period == Period(args, clock)
    ensures r.income == Spent(ts, "income", r.period, None) && r.expenses == Spent(ts, "expense", r.period, None)
    ensures r.net == r.income - r.expenses
    ensures r.income > 0.0 ==> r.savingsRate == r.net / r.income * 100.0
    ensures r.income <= 0.0 ==> r.savingsRate == 0.0
    ensures forall c :: c in r.byCategory <==> HasExpense(ts, r.period, c)
    ensures forall c :: c in r.byCategory ==> r.byCategory[c] == Spent(ts, "expense", r.period, Some(c))
  {
    var period := Period(args, clock);
    var income := Spent(ts, "income", period, None);
    var expenses := Spent(ts, "expense", period, None);
    ByCategoryExact(ts, period);
    MonthSummary(period, income, expenses, income - expenses, ByCategory(ts, period), SavingsRate(income, expenses))
  }

  /** The first day of the spending report: the first of the month from 30 days up, otherwise today. */
  function WindowStart(days: int, clock: Clock): (start: string)
    ensures days >= 30 ==> start == clock.firstOfMonth
    ensures days < 30 ==> start == clock.today
  {
    if days >= 30 then clock.firstOfMonth else clock.today
  }

  /** An expense dated on or after `start`, comparing dates as text as SQLite does. */
  predicate InWindow(t: Txn, start: string)
  {
    t.kind == "expense" && !TextLess(t.date, start)
  }

  /** `SELECT category, COUNT(*), SUM(amount) ... GROUP BY category` over the window. */
  function Report(ts: seq<Txn>, start: string): map<string, ReportRow>
  {
    if |ts| == 0 then map[]
    else
      var m := Report(ts[1..], start);
      var t := ts[0];
      if InWindow(t, start) then
        var row := if t.category in m then m[t.category] else ReportRow(0, 0.0);
        m[t.category := ReportRow(row.transactions + 1, row.total + t.amount)]
      else m
  }

  /** The rows of one category in the window, in table order. */
  function WindowRows(ts: seq<Txn>, start: string, category: string): seq<Txn>
  {
    if |ts| == 0 then []
    else (if InWindow(ts[0], start) && ts[0].category == category then [ts[0]] else []) + WindowRows(ts[1..], start, category)
  }

  function Total(ts: seq<Txn>): real
  {
    if |ts| == 0 then 0.0 else ts[0].amount + Total(ts[1..])
  }

  /**
   * The report has a row exactly for the categories with an expense in the
   * window, holding their number and their sum; so no row has a zero count
   * and every `average` is defined.
   */
  lemma {:induction false} ReportExact(ts: seq<Txn>, start: string)
    ensures forall c :: c in Report(ts, start) <==> |WindowRows(ts, start, c)| > 0
    ensures forall c :: c in Report(ts, start) ==>
      Report(ts, start)[c] == ReportRow(|WindowRows(ts, start, c)|, Total(WindowRows(ts, start, c)))
  {
    if |ts| > 0 {
      ReportExact(ts[1..], start);
      var t := ts[0];
      forall c | !InWindow(t, start) || c != t.category
        ensures WindowRows(ts, start, c) == WindowRows(ts[1..], start, c)
      {
        assert [] + WindowRows(ts[1..], start, c) == WindowRows(ts[1..], start, c);
      }
      if InWindow(t, start) {
        var w := WindowRows(ts[1..], start, t.category);
        assert WindowRows(ts, start, t.category) == [t] + w;
        assert ([t] + w)[0] == t && ([t] + w)[1..] == w;
        assert Total([t] + w) == t.amount + Total(w);
        if t.category !in Report(ts[1..], start) {
          assert w == [];
        }
      }
    }
  }

  /** `_spending_report`: the report over the window; `days` is echoed and otherwise only picks the window. */
  function SpendingOf(ts: seq<Txn>, args: Args, clock: Clock): (r: Response)
    ensures r.Spending? && r.periodDays == GetOr(args.days, 30)
  {
    var days := GetOr(args.days, 30);
    Spending(Report(ts, WindowStart(days, clock)), days)
  }

  /** Two day counts on the same side of 30 give the same report. */
  lemma DaysOnlyPickWindow(ts: seq<Txn>, a: Args, b: Args, clock: Clock)
    requires (GetOr(a.days, 30) >= 30) == (GetOr(b.days, 30) >= 30)
    ensures SpendingOf(ts, a, clock).report == SpendingOf(ts, b, clock).report
  {
  }

  /** `progress_percent`: the share of the target saved, 0 for a target that is not positive. */
  function Progress(g: Goal): real
  {
    if g.target > 0.0 then g.current / g.target * 100.0 else 0.0
  }

  /** Progress runs from 0 to 100 while the saved amount stays within the target. */
  lemma ProgressBounds(g: Goal)
    requires g.target > 0.0 && 0.0 <= g.current <= g.target
    ensures 0.0 <= Progress(g) <= 100.0
    ensures Progress(g) == 100.0 <==> g.current == g.target
  {
    var q := g.current / g.target;
    assert q * g.target == g.current;
    if q > 1.0 {
      assert (q - 1.0) * g.target > 0.0;
    }
    if q == 1.0 {
      assert g.current == g.target;
    }
    if g.current == g.target {
      assert q == 1.0;
    }
  }

  /** The goals newest first (creation order reversed), each with its progress. */
  function GoalListing(goals: seq<Goal>): seq<GoalView>
  {
    seq(|goals|, i requires 0 <= i < |goals| => GoalView(goals[|goals| - 1 - i], Progress(goals[|goals| - 1 - i])))
  }

  /**
   * Every listed goal is a stored goal with its own progress; where the
   * saved amount lies within a positive target (as with goals partly
   * saved outside the tool), that progress runs from 0 to 100 and is 100
   * exactly for a reached goal.
   */
  lemma ListedGoalsProgress(goals: seq<Goal>)
    requires forall g :: g in goals ==> g.target > 0.0 && 0.0 <= g.current <= g.target
    ensures forall v :: v in GoalListing(goals) ==>
      && v.goal in goals && v.progressPercent == Progress(v.goal)
      && 0.0 <= v.progressPercent <= 100.0
      && (v.progressPercent == 100.0 <==> v.goal.current == v.goal.target)
  {
    forall v | v in GoalListing(goals)
      ensures v.goal in goals && v.progressPercent == Progress(v.goal)
      ensures 0.0 <= v.progressPercent <= 100.0
      ensures v.progressPercent == 100.0 <==> v.goal.current == v.goal.target
    {
      var i :| 0 <= i < |GoalListing(goals)| && GoalListing(goals)[i] == v;
      assert v.goal == goals[|goals| - 1 - i];
      ProgressBounds(v.goal);
    }
  }

  /** A goal with a quarter of its target saved reports 25% progress. */
  lemma QuarterSavedGoal(id: nat, name: string, date: Option<string>)
    ensures Progress(Goal(id, name, 10000.0, 2500.0, date)) == 25.0
    ensures Progress(Goal(id, name, 3000.0, 750.0, date)) == 25.0
    ensures Progress(Goal(id, name, 2500.0, 500.0, date)) == 20.0
  {
  }

  /**
   * No operation of the tool ever raises a goal's saved amount, so every
   * goal the tool alone has written is listed with no progress.
   */
  lemma ListedGoalsHaveNoProgress(goals: seq<Goal>)
    requires forall g :: g in goals ==> g.current == 0.0
    ensures forall v :: v in GoalListing(goals) ==> v.progressPercent == 0.0 && v.goal in goals
  {
    forall v | v in GoalListing(goals)
      ensures v.progressPercent == 0.0 && v.goal in goals
    {
      var i :| 0 <= i < |GoalListing(goals)| && GoalListing(goals)[i] == v;
      assert v.goal == goals[|goals| - 1 - i];
    }
  }

  /** `_get_goals`: the rows newest first, then the progress loop over them. */
  method GoalViews(goals: seq<Goal>) returns (views: seq<GoalView>)
    ensures views == GoalListing(goals)
  {
    views := [];
    var i := 0;
    while i < |goals|
      invariant 0 <= i <= |goals|
      invariant |views| == i
      invariant forall k :: 0 <= k < i ==> views[k] == GoalListing(goals)[k]
    {
      var g := goals[|goals| - 1 - i];
      var progress := 0.0;
      if g.target > 0.0 {
        progress := g.current / g.target * 100.0;
      }
      views := views + [GoalView(g, progress)];
      i := i + 1;
    }
  }

  /** `_export_data`: only "csv" (the default) is supported, and it reports every row. */
  function Export(ts: seq<Txn>, args: Args, dataPath: string, clock: Clock): (r: Response)
    ensures GetOr(args.format, "csv") == "csv" <==> r.Exported?
    ensures r.Exported? ==> r.recordCount == |ts| && EndsWith(r.file, ".csv")
    ensures !r.Exported? ==> r == Failure("Unsupported export format")
  {
    if GetOr(args.format, "csv") == "csv" then
      var file := dataPath + "/transactions_export_" + clock.stamp + ".csv";
      assert file[|file| - 4..] == ".csv";
      Exported(file, |ts|)
    else Failure("Unsupported export format")
  }

  // ---------------------------------------------------------------------
  // The tool
  // ---------------------------------------------------------------------

  class Tool {
    const dataPath: string
    const db: Database

    ghost predicate Valid()
      reads this, db
    {
      db.Valid()
    }

    /** Opens the database file (whatever it already holds) and adds the default categories it lacks. */
    constructor(dataPath: string, db: Database)
      requires db.Valid()
      modifies db
      ensures this.dataPath == dataPath && this.db == db && Valid()
      ensures Names(db.categories) == Names(old(db.categories)) + Names(DefaultCategories)
      ensures db.transactions == old(db.transactions) && db.goals == old(db.goals)
    {
      this.dataPath := dataPath;
      this.db := db;
      new;
      db.SetupCategories();
    }

    /** `_add_transaction`: raises without an amount or a category, or when the type fails its CHECK. */
    method AddTransactionCall(args: Args, clock: Clock) returns (r: Response)
      requires Valid()
      modifies db
      ensures Valid()
      ensures
        if args.amount.None? || args.category.None?
           || !IsKind(NewTxn(0, args.amount.value, args.category.value, args, clock.today).kind)
        then r == Raised && unchanged(db)
        else
          var t := NewTxn(old(db.nextTxnId), args.amount.value, args.category.value, args, clock.today);
          && r == TxnAdded(t.id, t.kind, t.amount, t.category)
          && db.transactions == old(db.transactions) + [t]
          && db.goals == old(db.goals) && db.categories == old(db.categories)
    {
      if args.amount.None? || args.category.None? {
        return Raised;
      }
      var t := NewTxn(db.nextTxnId, args.amount.value, args.category.value, args, clock.today);
      var id := db.InsertTransaction(t.date, t.amount, t.category, t.description, t.kind);
      if id.None? {
        return Raised;
      }
      r := TxnAdded(id.value, t.kind, t.amount, t.category);
    }

    /** `_add_goal`: raises without a name or a target; the goal starts with nothing saved. */
    method AddGoalCall(args: Args) returns (r: Response)
      requires Valid()
      modifies db
      ensures Valid()
      ensures
        if args.goalName.None? || args.targetAmount.None? then r == Raised && unchanged(db)
        else
          && r == GoalAdded(old(db.nextGoalId), args.goalName.value, args.targetAmount.value)
          && db.goals == old(db.goals) + [Goal(old(db.nextGoalId), args.goalName.value, args.targetAmount.value, 0.0, args.targetDate)]
          && db.transactions == old(db.transactions) && db.categories == old(db.categories)
    {
      if args.goalName.None? || args.targetAmount.None? {
        return Raised;
      }
      var id := db.InsertGoal(args.goalName.value, args.targetAmount.value, args.targetDate);
      r := GoalAdded(id, args.goalName.value, args.targetAmount.value);
    }

    /** `_get_transactions`: builds the query clause by clause, then selects its rows. */
    method GetTransactionsCall(args: Args) returns (r: Response)
      requires Valid()
      ensures r == ListTransactions(db.transactions, args)
    {
      var clauses, params := BuildListingQuery(Given(args.category), Given(args.month), GetOr(args.limit, 10));
      var rows := Listing(db.transactions, Given(args.category), Given(args.month), GetOr(args.limit, 10));
      r := TxnList(rows, |rows|);
    }

    /**
     * `execute`: never raises. An unknown action name is reported as such,
     * a handler that is missing or raises gives `Raised`, and only the two
     * adding actions change the database.
     */
    method Execute(action: string, args: Args, clock: Clock) returns (r: Response)
      requires Valid()
      modifies db
      ensures Valid()
      ensures ActionOf(action) == UnknownAction ==> r == Failure("Unknown action: " + action)
      ensures Undefined(ActionOf(action)) ==> r == Raised
      ensures ActionOf(action) != AddTransaction && ActionOf(action) != AddGoal ==> unchanged(db)
      ensures ActionOf(action) == GetTransactions ==> r == ListTransactions(db.transactions, args)
      ensures ActionOf(action) == GetSummary ==> r == Summary(db.transactions, args, clock)
      ensures ActionOf(action) == SpendingReport ==> r == SpendingOf(db.transactions, args, clock)
      ensures ActionOf(action) == GetGoals ==> r == GoalList(GoalListing(db.goals))
      ensures ActionOf(action) == ExportData ==> r == Export(db.transactions, args, dataPath, clock)
      ensures ActionOf(action) == AddTransaction ==>
        if args.amount.None? || args.category.None?
           || !IsKind(NewTxn(0, args.amount.value, args.category.value, args, clock.today).kind)
        then r == Raised && unchanged(db)
        else
          var t := NewTxn(old(db.nextTxnId), args.amount.value, args.category.value, args, clock.today);
          && r == TxnAdded(t.id, t.kind, t.amount, t.category)
          && db.transactions == old(db.transactions) + [t]
          && db.goals == old(db.goals) && db.categories == old(db.categories)
      ensures ActionOf(action) == AddGoal ==>
        if args.goalName.None? || args.targetAmount.None? then r == Raised && unchanged(db)
        else
          && r == GoalAdded(old(db.nextGoalId), args.goalName.value, args.targetAmount.value)
          && db.goals == old(db.goals) + [Goal(old(db.nextGoalId), args.goalName.value, args.targetAmount.value, 0.0, args.targetDate)]
          && db.transactions == old(db.transactions) && db.categories == old(db.categories)
    {
      var a := ActionOf(action);
      if a == AddTransaction {
        r := AddTransactionCall(args, clock);
      } else if a == AddGoal {
        r := AddGoalCall(args);
      } else if a == GetTransactions {
        r := GetTransactionsCall(args);
      } else if a == GetSummary {
        r := Summary(db.transactions, args, clock);
      } else if a == GetGoals {
        var views := GoalViews(db.goals);
        r := GoalList(views);
      } else if a == SpendingReport {
        r := SpendingOf(db.transactions, args, clock);
      } else if a == ExportData {
        r := Export(db.transactions, args, dataPath, clock);
      } else if Undefined(a) {
        r := Raised;
      } else {
        r := Failure("Unknown action: " + action);
      }
    }
  }
}
