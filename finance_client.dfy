/**
 * The finance MCP client: LangChain tool functions that turn a request
 * string into tool arguments, call the (simulated) finance server and render
 * its reply as text, plus the keyword agent that picks one of those tools.
 */
module FinanceClient {
  import opened Text

  /**
   * Number formatting and parsing: `str(x)` of a float, `f"{x:.2f}"`,
   * `f"{x:.1f}"`, `float(s)` (`None` when it raises ValueError) and the
   * message of that ValueError.
   */
  datatype Numbers = Numbers(
    str: real -> string, fixed2: real -> string, fixed1: real -> string,
    read: string -> Option<real>, readError: string -> string)

  /** A transaction as the server lists it. */
  datatype Entry = Entry(date: string, amount: real, category: string, kind: string, description: string)

  /** One entry of the server's `budget_status`. */
  datatype Status = Status(category: string, budget: real, spent: real, remaining: real, percentage: real)

  /** The arguments a tool function passes on; `None` for a key it leaves out. */
  datatype Params = Params(
    amount: Option<real>, category: Option<string>, description: Option<string>,
    kind: Option<string>, limit: Option<int>, month: Option<string>)

  const NoParams := Params(None, None, None, None, None, None)

  /** The reply dictionaries of the server tools; `Failed` is `success: False`. */
  datatype ToolReply =
    | Added(message: string)
    | Listed(transactions: seq<Entry>)
    | Summarised(period: string, income: real, expenses: real, net: real, savingsRate: real, byCategory: seq<(string, real)>)
    | Budget(month: string, alerts: seq<string>, statuses: seq<Status>)
    | Failed(error: string)

  // ---------------------------------------------------------------------
  // Rendering lines
  // ---------------------------------------------------------------------

  /** Text built by appending each line followed by a newline. */
  function Lines(ls: seq<string>): string
  {
    if |ls| == 0 then "" else ls[0] + "\n" + Lines(ls[1..])
  }

  lemma {:induction false} LinesSnoc(ls: seq<string>, l: string)
    ensures Lines(ls + [l]) == Lines(ls) + l + "\n"
  {
    if |ls| == 0 {
      assert ls + [l] == [l];
    } else {
      assert (ls + [l])[1..] == ls[1..] + [l];
      LinesSnoc(ls[1..], l);
    }
  }

  lemma {:induction false} LinesAppend(a: seq<string>, b: seq<string>)
    ensures Lines(a + b) == Lines(a) + Lines(b)
  {
    if |a| == 0 {
      assert a + b == b;
    } else {
      assert (a + b)[1..] == a[1..] + b;
      LinesAppend(a[1..], b);
    }
  }

  /** Lines without a newline of their own split back into themselves, plus the empty text after the last newline. */
  lemma {:induction false} SplitLines(ls: seq<string>)
    requires forall i :: 0 <= i < |ls| ==> '\n' !in ls[i]
    ensures Split(Lines(ls), "\n") == ls + [""]
  {
    if |ls| == 0 {
      SplitNone("", "\n", 0);
    } else {
      SplitLines(ls[1..]);
      SplitAfter(ls[0], "\n", Lines(ls[1..]), 0);
      ConsAppend(ls, [""]);
    }
  }

  function Min(a: nat, b: nat): nat
  {
    if a < b then a else b
  }

  // ---------------------------------------------------------------------
  // call_mcp_tool: the simulated server
  // ---------------------------------------------------------------------

  const DemoEntries: seq<Entry> := [
    Entry("2025-08-07", 85.50, "Food & Dining", "expense", "Groceries"),
    Entry("2025-08-06", 3500.00, "Salary", "income", "Monthly salary"),
    Entry("2025-08-05", 45.00, "Transportation", "expense", "Gas")]

  const DemoSummary := Summarised("2025-08", 3500.00, 143.49, 3356.51, 95.9,
    [("Food & Dining", 85.50), ("Transportation", 45.00), ("Entertainment", 12.99)])

  const DemoBudget := Budget("2025-08", ["⚠️ WARNING: Food & Dining (17.1%)"],
    [Status("Food & Dining", 500.0, 85.50, 414.50, 17.1), Status("Transportation", 300.0, 45.00, 255.00, 15.0)])

  /** The four tool names the client knows. */
  predicate KnownTool(tool: string)
  {
    tool == "add_transaction" || tool == "get_transactions" || tool == "get_financial_summary" || tool == "get_budget_status"
  }

  /**
   * `call_mcp_tool`: canned replies for the four known tools, whatever the
   * arguments (only the add message echoes them), and an error for any
   * other name.
   */
  function CallMcpTool(n: Numbers, tool: string, params: Params): (r: ToolReply)
    ensures r.Failed? <==> !KnownTool(tool)
    ensures r.Failed? ==> r.error == "Unknown tool: " + tool
    ensures tool == "get_transactions" ==> r == Listed(DemoEntries)
  {
    if tool == "add_transaction" then Added("Added " + GetOr(params.kind, "expense") + " of $" + n.fixed2(GetOr(params.amount, 0.0)))
    else if tool == "get_transactions" then Listed(DemoEntries)
    else if tool == "get_financial_summary" then DemoSummary
    else if tool == "get_budget_status" then DemoBudget
    else Failed("Unknown tool: " + tool)
  }

  /** The text a tool function returns for an unsuccessful reply. */
  function ErrorText(r: ToolReply): string
  {
    "❌ Error: " + (if r.Failed? then r.error else "Unknown error")
  }

  // ---------------------------------------------------------------------
  // add_transaction_tool
  // ---------------------------------------------------------------------

  /** What a word of a free-text request does, by the first test it passes. */
  datatype Role = AmountWord | IncomeWord | ExpenseWord | GroceryWord | OtherWord

  function RoleOf(w: string): Role
  {
    if IsDigits(Replace(Replace(w, "$", ""), ".", "")) then AmountWord
    else if w in ["income", "salary", "pay"] then IncomeWord
    else if w in ["expense", "cost", "spend"] then ExpenseWord
    else if w in ["grocery", "groceries", "food"] then GroceryWord
    else OtherWord
  }

  /** The scan state: amount so far, category and type. */
  datatype Scan = Scan(amount: Option<real>, category: string, kind: string)

  const Unscanned := Scan(None, "general", "expense")

  /** The scan's result: its final state, or the text `float` refused. */
  datatype Scanned = Scanned(st: Scan) | BadNumber(text: string)

  function ScanWord(n: Numbers, st: Scan, w: string): Scanned
  {
    match RoleOf(w)
    case AmountWord =>
      (match n.read(Replace(w, "$", ""))
       case None => BadNumber(Replace(w, "$", ""))
       case Some(x) => Scanned(st.(amount := Some(x))))
    case IncomeWord => Scanned(st.(kind := "income"))
    case ExpenseWord => Scanned(st.(kind := "expense"))
    case GroceryWord => Scanned(st.(category := "groceries"))
    case OtherWord => Scanned(st)
  }

  function ScanWords(n: Numbers, st: Scan, ws: seq<string>): Scanned
    decreases |ws|
  {
    if |ws| == 0 then Scanned(st)
    else
      match ScanWord(n, st, ws[0])
      case BadNumber(t) => BadNumber(t)
      case Scanned(st') => ScanWords(n, st', ws[1..])
  }

  /** The position of the last word with a role among `roles`. */
  function LastOf(ws: seq<string>, roles: set<Role>): (r: Option<nat>)
    ensures r.Some? ==> r.value < |ws|
  {
    if |ws| == 0 then None
    else
      match LastOf(ws[1..], roles)
      case Some(k) => Some(k + 1)
      case None => if RoleOf(ws[0]) in roles then Some(0) else None
  }

  /** `LastOf` finds the last word with one of the roles, and none when no word has one. */
  lemma {:induction false} LastOfFinds(ws: seq<string>, roles: set<Role>)
    ensures LastOf(ws, roles).Some? ==> RoleOf(ws[LastOf(ws, roles).value]) in roles
    ensures LastOf(ws, roles).Some? ==> forall j :: LastOf(ws, roles).value < j < |ws| ==> RoleOf(ws[j]) !in roles
    ensures LastOf(ws, roles).None? ==> forall j :: 0 <= j < |ws| ==> RoleOf(ws[j]) !in roles
    decreases |ws|
  {
    if |ws| > 0 {
      var rest := ws[1..];
      LastOfFinds(rest, roles);
      forall j | 1 <= j < |ws|
        ensures RoleOf(ws[j]) == RoleOf(rest[j - 1])
      {
        assert ws[j] == rest[j - 1];
      }
    }
  }

  /** One word's effect on the scan, by its role. */
  lemma ScanWordEffect(n: Numbers, st: Scan, w: string)
    ensures RoleOf(w) == AmountWord ==>
      ScanWord(n, st, w) == (if n.read(Replace(w, "$", "")).None? then BadNumber(Replace(w, "$", ""))
                             else Scanned(st.(amount := n.read(Replace(w, "$", "")))))
    ensures RoleOf(w) == IncomeWord ==> ScanWord(n, st, w) == Scanned(st.(kind := "income"))
    ensures RoleOf(w) == ExpenseWord ==> ScanWord(n, st, w) == Scanned(st.(kind := "expense"))
    ensures RoleOf(w) == GroceryWord ==> ScanWord(n, st, w) == Scanned(st.(category := "groceries"))
    ensures RoleOf(w) == OtherWord ==> ScanWord(n, st, w) == Scanned(st)
  {
  }

  /** The amount of a finished scan is that of the last numeric word, if any. */
  lemma {:induction false} ScanAmount(n: Numbers, st: Scan, ws: seq<string>)
    requires ScanWords(n, st, ws).Scanned?
    ensures ScanWords(n, st, ws).st.amount ==
      (match LastOf(ws, {AmountWord})
       case None => st.amount
       case Some(k) => n.read(Replace(ws[k], "$", "")))
    decreases |ws|
  {
    if |ws| > 0 {
      ScanWordEffect(n, st, ws[0]);
      var st' := ScanWord(n, st, ws[0]).st;
      ScanAmount(n, st', ws[1..]);
      match LastOf(ws[1..], {AmountWord})
      case Some(k) => assert ws[1..][k] == ws[k + 1];
      case None =>
    }
  }

  /** The type of a finished scan is set by the last type keyword, if any. */
  lemma {:induction false} ScanKind(n: Numbers, st: Scan, ws: seq<string>)
    requires ScanWords(n, st, ws).Scanned?
    ensures ScanWords(n, st, ws).st.kind ==
      (match LastOf(ws, {IncomeWord, ExpenseWord})
       case None => st.kind
       case Some(k) => if RoleOf(ws[k]) == IncomeWord then "income" else "expense")
    decreases |ws|
  {
    if |ws| > 0 {
      ScanWordEffect(n, st, ws[0]);
      var st' := ScanWord(n, st, ws[0]).st;
      ScanKind(n, st', ws[1..]);
      match LastOf(ws[1..], {IncomeWord, ExpenseWord})
      case Some(k) => assert ws[1..][k] == ws[k + 1];
      case None =>
    }
  }

  /** A finished scan has category "groceries" exactly when some grocery word occurs, else keeps its own. */
  lemma {:induction false} ScanCategory(n: Numbers, st: Scan, ws: seq<string>)
    requires ScanWords(n, st, ws).Scanned?
    ensures ScanWords(n, st, ws).st.category ==
      (if LastOf(ws, {GroceryWord}).Some? then "groceries" else st.category)
    decreases |ws|
  {
    if |ws| > 0 {
      ScanWordEffect(n, st, ws[0]);
      var st' := ScanWord(n, st, ws[0]).st;
      ScanCategory(n, st', ws[1..]);
      if RoleOf(ws[0]) == GroceryWord {
        assert st'.category == "groceries";
      }
    }
  }

  /** Without a numeric word the scan cannot fail and keeps its amount. */
  lemma {:induction false} ScanNoAmount(n: Numbers, st: Scan, ws: seq<string>)
    requires LastOf(ws, {AmountWord}).None?
    ensures ScanWords(n, st, ws).Scanned? && ScanWords(n, st, ws).st.amount == st.amount
    decreases |ws|
  {
    if |ws| > 0 {
      ScanWordEffect(n, st, ws[0]);
      assert RoleOf(ws[0]) != AmountWord;
      ScanNoAmount(n, ScanWord(n, st, ws[0]).st, ws[1..]);
    }
  }

  /** A scan fails only on a numeric word that `float` refuses. */
  lemma {:induction false} ScanFails(n: Numbers, st: Scan, ws: seq<string>)
    requires ScanWords(n, st, ws).BadNumber?
    ensures exists k :: 0 <= k < |ws| && RoleOf(ws[k]) == AmountWord && n.read(Replace(ws[k], "$", "")).None?
    decreases |ws|
  {
    ScanWordEffect(n, st, ws[0]);
    if ScanWord(n, st, ws[0]).BadNumber? {
      assert RoleOf(ws[0]) == AmountWord;
    } else {
      ScanFails(n, ScanWord(n, st, ws[0]).st, ws[1..]);
      var k :| 0 <= k < |ws[1..]| && RoleOf(ws[1..][k]) == AmountWord && n.read(Replace(ws[1..][k], "$", "")).None?;
      assert ws[k + 1] == ws[1..][k];
    }
  }

  /** The scan over the words of a free-text request, word by word. */
  method ScanRequest(n: Numbers, ws: seq<string>) returns (r: Scanned)
    ensures r == ScanWords(n, Unscanned, ws)
  {
    var st := Unscanned;
    var i := 0;
    while i < |ws|
      invariant 0 <= i <= |ws|
      invariant ScanWords(n, Unscanned, ws) == ScanWords(n, st, ws[i..])
    {
      assert ws[i..][1..] == ws[i + 1..];
      var w := ws[i];
      ScanWordEffect(n, st, w);
      match RoleOf(w) {
        case AmountWord =>
          var x := n.read(Replace(w, "$", ""));
          if x.None? {
            return BadNumber(Replace(w, "$", ""));
          }
          st := st.(amount := x);
        case IncomeWord => st := st.(kind := "income");
        case ExpenseWord => st := st.(kind := "expense");
        case GroceryWord => st := st.(category := "groceries");
        case OtherWord =>
      }
      i := i + 1;
    }
    r := Scanned(st);
  }

  /** The confirmation of an added transaction. */
  function Confirmation(n: Numbers, kind: string, amount: real, category: string, description: string): string
  {
    "✅ Added " + kind + ": $" + n.str(amount) + " for " + category + " - " + description
  }

  /** The server call of a parsed request, then its confirmation or error text. */
  function Submit(n: Numbers, amount: real, category: string, description: string, kind: string): string
  {
    var reply := CallMcpTool(n, "add_transaction", Params(Some(amount), Some(category), Some(description), Some(kind), None, None));
    if reply.Failed? then ErrorText(reply) else Confirmation(n, kind, amount, category, description)
  }

  /** Every field of a pipe-separated request, stripped. */
  function Fields(query: string): (r: seq<string>)
    ensures |r| == |Split(query, "|")|
  {
    var parts := Split(query, "|");
    seq(|parts|, i requires 0 <= i < |parts| => Strip(parts[i]))
  }

  /** `add_transaction_tool`: structured when the request holds a '|', free text otherwise. */
  function AddTransactionReply(n: Numbers, query: string): string
  {
    if '|' !in query then
      match ScanWords(n, Unscanned, Words(Lower(query)))
      case BadNumber(t) => "❌ Error: " + n.readError(t)
      case Scanned(st) =>
        if st.amount.None? then "Please specify an amount for the transaction."
        else Submit(n, st.amount.value, st.category, query, st.kind)
    else
      var parts := Fields(query);
      if |parts| < 2 then "Please provide: amount|category|description|type"
      else
        match n.read(Replace(parts[0], "$", ""))
        case None => "❌ Error: " + n.readError(Replace(parts[0], "$", ""))
        case Some(amount) =>
          Submit(n, amount, parts[1], if |parts| > 2 then parts[2] else "", if |parts| > 3 then parts[3] else "expense")
  }

  method AddTransactionTool(n: Numbers, query: string) returns (reply: string)
    ensures reply == AddTransactionReply(n, query)
  {
    if '|' !in query {
      var scanned := ScanRequest(n, Words(Lower(query)));
      if scanned.BadNumber? {
        return "❌ Error: " + n.readError(scanned.text);
      }
      if scanned.st.amount.None? {
        return "Please specify an amount for the transaction.";
      }
      reply := Submit(n, scanned.st.amount.value, scanned.st.category, query, scanned.st.kind);
    } else {
      var parts := Fields(query);
      if |parts| < 2 {
        return "Please provide: amount|category|description|type";
      }
      var amount := n.read(Replace(parts[0], "$", ""));
      if amount.None? {
        return "❌ Error: " + n.readError(Replace(parts[0], "$", ""));
      }
      var description := if |parts| > 2 then parts[2] else "";
      var kind := if |parts| > 3 then parts[3] else "expense";
      reply := Submit(n, amount.value, parts[1], description, kind);
    }
  }

  /**
   * A free-text request with no numeric word gets the request for an amount
   * and calls no tool; otherwise its amount is the last numeric word.
   */
  lemma FreeTextAmount(n: Numbers, query: string)
    requires '|' !in query
    ensures LastOf(Words(Lower(query)), {AmountWord}).None? ==>
      AddTransactionReply(n, query) == "Please specify an amount for the transaction."
  {
    if LastOf(Words(Lower(query)), {AmountWord}).None? {
      ScanNoAmount(n, Unscanned, Words(Lower(query)));
    }
  }

  /** Four fields joined by '|' split back into themselves. */
  lemma SplitFour(a: string, b: string, c: string, d: string)
    requires '|' !in a && '|' !in b && '|' !in c && '|' !in d
    ensures Split(a + "|" + b + "|" + c + "|" + d, "|") == [a, b, c, d]
  {
    var fs := [a, b, c, d];
    assert Join([c, d], "|") == c + "|" + d by {
      assert [c, d][1..] == [d];
    }
    assert Join([b, c, d], "|") == b + "|" + (c + "|" + d) by {
      assert [b, c, d][1..] == [c, d];
    }
    assert Join(fs, "|") == a + "|" + (b + "|" + (c + "|" + d)) by {
      assert fs[1..] == [b, c, d];
    }
    assert a + "|" + (b + "|" + (c + "|" + d)) == a + "|" + b + "|" + c + "|" + d;
    assert "|"[0] == '|';
    assert forall i :: 0 <= i < |fs| ==> '|' !in fs[i];
    SplitJoin(fs, "|");
  }

  /** Splitting a request built from four plain fields gives those fields back. */
  lemma FieldsOfFour(a: string, b: string, c: string, d: string)
    requires '|' !in a && '|' !in b && '|' !in c && '|' !in d
    requires Stripped(a) && Stripped(b) && Stripped(c) && Stripped(d)
    ensures Fields(a + "|" + b + "|" + c + "|" + d) == [a, b, c, d]
  {
    SplitFour(a, b, c, d);
    FieldsOfParts(a + "|" + b + "|" + c + "|" + d, [a, b, c, d]);
  }

  /** Fields that are already stripped come back as they were split. */
  lemma FieldsOfParts(q: string, parts: seq<string>)
    requires Split(q, "|") == parts
    requires forall i :: 0 <= i < |parts| ==> Stripped(parts[i])
    ensures Fields(q) == parts
  {
    forall i | 0 <= i < |parts|
      ensures Fields(q)[i] == parts[i]
    {
      StripStripped(parts[i]);
    }
  }

  /**
   * A structured request takes the amount from the first field without '$',
   * the category from the second, the description from the third and the
   * type from the fourth.
   */
  lemma StructuredRequest(n: Numbers, a: string, b: string, c: string, d: string)
    requires '|' !in a && '|' !in b && '|' !in c && '|' !in d
    requires Stripped(a) && Stripped(b) && Stripped(c) && Stripped(d)
    requires n.read(Replace(a, "$", "")).Some?
    ensures AddTransactionReply(n, a + "|" + b + "|" + c + "|" + d)
         == Confirmation(n, d, n.read(Replace(a, "$", "")).value, b, c)
  {
    var q := a + "|" + b + "|" + c + "|" + d;
    assert q[|a|] == '|';
    FieldsOfFour(a, b, c, d);
  }

  // ---------------------------------------------------------------------
  // get_transactions_tool
  // ---------------------------------------------------------------------

  /** The arguments `get_transactions_tool` derives from "limit|category|month". */
  function ListingParams(query: string): (p: Params)
    ensures p.amount.None? && p.description.None? && p.kind.None?
    ensures Strip(query) == "" ==> p == NoParams
    ensures Strip(query) != "" ==>
      var parts := Fields(query);
      && (p.limit.Some? <==> IsDigits(parts[0]))
      && (p.limit.Some? ==> p.limit.value == DigitsValue(parts[0]))
      && (p.category.Some? <==> |parts| > 1 && parts[1] != "")
      && (p.category.Some? ==> p.category.value == parts[1])
      && (p.month.Some? <==> |parts| > 2 && parts[2] != "")
      && (p.month.Some? ==> p.month.value == parts[2])
  {
    var parts := if Strip(query) != "" then Fields(query) else [];
    Params(None,
      if |parts| > 1 && parts[1] != "" then Some(parts[1]) else None,
      None, None,
      if |parts| > 0 && IsDigits(parts[0]) then Some(DigitsValue(parts[0]) as int) else None,
      if |parts| > 2 && parts[2] != "" then Some(parts[2]) else None)
  }

  /** One listed transaction: "  <date>: $<amount> - <category> (<type>)". */
  function TxnLine(n: Numbers, e: Entry): string
  {
    "  " + e.date + ": $" + n.str(e.amount) + " - " + e.category + " (" + e.kind + ")"
  }

  /** The line of each transaction, in order. */
  function TxnLines(n: Numbers, es: seq<Entry>): (r: seq<string>)
    ensures |r| == |es|
    ensures forall i :: 0 <= i < |es| ==> r[i] == TxnLine(n, es[i])
  {
    if |es| == 0 then [] else [TxnLine(n, es[0])] + TxnLines(n, es[1..])
  }

  /** The listing's lines: a count of all rows, then the first five. */
  function ListingLines(n: Numbers, es: seq<Entry>): (r: seq<string>)
    ensures |r| == 1 + Min(5, |es|)
    ensures forall i :: 1 <= i < |r| ==> r[i] == TxnLine(n, es[i - 1])
  {
    ["📋 Found " + NatText(|es|) + " transactions:"] + TxnLines(n, es[..Min(5, |es|)])
  }

  method FormatListing(n: Numbers, es: seq<Entry>) returns (output: string)
    ensures output == Lines(ListingLines(n, es))
  {
    var header := "📋 Found " + NatText(|es|) + " transactions:";
    output := header + "\n";
    ghost var done: seq<string> := [header];
    ghost var all := ListingLines(n, es);
    assert output == Lines(done);
    var i := 0;
    while i < Min(5, |es|)
      invariant 0 <= i <= Min(5, |es|)
      invariant done == all[..i + 1]
      invariant output == Lines(done)
    {
      TakeOneMore(all, i + 1);
      LinesSnoc(done, TxnLine(n, es[i]));
      output := output + TxnLine(n, es[i]) + "\n";
      done := done + [TxnLine(n, es[i])];
      i := i + 1;
    }
    assert done == all;
  }

  method GetTransactionsTool(n: Numbers, query: string) returns (output: string)
    ensures output == Lines(ListingLines(n, DemoEntries))
  {
    var reply := CallMcpTool(n, "get_transactions", ListingParams(query));
    output := FormatListing(n, reply.transactions);
  }

  // ---------------------------------------------------------------------
  // get_summary_tool
  // ---------------------------------------------------------------------

  function CategoryLine(n: Numbers, c: (string, real)): string
  {
    "    - " + c.0 + ": $" + n.str(c.1)
  }

  /** The summary's five fixed lines: period, income, expenses, net and savings rate. */
  function SummaryHead(n: Numbers, r: ToolReply): (ls: seq<string>)
    requires r.Summarised?
    ensures |ls| == 5
  {
    ["📊 Financial Summary for " + r.period + ":",
     "  💰 Income: $" + n.str(r.income),
     "  💸 Expenses: $" + n.str(r.expenses),
     "  🏦 Net: $" + n.str(r.net),
     "  📈 Savings Rate: " + n.str(r.savingsRate) + "%"]
  }

  /** The summary's lines: the fixed ones, then up to three categories under their header when there are any. */
  function SummaryLines(n: Numbers, r: ToolReply): (ls: seq<string>)
    requires r.Summarised?
    ensures |ls| == 5 + (if |r.byCategory| > 0 then 1 + Min(3, |r.byCategory|) else 0)
  {
    SummaryHead(n, r)
    + (if |r.byCategory| > 0 then ["  Top expenses:"] + CategoryLines(n, r.byCategory[..Min(3, |r.byCategory|)]) else [])
  }

  /** The line of each category, in order. */
  function CategoryLines(n: Numbers, cs: seq<(string, real)>): (r: seq<string>)
    ensures |r| == |cs|
    ensures forall i :: 0 <= i < |cs| ==> r[i] == CategoryLine(n, cs[i])
  {
    if |cs| == 0 then [] else [CategoryLine(n, cs[0])] + CategoryLines(n, cs[1..])
  }

  /** The summary's line after the head and the header is the line of the category at that position. */
  lemma SummaryCategoryAt(n: Numbers, r: ToolReply, j: nat)
    requires r.Summarised? && j < Min(3, |r.byCategory|)
    ensures SummaryLines(n, r)[6 + j] == CategoryLine(n, r.byCategory[j])
  {
    var cs := r.byCategory[..Min(3, |r.byCategory|)];
    assert SummaryLines(n, r) == SummaryHead(n, r) + (["  Top expenses:"] + CategoryLines(n, cs));
    assert cs[j] == r.byCategory[j];
  }

  method FormatSummary(n: Numbers, r: ToolReply) returns (output: string)
    requires r.Summarised?
    ensures output == Lines(SummaryLines(n, r))
  {
    ghost var head := SummaryHead(n, r);
    var period := "📊 Financial Summary for " + r.period + ":";
    var income := "  💰 Income: $" + n.str(r.income);
    var expenses := "  💸 Expenses: $" + n.str(r.expenses);
    var net := "  🏦 Net: $" + n.str(r.net);
    var rate := "  📈 Savings Rate: " + n.str(r.savingsRate) + "%";
    assert head == [period, income, expenses, net, rate];
    output := period + "\n";
    ghost var done := [period];
    assert output == Lines(done);
    LinesSnoc(done, income);
    output, done := output + income + "\n", done + [income];
    LinesSnoc(done, expenses);
    output, done := output + expenses + "\n", done + [expenses];
    LinesSnoc(done, net);
    output, done := output + net + "\n", done + [net];
    LinesSnoc(done, rate);
    output, done := output + rate + "\n", done + [rate];
    assert done == head;
    if |r.byCategory| > 0 {
      LinesSnoc(done, "  Top expenses:");
      output := output + "  Top expenses:\n";
      done := done + ["  Top expenses:"];
      ghost var all := SummaryLines(n, r);
      var j := 0;
      while j < Min(3, |r.byCategory|)
        invariant 0 <= j <= Min(3, |r.byCategory|)
        invariant done == all[..6 + j]
        invariant output == Lines(done)
      {
        SummaryCategoryAt(n, r, j);
        TakeOneMore(all, 6 + j);
        LinesSnoc(done, CategoryLine(n, r.byCategory[j]));
        output := output + CategoryLine(n, r.byCategory[j]) + "\n";
        done := done + [CategoryLine(n, r.byCategory[j])];
        j := j + 1;
      }
    }
    assert done == SummaryLines(n, r);
  }

  method GetSummaryTool(n: Numbers, month: string) returns (output: string)
    ensures output == Lines(SummaryLines(n, DemoSummary))
  {
    var params := if Strip(month) != "" then NoParams.(month := Some(month)) else NoParams;
    var reply := CallMcpTool(n, "get_financial_summary", params);
    output := FormatSummary(n, reply);
  }

  // ---------------------------------------------------------------------
  // get_budget_tool
  // ---------------------------------------------------------------------

  function StatusLine(n: Numbers, s: Status): string
  {
    "  " + s.category + ": $" + n.fixed2(s.spent) + "/$" + n.fixed2(s.budget) + " (" + n.fixed1(s.percentage) + "%)"
  }

  lemma TakeOneMore<T>(s: seq<T>, j: nat)
    requires j < |s|
    ensures s[..j + 1] == s[..j] + [s[j]]
  {
  }

  /** Each alert indented under the header, in order. */
  function AlertLines(alerts: seq<string>): (r: seq<string>)
    ensures |r| == |alerts|
    ensures forall i :: 0 <= i < |alerts| ==> r[i] == "  " + alerts[i]
  {
    if |alerts| == 0 then [] else ["  " + alerts[0]] + AlertLines(alerts[1..])
  }

  /** The line of each status, in order. */
  function StatusLines(n: Numbers, ss: seq<Status>): (r: seq<string>)
    ensures |r| == |ss|
    ensures forall i :: 0 <= i < |ss| ==> r[i] == StatusLine(n, ss[i])
  {
    if |ss| == 0 then [] else [StatusLine(n, ss[0])] + StatusLines(n, ss[1..])
  }

  /** The budget text's lines: the month, the alerts under their header and a blank line when there are any, then up to five statuses. */
  function BudgetLines(n: Numbers, r: ToolReply): seq<string>
    requires r.Budget?
  {
    ["💰 Budget Status for " + r.month + ":"]
    + (if |r.alerts| > 0 then ["🚨 ALERTS:"] + AlertLines(r.alerts) + [""] else [])
    + StatusLines(n, r.statuses[..Min(5, |r.statuses|)])
  }

  /** The alerts block of the budget text: the header, each alert indented, then a blank line; nothing when there are no alerts. */
  method FormatAlerts(alerts: seq<string>) returns (output: string)
    ensures output == Lines(if |alerts| > 0 then ["🚨 ALERTS:"] + AlertLines(alerts) + [""] else [])
  {
    output := "";
    if |alerts| > 0 {
      ghost var al := AlertLines(alerts);
      output := "🚨 ALERTS:\n";
      ghost var done: seq<string> := ["🚨 ALERTS:"];
      assert output == Lines(done);
      var i := 0;
      while i < |alerts|
        invariant 0 <= i <= |alerts|
        invariant done == ["🚨 ALERTS:"] + al[..i]
        invariant output == Lines(done)
      {
        LinesSnoc(done, "  " + alerts[i]);
        output := output + "  " + alerts[i] + "\n";
        TakeOneMore(al, i);
        done := done + ["  " + alerts[i]];
        i := i + 1;
      }
      assert al[..i] == al;
      LinesSnoc(done, "");
      output := output + "\n";
    }
  }

  /** The status block of the budget text: the line of each of the first five statuses. */
  method FormatStatuses(n: Numbers, statuses: seq<Status>) returns (output: string)
    ensures output == Lines(StatusLines(n, statuses[..Min(5, |statuses|)]))
  {
    var top5 := statuses[..Min(5, |statuses|)];
    ghost var sl := StatusLines(n, top5);
    output := "";
    var j := 0;
    while j < |top5|
      invariant 0 <= j <= |top5|
      invariant output == Lines(sl[..j])
    {
      var line := StatusLine(n, top5[j]);
      assert sl[j] == line;
      TakeOneMore(sl, j);
      LinesSnoc(sl[..j], line);
      output := output + line + "\n";
      j := j + 1;
    }
    assert sl[..j] == sl;
  }

  method FormatBudget(n: Numbers, r: ToolReply) returns (output: string)
    requires r.Budget?
    ensures output == Lines(BudgetLines(n, r))
  {
    var header := "💰 Budget Status for " + r.month + ":";
    var alerts := FormatAlerts(r.alerts);
    var statuses := FormatStatuses(n, r.statuses);
    output := header + "\n" + alerts + statuses;
    ghost var block := if |r.alerts| > 0 then ["🚨 ALERTS:"] + AlertLines(r.alerts) + [""] else [];
    LinesAppend([header] + block, StatusLines(n, r.statuses[..Min(5, |r.statuses|)]));
    LinesAppend([header], block);
    assert Lines([header]) == header + "\n";
  }

  method GetBudgetTool(n: Numbers) returns (output: string)
    ensures output == Lines(BudgetLines(n, DemoBudget))
  {
    var reply := CallMcpTool(n, "get_budget_status", NoParams);
    output := FormatBudget(n, reply);
  }

  // ---------------------------------------------------------------------
  // simple_agent
  // ---------------------------------------------------------------------

  datatype Intent = AddIntent | ShowIntent | SummaryIntent | BudgetIntent | HelpIntent

  const AddWords: seq<string> := ["add", "spent", "bought", "paid", "expense", "income"]
  const ShowWords: seq<string> := ["show", "list", "recent", "transactions", "history"]
  const SummaryWords: seq<string> := ["summary", "total", "overview", "report"]
  const BudgetWords: seq<string> := ["budget", "spending", "overspent", "alerts"]

  /** The first keyword group, in this order, that the lowercased input mentions. */
  function Route(input: string): (i: Intent)
    ensures i == AddIntent <==> ContainsAny(Lower(input), AddWords)
    ensures i == HelpIntent <==>
      !ContainsAny(Lower(input), AddWords) && !ContainsAny(Lower(input), ShowWords)
      && !ContainsAny(Lower(input), SummaryWords) && !ContainsAny(Lower(input), BudgetWords)
  {
    var s := Lower(input);
    if ContainsAny(s, AddWords) then AddIntent
    else if ContainsAny(s, ShowWords) then ShowIntent
    else if ContainsAny(s, SummaryWords) then SummaryIntent
    else if ContainsAny(s, BudgetWords) then BudgetIntent
    else HelpIntent
  }

  /** "overspent" contains "spent", so asking about overspending adds a transaction instead of checking the budget. */
  lemma OverspentRoutesToAdd(input: string)
    requires Contains(Lower(input), "overspent")
    ensures Route(input) == AddIntent
  {
    var s := Lower(input);
    var i := Find(s, "overspent").value;
    assert s[i + 4..i + 9] == s[i..i + 9][4..9];
    assert "overspent"[4..9] == "spent";
    OccursContains(s, "spent", i + 4);
    assert AddWords[1] == "spent";
  }

  const HelpText := "I can help you with:\n• Adding transactions (e.g., 'add $50 grocery expense')\n• Viewing transactions ('show my recent transactions')\n• Financial summaries ('what's my financial summary?')\n• Budget status ('check my budget')"

  /** `simple_agent`: the routed tool's text; the three listing tools are called with an empty request. */
  method SimpleAgent(n: Numbers, input: string) returns (reply: string)
    ensures Route(input) == AddIntent ==> reply == AddTransactionReply(n, input)
    ensures Route(input) == ShowIntent ==> reply == Lines(ListingLines(n, DemoEntries))
    ensures Route(input) == SummaryIntent ==> reply == Lines(SummaryLines(n, DemoSummary))
    ensures Route(input) == BudgetIntent ==> reply == Lines(BudgetLines(n, DemoBudget))
    ensures Route(input) == HelpIntent ==> reply == HelpText
  {
    match Route(input)
    case AddIntent => reply := AddTransactionTool(n, input);
    case ShowIntent => reply := GetTransactionsTool(n, "");
    case SummaryIntent => reply := GetSummaryTool(n, "");
    case BudgetIntent => reply := GetBudgetTool(n);
    case HelpIntent => reply := HelpText;
  }
}
