/**
 * The natural-language finance agent: five LangChain tool functions over the
 * personal-finance MCP tool, and a keyword router that turns a sentence such
 * as "I spent $25 on lunch" into one of those tool calls.
 */
module FinanceAgent {
  import opened Text
  import opened Ledger
  import FinanceTool
  import FinanceClient

  type Numbers = FinanceClient.Numbers

  // ---------------------------------------------------------------------
  // Pipe-separated tool input
  // ---------------------------------------------------------------------

  /** What `add_expense` / `add_income` read from "amount|category|description". */
  datatype Fields =
    | Fields(amount: real, category: string, description: string)
    | Unreadable(text: string)   // float() raised ValueError on this text
    | Usage                      // too few fields

  /** The amount field with surrounding blanks and every '$' removed. */
  function AmountField(part: string): string
  {
    Replace(Strip(part), "$", "")
  }

  /** A query splits into two or more fields exactly when it holds a '|'. */
  lemma PipeSplits(query: string)
    ensures |Split(query, "|")| >= 2 <==> '|' in query
  {
    if '|' in query {
      SplitFound(query, '|');
    } else {
      SplitNone(query, "|", 0);
    }
  }

  /** `add_expense`'s parsing: the amount and the category are both required. */
  function ExpenseFields(n: Numbers, query: string): (r: Fields)
    ensures r.Usage? <==> '|' !in query
    ensures r.Fields? ==> Stripped(r.category) && Stripped(r.description)
  {
    PipeSplits(query);
    var parts := Split(query, "|");
    if |parts| < 2 then Usage
    else
      match n.read(AmountField(parts[0]))
      case None => Unreadable(AmountField(parts[0]))
      case Some(a) => Fields(a, Strip(parts[1]), if |parts| > 2 then Strip(parts[2]) else "")
  }

  /** `add_income`'s parsing: only the amount is required; the category defaults to "Income". */
  function IncomeFields(n: Numbers, query: string): (r: Fields)
    ensures !r.Usage?
    ensures r.Fields? && '|' !in query ==> r.category == "Income" && r.description == ""
    ensures r.Fields? ==> Stripped(r.category) && Stripped(r.description)
  {
    PipeSplits(query);
    var parts := Split(query, "|");
    match n.read(AmountField(parts[0]))
    case None => Unreadable(AmountField(parts[0]))
    case Some(a) =>
      Fields(a, if |parts| > 1 then Strip(parts[1]) else "Income", if |parts| > 2 then Strip(parts[2]) else "")
  }

  /** Three fields without a '|' split back into themselves. */
  lemma SplitThree(a: string, b: string, c: string)
    requires '|' !in a && '|' !in b && '|' !in c
    ensures Split(a + "|" + b + "|" + c, "|") == [a, b, c]
  {
    var fs := [a, b, c];
    assert Join([b, c], "|") == b + "|" + c by {
      assert [b, c][1..] == [c];
    }
    assert Join(fs, "|") == a + "|" + (b + "|" + c) by {
      assert fs[1..] == [b, c];
    }
    assert a + "|" + (b + "|" + c) == a + "|" + b + "|" + c;
    assert "|"[0] == '|';
    assert forall i :: 0 <= i < |fs| ==> '|' !in fs[i];
    SplitJoin(fs, "|");
  }

  /** Three clean fields joined by '|' read back as themselves. */
  lemma FieldsRoundTrip(n: Numbers, a: string, c: string, d: string, x: real)
    requires '|' !in a && '|' !in c && '|' !in d && '$' !in a
    requires Stripped(a) && Stripped(c) && Stripped(d)
    requires n.read(a) == Some(x)
    ensures ExpenseFields(n, a + "|" + c + "|" + d) == Fields(x, c, d)
    ensures IncomeFields(n, a + "|" + c + "|" + d) == Fields(x, c, d)
  {
    SplitThree(a, c, d);
    StripStripped(a);
    StripStripped(c);
    StripStripped(d);
    ReplaceAbsent(a, "$", "", 0);
  }

  // ---------------------------------------------------------------------
  // The amount in a sentence: re.search(r'\$?(\d+(?:\.\d{2})?)', s).group(1)
  // ---------------------------------------------------------------------

  /** The first index from `i` on that holds an ASCII digit. */
  function FirstDigitFrom(s: string, i: nat): (r: Option<nat>)
    decreases |s| - i
    ensures r.Some? ==> i <= r.value < |s| && IsDigitChar(s[r.value])
    ensures r.Some? ==> forall j :: i <= j < r.value ==> !IsDigitChar(s[j])
    ensures r.None? ==> forall j :: i <= j < |s| ==> !IsDigitChar(s[j])
  {
    if i >= |s| then None
    else if IsDigitChar(s[i]) then Some(i)
    else FirstDigitFrom(s, i + 1)
  }

  /** Where the run of digits that starts at `i` ends (`\d+` is greedy). */
  function DigitsEnd(s: string, i: nat): (e: nat)
    requires i <= |s|
    decreases |s| - i
    ensures i <= e <= |s|
    ensures forall j :: i <= j < e ==> IsDigitChar(s[j])
    ensures e < |s| ==> !IsDigitChar(s[e])
  {
    if i < |s| && IsDigitChar(s[i]) then DigitsEnd(s, i + 1) else i
  }

  /** The optional `\.\d{2}` matches at `e`. */
  predicate CentsAt(s: string, e: nat)
  {
    e + 3 <= |s| && s[e] == '.' && IsDigitChar(s[e + 1]) && IsDigitChar(s[e + 2])
  }

  /** The captured group of a match whose digits start at `j`. */
  function RunFrom(s: string, j: nat): (r: string)
    requires j < |s| && IsDigitChar(s[j])
    ensures |r| > 0 && IsDigitChar(r[0]) && IsDigitChar(r[|r| - 1])
    ensures forall k :: 0 <= k < |r| ==> IsDigitChar(r[k]) || r[k] == '.'
    ensures OccursAt(s, r, j)
  {
    var e := DigitsEnd(s, j);
    if CentsAt(s, e) then s[j..e + 3] else s[j..e]
  }

  /**
   * The group of a match that starts at `i`, if the pattern matches there:
   * `\$?` takes a '$' when digits follow it, and gives it back otherwise.
   */
  function GroupAt(s: string, i: nat): Option<string>
    requires i < |s|
  {
    if s[i] == '$' && i + 1 < |s| && IsDigitChar(s[i + 1]) then Some(RunFrom(s, i + 1))
    else if IsDigitChar(s[i]) then Some(RunFrom(s, i))
    else None
  }

  /** `re.search` from index `i`: the match that starts leftmost. */
  function SearchFrom(s: string, i: nat): Option<string>
    decreases |s| - i
  {
    if i >= |s| then None
    else if GroupAt(s, i).Some? then GroupAt(s, i)
    else SearchFrom(s, i + 1)
  }

  /** The leftmost match is the one at the first digit, whose run it captures. */
  lemma {:induction false} SearchFindsFirstDigit(s: string, i: nat)
    decreases |s| - i
    ensures FirstDigitFrom(s, i).None? ==> SearchFrom(s, i).None?
    ensures FirstDigitFrom(s, i).Some? ==> SearchFrom(s, i) == Some(RunFrom(s, FirstDigitFrom(s, i).value))
  {
    if i < |s| && GroupAt(s, i).None? {
      SearchFindsFirstDigit(s, i + 1);
    }
  }

  lemma SearchContains(s: string)
    ensures SearchFrom(s, 0).None? <==> FirstDigitFrom(s, 0).None?
    ensures FirstDigitFrom(s, 0).Some? ==> SearchFrom(s, 0) == Some(RunFrom(s, FirstDigitFrom(s, 0).value))
    ensures SearchFrom(s, 0).Some? ==> Contains(s, SearchFrom(s, 0).value)
  {
    SearchFindsFirstDigit(s, 0);
    if FirstDigitFrom(s, 0).Some? {
      OccursContains(s, RunFrom(s, FirstDigitFrom(s, 0).value), FirstDigitFrom(s, 0).value);
    }
  }

  /** The amount text of a request: `None` when the pattern does not match. */
  function AmountText(s: string): (r: Option<string>)
    ensures r.None? <==> forall i :: 0 <= i < |s| ==> !IsDigitChar(s[i])
    ensures r.Some? ==> |r.value| > 0 && IsDigitChar(r.value[0]) && IsDigitChar(r.value[|r.value| - 1])
    ensures r.Some? ==> forall k :: 0 <= k < |r.value| ==> IsDigitChar(r.value[k]) || r.value[k] == '.'
    ensures r.Some? ==> Contains(s, r.value)
  {
    SearchContains(s);
    SearchFrom(s, 0)
  }

  /** No digits before the amount. */
  predicate NoDigits(p: string)
  {
    forall i :: 0 <= i < |p| ==> !IsDigitChar(p[i])
  }

  /** The first digit of `p + a + t` is the first of `a`. */
  lemma FirstDigitAfter(p: string, a: string, t: string)
    requires NoDigits(p) && IsDigits(a)
    ensures FirstDigitFrom(p + a + t, 0) == Some(|p|)
  {
    var s := p + a + t;
    assert s[|p|] == a[0];
  }

  /** The search from the start captures the run at the first digit. */
  lemma AmountIsRun(s: string, j: nat)
    requires FirstDigitFrom(s, 0) == Some(j)
    ensures AmountText(s) == Some(RunFrom(s, j))
  {
    SearchFindsFirstDigit(s, 0);
  }

  /** A run of digits from `i` that stops before a non-digit (or the end) at `e` ends at `e`. */
  lemma {:induction false} DigitsEndAt(s: string, i: nat, e: nat)
    requires i <= e <= |s|
    requires forall j :: i <= j < e ==> IsDigitChar(s[j])
    requires e < |s| ==> !IsDigitChar(s[e])
    decreases e - i
    ensures DigitsEnd(s, i) == e
  {
    if i < e {
      DigitsEndAt(s, i + 1, e);
    }
  }

  /** A whole number in the sentence is the amount: "$45 on groceries" gives "45". */
  lemma AmountWhole(p: string, a: string, t: string)
    requires NoDigits(p) && IsDigits(a)
    requires |t| == 0 || (!IsDigitChar(t[0]) && t[0] != '.')
    ensures AmountText(p + a + t) == Some(a)
  {
    var s := p + a + t;
    FirstDigitAfter(p, a, t);
    AmountIsRun(s, |p|);
    DigitsEndAt(s, |p|, |p| + |a|);
    assert s[|p|..|p| + |a|] == a;
  }

  /** Two decimals are part of the amount: "$4.50" gives "4.50". */
  lemma AmountCents(p: string, a: string, c: string, t: string)
    requires NoDigits(p) && IsDigits(a) && |c| == 2 && IsDigits(c)
    ensures AmountText(p + a + "." + c + t) == Some(a + "." + c)
  {
    var s := p + a + "." + c + t;
    FirstDigitAfter(p, a, "." + c + t);
    assert s == p + a + ("." + c + t);
    AmountIsRun(s, |p|);
    assert s[|p| + |a|] == '.';
    DigitsEndAt(s, |p|, |p| + |a|);
    assert s[|p| + |a| + 1] == c[0] && s[|p| + |a| + 2] == c[1];
    SliceMiddle(p, a, ".", c, t);
  }

  lemma SliceMiddle<T>(p: seq<T>, a: seq<T>, b: seq<T>, c: seq<T>, t: seq<T>)
    ensures (p + a + b + c + t)[|p|..|p| + |a| + |b| + |c|] == a + b + c
  {
    assert p + a + b + c + t == p + (a + b + c) + t;
  }

  /** A single decimal is not: "$4.5" gives "4". */
  lemma AmountOneDecimal(p: string, a: string, d: char, t: string)
    requires NoDigits(p) && IsDigits(a) && IsDigitChar(d)
    requires |t| == 0 || !IsDigitChar(t[0])
    ensures AmountText(p + a + "." + [d] + t) == Some(a)
  {
    var s := p + a + "." + [d] + t;
    FirstDigitAfter(p, a, "." + [d] + t);
    assert s == p + a + ("." + [d] + t);
    AmountIsRun(s, |p|);
    assert s[|p| + |a|] == '.';
    DigitsEndAt(s, |p|, |p| + |a|);
    assert !CentsAt(s, |p| + |a|) by {
      if |p| + |a| + 3 <= |s| {
        assert s[|p| + |a| + 2] == t[0];
      }
    }
    assert s[|p|..|p| + |a|] == a;
  }

  // ---------------------------------------------------------------------
  // Categories and description of a sentence
  // ---------------------------------------------------------------------

  const FoodWords: seq<string> := ["food", "lunch", "dinner", "coffee", "restaurant", "grocery"]
  const TransportWords: seq<string> := ["gas", "uber", "taxi", "bus", "train", "car"]
  const ShoppingWords: seq<string> := ["clothes", "shopping", "store", "amazon", "bought"]
  const EntertainmentWords: seq<string> := ["movie", "game", "entertainment", "show"]
  const BillWords: seq<string> := ["rent", "utility", "bill", "electric", "internet"]

  /** The expense category of a lower-cased sentence: the first word list that matches decides. */
  function ExpenseCategory(l: string): (r: string)
    ensures r in {"Food & Dining", "Transportation", "Shopping", "Entertainment", "Bills & Utilities", "Other"}
    ensures ContainsAny(l, FoodWords) ==> r == "Food & Dining"
    ensures r == "Shopping" ==> !ContainsAny(l, FoodWords) && !ContainsAny(l, TransportWords)
    ensures r == "Other" <==>
      !ContainsAny(l, FoodWords) && !ContainsAny(l, TransportWords) && !ContainsAny(l, ShoppingWords)
      && !ContainsAny(l, EntertainmentWords) && !ContainsAny(l, BillWords)
  {
    if ContainsAny(l, FoodWords) then "Food & Dining"
    else if ContainsAny(l, TransportWords) then "Transportation"
    else if ContainsAny(l, ShoppingWords) then "Shopping"
    else if ContainsAny(l, EntertainmentWords) then "Entertainment"
    else if ContainsAny(l, BillWords) then "Bills & Utilities"
    else "Other"
  }

  /** "bought" is a shopping word, yet "I bought coffee" is filed under food. */
  lemma BoughtCoffeeIsFood(l: string)
    requires Contains(l, "bought") && Contains(l, "coffee")
    ensures ContainsAny(l, ShoppingWords)
    ensures ExpenseCategory(l) == "Food & Dining"
  {
    assert ShoppingWords[4] == "bought";
    assert FoodWords[3] == "coffee";
  }

  const SalaryWords: seq<string> := ["salary", "paycheck", "job"]
  const FreelanceWords: seq<string> := ["freelance", "consulting", "contract"]
  const InvestmentWords: seq<string> := ["investment", "dividend", "stock"]

  /** The income category of a lower-cased sentence, "Income" when no list matches. */
  function IncomeCategory(l: string): (r: string)
    ensures r in {"Salary", "Freelance", "Investments", "Income"}
    ensures ContainsAny(l, SalaryWords) ==> r == "Salary"
    ensures r == "Income" <==>
      !ContainsAny(l, SalaryWords) && !ContainsAny(l, FreelanceWords) && !ContainsAny(l, InvestmentWords)
  {
    if ContainsAny(l, SalaryWords) then "Salary"
    else if ContainsAny(l, FreelanceWords) then "Freelance"
    else if ContainsAny(l, InvestmentWords) then "Investments"
    else "Income"
  }

  /** The sentence with every '$' and every occurrence of the amount text removed, then stripped. */
  function Description(s: string, amount: string): (r: string)
    requires |amount| > 0
    ensures Stripped(r)
  {
    Strip(Replace(Replace(s, "$", ""), amount, ""))
  }

  /** The description holds no '$' and nothing the sentence did not. */
  lemma DescriptionChars(s: string, amount: string, c: char)
    requires |amount| > 0
    requires c in Description(s, amount)
    ensures c in s && c != '$'
  {
    var once := Replace(s, "$", "");
    var twice := Replace(once, amount, "");
    StripChars(twice);
    ReplaceRemovesChar(s, '$');
    if c !in once {
      ReplaceEmptyChars(once, amount, c);
    }
    if c !in s {
      ReplaceEmptyChars(s, "$", c);
    }
  }

  /** The tool input `_handle_expense_request` / `_handle_income_request` builds. */
  function ToolInput(amount: string, category: string, description: string): string
  {
    amount + "|" + category + "|" + description
  }

  /** An amount text needs no stripping and holds neither '$' nor '|'. */
  lemma CleanAmount(a: string)
    requires |a| > 0 && IsDigitChar(a[0]) && IsDigitChar(a[|a| - 1])
    requires forall k :: 0 <= k < |a| ==> IsDigitChar(a[k]) || a[k] == '.'
    ensures '|' !in a && '$' !in a && Stripped(a)
  {
  }

  /** The category names need no stripping and hold no '|'. */
  lemma CleanCategory(c: string)
    requires c in {"Food & Dining", "Transportation", "Shopping", "Entertainment", "Bills & Utilities", "Other",
                   "Salary", "Freelance", "Investments", "Income"}
    ensures '|' !in c && Stripped(c)
  {
  }

  /**
   * A sentence without '|' whose amount text reads as `x` is recorded with that
   * amount, the category its words pick and its description: the pipe input the
   * handler builds parses back into exactly those fields.
   */
  lemma ExpenseRequestParsed(n: Numbers, s: string, x: real)
    requires '|' !in s && AmountText(s).Some?
    requires n.read(AmountText(s).value) == Some(x)
    ensures var a := AmountText(s).value;
      ExpenseFields(n, ToolInput(a, ExpenseCategory(Lower(s)), Description(s, a)))
      == Fields(x, ExpenseCategory(Lower(s)), Description(s, a))
  {
    var a := AmountText(s).value;
    var d := Description(s, a);
    var c := ExpenseCategory(Lower(s));
    if '|' in d {
      DescriptionChars(s, a, '|');
    }
    CleanAmount(a);
    CleanCategory(c);
    FieldsRoundTrip(n, a, c, d, x);
  }

  /** The same for an income sentence. */
  lemma IncomeRequestParsed(n: Numbers, s: string, x: real)
    requires '|' !in s && AmountText(s).Some?
    requires n.read(AmountText(s).value) == Some(x)
    ensures var a := AmountText(s).value;
      IncomeFields(n, ToolInput(a, IncomeCategory(Lower(s)), Description(s, a)))
      == Fields(x, IncomeCategory(Lower(s)), Description(s, a))
  {
    var a := AmountText(s).value;
    var d := Description(s, a);
    var c := IncomeCategory(Lower(s));
    if '|' in d {
      DescriptionChars(s, a, '|');
    }
    CleanAmount(a);
    CleanCategory(c);
    FieldsRoundTrip(n, a, c, d, x);
  }

  // ---------------------------------------------------------------------
  // Counts given as text
  // ---------------------------------------------------------------------

  /** `int(query) if query.isdigit() else 5` for `get_recent_transactions`. */
  function LimitOf(query: string): nat
  {
    if IsDigits(query) then DigitsValue(query) else 5
  }

  /** `int(query) if query.isdigit() else 30` for `spending_report`. */
  function DaysOf(query: string): nat
  {
    if IsDigits(query) then DigitsValue(query) else 30
  }

  /** A numeral gives its own value as limit and as days; anything else the defaults 5 and 30. */
  lemma CountsOfQuery(query: string, k: nat)
    ensures LimitOf(NatText(k)) == k && DaysOf(NatText(k)) == k
    ensures !IsDigits(query) ==> LimitOf(query) == 5 && DaysOf(query) == 30
  {
    NatTextValue(k);
  }

  // ---------------------------------------------------------------------
  // _format_categories
  // ---------------------------------------------------------------------

  /** One line of the category block. */
  function CategoryItem(n: Numbers, item: (string, real)): string
  {
    "  • " + item.0 + ": $" + n.fixed2(item.1) + "\n"
  }

  /** The lines of `items`, in order. */
  function CategoryBlock(n: Numbers, items: seq<(string, real)>): string
  {
    if |items| == 0 then "" else CategoryBlock(n, items[..|items| - 1]) + CategoryItem(n, items[|items| - 1])
  }

  /** Entries without line breaks give one line each. */
  lemma {:induction false} CategoryBlockLines(n: Numbers, items: seq<(string, real)>)
    requires forall i :: 0 <= i < |items| ==> '\n' !in items[i].0 && '\n' !in n.fixed2(items[i].1)
    ensures multiset(CategoryBlock(n, items))['\n'] == |items|
  {
    if |items| > 0 {
      CategoryBlockLines(n, items[..|items| - 1]);
      var x := items[|items| - 1];
      ItemBreaks(n, x);
      var prev := CategoryBlock(n, items[..|items| - 1]);
      assert multiset(prev + CategoryItem(n, x)) == multiset(prev) + multiset(CategoryItem(n, x));
    }
  }

  lemma ItemBreaks(n: Numbers, x: (string, real))
    requires '\n' !in x.0 && '\n' !in n.fixed2(x.1)
    ensures multiset(CategoryItem(n, x))['\n'] == 1
  {
    CountFramed("  • ", x.0, ": $", n.fixed2(x.1), "\n", '\n');
  }

  /** Text free of `c` adds no `c` to the count; only the tail `e` does. */
  lemma CountFramed(p: string, a: string, q: string, v: string, e: string, c: char)
    requires c !in p && c !in a && c !in q && c !in v
    ensures multiset(p + a + q + v + e)[c] == multiset(e)[c]
  {
    assert multiset(p)[c] == 0 && multiset(a)[c] == 0 && multiset(q)[c] == 0 && multiset(v)[c] == 0;
  }

  /** The counts `process_request` passes: "10" transactions, "30" days. */
  lemma TenAndThirty()
    ensures LimitOf("10") == 10 && DaysOf("30") == 30
  {
    assert IsDigits("10") && IsDigits("30");
    assert "10"[..1] == "1" && "30"[..1] == "3";
    assert "1"[..0] == "" && "3"[..0] == "";
    assert DigitsValue("1") == 1 && DigitsValue("3") == 3;
  }

  /** `_format_categories`: the first three entries of the dictionary, one line each. */
  method FormatCategories(n: Numbers, items: seq<(string, real)>) returns (output: string)
    ensures output == CategoryBlock(n, items[..if |items| < 3 then |items| else 3])
  {
    var top := items[..if |items| < 3 then |items| else 3];
    output := "";
    for i := 0 to |top|
      invariant output == CategoryBlock(n, top[..i])
    {
      assert top[..i + 1][..i] == top[..i];
      output := output + CategoryItem(n, top[i]);
    }
    assert top[..|top|] == top;
  }

  /** However many categories there are, the block has at most three lines. */
  lemma AtMostThreeCategories(n: Numbers, items: seq<(string, real)>)
    requires forall i :: 0 <= i < |items| ==> '\n' !in items[i].0 && '\n' !in n.fixed2(items[i].1)
    ensures multiset(CategoryBlock(n, items[..if |items| < 3 then |items| else 3]))['\n'] <= 3
  {
    CategoryBlockLines(n, items[..if |items| < 3 then |items| else 3]);
  }

  // ---------------------------------------------------------------------
  // process_request
  // ---------------------------------------------------------------------

  const ExpenseWords: seq<string> := ["spent", "bought", "paid", "expense", "cost"]
  const IncomeWords: seq<string> := ["earned", "income", "salary", "paid me", "received"]
  const SummaryWords: seq<string> := ["summary", "overview", "total", "how much", "spending this month"]
  const RecentWords: seq<string> := ["recent", "last", "transactions", "history"]
  const ReportWords: seq<string> := ["report", "analysis", "categories", "breakdown"]

  datatype Intent = ExpenseIntent | IncomeIntent | SummaryIntent | RecentIntent | ReportIntent | HelpIntent

  /** The branch of `process_request` a sentence takes. */
  function IntentOf(input: string): (r: Intent)
    ensures r == ExpenseIntent <==> ContainsAny(Lower(input), ExpenseWords)
    ensures r == HelpIntent <==>
      !ContainsAny(Lower(input), ExpenseWords) && !ContainsAny(Lower(input), IncomeWords)
      && !ContainsAny(Lower(input), SummaryWords) && !ContainsAny(Lower(input), RecentWords)
      && !ContainsAny(Lower(input), ReportWords)
  {
    var l := Lower(input);
    if ContainsAny(l, ExpenseWords) then ExpenseIntent
    else if ContainsAny(l, IncomeWords) then IncomeIntent
    else if ContainsAny(l, SummaryWords) then SummaryIntent
    else if ContainsAny(l, RecentWords) then RecentIntent
    else if ContainsAny(l, ReportWords) then ReportIntent
    else HelpIntent
  }

  /** "paid me" is an income word that never routes to income: "paid" matches first. */
  lemma PaidMeIsExpense(input: string)
    requires Contains(Lower(input), "paid me")
    ensures IntentOf(input) == ExpenseIntent
  {
    assert "paid me" == "paid" + " me";
    ContainsStart(Lower(input), "paid", " me");
    assert ExpenseWords[2] == "paid";
  }

  const AskSpent := "I couldn't find an amount. Please specify how much you spent (e.g., '$25' or '25')"
  const AskEarned := "I couldn't find an amount. Please specify how much you earned."
  const HelpText :=
    "I can help you with:\n"
    + "• Adding expenses: \"I spent $25 on groceries\"\n"
    + "• Adding income: \"I earned $500 from freelancing\"  \n"
    + "• Getting summaries: \"Show me my monthly summary\"\n"
    + "• Viewing transactions: \"Show me recent transactions\"\n"
    + "• Spending reports: \"Give me a spending breakdown\"\n"
    + "\n"
    + "What would you like to do?"

  /** The one tool call (or plain reply) a sentence leads to. */
  datatype Call =
    | PostExpense(query: string)
    | PostIncome(query: string)
    | ShowSummary
    | ShowTransactions(limit: nat)
    | ShowReport(days: nat)
    | Say(text: string)

  /** `_handle_expense_request` up to its tool call. */
  function ExpenseCall(input: string): Call
  {
    match AmountText(input)
    case None => Say(AskSpent)
    case Some(a) => PostExpense(ToolInput(a, ExpenseCategory(Lower(input)), Description(input, a)))
  }

  /** `_handle_income_request` up to its tool call. */
  function IncomeCall(input: string): Call
  {
    match AmountText(input)
    case None => Say(AskEarned)
    case Some(a) => PostIncome(ToolInput(a, IncomeCategory(Lower(input)), Description(input, a)))
  }

  /** The call `process_request` makes for a sentence. */
  function CallOf(input: string): (r: Call)
    ensures r.PostIncome? ==> !ContainsAny(Lower(input), ExpenseWords)
    ensures r.PostExpense? || r.PostIncome? ==> exists i :: 0 <= i < |input| && IsDigitChar(input[i])
    ensures r.ShowTransactions? ==> r.limit == 10
    ensures r.ShowReport? ==> r.days == 30
  {
    TenAndThirty();
    match IntentOf(input)
    case ExpenseIntent => ExpenseCall(input)
    case IncomeIntent => IncomeCall(input)
    case SummaryIntent => ShowSummary
    case RecentIntent => ShowTransactions(LimitOf("10"))
    case ReportIntent => ShowReport(DaysOf("30"))
    case HelpIntent => Say(HelpText)
  }

  /**
   * An expense sentence whose amount reads as `x` is recorded as one expense
   * of `x`, under the category its words pick, described by what is left of it.
   */
  lemma ExpenseSentenceRecorded(n: Numbers, s: string, x: real)
    requires IntentOf(s) == ExpenseIntent && '|' !in s
    requires AmountText(s).Some? && n.read(AmountText(s).value) == Some(x)
    ensures CallOf(s).PostExpense?
    ensures ExpenseFields(n, CallOf(s).query) == Fields(x, ExpenseCategory(Lower(s)), Description(s, AmountText(s).value))
  {
    ExpenseRequestParsed(n, s, x);
  }

  /** A sentence without a digit adds nothing: it gets a question, a listing or the help text. */
  lemma NoDigitNoPost(input: string)
    requires forall i :: 0 <= i < |input| ==> !IsDigitChar(input[i])
    ensures !CallOf(input).PostExpense? && !CallOf(input).PostIncome?
    ensures IntentOf(input) == ExpenseIntent ==> CallOf(input) == Say(AskSpent)
    ensures IntentOf(input) == IncomeIntent ==> CallOf(input) == Say(AskEarned)
  {
  }

  // ---------------------------------------------------------------------
  // The agent
  // ---------------------------------------------------------------------

  /** What a tool function returns: finished text, or a tool reply it renders (rendering not modelled). */
  datatype Reply = Said(text: string) | Rendered(response: FinanceTool.Response)

  const NoArgs := FinanceTool.Args(None, None, None, None, None, None, None, None, None, None, None, None)

  /** The arguments `add_expense` / `add_income` pass to `add_transaction`. */
  function PostArgs(f: Fields, kind: string): FinanceTool.Args
    requires f.Fields?
  {
    NoArgs.(amount := Some(f.amount), category := Some(f.category), description := Some(f.description), kind := Some(kind))
  }

  /** The confirmation of a recorded expense ("for" its category) or income ("from" it). */
  function AddedText(n: Numbers, f: Fields, kind: string): string
    requires f.Fields?
  {
    "✅ Added " + kind + ": $" + n.fixed2(f.amount) + (if kind == "expense" then " for " else " from ") + f.category
  }

  /** The reply of `add_expense` / `add_income` once the tool answered. */
  function PostedText(n: Numbers, f: Fields, kind: string, r: FinanceTool.Response): string
    requires f.Fields?
  {
    if r.TxnAdded? then AddedText(n, f, kind) else "❌ Error: " + (if r.Failure? then r.error else "")
  }

  /** The reply to a parsed tool input, given that `add_transaction` accepts the row. */
  function FieldsReply(n: Numbers, f: Fields, kind: string): string
  {
    match f
    case Usage => "Please provide: amount|category|description"
    case Unreadable(t) => "❌ Error: " + n.readError(t)
    case Fields(_, _, _) => AddedText(n, f, kind)
  }

  /** The transactions table after posting `f`: one new row when the input parsed. */
  function Posted(f: Fields, kind: string, id: nat, today: string, ts: seq<Txn>): seq<Txn>
  {
    if f.Fields? then ts + [Txn(id, today, f.amount, f.category, f.description, kind)] else ts
  }

  /** What a call leaves behind: its reply, and the transactions table after it. */
  ghost predicate Performed(n: Numbers, call: Call, clock: FinanceTool.Clock, id: nat,
                            before: seq<Txn>, after: seq<Txn>, reply: Reply)
    requires UniqueIds(before)
  {
    match call
    case PostExpense(q) =>
      reply == Said(FieldsReply(n, ExpenseFields(n, q), "expense"))
      && after == Posted(ExpenseFields(n, q), "expense", id, clock.today, before)
    case PostIncome(q) =>
      reply == Said(FieldsReply(n, IncomeFields(n, q), "income"))
      && after == Posted(IncomeFields(n, q), "income", id, clock.today, before)
    case ShowSummary =>
      reply == Rendered(FinanceTool.Summary(before, NoArgs, clock)) && after == before
    case ShowTransactions(k) =>
      reply == Rendered(FinanceTool.ListTransactions(before, NoArgs.(limit := Some(k)))) && after == before
    case ShowReport(k) =>
      reply == Rendered(FinanceTool.SpendingOf(before, NoArgs.(days := Some(k)), clock)) && after == before
    case Say(t) => reply == Said(t) && after == before
  }

  class Agent {
    const n: Numbers
    const tool: FinanceTool.Tool

    ghost predicate Valid()
      reads this, tool, tool.db
    {
      tool.Valid()
    }

    /** Opens the finance tool over its database file. */
    constructor(n: Numbers, dataPath: string, db: Database)
      requires db.Valid()
      modifies db
      ensures this.n == n && fresh(tool) && tool.db == db && Valid()
      ensures db.transactions == old(db.transactions) && db.goals == old(db.goals)
    {
      this.n := n;
      tool := new FinanceTool.Tool(dataPath, db);
    }

    /** Posts a parsed row through `execute("add_transaction", ...)`. */
    method Post(f: Fields, kind: string, clock: FinanceTool.Clock) returns (reply: string)
      requires Valid() && f.Fields? && IsKind(kind)
      modifies tool.db
      ensures Valid()
      ensures reply == FieldsReply(n, f, kind)
      ensures tool.db.transactions == Posted(f, kind, old(tool.db.nextTxnId), clock.today, old(tool.db.transactions))
      ensures tool.db.goals == old(tool.db.goals) && tool.db.categories == old(tool.db.categories)
    {
      var r := tool.Execute("add_transaction", PostArgs(f, kind), clock);
      reply := PostedText(n, f, kind, r);
    }

    /** `add_expense`: "amount|category|description", with at least two fields. */
    method AddExpense(query: string, clock: FinanceTool.Clock) returns (reply: string)
      requires Valid()
      modifies tool.db
      ensures Valid()
      ensures reply == FieldsReply(n, ExpenseFields(n, query), "expense")
      ensures tool.db.transactions == Posted(ExpenseFields(n, query), "expense", old(tool.db.nextTxnId), clock.today, old(tool.db.transactions))
      ensures tool.db.goals == old(tool.db.goals) && tool.db.categories == old(tool.db.categories)
      ensures !ExpenseFields(n, query).Fields? ==> unchanged(tool.db)
    {
      var f := ExpenseFields(n, query);
      if f.Usage? {
        return "Please provide: amount|category|description";
      }
      if f.Unreadable? {
        return "❌ Error: " + n.readError(f.text);
      }
      reply := Post(f, "expense", clock);
    }

    /** `add_income`: "amount|category|description", the category defaulting to "Income". */
    method AddIncome(query: string, clock: FinanceTool.Clock) returns (reply: string)
      requires Valid()
      modifies tool.db
      ensures Valid()
      ensures reply == FieldsReply(n, IncomeFields(n, query), "income")
      ensures tool.db.transactions == Posted(IncomeFields(n, query), "income", old(tool.db.nextTxnId), clock.today, old(tool.db.transactions))
      ensures tool.db.goals == old(tool.db.goals) && tool.db.categories == old(tool.db.categories)
      ensures !IncomeFields(n, query).Fields? ==> unchanged(tool.db)
    {
      var f := IncomeFields(n, query);
      if f.Unreadable? {
        return "❌ Error: " + n.readError(f.text);
      }
      reply := Post(f, "income", clock);
    }

    /** `get_summary`: the current month's summary. */
    method GetSummary(clock: FinanceTool.Clock) returns (reply: Reply)
      requires Valid()
      modifies tool.db
      ensures Valid() && unchanged(tool.db)
      ensures reply == Rendered(FinanceTool.Summary(tool.db.transactions, NoArgs, clock))
    {
      var r := tool.Execute("get_summary", NoArgs, clock);
      reply := Rendered(r);
    }

    /** `get_recent_transactions`: the newest `LimitOf(query)` rows. */
    method GetRecentTransactions(query: string, clock: FinanceTool.Clock) returns (reply: Reply)
      requires Valid()
      modifies tool.db
      ensures Valid() && unchanged(tool.db)
      ensures reply == Rendered(FinanceTool.ListTransactions(tool.db.transactions, NoArgs.(limit := Some(LimitOf(query)))))
    {
      var limit := LimitOf(query);
      var r := tool.Execute("get_transactions", NoArgs.(limit := Some(limit)), clock);
      reply := Rendered(r);
    }

    /** `spending_report`: the report over `DaysOf(query)` days. */
    method SpendingReport(query: string, clock: FinanceTool.Clock) returns (reply: Reply)
      requires Valid()
      modifies tool.db
      ensures Valid() && unchanged(tool.db)
      ensures reply == Rendered(FinanceTool.SpendingOf(tool.db.transactions, NoArgs.(days := Some(DaysOf(query))), clock))
    {
      var days := DaysOf(query);
      var r := tool.Execute("spending_report", NoArgs.(days := Some(days)), clock);
      reply := Rendered(r);
    }

    /** `_handle_expense_request`: ask for an amount, or post the expense the sentence describes. */
    method HandleExpenseRequest(input: string, clock: FinanceTool.Clock) returns (reply: string)
      requires Valid()
      modifies tool.db
      ensures Valid()
      ensures Performed(n, ExpenseCall(input), clock, old(tool.db.nextTxnId), old(tool.db.transactions), tool.db.transactions, Said(reply))
      ensures tool.db.goals == old(tool.db.goals) && tool.db.categories == old(tool.db.categories)
    {
      var amount := AmountText(input);
      if amount.None? {
        return AskSpent;
      }
      var category := ExpenseCategory(Lower(input));
      var description := Description(input, amount.value);
      reply := AddExpense(ToolInput(amount.value, category, description), clock);
    }

    /** `_handle_income_request`: ask for an amount, or post the income the sentence describes. */
    method HandleIncomeRequest(input: string, clock: FinanceTool.Clock) returns (reply: string)
      requires Valid()
      modifies tool.db
      ensures Valid()
      ensures Performed(n, IncomeCall(input), clock, old(tool.db.nextTxnId), old(tool.db.transactions), tool.db.transactions, Said(reply))
      ensures tool.db.goals == old(tool.db.goals) && tool.db.categories == old(tool.db.categories)
    {
      var amount := AmountText(input);
      if amount.None? {
        return AskEarned;
      }
      var category := IncomeCategory(Lower(input));
      var description := Description(input, amount.value);
      reply := AddIncome(ToolInput(amount.value, category, description), clock);
    }

    /** `process_request`: route the sentence by its keywords and perform the one call it leads to. */
    method ProcessRequest(input: string, clock: FinanceTool.Clock) returns (reply: Reply)
      requires Valid()
      modifies tool.db
      ensures Valid()
      ensures Performed(n, CallOf(input), clock, old(tool.db.nextTxnId), old(tool.db.transactions), tool.db.transactions, reply)
      ensures tool.db.goals == old(tool.db.goals) && tool.db.categories == old(tool.db.categories)
    {
      var l := Lower(input);
      if ContainsAny(l, ExpenseWords) {
        var text := HandleExpenseRequest(input, clock);
        reply := Said(text);
      } else if ContainsAny(l, IncomeWords) {
        var text := HandleIncomeRequest(input, clock);
        reply := Said(text);
      } else if ContainsAny(l, SummaryWords) {
        reply := GetSummary(clock);
      } else if ContainsAny(l, RecentWords) {
        reply := GetRecentTransactions("10", clock);
      } else if ContainsAny(l, ReportWords) {
        reply := SpendingReport("30", clock);
      } else {
        reply := Said(HelpText);
      }
    }
  }
}
