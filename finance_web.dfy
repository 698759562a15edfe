/**
 * The web front end's bridge to the finance client: it sends transactions
 * through the client's pipe-separated request and reads the client's text
 * replies back into records (transactions, the monthly summary and the
 * budget status).
 */
module FinanceWeb {
  import opened Text
  import opened FinanceClient
  import FinanceServer

  /** A reply dictionary: `success: True` with a payload, or `success: False` with an error. */
  datatype Outcome<T> = Success(value: T) | Failure(error: string)

  /** The characters `str` of a finite float may use. */
  predicate NumberChar(c: char)
  {
    IsDigitChar(c) || c == '.' || c == '-' || c == '+' || c == 'e'
  }

  /** A non-empty number text: digits, point, sign and exponent only. */
  predicate Plain(s: string)
  {
    |s| > 0 && forall i :: 0 <= i < |s| ==> NumberChar(s[i])
  }

  lemma PlainAbsent(s: string, c: char)
    requires Plain(s) && !NumberChar(c)
    ensures c !in s
  {
  }

  // ---------------------------------------------------------------------
  // add_transaction
  // ---------------------------------------------------------------------

  /** The request `add_transaction` hands to the client's add tool. */
  function PipeQuery(n: Numbers, amount: real, category: string, description: string, kind: string): string
  {
    n.str(amount) + "|" + category + "|" + description + "|" + kind
  }

  /** `add_transaction`: success exactly when the client's reply carries the check mark. */
  function AddTransaction(n: Numbers, amount: real, category: string, description: string, kind: string): (r: Outcome<string>)
    ensures r.Success? <==> Contains(AddTransactionReply(n, PipeQuery(n, amount, category, description, kind)), "✅")
  {
    var reply := AddTransactionReply(n, PipeQuery(n, amount, category, description, kind));
    if Contains(reply, "✅") then Success(reply) else Failure(reply)
  }

  /**
   * Fields without '|' and surrounding whitespace, and an amount whose text
   * reads back as itself, arrive intact: the client confirms exactly the
   * transaction that was sent and the web layer reports success.
   */
  lemma AddTransactionRoundTrip(n: Numbers, amount: real, category: string, description: string, kind: string)
    requires Plain(n.str(amount)) && n.read(n.str(amount)) == Some(amount)
    requires '|' !in category && '|' !in description && '|' !in kind
    requires Stripped(category) && Stripped(description) && Stripped(kind)
    ensures AddTransaction(n, amount, category, description, kind) == Success(Confirmation(n, kind, amount, category, description))
  {
    var a := n.str(amount);
    PlainAbsent(a, '|');
    PlainAbsent(a, '$');
    ReplaceAbsent(a, "$", "", 0);
    assert Stripped(a) by {
      assert NumberChar(a[0]) && NumberChar(a[|a| - 1]);
    }
    StructuredRequest(n, a, category, description, kind);
    assert AddTransactionReply(n, PipeQuery(n, amount, category, description, kind)) == Confirmation(n, kind, amount, category, description);
    ConfirmationMarked(n, kind, amount, category, description);
  }

  /** Every confirmation carries the check mark. */
  lemma ConfirmationMarked(n: Numbers, kind: string, amount: real, category: string, description: string)
    ensures Contains(Confirmation(n, kind, amount, category, description), "✅")
  {
    var c := Confirmation(n, kind, amount, category, description);
    assert c[0..1] == "✅";
    OccursContains(c, "✅", 0);
  }

  // ---------------------------------------------------------------------
  // get_transactions
  // ---------------------------------------------------------------------

  /** What a line of the listing contributes: nothing, a transaction, or the error `float` raised. */
  datatype LineResult<T> = Skip | Row(row: T) | Raise(error: string)

  /** Category and type from "<category> (<type>)"; without '(' the type is "expense". */
  function CategoryAndType(ct: string): (string, string)
  {
    if '(' in ct then
      SplitFound(ct, '(');
      var pieces := Split(ct, "(");
      (Strip(pieces[0]), Strip(Replace(pieces[1], ")", "")))
    else (ct, "expense")
  }

  /** The transaction after the date: "<amount> - <category> (<type>)", already split on " - ". */
  function TxnFromRest(n: Numbers, date: string, rest: seq<string>): LineResult<Entry>
  {
    if |rest| < 2 then Skip
    else
      match n.read(rest[0])
      case None => Raise(n.readError(rest[0]))
      case Some(amount) =>
        var (category, kind) := CategoryAndType(rest[1]);
        Row(Entry(date, amount, category, kind, ""))
  }

  /** The stripped line split on ": $": a date and the rest. */
  function TxnFromParts(n: Numbers, parts: seq<string>): LineResult<Entry>
  {
    if |parts| != 2 then Skip else TxnFromRest(n, parts[0], Split(parts[1], " - "))
  }

  /** One listing line "  <date>: $<amount> - <category> (<type>)"; a line of another shape is skipped. */
  function ParseTxnLine(n: Numbers, line: string): (r: LineResult<Entry>)
    ensures r.Row? ==> r.row.description == ""
  {
    if Strip(line) == "" || ':' !in line || '$' !in line then Skip
    else TxnFromParts(n, Split(Strip(line), ": $"))
  }

  /** The transactions of a run of lines, appended to `acc`; the first error `float` raises ends the parse. */
  function TxnRows(n: Numbers, acc: seq<Entry>, lines: seq<string>): (r: Outcome<seq<Entry>>)
    decreases |lines|
    ensures r.Success? ==> |acc| <= |r.value| <= |acc| + |lines|
  {
    if |lines| == 0 then Success(acc)
    else
      match ParseTxnLine(n, lines[0])
      case Skip => TxnRows(n, acc, lines[1..])
      case Row(e) => TxnRows(n, acc + [e], lines[1..])
      case Raise(m) => Failure(m)
  }

  /** Every transaction read from the listing has an empty description. */
  lemma {:induction false} TxnRowsDescriptions(n: Numbers, acc: seq<Entry>, lines: seq<string>)
    requires forall i :: 0 <= i < |acc| ==> acc[i].description == ""
    ensures TxnRows(n, acc, lines).Success? ==>
      forall i :: 0 <= i < |TxnRows(n, acc, lines).value| ==> TxnRows(n, acc, lines).value[i].description == ""
    decreases |lines|
  {
    if |lines| > 0 {
      match ParseTxnLine(n, lines[0])
      case Skip => TxnRowsDescriptions(n, acc, lines[1..]);
      case Row(e) => TxnRowsDescriptions(n, acc + [e], lines[1..]);
      case Raise(m) =>
    }
  }

  /** The parse of the listing text: lines after the header, provided the header markers are there. */
  function ParseTransactions(n: Numbers, text: string): (r: Outcome<seq<Entry>>)
    ensures !(Contains(text, "📋") && Contains(text, "transactions:")) ==> r == Failure("Failed to parse transactions")
  {
    if Contains(text, "📋") && Contains(text, "transactions:") then TxnRows(n, [], Split(text, "\n")[1..])
    else Failure("Failed to parse transactions")
  }

  /** `get_transactions`: the parse of the client's listing, line by line. */
  method GetTransactions(n: Numbers, text: string) returns (r: Outcome<seq<Entry>>)
    ensures r == ParseTransactions(n, text)
  {
    if !(Contains(text, "📋") && Contains(text, "transactions:")) {
      return Failure("Failed to parse transactions");
    }
    var lines := Split(text, "\n")[1..];
    var transactions: seq<Entry> := [];
    var i := 0;
    while i < |lines|
      invariant 0 <= i <= |lines|
      invariant TxnRows(n, [], lines) == TxnRows(n, transactions, lines[i..])
    {
      assert lines[i..][1..] == lines[i + 1..];
      var row := ParseTxnLine(n, lines[i]);
      match row {
        case Skip =>
        case Row(e) => transactions := transactions + [e];
        case Raise(m) => return Failure(m);
      }
      i := i + 1;
    }
    r := Success(transactions);
  }

  /** A transaction whose listing line reads back unambiguously. */
  predicate Listable(n: Numbers, e: Entry)
  {
    && |e.date| > 0 && !IsSpace(e.date[0]) && '$' !in e.date && '\n' !in e.date
    && Plain(n.str(e.amount)) && n.read(n.str(e.amount)) == Some(e.amount)
    && Stripped(e.category) && '$' !in e.category && '-' !in e.category && '(' !in e.category && '\n' !in e.category
    && Stripped(e.kind) && '$' !in e.kind && '-' !in e.kind && '(' !in e.kind && ')' !in e.kind && '\n' !in e.kind
  }

  lemma SplitCategoryAndType(category: string, kind: string)
    requires '(' !in category && '(' !in kind
    ensures Split(category + " (" + kind + ")", "(") == [category + " ", kind + ")"]
  {
    assert category + " (" + kind + ")" == (category + " ") + "(" + (kind + ")");
    assert "("[..0] == "";
    assert (category + " ") + "" == category + " ";
    SplitAfter(category + " ", "(", kind + ")", 0);
    SplitNone(kind + ")", "(", 0);
  }

  lemma CategoryAndTypeRoundTrip(category: string, kind: string)
    requires Stripped(category) && '(' !in category
    requires Stripped(kind) && '(' !in kind && ')' !in kind
    ensures CategoryAndType(category + " (" + kind + ")") == (category, kind)
  {
    var ct := category + " (" + kind + ")";
    assert ct[|category| + 1] == '(';
    SplitCategoryAndType(category, kind);
    StripPadded("", category, " ");
    assert "" + category + " " == category + " ";
    assert ")"[..0] == "";
    assert kind + "" == kind;
    ReplaceAfter(kind, ")", "", "", 0);
    assert Replace("", ")", "") == "";
    assert kind + ")" + "" == kind + ")";
    StripStripped(kind);
  }

  lemma TxnFromRestRoundTrip(n: Numbers, e: Entry)
    requires Listable(n, e)
    ensures TxnFromRest(n, e.date, Split(n.str(e.amount) + " - " + (e.category + " (" + e.kind + ")"), " - "))
         == Row(e.(description := ""))
  {
    var s := n.str(e.amount);
    var ct := e.category + " (" + e.kind + ")";
    PlainAbsent(s, ' ');
    assert s + " - "[..0] == s;
    SplitAfter(s, " - ", ct, 0);
    assert " - "[1] == '-';
    SplitNone(ct, " - ", 1);
    CategoryAndTypeRoundTrip(e.category, e.kind);
    TxnFromTwo(n, e.date, s, ct, [s] + [ct]);
  }

  /** Two pieces after the date read as an amount and a category with its type. */
  lemma TxnFromTwo(n: Numbers, date: string, a: string, b: string, rest: seq<string>)
    requires rest == [a] + [b] && n.read(a).Some?
    ensures TxnFromRest(n, date, rest)
         == Row(Entry(date, n.read(a).value, CategoryAndType(b).0, CategoryAndType(b).1, ""))
  {
    assert rest[0] == a && rest[1] == b;
  }

  lemma TxnFromPartsRoundTrip(n: Numbers, e: Entry)
    requires Listable(n, e)
    ensures TxnFromParts(n, Split(e.date + ": $" + (n.str(e.amount) + " - " + (e.category + " (" + e.kind + ")")), ": $"))
         == Row(e.(description := ""))
  {
    var s := n.str(e.amount);
    var b := s + " - " + (e.category + " (" + e.kind + ")");
    PlainAbsent(s, '$');
    assert ": $"[..2] == ": ";
    SplitAfter(e.date, ": $", b, 2);
    SplitNone(b, ": $", 2);
    TxnFromPair(n, e.date, b, Split(b, ": $"));
    TxnFromRestRoundTrip(n, e);
  }

  /** A line that splits into a date and one more part is read from that part. */
  lemma TxnFromPair(n: Numbers, date: string, b: string, tail: seq<string>)
    requires tail == [b]
    ensures TxnFromParts(n, [date] + tail) == TxnFromRest(n, date, Split(b, " - "))
  {
    assert ([date] + tail)[1] == b;
  }

  /** A listing line reads back as the transaction it shows, without its description. */
  lemma TxnLineRoundTrip(n: Numbers, e: Entry)
    requires Listable(n, e)
    ensures ParseTxnLine(n, TxnLine(n, e)) == Row(e.(description := ""))
  {
    var x := e.date + ": $" + (n.str(e.amount) + " - " + (e.category + " (" + e.kind + ")"));
    TxnLineShape(n, e, x);
    TxnFromPartsRoundTrip(n, e);
  }

  /** A listing line strips to its body and holds the ':' and '$' the parser looks for. */
  lemma TxnLineShape(n: Numbers, e: Entry, x: string)
    requires Listable(n, e)
    requires x == e.date + ": $" + (n.str(e.amount) + " - " + (e.category + " (" + e.kind + ")"))
    ensures Strip(TxnLine(n, e)) == x != ""
    ensures ':' in TxnLine(n, e) && '$' in TxnLine(n, e)
  {
    var line := TxnLine(n, e);
    Nest9("  ", e.date, ": $", n.str(e.amount), " - ", e.category, " (", e.kind, ")");
    assert Stripped(x) by {
      assert x[0] == e.date[0];
      assert x[|x| - 1] == ')';
    }
    StripPadded("  ", x, "");
    assert line[2 + |e.date|] == ':' && line[4 + |e.date|] == '$';
  }

  /** The transactions with their descriptions cleared, as the listing shows them. */
  function Undescribed(es: seq<Entry>): (r: seq<Entry>)
    ensures |r| == |es|
    ensures forall i :: 0 <= i < |es| ==> r[i] == es[i].(description := "")
  {
    if |es| == 0 then [] else [es[0].(description := "")] + Undescribed(es[1..])
  }

  lemma TxnRowsStep(n: Numbers, acc: seq<Entry>, line: string, lines: seq<string>, e: Entry)
    requires ParseTxnLine(n, line) == Row(e)
    ensures TxnRows(n, acc, [line] + lines) == TxnRows(n, acc + [e], lines)
  {
    assert ([line] + lines)[0] == line;
    assert ([line] + lines)[1..] == lines;
  }

  lemma TxnRowsHead(n: Numbers, acc: seq<Entry>, e: Entry, rest: seq<string>)
    requires Listable(n, e)
    ensures TxnRows(n, acc, [TxnLine(n, e)] + rest) == TxnRows(n, acc + [e.(description := "")], rest)
  {
    TxnLineRoundTrip(n, e);
    TxnRowsStep(n, acc, TxnLine(n, e), rest, e.(description := ""));
  }

  lemma TxnRowsBlank(n: Numbers, acc: seq<Entry>)
    ensures TxnRows(n, acc, [""]) == Success(acc)
  {
    assert Strip("") == "";
    assert ParseTxnLine(n, "") == Skip;
    assert [""][1..] == [];
  }

  lemma UndescribedCons(acc: seq<Entry>, es: seq<Entry>)
    requires |es| > 0
    ensures acc + Undescribed(es) == acc + [es[0].(description := "")] + Undescribed(es[1..])
  {
  }

  /** The listed lines, followed by the empty text after the final newline, read back as the listed transactions. */
  lemma {:induction false} TxnRowsRoundTrip(n: Numbers, acc: seq<Entry>, es: seq<Entry>)
    requires forall i :: 0 <= i < |es| ==> Listable(n, es[i])
    ensures TxnRows(n, acc, TxnLines(n, es) + [""]) == Success(acc + Undescribed(es))
    decreases |es|
  {
    if |es| == 0 {
      assert TxnLines(n, es) + [""] == [""];
      TxnRowsBlank(n, acc);
      assert acc + Undescribed(es) == acc;
    } else {
      var e := es[0].(description := "");
      var rest := TxnLines(n, es[1..]) + [""];
      assert TxnLines(n, es) + [""] == [TxnLine(n, es[0])] + rest;
      TxnRowsHead(n, acc, es[0], rest);
      assert forall i :: 0 <= i < |es[1..]| ==> Listable(n, es[1..][i]) by {
        forall i | 0 <= i < |es[1..]|
          ensures Listable(n, es[1..][i])
        {
          assert es[1..][i] == es[i + 1];
        }
      }
      TxnRowsRoundTrip(n, acc + [e], es[1..]);
      UndescribedCons(acc, es);
    }
  }

  /**
   * The client's listing of transactions that read back unambiguously is
   * parsed into the first five of them, each without its description.
   */
  lemma ListingRoundTrip(n: Numbers, es: seq<Entry>)
    requires forall i :: 0 <= i < |es| ==> Listable(n, es[i])
    ensures ParseTransactions(n, Lines(ListingLines(n, es))) == Success(Undescribed(es[..Min(5, |es|)]))
  {
    var firsts := es[..Min(5, |es|)];
    ListingParts(n, es);
    assert forall i :: 0 <= i < |firsts| ==> Listable(n, firsts[i]);
    TxnRowsRoundTrip(n, [], firsts);
    assert [] + Undescribed(firsts) == Undescribed(firsts);
  }

  /** The listing carries both header marks, and its lines after the header are the rows and a final blank. */
  lemma ListingParts(n: Numbers, es: seq<Entry>)
    requires forall i :: 0 <= i < |es| ==> Listable(n, es[i])
    ensures Contains(Lines(ListingLines(n, es)), "📋") && Contains(Lines(ListingLines(n, es)), "transactions:")
    ensures Split(Lines(ListingLines(n, es)), "\n")[1..] == TxnLines(n, es[..Min(5, |es|)]) + [""]
  {
    ListingSplits(n, es);
    HeaderedRows(NatText(|es|), TxnLines(n, es[..Min(5, |es|)]));
  }

  /** Text headed by the listing's header line, whose lines split back, has both marks and its rows after the header. */
  lemma HeaderedRows(count: string, rows: seq<string>)
    requires Split(Lines(["📋 Found " + count + " transactions:"] + rows), "\n") == ["📋 Found " + count + " transactions:"] + rows + [""]
    ensures Contains(Lines(["📋 Found " + count + " transactions:"] + rows), "📋")
    ensures Contains(Lines(["📋 Found " + count + " transactions:"] + rows), "transactions:")
    ensures Split(Lines(["📋 Found " + count + " transactions:"] + rows), "\n")[1..] == rows + [""]
  {
    var head := "📋 Found " + count + " transactions:";
    var ls := [head] + rows;
    assert ls[1..] == rows;
    assert Lines(ls) == head + ("\n" + Lines(rows));
    HeaderMarks(count, "\n" + Lines(rows));
    assert ([head] + rows + [""])[1..] == rows + [""];
  }

  /** The listing's text splits back into its lines. */
  lemma ListingSplits(n: Numbers, es: seq<Entry>)
    requires forall i :: 0 <= i < |es| ==> Listable(n, es[i])
    ensures Split(Lines(ListingLines(n, es)), "\n") == ListingLines(n, es) + [""]
  {
    var ls := ListingLines(n, es);
    var count := NatText(|es|);
    assert IsDigits(count);
    assert '\n' !in ls[0];
    forall i | 1 <= i < |ls|
      ensures '\n' !in ls[i]
    {
      var e := es[i - 1];
      assert ls[i] == "  " + e.date + ": $" + n.str(e.amount) + " - " + e.category + " (" + e.kind + ")";
      PlainAbsent(n.str(e.amount), '\n');
    }
    SplitLines(ls);
  }

  lemma HeaderMarks(count: string, rest: string)
    ensures Contains("📋 Found " + count + " transactions:" + rest, "📋")
    ensures Contains("📋 Found " + count + " transactions:" + rest, "transactions:")
  {
    var t := "📋 Found " + count + " transactions:" + rest;
    assert t[0..1] == "📋";
    OccursContains(t, "📋", 0);
    var k := |"📋 Found " + count + " "|;
    assert t[k..k + 13] == "transactions:";
    OccursContains(t, "transactions:", k);
  }

  // ---------------------------------------------------------------------
  // get_financial_summary
  // ---------------------------------------------------------------------

  /** The message of the IndexError a missing split part raises. */
  const IndexError := "list index out of range"

  /** The figures read from the summary's lines; `None` for a key never set. */
  datatype Figures = Figures(income: Option<real>, expenses: Option<real>, net: Option<real>, savingsRate: Option<real>, period: Option<string>)

  const NoFigures := Figures(None, None, None, None, None)

  /** The parsed summary: the figures and the amount of each listed category. */
  datatype SummaryData = SummaryData(figures: Figures, byCategory: map<string, real>)

  /** `float(line.split('$')[1])`. */
  function DollarAmount(n: Numbers, line: string): Outcome<real>
  {
    var parts := Split(line, "$");
    if |parts| < 2 then Failure(IndexError)
    else match n.read(parts[1])
      case None => Failure(n.readError(parts[1]))
      case Some(x) => Success(x)
  }

  /** `float(line.split(': ')[1].replace('%', ''))`. */
  function RateAmount(n: Numbers, line: string): Outcome<real>
  {
    var parts := Split(line, ": ");
    if |parts| < 2 then Failure(IndexError)
    else match n.read(Replace(parts[1], "%", ""))
      case None => Failure(n.readError(Replace(parts[1], "%", "")))
      case Some(x) => Success(x)
  }

  /** `line.split('for ')[1].replace(':', '')`. */
  function PeriodText(line: string): Outcome<string>
  {
    var parts := Split(line, "for ");
    if |parts| < 2 then Failure(IndexError) else Success(Replace(parts[1], ":", ""))
  }

  /** One line of the figures pass: the first label the line mentions decides which figure it sets. */
  function FigureStep(n: Numbers, f: Figures, line: string): Outcome<Figures>
  {
    if Contains(line, "Income:") then
      (match DollarAmount(n, line) case Failure(m) => Failure(m) case Success(x) => Success(f.(income := Some(x))))
    else if Contains(line, "Expenses:") then
      (match DollarAmount(n, line) case Failure(m) => Failure(m) case Success(x) => Success(f.(expenses := Some(x))))
    else if Contains(line, "Net:") then
      (match DollarAmount(n, line) case Failure(m) => Failure(m) case Success(x) => Success(f.(net := Some(x))))
    else if Contains(line, "Savings Rate:") then
      (match RateAmount(n, line) case Failure(m) => Failure(m) case Success(x) => Success(f.(savingsRate := Some(x))))
    else if Contains(line, "Financial Summary for") then
      (match PeriodText(line) case Failure(m) => Failure(m) case Success(p) => Success(f.(period := Some(p))))
    else Success(f)
  }

  /** The figures pass over a run of lines, from `f`; the first error raised ends it. */
  function FiguresOf(n: Numbers, f: Figures, lines: seq<string>): Outcome<Figures>
    decreases |lines|
  {
    if |lines| == 0 then Success(f)
    else
      match FigureStep(n, f, lines[0])
      case Failure(m) => Failure(m)
      case Success(g) => FiguresOf(n, g, lines[1..])
  }

  /** The category pass's state: whether "Top expenses:" was seen, and the amounts read so far. */
  datatype Section = Section(open: bool, amounts: map<string, real>)

  const Closed := Section(false, map[])

  /** One line of the category pass: "- <category>: $<amount>" lines after the section header. */
  function CategoryStep(n: Numbers, st: Section, line: string): Outcome<Section>
  {
    if Contains(line, "Top expenses:") then Success(st.(open := true))
    else if st.open && Contains(line, "- ") && '$' in line then
      var parts := Split(Strip(line), ": $");
      if |parts| != 2 then Success(st)
      else
        match n.read(parts[1])
        case None => Failure(n.readError(parts[1]))
        case Some(x) => Success(st.(amounts := st.amounts[Strip(Replace(parts[0], "- ", "")) := x]))
    else Success(st)
  }

  function CategoryAmounts(n: Numbers, st: Section, lines: seq<string>): Outcome<Section>
    decreases |lines|
  {
    if |lines| == 0 then Success(st)
    else
      match CategoryStep(n, st, lines[0])
      case Failure(m) => Failure(m)
      case Success(st') => CategoryAmounts(n, st', lines[1..])
  }

  /** The position of the first line mentioning "Top expenses:", or the number of lines. */
  function FirstMarked(lines: seq<string>): (k: nat)
    ensures k <= |lines|
    ensures k < |lines| ==> Contains(lines[k], "Top expenses:")
    ensures forall j :: 0 <= j < k ==> !Contains(lines[j], "Top expenses:")
  {
    if |lines| == 0 || Contains(lines[0], "Top expenses:") then 0 else 1 + FirstMarked(lines[1..])
  }

  /** Both passes: figures from `figureLines`, categories from all `lines`. */
  function SummaryFrom(n: Numbers, figureLines: seq<string>, lines: seq<string>): Outcome<SummaryData>
  {
    match FiguresOf(n, NoFigures, figureLines)
    case Failure(m) => Failure(m)
    case Success(f) =>
      match CategoryAmounts(n, Closed, lines)
      case Failure(m) => Failure(m)
      case Success(st) => Success(SummaryData(f, st.amounts))
  }

  predicate SummaryMarked(text: string)
  {
    Contains(text, "📊") && Contains(text, "Financial Summary")
  }

  /** `get_financial_summary` as written: the figures pass reads every line, category lines included. */
  function ParseSummaryAsWritten(n: Numbers, text: string): (r: Outcome<SummaryData>)
    ensures !SummaryMarked(text) ==> r == Failure("Failed to parse summary")
  {
    if !SummaryMarked(text) then Failure("Failed to parse summary")
    else SummaryFrom(n, Split(text, "\n"), Split(text, "\n"))
  }

  /** `get_financial_summary` with the figures pass stopped at the category section. */
  function ParseSummary(n: Numbers, text: string): (r: Outcome<SummaryData>)
    ensures !SummaryMarked(text) ==> r == Failure("Failed to parse summary")
  {
    if !SummaryMarked(text) then Failure("Failed to parse summary")
    else
      var lines := Split(text, "\n");
      SummaryFrom(n, lines[..FirstMarked(lines)], lines)
  }

  /**
   * A figures pass that gets through a run of lines gets through each of its
   * prefixes.
   */
  lemma {:induction false} FiguresPrefixSucceeds(n: Numbers, f: Figures, lines: seq<string>, k: nat)
    requires k <= |lines| && FiguresOf(n, f, lines).Success?
    ensures FiguresOf(n, f, lines[..k]).Success?
    decreases k
  {
    if k > 0 {
      var step := FigureStep(n, f, lines[0]);
      assert step.Success?;
      FiguresPrefixSucceeds(n, step.value, lines[1..], k - 1);
      assert lines[..k][0] == lines[0];
      assert lines[..k][1..] == lines[1..][..k - 1];
    }
  }

  /**
   * The parse as written and the corrected parse differ in the figures only:
   * whatever the first reads, the second reads too, with the same categories,
   * and both reject an unmarked reply alike.
   */
  lemma AsWrittenSameCategories(n: Numbers, text: string)
    ensures ParseSummaryAsWritten(n, text).Success? ==>
      ParseSummary(n, text).Success?
      && ParseSummary(n, text).value.byCategory == ParseSummaryAsWritten(n, text).value.byCategory
    ensures !SummaryMarked(text) ==> ParseSummaryAsWritten(n, text) == ParseSummary(n, text)
  {
    if SummaryMarked(text) && ParseSummaryAsWritten(n, text).Success? {
      var lines := Split(text, "\n");
      FiguresPrefixSucceeds(n, NoFigures, lines, FirstMarked(lines));
    }
  }

  /**
   * `get_financial_summary` with the figures loop stopped at the category
   * section: the corrected parse of the "## Findings" row, whose as-written
   * form is `ParseSummaryAsWritten`.
   */
  method GetFinancialSummary(n: Numbers, text: string) returns (r: Outcome<SummaryData>)
    ensures r == ParseSummary(n, text)
  {
    if !SummaryMarked(text) {
      return Failure("Failed to parse summary");
    }
    var lines := Split(text, "\n");
    ghost var head := lines[..FirstMarked(lines)];
    var figures := NoFigures;
    var i := 0;
    while i < |lines| && !Contains(lines[i], "Top expenses:")
      invariant 0 <= i <= FirstMarked(lines)
      invariant FiguresOf(n, NoFigures, head) == FiguresOf(n, figures, head[i..])
    {
      assert head[i..][1..] == head[i + 1..];
      var step := FigureStep(n, figures, lines[i]);
      if step.Failure? {
        return Failure(step.error);
      }
      figures := step.value;
      i := i + 1;
    }
    assert head[i..] == [];
    var section := Closed;
    var j := 0;
    while j < |lines|
      invariant 0 <= j <= |lines|
      invariant CategoryAmounts(n, Closed, lines) == CategoryAmounts(n, section, lines[j..])
    {
      assert lines[j..][1..] == lines[j + 1..];
      var step := CategoryStep(n, section, lines[j]);
      if step.Failure? {
        return Failure(step.error);
      }
      section := step.value;
      j := j + 1;
    }
    r := Success(SummaryData(figures, section.amounts));
  }

  // Reading the summary back, line by line

  /** The amount's text is plain and reads back as the amount. */
  predicate Readable(n: Numbers, x: real)
  {
    Plain(n.str(x)) && n.read(n.str(x)) == Some(x)
  }

  lemma DollarAfter(n: Numbers, lead: string, s: string)
    requires '$' !in lead && Plain(s) && n.read(s).Some?
    ensures DollarAmount(n, lead + "$" + s) == Success(n.read(s).value)
  {
    assert lead + "$"[..0] == lead;
    SplitAfter(lead, "$", s, 0);
    PlainAbsent(s, '$');
    SplitNone(s, "$", 0);
  }

  lemma IncomeLine(n: Numbers, f: Figures, s: string)
    requires Plain(s) && n.read(s).Some?
    ensures FigureStep(n, f, "  💰 Income: $" + s) == Success(f.(income := n.read(s)))
  {
    var line := "  💰 Income: $" + s;
    assert line[4..11] == "Income:";
    OccursContains(line, "Income:", 4);
    DollarAfter(n, "  💰 Income: ", s);
    assert "  💰 Income: " + "$" + s == line;
  }

  lemma ExpensesLine(n: Numbers, f: Figures, s: string)
    requires Plain(s) && n.read(s).Some?
    ensures FigureStep(n, f, "  💸 Expenses: $" + s) == Success(f.(expenses := n.read(s)))
  {
    var line := "  💸 Expenses: $" + s;
    PlainAbsent(s, 'I');
    AbsentChar(line, "Income:", 0);
    assert line[4..13] == "Expenses:";
    OccursContains(line, "Expenses:", 4);
    DollarAfter(n, "  💸 Expenses: ", s);
    assert "  💸 Expenses: " + "$" + s == line;
  }

  lemma NetLine(n: Numbers, f: Figures, s: string)
    requires Plain(s) && n.read(s).Some?
    ensures FigureStep(n, f, "  🏦 Net: $" + s) == Success(f.(net := n.read(s)))
  {
    var line := "  🏦 Net: $" + s;
    PlainAbsent(s, 'I');
    PlainAbsent(s, 'E');
    AbsentChar(line, "Income:", 0);
    AbsentChar(line, "Expenses:", 0);
    assert line[4..8] == "Net:";
    OccursContains(line, "Net:", 4);
    DollarAfter(n, "  🏦 Net: ", s);
    assert "  🏦 Net: " + "$" + s == line;
  }

  lemma RateStep(n: Numbers, f: Figures, line: string, x: real)
    requires !Contains(line, "Income:") && !Contains(line, "Expenses:") && !Contains(line, "Net:")
    requires Contains(line, "Savings Rate:") && RateAmount(n, line) == Success(x)
    ensures FigureStep(n, f, line) == Success(f.(savingsRate := Some(x)))
  {
  }

  lemma PeriodStep(n: Numbers, f: Figures, line: string, p: string)
    requires !Contains(line, "Income:") && !Contains(line, "Expenses:") && !Contains(line, "Net:") && !Contains(line, "Savings Rate:")
    requires Contains(line, "Financial Summary for") && PeriodText(line) == Success(p)
    ensures FigureStep(n, f, line) == Success(f.(period := Some(p)))
  {
  }

  lemma RateLine(n: Numbers, f: Figures, s: string)
    requires Plain(s) && n.read(s).Some?
    ensures FigureStep(n, f, "  📈 Savings Rate: " + s + "%") == Success(f.(savingsRate := n.read(s)))
  {
    RateLabels(s);
    RateText(n, s);
    RateStep(n, f, "  📈 Savings Rate: " + s + "%", n.read(s).value);
  }

  lemma RateLabels(s: string)
    requires Plain(s)
    ensures var line := "  📈 Savings Rate: " + s + "%";
      && !Contains(line, "Income:") && !Contains(line, "Expenses:") && !Contains(line, "Net:")
      && Contains(line, "Savings Rate:")
  {
    var line := "  📈 Savings Rate: " + s + "%";
    PlainAbsent(s, 'I');
    PlainAbsent(s, 'E');
    PlainAbsent(s, 'N');
    AbsentChar(line, "Income:", 0);
    AbsentChar(line, "Expenses:", 0);
    AbsentChar(line, "Net:", 0);
    RateMentionsLabel();
    ContainsPrefix("  📈 Savings Rate: ", s + "%", "Savings Rate:");
    assert "  📈 Savings Rate: " + (s + "%") == line;
  }

  lemma RateMentionsLabel()
    ensures Contains("  📈 Savings Rate: ", "Savings Rate:")
  {
    ContainsMiddle("  📈 ", "Savings Rate:", " ");
    assert "  📈 " + "Savings Rate:" + " " == "  📈 Savings Rate: ";
  }

  lemma RateText(n: Numbers, s: string)
    requires Plain(s) && n.read(s).Some?
    ensures RateAmount(n, "  📈 Savings Rate: " + s + "%") == Success(n.read(s).value)
  {
    PlainAbsent(s, ':');
    PlainAbsent(s, '%');
    var line := "  📈 Savings Rate: " + s + "%";
    assert line == "  📈 Savings Rate" + ": " + (s + "%");
    assert "  📈 Savings Rate" + ": "[..0] == "  📈 Savings Rate";
    SplitAfter("  📈 Savings Rate", ": ", s + "%", 0);
    SplitNone(s + "%", ": ", 0);
    assert s + "%"[..0] == s;
    ReplaceAfter(s, "%", "", "", 0);
    assert s + "%" + "" == s + "%";
    assert Replace("", "%", "") == "";
    assert s + "" + "" == s;
  }

  lemma PeriodLine(n: Numbers, f: Figures, p: string)
    requires Plain(p)
    ensures FigureStep(n, f, "📊 Financial Summary for " + p + ":") == Success(f.(period := Some(p)))
  {
    PeriodLabels(p);
    PeriodOf(p);
    PeriodStep(n, f, "📊 Financial Summary for " + p + ":", p);
  }

  lemma PeriodLabels(p: string)
    requires Plain(p)
    ensures var line := "📊 Financial Summary for " + p + ":";
      && !Contains(line, "Income:") && !Contains(line, "Expenses:") && !Contains(line, "Net:")
      && !Contains(line, "Savings Rate:") && Contains(line, "Financial Summary for")
  {
    var line := "📊 Financial Summary for " + p + ":";
    PlainAbsent(p, 'I');
    PlainAbsent(p, 'E');
    PlainAbsent(p, 'N');
    PlainAbsent(p, 'v');
    HeaderLetters();
    FramedLacks("📊 Financial Summary for ", p, ":", 'I', "Income:", 0);
    FramedLacks("📊 Financial Summary for ", p, ":", 'E', "Expenses:", 0);
    FramedLacks("📊 Financial Summary for ", p, ":", 'N', "Net:", 0);
    FramedLacks("📊 Financial Summary for ", p, ":", 'v', "Savings Rate:", 2);
    HeaderMentionsSummary();
    ContainsPrefix("📊 Financial Summary for ", p + ":", "Financial Summary for");
    assert "📊 Financial Summary for " + (p + ":") == line;
  }

  /** A value framed by text that lacks one letter of a label does not mention that label. */
  lemma FramedLacks(a: string, v: string, b: string, c: char, name: string, k: nat)
    requires k < |name| && name[k] == c && c !in a && c !in v && c !in b
    ensures !Contains(a + v + b, name)
  {
    AbsentChar(a + v + b, name, k);
  }

  lemma HeaderLetters()
    ensures var h := "📊 Financial Summary for ";
      'I' !in h && 'E' !in h && 'N' !in h && 'v' !in h
  {
  }

  lemma HeaderMentionsSummary()
    ensures Contains("📊 Financial Summary for ", "Financial Summary for")
  {
    var s := "📊 Financial Summary for ";
    assert s[2..] == "Financial Summary for ";
    assert s[2..|s| - 1] == "Financial Summary for";
    OccursContains(s, "Financial Summary for", 2);
  }

  lemma PeriodOf(p: string)
    requires Plain(p)
    ensures PeriodText("📊 Financial Summary for " + p + ":") == Success(p)
  {
    PlainAbsent(p, 'f');
    PlainAbsent(p, ':');
    var line := "📊 Financial Summary for " + p + ":";
    assert line == "📊 Financial Summary " + "for " + (p + ":");
    assert "📊 Financial Summary " + "for "[..0] == "📊 Financial Summary ";
    SplitAfter("📊 Financial Summary ", "for ", p + ":", 0);
    SplitNone(p + ":", "for ", 0);
    assert p + ":"[..0] == p;
    ReplaceAfter(p, ":", "", "", 0);
    assert p + ":" + "" == p + ":";
    assert Replace("", ":", "") == "";
    assert p + "" + "" == p;
  }

  lemma BlankFigures(n: Numbers, f: Figures)
    ensures FigureStep(n, f, "") == Success(f)
  {
    AbsentChar("", "Income:", 0);
    AbsentChar("", "Expenses:", 0);
    AbsentChar("", "Net:", 0);
    AbsentChar("", "Savings Rate:", 0);
    AbsentChar("", "Financial Summary for", 0);
  }

  lemma FiguresCons(n: Numbers, f: Figures, line: string, rest: seq<string>, g: Figures)
    requires FigureStep(n, f, line) == Success(g)
    ensures FiguresOf(n, f, [line] + rest) == FiguresOf(n, g, rest)
  {
    assert ([line] + rest)[0] == line;
    assert ([line] + rest)[1..] == rest;
  }

  /** A summary the client can show and this parser can read back unambiguously. */
  predicate Showable(n: Numbers, r: ToolReply)
  {
    && r.Summarised? && Plain(r.period)
    && Readable(n, r.income) && Readable(n, r.expenses) && Readable(n, r.net) && Readable(n, r.savingsRate)
  }

  /** The figures the summary shows. */
  function ShownFigures(r: ToolReply): Figures
    requires r.Summarised?
  {
    Figures(Some(r.income), Some(r.expenses), Some(r.net), Some(r.savingsRate), Some(r.period))
  }

  /** The figures pass over the five fixed lines, and then over any run of lines that sets nothing, reads back the shown figures. */
  lemma FiguresOfHead(n: Numbers, r: ToolReply, rest: seq<string>)
    requires Showable(n, r)
    ensures FiguresOf(n, NoFigures, SummaryHead(n, r) + rest) == FiguresOf(n, ShownFigures(r), rest)
  {
    var f0 := NoFigures;
    var f1 := f0.(period := Some(r.period));
    var f2 := f1.(income := Some(r.income));
    var f3 := f2.(expenses := Some(r.expenses));
    var f4 := f3.(net := Some(r.net));
    var f5 := f4.(savingsRate := Some(r.savingsRate));
    PeriodLine(n, f0, r.period);
    IncomeLine(n, f1, n.str(r.income));
    ExpensesLine(n, f2, n.str(r.expenses));
    NetLine(n, f3, n.str(r.net));
    RateLine(n, f4, n.str(r.savingsRate));
    FiguresFive(n, "📊 Financial Summary for " + r.period + ":", "  💰 Income: $" + n.str(r.income),
      "  💸 Expenses: $" + n.str(r.expenses), "  🏦 Net: $" + n.str(r.net), "  📈 Savings Rate: " + n.str(r.savingsRate) + "%",
      rest, f0, f1, f2, f3, f4, f5);
  }

  /** Five lines stepping the figures from `f0` to `f5` in turn. */
  lemma FiguresFive(n: Numbers, l0: string, l1: string, l2: string, l3: string, l4: string, rest: seq<string>,
                    f0: Figures, f1: Figures, f2: Figures, f3: Figures, f4: Figures, f5: Figures)
    requires FigureStep(n, f0, l0) == Success(f1) && FigureStep(n, f1, l1) == Success(f2)
    requires FigureStep(n, f2, l2) == Success(f3) && FigureStep(n, f3, l3) == Success(f4)
    requires FigureStep(n, f4, l4) == Success(f5)
    ensures FiguresOf(n, f0, [l0, l1, l2, l3, l4] + rest) == FiguresOf(n, f5, rest)
  {
    var t4 := [l4] + rest;
    var t3 := [l3] + t4;
    var t2 := [l2] + t3;
    var t1 := [l1] + t2;
    assert [l0, l1, l2, l3, l4] + rest == [l0] + t1;
    FiguresCons(n, f0, l0, t1, f1);
    FiguresCons(n, f1, l1, t2, f2);
    FiguresCons(n, f2, l2, t3, f3);
    FiguresCons(n, f3, l3, t4, f4);
    FiguresCons(n, f4, l4, rest, f5);
  }

  /** A category whose line reads back as its name and amount. */
  predicate ShownCategory(n: Numbers, c: (string, real))
  {
    && Readable(n, c.1) && Stripped(c.0) && '$' !in c.0 && '\n' !in c.0
    && !Contains(c.0, "- ") && !Contains(CategoryLine(n, c), "Top expenses:")
  }

  /** The map built by assigning each category its amount in order, a later name overriding an earlier one. */
  function Assign(m: map<string, real>, cs: seq<(string, real)>): (r: map<string, real>)
    ensures m.Keys <= r.Keys
    ensures forall i :: 0 <= i < |cs| ==> cs[i].0 in r
    decreases |cs|
  {
    if |cs| == 0 then m
    else
      var r := Assign(m[cs[0].0 := cs[0].1], cs[1..]);
      assert forall i :: 1 <= i < |cs| ==> cs[i] == cs[1..][i - 1];
      r
  }

  lemma ClosedSkips(n: Numbers, st: Section, line: string)
    requires !st.open && !Contains(line, "Top expenses:")
    ensures CategoryStep(n, st, line) == Success(st)
  {
  }

  lemma CategoryCons(n: Numbers, st: Section, line: string, rest: seq<string>, st': Section)
    requires CategoryStep(n, st, line) == Success(st')
    ensures CategoryAmounts(n, st, [line] + rest) == CategoryAmounts(n, st', rest)
  {
    assert ([line] + rest)[0] == line;
    assert ([line] + rest)[1..] == rest;
  }

  lemma LacksT(line: string)
    requires 'T' !in line
    ensures !Contains(line, "Top expenses:")
  {
    AbsentChar(line, "Top expenses:", 0);
  }

  /** None of the five fixed lines mentions the section header, so a closed section passes over them. */
  lemma CategoriesSkipHead(n: Numbers, r: ToolReply, rest: seq<string>)
    requires Showable(n, r)
    ensures CategoryAmounts(n, Closed, SummaryHead(n, r) + rest) == CategoryAmounts(n, Closed, rest)
  {
    var l0 := "📊 Financial Summary for " + r.period + ":";
    var l1 := "  💰 Income: $" + n.str(r.income);
    var l2 := "  💸 Expenses: $" + n.str(r.expenses);
    var l3 := "  🏦 Net: $" + n.str(r.net);
    var l4 := "  📈 Savings Rate: " + n.str(r.savingsRate) + "%";
    PlainAbsent(r.period, 'T');
    PlainAbsent(n.str(r.income), 'T');
    PlainAbsent(n.str(r.expenses), 'T');
    PlainAbsent(n.str(r.net), 'T');
    PlainAbsent(n.str(r.savingsRate), 'T');
    LacksT(l0);
    LacksT(l1);
    LacksT(l2);
    LacksT(l3);
    LacksT(l4);
    var t4 := [l4] + rest;
    var t3 := [l3] + t4;
    var t2 := [l2] + t3;
    var t1 := [l1] + t2;
    assert SummaryHead(n, r) + rest == [l0] + t1;
    CategoryCons(n, Closed, l0, t1, Closed);
    CategoryCons(n, Closed, l1, t2, Closed);
    CategoryCons(n, Closed, l2, t3, Closed);
    CategoryCons(n, Closed, l3, t4, Closed);
    CategoryCons(n, Closed, l4, rest, Closed);
  }

  lemma TopLineOpens(n: Numbers, st: Section)
    ensures CategoryStep(n, st, "  Top expenses:") == Success(st.(open := true))
  {
    var line := "  Top expenses:";
    assert line[2..] == "Top expenses:";
    OccursContains(line, "Top expenses:", 2);
  }

  lemma BlankCategory(n: Numbers, st: Section)
    ensures CategoryStep(n, st, "") == Success(st)
  {
    AbsentChar("", "Top expenses:", 0);
    AbsentChar("", "- ", 0);
  }

  lemma PaddedStrip(c: string, t: string)
    requires Plain(t)
    ensures Strip("    " + ("- " + c + ": $" + t)) == "- " + c + ": $" + t
  {
    var x := "- " + c + ": $" + t;
    assert x[0] == '-';
    assert x[|x| - 1] == t[|t| - 1];
    assert NumberChar(t[|t| - 1]);
    assert "    " + x == "    " + x + "";
    StripPadded("    ", x, "");
  }

  lemma DollarSplit(a: string, t: string)
    requires '$' !in a && Plain(t)
    ensures Split(a + ": $" + t, ": $") == [a, t]
  {
    PlainAbsent(t, '$');
    assert ": $"[..2] == ": ";
    assert '$' !in a + ": ";
    SplitAfter(a, ": $", t, 2);
    SplitNone(t, ": $", 2);
  }

  /** The stripped category line splits into "- <name>" and the amount's text. */
  lemma CategoryParts(n: Numbers, c: (string, real))
    requires ShownCategory(n, c)
    ensures Split(Strip(CategoryLine(n, c)), ": $") == ["- " + c.0, n.str(c.1)]
  {
    assert CategoryLine(n, c) == "    " + ("- " + c.0 + ": $" + n.str(c.1));
    PaddedStrip(c.0, n.str(c.1));
    assert '$' !in "- " + c.0;
    DollarSplit("- " + c.0, n.str(c.1));
  }

  lemma CategoryName(c: string)
    requires Stripped(c) && !Contains(c, "- ")
    ensures Strip(Replace("- " + c, "- ", "")) == c
  {
    assert "- "[..0] == "";
    ReplaceAfter("", "- ", c, "", 0);
    assert "" + "- " + c == "- " + c;
    assert Replace(c, "- ", "") == c;
    StripStripped(c);
  }

  lemma CategoryRecords(n: Numbers, st: Section, line: string, p0: string, t: string, name: string, x: real)
    requires st.open && !Contains(line, "Top expenses:") && Contains(line, "- ") && '$' in line
    requires Split(Strip(line), ": $") == [p0, t] && n.read(t) == Some(x)
    requires Strip(Replace(p0, "- ", "")) == name
    ensures CategoryStep(n, st, line) == Success(st.(amounts := st.amounts[name := x]))
  {
  }

  lemma CategoryLineMarks(c: string, t: string)
    ensures Contains("    " + ("- " + c + ": $" + t), "- ")
    ensures '$' in "    " + ("- " + c + ": $" + t)
  {
    ContainsMiddle("    ", "- ", c + ": $" + t);
    assert "    " + "- " + (c + ": $" + t) == "    " + ("- " + c + ": $" + t);
    var line := "    " + ("- " + c + ": $" + t);
    assert line[|line| - |t| - 1] == '$';
  }

  /** In an open section, a category line records its name's amount. */
  lemma CategoryLineStep(n: Numbers, m: map<string, real>, c: (string, real))
    requires ShownCategory(n, c)
    ensures CategoryStep(n, Section(true, m), CategoryLine(n, c)) == Success(Section(true, m[c.0 := c.1]))
  {
    var t := n.str(c.1);
    assert CategoryLine(n, c) == "    " + ("- " + c.0 + ": $" + t);
    CategoryLineMarks(c.0, t);
    CategoryParts(n, c);
    CategoryName(c.0);
    CategoryRecords(n, Section(true, m), CategoryLine(n, c), "- " + c.0, t, c.0, c.1);
  }

  /** The category lines, then the empty text after the final newline, record each category in order. */
  lemma {:induction false} CategoryRun(n: Numbers, m: map<string, real>, cs: seq<(string, real)>)
    requires forall i :: 0 <= i < |cs| ==> ShownCategory(n, cs[i])
    ensures CategoryAmounts(n, Section(true, m), CategoryLines(n, cs) + [""]) == Success(Section(true, Assign(m, cs)))
    decreases |cs|
  {
    if |cs| == 0 {
      assert CategoryLines(n, cs) + [""] == [""] + [];
      BlankCategory(n, Section(true, m));
      CategoryCons(n, Section(true, m), "", [], Section(true, m));
    } else {
      var rest := CategoryLines(n, cs[1..]) + [""];
      assert CategoryLines(n, cs) + [""] == [CategoryLine(n, cs[0])] + rest;
      CategoryLineStep(n, m, cs[0]);
      CategoryCons(n, Section(true, m), CategoryLine(n, cs[0]), rest, Section(true, m[cs[0].0 := cs[0].1]));
      assert forall i :: 0 <= i < |cs[1..]| ==> ShownCategory(n, cs[1..][i]) by {
        forall i | 0 <= i < |cs[1..]|
          ensures ShownCategory(n, cs[1..][i])
        {
          assert cs[1..][i] == cs[i + 1];
        }
      }
      CategoryRun(n, m[cs[0].0 := cs[0].1], cs[1..]);
    }
  }

  /** No fixed line of a showable summary holds a newline or mentions the category header. */
  lemma HeadPlainLines(n: Numbers, r: ToolReply)
    requires Showable(n, r)
    ensures forall i :: 0 <= i < 5 ==> '\n' !in SummaryHead(n, r)[i] && 'T' !in SummaryHead(n, r)[i]
  {
    PlainAbsent(r.period, 'T');
    PlainAbsent(n.str(r.income), 'T');
    PlainAbsent(n.str(r.expenses), 'T');
    PlainAbsent(n.str(r.net), 'T');
    PlainAbsent(n.str(r.savingsRate), 'T');
    PlainAbsent(r.period, '\n');
    PlainAbsent(n.str(r.income), '\n');
    PlainAbsent(n.str(r.expenses), '\n');
    PlainAbsent(n.str(r.net), '\n');
    PlainAbsent(n.str(r.savingsRate), '\n');
    FramedPlain("📊 Financial Summary for ", r.period, ":");
    FramedPlain("  💰 Income: $", n.str(r.income), "");
    FramedPlain("  💸 Expenses: $", n.str(r.expenses), "");
    FramedPlain("  🏦 Net: $", n.str(r.net), "");
    FramedPlain("  📈 Savings Rate: ", n.str(r.savingsRate), "%");
  }

  /** A value framed by text free of newlines and of 'T' is free of them too. */
  lemma FramedPlain(a: string, v: string, b: string)
    requires '\n' !in a + b && 'T' !in a + b && '\n' !in v && 'T' !in v
    ensures '\n' !in a + v + b && 'T' !in a + v + b && a + v + "" == a + v
  {
  }

  lemma CategoryLinePlain(n: Numbers, c: (string, real))
    requires ShownCategory(n, c)
    ensures '\n' !in CategoryLine(n, c)
  {
    PlainAbsent(n.str(c.1), '\n');
  }

  lemma MarkedIcon(t: string)
    ensures Contains("📊" + t, "📊")
  {
    ContainsMiddle("", "📊", t);
    assert "" + "📊" + t == "📊" + t;
  }

  lemma MarkedTitle(t: string)
    ensures Contains("📊 " + "Financial Summary" + t, "Financial Summary")
  {
    ContainsMiddle("📊 ", "Financial Summary", t);
  }

  lemma MarkedHeader(p: string)
    ensures Contains("📊 Financial Summary for " + p + ":", "📊")
    ensures Contains("📊 Financial Summary for " + p + ":", "Financial Summary")
  {
    var t := " for " + p + ":";
    assert "📊 Financial Summary for " + p + ":" == "📊 " + "Financial Summary" + t;
    MarkedTitle(t);
    assert "📊 Financial Summary for " + p + ":" == "📊" + (" " + "Financial Summary" + t);
    MarkedIcon(" " + "Financial Summary" + t);
  }

  /** The text of a summary carries the markers the parser looks for. */
  lemma SummaryLinesMarked(n: Numbers, r: ToolReply)
    requires r.Summarised?
    ensures SummaryMarked(Lines(SummaryLines(n, r)))
  {
    var ls := SummaryLines(n, r);
    var l0 := "📊 Financial Summary for " + r.period + ":";
    assert ls[0] == l0;
    assert Lines(ls) == l0 + ("\n" + Lines(ls[1..]));
    MarkedHeader(r.period);
    ContainsPrefix(l0, "\n" + Lines(ls[1..]), "📊");
    ContainsPrefix(l0, "\n" + Lines(ls[1..]), "Financial Summary");
  }

  /** The categories the summary lists, each readable back. */
  function TopCategories(r: ToolReply): seq<(string, real)>
    requires r.Summarised?
  {
    r.byCategory[..Min(3, |r.byCategory|)]
  }

  predicate CategoriesShown(n: Numbers, r: ToolReply)
    requires r.Summarised?
  {
    forall i :: 0 <= i < |TopCategories(r)| ==> ShownCategory(n, TopCategories(r)[i])
  }

  lemma SummaryTextLines(n: Numbers, r: ToolReply)
    requires Showable(n, r) && CategoriesShown(n, r)
    ensures Split(Lines(SummaryLines(n, r)), "\n") == SummaryLines(n, r) + [""]
  {
    var ls := SummaryLines(n, r);
    HeadPlainLines(n, r);
    forall i | 0 <= i < |ls|
      ensures '\n' !in ls[i]
    {
      SummaryLinePlain(n, r, i);
    }
    SplitLines(ls);
  }

  /** No line of a shown summary holds a line break. */
  lemma SummaryLinePlain(n: Numbers, r: ToolReply, i: nat)
    requires Showable(n, r) && CategoriesShown(n, r) && i < |SummaryLines(n, r)|
    requires forall k :: 0 <= k < 5 ==> '\n' !in SummaryHead(n, r)[k]
    ensures '\n' !in SummaryLines(n, r)[i]
  {
    var ls := SummaryLines(n, r);
    var cs := TopCategories(r);
    if i < 5 {
      assert ls[i] == SummaryHead(n, r)[i];
    } else if i == 5 {
      assert ls[i] == "  Top expenses:";
    } else {
      assert ls[i] == CategoryLines(n, cs)[i - 6] == CategoryLine(n, cs[i - 6]);
      CategoryLinePlain(n, cs[i - 6]);
    }
  }

  /** The category section starts at the sixth line when there are categories; otherwise no line opens it. */
  lemma SummaryFirstMarked(n: Numbers, r: ToolReply)
    requires Showable(n, r)
    ensures FirstMarked(SummaryLines(n, r) + [""]) == if |r.byCategory| > 0 then 5 else 6
  {
    var lines := SummaryLines(n, r) + [""];
    var k := FirstMarked(lines);
    HeadPlainLines(n, r);
    forall i | 0 <= i < 5
      ensures !Contains(lines[i], "Top expenses:")
    {
      assert lines[i] == SummaryHead(n, r)[i];
      LacksT(lines[i]);
    }
    if |r.byCategory| > 0 {
      assert lines[5] == "  Top expenses:";
      TopLineOpens(n, Closed);
    } else {
      assert lines[5] == "";
      AbsentChar("", "Top expenses:", 0);
    }
  }

  lemma SummaryFiguresPass(n: Numbers, r: ToolReply)
    requires Showable(n, r)
    ensures FiguresOf(n, NoFigures, (SummaryLines(n, r) + [""])[..FirstMarked(SummaryLines(n, r) + [""])]) == Success(ShownFigures(r))
  {
    var lines := SummaryLines(n, r) + [""];
    SummaryFirstMarked(n, r);
    if |r.byCategory| > 0 {
      assert lines[..5] == SummaryHead(n, r) + [];
      FiguresOfHead(n, r, []);
    } else {
      assert lines[..6] == SummaryHead(n, r) + [""];
      FiguresOfHead(n, r, [""]);
      BlankFigures(n, ShownFigures(r));
      FiguresCons(n, ShownFigures(r), "", [], ShownFigures(r));
    }
  }

  lemma SummaryCategoryPass(n: Numbers, r: ToolReply)
    requires Showable(n, r) && CategoriesShown(n, r)
    ensures CategoryAmounts(n, Closed, SummaryLines(n, r) + [""]).Success?
    ensures CategoryAmounts(n, Closed, SummaryLines(n, r) + [""]).value.amounts == Assign(map[], TopCategories(r))
  {
    var cs := TopCategories(r);
    if |r.byCategory| > 0 {
      var rest := CategoryLines(n, cs) + [""];
      assert SummaryLines(n, r) + [""] == SummaryHead(n, r) + ([ "  Top expenses:"] + rest);
      CategoriesSkipHead(n, r, ["  Top expenses:"] + rest);
      TopLineOpens(n, Closed);
      CategoryCons(n, Closed, "  Top expenses:", rest, Section(true, map[]));
      CategoryRun(n, map[], cs);
    } else {
      assert SummaryLines(n, r) + [""] == SummaryHead(n, r) + [""];
      CategoriesSkipHead(n, r, [""]);
      BlankCategory(n, Closed);
      CategoryCons(n, Closed, "", [], Closed);
      assert cs == [];
    }
  }

  /**
   * The summary the client prints reads back as its figures and its listed
   * categories, when the figures stop at the category section.
   */
  lemma SummaryRoundTrip(n: Numbers, r: ToolReply)
    requires Showable(n, r) && CategoriesShown(n, r)
    ensures ParseSummary(n, Lines(SummaryLines(n, r))) == Success(SummaryData(ShownFigures(r), Assign(map[], TopCategories(r))))
  {
    SummaryLinesMarked(n, r);
    SummaryTextLines(n, r);
    SummaryFiguresPass(n, r);
    SummaryCategoryPass(n, r);
  }

  lemma Unlabelled(n: Numbers, f: Figures, line: string)
    requires 'I' !in line && 'E' !in line && 'N' !in line && 'S' !in line && 'F' !in line
    ensures FigureStep(n, f, line) == Success(f)
  {
    AbsentChar(line, "Income:", 0);
    AbsentChar(line, "Expenses:", 0);
    AbsentChar(line, "Net:", 0);
    AbsentChar(line, "Savings Rate:", 0);
    AbsentChar(line, "Financial Summary for", 0);
  }

  lemma TopLineFigures(n: Numbers, f: Figures)
    ensures FigureStep(n, f, "  Top expenses:") == Success(f)
  {
    var line := "  Top expenses:";
    assert forall i :: 0 <= i < |line| ==> line[i] in "  Topexns:";
    Unlabelled(n, f, line);
  }

  /** A category named "Business Expenses" mentions the expenses label, so the figures pass takes its amount. */
  lemma BusinessLine(n: Numbers, f: Figures, s: string)
    requires Plain(s) && n.read(s).Some?
    ensures FigureStep(n, f, "    - Business Expenses: $" + s) == Success(f.(expenses := n.read(s)))
  {
    var line := "    - Business Expenses: $" + s;
    PlainAbsent(s, 'I');
    AbsentChar(line, "Income:", 0);
    var head := "    - Business Expenses: $";
    assert head[15..] == "Expenses:" + " $";
    OccursContains(head, "Expenses:" + " $", 15);
    ContainsStart(head, "Expenses:", " $");
    ContainsPrefix(head, s, "Expenses:");
    DollarAfter(n, "    - Business Expenses: ", s);
    assert "    - Business Expenses: " + "$" + s == line;
  }

  lemma NameLetters(name: string)
    requires forall i :: 0 <= i < |name| ==> name[i] in "BusinesxpE "
    ensures '$' !in name && '\n' !in name && !Contains(name, "- ")
  {
    AbsentChar(name, "- ", 0);
  }

  lemma BusinessName()
    ensures Stripped("Business Expenses") && '$' !in "Business Expenses" && '\n' !in "Business Expenses"
    ensures !Contains("Business Expenses", "- ")
  {
    var name := "Business Expenses";
    assert name[0] == 'B' && name[|name| - 1] == 's';
    assert forall i :: 0 <= i < |name| ==> name[i] in "BusinesxpE ";
    NameLetters(name);
  }

  lemma BusinessUnmarked(t: string)
    requires 'T' !in t
    ensures !Contains("    - Business Expenses: $" + t, "Top expenses:")
  {
    var lead := "    - Business Expenses: $";
    assert forall i :: 0 <= i < |lead| ==> lead[i] in "-BusinesxpE :$";
    assert 'T' !in lead + t;
    AbsentChar(lead + t, "Top expenses:", 0);
  }

  lemma BusinessLead()
    ensures "    - " + "Business Expenses" + ": $" == "    - Business Expenses: $"
  {
  }

  lemma BusinessShown(n: Numbers, x: real)
    requires Readable(n, x)
    ensures ShownCategory(n, ("Business Expenses", x))
    ensures CategoryLine(n, ("Business Expenses", x)) == "    - Business Expenses: $" + n.str(x)
  {
    BusinessName();
    BusinessLead();
    PlainAbsent(n.str(x), 'T');
    BusinessUnmarked(n.str(x));
  }

  /** With one category the summary's lines are the head, the section header, that category's line and the final blank. */
  lemma OneCategoryLines(n: Numbers, r: ToolReply)
    requires r.Summarised? && |r.byCategory| == 1
    ensures SummaryLines(n, r) + [""] == SummaryHead(n, r) + ["  Top expenses:", CategoryLine(n, r.byCategory[0]), ""]
  {
    var cs := r.byCategory[..Min(3, |r.byCategory|)];
    assert cs == r.byCategory;
    var c := CategoryLine(n, r.byCategory[0]);
    assert CategoryLines(n, cs) == [c];
    ThreeAfter(SummaryHead(n, r), "  Top expenses:", c, "");
  }

  lemma ThreeAfter<T>(h: seq<T>, a: T, b: T, c: T)
    ensures h + ([a] + [b]) + [c] == h + [a, b, c]
  {
  }

  /**
   * The parser as written reports a category called "Business Expenses" as
   * the period's total expenses, while the corrected parser keeps the total.
   */
  lemma SummaryAsWrittenOverwrites(n: Numbers, r: ToolReply, x: real)
    requires Showable(n, r) && r.byCategory == [("Business Expenses", x)] && Readable(n, x)
    ensures ParseSummaryAsWritten(n, Lines(SummaryLines(n, r))).Success?
    ensures ParseSummaryAsWritten(n, Lines(SummaryLines(n, r))).value.figures.expenses == Some(x)
    ensures ParseSummary(n, Lines(SummaryLines(n, r))).Success?
    ensures ParseSummary(n, Lines(SummaryLines(n, r))).value.figures.expenses == Some(r.expenses)
  {
    var line := "    - Business Expenses: $" + n.str(x);
    BusinessShown(n, x);
    assert TopCategories(r) == r.byCategory;
    assert CategoriesShown(n, r);
    SummaryRoundTrip(n, r);
    SummaryLinesMarked(n, r);
    SummaryTextLines(n, r);
    SummaryCategoryPass(n, r);
    OneCategoryLines(n, r);
    assert CategoryLine(n, r.byCategory[0]) == line;
    FiguresOfHead(n, r, ["  Top expenses:", line, ""]);
    var f := ShownFigures(r);
    var g := f.(expenses := Some(x));
    TopLineFigures(n, f);
    FiguresCons(n, f, "  Top expenses:", [line, ""], f);
    BusinessLine(n, f, n.str(x));
    FiguresCons(n, f, line, [""], g);
    BlankFigures(n, g);
    FiguresCons(n, g, "", [], g);
  }

  // ---------------------------------------------------------------------
  // get_budget_status
  // ---------------------------------------------------------------------

  /** One alert as the page shows it: danger or warning, the text, its category and its percentage. */
  datatype Alert = Alert(danger: bool, message: string, category: string, percentage: real)

  /** One budgeted category as the page shows it. */
  datatype BudgetRow = BudgetRow(category: string, spent: real, budget: real, percentage: real, remaining: real)

  /** The parsed budget text; the month is today's, passed in rather than read from a clock. */
  datatype BudgetData = BudgetData(alerts: seq<Alert>, statuses: seq<BudgetRow>, month: string)

  /** The state of the scan: whether the alerts header has been passed, and what has been collected. */
  datatype BudgetScan = BudgetScan(inAlerts: bool, alerts: seq<Alert>, rows: seq<BudgetRow>)

  const NoBudget := BudgetScan(false, [], [])

  /**
   * An alert's text: danger when it carries the red light; the percentage between the
   * first "(" and the next "%", and the category between the first ":" and the next "(".
   * When the percentage does not read, both keep their defaults.
   */
  function AlertOf(n: Numbers, text: string): Alert
  {
    var danger := Contains(text, "🚨");
    if '(' in text && '%' in text then
      SplitFound(text, '(');
      var pct := Split(Split(text, "(")[1], "%")[0];
      match n.read(pct)
      case None => Alert(danger, text, "Budget Alert", 0.0)
      case Some(p) =>
        if ':' in text then
          SplitFound(text, ':');
          Alert(danger, text, Strip(Split(Split(text, ":")[1], "(")[0]), p)
        else Alert(danger, text, "Budget Alert", p)
    else Alert(danger, text, "Budget Alert", 0.0)
  }

  /** A status line "<category>: $<spent>/$<budget> (<percentage>%)"; a line of another shape is skipped, a number that does not read raises. */
  function RowOf(n: Numbers, line: string): LineResult<BudgetRow>
  {
    var parts := Split(Strip(line), ": $");
    if |parts| != 2 then Skip
    else
      var amounts := Split(parts[1], " (");
      if |amounts| != 2 then Skip
      else
        var sb := Split(amounts[0], "/$");
        match n.read(sb[0])
        case None => Raise(n.readError(sb[0]))
        case Some(spent) =>
          if |sb| < 2 then Raise(IndexError)
          else
            match n.read(sb[1])
            case None => Raise(n.readError(sb[1]))
            case Some(budget) =>
              var pt := Replace(amounts[1], "%)", "");
              match n.read(pt)
              case None => Raise(n.readError(pt))
              case Some(p) => Row(BudgetRow(parts[0], spent, budget, p, budget - spent))
  }

  /** One line of the budget scan: the alerts header, an alert after it, a status line, or nothing. */
  function BudgetStep(n: Numbers, st: BudgetScan, line: string): Outcome<BudgetScan>
  {
    if Contains(line, "🚨 ALERTS:") then Success(st.(inAlerts := true))
    else if st.inAlerts && Strip(line) != "" && (Contains(line, "🚨") || Contains(line, "⚠️")) then
      Success(st.(alerts := st.alerts + [AlertOf(n, Strip(line))]))
    else if ':' in line && '$' in line && '/' in line && '%' in line then
      match RowOf(n, line)
      case Skip => Success(st)
      case Row(b) => Success(st.(rows := st.rows + [b]))
      case Raise(e) => Failure(e)
    else Success(st)
  }

  /** The budget scan over a run of lines; the first error raised ends it. */
  function BudgetOf(n: Numbers, st: BudgetScan, lines: seq<string>): (r: Outcome<BudgetScan>)
    decreases |lines|
  {
    if |lines| == 0 then Success(st)
    else
      match BudgetStep(n, st, lines[0])
      case Failure(m) => Failure(m)
      case Success(st') => BudgetOf(n, st', lines[1..])
  }

  /**
   * The scan keeps every alert and row gathered so far, adds at most one of
   * each per line, and stays in the alerts section once it is entered.
   */
  lemma {:induction false} BudgetOfGrows(n: Numbers, st: BudgetScan, lines: seq<string>)
    decreases |lines|
    ensures var r := BudgetOf(n, st, lines);
      && (r.Success? ==> |st.alerts| <= |r.value.alerts| <= |st.alerts| + |lines|)
      && (r.Success? ==> |st.rows| <= |r.value.rows| <= |st.rows| + |lines|)
      && (r.Success? ==> st.alerts <= r.value.alerts && st.rows <= r.value.rows)
      && (r.Success? && st.inAlerts ==> r.value.inAlerts)
  {
    if |lines| > 0 {
      var o := BudgetStep(n, st, lines[0]);
      if o.Success? {
        BudgetOfGrows(n, o.value, lines[1..]);
      }
    }
  }

  predicate BudgetMarked(text: string)
  {
    Contains(text, "💰") && Contains(text, "Budget Status")
  }

  /** `get_budget_status`: the alerts and status lines of the budget text, with today's month. */
  function ParseBudget(n: Numbers, text: string, month: string): (r: Outcome<BudgetData>)
    ensures !BudgetMarked(text) ==> r == Failure("Failed to parse budget status")
    ensures r.Success? ==> r.value.month == month && |r.value.alerts| + |r.value.statuses| <= 2 * |Split(text, "\n")|
  {
    if !BudgetMarked(text) then Failure("Failed to parse budget status")
    else
      BudgetOfGrows(n, NoBudget, Split(text, "\n"));
      match BudgetOf(n, NoBudget, Split(text, "\n"))
      case Failure(m) => Failure(m)
      case Success(st) => Success(BudgetData(st.alerts, st.rows, month))
  }

  method GetBudgetStatus(n: Numbers, text: string, month: string) returns (r: Outcome<BudgetData>)
    ensures r == ParseBudget(n, text, month)
  {
    if !BudgetMarked(text) {
      return Failure("Failed to parse budget status");
    }
    var lines := Split(text, "\n");
    var st := NoBudget;
    var i := 0;
    while i < |lines|
      invariant 0 <= i <= |lines|
      invariant BudgetOf(n, NoBudget, lines) == BudgetOf(n, st, lines[i..])
    {
      assert lines[i..][1..] == lines[i + 1..];
      var step := BudgetStep(n, st, lines[i]);
      if step.Failure? {
        return Failure(step.error);
      }
      st := step.value;
      i := i + 1;
    }
    r := Success(BudgetData(st.alerts, st.rows, month));
  }

  // Reading an alert back

  /** A category name that the budget text's separators cannot cut. */
  predicate PlainName(c: string)
  {
    && Stripped(c) && '\n' !in c && '$' !in c && ':' !in c && '(' !in c && '%' !in c
    && '🚨' !in c && '⚠' !in c
  }

  lemma PercentPart(f: string)
    requires Plain(f)
    ensures Split(Split(f + "%)", "%")[0], "(") == [f]
    ensures Split(f + "%)", "%")[0] == f
  {
    PlainAbsent(f, '%');
    PlainAbsent(f, '(');
    assert f + "%)" == f + "%" + ")";
    SplitAfter(f, "%", ")", 0);
    SplitNone(f, "(", 0);
  }

  lemma OpenParenSplit(a: string, f: string)
    requires '(' !in a && Plain(f)
    ensures Split(a + "(" + (f + "%)"), "(") == [a, f + "%)"]
  {
    PlainAbsent(f, '(');
    SplitAfter(a, "(", f + "%)", 0);
    assert '(' !in f + "%)";
    SplitNone(f + "%)", "(", 0);
  }

  lemma ColonSplit(head: string, rest: string)
    requires ':' !in head && ':' !in rest
    ensures Split(head + ":" + rest, ":") == [head, rest]
  {
    SplitAfter(head, ":", rest, 0);
    SplitNone(rest, ":", 0);
  }

  lemma NameBetween(c: string, f: string)
    requires PlainName(c) && Plain(f)
    ensures Strip(Split(" " + c + " " + "(" + (f + "%)"), "(")[0]) == c
  {
    assert '(' !in " " + c + " ";
    OpenParenSplit(" " + c + " ", f);
    StripPadded(" ", c, " ");
  }

  lemma AlertReads(n: Numbers, text: string, f: string, c: string)
    requires '(' in text && '%' in text && ':' in text
    requires |Split(text, "(")| >= 2 && Split(Split(text, "(")[1], "%")[0] == f && n.read(f).Some?
    requires |Split(text, ":")| >= 2 && Strip(Split(Split(text, ":")[1], "(")[0]) == c
    ensures AlertOf(n, text) == Alert(Contains(text, "🚨"), text, c, n.read(f).value)
  {
  }

  /** The percentage of an alert "<head>: <category> (<percentage>%)" sits between its first "(" and the next "%". */
  lemma AlertPercent(head: string, c: string, f: string)
    requires ':' !in head && '(' !in head && PlainName(c) && Plain(f)
    ensures '(' in head + ": " + c + " (" + f + "%)" && '%' in head + ": " + c + " (" + f + "%)"
    ensures |Split(head + ": " + c + " (" + f + "%)", "(")| >= 2
    ensures Split(Split(head + ": " + c + " (" + f + "%)", "(")[1], "%")[0] == f
  {
    var text := head + ": " + c + " (" + f + "%)";
    var a := head + ": " + c + " ";
    assert text == a + "(" + (f + "%)");
    assert '(' !in a;
    OpenParenSplit(a, f);
    PercentPart(f);
    assert text[|text| - 2] == '%';
    assert text[|a|] == '(';
  }

  /** The category of an alert "<head>: <category> (<percentage>%)" sits, trimmed, between its ":" and the next "(". */
  lemma AlertCategory(head: string, c: string, f: string)
    requires ':' !in head && '(' !in head && PlainName(c) && Plain(f)
    ensures ':' in head + ": " + c + " (" + f + "%)"
    ensures |Split(head + ": " + c + " (" + f + "%)", ":")| >= 2
    ensures Strip(Split(Split(head + ": " + c + " (" + f + "%)", ":")[1], "(")[0]) == c
  {
    var text := head + ": " + c + " (" + f + "%)";
    var rest := " " + c + " " + "(" + (f + "%)");
    assert text == head + ":" + rest;
    assert text[|head|] == ':';
    PlainAbsent(f, ':');
    assert ':' !in rest;
    ColonSplit(head, rest);
    NameBetween(c, f);
  }

  /** An alert "<head>: <category> (<percentage>%)" reads back as its category and percentage. */
  lemma AlertParts(n: Numbers, head: string, c: string, f: string)
    requires ':' !in head && '(' !in head && PlainName(c) && Plain(f) && n.read(f).Some?
    ensures AlertOf(n, head + ": " + c + " (" + f + "%)")
      == Alert(Contains(head + ": " + c + " (" + f + "%)", "🚨"), head + ": " + c + " (" + f + "%)", c, n.read(f).value)
  {
    AlertPercent(head, c, f);
    AlertCategory(head, c, f);
    AlertReads(n, head + ": " + c + " (" + f + "%)", f, c);
  }

  lemma DangerHead(t: string)
    ensures Contains("🚨 OVER BUDGET" + t, "🚨")
  {
    ContainsMiddle("", "🚨", " OVER BUDGET" + t);
    assert "" + "🚨" + (" OVER BUDGET" + t) == "🚨 OVER BUDGET" + t;
  }

  lemma WarningHead(c: string, f: string)
    requires '🚨' !in c && Plain(f)
    ensures !Contains("⚠️ WARNING" + ": " + c + " (" + f + "%)", "🚨")
  {
    var lead := "⚠️ WARNING: ";
    assert forall i :: 0 <= i < |lead| ==> lead[i] in "⚠️WARNIG: ";
    PlainAbsent(f, '🚨');
    assert "⚠️ WARNING" + ": " + c + " (" + f + "%)" == lead + c + " (" + f + "%)";
    AbsentChar(lead + c + " (" + f + "%)", "🚨", 0);
  }

  lemma OverBudgetAlert(n: Numbers, c: string, f: string)
    requires PlainName(c) && Plain(f) && n.read(f).Some?
    ensures AlertOf(n, "🚨 OVER BUDGET: " + c + " (" + f + "%)")
      == Alert(true, "🚨 OVER BUDGET: " + c + " (" + f + "%)", c, n.read(f).value)
  {
    assert "🚨 OVER BUDGET: " + c + " (" + f + "%)" == "🚨 OVER BUDGET" + ": " + c + " (" + f + "%)";
    assert "🚨 OVER BUDGET" + ": " + c + " (" + f + "%)" == "🚨 OVER BUDGET" + (": " + c + " (" + f + "%)");
    AlertParts(n, "🚨 OVER BUDGET", c, f);
    DangerHead(": " + c + " (" + f + "%)");
  }

  lemma WarningAlert(n: Numbers, c: string, f: string)
    requires PlainName(c) && Plain(f) && n.read(f).Some?
    ensures AlertOf(n, "⚠️ WARNING: " + c + " (" + f + "%)")
      == Alert(false, "⚠️ WARNING: " + c + " (" + f + "%)", c, n.read(f).value)
  {
    assert "⚠️ WARNING: " + c + " (" + f + "%)" == "⚠️ WARNING" + ": " + c + " (" + f + "%)";
    AlertParts(n, "⚠️ WARNING", c, f);
    WarningHead(c, f);
  }

  /**
   * The server's alert for an entry reads back as danger exactly when the
   * entry is over budget, with the entry's category and the percentage as printed.
   */
  lemma AlertRoundTrip(n: Numbers, e: FinanceServer.BudgetEntry)
    requires PlainName(e.category) && Plain(n.fixed1(e.percentage)) && n.read(n.fixed1(e.percentage)).Some?
    ensures AlertOf(n, FinanceServer.AlertText(e, n.fixed1))
      == Alert(FinanceServer.LevelOf(e.percentage) == FinanceServer.OverBudget, FinanceServer.AlertText(e, n.fixed1),
               e.category, n.read(n.fixed1(e.percentage)).value)
  {
    if FinanceServer.LevelOf(e.percentage) == FinanceServer.OverBudget {
      OverBudgetAlert(n, e.category, n.fixed1(e.percentage));
    } else {
      WarningAlert(n, e.category, n.fixed1(e.percentage));
    }
  }

  // Reading the budget text back, line by line

  lemma BudgetCons(n: Numbers, st: BudgetScan, line: string, rest: seq<string>, st': BudgetScan)
    requires BudgetStep(n, st, line) == Success(st')
    ensures BudgetOf(n, st, [line] + rest) == BudgetOf(n, st', rest)
  {
    assert ([line] + rest)[0] == line;
    assert ([line] + rest)[1..] == rest;
  }

  /** A line without the red light or a dollar sign changes nothing before the alerts header. */
  lemma QuietStep(n: Numbers, st: BudgetScan, line: string)
    requires !st.inAlerts && '🚨' !in line && '$' !in line
    ensures BudgetStep(n, st, line) == Success(st)
  {
    AbsentChar(line, "🚨 ALERTS:", 0);
  }

  lemma BudgetHeaderStep(n: Numbers, month: string)
    requires Plain(month)
    ensures BudgetStep(n, NoBudget, "💰 Budget Status for " + month + ":") == Success(NoBudget)
  {
    var lead := "💰 Budget Status for ";
    assert forall i :: 0 <= i < |lead| ==> lead[i] in "💰 BudgetSaousfr";
    PlainAbsent(month, '🚨');
    PlainAbsent(month, '$');
    assert '🚨' !in lead + month + ":" && '$' !in lead + month + ":";
    QuietStep(n, NoBudget, lead + month + ":");
  }

  lemma AlertsHeaderStep(n: Numbers, st: BudgetScan)
    ensures BudgetStep(n, st, "🚨 ALERTS:") == Success(st.(inAlerts := true))
  {
    ContainsMiddle("", "🚨 ALERTS:", "");
    assert "" + "🚨 ALERTS:" + "" == "🚨 ALERTS:";
  }

  lemma BlankBudgetStep(n: Numbers, st: BudgetScan)
    ensures BudgetStep(n, st, "") == Success(st)
  {
    AbsentChar("", "🚨 ALERTS:", 0);
    assert Strip("") == "";
  }

  /** An alert the parser recognises: one trimmed line carrying a red light or a warning sign, not the alerts header. */
  predicate AlertShaped(a: string)
  {
    a != "" && Stripped(a) && '\n' !in a && (Contains(a, "🚨") || Contains(a, "⚠️")) && !Contains(a, "🚨 ALERTS:")
  }

  lemma AlertStep(n: Numbers, st: BudgetScan, a: string)
    requires st.inAlerts && AlertShaped(a)
    ensures BudgetStep(n, st, "  " + a) == Success(st.(alerts := st.alerts + [AlertOf(n, a)]))
  {
    assert "  " + a == "  " + a + "";
    StripPadded("  ", a, "");
    PrefixAbsent("  ", a, "🚨 ALERTS:");
    if Contains(a, "🚨") {
      ContainsPrefix(a, "  ", "🚨");
    } else {
      ContainsPrefix(a, "  ", "⚠️");
    }
  }

  /** The alerts in order, each read back as the parser reads it. */
  function ParsedAlerts(n: Numbers, alerts: seq<string>): (r: seq<Alert>)
    ensures |r| == |alerts|
    ensures forall i :: 0 <= i < |alerts| ==> r[i] == AlertOf(n, alerts[i])
  {
    if |alerts| == 0 then [] else [AlertOf(n, alerts[0])] + ParsedAlerts(n, alerts[1..])
  }

  lemma AlertLinesCons(alerts: seq<string>, rest: seq<string>)
    requires |alerts| > 0
    ensures AlertLines(alerts) + rest == ["  " + alerts[0]] + (AlertLines(alerts[1..]) + rest)
  {
  }

  /** A scan over two runs of lines is the scan over the first, then over the second from where it ended. */
  lemma {:induction false} BudgetOfAppend(n: Numbers, st: BudgetScan, a: seq<string>, b: seq<string>, st': BudgetScan)
    requires BudgetOf(n, st, a) == Success(st')
    ensures BudgetOf(n, st, a + b) == BudgetOf(n, st', b)
    decreases |a|
  {
    if |a| == 0 {
      assert a + b == b;
    } else {
      assert (a + b)[0] == a[0] && (a + b)[1..] == a[1..] + b;
      BudgetOfAppend(n, BudgetStep(n, st, a[0]).value, a[1..], b, st');
    }
  }

  /** The scan over a line and the lines after it takes the line's step, then scans the rest. */
  lemma BudgetOfFirst(n: Numbers, st: BudgetScan, line: string, rest: seq<string>, o: Outcome<BudgetScan>)
    requires o == BudgetStep(n, st, line)
    ensures o.Failure? ==> BudgetOf(n, st, [line] + rest) == Failure(o.error)
    ensures o.Success? ==> BudgetOf(n, st, [line] + rest) == BudgetOf(n, o.value, rest)
    ensures BudgetOf(n, st, [line] + rest).Success? ==> o.Success?
  {
    assert ([line] + rest)[0] == line;
    assert ([line] + rest)[1..] == rest;
  }

  lemma ParsedAlertsCons(n: Numbers, before: seq<Alert>, alerts: seq<string>)
    requires |alerts| > 0
    ensures before + [AlertOf(n, alerts[0])] + ParsedAlerts(n, alerts[1..]) == before + ParsedAlerts(n, alerts)
  {
  }

  /** After the alerts header, the indented alerts are collected in order. */
  lemma {:induction false} AlertRun(n: Numbers, st: BudgetScan, alerts: seq<string>)
    requires st.inAlerts && forall i :: 0 <= i < |alerts| ==> AlertShaped(alerts[i])
    ensures BudgetOf(n, st, AlertLines(alerts)) == Success(st.(alerts := st.alerts + ParsedAlerts(n, alerts)))
    decreases |alerts|
  {
    if |alerts| == 0 {
      assert st.alerts + ParsedAlerts(n, alerts) == st.alerts;
    } else {
      var st' := st.(alerts := st.alerts + [AlertOf(n, alerts[0])]);
      AlertLinesCons(alerts, []);
      assert AlertLines(alerts) + [] == AlertLines(alerts);
      assert AlertLines(alerts[1..]) + [] == AlertLines(alerts[1..]);
      AlertStep(n, st, alerts[0]);
      BudgetCons(n, st, "  " + alerts[0], AlertLines(alerts[1..]), st');
      assert forall i :: 0 <= i < |alerts[1..]| ==> AlertShaped(alerts[1..][i]) by {
        forall i | 0 <= i < |alerts[1..]|
          ensures AlertShaped(alerts[1..][i])
        {
          assert alerts[1..][i] == alerts[i + 1];
        }
      }
      AlertRun(n, st', alerts[1..]);
      ParsedAlertsCons(n, st.alerts, alerts);
    }
  }

  /** The number's text is plain and reads as some number. */
  predicate Reads(n: Numbers, t: string)
  {
    Plain(t) && n.read(t).Some?
  }

  /** A status whose line the parser reads back: a plain name and numbers that read. */
  predicate StatusShown(n: Numbers, s: Status)
  {
    PlainName(s.category) && Reads(n, n.fixed2(s.spent)) && Reads(n, n.fixed2(s.budget)) && Reads(n, n.fixed1(s.percentage))
  }

  /** The row the page shows for a status: the printed numbers, and the remainder recomputed from them. */
  function ShownRow(n: Numbers, s: Status): BudgetRow
    requires StatusShown(n, s)
  {
    var spent := n.read(n.fixed2(s.spent)).value;
    var budget := n.read(n.fixed2(s.budget)).value;
    BudgetRow(s.category, spent, budget, n.read(n.fixed1(s.percentage)).value, budget - spent)
  }

  lemma StatusStrip(c: string, a: string, b: string, p: string)
    requires PlainName(c)
    ensures Strip("  " + (c + ": $" + a + "/$" + b + " (" + p + "%)")) == c + ": $" + a + "/$" + b + " (" + p + "%)"
  {
    var x := c + ": $" + a + "/$" + b + " (" + p + "%)";
    assert x[|x| - 1] == ')';
    if |c| > 0 {
      assert x[0] == c[0];
    } else {
      assert x[0] == ':';
    }
    assert "  " + x == "  " + x + "";
    StripPadded("  ", x, "");
  }

  lemma StatusCut(c: string, a: string, b: string, p: string)
    requires PlainName(c) && Plain(a) && Plain(b) && Plain(p)
    ensures Split(c + ": $" + a + "/$" + b + " (" + p + "%)", ": $") == [c, a + "/$" + b + " (" + p + "%)"]
  {
    var r1 := a + "/$" + b + " (" + p + "%)";
    assert c + ": $" + a + "/$" + b + " (" + p + "%)" == c + ": $" + r1;
    assert ": $"[..2] == ": ";
    assert '$' !in c + ": ";
    SplitAfter(c, ": $", r1, 2);
    PlainAbsent(a, ':');
    PlainAbsent(b, ':');
    PlainAbsent(p, ':');
    assert ':' !in r1;
    SplitNone(r1, ": $", 0);
  }

  lemma AmountsCut(a: string, b: string, p: string)
    requires Plain(a) && Plain(b) && Plain(p)
    ensures Split(a + "/$" + b + " (" + p + "%)", " (") == [a + "/$" + b, p + "%)"]
  {
    PlainAbsent(a, '(');
    PlainAbsent(b, '(');
    PlainAbsent(p, '(');
    assert " ("[..1] == " ";
    assert '(' !in a + "/$" + b + " ";
    assert a + "/$" + b + " (" + p + "%)" == (a + "/$" + b) + " (" + (p + "%)");
    SplitAfter(a + "/$" + b, " (", p + "%)", 1);
    assert '(' !in p + "%)";
    SplitNone(p + "%)", " (", 1);
  }

  lemma SpentCut(a: string, b: string)
    requires Plain(a) && Plain(b)
    ensures Split(a + "/$" + b, "/$") == [a, b]
  {
    PlainAbsent(a, '$');
    PlainAbsent(b, '$');
    assert "/$"[..1] == "/";
    assert '$' !in a + "/";
    SplitAfter(a, "/$", b, 1);
    SplitNone(b, "/$", 1);
  }

  lemma PercentCut(p: string)
    requires Plain(p)
    ensures Replace(p + "%)", "%)", "") == p
  {
    PlainAbsent(p, '%');
    assert "%)"[..0] == "";
    assert p + "%)" == p + "%)" + "";
    ReplaceAfter(p, "%)", "", "", 0);
    ReplaceAbsent("", "%)", "", 0);
  }

  lemma RowReads(n: Numbers, line: string, c: string, r1: string, m: string, q: string, a: string, b: string, p: string)
    requires Split(Strip(line), ": $") == [c, r1] && Split(r1, " (") == [m, q] && Split(m, "/$") == [a, b]
    requires n.read(a).Some? && n.read(b).Some? && Replace(q, "%)", "") == p && n.read(p).Some?
    ensures RowOf(n, line) == Row(BudgetRow(c, n.read(a).value, n.read(b).value, n.read(p).value, n.read(b).value - n.read(a).value))
  {
  }

  lemma StatusText(n: Numbers, line: string, c: string, a: string, b: string, p: string)
    requires PlainName(c) && Reads(n, a) && Reads(n, b) && Reads(n, p)
    requires line == "  " + c + ": $" + a + "/$" + b + " (" + p + "%)"
    ensures RowOf(n, line)
      == Row(BudgetRow(c, n.read(a).value, n.read(b).value, n.read(p).value, n.read(b).value - n.read(a).value))
  {
    assert line == "  " + (c + ": $" + a + "/$" + b + " (" + p + "%)");
    StatusStrip(c, a, b, p);
    StatusCut(c, a, b, p);
    AmountsCut(a, b, p);
    SpentCut(a, b);
    PercentCut(p);
    RowReads(n, line, c, a + "/$" + b + " (" + p + "%)", a + "/$" + b, p + "%)", a, b, p);
  }

  /** A status line reads back as the status's printed numbers. */
  lemma StatusRowOf(n: Numbers, s: Status)
    requires StatusShown(n, s)
    ensures RowOf(n, StatusLine(n, s)) == Row(ShownRow(n, s))
  {
    var a, b, p := n.fixed2(s.spent), n.fixed2(s.budget), n.fixed1(s.percentage);
    StatusText(n, StatusLine(n, s), s.category, a, b, p);
    assert ShownRow(n, s) == BudgetRow(s.category, n.read(a).value, n.read(b).value, n.read(p).value, n.read(b).value - n.read(a).value);
  }

  lemma StatusChars(c: string, a: string, b: string, p: string)
    requires PlainName(c) && Plain(a) && Plain(b) && Plain(p)
    ensures var line := "  " + c + ": $" + a + "/$" + b + " (" + p + "%)";
      && '🚨' !in line && '⚠' !in line && '\n' !in line
      && ':' in line && '$' in line && '/' in line && '%' in line
  {
    var line := "  " + c + ": $" + a + "/$" + b + " (" + p + "%)";
    PlainAbsent(a, '🚨');
    PlainAbsent(b, '🚨');
    PlainAbsent(p, '🚨');
    PlainAbsent(a, '⚠');
    PlainAbsent(b, '⚠');
    PlainAbsent(p, '⚠');
    PlainAbsent(a, '\n');
    PlainAbsent(b, '\n');
    PlainAbsent(p, '\n');
    assert line[|line| - 2] == '%';
    assert line[|line| - |p| - 6 - |b|] == '/';
    assert line[|line| - |p| - 5 - |b|] == '$';
    assert line[2 + |c|] == ':';
  }

  lemma RowStep(n: Numbers, st: BudgetScan, line: string, b: BudgetRow)
    requires '🚨' !in line && '⚠' !in line && ':' in line && '$' in line && '/' in line && '%' in line
    requires RowOf(n, line) == Row(b)
    ensures BudgetStep(n, st, line) == Success(st.(rows := st.rows + [b]))
  {
    AbsentChar(line, "🚨 ALERTS:", 0);
    AbsentChar(line, "🚨", 0);
    AbsentChar(line, "⚠️", 0);
  }

  /** Wherever it stands, a status line adds its row. */
  lemma StatusStep(n: Numbers, st: BudgetScan, s: Status)
    requires StatusShown(n, s)
    ensures BudgetStep(n, st, StatusLine(n, s)) == Success(st.(rows := st.rows + [ShownRow(n, s)]))
  {
    StatusChars(s.category, n.fixed2(s.spent), n.fixed2(s.budget), n.fixed1(s.percentage));
    StatusRowOf(n, s);
    RowStep(n, st, StatusLine(n, s), ShownRow(n, s));
  }

  /** The rows shown for the statuses, in order. */
  function ShownRows(n: Numbers, ss: seq<Status>): (r: seq<BudgetRow>)
    requires forall i :: 0 <= i < |ss| ==> StatusShown(n, ss[i])
    ensures |r| == |ss|
    ensures forall i :: 0 <= i < |ss| ==> r[i] == ShownRow(n, ss[i])
  {
    if |ss| == 0 then [] else [ShownRow(n, ss[0])] + ShownRows(n, ss[1..])
  }

  lemma StatusLinesCons(n: Numbers, ss: seq<Status>)
    requires |ss| > 0
    ensures StatusLines(n, ss) == [StatusLine(n, ss[0])] + StatusLines(n, ss[1..])
  {
  }

  lemma ShownRowsCons(n: Numbers, before: seq<BudgetRow>, ss: seq<Status>)
    requires |ss| > 0 && forall i :: 0 <= i < |ss| ==> StatusShown(n, ss[i])
    ensures before + [ShownRow(n, ss[0])] + ShownRows(n, ss[1..]) == before + ShownRows(n, ss)
  {
  }

  /** The status lines are read back as their rows, in order. */
  lemma {:induction false} StatusRun(n: Numbers, st: BudgetScan, ss: seq<Status>)
    requires forall i :: 0 <= i < |ss| ==> StatusShown(n, ss[i])
    ensures BudgetOf(n, st, StatusLines(n, ss)) == Success(st.(rows := st.rows + ShownRows(n, ss)))
    decreases |ss|
  {
    if |ss| == 0 {
      assert st.rows + ShownRows(n, ss) == st.rows;
    } else {
      var st' := st.(rows := st.rows + [ShownRow(n, ss[0])]);
      StatusLinesCons(n, ss);
      StatusStep(n, st, ss[0]);
      BudgetCons(n, st, StatusLine(n, ss[0]), StatusLines(n, ss[1..]), st');
      assert forall i :: 0 <= i < |ss[1..]| ==> StatusShown(n, ss[1..][i]) by {
        forall i | 0 <= i < |ss[1..]|
          ensures StatusShown(n, ss[1..][i])
        {
          assert ss[1..][i] == ss[i + 1];
        }
      }
      StatusRun(n, st', ss[1..]);
      ShownRowsCons(n, st.rows, ss);
    }
  }

  /** A budget reply whose text the parser reads back: a plain month, recognisable alerts and readable statuses. */
  predicate BudgetShown(n: Numbers, r: ToolReply)
  {
    && r.Budget? && Plain(r.month)
    && (forall i :: 0 <= i < |r.alerts| ==> AlertShaped(r.alerts[i]))
    && (forall i :: 0 <= i < Min(5, |r.statuses|) ==> StatusShown(n, r.statuses[i]))
  }

  predicate Unbroken(ls: seq<string>)
  {
    forall i :: 0 <= i < |ls| ==> '\n' !in ls[i]
  }

  lemma UnbrokenAppend(a: seq<string>, b: seq<string>)
    requires Unbroken(a) && Unbroken(b)
    ensures Unbroken(a + b)
  {
    forall i | 0 <= i < |a + b|
      ensures '\n' !in (a + b)[i]
    {
      if i < |a| {
        assert (a + b)[i] == a[i];
      } else {
        assert (a + b)[i] == b[i - |a|];
      }
    }
  }

  lemma MoneyIcon(t: string)
    ensures Contains("💰" + t, "💰")
  {
    ContainsMiddle("", "💰", t);
    assert "" + "💰" + t == "💰" + t;
  }

  lemma BudgetTitle(t: string)
    ensures Contains("💰 " + "Budget Status" + t, "Budget Status")
  {
    ContainsMiddle("💰 ", "Budget Status", t);
  }

  lemma BudgetHeaderUnbroken(month: string)
    requires Plain(month)
    ensures '\n' !in "💰 Budget Status for " + month + ":"
  {
    var lead := "💰 Budget Status for ";
    assert forall i :: 0 <= i < |lead| ==> lead[i] in "💰 BudgetSaousfr";
    PlainAbsent(month, '\n');
  }

  lemma BudgetHeaderPlain(month: string)
    requires Plain(month)
    ensures '\n' !in "💰 Budget Status for " + month + ":"
    ensures Contains("💰 Budget Status for " + month + ":", "💰")
    ensures Contains("💰 Budget Status for " + month + ":", "Budget Status")
  {
    var t := " for " + month + ":";
    BudgetHeaderUnbroken(month);
    assert "💰 Budget Status for " == "💰 " + "Budget Status" + " for ";
    Assoc4("💰 " + "Budget Status", " for ", month, ":");
    BudgetTitle(t);
    assert "💰 " + "Budget Status" == "💰" + (" " + "Budget Status");
    Assoc4("💰", " " + "Budget Status", t, "");
    assert t + "" == t;
    MoneyIcon(" " + "Budget Status" + t);
  }

  lemma BudgetTextLines(n: Numbers, r: ToolReply)
    requires BudgetShown(n, r)
    ensures Split(Lines(BudgetLines(n, r)), "\n") == BudgetLines(n, r) + [""]
  {
    var header := "💰 Budget Status for " + r.month + ":";
    var top5 := r.statuses[..Min(5, |r.statuses|)];
    BudgetHeaderPlain(r.month);
    assert Unbroken([header]);
    var block := if |r.alerts| > 0 then ["🚨 ALERTS:"] + AlertLines(r.alerts) + [""] else [];
    if |r.alerts| > 0 {
      assert Unbroken(AlertLines(r.alerts)) by {
        forall i | 0 <= i < |r.alerts|
          ensures '\n' !in AlertLines(r.alerts)[i]
        {
          assert AlertShaped(r.alerts[i]);
        }
      }
      UnbrokenAppend(["🚨 ALERTS:"], AlertLines(r.alerts));
      UnbrokenAppend(["🚨 ALERTS:"] + AlertLines(r.alerts), [""]);
    }
    assert Unbroken(block);
    assert Unbroken(StatusLines(n, top5)) by {
      forall i | 0 <= i < |top5|
        ensures '\n' !in StatusLines(n, top5)[i]
      {
        var s := top5[i];
        assert StatusShown(n, s);
        StatusChars(s.category, n.fixed2(s.spent), n.fixed2(s.budget), n.fixed1(s.percentage));
      }
    }
    UnbrokenAppend([header], block);
    UnbrokenAppend([header] + block, StatusLines(n, top5));
    assert BudgetLines(n, r) == [header] + block + StatusLines(n, top5);
    SplitLines(BudgetLines(n, r));
  }

  lemma BudgetLinesMarked(n: Numbers, r: ToolReply)
    requires r.Budget? && Plain(r.month)
    ensures BudgetMarked(Lines(BudgetLines(n, r)))
  {
    var ls := BudgetLines(n, r);
    var header := "💰 Budget Status for " + r.month + ":";
    assert ls[0] == header;
    assert Lines(ls) == header + ("\n" + Lines(ls[1..]));
    BudgetHeaderPlain(r.month);
    ContainsPrefix(header, "\n" + Lines(ls[1..]), "💰");
    ContainsPrefix(header, "\n" + Lines(ls[1..]), "Budget Status");
  }

  /** The status lines and the closing blank line add the shown rows, in order. */
  lemma StatusTail(n: Numbers, st: BudgetScan, ss: seq<Status>)
    requires forall i :: 0 <= i < |ss| ==> StatusShown(n, ss[i])
    ensures BudgetOf(n, st, StatusLines(n, ss) + [""]) == Success(st.(rows := st.rows + ShownRows(n, ss)))
  {
    var st' := st.(rows := st.rows + ShownRows(n, ss));
    StatusRun(n, st, ss);
    BudgetOfAppend(n, st, StatusLines(n, ss), [""], st');
    BlankBudgetStep(n, st');
    BudgetCons(n, st', "", [], st');
    assert [""] + [] == [""];
  }

  /** The alerts header, the indented alerts and the blank line after them collect every alert. */
  lemma AlertBlock(n: Numbers, alerts: seq<string>, rest: seq<string>)
    requires forall i :: 0 <= i < |alerts| ==> AlertShaped(alerts[i])
    ensures BudgetOf(n, NoBudget, ["🚨 ALERTS:"] + (AlertLines(alerts) + ([""] + rest)))
      == BudgetOf(n, BudgetScan(true, ParsedAlerts(n, alerts), []), rest)
  {
    var st1 := NoBudget.(inAlerts := true);
    var st2 := BudgetScan(true, ParsedAlerts(n, alerts), []);
    AlertsHeaderStep(n, NoBudget);
    BudgetCons(n, NoBudget, "🚨 ALERTS:", AlertLines(alerts) + ([""] + rest), st1);
    AlertRun(n, st1, alerts);
    assert [] + ParsedAlerts(n, alerts) == ParsedAlerts(n, alerts);
    BudgetOfAppend(n, st1, AlertLines(alerts), [""] + rest, st2);
    BlankBudgetStep(n, st2);
    BudgetCons(n, st2, "", rest, st2);
  }

  /** The budget text's lines: the header, the alerts block when there are alerts, the status lines, then the closing blank. */
  lemma BudgetLinesShape(n: Numbers, r: ToolReply)
    requires r.Budget?
    ensures |r.alerts| > 0 ==>
              BudgetLines(n, r) + [""]
              == ["💰 Budget Status for " + r.month + ":"]
                 + (["🚨 ALERTS:"] + (AlertLines(r.alerts) + ([""] + (StatusLines(n, r.statuses[..Min(5, |r.statuses|)]) + [""]))))
    ensures |r.alerts| == 0 ==>
              BudgetLines(n, r) + [""]
              == ["💰 Budget Status for " + r.month + ":"] + (StatusLines(n, r.statuses[..Min(5, |r.statuses|)]) + [""])
  {
    var h := ["💰 Budget Status for " + r.month + ":"];
    var sl := StatusLines(n, r.statuses[..Min(5, |r.statuses|)]);
    if |r.alerts| > 0 {
      Regroup(h, ["🚨 ALERTS:"], AlertLines(r.alerts), [""], sl);
    } else {
      assert h + [] + sl + [""] == h + (sl + [""]);
    }
  }

  lemma Nest9<T>(a: seq<T>, b: seq<T>, c: seq<T>, d: seq<T>, e: seq<T>, f: seq<T>, g: seq<T>, h: seq<T>, i: seq<T>)
    ensures a + b + c + d + e + f + g + h + i == a + (b + c + (d + e + (f + g + h + i))) + []
  {
  }

  lemma Assoc4<T>(a: seq<T>, b: seq<T>, c: seq<T>, d: seq<T>)
    ensures a + b + c + d == a + (b + c + d)
  {
  }

  lemma Regroup<T>(h: seq<T>, x: seq<T>, a: seq<T>, y: seq<T>, s: seq<T>)
    ensures h + (x + a + y) + s + y == h + (x + (a + (y + (s + y))))
  {
  }

  /** The scan of the budget text's lines collects every alert and the first five statuses. */
  lemma BudgetScanLines(n: Numbers, r: ToolReply)
    requires BudgetShown(n, r)
    ensures BudgetOf(n, NoBudget, BudgetLines(n, r) + [""])
      == Success(BudgetScan(|r.alerts| > 0, ParsedAlerts(n, r.alerts), ShownRows(n, r.statuses[..Min(5, |r.statuses|)])))
  {
    var header := "💰 Budget Status for " + r.month + ":";
    var top5 := r.statuses[..Min(5, |r.statuses|)];
    var tail := StatusLines(n, top5) + [""];
    var rows := ShownRows(n, top5);
    BudgetHeaderStep(n, r.month);
    BudgetLinesShape(n, r);
    assert [] + rows == rows;
    if |r.alerts| > 0 {
      var block := ["🚨 ALERTS:"] + (AlertLines(r.alerts) + ([""] + tail));
      BudgetCons(n, NoBudget, header, block, NoBudget);
      AlertBlock(n, r.alerts, tail);
      StatusTail(n, BudgetScan(true, ParsedAlerts(n, r.alerts), []), top5);
    } else {
      BudgetCons(n, NoBudget, header, tail, NoBudget);
      StatusTail(n, NoBudget, top5);
      assert ParsedAlerts(n, r.alerts) == [];
    }
  }

  /**
   * The client's budget text reads back as every alert, read as the page reads
   * it, and as the first five statuses with their printed numbers.
   */
  lemma BudgetRoundTrip(n: Numbers, r: ToolReply, month: string)
    requires BudgetShown(n, r)
    ensures ParseBudget(n, Lines(BudgetLines(n, r)), month)
      == Success(BudgetData(ParsedAlerts(n, r.alerts), ShownRows(n, r.statuses[..Min(5, |r.statuses|)]), month))
  {
    BudgetLinesMarked(n, r);
    BudgetTextLines(n, r);
    BudgetScanLines(n, r);
  }

  /** A word starting with a character that occurs only at the head of `[x] + u` can occur only there. */
  lemma OnlyAtHead(x: char, u: string, p: string)
    requires |p| > 2 && p[0] == x && x !in u && |u| > 1 && u[1] != p[2]
    ensures !Contains([x] + u, p)
  {
    var t := [x] + u;
    forall i | 0 <= i && i + |p| <= |t|
      ensures !OccursAt(t, p, i)
    {
      if i == 0 {
        assert t[i..i + |p|][2] == u[1];
      } else {
        assert t[i..i + |p|][0] == u[i - 1];
      }
    }
  }

  lemma OverBudgetNotHeader(c: string, f: string)
    requires '🚨' !in c && Plain(f)
    ensures !Contains("🚨 OVER BUDGET: " + c + " (" + f + "%)", "🚨 ALERTS:")
  {
    var lead := " OVER BUDGET: ";
    var u := lead + c + " (" + f + "%)";
    assert forall i :: 0 <= i < |lead| ==> lead[i] in " OVERBUDGT:";
    PlainAbsent(f, '🚨');
    assert '🚨' !in u;
    assert u[1] == 'O';
    var head := "🚨 OVER BUDGET: ";
    assert head[1..] == lead;
    HeadTail(head);
    ConsChain('🚨', lead, c, " (", f, "%)");
    OnlyAtHead('🚨', u, "🚨 ALERTS:");
  }

  lemma HeadTail<T>(s: seq<T>)
    requires |s| > 0
    ensures s == [s[0]] + s[1..]
  {
  }

  lemma ConsChain<T>(x: T, a: seq<T>, b: seq<T>, c: seq<T>, d: seq<T>, e: seq<T>)
    ensures [x] + a + b + c + d + e == [x] + (a + b + c + d + e)
  {
  }

  lemma OverBudgetShaped(c: string, f: string)
    requires PlainName(c) && Plain(f)
    ensures AlertShaped("🚨 OVER BUDGET: " + c + " (" + f + "%)")
  {
    var t := "🚨 OVER BUDGET: " + c + " (" + f + "%)";
    PlainAbsent(f, '\n');
    assert '\n' !in "🚨 OVER BUDGET: ";
    assert t == "🚨" + (" OVER BUDGET: " + c + " (" + f + "%)");
    MarkedIcon(" OVER BUDGET: " + c + " (" + f + "%)");
    OverBudgetNotHeader(c, f);
    assert t[0] == '🚨' && t[|t| - 1] == ')';
  }

  lemma WarningIcon(x: string)
    ensures Contains("⚠️ WARNING: " + x, "⚠️")
  {
    ContainsMiddle("", "⚠️", " WARNING: " + x);
    assert "" + "⚠️" + (" WARNING: " + x) == "⚠️ WARNING: " + x;
  }

  lemma WarningShaped(c: string, f: string)
    requires PlainName(c) && Plain(f)
    ensures AlertShaped("⚠️ WARNING: " + c + " (" + f + "%)")
  {
    var x := c + " (" + f + "%)";
    var t := "⚠️ WARNING: " + x;
    assert t == "⚠️ WARNING: " + c + " (" + f + "%)";
    assert x[|x| - 1] == ')';
    WarningParts(x);
    PlainAbsent(f, '\n');
    PlainAbsent(f, '🚨');
    assert '🚨' !in x && '\n' !in x;
    AbsentChar(t, "🚨 ALERTS:", 0);
    WarningIcon(x);
  }

  lemma WarningParts(x: string)
    requires |x| > 0 && x[|x| - 1] == ')'
    ensures Stripped("⚠️ WARNING: " + x) && '🚨' !in "⚠️ WARNING: " && '\n' !in "⚠️ WARNING: "
  {
    var lead := "⚠️ WARNING: ";
    assert forall i :: 0 <= i < |lead| ==> lead[i] in "⚠️WARNIG: ";
    assert (lead + x)[0] == '⚠';
  }

  /** The server's alerts are alerts the page recognises. */
  lemma AlertTextShaped(e: FinanceServer.BudgetEntry, fixed1: real -> string)
    requires PlainName(e.category) && Plain(fixed1(e.percentage))
    ensures AlertShaped(FinanceServer.AlertText(e, fixed1))
  {
    if FinanceServer.LevelOf(e.percentage) == FinanceServer.OverBudget {
      OverBudgetShaped(e.category, fixed1(e.percentage));
    } else {
      WarningShaped(e.category, fixed1(e.percentage));
    }
  }
}
