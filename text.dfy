/**
 * Python `str` semantics used throughout the model: substring search,
 * `split`, `strip`, `lower`/`upper` (ASCII letters only), `replace`,
 * `count`, whitespace `split()` and `isdigit`.
 */
module Text {

  datatype Option<T> = None | Some(value: T)

  /** The value, or `d` when there is none (a keyword argument's default). */
  function GetOr<T>(o: Option<T>, d: T): T
  {
    if o.Some? then o.value else d
  }

  // ---------------------------------------------------------------------
  // Characters
  // ---------------------------------------------------------------------

  /**
   * The characters `str.strip()` and `str.split()` treat as whitespace
   * (`str.isspace`): tab to carriage return, the four separators U+001C to
   * U+001F, space, U+0085, U+00A0, U+1680, U+2000 to U+200A, the line and
   * paragraph separators, U+202F, U+205F and U+3000.
   */
  predicate IsSpace(c: char)
  {
    if c <= ' ' then '\t' <= c <= '\r' || '\U{1C}' <= c
    else if c < '\U{2000}' then c == '\U{85}' || c == '\U{A0}' || c == '\U{1680}'
    else c <= '\U{200A}' || c == '\U{2028}' || c == '\U{2029}' || c == '\U{202F}' || c == '\U{205F}' || c == '\U{3000}'
  }

  predicate IsDigitChar(c: char)
  {
    '0' <= c <= '9'
  }

  function LowerChar(c: char): (r: char)
    ensures 'A' <= c <= 'Z' ==> r as int == c as int + 32
    ensures !('A' <= c <= 'Z') ==> r == c
  {
    if 'A' <= c <= 'Z' then (c as int + 32) as char else c
  }

  function UpperChar(c: char): (r: char)
    ensures 'a' <= c <= 'z' ==> r as int == c as int - 32
    ensures !('a' <= c <= 'z') ==> r == c
  {
    if 'a' <= c <= 'z' then (c as int - 32) as char else c
  }

  /** `s.lower()` restricted to ASCII letters. */
  function Lower(s: string): (r: string)
    ensures |r| == |s|
    ensures forall i :: 0 <= i < |s| ==> r[i] == LowerChar(s[i])
  {
    seq(|s|, i requires 0 <= i < |s| => LowerChar(s[i]))
  }

  /** `s.upper()` restricted to ASCII letters. */
  function Upper(s: string): (r: string)
    ensures |r| == |s|
    ensures forall i :: 0 <= i < |s| ==> r[i] == UpperChar(s[i])
  {
    seq(|s|, i requires 0 <= i < |s| => UpperChar(s[i]))
  }

  /** Python `s.isdigit()` for ASCII: non-empty and only digits. */
  predicate IsDigits(s: string)
  {
    |s| > 0 && forall i :: 0 <= i < |s| ==> IsDigitChar(s[i])
  }

  // ---------------------------------------------------------------------
  // Substring search
  // ---------------------------------------------------------------------

  predicate OccursAt(s: string, p: string, i: int)
  {
    0 <= i && i + |p| <= |s| && s[i..i + |p|] == p
  }

  function FindFrom(s: string, p: string, i: nat): (r: Option<nat>)
    decreases |s| - i
    ensures r.Some? ==> i <= r.value && OccursAt(s, p, r.value)
    ensures r.Some? ==> forall j :: i <= j < r.value ==> !OccursAt(s, p, j)
    ensures r.None? ==> forall j :: i <= j ==> !OccursAt(s, p, j)
  {
    if i + |p| > |s| then None
    else if s[i..i + |p|] == p then Some(i)
    else FindFrom(s, p, i + 1)
  }

  /** `s.find(p)`: the first index where `p` occurs, if any. */
  function Find(s: string, p: string): (r: Option<nat>)
    ensures r.Some? ==> OccursAt(s, p, r.value)
    ensures r.Some? ==> forall j :: 0 <= j < r.value ==> !OccursAt(s, p, j)
    ensures r.None? ==> forall j :: !OccursAt(s, p, j)
  {
    FindFrom(s, p, 0)
  }

  /** A non-empty sequence followed by more is its head, then its tail followed by the rest. */
  lemma ConsAppend<T>(s: seq<T>, t: seq<T>)
    requires |s| > 0
    ensures [s[0]] + (s[1..] + t) == s + t
  {
    assert s == [s[0]] + s[1..];
  }

  /** Python `p in s`. */
  predicate Contains(s: string, p: string)
  {
    Find(s, p).Some?
  }

  /** Python `any(w in s for w in words)`. */
  predicate ContainsAny(s: string, words: seq<string>)
  {
    exists k :: 0 <= k < |words| && Contains(s, words[k])
  }

  predicate StartsWith(s: string, p: string)
  {
    |p| <= |s| && s[..|p|] == p
  }

  predicate EndsWith(s: string, p: string)
  {
    |p| <= |s| && s[|s| - |p|..] == p
  }

  lemma StartsWithAppend(a: string, b: string)
    ensures StartsWith(a + b, a)
  {
    assert (a + b)[..|a|] == a;
  }

  lemma ContainsIff(s: string, p: string)
    ensures Contains(s, p) <==> exists i :: OccursAt(s, p, i)
  {
  }

  lemma OccursContains(s: string, p: string, i: int)
    requires OccursAt(s, p, i)
    ensures Contains(s, p)
  {
  }

  /** Text containing `p + q` contains `p`. */
  lemma ContainsStart(s: string, p: string, q: string)
    requires Contains(s, p + q)
    ensures Contains(s, p)
  {
    var i := Find(s, p + q).value;
    assert s[i..i + |p|] == (p + q)[..|p|] == p;
    OccursContains(s, p, i);
  }

  lemma ContainsMiddle(a: string, p: string, b: string)
    ensures Contains(a + p + b, p)
  {
    assert (a + p + b)[|a|..|a| + |p|] == p;
    OccursContains(a + p + b, p, |a|);
  }

  lemma FindIs(s: string, p: string, i: nat)
    requires OccursAt(s, p, i)
    requires forall j :: 0 <= j < i ==> !OccursAt(s, p, j)
    ensures Find(s, p) == Some(i)
  {
  }

  /** A word that shares no character with `s` cannot occur in it. */
  lemma AbsentChar(s: string, p: string, k: nat)
    requires k < |p| && p[k] !in s
    ensures !Contains(s, p)
  {
    forall i | 0 <= i && i + |p| <= |s|
      ensures !OccursAt(s, p, i)
    {
      assert s[i..i + |p|][k] == s[i + k];
      assert s[i + k] in s;
    }
  }

  /**
   * When the character `p[k]` does not appear in `a + p[..k]`, the first
   * occurrence of `p` in `a + p + b` is the one right after `a`.
   */
  lemma FindAfter(a: string, p: string, b: string, k: nat)
    requires k < |p| && p[k] !in a + p[..k]
    ensures Find(a + p + b, p) == Some(|a|)
  {
    var s := a + p + b;
    assert s[|a|..|a| + |p|] == p;
    forall j | 0 <= j < |a|
      ensures !OccursAt(s, p, j)
    {
      assert s[..|a| + k] == a + p[..k];
      assert s[j + k] == (a + p[..k])[j + k];
      assert s[j + k] != p[k];
    }
    FindIs(s, p, |a|);
  }

  /** A word whose first character is not in `w` occurs in `w + a` only if it occurs in `a`. */
  lemma PrefixAbsent(w: string, a: string, p: string)
    requires |p| > 0 && p[0] !in w && !Contains(a, p)
    ensures !Contains(w + a, p)
  {
    forall i | 0 <= i && i + |p| <= |w + a|
      ensures !OccursAt(w + a, p, i)
    {
      if i < |w| {
        assert (w + a)[i] == w[i];
        assert (w + a)[i..i + |p|][0] == (w + a)[i];
      } else {
        assert (w + a)[i..i + |p|] == a[i - |w|..i - |w| + |p|];
        assert !OccursAt(a, p, i - |w|);
      }
    }
  }

  lemma ContainsPrefix(s: string, t: string, p: string)
    requires Contains(s, p)
    ensures Contains(s + t, p) && Contains(t + s, p)
  {
    var i := Find(s, p).value;
    assert (s + t)[i..i + |p|] == s[i..i + |p|];
    OccursContains(s + t, p, i);
    assert (t + s)[|t| + i..|t| + i + |p|] == s[i..i + |p|];
    OccursContains(t + s, p, |t| + i);
  }

  // ---------------------------------------------------------------------
  // split / join / replace / count
  // ---------------------------------------------------------------------

  /** `s.split(sep)` for a non-empty separator. */
  function Split(s: string, sep: string): (r: seq<string>)
    requires |sep| > 0
    decreases |s|
    ensures |r| >= 1
  {
    match Find(s, sep)
    case None => [s]
    case Some(i) => [s[..i]] + Split(s[i + |sep|..], sep)
  }

  /** A separator that occurs splits the text into at least two parts. */
  lemma SplitFound(s: string, c: char)
    requires c in s
    ensures |Split(s, [c])| >= 2
  {
    var i :| 0 <= i < |s| && s[i] == c;
    assert s[i..i + 1] == [c];
    OccursContains(s, [c], i);
  }

  lemma SplitNone(s: string, sep: string, k: nat)
    requires k < |sep| && sep[k] !in s
    ensures Split(s, sep) == [s]
  {
    AbsentChar(s, sep, k);
  }

  lemma SplitAfter(a: string, sep: string, b: string, k: nat)
    requires k < |sep| && sep[k] !in a + sep[..k]
    ensures Split(a + sep + b, sep) == [a] + Split(b, sep)
  {
    FindAfter(a, sep, b, k);
    var s := a + sep + b;
    assert s[..|a|] == a;
    assert s[|a| + |sep|..] == b;
  }

  /** Text free of the separator's first character ends at the separator's first occurrence. */
  lemma SplitAfterFirst(a: string, sep: string, b: string)
    requires |sep| > 0 && sep[0] !in a
    ensures Split(a + sep + b, sep) == [a] + Split(b, sep)
  {
    assert a + sep[..0] == a;
    SplitAfter(a, sep, b, 0);
  }

  /** `sep.join(parts)`. */
  function Join(parts: seq<string>, sep: string): (r: string)
    ensures |parts| == 0 ==> r == ""
    ensures |parts| == 1 ==> r == parts[0]
  {
    if |parts| == 0 then ""
    else if |parts| == 1 then parts[0]
    else parts[0] + sep + Join(parts[1..], sep)
  }

  /** Splitting on a one-character separator undoes joining parts that do not contain it. */
  lemma {:induction false} SplitJoin(parts: seq<string>, sep: string)
    requires |sep| == 1 && |parts| > 0
    requires forall i :: 0 <= i < |parts| ==> sep[0] !in parts[i]
    ensures Split(Join(parts, sep), sep) == parts
  {
    if |parts| == 1 {
      SplitNone(parts[0], sep, 0);
    } else {
      assert sep[..0] == "";
      assert parts[0] + sep[..0] == parts[0];
      SplitAfter(parts[0], sep, Join(parts[1..], sep), 0);
      SplitJoin(parts[1..], sep);
      assert [parts[0]] + parts[1..] == parts;
    }
  }

  /** `s.replace(o, n)` for a non-empty pattern. */
  function Replace(s: string, o: string, n: string): (r: string)
    requires |o| > 0
    decreases |s|
  {
    match Find(s, o)
    case None => s
    case Some(i) => s[..i] + n + Replace(s[i + |o|..], o, n)
  }

  lemma ReplaceAbsent(s: string, o: string, n: string, k: nat)
    requires k < |o| && o[k] !in s
    ensures Replace(s, o, n) == s
  {
    AbsentChar(s, o, k);
  }

  /** Replacing starts at the first occurrence, here the one right after `a`. */
  lemma ReplaceAfter(a: string, o: string, b: string, n: string, k: nat)
    requires k < |o| && o[k] !in a + o[..k]
    ensures Replace(a + o + b, o, n) == a + n + Replace(b, o, n)
  {
    FindAfter(a, o, b, k);
    var s := a + o + b;
    assert s[..|a|] == a;
    assert s[|a| + |o|..] == b;
  }

  /** Deleting a pattern brings in no character the text did not have. */
  lemma {:induction false} ReplaceEmptyChars(s: string, o: string, c: char)
    requires |o| > 0 && c !in s
    decreases |s|
    ensures c !in Replace(s, o, "")
  {
    match Find(s, o)
    case None =>
    case Some(i) =>
      var rest := s[i + |o|..];
      ReplaceEmptyChars(rest, o, c);
      assert c !in s[..i];
      assert Replace(s, o, "") == s[..i] + "" + Replace(rest, o, "");
      assert s[..i] + "" == s[..i];
  }

  /** Deleting a one-character pattern leaves none of that character. */
  lemma {:induction false} ReplaceRemovesChar(s: string, c: char)
    decreases |s|
    ensures c !in Replace(s, [c], "")
  {
    match Find(s, [c])
    case None =>
      forall j | 0 <= j < |s|
        ensures s[j] != c
      {
        assert !OccursAt(s, [c], j);
        assert s[j..j + 1] == [s[j]];
      }
    case Some(i) =>
      forall j | 0 <= j < i
        ensures s[j] != c
      {
        assert !OccursAt(s, [c], j);
        assert s[j..j + 1] == [s[j]];
      }
      ReplaceRemovesChar(s[i + 1..], c);
      assert Replace(s, [c], "") == s[..i] + Replace(s[i + 1..], [c], "");
  }

  /** `strip` keeps only characters the text already had. */
  lemma StripChars(s: string)
    ensures forall c :: c in Strip(s) ==> c in s
  {
    var l := StripLeft(s);
    assert l == s[|s| - |l|..];
    assert Strip(s) == l[..|Strip(s)|];
    forall c | c in Strip(s)
      ensures c in s
    {
      var j :| 0 <= j < |Strip(s)| && Strip(s)[j] == c;
      assert l[j] == c;
      assert s[|s| - |l| + j] == c;
    }
  }

  /** `s.count(p)`: non-overlapping occurrences, left to right. */
  function Count(s: string, p: string): (r: nat)
    requires |p| > 0
    decreases |s|
    ensures r > 0 <==> Contains(s, p)
  {
    match Find(s, p)
    case None => 0
    case Some(i) => 1 + Count(s[i + |p|..], p)
  }

  // ---------------------------------------------------------------------
  // reading a text file
  // ---------------------------------------------------------------------

  /**
   * What `Path.read_text()` returns for stored text: reading in text mode
   * with universal newlines turns "\r\n" and a lone '\r' into '\n'.
   */
  function ReadText(s: string): (r: string)
    decreases |s|
    ensures |r| <= |s|
    ensures '\r' !in r
  {
    if |s| == 0 then ""
    else if s[0] == '\r' then
      if |s| > 1 && s[1] == '\n' then "\n" + ReadText(s[2..]) else "\n" + ReadText(s[1..])
    else [s[0]] + ReadText(s[1..])
  }

  /** Every file's text, by name, as `read_text()` returns it. */
  function ReadTexts(files: map<string, string>): (r: map<string, string>)
    ensures r.Keys == files.Keys
    ensures forall n :: n in files ==> r[n] == ReadText(files[n])
  {
    map n | n in files :: ReadText(files[n])
  }

  /** Text without a carriage return reads back unchanged. */
  lemma {:induction false} ReadTextPlain(s: string)
    requires '\r' !in s
    ensures ReadText(s) == s
    decreases |s|
  {
    if |s| > 0 {
      assert s == [s[0]] + s[1..];
      assert '\r' !in s[1..];
      ReadTextPlain(s[1..]);
    }
  }

  /** Reading what was read changes nothing more. */
  lemma ReadTextIdempotent(s: string)
    ensures ReadText(ReadText(s)) == ReadText(s)
  {
    ReadTextPlain(ReadText(s));
  }

  /** Text that does not end in '\r' reads independently of what follows it. */
  lemma {:induction false} ReadTextAppend(a: string, b: string)
    requires |a| == 0 || a[|a| - 1] != '\r'
    ensures ReadText(a + b) == ReadText(a) + ReadText(b)
    decreases |a|
  {
    if |a| > 0 {
      var ab := a + b;
      assert ab[0] == a[0];
      if a[0] == '\r' {
        assert |a| > 1 && ab[1] == a[1];
        if a[1] == '\n' {
          assert ab[2..] == a[2..] + b;
          ReadTextAppend(a[2..], b);
          assert ReadText(ab) == "\n" + ReadText(a[2..] + b);
          assert ReadText(a) == "\n" + ReadText(a[2..]);
        } else {
          assert ab[1..] == a[1..] + b;
          ReadTextAppend(a[1..], b);
          assert ReadText(ab) == "\n" + ReadText(a[1..] + b);
          assert ReadText(a) == "\n" + ReadText(a[1..]);
        }
      } else {
        assert ab[1..] == a[1..] + b;
        ReadTextAppend(a[1..], b);
        assert ReadText(ab) == [a[0]] + ReadText(a[1..] + b);
      }
    } else {
      assert a + b == b;
    }
  }

  /** A "\r\n" line end reads as a single '\n'. */
  lemma CrLfReadsAsLf(a: string, b: string)
    requires '\r' !in a && '\r' !in b
    ensures ReadText(a + "\r\n" + b) == a + "\n" + b
  {
    ReadTextPlain(a);
    ReadTextPlain(b);
    assert a + "\r\n" + b == a + ("\r\n" + b);
    ReadTextAppend(a, "\r\n" + b);
    assert ("\r\n" + b)[2..] == b;
  }

  // ---------------------------------------------------------------------
  // strip and whitespace split
  // ---------------------------------------------------------------------

  function StripLeft(s: string): (r: string)
    decreases |s|
    ensures |r| <= |s| && r == s[|s| - |r|..]
    ensures |r| > 0 ==> !IsSpace(r[0])
    ensures forall i :: 0 <= i < |s| - |r| ==> IsSpace(s[i])
  {
    if |s| > 0 && IsSpace(s[0]) then StripLeft(s[1..]) else s
  }

  function StripRight(s: string): (r: string)
    decreases |s|
    ensures |r| <= |s| && r == s[..|r|]
    ensures |r| > 0 ==> !IsSpace(r[|r| - 1])
    ensures forall i :: |r| <= i < |s| ==> IsSpace(s[i])
  {
    if |s| > 0 && IsSpace(s[|s| - 1]) then StripRight(s[..|s| - 1]) else s
  }

  /** `s.strip()`. */
  function Strip(s: string): (r: string)
    ensures |r| <= |s|
    ensures |r| > 0 ==> !IsSpace(r[0]) && !IsSpace(r[|r| - 1])
  {
    StripRight(StripLeft(s))
  }

  /** Neither starts nor ends with whitespace, so `Strip` leaves it alone. */
  predicate Stripped(s: string)
  {
    |s| == 0 || (!IsSpace(s[0]) && !IsSpace(s[|s| - 1]))
  }

  /** Lower-casing keeps text stripped and leaves no upper-case letter. */
  lemma LowerStripped(s: string)
    requires Stripped(s)
    ensures Stripped(Lower(s))
    ensures forall i :: 0 <= i < |Lower(s)| ==> !('A' <= Lower(s)[i] <= 'Z')
  {
    var l := Lower(s);
    if |s| > 0 {
      assert l[0] == LowerChar(s[0]) && l[|l| - 1] == LowerChar(s[|s| - 1]);
    }
  }

  predicate AllSpace(s: string)
  {
    forall i :: 0 <= i < |s| ==> IsSpace(s[i])
  }

  lemma {:induction false} StripLeftSpaces(w: string, x: string)
    requires AllSpace(w) && (|x| == 0 || !IsSpace(x[0]))
    ensures StripLeft(w + x) == x
    decreases |w|
  {
    if |w| > 0 {
      assert (w + x)[1..] == w[1..] + x;
      StripLeftSpaces(w[1..], x);
    } else {
      assert w + x == x;
    }
  }

  lemma {:induction false} StripRightSpaces(x: string, w: string)
    requires AllSpace(w) && (|x| == 0 || !IsSpace(x[|x| - 1]))
    ensures StripRight(x + w) == x
    decreases |w|
  {
    if |w| > 0 {
      assert (x + w)[..|x + w| - 1] == x + w[..|w| - 1];
      StripRightSpaces(x, w[..|w| - 1]);
    } else {
      assert x + w == x;
    }
  }

  /** Surrounding whitespace is exactly what `strip` removes. */
  lemma StripPadded(w1: string, x: string, w2: string)
    requires AllSpace(w1) && AllSpace(w2) && Stripped(x)
    ensures Strip(w1 + x + w2) == x
  {
    if |x| == 0 {
      assert w1 + x + w2 == w1 + w2;
      StripLeftSpaces(w1 + w2, "");
      assert w1 + w2 + "" == w1 + w2;
    } else {
      assert w1 + x + w2 == w1 + (x + w2);
      StripLeftSpaces(w1, x + w2);
      StripRightSpaces(x, w2);
    }
  }

  lemma StripStripped(x: string)
    requires Stripped(x)
    ensures Strip(x) == x
  {
    StripPadded("", x, "");
    assert "" + x + "" == x;
  }

  lemma {:induction false} StripLeftConcat(a: string, b: string)
    requires |b| > 0 && !IsSpace(b[0])
    ensures StripLeft(a + b) == StripLeft(a) + b
    decreases |a|
  {
    if |a| > 0 && IsSpace(a[0]) {
      assert (a + b)[1..] == a[1..] + b;
      StripLeftConcat(a[1..], b);
    } else if |a| == 0 {
      assert a + b == b;
    }
  }

  lemma {:induction false} StripRightConcat(a: string, b: string)
    requires |a| > 0 && !IsSpace(a[|a| - 1])
    ensures StripRight(a + b) == a + StripRight(b)
    decreases |b|
  {
    if |b| > 0 && IsSpace(b[|b| - 1]) {
      assert (a + b)[..|a + b| - 1] == a + b[..|b| - 1];
      StripRightConcat(a, b[..|b| - 1]);
    } else if |b| == 0 {
      assert a + b == a;
    }
  }

  /**
   * Stripping text that holds a non-space core only trims the pieces on
   * either side of the core.
   */
  lemma StripAround(a: string, core: string, b: string)
    requires |core| > 0 && !IsSpace(core[0]) && !IsSpace(core[|core| - 1])
    ensures Strip(a + core + b) == StripLeft(a) + core + StripRight(b)
  {
    assert a + core + b == a + (core + b);
    StripLeftConcat(a, core + b);
    assert StripLeft(a) + (core + b) == (StripLeft(a) + core) + b;
    StripRightConcat(StripLeft(a) + core, b);
  }

  /** Python `s.split()` with no argument: the maximal runs of non-space. */
  function Words(s: string): (r: seq<string>)
    decreases |s|
    ensures forall k :: 0 <= k < |r| ==> |r[k]| > 0
  {
    var t := StripLeft(s);
    if |t| == 0 then []
    else
      var n := WordLength(t, 0);
      [t[..n]] + Words(t[n..])
  }

  function WordLength(t: string, i: nat): (n: nat)
    requires i <= |t|
    decreases |t| - i
    ensures i <= n <= |t|
    ensures n == |t| || IsSpace(t[n])
    ensures forall j :: i <= j < n ==> !IsSpace(t[j])
  {
    if i == |t| || IsSpace(t[i]) then i else WordLength(t, i + 1)
  }

  // ---------------------------------------------------------------------
  // Ordering of text, as SQLite compares it
  // ---------------------------------------------------------------------

  /** `a < b`, comparing code points left to right; a proper prefix comes first. */
  predicate TextLess(a: string, b: string)
    decreases |a|
  {
    |b| > 0 && (|a| == 0 || a[0] < b[0] || (a[0] == b[0] && TextLess(a[1..], b[1..])))
  }

  lemma {:induction false} TextLessIrreflexive(a: string)
    ensures !TextLess(a, a)
    decreases |a|
  {
    if |a| > 0 {
      TextLessIrreflexive(a[1..]);
    }
  }

  lemma {:induction false} TextLessTransitive(a: string, b: string, c: string)
    requires TextLess(a, b) && TextLess(b, c)
    ensures TextLess(a, c)
    decreases |a|
  {
    if |a| > 0 && a[0] == b[0] && b[0] == c[0] {
      TextLessTransitive(a[1..], b[1..], c[1..]);
    }
  }

  lemma {:induction false} TextLessTotal(a: string, b: string)
    requires a != b
    ensures TextLess(a, b) || TextLess(b, a)
    decreases |a|
  {
    if |a| > 0 && |b| > 0 && a[0] == b[0] {
      assert a == [a[0]] + a[1..] && b == [b[0]] + b[1..];
      TextLessTotal(a[1..], b[1..]);
    }
  }

  lemma {:induction false} TextLessAsymmetric(a: string, b: string)
    requires TextLess(a, b)
    ensures !TextLess(b, a)
    decreases |a|
  {
    if |a| > 0 && a[0] == b[0] {
      TextLessAsymmetric(a[1..], b[1..]);
    }
  }

  // ---------------------------------------------------------------------
  // Decimal numerals
  // ---------------------------------------------------------------------

  /** `int(s)` for a string of ASCII digits. */
  function DigitsValue(s: string): nat
    requires forall i :: 0 <= i < |s| ==> IsDigitChar(s[i])
  {
    if |s| == 0 then 0
    else
      assert IsDigitChar(s[|s| - 1]);
      DigitsValue(s[..|s| - 1]) * 10 + (s[|s| - 1] as int - '0' as int)
  }

  /** `str(n)` for a natural number. */
  function NatText(n: nat): (r: string)
    ensures IsDigits(r)
  {
    var d := [(n % 10 + '0' as int) as char];
    if n < 10 then d else NatText(n / 10) + d
  }

  /** Reading back the numeral of a number gives the number. */
  lemma {:induction false} NatTextValue(n: nat)
    ensures DigitsValue(NatText(n)) == n
  {
    var t := NatText(n);
    if n >= 10 {
      NatTextValue(n / 10);
      assert t[..|t| - 1] == NatText(n / 10);
    }
  }
}
