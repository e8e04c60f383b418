/**
 * The sidebar's portfolio selector: each portfolio is offered under the label
 * `f"{name} (ID: {id})"`, after an "All Portfolios" entry, and the chosen
 * label is turned back into a portfolio id with
 * `int(label.split("ID: ")[1].split(")")[0])`.
 *
 * Python's `str.split(sep)[k]`, `str(n)` for a natural number and `int(s)`
 * are modelled on `string` values.
 */
module Selector {
  import opened Options

  // ---------------------------------------------------------------------
  // Decimal digits: `str(n)` and its inverse
  // ---------------------------------------------------------------------

  predicate IsDigit(c: char) {
    '0' <= c <= '9'
  }

  predicate AllDigits(s: string) {
    forall i :: 0 <= i < |s| ==> IsDigit(s[i])
  }

  function DigitChar(d: nat): (c: char)
    requires d < 10
    ensures IsDigit(c)
  {
    ('0' as int + d) as char
  }

  function DigitValue(c: char): (d: nat)
    requires IsDigit(c)
    ensures d < 10
  {
    c as int - '0' as int
  }

  /** `str(n)`: the decimal digits of `n`, without leading zeros. */
  function Digits(n: nat): (r: string)
    ensures |r| >= 1 && AllDigits(r)
    ensures |r| > 1 ==> r[0] != '0'
  {
    if n < 10 then [DigitChar(n)] else Digits(n / 10) + [DigitChar(n % 10)]
  }

  /** The number a string of decimal digits denotes (leading zeros allowed). */
  function ValueOfDigits(s: string): nat
    requires AllDigits(s)
  {
    if s == [] then 0 else ValueOfDigits(s[..|s| - 1]) * 10 + DigitValue(s[|s| - 1])
  }

  /** Reading back what `str(n)` wrote gives `n`. */
  lemma {:induction false} DigitsRoundTrip(n: nat)
    ensures ValueOfDigits(Digits(n)) == n
  {
    if n >= 10 {
      DigitsRoundTrip(n / 10);
      var d := Digits(n);
      assert d[..|d| - 1] == Digits(n / 10);
    }
  }

  // ---------------------------------------------------------------------
  // `int(s)` on a string
  // ---------------------------------------------------------------------

  /** The white space `int()` skips around a literal: in ASCII only tab to
      carriage return and space (the information separators U+001C to
      U+001F, white space to `str.isspace`, are not skipped); beyond ASCII,
      U+0085, no-break space, and the Unicode space separators, line
      separator and paragraph separator. */
  predicate IsSpace(c: char) {
    || '\t' <= c <= '\r'
    || c == ' ' || c == '\U{85}' || c == '\U{A0}' || c == '\U{1680}'
    || '\U{2000}' <= c <= '\U{200A}'
    || c == '\U{2028}' || c == '\U{2029}' || c == '\U{202F}' || c == '\U{205F}' || c == '\U{3000}'
  }

  /** `s` with its leading white space removed. */
  function TrimStart(s: string): (r: string)
    ensures |r| <= |s|
    ensures r == [] || !IsSpace(r[0])
  {
    if s != [] && IsSpace(s[0]) then TrimStart(s[1..]) else s
  }

  /** `s` with its trailing white space removed. */
  function TrimEnd(s: string): (r: string)
    ensures |r| <= |s|
    ensures r == [] || !IsSpace(r[|r| - 1])
  {
    if s != [] && IsSpace(s[|s| - 1]) then TrimEnd(s[..|s| - 1]) else s
  }

  /** `t` is an integer literal denoting `v`: one or more decimal digits,
      optionally after a sign. */
  predicate IntLiteral(t: string, v: int) {
    || (t != [] && AllDigits(t) && v == ValueOfDigits(t))
    || (|t| >= 2 && t[0] == '+' && AllDigits(t[1..]) && v == ValueOfDigits(t[1..]))
    || (|t| >= 2 && t[0] == '-' && AllDigits(t[1..]) && v == -(ValueOfDigits(t[1..]) as int))
  }

  /** Everything of `s` before `i` and from `j` on is white space. */
  predicate SpacedAround(s: string, i: nat, j: nat) {
    && i <= j <= |s|
    && (forall k :: 0 <= k < i ==> IsSpace(s[k]))
    && (forall k :: j <= k < |s| ==> IsSpace(s[k]))
  }

  /** `int(s)`: surrounding white space, an optional sign, then one or more
      decimal digits; anything else raises `ValueError` (None). */
  function PyInt(s: string): (r: Option<int>)
    ensures r.Some? ==> IntLiteral(TrimStart(TrimEnd(s)), r.value)
  {
    var t := TrimStart(TrimEnd(s));
    if t != [] && (t[0] == '+' || t[0] == '-') then
      var m := t[1..];
      if m != [] && AllDigits(m) then Some(if t[0] == '-' then -(ValueOfDigits(m) as int) else ValueOfDigits(m)) else None
    else if t != [] && AllDigits(t) then Some(ValueOfDigits(t))
    else None
  }

  /** What `TrimEnd` removes is white space. */
  lemma {:induction false} TrimEndSpaces(s: string)
    ensures var r := TrimEnd(s);
            r == s[..|r|] && forall k :: |r| <= k < |s| ==> IsSpace(s[k])
  {
    if s != [] && IsSpace(s[|s| - 1]) {
      TrimEndSpaces(s[..|s| - 1]);
    } else {
      assert s[..|s|] == s;
    }
  }

  /** What `TrimStart` removes is white space. */
  lemma {:induction false} TrimStartSpaces(s: string)
    ensures var r := TrimStart(s);
            r == s[|s| - |r|..] && forall k :: 0 <= k < |s| - |r| ==> IsSpace(s[k])
  {
    if s != [] && IsSpace(s[0]) {
      TrimStartSpaces(s[1..]);
    }
  }

  /** A number `int` returns is read from an integer literal that only white
      space surrounds. */
  lemma PyIntSound(s: string)
    ensures PyInt(s).Some? ==>
              exists i: nat, j: nat :: SpacedAround(s, i, j) && IntLiteral(s[i..j], PyInt(s).value)
  {
    var e := TrimEnd(s);
    var t := TrimStart(e);
    TrimEndSpaces(s);
    TrimStartSpaces(e);
    assert t == s[|e| - |t|..|e|];
    assert SpacedAround(s, |e| - |t|, |e|);
  }

  lemma {:induction false} TrimEndIs(s: string, j: nat)
    requires SpacedAround(s, 0, j) && (j == 0 || !IsSpace(s[j - 1]))
    ensures TrimEnd(s) == s[..j]
    decreases |s| - j
  {
    if j < |s| {
      var init := s[..|s| - 1];
      assert init[..j] == s[..j];
      TrimEndIs(init, j);
    } else {
      assert s[..j] == s;
    }
  }

  lemma {:induction false} TrimStartIs(s: string, i: nat)
    requires SpacedAround(s, i, |s|) && (i == |s| || !IsSpace(s[i]))
    ensures TrimStart(s) == s[i..]
    decreases i
  {
    if i > 0 {
      TrimStartIs(s[1..], i - 1);
      assert s[1..][i - 1..] == s[i..];
    }
  }

  /** Conversely, `int` accepts every integer literal surrounded by white
      space, and reads the number it denotes. */
  lemma PyIntAccepts(s: string, i: nat, j: nat, v: int)
    requires SpacedAround(s, i, j) && IntLiteral(s[i..j], v)
    ensures PyInt(s) == Some(v)
  {
    var t := s[i..j];
    assert !IsSpace(t[|t| - 1]) && !IsSpace(t[0]);
    TrimEndIs(s, j);
    var e := s[..j];
    assert e[i..] == t;
    TrimStartIs(e, i);
  }

  /** A bare string of digits is read as the number it denotes. */
  lemma PyIntOfDigits(t: string)
    requires t != [] && AllDigits(t)
    ensures PyInt(t) == Some(ValueOfDigits(t))
  {
    assert !IsSpace(t[|t| - 1]) && !IsSpace(t[0]);
    assert TrimEnd(t) == t;
    assert TrimStart(t) == t;
  }

  /** `int` does not skip a leading information separator, though
      `str.isspace` counts it as white space: the string is rejected. */
  lemma PyIntRejectsSeparator()
    ensures PyInt("\U{1C}7") == None
  {
    assert TrimEnd("\U{1C}7") == "\U{1C}7";
    assert TrimStart("\U{1C}7") == "\U{1C}7";
  }

  // ---------------------------------------------------------------------
  // `str.split(sep)[k]`
  // ---------------------------------------------------------------------

  predicate OccursAt(s: string, sep: string, i: nat) {
    i + |sep| <= |s| && s[i..i + |sep|] == sep
  }

  /** The leftmost occurrence of `sep` in `s` at or after `i`. */
  function FindFrom(s: string, sep: string, i: nat): (r: Option<nat>)
    requires |sep| > 0
    ensures r.Some? ==> i <= r.value && OccursAt(s, sep, r.value)
    ensures r.Some? ==> forall j :: i <= j < r.value ==> !OccursAt(s, sep, j)
    ensures r.None? ==> forall j :: i <= j ==> !OccursAt(s, sep, j)
    decreases |s| - i
  {
    if i + |sep| > |s| then None
    else if OccursAt(s, sep, i) then Some(i)
    else FindFrom(s, sep, i + 1)
  }

  function Find(s: string, sep: string): Option<nat>
    requires |sep| > 0
  {
    FindFrom(s, sep, 0)
  }

  /** The first occurrence is the one with none before it. */
  lemma FindIs(s: string, sep: string, i: nat)
    requires |sep| > 0 && OccursAt(s, sep, i)
    requires forall j :: 0 <= j < i ==> !OccursAt(s, sep, j)
    ensures Find(s, sep) == Some(i)
  {
  }

  /** `sep` does not start at `i` when one of its characters differs. */
  lemma MismatchAt(s: string, sep: string, i: nat, k: nat)
    requires k < |sep| && i + k < |s| && s[i + k] != sep[k]
    ensures !OccursAt(s, sep, i)
  {
    if i + |sep| <= |s| {
      assert s[i..i + |sep|][k] == s[i + k];
    }
  }

  /** `s.split(sep)[k]`: the `k`-th piece when `s` is cut at each
      non-overlapping occurrence of `sep`, left to right; None when there are
      not that many pieces (`IndexError`). */
  function SplitField(s: string, sep: string, k: nat): (r: Option<string>)
    requires |sep| > 0
    ensures k == 0 ==> r.Some? && r.value <= s
    ensures k == 0 ==> forall j: nat :: j < |r.value| ==> !OccursAt(s, sep, j)
    ensures k == 0 ==> r.value == s || OccursAt(s, sep, |r.value|)
    decreases k
  {
    match Find(s, sep)
    case None => if k == 0 then Some(s) else None
    case Some(i) => if k == 0 then Some(s[..i]) else SplitField(s[i + |sep|..], sep, k - 1)
  }

  // ---------------------------------------------------------------------
  // Labels
  // ---------------------------------------------------------------------

  const AllPortfoliosOption: string := "All Portfolios"
  const IdMarker: string := "ID: "

  /** `f"{name} (ID: {id})"`. */
  function Label(name: string, id: nat): string {
    name + " (ID: " + Digits(id) + ")"
  }

  /** The id as the selector reads it back:
      `int(label.split("ID: ")[1].split(")")[0])`; None stands for the
      `IndexError` or `ValueError` it raises. */
  function ParseLabelId(text: string): (r: Option<int>)
    ensures r.Some? ==> Find(text, IdMarker).Some?
  {
    match SplitField(text, IdMarker, 1)
    case None => None
    case Some(part) => PyInt(SplitField(part, ")", 0).value)
  }

  /** A name the source's parse reads correctly: it does not contain
      "ID: " and does not end in "ID:" (which the label's own " " would
      complete to "ID: "). */
  predicate PlainName(name: string) {
    && (forall j: nat | j < |name| :: !OccursAt(name, IdMarker, j))
    && !(|name| >= 3 && name[|name| - 3..] == "ID:")
  }

  lemma LabelChars(name: string, id: nat)
    ensures var text, n, d := Label(name, id), |name|, Digits(id);
            && |text| == n + 7 + |d|
            && text[..n] == name
            && text[n] == ' ' && text[n + 1] == '(' && text[n + 2] == 'I' && text[n + 3] == 'D'
            && text[n + 4] == ':' && text[n + 5] == ' '
            && text[n + 6..] == d + ")"
  {
  }

  /** In a label, the first "ID: " is the one the label adds, provided the
      name is plain. */
  lemma {:induction false} FirstMarker(name: string, id: nat)
    requires PlainName(name)
    ensures Find(Label(name, id), IdMarker) == Some(|name| + 2)
  {
    var text, n := Label(name, id), |name|;
    LabelChars(name, id);
    assert text[n + 2..n + 6] == IdMarker;
    forall j: nat | j < n + 2
      ensures !OccursAt(text, IdMarker, j)
    {
      if j + 4 <= n {
        assert text[j..j + 4] == name[j..j + 4];
        assert !OccursAt(name, IdMarker, j);
      } else if j == n - 3 {
        assert text[j..j + 4][..3] == name[n - 3..];
        assert IdMarker[..3] == "ID:";
      } else if j == n - 2 {
        assert text[j + 3] == '(';
        assert text[j..j + 4][3] == '(';
      } else if j == n - 1 {
        assert text[j..j + 4][1] == ' ';
      } else if j == n {
        assert text[j..j + 4][0] == ' ';
      } else {
        assert text[j..j + 4][0] == '(';
      }
    }
    FindIs(text, IdMarker, n + 2);
  }

  /** Neither "ID: " nor ")" occurs in a string of digits before its end. */
  lemma DigitsThenParen(d: string)
    requires d != [] && AllDigits(d)
    ensures Find(d + ")", IdMarker) == None
    ensures Find(d + ")", ")") == Some(|d|)
  {
    var s := d + ")";
    forall j: nat
      ensures !OccursAt(s, IdMarker, j)
    {
      if j + 4 <= |s| {
        assert s[j..j + 4][0] == d[j];
        assert IsDigit(d[j]);
      }
    }
    assert s[|d|..|d| + 1] == ")";
    forall j: nat | j < |d|
      ensures !OccursAt(s, ")", j)
    {
      assert s[j..j + 1][0] == d[j];
      assert IsDigit(d[j]);
    }
    FindIs(s, ")", |d|);
  }

  /** For a plain name, the source's parse gives back the id the label was
      built with. */
  lemma {:induction false} ParseLabelIdRoundTrip(name: string, id: nat)
    requires PlainName(name)
    ensures ParseLabelId(Label(name, id)) == Some(id)
  {
    var text, n, d := Label(name, id), |name|, Digits(id);
    LabelChars(name, id);
    FirstMarker(name, id);
    var rest := text[n + 6..];
    assert rest == d + ")";
    DigitsThenParen(d);
    assert SplitField(rest, IdMarker, 0) == Some(rest);
    assert SplitField(text, IdMarker, 1) == SplitField(rest, IdMarker, 0);
    assert SplitField(rest, ")", 0) == Some(rest[..|d|]);
    assert rest[..|d|] == d;
    PyIntOfDigits(d);
    DigitsRoundTrip(id);
  }

  /** The label of portfolio 3 named "ID: 7)". */
  lemma MisreadLabel()
    ensures Label("ID: 7)", 3) == "ID: 7) (ID: 3)"
  {
    assert Digits(3) == "3";
  }

  /** A name containing "ID: " makes the source's parse read a number out of
      the name: portfolio 3 named "ID: 7)" is read as portfolio 7. */
  lemma ParseLabelIdMisreadsName()
    ensures ParseLabelId(Label("ID: 7)", 3)) == Some(7)
  {
    MisreadLabel();
    var text := "ID: 7) (ID: 3)";
    assert OccursAt(text, IdMarker, 0);
    FindIs(text, IdMarker, 0);
    var rest := text[4..];
    assert rest == "7) (ID: 3)";
    MisreadRest(rest);
    var part := rest[..4];
    MisreadPart(part);
    assert SplitField(text, IdMarker, 1) == SplitField(rest, IdMarker, 0) == Some(part);
    PyIntOfDigits("7");
    assert ValueOfDigits("7") == 7;
  }

  lemma MisreadRest(rest: string)
    requires rest == "7) (ID: 3)"
    ensures Find(rest, IdMarker) == Some(4) && rest[..4] == "7) ("
  {
    assert OccursAt(rest, IdMarker, 4);
    MismatchAt(rest, IdMarker, 0, 0);
    MismatchAt(rest, IdMarker, 1, 0);
    MismatchAt(rest, IdMarker, 2, 0);
    MismatchAt(rest, IdMarker, 3, 0);
    FindIs(rest, IdMarker, 4);
  }

  lemma MisreadPart(part: string)
    requires part == "7) ("
    ensures SplitField(part, ")", 0) == Some("7")
  {
    assert OccursAt(part, ")", 1);
    MismatchAt(part, ")", 0, 0);
    FindIs(part, ")", 1);
    assert part[..1] == "7";
  }

  /** A name holding "ID: " and then an information separator makes the
      source's parse raise: portfolio 3 named "ID: \x1c7)" yields the field
      "\x1c7", which `int` rejects. */
  lemma ParseLabelIdRejectsSeparator()
    ensures ParseLabelId(Label("ID: \U{1C}7)", 3)) == None
    ensures SelectAsWritten(Label("ID: \U{1C}7)", 3)) == Unreadable
  {
    assert Digits(3) == "3";
    var text := "ID: \U{1C}7) (ID: 3)";
    assert Label("ID: \U{1C}7)", 3) == text;
    assert OccursAt(text, IdMarker, 0);
    FindIs(text, IdMarker, 0);
    var rest := text[4..];
    assert rest == "\U{1C}7) (ID: 3)";
    SeparatorRest(rest);
    var part := rest[..5];
    SeparatorPart(part);
    assert SplitField(text, IdMarker, 1) == SplitField(rest, IdMarker, 0) == Some(part);
    PyIntRejectsSeparator();
  }

  lemma SeparatorRest(rest: string)
    requires rest == "\U{1C}7) (ID: 3)"
    ensures Find(rest, IdMarker) == Some(5) && rest[..5] == "\U{1C}7) ("
  {
    assert OccursAt(rest, IdMarker, 5);
    MismatchAt(rest, IdMarker, 0, 0);
    MismatchAt(rest, IdMarker, 1, 0);
    MismatchAt(rest, IdMarker, 2, 0);
    MismatchAt(rest, IdMarker, 3, 0);
    MismatchAt(rest, IdMarker, 4, 0);
    FindIs(rest, IdMarker, 5);
  }

  lemma SeparatorPart(part: string)
    requires part == "\U{1C}7) ("
    ensures SplitField(part, ")", 0) == Some("\U{1C}7")
  {
    assert OccursAt(part, ")", 2);
    MismatchAt(part, ")", 0, 0);
    MismatchAt(part, ")", 1, 0);
    FindIs(part, ")", 2);
    assert part[..2] == "\U{1C}7";
  }

  /** The label of portfolio 3 named "MyID:". */
  lemma RejectedLabel()
    ensures Label("MyID:", 3) == "MyID: (ID: 3)"
  {
    assert Digits(3) == "3";
  }

  /** A name ending in "ID:" makes the source's parse raise: portfolio 3
      named "MyID:" gives `int("(")`. */
  lemma ParseLabelIdRejectsName()
    ensures ParseLabelId(Label("MyID:", 3)) == None
  {
    RejectedLabel();
    var text := "MyID: (ID: 3)";
    assert OccursAt(text, IdMarker, 2);
    MismatchAt(text, IdMarker, 0, 0);
    MismatchAt(text, IdMarker, 1, 0);
    FindIs(text, IdMarker, 2);
    var rest := text[6..];
    assert rest == "(ID: 3)";
    RejectedRest(rest);
    var part := rest[..1];
    assert SplitField(text, IdMarker, 1) == SplitField(rest, IdMarker, 0) == Some(part);
    assert SplitField(part, ")", 0) == Some(part);
    assert TrimStart(TrimEnd(part)) == "(";
  }

  lemma RejectedRest(rest: string)
    requires rest == "(ID: 3)"
    ensures Find(rest, IdMarker) == Some(1) && rest[..1] == "("
    ensures Find(rest[..1], ")") == None
  {
    assert OccursAt(rest, IdMarker, 1);
    MismatchAt(rest, IdMarker, 0, 0);
    FindIs(rest, IdMarker, 1);
    var part := rest[..1];
    MismatchAt(part, ")", 0, 0);
  }

  // ---------------------------------------------------------------------
  // The corrected parse
  // ---------------------------------------------------------------------

  /** Where the run of digits at the end of `s` begins. */
  function DigitRunStart(s: string): (r: nat)
    ensures r <= |s|
  {
    if s == [] || !IsDigit(s[|s| - 1]) then |s| else DigitRunStart(s[..|s| - 1])
  }

  lemma {:induction false} DigitRunStartAfter(p: string, d: string)
    requires p != [] && !IsDigit(p[|p| - 1]) && AllDigits(d)
    ensures DigitRunStart(p + d) == |p|
    decreases |d|
  {
    if d == [] {
      assert p + d == p;
    } else {
      assert (p + d)[..|p + d| - 1] == p + d[..|d| - 1];
      DigitRunStartAfter(p, d[..|d| - 1]);
    }
  }

  lemma {:induction false} DigitRunAllDigits(s: string)
    ensures AllDigits(s[DigitRunStart(s)..])
  {
    if s != [] && IsDigit(s[|s| - 1]) {
      var init := s[..|s| - 1];
      DigitRunAllDigits(init);
      assert s[DigitRunStart(s)..] == init[DigitRunStart(init)..] + [s[|s| - 1]];
    }
  }

  /** From position `n` on, `text` is " (ID: ", a non-empty run of digits
      denoting `id`, and ")": the suffix a label ends in. */
  predicate IdSuffixAt(text: string, n: nat, id: int) {
    && n + 8 <= |text|
    && text[n..n + 6] == " (ID: "
    && text[|text| - 1] == ')'
    && AllDigits(text[n + 6..|text| - 1])
    && ValueOfDigits(text[n + 6..|text| - 1]) == id
  }

  /** The id read from the end of the label: the label must end in ")",
      preceded by " (ID: " and a run of digits; whatever the name holds
      comes before that and is not looked at. */
  function ParseLabelIdFromEnd(text: string): (r: Option<nat>)
    ensures r.Some? ==> exists n: nat :: IdSuffixAt(text, n, r.value)
  {
    if text == [] || text[|text| - 1] != ')' then None
    else
      var body := text[..|text| - 1];
      var start := DigitRunStart(body);
      DigitRunAllDigits(body);
      var digits := body[start..];
      if digits != [] && start >= 6 && body[start - 6..start] == " (ID: " then
        assert forall k :: start - 6 <= k < start ==> text[k] == body[k];
        assert text[start - 6..start] == body[start - 6..start];
        assert text[start..|text| - 1] == digits;
        assert IdSuffixAt(text, start - 6, ValueOfDigits(digits));
        Some(ValueOfDigits(digits))
      else None
  }

  /** Every label reads back as the id it was built with, whatever the name. */
  lemma {:induction false} LabelRoundTrip(name: string, id: nat)
    ensures ParseLabelIdFromEnd(Label(name, id)) == Some(id)
  {
    var text, n, d := Label(name, id), |name|, Digits(id);
    LabelChars(name, id);
    var body := text[..|text| - 1];
    var prefix := name + " (ID: ";
    assert body == prefix + d;
    DigitRunStartAfter(prefix, d);
    assert body[n + 6..] == d;
    assert body[n..n + 6] == " (ID: ";
    DigitsRoundTrip(id);
  }

  // ---------------------------------------------------------------------
  // The selector
  // ---------------------------------------------------------------------

  /** A row of the user's portfolios table. */
  datatype PortfolioRow = PortfolioRow(id: nat, name: string)

  /** What the pages are filtered by: every portfolio, or one id. */
  datatype Selection = AllPortfolios | Portfolio(id: int) | Unreadable

  /** `["All Portfolios"] + [f"{name} (ID: {id})" ...]`. */
  function PortfolioOptions(rows: seq<PortfolioRow>): (r: seq<string>)
    ensures |r| == |rows| + 1 && r[0] == AllPortfoliosOption
    ensures forall k :: 0 <= k < |rows| ==> r[k + 1] == Label(rows[k].name, rows[k].id)
  {
    if rows == [] then [AllPortfoliosOption]
    else PortfolioOptions(rows[..|rows| - 1]) + [Label(rows[|rows| - 1].name, rows[|rows| - 1].id)]
  }

  /** The selection for a chosen option, with the source's parse. */
  function SelectAsWritten(choice: string): (r: Selection)
    ensures r == AllPortfolios <==> choice == AllPortfoliosOption
    ensures r.Portfolio? ==> Find(choice, IdMarker).Some?
  {
    if choice == AllPortfoliosOption then AllPortfolios
    else match ParseLabelId(choice)
      case Some(id) => Portfolio(id)
      case None => Unreadable
  }

  /** The selection for a chosen option, with the parse read from the end. */
  function Select(choice: string): (r: Selection)
    ensures r == AllPortfolios <==> choice == AllPortfoliosOption
    ensures r.Portfolio? ==> r.id >= 0 && exists n: nat :: IdSuffixAt(choice, n, r.id)
  {
    if choice == AllPortfoliosOption then AllPortfolios
    else match ParseLabelIdFromEnd(choice)
      case Some(id) => Portfolio(id)
      case None => Unreadable
  }

  /** No label is mistaken for "All Portfolios". */
  lemma LabelIsNotAll(name: string, id: nat)
    ensures Label(name, id) != AllPortfoliosOption
  {
    var text := Label(name, id);
    assert text[|text| - 1] == ')';
    assert AllPortfoliosOption[|AllPortfoliosOption| - 1] == 's';
  }

  /** `current_portfolio_id` for the option at `choice`: None (every
      portfolio) when there are no portfolios or the first option is chosen,
      otherwise the id of the chosen row. */
  lemma SelectChoosesRow(rows: seq<PortfolioRow>, choice: nat)
    requires choice <= |rows|
    ensures var options := PortfolioOptions(rows);
            Select(options[choice]) == if choice == 0 then AllPortfolios else Portfolio(rows[choice - 1].id)
  {
    if choice > 0 {
      var row := rows[choice - 1];
      LabelIsNotAll(row.name, row.id);
      LabelRoundTrip(row.name, row.id);
    }
  }

  /** The source's parse agrees with the corrected one when every name is
      plain. */
  lemma SelectAsWrittenOnPlainNames(rows: seq<PortfolioRow>, choice: nat)
    requires choice <= |rows|
    requires forall k :: 0 <= k < |rows| ==> PlainName(rows[k].name)
    ensures var options := PortfolioOptions(rows);
            SelectAsWritten(options[choice]) == Select(options[choice])
  {
    SelectChoosesRow(rows, choice);
    if choice > 0 {
      var row := rows[choice - 1];
      LabelIsNotAll(row.name, row.id);
      ParseLabelIdRoundTrip(row.name, row.id);
    }
  }
}
