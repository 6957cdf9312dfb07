/**
 * The text, money, format-check and confidence helpers of the invoice
 * pipeline (`invoice_pipeline/utils.py`). All of them are pure functions
 * of their arguments.
 *
 * Regular expressions are written out as predicates. A pattern that ends
 * in `$` and is used with `re.match` also accepts the text followed by one
 * final newline, as Python's `$` does; `PatternEnd` says so once.
 */
module PipelineUtils {
  import opened Wrappers
  import opened Text
  import Numeric

  // ---------------------------------------------------------------------
  // Whitespace and lines
  // ---------------------------------------------------------------------

  /**
   * The shape `' '.join(text.split())` produces: the only whitespace is a
   * single plain space between two non-space characters.
   */
  predicate SingleSpaced(s: string)
  {
    forall i :: 0 <= i < |s| && IsSpace(s[i]) ==> s[i] == ' ' && 0 < i < |s| - 1 && !IsSpace(s[i + 1])
  }

  /**
   * `normalize_whitespace(text)`: the words of the text are kept, the
   * result is single-spaced, and it is never longer than the text.
   */
  function NormalizeWhitespace(text: string): (r: string)
    ensures Words(r) == Words(text)
    ensures SingleSpaced(r)
    ensures |r| <= |text|
  {
    if text == "" then ""
    else
      var ws := Words(text);
      WordsOfJoin(ws);
      JoinWordsSingleSpaced(ws);
      WordsLength(text);
      Join(" ", ws)
  }

  /** Normalising twice is normalising once. */
  lemma {:induction false} NormalizeWhitespaceIdempotent(text: string)
    ensures NormalizeWhitespace(NormalizeWhitespace(text)) == NormalizeWhitespace(text)
  {
    var n := NormalizeWhitespace(text);
    if n != "" {
      assert Words(n) == Words(text);
    }
  }

  /** A leading space does not change `split()`. */
  lemma {:induction false} WordsLeadingSpace(x: string)
    ensures Words(" " + x) == Words(x)
  {
    assert (" " + x)[1..] == x;
    assert LStrip(" " + x) == LStrip(x);
  }

  lemma {:induction false} SpanWhole(w: string, rest: string)
    requires IsWord(w) && (rest == [] || IsSpace(rest[0]))
    ensures SpanNonSpace(w + rest) == |w|
  {
    assert forall i :: 0 <= i < |w| ==> (w + rest)[i] == w[i];
    assert rest != [] ==> (w + rest)[|w|] == rest[0];
  }

  /** A word followed by nothing or by whitespace is the first word of `split()`. */
  lemma {:induction false} WordsCons(w: string, x: string)
    requires IsWord(w) && (x == [] || IsSpace(x[0]))
    ensures Words(w + x) == [w] + Words(x)
  {
    var t := w + x;
    assert t[0] == w[0];
    assert LStrip(t) == t;
    SpanWhole(w, x);
    assert t[..|w|] == w && t[|w|..] == x;
  }

  /** `split()` undoes `' '.join` of words. */
  lemma {:induction false} WordsOfJoin(ws: seq<string>)
    requires forall i :: 0 <= i < |ws| ==> IsWord(ws[i])
    ensures Words(Join(" ", ws)) == ws
    ensures ws != [] ==> Join(" ", ws) != [] && Join(" ", ws)[0] == ws[0][0]
    decreases |ws|
  {
    if |ws| == 1 {
      assert Words(ws[0]) == [ws[0]] by {
        WordsCons(ws[0], []);
        assert ws[0] + [] == ws[0];
      }
    } else if |ws| > 1 {
      assert ws == [ws[0]] + ws[1..];
      assert Words(Join(" ", ws[1..])) == ws[1..] && Join(" ", ws[1..]) != [] by {
        WordsOfJoin(ws[1..]);
      }
      WordsOfJoinStep(ws[0], ws[1..]);
    }
  }

  lemma {:induction false} WordsOfJoinStep(w: string, rest: seq<string>)
    requires IsWord(w) && rest != []
    requires Words(Join(" ", rest)) == rest
    requires Join(" ", rest) != []
    ensures Words(Join(" ", [w] + rest)) == [w] + rest
    ensures Join(" ", [w] + rest) != [] && Join(" ", [w] + rest)[0] == w[0]
  {
    var tail := Join(" ", rest);
    var j := Join(" ", [w] + rest);
    assert j == w + (" " + tail) by {
      assert ([w] + rest)[1..] == rest;
    }
    assert Words(j) == [w] + Words(" " + tail) by {
      WordsCons(w, " " + tail);
    }
    assert Words(" " + tail) == rest by {
      WordsLeadingSpace(tail);
    }
    assert j[0] == w[0];
  }

  lemma {:induction false} JoinWordsSingleSpaced(ws: seq<string>)
    requires forall i :: 0 <= i < |ws| ==> IsWord(ws[i])
    ensures SingleSpaced(Join(" ", ws))
    decreases |ws|
  {
    if |ws| > 1 {
      assert SingleSpaced(Join(" ", ws[1..])) && Join(" ", ws[1..]) != [] by {
        JoinWordsSingleSpaced(ws[1..]);
        WordsOfJoin(ws[1..]);
      }
      SingleSpacedCons(ws[0], Join(" ", ws[1..]));
    }
  }

  lemma {:induction false} SingleSpacedCons(w: string, tail: string)
    requires IsWord(w) && tail != [] && SingleSpaced(tail)
    ensures SingleSpaced(w + " " + tail)
  {
    var j := w + " " + tail;
    forall i | 0 <= i < |j| && IsSpace(j[i])
      ensures j[i] == ' ' && 0 < i < |j| - 1 && !IsSpace(j[i + 1])
    {
      if i == |w| {
        assert j[i + 1] == tail[0];
      } else if i > |w| {
        assert j[i] == tail[i - |w| - 1];
        if i + 1 < |j| {
          assert j[i + 1] == tail[i - |w|];
        }
      }
    }
  }

  /** The words of a text fit in it with a separator between each two. */
  lemma {:induction false} WordsLength(s: string)
    ensures |Join(" ", Words(s))| <= |s|
    decreases |s|
  {
    var t := LStrip(s);
    if t != [] {
      var k := SpanNonSpace(t);
      var rest := t[k..];
      WordsUnfold(s);
      JoinConsLength(t[..k], Words(rest));
      if Words(rest) != [] {
        WordsAfterSpace(rest);
        WordsLength(rest[1..]);
      }
    }
  }

  lemma {:induction false} WordsUnfold(s: string)
    requires LStrip(s) != []
    ensures Words(s) == [LStrip(s)[..SpanNonSpace(LStrip(s))]] + Words(LStrip(s)[SpanNonSpace(LStrip(s))..])
  {
  }

  /** What follows a word starts with whitespace, which `split()` skips. */
  lemma {:induction false} WordsAfterSpace(rest: string)
    requires rest == [] || IsSpace(rest[0])
    ensures rest == [] ==> Words(rest) == []
    ensures rest != [] ==> Words(rest) == Words(rest[1..])
  {
    if rest != [] {
      assert LStrip(rest) == LStrip(rest[1..]);
    }
  }

  lemma {:induction false} JoinConsLength(w: string, ws: seq<string>)
    ensures |Join(" ", [w] + ws)| == |w| + (if ws == [] then 0 else 1 + |Join(" ", ws)|)
  {
    assert ([w] + ws)[1..] == ws;
  }

  /** Python's `s.split(c)` for one separator character: the pieces between separators. */
  function SplitOn(s: string, c: char): (r: seq<string>)
    ensures r != []
    ensures forall i :: 0 <= i < |r| ==> c !in r[i]
    decreases |s|
  {
    var k := SpanWithout(s, c);
    if k == |s| then [s] else [s[..k]] + SplitOn(s[k + 1..], c)
  }

  /** Length of the longest prefix of `s` without `c`. */
  function SpanWithout(s: string, c: char): (k: nat)
    ensures k <= |s| && c !in s[..k]
    ensures k < |s| ==> s[k] == c
  {
    if s == [] || s[0] == c then 0
    else
      var k := 1 + SpanWithout(s[1..], c);
      assert s[..k] == [s[0]] + s[1..][..k - 1];
      k
  }

  /** Joining the pieces of `split(c)` with `c` gives the text back. */
  lemma {:induction false} SplitOnJoin(s: string, c: char)
    ensures Join([c], SplitOn(s, c)) == s
    decreases |s|
  {
    var k := SpanWithout(s, c);
    if k < |s| {
      SplitOnJoin(s[k + 1..], c);
      assert s == s[..k] + [c] + s[k + 1..];
    }
  }

  /** `[line.strip() for line in lines if line.strip()]` */
  function StrippedLines(lines: seq<string>): (r: seq<string>)
  {
    if lines == [] then []
    else
      var l := Strip(lines[0]);
      if l != "" then [l] + StrippedLines(lines[1..]) else StrippedLines(lines[1..])
  }

  /** `extract_lines(text)`: every line it gives is non-empty, stripped and free of newlines. */
  function ExtractLines(text: string): (r: seq<string>)
    ensures forall i :: 0 <= i < |r| ==> LineShape(r[i])
  {
    if text == "" then []
    else
      var lines := SplitOn(text, '\n');
      StrippedLinesShape(lines);
      StrippedLines(lines)
  }

  /** Every kept line is non-empty, already stripped and free of newlines. */
  lemma {:induction false} StrippedLinesShape(lines: seq<string>)
    requires forall j :: 0 <= j < |lines| ==> '\n' !in lines[j]
    ensures forall i :: 0 <= i < |StrippedLines(lines)| ==> LineShape(StrippedLines(lines)[i])
  {
    if lines != [] {
      var l := Strip(lines[0]);
      assert forall j :: 0 <= j < |lines[1..]| ==> '\n' !in lines[1..][j] by {
        forall j | 0 <= j < |lines[1..]| ensures '\n' !in lines[1..][j] {
          assert lines[1..][j] == lines[j + 1];
        }
      }
      StrippedLinesShape(lines[1..]);
      if l != "" {
        assert LineShape(l) by {
          StripFixed(l);
          StripKeeps(lines[0]);
        }
      }
    }
  }

  /** Non-empty, stripped, without a newline. */
  predicate LineShape(x: string) { x != "" && Strip(x) == x && '\n' !in x }

  /** A line that is not blank survives, stripped. */
  lemma {:induction false} StrippedLinesKeeps(lines: seq<string>, j: nat)
    requires j < |lines| && Strip(lines[j]) != ""
    ensures Strip(lines[j]) in StrippedLines(lines)
  {
    var l := Strip(lines[0]);
    var rest := StrippedLines(lines[1..]);
    assert StrippedLines(lines) == if l != "" then [l] + rest else rest;
    if j > 0 {
      assert Strip(lines[j]) in rest by {
        assert lines[1..][j - 1] == lines[j];
        StrippedLinesKeeps(lines[1..], j - 1);
      }
    }
  }

  /** Every kept line is the stripped form of a line of the input. */
  lemma {:induction false} StrippedLinesSource(lines: seq<string>, x: string)
    requires x in StrippedLines(lines)
    ensures exists j :: 0 <= j < |lines| && Strip(lines[j]) == x
  {
    if Strip(lines[0]) != x {
      assert x in StrippedLines(lines[1..]);
      StrippedLinesSource(lines[1..], x);
      var j :| 0 <= j < |lines[1..]| && Strip(lines[1..][j]) == x;
      assert lines[j + 1] == lines[1..][j];
    }
  }

  /**
   * Every extracted line is non-empty, already stripped and free of
   * newlines, and a line of the text is extracted exactly when it is not
   * blank.
   */
  lemma {:induction false} ExtractLinesSpec(text: string)
    ensures forall i :: 0 <= i < |ExtractLines(text)| ==> LineShape(ExtractLines(text)[i])
    ensures text != "" ==>
      var lines := SplitOn(text, '\n');
      (forall j :: 0 <= j < |lines| && Strip(lines[j]) != "" ==> Strip(lines[j]) in ExtractLines(text)) &&
      (forall x :: x in ExtractLines(text) ==> exists j :: 0 <= j < |lines| && Strip(lines[j]) == x)
  {
    if text != "" {
      var lines := SplitOn(text, '\n');
      StrippedLinesShape(lines);
      forall j | 0 <= j < |lines| && Strip(lines[j]) != "" ensures Strip(lines[j]) in ExtractLines(text) {
        StrippedLinesKeeps(lines, j);
      }
      forall x | x in ExtractLines(text) ensures exists j :: 0 <= j < |lines| && Strip(lines[j]) == x {
        StrippedLinesSource(lines, x);
      }
    }
  }

  // ---------------------------------------------------------------------
  // Money
  // ---------------------------------------------------------------------

  /** `re.sub('[...]', '', s)` for a character class `drop`. */
  function Without(s: string, drop: char -> bool): (r: string)
    ensures forall i :: 0 <= i < |r| ==> !drop(r[i])
  {
    if s == [] then []
    else if drop(s[0]) then Without(s[1..], drop)
    else [s[0]] + Without(s[1..], drop)
  }

  /** Nothing to remove: the string is unchanged. */
  lemma {:induction false} WithoutNothing(s: string, drop: char -> bool)
    requires forall i :: 0 <= i < |s| ==> !drop(s[i])
    ensures Without(s, drop) == s
  {
    if s != [] {
      assert forall i :: 0 <= i < |s[1..]| ==> !drop(s[1..][i]) by {
        forall i | 0 <= i < |s[1..]| ensures !drop(s[1..][i]) {
          assert s[1..][i] == s[i + 1];
        }
      }
      WithoutNothing(s[1..], drop);
    }
  }

  lemma {:induction false} WithoutCons(c: char, s: string, drop: char -> bool)
    ensures Without([c] + s, drop) == (if drop(c) then [] else [c]) + Without(s, drop)
  {
    assert ([c] + s)[0] == c && ([c] + s)[1..] == s;
  }

  /** The class `[£$€,\s]`. */
  predicate MoneyNoise(c: char) { c == '£' || c == '$' || c == '€' || c == ',' || IsSpace(c) }

  /** The class `[\-()]`. */
  predicate SignMark(c: char) { c == '-' || c == '(' || c == ')' }

  predicate ExponentMark(c: char) { c == 'e' || c == 'E' }

  predicate IsPoint(c: char) { c == '.' }

  /** Index of the first character satisfying `p`, or `|s|`. */
  function FirstWhere(s: string, p: char -> bool): (k: nat)
    ensures k <= |s|
    ensures forall i :: 0 <= i < k ==> !p(s[i])
    ensures k < |s| ==> p(s[k])
  {
    if s == [] || p(s[0]) then 0 else 1 + FirstWhere(s[1..], p)
  }

  function Pow10(n: nat): (r: real)
    ensures r >= 1.0
  {
    Numeric.PowAtLeastOne(10.0, n);
    Numeric.Pow(10.0, n)
  }

  /**
   * A finite `decimal.Decimal` as Python stores it: a sign, a whole
   * coefficient and a power of ten.
   */
  datatype Dec = Dec(negative: bool, coefficient: nat, exponent: int)
  {
    /** The number the decimal stands for. */
    function Value(): real
    {
      if negative then -Magnitude() else Magnitude()
    }

    /** The size of the number, whatever its sign. */
    function Magnitude(): real
    {
      if exponent >= 0 then coefficient as real * Pow10(exponent)
      else coefficient as real / Pow10(-exponent)
    }

    /** `-d`: the sign flips, and a zero comes out positive. */
    function Negate(): Dec
    {
      if coefficient == 0 then this.(negative := false) else this.(negative := !negative)
    }
  }

  /**
   * Digits with an optional decimal point and at least one digit (`12`,
   * `12.`, `.5`, `12.50`): the digits as the coefficient and minus the
   * number of digits after the point as the exponent.
   */
  function Mantissa(m: string): Option<(nat, int)>
  {
    var p := FirstWhere(m, IsPoint);
    var whole := m[..p];
    var frac := if p < |m| then m[p + 1..] else "";
    if AllDigits(whole) && AllDigits(frac) && |whole| + |frac| >= 1 then
      Some((DecimalValue(whole + frac), -|frac|))
    else None
  }

  /** An exponent after `e`/`E`: an optional sign and at least one digit. */
  function Exponent(x: string): Option<int>
  {
    var neg := x != [] && x[0] == '-';
    var d := if x != [] && (x[0] == '+' || x[0] == '-') then x[1..] else x;
    if d != [] && AllDigits(d) then Some(if neg then -(DecimalValue(d) as int) else DecimalValue(d) as int)
    else None
  }

  /**
   * `Decimal(s)` for finite numbers written in positional or exponent
   * form with an optional sign; `None` where the constructor raises.
   */
  function DecimalOf(s: string): Option<Dec>
  {
    var neg := s != [] && s[0] == '-';
    var body := if s != [] && (s[0] == '+' || s[0] == '-') then s[1..] else s;
    var e := FirstWhere(body, ExponentMark);
    var mantissa := Mantissa(body[..e]);
    var exponent := if e < |body| then Exponent(body[e + 1..]) else Some(0);
    if mantissa.Some? && exponent.Some? then
      Some(Dec(neg, mantissa.value.0, mantissa.value.1 + exponent.value))
    else None
  }

  /**
   * `parse_money(amount_str)`: an amount comes back exactly when what is
   * left of the text once symbols, separators and signs are removed is a
   * decimal, and its size is that decimal's.
   */
  function ParseMoney(amount: string): (r: Option<Dec>)
    ensures r.Some? <==> amount != "" && DecimalOf(Without(Without(Strip(amount), MoneyNoise), SignMark)).Some?
    ensures r.Some? ==>
      r.value.Magnitude() == DecimalOf(Without(Without(Strip(amount), MoneyNoise), SignMark)).value.Magnitude()
  {
    if amount == "" then None
    else
      var cleaned := Without(Strip(amount), MoneyNoise);
      var negative := cleaned != [] && (cleaned[0] == '-' || cleaned[0] == '(');
      match DecimalOf(Without(cleaned, SignMark))
      case None => None
      case Some(d) =>
        NegateMagnitude(d);
        Some(if negative then d.Negate() else d)
  }

  /** `-d` has the size of `d`. */
  lemma NegateMagnitude(d: Dec)
    ensures d.Negate().Magnitude() == d.Magnitude()
  {
  }

  /** Without a sign or an exponent, `Decimal(s)` is the mantissa. */
  lemma {:induction false} DecimalOfPlain(s: string)
    requires s == [] || (s[0] != '+' && s[0] != '-')
    requires forall i :: 0 <= i < |s| ==> IsDigit(s[i]) || IsPoint(s[i])
    ensures Mantissa(s).Some? ==> DecimalOf(s) == Some(Dec(false, Mantissa(s).value.0, Mantissa(s).value.1))
    ensures Mantissa(s).None? ==> DecimalOf(s).None?
  {
    assert FirstWhere(s, ExponentMark) == |s| by {
      NoneWhere(s, ExponentMark);
    }
    assert s[..|s|] == s;
  }

  lemma {:induction false} NoneWhere(s: string, p: char -> bool)
    requires forall i :: 0 <= i < |s| ==> !p(s[i])
    ensures FirstWhere(s, p) == |s|
  {
  }

  /** A plain run of digits is read as that whole number. */
  lemma {:induction false} DecimalOfDigits(d: string)
    requires d != [] && AllDigits(d)
    ensures DecimalOf(d) == Some(Dec(false, DecimalValue(d), 0))
  {
    assert Mantissa(d) == Some((DecimalValue(d), 0)) by {
      assert FirstWhere(d, IsPoint) == |d| by {
        NoneWhere(d, IsPoint);
      }
      assert d[..|d|] == d && d + "" == d;
    }
    DecimalOfPlain(d);
  }

  /** Digits around a point are read as their digits scaled by the places after the point. */
  lemma {:induction false} DecimalOfPoint(whole: string, frac: string)
    requires AllDigits(whole) && AllDigits(frac) && |whole| + |frac| >= 1
    ensures DecimalOf(whole + ['.'] + frac) == Some(Dec(false, DecimalValue(whole + frac), -|frac|))
  {
    var s := whole + ['.'] + frac;
    MantissaPoint(whole, frac);
    PointChars(whole, frac);
    DecimalOfPlain(s);
  }

  lemma {:induction false} MantissaPoint(whole: string, frac: string)
    requires AllDigits(whole) && AllDigits(frac) && |whole| + |frac| >= 1
    ensures Mantissa(whole + ['.'] + frac) == Some((DecimalValue(whole + frac), -|frac|))
  {
    var s := whole + ['.'] + frac;
    assert FirstWhere(s, IsPoint) == |whole| by {
      assert s[|whole|] == '.';
      assert forall i :: 0 <= i < |whole| ==> s[i] == whole[i];
    }
    assert s[..|whole|] == whole;
    assert s[|whole| + 1..] == frac;
  }

  lemma {:induction false} PointChars(whole: string, frac: string)
    requires AllDigits(whole) && AllDigits(frac)
    ensures forall i :: 0 <= i < |whole + ['.'] + frac| ==> IsDigit((whole + ['.'] + frac)[i]) || IsPoint((whole + ['.'] + frac)[i])
    ensures (whole + ['.'] + frac)[0] != '+' && (whole + ['.'] + frac)[0] != '-'
  {
    var s := whole + ['.'] + frac;
    assert forall i :: 0 <= i < |whole| ==> s[i] == whole[i];
    assert forall i :: |whole| < i < |s| ==> s[i] == frac[i - |whole| - 1];
    assert s[0] == if whole == [] then '.' else whole[0];
  }

  /** `parse_money` once the symbols and separators have been removed. */
  lemma {:induction false} ParseMoneySteps(amount: string, cleaned: string, body: string, d: Dec)
    requires amount != ""
    requires Without(Strip(amount), MoneyNoise) == cleaned
    requires Without(cleaned, SignMark) == body && DecimalOf(body) == Some(d)
    ensures cleaned != [] && (cleaned[0] == '-' || cleaned[0] == '(') ==> ParseMoney(amount) == Some(d.Negate())
    ensures cleaned == [] || (cleaned[0] != '-' && cleaned[0] != '(') ==> ParseMoney(amount) == Some(d)
  {
  }

  lemma {:induction false} NoMarks(d: string)
    requires AllDigits(d)
    ensures Without(d, MoneyNoise) == d && Without(d, SignMark) == d
  {
    WithoutNothing(d, MoneyNoise);
    WithoutNothing(d, SignMark);
  }

  /** A run of digits is read as that whole number. */
  lemma {:induction false} ParseMoneyDigits(d: string)
    requires d != [] && AllDigits(d)
    ensures ParseMoney(d) == Some(Dec(false, DecimalValue(d), 0))
  {
    DecimalOfDigits(d);
    NoMarks(d);
    StripFixed(d);
    ParseMoneySteps(d, d, d, Dec(false, DecimalValue(d), 0));
  }

  /** A currency symbol or separator in front of an amount is ignored. */
  lemma {:induction false} ParseMoneySymbol(c: char, d: string)
    requires MoneyNoise(c) && !IsSpace(c)
    requires d != [] && Strip(d) == d
    ensures ParseMoney([c] + d) == ParseMoney(d)
  {
    var s := [c] + d;
    assert s[0] == c && s[|s| - 1] == d[|d| - 1];
    StripFixed(s);
    WithoutCons(c, d, MoneyNoise);
  }

  /** A minus sign in front of digits negates the amount. */
  lemma {:induction false} ParseMoneyMinus(d: string)
    requires d != [] && AllDigits(d)
    ensures ParseMoney(['-'] + d) == Some(Dec(false, DecimalValue(d), 0).Negate())
  {
    var s := ['-'] + d;
    var v := Dec(false, DecimalValue(d), 0);
    assert Without(s, MoneyNoise) == s && Without(s, SignMark) == d by {
      NoMarks(d);
      WithoutCons('-', d, MoneyNoise);
      WithoutCons('-', d, SignMark);
    }
    assert Strip(s) == s by {
      assert s[0] == '-' && s[|s| - 1] == d[|d| - 1];
      StripFixed(s);
    }
    assert DecimalOf(d) == Some(v) by {
      DecimalOfDigits(d);
    }
    ParseMoneySteps(s, s, d, v);
  }

  /** Digits in brackets are a negative amount, as accountants write them. */
  lemma {:induction false} ParseMoneyBrackets(d: string)
    requires d != [] && AllDigits(d)
    ensures ParseMoney(['('] + d + [')']) == Some(Dec(false, DecimalValue(d), 0).Negate())
  {
    var s := ['('] + d + [')'];
    var v := Dec(false, DecimalValue(d), 0);
    assert s == ['('] + (d + [')']);
    assert Without(s, MoneyNoise) == s by {
      NoMarks(d);
      WithoutCons('(', d + [')'], MoneyNoise);
      WithoutAppend(d, [')'], MoneyNoise);
      WithoutOne(')', MoneyNoise);
    }
    assert Without(s, SignMark) == d by {
      NoMarks(d);
      WithoutCons('(', d + [')'], SignMark);
      WithoutAppend(d, [')'], SignMark);
      WithoutOne(')', SignMark);
      assert d + [] == d;
    }
    assert Strip(s) == s by {
      assert s[0] == '(' && s[|s| - 1] == ')';
      StripFixed(s);
    }
    assert DecimalOf(d) == Some(v) by {
      DecimalOfDigits(d);
    }
    ParseMoneySteps(s, s, d, v);
  }

  lemma {:induction false} WithoutOne(c: char, drop: char -> bool)
    ensures Without([c], drop) == if drop(c) then [] else [c]
  {
    assert [c][0] == c && [c][1..] == [];
  }

  lemma {:induction false} WithoutAppend(a: string, b: string, drop: char -> bool)
    ensures Without(a + b, drop) == Without(a, drop) + Without(b, drop)
    decreases |a|
  {
    if a != [] {
      assert a + b == [a[0]] + (a[1..] + b);
      WithoutCons(a[0], a[1..] + b, drop);
      WithoutAppend(a[1..], b, drop);
    } else {
      assert a + b == b;
    }
  }

  /** An amount with pence: `12.50` is 1250 hundredths. */
  lemma {:induction false} ParseMoneyPence(whole: string, frac: string)
    requires AllDigits(whole) && AllDigits(frac) && whole != []
    ensures ParseMoney(whole + ['.'] + frac) == Some(Dec(false, DecimalValue(whole + frac), -|frac|))
  {
    var s := whole + ['.'] + frac;
    var v := Dec(false, DecimalValue(whole + frac), -|frac|);
    assert s[0] == whole[0];
    assert DecimalOf(s) == Some(v) by {
      DecimalOfPoint(whole, frac);
    }
    assert Without(s, MoneyNoise) == s && Without(s, SignMark) == s by {
      PointUnmarked(whole, frac);
    }
    assert Strip(s) == s by {
      PointStripped(whole, frac);
    }
    ParseMoneySteps(s, s, s, v);
  }

  lemma {:induction false} PointUnmarked(whole: string, frac: string)
    requires AllDigits(whole) && AllDigits(frac)
    ensures Without(whole + ['.'] + frac, MoneyNoise) == whole + ['.'] + frac
    ensures Without(whole + ['.'] + frac, SignMark) == whole + ['.'] + frac
  {
    NoMarks(whole);
    NoMarks(frac);
    WithoutAppend(whole + ['.'], frac, MoneyNoise);
    WithoutAppend(whole, ['.'], MoneyNoise);
    WithoutAppend(whole + ['.'], frac, SignMark);
    WithoutAppend(whole, ['.'], SignMark);
    WithoutOne('.', MoneyNoise);
    WithoutOne('.', SignMark);
  }

  lemma {:induction false} PointStripped(whole: string, frac: string)
    requires AllDigits(whole) && AllDigits(frac) && whole != []
    ensures Strip(whole + ['.'] + frac) == whole + ['.'] + frac
  {
    var s := whole + ['.'] + frac;
    assert s[0] == whole[0];
    assert s[|s| - 1] == if frac == [] then '.' else frac[|frac| - 1];
    StripFixed(s);
  }

  /** Negating a decimal negates its value. */
  lemma NegateValue(d: Dec)
    ensures d.Negate().Value() == -d.Value()
  {
    assert d.Negate().Magnitude() == d.Magnitude();
    if d.coefficient == 0 {
      ZeroMagnitude(d);
    }
  }

  lemma ZeroMagnitude(d: Dec)
    requires d.coefficient == 0
    ensures d.Magnitude() == 0.0
  {
  }

  /** Nothing left after removing symbols, separators and signs: no amount. */
  lemma {:induction false} ParseMoneyNothingLeft(amount: string)
    requires Without(Without(Strip(amount), MoneyNoise), SignMark) == ""
    ensures ParseMoney(amount) == None
  {
    assert FirstWhere("", ExponentMark) == 0;
    assert FirstWhere("", IsPoint) == 0;
  }

  // ---------------------------------------------------------------------
  // Format checks
  // ---------------------------------------------------------------------

  /** `re.match(p + '$', s)` where `shape` is the language of `p`. */
  predicate PatternEnd(s: string, shape: string -> bool)
  {
    shape(s) || (s != [] && s[|s| - 1] == '\n' && shape(s[..|s| - 1]))
  }

  predicate AllWhere(s: string, p: char -> bool) { forall i :: 0 <= i < |s| ==> p(s[i]) }

  /** `[a-zA-Z0-9._%+-]` */
  predicate LocalChar(c: char) { IsAlnum(c) || c == '.' || c == '_' || c == '%' || c == '+' || c == '-' }

  /** `[a-zA-Z0-9.-]` */
  predicate DomainChar(c: char) { IsAlnum(c) || c == '.' || c == '-' }

  /** `[a-zA-Z0-9.-]+\.[a-zA-Z]{2,}` */
  predicate DomainShape(d: string)
  {
    exists k :: 1 <= k && k + 3 <= |d| && DomainSplit(d, k)
  }

  predicate DomainSplit(d: string, k: nat)
    requires k < |d|
  {
    d[k] == '.' && AllWhere(d[..k], DomainChar) && AllWhere(d[k + 1..], IsAlpha)
  }

  /** `[a-zA-Z0-9._%+-]+@` followed by a domain. */
  predicate EmailShape(s: string)
  {
    exists a :: 0 < a < |s| && EmailSplit(s, a)
  }

  predicate EmailSplit(s: string, a: nat)
    requires a < |s|
  {
    s[a] == '@' && AllWhere(s[..a], LocalChar) && DomainShape(s[a + 1..])
  }

  /** `is_valid_email(email)` */
  predicate IsValidEmail(email: string)
  {
    email != "" && PatternEnd(email, EmailShape)
  }

  /**
   * `[A-Z]{1,2}\d[A-Z\d]?` then, when `gap` holds, `\s?`, then
   * `\d[A-Z]{2}`: `area` letters, one optional district character
   * (`district` is 0 or 1) and `space` optional whitespace (0 or 1).
   */
  predicate PostcodeAt(s: string, area: nat, district: nat, space: nat)
  {
    var n := area + 1 + district + space;
    |s| == n + 3 &&
    AllWhere(s[..area], IsUpper) && IsDigit(s[area]) &&
    (district == 1 ==> IsUpper(s[area + 1]) || IsDigit(s[area + 1])) &&
    (space == 1 ==> IsSpace(s[area + 1 + district])) &&
    IsDigit(s[n]) && IsUpper(s[n + 1]) && IsUpper(s[n + 2])
  }

  predicate PostcodeShape(s: string, gap: bool)
  {
    exists area: nat, district: nat, space: nat
      | 1 <= area <= 2 && district <= 1 && space <= (if gap then 1 else 0) :: PostcodeAt(s, area, district, space)
  }

  /** `[A-Z]{1,2}\d[A-Z\d]?\d[A-Z]{2}` */
  predicate PostcodeTight(s: string) { PostcodeShape(s, false) }

  /** `[A-Z]{1,2}\d[A-Z\d]?\s?\d[A-Z]{2}` */
  predicate PostcodeSpaced(s: string) { PostcodeShape(s, true) }

  /** `is_valid_uk_postcode(postcode)` */
  predicate IsValidUkPostcode(postcode: string)
  {
    postcode != "" && PatternEnd(Remove(Upper(postcode), ' '), PostcodeSpaced)
  }

  /** `is_valid_utr(utr)` */
  predicate IsValidUtr(utr: string)
  {
    utr != "" && |Digits(utr)| == 10
  }

  /** `[A-Z]{2}\d{6}[A-Z]` */
  predicate NiShape(s: string)
  {
    |s| == 9 && AllWhere(s[..2], IsUpper) && AllDigits(s[2..8]) && IsUpper(s[8])
  }

  /** `is_valid_ni_number(ni)` */
  predicate IsValidNiNumber(ni: string)
  {
    ni != "" && PatternEnd(Remove(Upper(ni), ' '), NiShape)
  }

  /**
   * A postcode in the form without the optional gap also has the form
   * with it, so whatever the cleaner-side check accepts the helper accepts.
   */
  lemma {:induction false} PostcodeTightIsSpaced(s: string)
    requires PatternEnd(s, PostcodeTight)
    ensures PatternEnd(s, PostcodeSpaced)
  {
    if PostcodeTight(s) {
      var a: nat, d: nat, w: nat :| 1 <= a <= 2 && d <= 1 && w <= 0 && PostcodeAt(s, a, d, w);
      assert PostcodeSpaced(s);
    } else {
      var t := s[..|s| - 1];
      var a: nat, d: nat, w: nat :| 1 <= a <= 2 && d <= 1 && w <= 0 && PostcodeAt(t, a, d, w);
      assert PostcodeSpaced(t);
    }
  }

  /** A valid email has exactly one `@`, with something on each side. */
  lemma {:induction false} ValidEmailOneAt(email: string)
    requires IsValidEmail(email)
    ensures exists a :: 0 < a < |email| - 1 && OnlyAt(email, a)
  {
    if EmailShape(email) {
      var a :| 0 < a < |email| && EmailSplit(email, a);
      EmailSplitOnlyAt(email, a);
    } else {
      var t := email[..|email| - 1];
      var a :| 0 < a < |t| && EmailSplit(t, a);
      EmailSplitOnlyAt(t, a);
      assert forall i :: 0 <= i < |t| ==> email[i] == t[i];
      assert OnlyAt(email, a);
    }
  }

  lemma {:induction false} EmailSplitOnlyAt(s: string, a: nat)
    requires 0 < a < |s| && EmailSplit(s, a)
    ensures a < |s| - 1 && OnlyAt(s, a)
  {
    var d := s[a + 1..];
    var k :| 1 <= k && k + 3 <= |d| && DomainSplit(d, k);
    forall i | 0 <= i < |s| && i != a ensures s[i] != '@' {
      if i < a {
        assert s[..a][i] == s[i];
      } else {
        var j := i - a - 1;
        assert d[j] == s[i];
        if j < k {
          assert d[..k][j] == d[j];
        } else if j > k {
          assert d[k + 1..][j - k - 1] == d[j];
        }
      }
    }
  }

  /** `@` occurs at `a` and nowhere else. */
  predicate OnlyAt(email: string, a: nat)
  {
    a < |email| && email[a] == '@' && forall i :: 0 <= i < |email| && i != a ==> email[i] != '@'
  }

  /**
   * A valid NI number is nine characters once upper-cased without spaces,
   * or ten when `$` lets a final newline through.
   */
  lemma {:induction false} ValidNiShape(ni: string)
    requires IsValidNiNumber(ni)
    ensures var s := Remove(Upper(ni), ' '); |s| == 9 || (|s| == 10 && s[9] == '\n')
  {
  }

  // ---------------------------------------------------------------------
  // Confidence
  // ---------------------------------------------------------------------

  /**
   * What `calculate_extraction_confidence` reads from the extracted
   * dictionary: whether the dictionary is non-empty, which of its values
   * are truthy (the invoice number, the date, the contractor's name, the
   * financials sub-dictionary, its subtotal or total), whether the VAT
   * amount is present at all, and how many work items there are.
   */
  datatype ExtractedFacts = ExtractedFacts(
    nonEmpty: bool,
    invoiceNumber: bool,
    invoiceDate: bool,
    contractorName: bool,
    financials: bool,
    subtotalOrTotal: bool,
    vatAmount: bool,
    workItems: nat)

  function Weight(present: bool, w: real): real { if present then w else 0.0 }

  /** The sum before the final `min(confidence, 1.0)`. */
  function RawConfidence(f: ExtractedFacts): real
  {
    Weight(f.invoiceNumber, 0.15) + Weight(f.invoiceDate, 0.15) + Weight(f.contractorName, 0.15)
    + Weight(f.financials && f.subtotalOrTotal, 0.2) + Weight(f.financials && f.vatAmount, 0.1)
    + Numeric.Min(f.workItems as real * 0.1, 0.25)
  }

  /** `calculate_extraction_confidence(text, extracted_data)` */
  function ExtractionConfidence(text: string, f: ExtractedFacts): real
  {
    if text == "" || !f.nonEmpty then 0.0 else Numeric.Min(RawConfidence(f), 1.0)
  }

  /**
   * The confidence is a fraction; the weights add up to exactly one, so
   * the final cap never lowers the sum, and a fully populated extraction
   * with at least three work items scores one.
   */
  lemma {:induction false} ExtractionConfidenceBounds(text: string, f: ExtractedFacts)
    ensures 0.0 <= ExtractionConfidence(text, f) <= 1.0
    ensures text != "" && f.nonEmpty ==> ExtractionConfidence(text, f) == RawConfidence(f)
    ensures text != "" && f.nonEmpty && f.invoiceNumber && f.invoiceDate && f.contractorName
      && f.financials && f.subtotalOrTotal && f.vatAmount && f.workItems >= 3
      ==> ExtractionConfidence(text, f) == 1.0
    ensures text == "" || !f.nonEmpty ==> ExtractionConfidence(text, f) == 0.0
  {
  }

  /** Each further work item adds to the confidence until the work-item share is full. */
  lemma {:induction false} ExtractionConfidenceMonotone(text: string, f: ExtractedFacts, g: ExtractedFacts)
    requires f.nonEmpty == g.nonEmpty
    requires f.invoiceNumber ==> g.invoiceNumber
    requires f.invoiceDate ==> g.invoiceDate
    requires f.contractorName ==> g.contractorName
    requires f.financials && f.subtotalOrTotal ==> g.financials && g.subtotalOrTotal
    requires f.financials && f.vatAmount ==> g.financials && g.vatAmount
    requires f.workItems <= g.workItems
    ensures ExtractionConfidence(text, f) <= ExtractionConfidence(text, g)
  {
  }

  function Sum(s: seq<real>): real
  {
    if s == [] then 0.0 else s[0] + Sum(s[1..])
  }

  function SumOfSquares(s: seq<real>): real
  {
    if s == [] then 0.0 else s[0] * s[0] + SumOfSquares(s[1..])
  }

  function MaxOf(s: seq<real>): (m: real)
    requires s != []
    ensures forall i :: 0 <= i < |s| ==> s[i] <= m
    ensures m in s
  {
    if |s| == 1 then s[0] else Numeric.Max(s[0], MaxOf(s[1..]))
  }

  /** `merge_confidence_scores(scores)`: the average of the scores weighted by themselves. */
  function MergeConfidence(scores: seq<real>): real
  {
    if scores == [] || Sum(scores) == 0.0 then 0.0 else SumOfSquares(scores) / Sum(scores)
  }

  predicate NonNegative(s: seq<real>) { forall i :: 0 <= i < |s| ==> s[i] >= 0.0 }

  lemma {:induction false} SquaresBelow(s: seq<real>, m: real)
    requires NonNegative(s) && forall i :: 0 <= i < |s| ==> s[i] <= m
    ensures 0.0 <= SumOfSquares(s) <= m * Sum(s)
    ensures Sum(s) >= 0.0
    decreases |s|
  {
    if s != [] {
      var t := s[1..];
      assert NonNegative(t) && forall i :: 0 <= i < |t| ==> t[i] <= m by {
        forall i | 0 <= i < |t| ensures 0.0 <= t[i] <= m {
          assert t[i] == s[i + 1];
        }
      }
      SquaresBelow(t, m);
      SquaresStep(s[0], m, Sum(t), SumOfSquares(t));
    }
  }

  lemma SquaresStep(h: real, m: real, st: real, qt: real)
    requires 0.0 <= h <= m && 0.0 <= qt <= m * st
    ensures 0.0 <= h * h + qt <= m * (h + st)
  {
    assert (m - h) * h >= 0.0;
    assert m * (h + st) == m * h + m * st;
  }

  /**
   * For scores that are not negative the merged score lies between zero
   * and the highest score.
   */
  lemma {:induction false} MergeConfidenceBounds(scores: seq<real>)
    requires NonNegative(scores)
    ensures 0.0 <= MergeConfidence(scores)
    ensures scores != [] ==> MergeConfidence(scores) <= MaxOf(scores)
    ensures Sum(scores) == 0.0 ==> MergeConfidence(scores) == 0.0
  {
    if scores != [] {
      var m := MaxOf(scores);
      SquaresBelow(scores, m);
      var t := Sum(scores);
      if t != 0.0 {
        DivAtMost(SumOfSquares(scores), t, m);
      }
    }
  }

  lemma {:induction false} DivAtMost(x: real, t: real, m: real)
    requires t > 0.0 && 0.0 <= x <= m * t
    ensures 0.0 <= x / t <= m
  {
    var q := x / t;
    assert q * t == x;
    assert (m - q) * t == m * t - x;
  }

  lemma {:induction false} SumsOfConstant(s: seq<real>, c: real)
    requires forall i :: 0 <= i < |s| ==> s[i] == c
    ensures Sum(s) == |s| as real * c
    ensures SumOfSquares(s) == |s| as real * c * c
    decreases |s|
  {
    if s != [] {
      SumsOfConstant(s[1..], c);
    }
  }

  /** Merging equal positive scores gives that score back. */
  lemma {:induction false} MergeConfidenceUniform(scores: seq<real>, c: real)
    requires scores != [] && c > 0.0
    requires forall i :: 0 <= i < |scores| ==> scores[i] == c
    ensures MergeConfidence(scores) == c
  {
    SumsOfConstant(scores, c);
    var n := |scores| as real;
    assert Sum(scores) == n * c && n * c > 0.0;
    assert SumOfSquares(scores) == (n * c) * c;
  }
}
