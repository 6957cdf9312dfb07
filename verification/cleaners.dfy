/**
 * The per-field cleaners of the document pipeline's `DataCleaner`
 * (`invoice_pipeline/validators.py`), and what cleaning a whole invoice
 * does to its fields. Every cleaner turns an absent or empty field into
 * `None`; otherwise it returns the cleaned text, which may itself be
 * empty. Money is rounded to whole pence, ties to the even penny, as
 * `Decimal.quantize(Decimal('0.01'))` does under the default context.
 */
module Cleaners {
  import opened Wrappers
  import opened Text
  import opened PipelineModels
  import PipelineUtils
  import Validators

  // ---------------------------------------------------------------------
  // Money
  // ---------------------------------------------------------------------

  /** A whole number of pence. */
  predicate InCents(x: real) { (x * 100.0).Floor as real == x * 100.0 }

  /** The integer nearest to `y`; a tie goes to the even neighbour. */
  function RoundHalfEven(y: real): (n: int)
    ensures -0.5 <= n as real - y <= 0.5
    ensures y.Floor as real == y ==> n as real == y
    ensures (n as real - y == 0.5 || y - n as real == 0.5) ==> n % 2 == 0
  {
    var f := y.Floor;
    var d := y - f as real;
    if d < 0.5 then f
    else if d > 0.5 then f + 1
    else if f % 2 == 0 then f else f + 1
  }

  /** `x.quantize(Decimal('0.01'))`: the nearest whole number of pence. */
  function Quantize(x: real): (r: real)
    ensures InCents(r)
    ensures -0.005 <= r - x <= 0.005
    ensures InCents(x) ==> r == x
  {
    var n := RoundHalfEven(x * 100.0);
    assert (n as real / 100.0) * 100.0 == n as real;
    n as real / 100.0
  }

  /** `DataCleaner.clean_money` */
  function CleanMoney(v: Option<real>): (r: Option<real>)
    ensures r.Some? <==> v.Some?
    ensures r.Some? ==> InCents(r.value) && -0.005 <= r.value - v.value <= 0.005
    ensures v.Some? && InCents(v.value) ==> r == v
  {
    if v.Some? then Some(Quantize(v.value)) else None
  }

  // ---------------------------------------------------------------------
  // Invoice number
  // ---------------------------------------------------------------------

  /** `Invoice|Inv|No|Number|#`, lower-cased, in the order the pattern tries them. */
  function Labels(): seq<string>
  {
    [['i', 'n', 'v', 'o', 'i', 'c', 'e'], ['i', 'n', 'v'], ['n', 'o'], ['n', 'u', 'm', 'b', 'e', 'r'], ['#']]
  }

  /** `s` starts with `tag`, ignoring case. */
  predicate LabelledBy(s: string, tag: string)
  {
    |tag| <= |s| && Lower(s[..|tag|]) == tag
  }

  /** The index of the first of `labels` that `s` starts with, or `|labels|`. */
  function FirstLabel(s: string, labels: seq<string>): (j: nat)
    ensures j <= |labels|
    decreases |labels|
  {
    if labels == [] then 0
    else if LabelledBy(s, labels[0]) then 0
    else 1 + FirstLabel(s, labels[1..])
  }

  /** The label found is one `s` starts with, and no earlier label is. */
  lemma {:induction false} FirstLabelSpec(s: string, labels: seq<string>)
    ensures var j := FirstLabel(s, labels);
      (j < |labels| ==> LabelledBy(s, labels[j])) &&
      forall i :: 0 <= i < j ==> !LabelledBy(s, labels[i])
    decreases |labels|
  {
    if labels != [] && !LabelledBy(s, labels[0]) {
      FirstLabelSpec(s, labels[1..]);
      var j := FirstLabel(s, labels);
      forall i | 0 < i < j ensures !LabelledBy(s, labels[i]) {
        assert labels[i] == labels[1..][i - 1];
      }
    }
  }

  /** The end of the run of whitespace starting at `i` (`\s*`, greedy). */
  function SkipSpaces(s: string, i: nat): (k: nat)
    requires i <= |s|
    ensures i <= k <= |s| && (k == |s| || !IsSpace(s[k]))
    ensures forall m :: i <= m < k ==> IsSpace(s[m])
    decreases |s| - i
  {
    if i < |s| && IsSpace(s[i]) then SkipSpaces(s, i + 1) else i
  }

  /** The end of `\s*[:\-]?\s*` matched at `i`. */
  function SeparatorEnd(s: string, i: nat): (k: nat)
    requires i <= |s|
    ensures i <= k <= |s| && (k == |s| || !IsSpace(s[k]))
  {
    var a := SkipSpaces(s, i);
    var b := if a < |s| && (s[a] == ':' || s[a] == '-') then a + 1 else a;
    SkipSpaces(s, b)
  }

  /**
   * `re.sub(r'^(Invoice|Inv|No|Number|#)\s*[:\-]?\s*', '', s, flags=re.IGNORECASE)`:
   * the first label `s` starts with, the whitespace after it, one colon or
   * dash, and the whitespace after that are removed.
   */
  function DropLabel(s: string): (r: string)
    ensures |r| <= |s| && r == s[|s| - |r|..]
    ensures r == s || r == [] || !IsSpace(r[0])
    ensures FirstLabel(s, Labels()) == |Labels()| ==> r == s
  {
    var j := FirstLabel(s, Labels());
    if j == |Labels()| then s
    else
      FirstLabelSpec(s, Labels());
      s[SeparatorEnd(s, |Labels()[j]|)..]
  }

  /** A label, a colon and the number: only the number is left. */
  lemma DropLabelColon(p: string, n: string)
    requires Lower(p) == ['i', 'n', 'v']
    requires n == [] || !IsSpace(n[0])
    ensures DropLabel(p + [':'] + n) == n
  {
    var s := p + [':'] + n;
    var ls := Labels();
    assert !LabelledBy(s, ls[0]) by {
      if |s| >= 7 {
        assert s[..7][3] == ':' && ls[0][3] == 'o';
        assert Lower(s[..7])[3] != ls[0][3];
      }
    }
    assert LabelledBy(s, ls[1..][0]) by {
      assert s[..3] == p;
    }
    assert FirstLabel(s, ls[1..]) == 0;
    assert FirstLabel(s, ls) == 1;
    assert SkipSpaces(s, 3) == 3 by {
      assert s[3] == ':';
    }
    assert SkipSpaces(s, 4) == 4 by {
      assert 4 == |s| || s[4] == n[0];
    }
    assert s[4..] == n;
  }

  /** `DataCleaner.clean_invoice_number` */
  function CleanInvoiceNumber(v: Option<string>): (r: Option<string>)
    ensures !Given(v) ==> r.None?
    ensures r.Some? ==> r.value != [] && NoLower(r.value) && PipelineUtils.SingleSpaced(r.value)
  {
    if !Given(v) then None
    else
      var n := PipelineUtils.NormalizeWhitespace(v.value);
      var rest := DropLabel(n);
      if rest == [] then None
      else
        LabelDroppedShape(n);
        Some(Upper(rest))
  }

  /** Dropping the label of a single-spaced number and upper-casing what is left keeps it single-spaced. */
  lemma LabelDroppedShape(n: string)
    requires PipelineUtils.SingleSpaced(n)
    ensures NoLower(Upper(DropLabel(n))) && PipelineUtils.SingleSpaced(Upper(DropLabel(n)))
  {
    var rest := DropLabel(n);
    SuffixSingleSpaced(n, |n| - |rest|);
    assert n[|n| - |rest|..] == rest;
    UpperSingleSpaced(rest);
  }

  /** A number that starts with no label is only normalised and upper-cased. */
  lemma UnlabelledNumberKept(v: string)
    requires PipelineUtils.NormalizeWhitespace(v) != []
    requires FirstLabel(PipelineUtils.NormalizeWhitespace(v), Labels()) == |Labels()|
    ensures CleanInvoiceNumber(Some(v)) == Some(Upper(PipelineUtils.NormalizeWhitespace(v)))
  {
    var n := PipelineUtils.NormalizeWhitespace(v);
    assert v != [] by {
      assert |n| <= |v|;
    }
    assert Given(Some(v));
    assert DropLabel(n) == n;
  }

  /** What is left of a single-spaced text after a prefix ending before a word is single-spaced. */
  lemma SuffixSingleSpaced(s: string, k: nat)
    requires PipelineUtils.SingleSpaced(s) && k <= |s|
    requires k == 0 || k == |s| || !IsSpace(s[k])
    ensures PipelineUtils.SingleSpaced(s[k..])
  {
    var t := s[k..];
    forall i | 0 <= i < |t| && IsSpace(t[i])
      ensures t[i] == ' ' && 0 < i < |t| - 1 && !IsSpace(t[i + 1])
    {
      assert t[i] == s[k + i];
      assert t[i + 1] == s[k + i + 1];
    }
  }

  /** Upper-casing keeps a text single-spaced. */
  lemma UpperSingleSpaced(s: string)
    requires PipelineUtils.SingleSpaced(s)
    ensures PipelineUtils.SingleSpaced(Upper(s))
  {
    var u := Upper(s);
    forall i | 0 <= i < |u| && IsSpace(u[i])
      ensures u[i] == ' ' && 0 < i < |u| - 1 && !IsSpace(u[i + 1])
    {
      assert IsSpace(s[i]);
      assert IsSpace(u[i + 1]) <==> IsSpace(s[i + 1]);
    }
  }

  // ---------------------------------------------------------------------
  // Names and addresses
  // ---------------------------------------------------------------------

  /** `DataCleaner.clean_name`: single-spaced, then title-cased. */
  function CleanName(v: Option<string>): (r: Option<string>)
    ensures r.Some? <==> Given(v)
  {
    if !Given(v) then None else Some(Title(PipelineUtils.NormalizeWhitespace(v.value)))
  }

  /**
   * A cleaned name has the words of the original in title case: every run
   * of letters starts with a capital, it is single-spaced, and it equals
   * the single-spaced original up to the case of letters.
   */
  lemma CleanNameSpec(v: string)
    requires v != []
    ensures var r := CleanName(Some(v)).value;
      var n := PipelineUtils.NormalizeWhitespace(v);
      TitleShape(r) && PipelineUtils.SingleSpaced(r) && Lower(r) == Lower(n)
  {
    var n := PipelineUtils.NormalizeWhitespace(v);
    TitleSpec(n);
    TitleSingleSpaced(n);
    TitleLower(n);
  }

  /** Title-casing keeps a text single-spaced. */
  lemma TitleSingleSpaced(n: string)
    requires PipelineUtils.SingleSpaced(n)
    ensures PipelineUtils.SingleSpaced(Title(n))
  {
    var r := Title(n);
    TitleSpec(n);
    forall i | 0 <= i < |r| && IsSpace(r[i])
      ensures r[i] == ' ' && 0 < i < |r| - 1 && !IsSpace(r[i + 1])
    {
      assert IsSpace(n[i]) && n[i] == ' ';
      assert LowerChar(r[i]) == ' ';
    }
  }

  /** Title-casing changes only the case of letters. */
  lemma TitleLower(n: string)
    ensures Lower(Title(n)) == Lower(n)
  {
    TitleSpec(n);
  }

  /** Every comma is followed by a space. */
  predicate CommasSpaced(s: string)
  {
    forall i :: 0 <= i < |s| && s[i] == ',' ==> i + 1 < |s| && s[i + 1] == ' '
  }

  /** `re.sub(r'\s*,\s*', ', ', s)` */
  function SpaceCommas(s: string): (r: string)
    decreases |s|
  {
    if s == [] then []
    else
      var t := LStrip(s);
      if t != [] && t[0] == ',' then [',', ' '] + SpaceCommas(LStrip(t[1..]))
      else [s[0]] + SpaceCommas(s[1..])
  }

  /** `s` starts with a comma once its leading whitespace is skipped. */
  predicate CommaNext(s: string)
  {
    var t := LStrip(s); t != [] && t[0] == ','
  }

  /** After spacing the commas, every comma is followed by a space. */
  lemma {:induction false} SpaceCommasSpaced(s: string)
    ensures CommasSpaced(SpaceCommas(s))
    decreases |s|
  {
    if s != [] {
      if CommaNext(s) {
        SpaceCommasSpaced(LStrip(LStrip(s)[1..]));
        CommaThenSpaced(SpaceCommas(LStrip(LStrip(s)[1..])));
      } else {
        SpaceCommasSpaced(s[1..]);
        assert s[0] != ',' by {
          if !IsSpace(s[0]) {
            assert LStrip(s) == s;
          }
        }
        OtherThenSpaced(s[0], SpaceCommas(s[1..]));
      }
    }
  }

  lemma CommaThenSpaced(q: string)
    requires CommasSpaced(q)
    ensures CommasSpaced([',', ' '] + q)
  {
    var r := [',', ' '] + q;
    forall i | 2 <= i < |r| && r[i] == ',' ensures i + 1 < |r| && r[i + 1] == ' ' {
      assert r[i] == q[i - 2];
      assert i - 1 < |q| ==> r[i + 1] == q[i - 1];
    }
  }

  lemma OtherThenSpaced(c: char, q: string)
    requires c != ',' && CommasSpaced(q)
    ensures CommasSpaced([c] + q)
  {
    var r := [c] + q;
    forall i | 1 <= i < |r| && r[i] == ',' ensures i + 1 < |r| && r[i + 1] == ' ' {
      assert r[i] == q[i - 1];
      assert i < |q| ==> r[i + 1] == q[i];
    }
  }

  /** Spacing the commas changes only whitespace. */
  lemma {:induction false} SpaceCommasKeeps(s: string)
    ensures PipelineUtils.Without(SpaceCommas(s), IsSpace) == PipelineUtils.Without(s, IsSpace)
    decreases |s|
  {
    if s != [] {
      if CommaNext(s) {
        var t := LStrip(s);
        var u := LStrip(t[1..]);
        SpaceCommasKeeps(u);
        WithoutLStrip(t[1..]);
        CommaKeeps(t, SpaceCommas(u));
        WithoutLStrip(s);
      } else {
        SpaceCommasKeeps(s[1..]);
        OtherKeeps(s, SpaceCommas(s[1..]));
      }
    }
  }

  lemma CommaKeeps(t: string, q: string)
    requires t != [] && t[0] == ','
    requires PipelineUtils.Without(q, IsSpace) == PipelineUtils.Without(t[1..], IsSpace)
    ensures PipelineUtils.Without([',', ' '] + q, IsSpace) == PipelineUtils.Without(t, IsSpace)
  {
    assert [',', ' '] + q == [','] + ([' '] + q);
    PipelineUtils.WithoutCons(',', [' '] + q, IsSpace);
    PipelineUtils.WithoutCons(' ', q, IsSpace);
    PipelineUtils.WithoutCons(',', t[1..], IsSpace);
    assert t == [','] + t[1..];
  }

  lemma OtherKeeps(s: string, q: string)
    requires s != []
    requires PipelineUtils.Without(q, IsSpace) == PipelineUtils.Without(s[1..], IsSpace)
    ensures PipelineUtils.Without([s[0]] + q, IsSpace) == PipelineUtils.Without(s, IsSpace)
  {
    PipelineUtils.WithoutCons(s[0], s[1..], IsSpace);
    PipelineUtils.WithoutCons(s[0], q, IsSpace);
    assert s == [s[0]] + s[1..];
  }

  /** Leading whitespace is whitespace. */
  lemma {:induction false} WithoutLStrip(s: string)
    ensures PipelineUtils.Without(LStrip(s), IsSpace) == PipelineUtils.Without(s, IsSpace)
    decreases |s|
  {
    if s != [] && IsSpace(s[0]) {
      WithoutLStrip(s[1..]);
    }
  }

  /** `DataCleaner.clean_address`: single-spaced, then each comma followed by one space. */
  function CleanAddress(v: Option<string>): (r: Option<string>)
    ensures r.Some? <==> Given(v)
  {
    if !Given(v) then None else Some(SpaceCommas(PipelineUtils.NormalizeWhitespace(v.value)))
  }

  /**
   * A cleaned address has every comma followed by a space, and differs
   * from the single-spaced original only in whitespace.
   */
  lemma CleanAddressSpec(v: string)
    requires v != []
    ensures var r := CleanAddress(Some(v)).value;
      CommasSpaced(r) &&
      PipelineUtils.Without(r, IsSpace) == PipelineUtils.Without(PipelineUtils.NormalizeWhitespace(v), IsSpace)
  {
    SpaceCommasSpaced(PipelineUtils.NormalizeWhitespace(v));
    SpaceCommasKeeps(PipelineUtils.NormalizeWhitespace(v));
  }

  // ---------------------------------------------------------------------
  // Email and phone
  // ---------------------------------------------------------------------

  function Mailto(): string { ['m', 'a', 'i', 'l', 't', 'o', ':'] }

  /** `DataCleaner.clean_email`: lower-cased, stripped, and a leading `mailto:` removed. */
  function CleanEmail(v: Option<string>): (r: Option<string>)
    ensures r.Some? <==> Given(v)
  {
    if !Given(v) then None
    else
      var e := Strip(Lower(v.value));
      Some(if StartsWith(e, Mailto()) then e[|Mailto()|..] else e)
  }

  /** Without a `mailto:` link, cleaning an email is what the schema's normaliser does. */
  lemma CleanEmailAgrees(v: string)
    requires v != [] && !StartsWith(Strip(Lower(v)), Mailto())
    ensures CleanEmail(Some(v)) == NormalizeEmail(Some(v))
  {
  }

  /** An address whose lower-cased, stripped form is a `mailto:` link loses the prefix. */
  lemma CleanEmailOfLink(v: string, e: string)
    requires Strip(Lower(v)) == Mailto() + e
    ensures CleanEmail(Some(v)) == Some(e)
  {
    var m := Mailto() + e;
    assert m[..|Mailto()|] == Mailto() && m[|Mailto()|..] == e;
  }

  /** A `mailto:` link to a lower-case address is reduced to the address. */
  lemma CleanEmailMailto(e: string)
    requires NoUpper(e) && (e == [] || !IsSpace(e[|e| - 1]))
    ensures CleanEmail(Some(Mailto() + e)) == Some(e)
  {
    var m := Mailto() + e;
    assert Lower(m) == m by {
      assert NoUpper(Mailto());
      NoUpperAppend(Mailto(), e);
      LowerFixed(m);
    }
    assert Strip(m) == m by {
      assert m[0] == 'm';
      assert m[|m| - 1] == if e == [] then ':' else e[|e| - 1];
      StripFixed(m);
    }
    CleanEmailOfLink(m, e);
  }

  /** The characters `clean_phone` keeps: digits and `+`. */
  predicate PhoneChar(c: char) { IsDigit(c) || c == '+' }

  predicate NotPhoneChar(c: char) { !PhoneChar(c) }

  /**
   * `DataCleaner.clean_phone`: only digits and `+` are kept; twelve
   * characters starting with 44 get a `+`, eleven starting with 0 have
   * the 0 replaced by `+44`.
   */
  function CleanPhone(v: Option<string>): (r: Option<string>)
    ensures r.Some? <==> Given(v)
    ensures r.Some? ==> forall i :: 0 <= i < |r.value| ==> PhoneChar(r.value[i])
  {
    if !Given(v) then None
    else
      var d := PipelineUtils.Without(v.value, NotPhoneChar);
      var a := if StartsWith(d, ['4', '4']) && |d| == 12 then ['+'] + d else d;
      Some(if StartsWith(a, ['0']) && |a| == 11 then ['+', '4', '4'] + a[1..] else a)
  }

  /** The national and the international form of a UK number clean to the same `+44` number. */
  lemma UkPhoneFormsAgree(x: string)
    requires |x| == 10 && AllDigits(x)
    ensures CleanPhone(Some(['0'] + x)) == Some(['+', '4', '4'] + x)
    ensures CleanPhone(Some(['4', '4'] + x)) == Some(['+', '4', '4'] + x)
  {
    var a := ['0'] + x;
    var b := ['4', '4'] + x;
    PipelineUtils.WithoutNothing(a, NotPhoneChar) by {
      forall i | 0 <= i < |a| ensures !NotPhoneChar(a[i]) {
        if i > 0 {
          assert a[i] == x[i - 1];
        }
      }
    }
    PipelineUtils.WithoutNothing(b, NotPhoneChar) by {
      forall i | 0 <= i < |b| ensures !NotPhoneChar(b[i]) {
        if i > 1 {
          assert b[i] == x[i - 2];
        }
      }
    }
    assert a[1..] == x;
    assert b[..2] == ['4', '4'];
    assert ['+'] + b == ['+', '4', '4'] + x;
  }

  /** Cleaning a cleaned phone number changes nothing. */
  lemma CleanPhoneIdempotent(v: Option<string>)
    requires CleanPhone(v).Some? && CleanPhone(v).value != []
    ensures CleanPhone(CleanPhone(v)) == CleanPhone(v)
  {
    var r := CleanPhone(v).value;
    PipelineUtils.WithoutNothing(r, NotPhoneChar);
    var d := PipelineUtils.Without(v.value, NotPhoneChar);
    if StartsWith(d, ['4', '4']) && |d| == 12 {
      assert r[0] == '+';
    } else if StartsWith(d, ['0']) && |d| == 11 {
      assert r[0] == '+';
    }
  }

  // ---------------------------------------------------------------------
  // Postcode and identifiers
  // ---------------------------------------------------------------------

  /**
   * `DataCleaner.clean_postcode`: upper-cased without spaces, then one
   * space before the last three characters when there are at least five.
   */
  function CleanPostcode(v: Option<string>): (r: Option<string>)
    ensures r.Some? <==> Given(v)
  {
    if !Given(v) then None
    else
      var c := Compact(v.value);
      Some(if |c| >= 5 then c[..|c| - 3] + [' '] + c[|c| - 3..] else c)
  }

  /**
   * The cleaned postcode compacts back to the original's compact form; at
   * five characters or more its only space stands before the last three.
   */
  lemma CleanPostcodeSpec(v: string)
    requires v != []
    ensures Compact(CleanPostcode(Some(v)).value) == Compact(v)
    ensures var r := CleanPostcode(Some(v)).value;
      |Compact(v)| >= 5 ==> (|r| == |Compact(v)| + 1 && r[|r| - 4] == ' ' &&
        forall i :: 0 <= i < |r| && i != |r| - 4 ==> r[i] != ' ')
  {
    var c := Compact(v);
    if |c| >= 5 {
      var k := |c| - 3;
      assert CleanPostcode(Some(v)).value == c[..k] + [' '] + c[k..];
      SpacedCompact(c, k);
      SpacedShape(c, k);
    } else {
      CompactIdempotent(c);
    }
  }

  /** A space put into a text without spaces is its only space. */
  lemma SpacedShape(c: string, k: nat)
    requires k <= |c| && ' ' !in c
    ensures var r := c[..k] + [' '] + c[k..];
      |r| == |c| + 1 && r[k] == ' ' && forall i :: 0 <= i < |r| && i != k ==> r[i] != ' '
  {
    var r := c[..k] + [' '] + c[k..];
    forall i | 0 <= i < |r| && i != k ensures r[i] != ' ' {
      if i < k {
        assert r[i] == c[i];
      } else {
        assert r[i] == c[i - 1];
      }
    }
  }

  /** A space put back into a compact postcode is compacted away again. */
  lemma SpacedCompact(c: string, k: nat)
    requires k <= |c| && NoLower(c) && ' ' !in c
    ensures Compact(c[..k] + [' '] + c[k..]) == c
  {
    SpacedNoLower(c, k);
    UpperFixed(c[..k] + [' '] + c[k..]);
    SpacedRemove(c, k);
  }

  lemma SpacedNoLower(c: string, k: nat)
    requires k <= |c| && NoLower(c)
    ensures NoLower(c[..k] + [' '] + c[k..])
  {
    var x := c[..k] + [' '] + c[k..];
    forall i | 0 <= i < |x| ensures !IsLower(x[i]) {
      if i < k {
        assert x[i] == c[i];
      } else if i > k {
        assert x[i] == c[i - 1];
      }
    }
  }

  lemma SpacedRemove(c: string, k: nat)
    requires k <= |c| && ' ' !in c
    ensures Remove(c[..k] + [' '] + c[k..], ' ') == c
  {
    var x, y := c[..k], c[k..];
    assert ' ' !in x by {
      SliceKeeps(c, 0, k);
    }
    assert ' ' !in y by {
      SliceKeeps(c, k, |c|);
    }
    RemoveSpliced(x, y, ' ');
    assert x + y == c;
  }

  /** Compacting a compact text changes nothing. */
  lemma CompactIdempotent(c: string)
    requires NoLower(c) && ' ' !in c
    ensures Compact(c) == c
  {
    UpperFixed(c);
  }

  /** Cleaning a cleaned postcode changes nothing, unless nothing was left of it. */
  lemma CleanPostcodeIdempotent(v: Option<string>)
    requires Given(v) && Compact(v.value) != []
    ensures CleanPostcode(CleanPostcode(v)) == CleanPostcode(v)
  {
    var c := Compact(v.value);
    var r := CleanPostcode(v).value;
    assert Compact(r) == c by {
      CleanPostcodeSpec(v.value);
    }
    assert r != [] by {
      assert |c| >= 5 ==> |r| == |c| + 1;
      assert |c| < 5 ==> r == c;
    }
    assert CleanPostcode(Some(r)).value == r by {
      assert r == if |c| >= 5 then c[..|c| - 3] + [' '] + c[|c| - 3..] else c;
    }
  }

  /** Cleaning keeps the postcode check's verdict, unless nothing was left of the postcode. */
  lemma CleanPostcodeKeepsVerdict(v: Option<string>)
    requires Given(v) && Compact(v.value) != []
    ensures Validators.ValidatePostcode(CleanPostcode(v)) == Validators.ValidatePostcode(v)
  {
    CleanPostcodeSpec(v.value);
  }

  /** `DataCleaner.clean_utr` and `clean_account_number`: only the digits. */
  function CleanDigits(v: Option<string>): (r: Option<string>)
    ensures r.Some? <==> Given(v)
    ensures r.Some? ==> AllDigits(r.value) && |r.value| <= |v.value|
    ensures Given(v) && AllDigits(v.value) ==> r == v
  {
    if !Given(v) then None else Some(Digits(v.value))
  }

  /**
   * Cleaning keeps the UTR and account-number verdicts when the value has
   * a digit; a given value without digits fails both checks before
   * cleaning and passes both after it, since it is cleaned to nothing.
   */
  lemma CleanDigitsVerdicts(v: Option<string>)
    ensures Given(v) && Digits(v.value) != [] ==>
      Validators.ValidateUtr(CleanDigits(v)) == Validators.ValidateUtr(v) &&
      Validators.ValidateAccountNumber(CleanDigits(v)) == Validators.ValidateAccountNumber(v)
    ensures Given(v) && Digits(v.value) == [] ==>
      !Validators.ValidateUtr(v).valid && Validators.ValidateUtr(CleanDigits(v)).valid &&
      !Validators.ValidateAccountNumber(v).valid && Validators.ValidateAccountNumber(CleanDigits(v)).valid
  {
  }

  /** `DataCleaner.clean_ni_number`: upper-cased without spaces. */
  function CleanNiNumber(v: Option<string>): (r: Option<string>)
    ensures r.Some? <==> Given(v)
    ensures r.Some? ==> NoLower(r.value) && ' ' !in r.value
  {
    if !Given(v) then None else Some(Compact(v.value))
  }

  /**
   * The National Insurance check as written never raises on a cleaned
   * number: a value of spaces is cleaned to an empty string, which the
   * check passes over.
   */
  lemma CleanedNiNeverRaises(v: Option<string>)
    ensures Validators.ValidateNiNumberAsWritten(CleanNiNumber(v)).Ok?
  {
    if Given(v) && Compact(v.value) != [] {
      CompactIdempotent(Compact(v.value));
    }
  }

  /** Cleaning keeps the NI verdict, unless nothing was left of the number. */
  lemma CleanNiKeepsVerdict(v: Option<string>)
    requires Given(v) && Compact(v.value) != []
    ensures Validators.ValidateNiNumber(CleanNiNumber(v)) == Validators.ValidateNiNumber(v)
  {
    CompactIdempotent(Compact(v.value));
  }

  /** `DataCleaner.clean_sort_code`: `XX-XX-XX` for six digits, the bare digits otherwise. */
  function CleanSortCode(v: Option<string>): (r: Option<string>)
    ensures r.Some? <==> Given(v)
    ensures r.Some? ==> Digits(r.value) == Digits(v.value)
    ensures r.Some? && |Digits(v.value)| == 6 ==> SortCodeShape(r.value)
    ensures r.Some? && |Digits(v.value)| != 6 ==> AllDigits(r.value)
  {
    if !Given(v) then None else Some(FormatSortCode(v.value))
  }

  /** Cleaning keeps the sort-code verdict when the value has a digit. */
  lemma CleanSortCodeKeepsVerdict(v: Option<string>)
    requires Given(v) && Digits(v.value) != []
    ensures Validators.ValidateSortCode(CleanSortCode(v)) == Validators.ValidateSortCode(v)
  {
  }

  // ---------------------------------------------------------------------
  // The whole invoice
  // ---------------------------------------------------------------------

  function CleanedAddress(a: Address): Address
  {
    a.(postcode := CleanPostcode(a.postcode))
  }

  function CleanedBank(b: BankDetails): BankDetails
  {
    b.(sortCode := CleanSortCode(b.sortCode), accountNumber := CleanDigits(b.accountNumber))
  }

  /** The contractor fields `clean_invoice` cleans; the others are kept. */
  function CleanedContractor(c: Contractor): Contractor
  {
    c.(name := CleanName(c.name), email := CleanEmail(c.email), phone := CleanPhone(c.phone),
       utr := CleanDigits(c.utr), niNumber := CleanNiNumber(c.niNumber),
       address := if c.address.Some? then Some(CleanedAddress(c.address.value)) else None,
       bankDetails := if c.bankDetails.Some? then Some(CleanedBank(c.bankDetails.value)) else None)
  }

  function CleanedFinancials(f: Financials): Financials
  {
    f.(subtotal := CleanMoney(f.subtotal), vatAmount := CleanMoney(f.vatAmount),
       cisDeduction := CleanMoney(f.cisDeduction), totalDue := CleanMoney(f.totalDue))
  }

  /** A work item with its amount and unit price in whole pence. */
  function CleanedItem(w: WorkItem): WorkItem
  {
    w.(amount := CleanMoney(w.amount), unitPrice := CleanMoney(w.unitPrice))
  }

  /** Every money amount of the financial summary is absent or in whole pence. */
  predicate FinancialsInCents(f: Financials)
  {
    (f.subtotal.Some? ==> InCents(f.subtotal.value)) && (f.vatAmount.Some? ==> InCents(f.vatAmount.value)) &&
    (f.cisDeduction.Some? ==> InCents(f.cisDeduction.value)) && (f.totalDue.Some? ==> InCents(f.totalDue.value))
  }

  predicate ItemInCents(w: WorkItem)
  {
    (w.amount.Some? ==> InCents(w.amount.value)) && (w.unitPrice.Some? ==> InCents(w.unitPrice.value))
  }

  /**
   * `DataCleaner.clean_invoice` on values: the invoice number, the
   * contractor's fields, the money of the summary and of every work item
   * are cleaned; nothing else changes.
   */
  function CleanedInvoice(inv: InvoiceData): InvoiceData
  {
    inv.(invoiceNumber := CleanInvoiceNumber(inv.invoiceNumber),
         contractor := if inv.contractor.Some? then Some(CleanedContractor(inv.contractor.value)) else None,
         financials := if inv.financials.Some? then Some(CleanedFinancials(inv.financials.value)) else None,
         workItems := seq(|inv.workItems|, i requires 0 <= i < |inv.workItems| => CleanedItem(inv.workItems[i])))
  }

  /**
   * After cleaning, every amount is in whole pence, cleaning again changes
   * no amount, and the NI check as written cannot raise.
   */
  lemma CleanedInvoiceSpec(inv: InvoiceData)
    ensures var c := CleanedInvoice(inv);
      (c.financials.Some? ==> FinancialsInCents(c.financials.value)) &&
      (forall i :: 0 <= i < |c.workItems| ==> ItemInCents(c.workItems[i])) &&
      (c.financials.Some? ==> CleanedFinancials(c.financials.value) == c.financials.value) &&
      (forall i :: 0 <= i < |c.workItems| ==> CleanedItem(c.workItems[i]) == c.workItems[i]) &&
      (c.contractor.Some? ==> Validators.ValidateNiNumberAsWritten(c.contractor.value.niNumber).Ok?)
  {
    var c := CleanedInvoice(inv);
    if inv.financials.Some? {
      CleanedFinancialsSpec(inv.financials.value);
    }
    forall i | 0 <= i < |c.workItems|
      ensures ItemInCents(c.workItems[i]) && CleanedItem(c.workItems[i]) == c.workItems[i]
    {
      CleanedItemSpec(inv.workItems[i]);
    }
    if inv.contractor.Some? {
      CleanedNiNeverRaises(inv.contractor.value.niNumber);
    }
  }

  lemma CleanedFinancialsSpec(f: Financials)
    ensures FinancialsInCents(CleanedFinancials(f))
    ensures CleanedFinancials(CleanedFinancials(f)) == CleanedFinancials(f)
  {
  }

  lemma CleanedItemSpec(w: WorkItem)
    ensures ItemInCents(CleanedItem(w))
    ensures CleanedItem(CleanedItem(w)) == CleanedItem(w)
  {
  }
}
