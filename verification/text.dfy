/**
 * The ASCII part of Python's `str` methods that the bot relies on:
 * character classes, case mapping, `strip`, `split()`/`join`,
 * substring search and character filters. A string is `seq<char>`.
 */
module Text {

  predicate IsDigit(c: char) { '0' <= c <= '9' }
  predicate IsUpper(c: char) { 'A' <= c <= 'Z' }
  predicate IsLower(c: char) { 'a' <= c <= 'z' }
  predicate IsAlpha(c: char) { IsUpper(c) || IsLower(c) }
  predicate IsAlnum(c: char) { IsAlpha(c) || IsDigit(c) }

  /** `str.isspace` on one ASCII character: space, \t \n \v \f \r and \x1c-\x1f. */
  predicate IsSpace(c: char) { c == ' ' || '\t' <= c <= '\r' || '\U{1c}' <= c <= '\U{1f}' }

  predicate AllDigits(s: string) { forall i :: 0 <= i < |s| ==> IsDigit(s[i]) }

  function LowerChar(c: char): (r: char)
    ensures !IsUpper(r)
    ensures !IsUpper(c) ==> r == c
    ensures IsAlpha(r) <==> IsAlpha(c)
    ensures IsAlpha(c) ==> IsLower(r)
    ensures IsSpace(r) <==> IsSpace(c)
  {
    if IsUpper(c) then (c as int + 32) as char else c
  }

  function UpperChar(c: char): (r: char)
    ensures !IsLower(r)
    ensures !IsLower(c) ==> r == c
    ensures IsSpace(r) <==> IsSpace(c)
    ensures IsDigit(r) <==> IsDigit(c)
    ensures IsAlpha(r) <==> IsAlpha(c)
    ensures IsAlpha(c) ==> IsUpper(r)
    ensures LowerChar(r) == LowerChar(c)
  {
    if IsLower(c) then (c as int - 32) as char else c
  }

  /** `s.lower()` */
  function Lower(s: string): (r: string)
    ensures |r| == |s|
    ensures forall i :: 0 <= i < |s| ==> r[i] == LowerChar(s[i])
  {
    seq(|s|, i requires 0 <= i < |s| => LowerChar(s[i]))
  }

  /** `s.upper()` */
  function Upper(s: string): (r: string)
    ensures |r| == |s|
    ensures forall i :: 0 <= i < |s| ==> r[i] == UpperChar(s[i])
    ensures NoLower(r)
  {
    seq(|s|, i requires 0 <= i < |s| => UpperChar(s[i]))
  }

  predicate NoLower(s: string) { forall i :: 0 <= i < |s| ==> !IsLower(s[i]) }

  predicate NoUpper(s: string) { forall i :: 0 <= i < |s| ==> !IsUpper(s[i]) }

  /** Lower-casing a string without upper-case letters changes nothing. */
  lemma LowerFixed(s: string)
    requires NoUpper(s)
    ensures Lower(s) == s
  {
    assert forall i :: 0 <= i < |s| ==> Lower(s)[i] == s[i];
  }

  /** Two strings without upper-case letters make one. */
  lemma NoUpperAppend(x: string, y: string)
    requires NoUpper(x) && NoUpper(y)
    ensures NoUpper(x + y)
  {
    forall i | 0 <= i < |x + y| ensures !IsUpper((x + y)[i]) {
      if i >= |x| {
        assert (x + y)[i] == y[i - |x|];
      }
    }
  }

  /** A suffix of a suffix of `t` is a suffix of `t`. */
  lemma SuffixOfSuffix(t: string, a: string, b: string)
    requires |a| <= |t| && a == t[|t| - |a|..]
    requires |b| <= |a| && b == a[|a| - |b|..]
    ensures b == t[|t| - |b|..]
  {
    forall i | 0 <= i < |b| ensures b[i] == t[|t| - |b| + i] {
      assert b[i] == a[|a| - |b| + i];
    }
  }

  /**
   * `s.title()` after a character that was a letter (`cased`) or not:
   * a letter is upper-cased when it starts a run of letters and
   * lower-cased inside one; other characters are kept.
   */
  function TitleFrom(s: string, cased: bool): (r: string)
    ensures |r| == |s|
  {
    if s == [] then []
    else
      var c := if cased then LowerChar(s[0]) else UpperChar(s[0]);
      [c] + TitleFrom(s[1..], IsAlpha(s[0]))
  }

  /** `s.title()` */
  function Title(s: string): (r: string)
    ensures |r| == |s|
  {
    TitleFrom(s, false)
  }

  /** Every run of letters starts with a capital and continues in lower case. */
  predicate TitleShape(r: string)
  {
    forall i :: 0 <= i < |r| && IsAlpha(r[i]) ==>
      if i > 0 && IsAlpha(r[i - 1]) then IsLower(r[i]) else IsUpper(r[i])
  }

  /**
   * `title()` gives every run of letters the title shape and changes
   * nothing but the case of letters.
   */
  lemma {:induction false} TitleSpec(s: string)
    ensures TitleShape(Title(s))
    ensures forall i :: 0 <= i < |s| ==> LowerChar(Title(s)[i]) == LowerChar(s[i])
    ensures forall i :: 0 <= i < |s| ==> (IsSpace(Title(s)[i]) <==> IsSpace(s[i]))
  {
    var r := Title(s);
    TitleFromSpec(s, false);
    forall i | 0 <= i < |r| && IsAlpha(r[i])
      ensures if i > 0 && IsAlpha(r[i - 1]) then IsLower(r[i]) else IsUpper(r[i])
    {
      assert TitleCase(r, i, false);
    }
  }

  /** Letter `i` of `r` has the case `title()` gives it, `cased` standing for the character before `r`. */
  predicate TitleCase(r: string, i: int, cased: bool)
    requires 0 <= i < |r|
  {
    IsAlpha(r[i]) ==>
      if (if i > 0 then IsAlpha(r[i - 1]) else cased) then IsLower(r[i]) else IsUpper(r[i])
  }

  lemma {:induction false} TitleFromSpec(s: string, cased: bool)
    ensures forall i :: 0 <= i < |s| ==> TitleCase(TitleFrom(s, cased), i, cased)
    ensures forall i :: 0 <= i < |s| ==> LowerChar(TitleFrom(s, cased)[i]) == LowerChar(s[i])
    ensures forall i :: 0 <= i < |s| ==> (IsSpace(TitleFrom(s, cased)[i]) <==> IsSpace(s[i]))
    ensures forall i :: 0 <= i < |s| ==> (IsAlpha(TitleFrom(s, cased)[i]) <==> IsAlpha(s[i]))
    decreases |s|
  {
    if s != [] {
      var r := TitleFrom(s, cased);
      var t := TitleFrom(s[1..], IsAlpha(s[0]));
      TitleFromSpec(s[1..], IsAlpha(s[0]));
      assert r == [r[0]] + t;
      assert r[0] == (if cased then LowerChar(s[0]) else UpperChar(s[0]));
      forall i | 1 <= i < |s| ensures r[i] == t[i - 1] && s[i] == s[1..][i - 1] {
      }
      forall i | 0 <= i < |s| ensures TitleCase(r, i, cased) {
        if i > 0 {
          assert TitleCase(t, i - 1, IsAlpha(s[0]));
          if i > 1 {
            assert r[i - 1] == t[i - 2];
          } else {
            assert IsAlpha(r[0]) <==> IsAlpha(s[0]);
          }
        }
      }
    }
  }

  /** Title-casing twice is title-casing once. */
  lemma {:induction false} TitleIdempotent(s: string)
    ensures Title(Title(s)) == Title(s)
  {
    TitleFromIdempotent(s, false);
  }

  lemma {:induction false} TitleFromIdempotent(s: string, cased: bool)
    ensures TitleFrom(TitleFrom(s, cased), cased) == TitleFrom(s, cased)
    decreases |s|
  {
    if s != [] {
      var r := TitleFrom(s, cased);
      TitleFromIdempotent(s[1..], IsAlpha(s[0]));
      assert r[0] == (if cased then LowerChar(s[0]) else UpperChar(s[0]));
      assert r[1..] == TitleFrom(s[1..], IsAlpha(s[0]));
    }
  }

  /** Upper-casing a string without lower-case letters changes nothing. */
  lemma UpperFixed(s: string)
    requires NoLower(s)
    ensures Upper(s) == s
  {
    assert forall i :: 0 <= i < |s| ==> Upper(s)[i] == s[i];
  }

  /** The characters of `s` that are digits, in order (`re.sub(r'\D', '', s)`). */
  function Digits(s: string): (r: string)
    ensures AllDigits(r)
    ensures |r| <= |s|
    ensures AllDigits(s) ==> r == s
  {
    if s == [] then []
    else if IsDigit(s[0]) then [s[0]] + Digits(s[1..])
    else Digits(s[1..])
  }

  /** Keeping the digits of a concatenation keeps those of each part. */
  lemma {:induction false} DigitsAppend(a: string, b: string)
    ensures Digits(a + b) == Digits(a) + Digits(b)
    decreases |a|
  {
    if a == [] {
      assert a + b == b;
    } else {
      assert (a + b)[1..] == a[1..] + b;
      DigitsAppend(a[1..], b);
    }
  }

  /** `s.replace(c, "")` for a single character `c`. */
  function Remove(s: string, c: char): (r: string)
    ensures c !in r
    ensures |r| <= |s|
    ensures c !in s ==> r == s
  {
    if s == [] then []
    else if s[0] == c then Remove(s[1..], c)
    else [s[0]] + Remove(s[1..], c)
  }

  /** `s.lstrip()` */
  function LStrip(s: string): (r: string)
    ensures |r| <= |s| && r == s[|s| - |r|..]
    ensures r == [] || !IsSpace(r[0])
  {
    if s != [] && IsSpace(s[0]) then LStrip(s[1..]) else s
  }

  /** `s.rstrip()` */
  function RStrip(s: string): (r: string)
    ensures |r| <= |s| && r == s[..|r|]
    ensures r == [] || !IsSpace(r[|r| - 1])
  {
    if s != [] && IsSpace(s[|s| - 1]) then RStrip(s[..|s| - 1]) else s
  }

  /** `s.strip()` */
  function Strip(s: string): (r: string)
    ensures |r| <= |s|
    ensures r == [] || (!IsSpace(r[0]) && !IsSpace(r[|r| - 1]))
  {
    RStrip(LStrip(s))
  }

  /** A string with no whitespace at either end is its own `strip()`. */
  lemma StripFixed(s: string)
    requires s == [] || (!IsSpace(s[0]) && !IsSpace(s[|s| - 1]))
    ensures Strip(s) == s
  {
  }

  /** `strip()` only removes characters. */
  lemma StripKeeps(s: string)
    ensures forall c :: c in Strip(s) ==> c in s
  {
    SliceKeeps(s, |s| - |LStrip(s)|, |s|);
    SliceKeeps(LStrip(s), 0, |Strip(s)|);
  }

  lemma SliceKeeps(s: string, i: nat, j: nat)
    requires i <= j <= |s|
    ensures forall c :: c in s[i..j] ==> c in s
  {
    forall c | c in s[i..j] ensures c in s {
      var k :| 0 <= k < j - i && s[i..j][k] == c;
      assert s[i + k] == c;
    }
  }

  /** Removing a character keeps a string free of lower-case letters. */
  lemma {:induction false} RemoveNoLower(s: string, c: char)
    requires NoLower(s)
    ensures NoLower(Remove(s, c))
    decreases |s|
  {
    if s != [] {
      RemoveNoLower(s[1..], c);
    }
  }

  /** Removing a character from a concatenation removes it from each part. */
  lemma {:induction false} RemoveAppend(a: string, b: string, c: char)
    ensures Remove(a + b, c) == Remove(a, c) + Remove(b, c)
    decreases |a|
  {
    if a == [] {
      assert a + b == b;
    } else {
      assert (a + b)[1..] == a[1..] + b;
      RemoveAppend(a[1..], b, c);
    }
  }

  /** Removing the one `c` spliced between two texts without it joins them. */
  lemma RemoveSpliced(x: string, y: string, c: char)
    requires c !in x && c !in y
    ensures Remove(x + [c] + y, c) == x + y
  {
    RemoveAppend(x + [c], y, c);
    RemoveAppend(x, [c], c);
  }

  /** `strip()` keeps a string free of upper-case letters. */
  lemma StripNoUpper(s: string)
    requires NoUpper(s)
    ensures NoUpper(Strip(s))
  {
    var r := Strip(s);
    StripKeeps(s);
    forall i | 0 <= i < |r| ensures !IsUpper(r[i]) {
      assert r[i] in r;
      var j :| 0 <= j < |s| && s[j] == r[i];
    }
  }

  /** `strip()` keeps a string free of lower-case letters. */
  lemma StripNoLower(s: string)
    requires NoLower(s)
    ensures NoLower(Strip(s))
  {
    var r := Strip(s);
    StripKeeps(s);
    forall i | 0 <= i < |r| ensures !IsLower(r[i]) {
      assert r[i] in r;
      var j :| 0 <= j < |s| && s[j] == r[i];
    }
  }

  /** Length of the longest prefix of `s` holding no whitespace. */
  function SpanNonSpace(s: string): (k: nat)
    ensures k <= |s|
    ensures forall i :: 0 <= i < k ==> !IsSpace(s[i])
    ensures k < |s| ==> IsSpace(s[k])
  {
    if s == [] || IsSpace(s[0]) then 0 else 1 + SpanNonSpace(s[1..])
  }

  predicate NoSpace(w: string) { forall i :: 0 <= i < |w| ==> !IsSpace(w[i]) }

  /** A word of `split()`: non-empty and free of whitespace. */
  predicate IsWord(w: string) { w != [] && NoSpace(w) }

  /** `s.split()` with no separator: the maximal runs of non-whitespace. */
  function Words(s: string): (ws: seq<string>)
    ensures forall w :: w in ws ==> IsWord(w)
    decreases |s|
  {
    var t := LStrip(s);
    if t == [] then []
    else
      var k := SpanNonSpace(t);
      var w := t[..k];
      assert IsWord(w) by {
        assert k >= 1;
        assert forall i :: 0 <= i < k ==> w[i] == t[i];
      }
      var rest := Words(t[k..]);
      [w] + rest
  }

  /** `sep.join(parts)` */
  function Join(sep: string, parts: seq<string>): (r: string)
    ensures |parts| == 1 ==> r == parts[0]
  {
    if parts == [] then []
    else if |parts| == 1 then parts[0]
    else parts[0] + sep + Join(sep, parts[1..])
  }

  /** `sub` occurs in `s` starting at index `i`. */
  predicate OccursAt(s: string, sub: string, i: int)
  {
    0 <= i && i + |sub| <= |s| && s[i..i + |sub|] == sub
  }

  /** Python's `sub in s`. */
  predicate Contains(s: string, sub: string)
  {
    exists i :: 0 <= i <= |s| && OccursAt(s, sub, i)
  }

  /** Python's `any(k in s for k in keys)`. */
  predicate ContainsAny(s: string, keys: seq<string>)
  {
    exists j :: 0 <= j < |keys| && Contains(s, keys[j])
  }

  /** Python's `s.startswith(p)`. */
  predicate StartsWith(s: string, p: string) { |p| <= |s| && s[..|p|] == p }

  /** Python's `s.find(sub, i)`: the first occurrence at or after `i`, or -1. */
  function FindFrom(s: string, sub: string, i: nat): (r: int)
    ensures r == -1 || (i <= r && OccursAt(s, sub, r))
    ensures forall j :: i <= j && (r == -1 || j < r) ==> !OccursAt(s, sub, j)
    decreases |s| - i
  {
    if i + |sub| > |s| then -1
    else if OccursAt(s, sub, i) then i
    else FindFrom(s, sub, i + 1)
  }

  /** Python's `s.find(sub)`: the first occurrence, or -1 when `sub not in s`. */
  function Find(s: string, sub: string): (r: int)
    ensures r == -1 <==> !Contains(s, sub)
    ensures r >= 0 ==> OccursAt(s, sub, r) && forall j :: 0 <= j < r ==> !OccursAt(s, sub, j)
  {
    FindFrom(s, sub, 0)
  }

  /** Python's `s.rfind(c)` for one character. */
  function RFind(s: string, c: char): (i: int)
    ensures -1 <= i < |s|
    ensures i >= 0 ==> s[i] == c
    ensures forall j :: i < j < |s| ==> s[j] != c
  {
    if s == [] then -1
    else if s[|s| - 1] == c then |s| - 1
    else RFind(s[..|s| - 1], c)
  }
  /** The digit character for `d < 10`. */
  function DigitChar(d: nat): (c: char)
    requires d < 10
    ensures IsDigit(c)
  {
    ('0' as int + d) as char
  }

  function DigitValue(c: char): (d: nat)
    requires IsDigit(c)
    ensures d < 10 && DigitChar(d) == c
  {
    (c as int - '0' as int) as nat
  }

  /** `str(n)` for `n >= 0`: decimal digits, no leading zero. */
  function NatToDecimal(n: nat): (s: string)
    ensures s != [] && AllDigits(s)
    ensures |s| > 1 ==> s[0] != '0'
    decreases n
  {
    if n < 10 then [DigitChar(n)] else NatToDecimal(n / 10) + [DigitChar(n % 10)]
  }

  /** `str(n)`: a minus sign before the digits of a negative number. */
  function IntToDecimal(n: int): (s: string)
    ensures s != []
    ensures n >= 0 <==> s[0] != '-'
  {
    if n < 0 then "-" + NatToDecimal(-n) else NatToDecimal(n)
  }

  /** `int(s)` for a string of digits. */
  function DecimalValue(s: string): (n: nat)
    requires AllDigits(s)
  {
    if s == [] then 0 else DecimalValue(s[..|s| - 1]) * 10 + DigitValue(s[|s| - 1])
  }

  /** `int(str(n)) == n` */
  lemma {:induction false} DecimalRoundTrip(n: nat)
    ensures DecimalValue(NatToDecimal(n)) == n
    decreases n
  {
    var s := NatToDecimal(n);
    if n >= 10 {
      DecimalRoundTrip(n / 10);
      assert s[..|s| - 1] == NatToDecimal(n / 10);
    }
  }

  /** `rfind` of a character is not moved by appending text without it. */
  lemma {:induction false} RFindAppend(s: string, e: string, c: char)
    requires c !in e
    ensures RFind(s + e, c) == RFind(s, c)
    decreases |e|
  {
    if e == [] {
      assert s + e == s;
    } else {
      var init := e[..|e| - 1];
      assert (s + e)[..|s + e| - 1] == s + init;
      RFindAppend(s, init, c);
    }
  }

  /** The number of letters, digits and whitespace characters in `s`. */
  function CleanCount(s: string): (n: nat)
    ensures n <= |s|
  {
    if s == [] then 0
    else CleanCount(s[..|s| - 1]) + (if IsAlnum(s[|s| - 1]) || IsSpace(s[|s| - 1]) then 1 else 0)
  }
}
