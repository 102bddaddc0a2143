/**
 * The parts of Python's `str` that the pipeline relies on, over `seq<char>`:
 * whitespace stripping, prefix/suffix and substring tests, `split`,
 * `splitlines`, `int()` on decimal text and decimal rendering of integers.
 * Case mapping and digit classification are ASCII only.
 */
module Text {
  import opened Outcomes

  /** The characters `str.isspace` accepts (and `str.strip()` removes). */
  predicate IsSpace(c: char)
  {
    c == ' ' || ('\t' <= c <= '\r') || ('\U{001C}' <= c <= '\U{001F}')
    || c == '\U{0085}' || c == '\U{00A0}' || c == '\U{1680}'
    || ('\U{2000}' <= c <= '\U{200A}') || c == '\U{2028}' || c == '\U{2029}'
    || c == '\U{202F}' || c == '\U{205F}' || c == '\U{3000}'
  }

  /** The characters `str.splitlines` breaks at (`\r\n` counts as one break). */
  predicate IsLineBreak(c: char)
  {
    ('\n' <= c <= '\r') || ('\U{001C}' <= c <= '\U{001E}')
    || c == '\U{0085}' || c == '\U{2028}' || c == '\U{2029}'
  }

  predicate IsDigit(c: char) { '0' <= c <= '9' }

  /** `s.isdigit()`: non-empty and every character a digit. */
  predicate AllDigits(s: string)
  {
    |s| > 0 && forall k :: 0 <= k < |s| ==> IsDigit(s[k])
  }

  predicate StartsWith(s: string, prefix: string)
  {
    |prefix| <= |s| && s[..|prefix|] == prefix
  }

  predicate EndsWith(s: string, suffix: string)
  {
    |suffix| <= |s| && s[|s| - |suffix|..] == suffix
  }

  predicate OccursAt(s: string, sub: string, i: int)
  {
    0 <= i && i + |sub| <= |s| && s[i..i + |sub|] == sub
  }

  /** First occurrence of `sub` in `s` at or after `from` (`str.find`). */
  function IndexFrom(s: string, sub: string, from: nat): (r: Option<nat>)
    ensures r.Some? ==> from <= r.value && OccursAt(s, sub, r.value)
    ensures r.Some? ==> forall j :: from <= j < r.value ==> !OccursAt(s, sub, j)
    ensures r.None? ==> forall j :: from <= j ==> !OccursAt(s, sub, j)
    decreases |s| - from
  {
    if from + |sub| > |s| then None
    else if s[from..from + |sub|] == sub then Some(from)
    else IndexFrom(s, sub, from + 1)
  }

  function IndexOf(s: string, sub: string): (r: Option<nat>)
    ensures r.Some? ==> OccursAt(s, sub, r.value)
    ensures r.Some? ==> forall j :: 0 <= j < r.value ==> !OccursAt(s, sub, j)
    ensures r.None? ==> forall j :: 0 <= j ==> !OccursAt(s, sub, j)
  {
    IndexFrom(s, sub, 0)
  }

  /** Python's `sub in s` on strings. */
  predicate Contains(s: string, sub: string)
  {
    IndexOf(s, sub).Some?
  }

  lemma ContainsAt(s: string, sub: string, i: int)
    requires OccursAt(s, sub, i)
    ensures Contains(s, sub)
  {
  }

  lemma OccursAtChar(s: string, c: char, i: int)
    ensures OccursAt(s, [c], i) <==> 0 <= i < |s| && s[i] == c
  {
    if 0 <= i < |s| {
      assert s[i..i + 1] == [s[i]];
    }
  }

  /** A string contains the one-character string `[c]` iff `c` is one of its characters. */
  lemma ContainsChar(s: string, c: char)
    ensures Contains(s, [c]) <==> c in s
  {
    if c in s {
      var i :| 0 <= i < |s| && s[i] == c;
      OccursAtChar(s, c, i);
    } else if Contains(s, [c]) {
      var i := IndexOf(s, [c]).value;
      OccursAtChar(s, c, i);
    }
  }

  /** A string lacking one of `sub`'s characters does not contain `sub`. */
  lemma AbsentChar(s: string, sub: string, c: char)
    requires c in sub && c !in s
    ensures !Contains(s, sub)
  {
  }

  /** `s.find(c)` is -1 (None) when `c` is not a character of `s`. */
  lemma AbsentCharIndex(s: string, c: char)
    requires c !in s
    ensures IndexOf(s, [c]) == None
  {
    AbsentChar(s, [c], c);
  }

  /** Two strings that differ at a position both have do not start one with the other. */
  lemma CharDiffers(s: string, p: string, k: nat)
    requires k < |s| && k < |p| && s[k] != p[k]
    ensures !StartsWith(s, p)
  {
    if |p| <= |s| {
      assert s[..|p|][k] == s[k];
    }
  }

  /** `c` at `k` with no earlier `c`: the first occurrence of `[c]` is at `k`. */
  lemma FirstCharAt(s: string, c: char, k: nat)
    requires k < |s| && s[k] == c && c !in s[..k]
    ensures IndexOf(s, [c]) == Some(k)
  {
    OccursAtChar(s, c, k);
    forall j | 0 <= j < k
      ensures !OccursAt(s, [c], j)
    {
      OccursAtChar(s, c, j);
      assert s[j] == s[..k][j];
    }
  }

  /** `s.rfind(c)` for a single character. */
  function LastIndexOfChar(s: string, c: char): (r: Option<nat>)
    ensures r.Some? ==> r.value < |s| && s[r.value] == c
    ensures r.Some? ==> forall j :: r.value < j < |s| ==> s[j] != c
    ensures r.None? ==> c !in s
  {
    if |s| == 0 then None
    else if s[|s| - 1] == c then Some(|s| - 1)
    else LastIndexOfChar(s[..|s| - 1], c)
  }

  /** The text before the first `sep`, or all of `s` (`s.split(sep)[0]`). */
  function Before(s: string, sep: string): (r: string)
    ensures StartsWith(s, r)
    ensures IndexOf(s, sep).Some? ==> |r| == IndexOf(s, sep).value
    ensures IndexOf(s, sep).None? ==> r == s
  {
    match IndexOf(s, sep)
    case None => s
    case Some(i) => s[..i]
  }

  function LStrip(s: string): (r: string)
    ensures |r| <= |s| && r == s[|s| - |r|..]
    ensures r == "" || !IsSpace(r[0])
    ensures forall k :: 0 <= k < |s| - |r| ==> IsSpace(s[k])
  {
    if |s| > 0 && IsSpace(s[0]) then
      var r := LStrip(s[1..]);
      assert s[1..][|s| - 1 - |r|..] == s[|s| - |r|..];
      assert forall k :: 1 <= k < |s| - |r| ==> s[k] == s[1..][k - 1];
      r
    else s
  }

  function RStrip(s: string): (r: string)
    ensures |r| <= |s| && r == s[..|r|]
    ensures r == "" || !IsSpace(r[|r| - 1])
    ensures forall k :: |r| <= k < |s| ==> IsSpace(s[k])
  {
    if |s| > 0 && IsSpace(s[|s| - 1]) then RStrip(s[..|s| - 1]) else s
  }

  /** `s.strip()`. */
  function Strip(s: string): (r: string)
    ensures |r| <= |s|
    ensures r == "" || (!IsSpace(r[0]) && !IsSpace(r[|r| - 1]))
  {
    RStrip(LStrip(s))
  }

  /** Stripping never introduces a character. */
  lemma StripKeepsAbsent(s: string, c: char)
    requires c !in s
    ensures c !in Strip(s)
  {
    var l := LStrip(s);
    assert c !in l;
    assert c !in RStrip(l);
  }

  /** Stripping a string with no whitespace at either end changes nothing. */
  lemma StripUnchanged(s: string)
    requires s == "" || (!IsSpace(s[0]) && !IsSpace(s[|s| - 1]))
    ensures Strip(s) == s
  {
  }

  function LowerChar(c: char): char
  {
    if 'A' <= c <= 'Z' then (c as int + 32) as char else c
  }

  function UpperChar(c: char): char
  {
    if 'a' <= c <= 'z' then (c as int - 32) as char else c
  }

  function Lower(s: string): (r: string)
    ensures |r| == |s| && forall k :: 0 <= k < |s| ==> r[k] == LowerChar(s[k])
  {
    seq(|s|, k requires 0 <= k < |s| => LowerChar(s[k]))
  }

  function Upper(s: string): (r: string)
    ensures |r| == |s| && forall k :: 0 <= k < |s| ==> r[k] == UpperChar(s[k])
  {
    seq(|s|, k requires 0 <= k < |s| => UpperChar(s[k]))
  }

  /** `sep.join(parts)`. */
  function Join(parts: seq<string>, sep: string): string
  {
    if |parts| == 0 then ""
    else if |parts| == 1 then parts[0]
    else parts[0] + sep + Join(parts[1..], sep)
  }

  lemma JoinCons(head: string, tail: seq<string>, sep: string)
    requires |tail| > 0
    ensures Join([head] + tail, sep) == head + sep + Join(tail, sep)
  {
    assert ([head] + tail)[1..] == tail;
  }

  /** The facts about the first piece when `c` occurs in `s` at the leftmost position `i`. */
  lemma FirstSeparator(s: string, c: char, i: nat)
    requires IndexOf(s, [c]) == Some(i)
    ensures i < |s| && s[i] == c && c !in s[..i]
    ensures s == s[..i] + [c] + s[i + 1..]
  {
    OccursAtChar(s, c, i);
    forall j | 0 <= j < i
      ensures s[j] != c
    {
      OccursAtChar(s, c, j);
    }
  }

  /**
   * `s.split(c, maxsplit)`: at most `maxsplit` splits at the leftmost
   * occurrences of `c`.
   */
  function SplitMax(s: string, c: char, maxsplit: nat): (r: seq<string>)
    ensures 1 <= |r| <= maxsplit + 1
    ensures forall i :: 0 <= i < |r| - 1 ==> c !in r[i]
    ensures |r| <= maxsplit ==> c !in r[|r| - 1]
    decreases maxsplit
  {
    ContainsChar(s, c);
    if maxsplit == 0 then [s]
    else match IndexOf(s, [c])
      case None => [s]
      case Some(i) =>
        FirstSeparator(s, c, i);
        [s[..i]] + SplitMax(s[i + 1..], c, maxsplit - 1)
  }

  /** Joining the pieces of `SplitMax` back with the separator gives the input. */
  lemma {:induction false} SplitMaxJoin(s: string, c: char, maxsplit: nat)
    ensures Join(SplitMax(s, c, maxsplit), [c]) == s
    decreases maxsplit
  {
    if maxsplit > 0 {
      match IndexOf(s, [c])
      case None =>
      case Some(i) =>
        var rest := SplitMax(s[i + 1..], c, maxsplit - 1);
        SplitMaxJoin(s[i + 1..], c, maxsplit - 1);
        SplitMaxJoinStep(s, c, i, rest);
    }
  }

  lemma SplitMaxJoinStep(s: string, c: char, i: nat, rest: seq<string>)
    requires IndexOf(s, [c]) == Some(i) && |rest| > 0
    requires Join(rest, [c]) == s[i + 1..]
    ensures Join([s[..i]] + rest, [c]) == s
  {
    FirstSeparator(s, c, i);
    JoinCons(s[..i], rest, [c]);
  }

  /** Without a separator in `s` there is nothing to split. */
  lemma SplitMaxNoSeparator(s: string, c: char, maxsplit: nat)
    requires c !in s
    ensures SplitMax(s, c, maxsplit) == [s]
  {
    ContainsChar(s, c);
  }

  /** `s.split(c)` with no limit. */
  function Split(s: string, c: char): (r: seq<string>)
    ensures 1 <= |r|
    ensures forall i :: 0 <= i < |r| ==> c !in r[i]
    decreases |s|
  {
    ContainsChar(s, c);
    match IndexOf(s, [c])
    case None => [s]
    case Some(i) =>
      FirstSeparator(s, c, i);
      [s[..i]] + Split(s[i + 1..], c)
  }

  /** Joining the pieces of `Split` back with the separator gives the input. */
  lemma {:induction false} SplitJoin(s: string, c: char)
    ensures Join(Split(s, c), [c]) == s
    decreases |s|
  {
    match IndexOf(s, [c])
    case None =>
    case Some(i) =>
      FirstSeparator(s, c, i);
      SplitJoin(s[i + 1..], c);
      JoinCons(s[..i], Split(s[i + 1..], c), [c]);
  }

  /** Index of the first line break at or after `from`. */
  function NextBreak(s: string, from: nat): (r: Option<nat>)
    ensures r.Some? ==> from <= r.value < |s| && IsLineBreak(s[r.value])
    ensures r.Some? ==> forall j :: from <= j < r.value ==> !IsLineBreak(s[j])
    ensures r.None? ==> forall j :: from <= j < |s| ==> !IsLineBreak(s[j])
    decreases |s| - from
  {
    if from >= |s| then None
    else if IsLineBreak(s[from]) then Some(from)
    else NextBreak(s, from + 1)
  }

  /** `s.splitlines()`: no line holds a break, and there is no trailing empty line. */
  function SplitLines(s: string): (r: seq<string>)
    ensures s == "" <==> r == []
    ensures forall i, k :: 0 <= i < |r| && 0 <= k < |r[i]| ==> !IsLineBreak(r[i][k])
    decreases |s|
  {
    if s == "" then []
    else match NextBreak(s, 0)
      case None => [s]
      case Some(i) =>
        var next := if s[i] == '\r' && i + 1 < |s| && s[i + 1] == '\n' then i + 2 else i + 1;
        [s[..i]] + SplitLines(s[next..])
  }

  /** Length of the longest prefix of `s` without whitespace. */
  function WordEnd(s: string, from: nat): (r: nat)
    requires from <= |s|
    ensures from <= r <= |s|
    ensures forall k :: from <= k < r ==> !IsSpace(s[k])
    ensures r == |s| || IsSpace(s[r])
    decreases |s| - from
  {
    if from == |s| || IsSpace(s[from]) then from else WordEnd(s, from + 1)
  }

  predicate NoSpace(w: string)
  {
    forall k :: 0 <= k < |w| ==> !IsSpace(w[k])
  }

  /** `s.split()`: the maximal runs of non-whitespace, in order. */
  function Words(s: string): seq<string>
    decreases |s|
  {
    var t := LStrip(s);
    if t == "" then []
    else
      var e := WordEnd(t, 0);
      assert e >= 1 by { assert !IsSpace(t[0]); }
      [t[..e]] + Words(t[e..])
  }

  /** Every word is non-empty and holds no whitespace. */
  lemma {:induction false} WordsAreWords(s: string)
    ensures forall i :: 0 <= i < |Words(s)| ==> Words(s)[i] != "" && NoSpace(Words(s)[i])
    decreases |s|
  {
    var t := LStrip(s);
    if t != "" {
      var e := WordEnd(t, 0);
      assert e >= 1 by { assert !IsSpace(t[0]); }
      var w := t[..e];
      assert NoSpace(w) by {
        forall k | 0 <= k < |w|
          ensures !IsSpace(w[k])
        {
          assert w[k] == t[k];
        }
      }
      var rest := Words(t[e..]);
      assert Words(s) == [w] + rest;
      WordsAreWords(t[e..]);
      forall i | 0 <= i < |Words(s)|
        ensures Words(s)[i] != "" && NoSpace(Words(s)[i])
      {
        if i > 0 {
          assert Words(s)[i] == rest[i - 1];
        }
      }
    }
  }

  function DigitValue(c: char): nat
    requires IsDigit(c)
  {
    c as int - '0' as int
  }

  function DigitChar(d: nat): (c: char)
    requires d < 10
    ensures IsDigit(c) && DigitValue(c) == d
  {
    ('0' as int + d) as char
  }

  /** The number a run of decimal digits denotes. */
  function DigitsValue(s: string): nat
    requires forall k :: 0 <= k < |s| ==> IsDigit(s[k])
  {
    if |s| == 0 then 0 else DigitsValue(s[..|s| - 1]) * 10 + DigitValue(s[|s| - 1])
  }

  /** `str(n)` for a natural number. */
  function NatToString(n: nat): (r: string)
    ensures AllDigits(r)
  {
    if n < 10 then [DigitChar(n)] else NatToString(n / 10) + [DigitChar(n % 10)]
  }

  /** `str(i)` for any integer. */
  function IntToString(i: int): string
  {
    if i < 0 then "-" + NatToString(-i) else NatToString(i)
  }

  /**
   * Python's digit part: decimal digits, where a single underscore may
   * separate two digits (`1_000`).
   */
  predicate DigitPart(s: string)
  {
    && |s| > 0 && IsDigit(s[0]) && IsDigit(s[|s| - 1])
    && (forall k :: 0 <= k < |s| ==> IsDigit(s[k]) || s[k] == '_')
    && (forall k :: 0 <= k < |s| - 1 ==> s[k] == '_' ==> s[k + 1] != '_')
  }

  /** The number a digit part denotes; underscores are skipped. */
  function GroupedValue(s: string): nat
    requires forall k :: 0 <= k < |s| ==> IsDigit(s[k]) || s[k] == '_'
  {
    if |s| == 0 then 0
    else if s[|s| - 1] == '_' then GroupedValue(s[..|s| - 1])
    else GroupedValue(s[..|s| - 1]) * 10 + DigitValue(s[|s| - 1])
  }

  /** How many digits a digit part has. */
  function DigitCount(s: string): nat
  {
    if |s| == 0 then 0 else DigitCount(s[..|s| - 1]) + (if IsDigit(s[|s| - 1]) then 1 else 0)
  }

  /** Plain digits are a digit part with the same value. */
  lemma {:induction false} PlainDigitPart(d: string)
    requires AllDigits(d)
    ensures DigitPart(d) && GroupedValue(d) == DigitsValue(d)
  {
    if |d| > 1 {
      var init := d[..|d| - 1];
      assert AllDigits(init);
      PlainDigitPart(init);
    }
  }

  /** The text after an optional leading sign. */
  function Unsigned(t: string): string
  {
    if |t| > 0 && (t[0] == '-' || t[0] == '+') then t[1..] else t
  }

  /**
   * Python's `int(s)` for base 10: surrounding whitespace, an optional sign
   * and a digit part; anything else is a ValueError (None).
   */
  function ParseInt(s: string): (r: Option<int>)
  {
    var t := Strip(s);
    var body := Unsigned(t);
    if DigitPart(body) then
      Some(if |t| > 0 && t[0] == '-' then -(GroupedValue(body) as int) else GroupedValue(body))
    else None
  }

  lemma {:induction false} DigitsValueOfNatToString(n: nat)
    ensures DigitsValue(NatToString(n)) == n
    decreases n
  {
    if n >= 10 {
      var s := NatToString(n / 10) + [DigitChar(n % 10)];
      assert s[..|s| - 1] == NatToString(n / 10);
      DigitsValueOfNatToString(n / 10);
    }
  }

  lemma RenderedDigitsAreStripped(d: string)
    requires AllDigits(d)
    ensures Strip(d) == d
  {
    assert IsDigit(d[0]) && IsDigit(d[|d| - 1]);
    StripUnchanged(d);
  }

  lemma ParseDigits(d: string)
    requires AllDigits(d)
    ensures ParseInt(d) == Some(DigitsValue(d) as int)
  {
    RenderedDigitsAreStripped(d);
    assert IsDigit(d[0]);
    PlainDigitPart(d);
  }

  lemma ParseNegatedDigits(d: string)
    requires AllDigits(d)
    ensures ParseInt("-" + d) == Some(-(DigitsValue(d) as int))
  {
    var s := "-" + d;
    assert s[1..] == d;
    assert s[|s| - 1] == d[|d| - 1] && IsDigit(d[|d| - 1]);
    StripUnchanged(s);
    PlainDigitPart(d);
  }

  /** Parsing what `IntToString` renders gives the integer back. */
  lemma ParseIntToString(i: int)
    ensures ParseInt(IntToString(i)) == Some(i)
  {
    var n: nat := if i < 0 then -i else i;
    var d := NatToString(n);
    DigitsValueOfNatToString(n);
    var s := IntToString(i);
    if i < 0 {
      assert s == "-" + d;
      ParseNegatedDigits(d);
      assert ParseInt(s) == Some(-(DigitsValue(d) as int));
    } else {
      assert s == d;
      ParseDigits(d);
      assert ParseInt(s) == Some(DigitsValue(d) as int);
    }
  }

  /**
   * The mantissa of a float literal: a digit part, or digit parts around a
   * point with at least one of them present (`1.`, `.5`, `1_0.5`).
   */
  function Mantissa(m: string): (r: Option<real>)
    ensures r.Some? ==> r.value >= 0.0
  {
    match IndexOf(m, ".")
    case None => if DigitPart(m) then Some(GroupedValue(m) as real) else None
    case Some(p) =>
      var whole := m[..p];
      var frac := m[p + 1..];
      if (whole == "" || DigitPart(whole)) && (frac == "" || DigitPart(frac)) && (whole != "" || frac != "")
      then Some((if whole == "" then 0 else GroupedValue(whole)) as real
                + (if frac == "" then 0 else GroupedValue(frac)) as real / Pow10(DigitCount(frac)))
      else None
  }

  /** The exponent of a float literal: an optional sign and a digit part. */
  function Exponent(e: string): (r: Option<int>)
    ensures r.Some? <==> DigitPart(Unsigned(e))
  {
    var body := Unsigned(e);
    if DigitPart(body) then
      Some(if |e| > 0 && e[0] == '-' then -(GroupedValue(body) as int) else GroupedValue(body))
    else None
  }

  /** `10 ** e` for any integer exponent. */
  function Scale(e: int): (r: real)
    ensures r > 0.0
  {
    if e >= 0 then Pow10(e) else 1.0 / Pow10(-e)
  }

  /**
   * Python's `float(s)` on finite decimal text: surrounding whitespace, an
   * optional sign, a mantissa and an optional `e`/`E` exponent. The
   * spellings of infinity and NaN are outside the reals and give None.
   */
  function ParseDecimal(s: string): (r: Option<real>)
  {
    var t := Strip(s);
    var neg := |t| > 0 && t[0] == '-';
    var body := Unsigned(t);
    match IndexOf(Lower(body), "e")
    case None =>
      (match Mantissa(body)
       case None => None
       case Some(m) => Some(Signed(neg, m)))
    case Some(p) =>
      match (Mantissa(body[..p]), Exponent(body[p + 1..]))
      case (Some(m), Some(e)) => Some(Signed(neg, m * Scale(e)))
      case _ => None
  }

  /** `int("1_000")` is 1000: underscores group digits. */
  lemma ParseIntGrouped()
    ensures ParseInt("1_000") == Some(1000)
  {
    var s := "1_000";
    StripUnchanged(s);
    assert Unsigned(s) == s;
    assert DigitPart(s);
    assert s[..4] == "1_00" && s[..4][..3] == "1_0" && s[..3][..2] == "1_" && s[..2][..1] == "1";
    assert GroupedValue("1") == 1;
    assert GroupedValue("1_") == 1;
    assert GroupedValue("1_0") == 10;
    assert GroupedValue("1_00") == 100;
  }

  /** The mantissa `1`. */
  lemma MantissaOne()
    ensures Mantissa("1") == Some(1.0)
  {
    AbsentCharIndex("1", '.');
    PlainDigitPart("1");
  }

  /** `float("1e3")` is 1000.0. */
  lemma ParseDecimalExponent()
    ensures ParseDecimal("1e3") == Some(1000.0)
  {
    var s := "1e3";
    StripUnchanged(s);
    assert Unsigned(s) == s;
    assert Lower(s) == s;
    FirstCharAt(s, 'e', 1);
    assert s[..1] == "1" && s[2..] == "3";
    MantissaOne();
    PlainDigitPart("3");
    assert Exponent("3") == Some(3);
    assert Scale(3) == 1000.0;
  }

  /** The exponent `-2`. */
  lemma ExponentMinusTwo()
    ensures Exponent("-2") == Some(-2) && Scale(-2) == 0.01
  {
    assert Unsigned("-2") == "2";
    PlainDigitPart("2");
    assert Pow10(2) == 100.0;
  }

  /** `float("1E-2")` is 0.01: the exponent's letter may be upper case and its sign negative. */
  lemma ParseDecimalNegativeExponent()
    ensures ParseDecimal("1E-2") == Some(0.01)
  {
    var s := "1E-2";
    StripUnchanged(s);
    assert Unsigned(s) == s;
    assert Lower(s) == "1e-2";
    FirstCharAt("1e-2", 'e', 1);
    assert s[..1] == "1" && s[2..] == "-2";
    MantissaOne();
    ExponentMinusTwo();
  }

  /** The value of the digit part `1_0`. */
  lemma GroupedTen()
    ensures DigitPart("1_0") && GroupedValue("1_0") == 10
  {
    assert "1_0"[..2] == "1_" && "1_"[..1] == "1";
  }

  /** The mantissa `1_0.5`: whole part 10, one fractional digit 5. */
  lemma MantissaGrouped()
    ensures Mantissa("1_0.5") == Some(10.5)
  {
    var s := "1_0.5";
    FirstCharAt(s, '.', 3);
    assert s[..3] == "1_0" && s[4..] == "5";
    GroupedTen();
    PlainDigitPart("5");
    assert GroupedValue("5") == 5 && DigitCount("5") == 1;
  }

  /** `float("1_0.5")` is 10.5: underscores group the whole part too. */
  lemma ParseDecimalGrouped()
    ensures ParseDecimal("1_0.5") == Some(10.5)
  {
    var s := "1_0.5";
    StripUnchanged(s);
    assert Unsigned(s) == s;
    assert Lower(s) == s;
    AbsentCharIndex(s, 'e');
    MantissaGrouped();
  }

  function Signed(neg: bool, x: real): real
  {
    if neg then -x else x
  }

  function Pow10(n: nat): (r: real)
    ensures r >= 1.0
  {
    if n == 0 then 1.0 else 10.0 * Pow10(n - 1)
  }
}
