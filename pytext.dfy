/**
 * The few Python string operations the bot relies on: `str.strip`, `str.lower`,
 * `str.upper`, the `in` substring test, `str.replace(c, '')`, `str.split` on a
 * separator, decimal rendering of integers and `int()` of decimal text.
 */
module PyText {
  import opened Wrappers

  /** Python's `str.isspace()`: the characters `str.strip()` removes. */
  predicate IsSpace(c: char) {
    c == ' ' || ('\t' <= c <= '\r') || ('\U{1C}' <= c <= '\U{1F}')
    || c == '\U{85}' || c == '\U{A0}' || c == '\U{1680}'
    || ('\U{2000}' <= c <= '\U{200A}') || c == '\U{2028}' || c == '\U{2029}'
    || c == '\U{202F}' || c == '\U{205F}' || c == '\U{3000}'
  }

  predicate AllSpace(s: string) {
    forall i :: 0 <= i < |s| ==> IsSpace(s[i])
  }

  function LStrip(s: string): (r: string)
    ensures |r| <= |s| && r == s[|s| - |r|..]
    ensures AllSpace(s[..|s| - |r|])
    ensures r == [] || !IsSpace(r[0])
  {
    if |s| > 0 && IsSpace(s[0]) then
      var r := LStrip(s[1..]);
      assert s[..|s| - |r|] == [s[0]] + s[1..][..|s| - 1 - |r|];
      r
    else s
  }

  function RStrip(s: string): (r: string)
    ensures |r| <= |s| && r == s[..|r|]
    ensures AllSpace(s[|r|..])
    ensures r == [] || !IsSpace(r[|r| - 1])
  {
    if |s| > 0 && IsSpace(s[|s| - 1]) then
      var r := RStrip(s[..|s| - 1]);
      assert s[|r|..] == s[..|s| - 1][|r|..] + [s[|s| - 1]];
      r
    else s
  }

  /** `s.strip()`: removes leading and trailing whitespace. */
  function Strip(s: string): (r: string)
    ensures r == [] || (!IsSpace(r[0]) && !IsSpace(r[|r| - 1]))
  {
    RStrip(LStrip(s))
  }

  /** A string with no surrounding whitespace is its own strip. */
  lemma StripUnchanged(s: string)
    requires s == [] || (!IsSpace(s[0]) && !IsSpace(s[|s| - 1]))
    ensures Strip(s) == s
  {
  }

  /** A leading whitespace character makes no difference to `strip`. */
  lemma StripLeadingSpace(c: char, s: string)
    requires IsSpace(c)
    ensures Strip([c] + s) == Strip(s)
  {
    assert ([c] + s)[1..] == s;
  }

  /** Whitespace around text that neither starts nor ends with whitespace is all `strip` removes. */
  lemma StripSurrounded(sp1: string, t: string, sp2: string)
    requires AllSpace(sp1) && AllSpace(sp2) && t != [] && !IsSpace(t[0]) && !IsSpace(t[|t| - 1])
    ensures Strip(sp1 + t + sp2) == t
  {
    assert sp1 + t + sp2 == sp1 + (t + sp2);
    LStripSkips(sp1, t + sp2);
    assert (t + sp2)[0] == t[0];
    RStripSkips(t, sp2);
  }

  lemma {:induction false} LStripSkips(sp: string, x: string)
    requires AllSpace(sp)
    ensures LStrip(sp + x) == LStrip(x)
    decreases |sp|
  {
    if sp != [] {
      assert (sp + x)[1..] == sp[1..] + x;
      assert IsSpace((sp + x)[0]);
      LStripSkips(sp[1..], x);
    } else {
      assert sp + x == x;
    }
  }

  lemma {:induction false} RStripSkips(x: string, sp: string)
    requires AllSpace(sp)
    ensures RStrip(x + sp) == RStrip(x)
    decreases |sp|
  {
    if sp != [] {
      var y := x + sp;
      assert y[..|y| - 1] == x + sp[..|sp| - 1];
      assert IsSpace(y[|y| - 1]);
      RStripSkips(x, sp[..|sp| - 1]);
    } else {
      assert x + sp == x;
    }
  }

  lemma {:induction false} LStripEmptyIffAllSpace(s: string)
    ensures LStrip(s) == [] <==> AllSpace(s)
  {
    if |s| > 0 && IsSpace(s[0]) {
      LStripEmptyIffAllSpace(s[1..]);
      assert forall i :: 1 <= i < |s| ==> s[i] == s[1..][i - 1];
    }
  }

  /** `s.strip()` is blank exactly when every character of `s` is whitespace. */
  lemma StripEmptyIffAllSpace(s: string)
    ensures Strip(s) == [] <==> AllSpace(s)
  {
    LStripEmptyIffAllSpace(s);
    var l := LStrip(s);
    assert l[0..] == l;
  }

  function LowerChar(c: char): char {
    if 'A' <= c <= 'Z' then (c as int + 32) as char else c
  }

  function UpperChar(c: char): char {
    if 'a' <= c <= 'z' then (c as int - 32) as char else c
  }

  /** `s.lower()`, for the ASCII letters. */
  function Lower(s: string): (r: string)
    ensures |r| == |s| && forall i :: 0 <= i < |s| ==> r[i] == LowerChar(s[i])
  {
    seq(|s|, i requires 0 <= i < |s| => LowerChar(s[i]))
  }

  /** `s.upper()`, for the ASCII letters. */
  function Upper(s: string): (r: string)
    ensures |r| == |s| && forall i :: 0 <= i < |s| ==> r[i] == UpperChar(s[i])
  {
    seq(|s|, i requires 0 <= i < |s| => UpperChar(s[i]))
  }

  predicate IsPrefix(p: string, s: string) {
    |p| <= |s| && s[..|p|] == p
  }

  /** Python's `needle in hay`: the needle starts at the front of the hay or somewhere after it. */
  predicate Contains(hay: string, needle: string)
    decreases |hay|
  {
    IsPrefix(needle, hay) || (hay != [] && Contains(hay[1..], needle))
  }

  lemma ContainsSelf(s: string)
    ensures Contains(s, s)
  {
    assert s[..|s|] == s;
  }

  lemma ContainsEmpty(s: string)
    ensures Contains(s, "")
  {
    assert IsPrefix("", s);
  }

  /** A needle found at position `i` of the hay is in the hay. */
  lemma {:induction false} ContainsAt(hay: string, needle: string, i: nat)
    requires i <= |hay| && IsPrefix(needle, hay[i..])
    ensures Contains(hay, needle)
    decreases i
  {
    if i > 0 {
      assert hay[1..][i - 1..] == hay[i..];
      ContainsAt(hay[1..], needle, i - 1);
    } else {
      assert hay[0..] == hay;
    }
  }

  /** `needle` occurs in `pre + needle + post`. */
  lemma ContainsMiddle(pre: string, needle: string, post: string)
    ensures Contains(pre + needle + post, needle)
  {
    assert (pre + needle + post)[|pre|..][..|needle|] == needle;
    ContainsAt(pre + needle + post, needle, |pre|);
  }

  /** Equal texts contain the same needles. */
  lemma ContainsSame(x: string, y: string, needle: string)
    requires x == y && Contains(y, needle)
    ensures Contains(x, needle)
  {
  }

  /** Text that occurs in `a` occurs in `a + b`. */
  lemma {:induction false} ContainsLeft(a: string, b: string, needle: string)
    requires Contains(a, needle)
    ensures Contains(a + b, needle)
    decreases |a|
  {
    if IsPrefix(needle, a) {
      assert (a + b)[..|needle|] == a[..|needle|];
    } else {
      ContainsLeft(a[1..], b, needle);
      assert (a + b)[1..] == a[1..] + b;
    }
  }

  /** Text that occurs in `b` occurs in `a + b`. */
  lemma {:induction false} ContainsRight(a: string, b: string, needle: string)
    requires Contains(b, needle)
    ensures Contains(a + b, needle)
    decreases |a|
  {
    if a == [] {
      assert a + b == b;
    } else {
      ContainsRight(a[1..], b, needle);
      assert (a + b)[1..] == a[1..] + b;
    }
  }

  /** `s.replace(c, '')`: every occurrence of `c` removed, the rest kept in order. */
  function RemoveChar(s: string, c: char): (r: string)
    ensures c !in r
    ensures forall x :: x != c ==> multiset(r)[x] == multiset(s)[x]
  {
    if s == [] then []
    else
      var rest := RemoveChar(s[1..], c);
      assert s == [s[0]] + s[1..];
      if s[0] == c then rest else [s[0]] + rest
  }

  /** The index of the first `sep` in `s`, if any. */
  function IndexOf(s: string, sep: char): (r: int)
    ensures -1 <= r < |s|
    ensures r == -1 <==> sep !in s
    ensures r >= 0 ==> s[r] == sep && sep !in s[..r]
  {
    if s == [] then -1
    else if s[0] == sep then 0
    else
      var k := IndexOf(s[1..], sep);
      assert s[1..] == s[..][1..];
      if k == -1 then -1 else
        assert s[..k + 1] == [s[0]] + s[1..][..k];
        k + 1
  }

  /** The first `sep` of `ws + [sep] + fs` is the one after `ws` when `ws` holds none. */
  lemma {:induction false} IndexOfPrefix(ws: string, sep: char, fs: string)
    requires sep !in ws
    ensures IndexOf(ws + [sep] + fs, sep) == |ws|
  {
    var s := ws + [sep] + fs;
    if ws != [] {
      assert s[1..] == ws[1..] + [sep] + fs;
      IndexOfPrefix(ws[1..], sep, fs);
    }
  }

  /** `s.split(sep)[1]` when `s` holds `sep`: the text between the first and second `sep`. */
  function SecondField(s: string, sep: char): (r: string)
    requires sep in s
    ensures sep !in r
  {
    var rest := s[IndexOf(s, sep) + 1..];
    var k := IndexOf(rest, sep);
    if k == -1 then rest else rest[..k]
  }

  /** `s.split(sep, 1)[1]` when `s` holds `sep`: everything after the first `sep`. */
  function AfterFirst(s: string, sep: char): (r: string)
    requires sep in s
    ensures |r| < |s| && r == s[|s| - |r|..] && s[|s| - |r| - 1] == sep
    ensures sep !in s[..|s| - |r| - 1]
  {
    s[IndexOf(s, sep) + 1..]
  }

  /** `(a + sep + b).split(sep)[1]` is `b` when neither part holds `sep`. */
  lemma SecondFieldOf(a: string, sep: char, b: string)
    requires sep !in a && sep !in b
    ensures sep in a + [sep] + b && SecondField(a + [sep] + b, sep) == b
  {
    IndexOfPrefix(a, sep, b);
    assert (a + [sep] + b)[|a| + 1..] == b;
  }

  /** `(a + sep + b).split(sep, 1)[1]` is `b` when `a` holds no `sep`. */
  lemma AfterFirstOf(a: string, sep: char, b: string)
    requires sep !in a
    ensures sep in a + [sep] + b && AfterFirst(a + [sep] + b, sep) == b
  {
    IndexOfPrefix(a, sep, b);
    assert (a + [sep] + b)[|a| + 1..] == b;
  }

  /**
   * A character that lower-casing leaves alone and that is not a lower-case
   * letter survives the case-insensitive `in`: if `lower(s)` contains
   * `lower(n)` and `n` holds `ch`, so does `s`.
   */
  lemma {:induction false} ContainsLowerKeeps(s: string, n: string, ch: char)
    requires Contains(Lower(s), Lower(n)) && ch in n && !('a' <= ch <= 'z') && !('A' <= ch <= 'Z')
    ensures ch in s
    decreases |s|
  {
    if IsPrefix(Lower(n), Lower(s)) {
      var k :| 0 <= k < |n| && n[k] == ch;
      assert Lower(n)[k] == ch;
      assert Lower(s)[..|n|][k] == ch;
      assert LowerChar(s[k]) == ch;
      assert s[k] == ch;
    } else {
      assert Lower(s)[1..] == Lower(s[1..]);
      ContainsLowerKeeps(s[1..], n, ch);
    }
  }

  predicate IsDigit(c: char) {
    '0' <= c <= '9'
  }

  predicate AllDigits(s: string) {
    forall i :: 0 <= i < |s| ==> IsDigit(s[i])
  }

  /** The value of a string of decimal digits, most significant first. */
  function DigitsValue(s: string): nat
    requires AllDigits(s)
  {
    if s == [] then 0 else 10 * DigitsValue(s[..|s| - 1]) + (s[|s| - 1] as int - '0' as int)
  }

  function DigitChar(d: nat): char
    requires d < 10
  {
    ('0' as int + d) as char
  }

  /** `str(n)` for a natural number. */
  function NatToString(n: nat): (r: string)
    ensures |r| > 0
    ensures forall i :: 0 <= i < |r| ==> '0' <= r[i] <= '9'
    ensures n > 0 ==> r[0] != '0'
  {
    if n < 10 then [DigitChar(n)] else NatToString(n / 10) + [DigitChar(n % 10)]
  }

  lemma NatToStringDigits(n: nat)
    ensures AllDigits(NatToString(n))
  {
  }

  lemma {:induction false} DigitsValueOfNatToString(n: nat)
    ensures AllDigits(NatToString(n)) && DigitsValue(NatToString(n)) == n
  {
    var s := NatToString(n);
    if n >= 10 {
      DigitsValueOfNatToString(n / 10);
      assert s[..|s| - 1] == NatToString(n / 10);
    }
  }

  /** `str(n)` for an integer. */
  function IntToString(n: int): (r: string)
    ensures |r| > 0
  {
    if n < 0 then "-" + NatToString(-n) else NatToString(n)
  }

  /** `sep.join(parts)`. */
  function Join(parts: seq<string>, sep: string): string {
    if parts == [] then ""
    else if |parts| == 1 then parts[0]
    else parts[0] + sep + Join(parts[1..], sep)
  }

  /** Decimal digits with an optional sign. */
  function ParseInt(t: string): Option<int> {
    if |t| > 0 && (t[0] == '-' || t[0] == '+') then
      var digits := t[1..];
      if |digits| > 0 && AllDigits(digits) then
        Some(if t[0] == '-' then 0 - DigitsValue(digits) else DigitsValue(digits))
      else None
    else if |t| > 0 && AllDigits(t) then Some(DigitsValue(t))
    else None
  }

  lemma AllDigitsConcat(a: string, b: string)
    requires AllDigits(a) && AllDigits(b)
    ensures AllDigits(a + b)
  {
    assert forall i :: 0 <= i < |a + b| ==> (a + b)[i] == if i < |a| then a[i] else b[i - |a|];
  }

  /** The text of an integer parses back to it. */
  lemma {:induction false} IntTextParses(k: int)
    ensures ParseInt(IntToString(k)) == Some(k)
  {
    var s := IntToString(k);
    if k < 0 {
      DigitsValueOfNatToString(-k);
      assert s == "-" + NatToString(-k);
      assert s[1..] == NatToString(-k);
    } else {
      DigitsValueOfNatToString(k);
      assert s == NatToString(k);
      assert s[0] != '-' && s[0] != '+';
    }
  }
}
