/**
 * Money as the ledger stores it: cell text such as "$1,250.00" read with
 * `clean_money` (sheets_utils.py), and amounts written back as Python renders
 * a float with `str`.
 */
module Money {
  import opened Wrappers
  import opened PyText

  /** `x * 10^e`, one factor of ten at a time. */
  function Up(x: real, e: nat): real {
    if e == 0 then x else 10.0 * Up(x, e - 1)
  }

  /** `y / 10^e`, one factor of ten at a time. */
  function Down(y: real, e: nat): real {
    if e == 0 then y else Down(y, e - 1) / 10.0
  }

  /** The numeral `whole.frac`: both parts digits, not both empty. */
  function ParseParts(whole: string, frac: string): Option<real> {
    if AllDigits(whole) && AllDigits(frac) && (whole != [] || frac != []) then
      Some(Down(DigitsValue(whole + frac) as real, |frac|))
    else None
  }

  /**
   * Python `float()` on an unsigned decimal numeral: digits with an optional
   * fraction ("12", "12.", "12.5", ".5"); at least one digit overall.
   */
  function ParseUnsigned(s: string): Option<real> {
    var k := IndexOf(s, '.');
    if k == -1 then
      if s != [] && AllDigits(s) then Some(DigitsValue(s) as real) else None
    else ParseParts(s[..k], s[k + 1..])
  }

  /**
   * Python `float(s)` for decimal text: surrounding whitespace ignored, an
   * optional sign, then an unsigned numeral. `None` stands for the ValueError.
   */
  function PyFloat(s: string): Option<real> {
    ParseSigned(Strip(s))
  }

  /** An optional sign, then an unsigned numeral. */
  function ParseSigned(t: string): Option<real> {
    if |t| > 0 && (t[0] == '-' || t[0] == '+') then
      match ParseUnsigned(t[1..])
      case Some(v) => Some(if t[0] == '-' then -v else v)
      case None => None
    else ParseUnsigned(t)
  }

  /** The text `clean_money` hands to `float`: "$" and "," removed, then stripped. */
  function MoneyText(value: string): string {
    Strip(DropMarks(value))
  }

  /** `value.replace("$", "").replace(",", "")`. */
  function DropMarks(value: string): string {
    RemoveChar(RemoveChar(value, '$'), ',')
  }

  /** `clean_money(value)`: the parsed number, or 0.0 when the text does not parse. */
  function CleanMoney(value: string): (r: real)
    ensures PyFloat(MoneyText(value)).Some? ==> r == PyFloat(MoneyText(value)).value
    ensures PyFloat(MoneyText(value)).None? ==> r == 0.0
  {
    PyFloat(MoneyText(value)).GetOr(0.0)
  }

  // ---------------------------------------------------------------------------
  // Rendering: Python `str(x)` of a float.

  /** The most fractional digits the rendering shows. */
  const MaxPlaces: nat := 17

  predicate IsIntegral(r: real) {
    r == r.Floor as real
  }

  /** `x` has an exact decimal expansion with at most `p` fractional digits. */
  predicate HasPlaces(x: real, p: nat) {
    IsIntegral(Up(x, p))
  }

  /** The fewest fractional digits, from `p` up to MaxPlaces, that show `x` exactly. */
  function Places(x: real, p: nat): (q: nat)
    requires 1 <= p <= MaxPlaces
    ensures p <= q <= MaxPlaces
    ensures (exists p0 :: p <= p0 <= MaxPlaces && HasPlaces(x, p0)) ==> HasPlaces(x, q)
    decreases MaxPlaces - p
  {
    if HasPlaces(x, p) || p == MaxPlaces then p else Places(x, p + 1)
  }

  function Zeros(n: nat): (r: string)
    ensures |r| == n && AllDigits(r)
  {
    if n == 0 then "" else "0" + Zeros(n - 1)
  }

  /** `s` left-padded with "0" to width `w`. */
  function PadLeft(s: string, w: nat): (r: string)
    ensures |r| == if |s| < w then w else |s|
  {
    if |s| < w then Zeros(w - |s|) + s else s
  }

  /** `x * 10^q` truncated to a natural number. */
  function Scaled(x: real, q: nat): nat
    requires x >= 0.0
  {
    var n := Up(x, q).Floor;
    if n < 0 then 0 else n
  }

  /** The natural number `n` written with a "." before its last `q` digits ("0" in front if need be). */
  function Dotted(n: nat, q: nat): string {
    var ds := PadLeft(NatToString(n), q + 1);
    ds[..|ds| - q] + "." + ds[|ds| - q..]
  }

  /** `str(x)` for x >= 0: integer part, ".", at least one fractional digit. */
  function ReprUnsigned(x: real): string
    requires x >= 0.0
  {
    var q := Places(x, 1);
    Dotted(Scaled(x, q), q)
  }

  /** `str(x)` of a float: "12.0", "12.5", "-0.05". */
  function ReprFloat(x: real): string {
    if x < 0.0 then "-" + ReprUnsigned(-x) else ReprUnsigned(x)
  }

  // ---------------------------------------------------------------------------
  // Lemmas.

  lemma {:induction false} DigitsValueLeadingZeros(k: nat, s: string)
    requires AllDigits(s)
    ensures AllDigits(Zeros(k) + s) && DigitsValue(Zeros(k) + s) == DigitsValue(s)
  {
    if s == [] {
      assert Zeros(k) + s == Zeros(k);
      ZerosValue(k);
    } else {
      var t := Zeros(k) + s;
      assert t[..|t| - 1] == Zeros(k) + s[..|s| - 1];
      DigitsValueLeadingZeros(k, s[..|s| - 1]);
    }
  }

  lemma {:induction false} ZerosValue(k: nat)
    ensures DigitsValue(Zeros(k)) == 0
  {
    if k > 0 {
      var z := Zeros(k);
      assert z[..|z| - 1] == Zeros(k - 1) by {
        ZerosShift(k);
      }
      ZerosValue(k - 1);
    }
  }

  lemma {:induction false} ZerosShift(k: nat)
    requires k > 0
    ensures Zeros(k) == Zeros(k - 1) + "0"
  {
    if k > 1 {
      ZerosShift(k - 1);
    }
  }

  lemma NatToStringNoDot(n: nat)
    ensures '.' !in NatToString(n) && '$' !in NatToString(n) && ',' !in NatToString(n)
  {
    var s := NatToString(n);
    assert forall i :: 0 <= i < |s| ==> s[i] != '.' && s[i] != '$' && s[i] != ',';
  }

  lemma {:induction false} DownScale(y: real, e: nat)
    ensures Down(10.0 * y, e) == 10.0 * Down(y, e)
  {
    if e > 0 {
      DownScale(y, e - 1);
    }
  }

  /** Dividing by `10^e` undoes multiplying by it. */
  lemma {:induction false} DownUp(x: real, e: nat)
    ensures Down(Up(x, e), e) == x
  {
    if e > 0 {
      DownUp(x, e - 1);
      DownScale(Up(x, e - 1), e - 1);
    }
  }

  lemma {:induction false} UpNeg(x: real, e: nat)
    ensures Up(-x, e) == -Up(x, e)
  {
    if e > 0 {
      UpNeg(x, e - 1);
    }
  }

  lemma {:induction false} UpNonNeg(x: real, e: nat)
    requires x >= 0.0
    ensures Up(x, e) >= 0.0
  {
    if e > 0 {
      UpNonNeg(x, e - 1);
    }
  }

  lemma ParseDotted(ws: string, fs: string)
    requires AllDigits(ws) && AllDigits(fs) && ws != []
    ensures ParseUnsigned(ws + "." + fs) == ParseParts(ws, fs)
  {
    assert '.' !in ws by {
      assert forall i :: 0 <= i < |ws| ==> ws[i] != '.';
    }
    IndexOfPrefix(ws, '.', fs);
    var s := ws + "." + fs;
    assert s[..|ws|] == ws && s[|ws| + 1..] == fs;
  }

  /** Zero-padding a digit string keeps its value. */
  lemma PadLeftValue(ds: string, w: nat)
    requires AllDigits(ds)
    ensures AllDigits(PadLeft(ds, w)) && DigitsValue(PadLeft(ds, w)) == DigitsValue(ds)
  {
    if |ds| < w {
      DigitsValueLeadingZeros(w - |ds|, ds);
    }
  }

  /** The digits a dotted rendering shows, before the "." goes in. */
  lemma PaddedDigits(n: nat, w: nat)
    ensures var ds := PadLeft(NatToString(n), w);
      AllDigits(ds) && DigitsValue(ds) == n && |ds| >= w
  {
    DigitsValueOfNatToString(n);
    PadLeftValue(NatToString(n), w);
  }

  /** A dotted rendering reads back as `n / 10^q`. */
  lemma DottedRoundTrip(n: nat, q: nat)
    ensures ParseUnsigned(Dotted(n, q)) == Some(Down(n as real, q))
  {
    var ds := PadLeft(NatToString(n), q + 1);
    PaddedDigits(n, q + 1);
    DottedParse(ds, q);
  }

  /** Digits with a point put in before their last `q` read back as their value over 10^q. */
  lemma DottedParse(ds: string, q: nat)
    requires AllDigits(ds) && |ds| > q
    ensures ParseUnsigned(ds[..|ds| - q] + "." + ds[|ds| - q..]) == Some(Down(DigitsValue(ds) as real, q))
  {
    var ws, fs := ds[..|ds| - q], ds[|ds| - q..];
    assert ws + fs == ds;
    ParseDotted(ws, fs);
  }

  /** With `q` places enough for `x`, scaling loses nothing. */
  lemma ScaledExact(x: real, q: nat)
    requires x >= 0.0 && HasPlaces(x, q)
    ensures Down(Scaled(x, q) as real, q) == x
  {
    UpNonNeg(x, q);
    assert Scaled(x, q) as real == Up(x, q);
    DownUp(x, q);
  }

  /** Reading back an unsigned rendering gives the number, when it has at most 17 places. */
  lemma ReprUnsignedRoundTrip(x: real)
    requires x >= 0.0 && exists p :: 1 <= p <= MaxPlaces && HasPlaces(x, p)
    ensures ParseUnsigned(ReprUnsigned(x)) == Some(x)
  {
    var q := Places(x, 1);
    ScaledExact(x, q);
    DottedRoundTrip(Scaled(x, q), q);
  }

  /** Text with no "$", no "," and no surrounding whitespace is what `clean_money` parses. */
  lemma MoneyTextPlain(s: string)
    requires '$' !in s && ',' !in s
    requires s == [] || (!IsSpace(s[0]) && !IsSpace(s[|s| - 1]))
    ensures MoneyText(s) == s
  {
    NoCharRemove(s, '$');
    NoCharRemove(s, ',');
    StripUnchanged(s);
  }

  /** `str(x)` starts with "-" or a digit, ends with a digit, and has no "$" or ",". */
  lemma ReprFloatShape(x: real)
    ensures var s := ReprFloat(x);
      |s| > 0 && (s[0] == '-' || IsDigit(s[0])) && IsDigit(s[|s| - 1]) && '$' !in s && ',' !in s
  {
    var ax := if x < 0.0 then -x else x;
    var q := Places(ax, 1);
    DottedShape(Scaled(ax, q), q);
    var u := ReprUnsigned(ax);
    assert ReprFloat(x) == if x < 0.0 then "-" + u else u;
  }

  /** `str(x)` has no "$", no "," and no surrounding whitespace, so `clean_money` reads it unchanged. */
  lemma MoneyTextOfRepr(x: real)
    ensures MoneyText(ReprFloat(x)) == ReprFloat(x)
  {
    ReprFloatShape(x);
    MoneyTextPlain(ReprFloat(x));
  }

  /** An unsigned numeral reads the same after no sign, and negated after "-". */
  lemma ParseSignedUnsigned(u: string, v: real)
    requires ParseUnsigned(u) == Some(v) && |u| > 0 && IsDigit(u[0])
    ensures ParseSigned(u) == Some(v) && ParseSigned("-" + u) == Some(-v)
  {
    var t := "-" + u;
    assert t[1..] == u;
  }

  /** An unsigned numeral that starts and ends with a digit parses the same under `float`, and negated after "-". */
  lemma PyFloatSigned(u: string, v: real)
    requires ParseUnsigned(u) == Some(v)
    requires |u| > 0 && IsDigit(u[0]) && IsDigit(u[|u| - 1])
    ensures PyFloat(u) == Some(v) && PyFloat("-" + u) == Some(-v)
  {
    ParseSignedUnsigned(u, v);
    StripNumeral(u);
  }

  lemma StripNegative(u: string)
    requires |u| > 0 && IsDigit(u[|u| - 1])
    ensures Strip("-" + u) == "-" + u
  {
    var t := "-" + u;
    assert t[0] == '-' && t[|t| - 1] == u[|u| - 1];
    StripUnchanged(t);
  }

  lemma StripNumeral(u: string)
    requires |u| > 0 && IsDigit(u[0]) && IsDigit(u[|u| - 1])
    ensures Strip(u) == u && Strip("-" + u) == "-" + u
  {
    StripUnchanged(u);
    StripNegative(u);
  }

  lemma HasPlacesAbs(x: real, p: nat)
    requires HasPlaces(x, p)
    ensures HasPlaces(if x < 0.0 then -x else x, p)
  {
    if x < 0.0 {
      UpNeg(x, p);
      NegIntegral(Up(x, p));
      assert HasPlaces(-x, p);
    }
  }

  /** `float(str(x)) == x`, whenever `x` has at most 17 decimal places. */
  lemma PyFloatOfRepr(x: real)
    requires exists p :: 1 <= p <= MaxPlaces && HasPlaces(x, p)
    ensures PyFloat(ReprFloat(x)) == Some(x)
  {
    var ax := if x < 0.0 then -x else x;
    var p :| 1 <= p <= MaxPlaces && HasPlaces(x, p);
    HasPlacesAbs(x, p);
    ReprUnsignedRoundTrip(ax);
    var q := Places(ax, 1);
    DottedShape(Scaled(ax, q), q);
    var u := ReprUnsigned(ax);
    PyFloatSigned(u, ax);
    assert ReprFloat(x) == if x < 0.0 then "-" + u else u;
  }

  /**
   * A number written with `str` and read back with `clean_money` is the same
   * number, whenever it has at most 17 decimal places.
   */
  lemma CleanMoneyOfRepr(x: real)
    requires exists p :: 1 <= p <= MaxPlaces && HasPlaces(x, p)
    ensures CleanMoney(ReprFloat(x)) == x
  {
    MoneyTextOfRepr(x);
    PyFloatOfRepr(x);
  }

  lemma NegIntegral(r: real)
    requires IsIntegral(r)
    ensures IsIntegral(-r)
  {
    var k := r.Floor;
    assert -r == (-k) as real;
    assert (-r).Floor == -k;
  }

  lemma DottedShape(n: nat, q: nat)
    requires q >= 1
    ensures var u := Dotted(n, q);
      |u| > 0 && IsDigit(u[0]) && IsDigit(u[|u| - 1]) && '$' !in u && ',' !in u
  {
    var ds := PadLeft(NatToString(n), q + 1);
    PaddedDigits(n, q + 1);
    DottedChars(ds, q);
  }

  /** Digits with a point put in before their last `q` stay digits at both ends and gain no mark. */
  lemma DottedChars(ds: string, q: nat)
    requires AllDigits(ds) && |ds| > q >= 1
    ensures var u := ds[..|ds| - q] + "." + ds[|ds| - q..];
      |u| > 0 && IsDigit(u[0]) && IsDigit(u[|u| - 1]) && '$' !in u && ',' !in u
  {
    var ws := ds[..|ds| - q];
    var u := ws + "." + ds[|ds| - q..];
    forall i | 0 <= i < |u| ensures IsDigit(u[i]) || u[i] == '.' {
      if i < |ws| { assert u[i] == ds[i]; }
      else if i > |ws| { assert u[i] == ds[i - 1]; }
    }
    assert u[|u| - 1] == ds[|ds| - 1];
    assert u[0] == ws[0] == ds[0];
  }

  lemma {:induction false} NoCharRemove(s: string, c: char)
    requires c !in s
    ensures RemoveChar(s, c) == s
  {
    if s != [] {
      NoCharRemove(s[1..], c);
    }
  }

  /**
   * Normalization is idempotent: rendering a cleaned amount and cleaning it
   * again gives the same amount (for amounts with at most 17 places).
   */
  lemma CleanMoneyIdempotent(s: string)
    requires exists p :: 1 <= p <= MaxPlaces && HasPlaces(CleanMoney(s), p)
    ensures CleanMoney(ReprFloat(CleanMoney(s))) == CleanMoney(s)
  {
    CleanMoneyOfRepr(CleanMoney(s));
  }

  predicate NoDigit(s: string) {
    forall i :: 0 <= i < |s| ==> !IsDigit(s[i])
  }

  /** Text with no digit never parses, so it cleans to 0.0 ("N/A", "", "-"). */
  lemma CleanMoneyNoDigits(s: string)
    requires NoDigit(s)
    ensures CleanMoney(s) == 0.0
  {
    NoDigitMoneyText(s);
    SignedNeedsDigit(MoneyText(s));
  }

  lemma NoDigitMoneyText(s: string)
    requires NoDigit(s)
    ensures NoDigit(MoneyText(s))
  {
    NoDigitRemove(s, '$');
    NoDigitRemove(RemoveChar(s, '$'), ',');
    NoDigitStrip(DropMarks(s));
  }

  lemma SignedNeedsDigit(t: string)
    requires NoDigit(t)
    ensures ParseSigned(t) == None
  {
    var u := if |t| > 0 && (t[0] == '-' || t[0] == '+') then t[1..] else t;
    assert NoDigit(u) by {
      forall i | 0 <= i < |u| ensures !IsDigit(u[i]) {
        if u != t { assert u[i] == t[i + 1]; }
      }
    }
    UnsignedNeedsDigit(u);
  }

  lemma {:induction false} NoDigitRemove(s: string, c: char)
    requires NoDigit(s)
    ensures NoDigit(RemoveChar(s, c))
  {
    if s != [] {
      NoDigitRemove(s[1..], c);
    }
  }

  lemma {:induction false} NoDigitLStrip(s: string)
    requires NoDigit(s)
    ensures NoDigit(LStrip(s))
  {
    if |s| > 0 && IsSpace(s[0]) {
      NoDigitLStrip(s[1..]);
    }
  }

  lemma {:induction false} NoDigitRStrip(s: string)
    requires NoDigit(s)
    ensures NoDigit(RStrip(s))
  {
    if |s| > 0 && IsSpace(s[|s| - 1]) {
      NoDigitRStrip(s[..|s| - 1]);
    }
  }

  lemma NoDigitStrip(s: string)
    requires NoDigit(s)
    ensures NoDigit(Strip(s))
  {
    NoDigitLStrip(s);
    NoDigitRStrip(LStrip(s));
  }

  lemma UnsignedNeedsDigit(u: string)
    requires NoDigit(u)
    ensures ParseUnsigned(u) == None
  {
    var k := IndexOf(u, '.');
    if k != -1 {
      var whole, frac := u[..k], u[k + 1..];
      if whole != [] { assert !IsDigit(whole[0]); }
      if frac != [] { assert frac[0] == u[k + 1]; }
    } else if u != [] {
      assert !IsDigit(u[0]);
    }
  }

  lemma {:induction false} RemoveCharAppend(a: string, b: string, c: char)
    ensures RemoveChar(a + b, c) == RemoveChar(a, c) + RemoveChar(b, c)
  {
    if a != [] {
      assert (a + b)[1..] == a[1..] + b;
      RemoveCharAppend(a[1..], b, c);
    } else {
      assert a + b == b;
    }
  }

  lemma DropDollar(a: string, b: string)
    ensures DropMarks(a + "$" + b) == DropMarks(a + b)
  {
    RemoveCharAppend(a + "$", b, '$');
    RemoveCharAppend(a, "$", '$');
    RemoveCharAppend(a, b, '$');
    assert RemoveChar("$", '$') == [];
    assert RemoveChar(a + "$" + b, '$') == RemoveChar(a + b, '$');
  }

  lemma DropComma(a: string, b: string)
    ensures DropMarks(a + "," + b) == DropMarks(a + b)
  {
    RemoveCharAppend(a + ",", b, '$');
    RemoveCharAppend(a, ",", '$');
    RemoveCharAppend(a, b, '$');
    assert RemoveChar(",", '$') == ",";
    var ra, rb := RemoveChar(a, '$'), RemoveChar(b, '$');
    assert RemoveChar(a + "," + b, '$') == ra + "," + rb;
    RemoveCharAppend(ra + ",", rb, ',');
    RemoveCharAppend(ra, ",", ',');
    RemoveCharAppend(ra, rb, ',');
    assert RemoveChar(",", ',') == [];
  }

  /** A "$" or "," anywhere in the cell text does not change what `clean_money` reads. */
  lemma MoneyTextIgnoresMarks(a: string, b: string, x: char)
    requires x == '$' || x == ','
    ensures MoneyText(a + [x] + b) == MoneyText(a + b)
  {
    if x == '$' { DropDollar(a, b); } else { DropComma(a, b); }
  }

  lemma CleanMoneyIgnoresMarks(a: string, b: string, x: char)
    requires x == '$' || x == ','
    ensures CleanMoney(a + [x] + b) == CleanMoney(a + b)
  {
    MoneyTextIgnoresMarks(a, b, x);
  }

  /** A grouped dollar amount such as "$1,250.00" cleans to the number its digits spell (1250.0). */
  lemma GroupedDollars(a: string, b: string, f: string)
    requires AllDigits(a) && AllDigits(b) && AllDigits(f) && a != []
    ensures CleanMoney("$" + a + "," + b + "." + f) == Down(DigitsValue(a + b + f) as real, |f|)
  {
    var x := a + "," + b + "." + f;
    GroupedShape(a, b, f);
    CleanMoneyIgnoresMarks("", x, '$');
    CleanMoneyIgnoresMarks(a, b + "." + f, ',');
    AllDigitsConcat(a, b);
    CleanDecimal(a + b, f);
  }

  /** How "$a,b.f" comes apart around its marks. */
  lemma GroupedShape(a: string, b: string, f: string)
    ensures "" + ['$'] + (a + "," + b + "." + f) == "$" + a + "," + b + "." + f
    ensures "" + (a + "," + b + "." + f) == a + [','] + (b + "." + f)
    ensures a + (b + "." + f) == (a + b) + "." + f
  {
  }

  /** Digits, a point and digits clean to their decimal value. */
  lemma CleanDecimal(w: string, f: string)
    requires AllDigits(w) && AllDigits(f) && w != []
    ensures CleanMoney(w + "." + f) == Down(DigitsValue(w + f) as real, |f|)
  {
    var t := w + "." + f;
    DecimalText(w, f);
    assert PyFloat(MoneyText(t)) == ParseSigned(t);
    UnsignedStart(t);
    ParseDotted(w, f);
  }

  /** Digits, a point and digits hold no mark and no surrounding space, and start with a digit. */
  lemma DecimalText(w: string, f: string)
    requires AllDigits(w) && AllDigits(f) && w != []
    ensures var t := w + "." + f; MoneyText(t) == t && Strip(t) == t && IsDigit(t[0])
  {
    var t := w + "." + f;
    assert forall i :: 0 <= i < |t| ==> IsDigit(t[i]) || t[i] == '.';
    assert t[0] == w[0];
    MoneyTextPlain(t);
    StripUnchanged(t);
  }

  /** Text that starts with a digit carries no sign. */
  lemma UnsignedStart(t: string)
    requires |t| > 0 && IsDigit(t[0])
    ensures ParseSigned(t) == ParseUnsigned(t)
  {
  }

  /** A whole dollar amount with a thousands comma and surrounding whitespace, such as "  $5,000 ", cleans to its digits (5000.0). */
  lemma SpacedWholeDollars(sp1: string, a: string, b: string, sp2: string)
    requires AllSpace(sp1) && AllSpace(sp2) && AllDigits(a) && AllDigits(b) && a != []
    ensures CleanMoney(sp1 + "$" + a + "," + b + sp2) == DigitsValue(a + b) as real
  {
    SpacedShape(sp1, a, b, sp2);
    DropDollar(sp1, a + "," + b + sp2);
    DropComma(sp1 + a, b + sp2);
    AllDigitsConcat(a, b);
    CleanSpacedWhole(sp1, a + b, sp2);
  }

  /** How "  $a,b " comes apart around its marks. */
  lemma SpacedShape(sp1: string, a: string, b: string, sp2: string)
    ensures sp1 + "$" + (a + "," + b + sp2) == sp1 + "$" + a + "," + b + sp2
    ensures sp1 + a + "," + (b + sp2) == sp1 + (a + "," + b + sp2)
    ensures sp1 + a + (b + sp2) == sp1 + (a + b) + sp2
  {
  }

  /** Digits between runs of whitespace clean to their value. */
  lemma CleanSpacedWhole(sp1: string, w: string, sp2: string)
    requires AllSpace(sp1) && AllSpace(sp2) && AllDigits(w) && w != []
    ensures MoneyText(sp1 + w + sp2) == w
    ensures CleanMoney(sp1 + w + sp2) == DigitsValue(w) as real
  {
    SpacedText(sp1, w, sp2);
    DigitsFloat(w);
  }

  lemma SpacedText(sp1: string, w: string, sp2: string)
    requires AllSpace(sp1) && AllSpace(sp2) && AllDigits(w) && w != []
    ensures MoneyText(sp1 + w + sp2) == w
  {
    assert forall i :: 0 <= i < |sp1| ==> IsSpace(sp1[i]);
    assert forall i :: 0 <= i < |sp2| ==> IsSpace(sp2[i]);
    assert forall i :: 0 <= i < |w| ==> IsDigit(w[i]);
    DropMarksPlain(sp1, w, sp2);
    StripSurrounded(sp1, w, sp2);
  }

  /** `float` of a digit string is its value. */
  lemma DigitsFloat(w: string)
    requires AllDigits(w) && w != []
    ensures PyFloat(w) == Some(DigitsValue(w) as real)
  {
    assert IsDigit(w[0]) && IsDigit(w[|w| - 1]);
    StripUnchanged(w);
    assert ParseSigned(w) == ParseUnsigned(w);
    assert '.' !in w by {
      assert forall i :: 0 <= i < |w| ==> IsDigit(w[i]);
    }
  }

  lemma DropMarksPlain(x: string, y: string, z: string)
    requires '$' !in x && ',' !in x && '$' !in y && ',' !in y && '$' !in z && ',' !in z
    ensures DropMarks(x + y + z) == x + y + z
  {
    NoCharRemove(x + y + z, '$');
    NoCharRemove(x + y + z, ',');
  }

  /** Whitespace in front of the cell text does not change what `clean_money` reads. */
  lemma CleanMoneyIgnoresLeadingSpace(c: char, s: string)
    requires IsSpace(c)
    ensures CleanMoney([c] + s) == CleanMoney(s)
  {
    RemoveCharAppend([c], s, '$');
    assert RemoveChar([c], '$') == [c];
    var t := RemoveChar(s, '$');
    RemoveCharAppend([c], t, ',');
    assert RemoveChar([c], ',') == [c];
    assert DropMarks([c] + s) == [c] + DropMarks(s);
    StripLeadingSpace(c, DropMarks(s));
  }
}
