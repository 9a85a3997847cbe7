/**
 * The parts of Python's text and number built-ins that the two drivers rely
 * on: `str(int)`, `'{:0Nd}'` formatting, `str.zfill`, `int(str)`,
 * `float(str)`, slicing with clamped bounds, `str.strip` and `str.lower`.
 */
module PyText {
  import opened Wrappers

  /** The Python exceptions the modelled code can raise. */
  datatype PyError = IndexError | ValueError | TypeError | ZeroDivisionError | AssertionError | AttributeError

  predicate IsDigit(c: char) { '0' <= c <= '9' }

  predicate AllDigits(s: string) { forall i :: 0 <= i < |s| ==> IsDigit(s[i]) }

  predicate IsSign(c: char) { c == '+' || c == '-' }

  function DigitChar(d: nat): (c: char)
    requires d < 10
    ensures IsDigit(c)
  {
    (48 + d) as char
  }

  function DigitValue(c: char): (d: nat)
    requires IsDigit(c)
    ensures d < 10
  {
    c as int - 48
  }

  function Pow10(n: nat): (p: nat)
    ensures p >= 1
  {
    if n == 0 then 1 else 10 * Pow10(n - 1)
  }

  // ---------------------------------------------------------------------
  // Decimal digit strings
  // ---------------------------------------------------------------------

  /** `str(n)` for `n >= 0`: the decimal digits of `n`, without leading zeros. */
  function Digits(n: nat): (s: string)
    ensures 1 <= |s| && AllDigits(s)
  {
    if n < 10 then [DigitChar(n)] else Digits(n / 10) + [DigitChar(n % 10)]
  }

  /** The number a string of decimal digits denotes; leading zeros are allowed. */
  function DigitsValue(s: string): (v: nat)
    requires AllDigits(s)
    ensures v < Pow10(|s|)
  {
    if s == [] then 0 else 10 * DigitsValue(s[..|s| - 1]) + DigitValue(s[|s| - 1])
  }

  lemma {:induction false} DigitsValueOfDigits(n: nat)
    ensures DigitsValue(Digits(n)) == n
  {
    if n >= 10 {
      var s := Digits(n);
      assert s[..|s| - 1] == Digits(n / 10);
      DigitsValueOfDigits(n / 10);
    }
  }

  /** `n` has at most `w` digits exactly when it is below `10^w`. */
  lemma {:induction false} DigitsLength(n: nat, w: nat)
    requires w >= 1
    ensures |Digits(n)| <= w <==> n < Pow10(w)
  {
    if n >= 10 {
      if w == 1 {
        assert Pow10(1) == 10;
      } else {
        DigitsLength(n / 10, w - 1);
      }
    } else {
      assert Pow10(w) == 10 * Pow10(w - 1);
    }
  }

  function Zeros(k: nat): (s: string)
    ensures |s| == k && AllDigits(s)
    ensures forall i :: 0 <= i < k ==> s[i] == '0'
  {
    seq(k, _ => '0')
  }

  lemma {:induction false} ZerosValue(k: nat)
    ensures DigitsValue(Zeros(k)) == 0
  {
    if k > 0 {
      assert Zeros(k)[..k - 1] == Zeros(k - 1);
      ZerosValue(k - 1);
    }
  }

  /** Leading zeros do not change the value of a digit string. */
  lemma {:induction false} LeadingZerosValue(k: nat, s: string)
    requires AllDigits(s)
    ensures AllDigits(Zeros(k) + s)
    ensures DigitsValue(Zeros(k) + s) == DigitsValue(s)
  {
    var t := Zeros(k) + s;
    assert forall i :: 0 <= i < |t| ==> IsDigit(t[i]) by {
      forall i | 0 <= i < |t| ensures IsDigit(t[i]) {
        if i < k { assert t[i] == Zeros(k)[i]; } else { assert t[i] == s[i - k]; }
      }
    }
    if s == [] {
      assert t == Zeros(k);
      ZerosValue(k);
    } else {
      assert t[..|t| - 1] == Zeros(k) + s[..|s| - 1];
      LeadingZerosValue(k, s[..|s| - 1]);
    }
  }

  /** The width facts `ZeroPad` needs, for every width including 0. */
  lemma DigitsFitWidth(n: nat, w: nat)
    ensures w >= 1 && n < Pow10(w) ==> |Digits(n)| <= w
    ensures n >= Pow10(w) ==> |Digits(n)| > w
  {
    if w >= 1 {
      DigitsLength(n, w);
    }
  }

  /**
   * `'{:0{w}d}'.format(n)` for `n >= 0`: the digits of `n`, left-padded with
   * zeros to `w` characters and never truncated.
   */
  function ZeroPad(n: nat, w: nat): (s: string)
    ensures AllDigits(s) && DigitsValue(s) == n
    ensures |s| >= 1 && |s| >= w
    ensures w >= 1 && n < Pow10(w) ==> |s| == w
    ensures n >= Pow10(w) ==> s == Digits(n)
  {
    var d := Digits(n);
    var k: nat := if |d| < w then w - |d| else 0;
    DigitsValueOfDigits(n);
    LeadingZerosValue(k, d);
    DigitsFitWidth(n, w);
    assert k == 0 ==> Zeros(k) + d == d;
    Zeros(k) + d
  }

  // ---------------------------------------------------------------------
  // int(), str() and formatting of signed integers
  // ---------------------------------------------------------------------

  /**
   * Python's `int(s)` on a string, for literals made of an optional sign and
   * ASCII digits; anything else raises `ValueError`, modelled as `None`.
   */
  function ParseInt(s: string): (r: Option<int>)
    ensures r.Some? ==> |s| >= 1
    ensures |s| >= 1 && AllDigits(s) ==> r == Some(DigitsValue(s))
    ensures r.Some? && r.value < 0 ==> s[0] == '-'
    ensures r.Some? && s[0] == '-' ==> r.value <= 0
  {
    if |s| >= 1 && AllDigits(s) then Some(DigitsValue(s))
    else if |s| >= 2 && IsSign(s[0]) && AllDigits(s[1..]) then
      var v: int := DigitsValue(s[1..]);
      Some(if s[0] == '-' then -v else v)
    else None
  }

  /**
   * `'{:0{w}d}'.format(n)` for any integer: a negative number puts its `-`
   * in front and counts it in the width.
   */
  function FormatInt(n: int, w: nat): (s: string)
    ensures ParseInt(s) == Some(n)
    ensures |s| >= 1 && (s[0] == '-' <==> n < 0)
    ensures n >= 0 ==> AllDigits(s)
    ensures 0 <= n && w >= 1 && n < Pow10(w) ==> |s| == w
    ensures n < 0 && w >= 2 && -n < Pow10(w - 1) ==> |s| == w
  {
    if n < 0 then
      var d := ZeroPad(-n, if w >= 1 then w - 1 else 0);
      ParseSigned('-', d);
      "-" + d
    else
      ZeroPad(n, w)
  }

  /** `int(sign + d)` for a sign character and a digit string `d`. */
  lemma ParseSigned(sign: char, d: string)
    requires IsSign(sign) && |d| >= 1 && AllDigits(d)
    ensures var v: int := DigitsValue(d);
            ParseInt([sign] + d) == Some(if sign == '-' then -v else v)
  {
    var s := [sign] + d;
    assert s[0] == sign && s[1..] == d;
    assert !AllDigits(s) by {
      assert !IsDigit(s[0]);
    }
    assert |s| >= 2 && IsSign(s[0]) && AllDigits(s[1..]);
    var v: int := DigitsValue(s[1..]);
    assert ParseInt(s) == Some(if s[0] == '-' then -v else v);
  }

  /** Python's `str(n)` for an integer. */
  function StrInt(n: int): (s: string)
    ensures ParseInt(s) == Some(n)
    ensures n >= 0 ==> AllDigits(s)
  {
    if n < 0 then
      DigitsValueOfDigits(-n);
      ParseSigned('-', Digits(-n));
      "-" + Digits(-n)
    else
      DigitsValueOfDigits(n);
      Digits(n)
  }

  /** Python's `s.zfill(w)`: pads with `'0'` to width `w`, after a leading sign if there is one. */
  function ZFill(s: string, w: nat): (r: string)
    ensures |s| >= w ==> r == s
    ensures |s| < w ==> |r| == w
    ensures ParseInt(s).Some? ==> ParseInt(r) == ParseInt(s)
  {
    if |s| >= w then s
    else if |s| > 0 && IsSign(s[0]) then
      var t := Zeros(w - |s|) + s[1..];
      ZFillKeepsSigned(s, w - |s|);
      [s[0]] + t
    else
      ZFillKeepsUnsigned(s, w - |s|);
      Zeros(w - |s|) + s
  }

  /** Zeros put in front of an unsigned literal keep its value. */
  lemma ZFillKeepsUnsigned(s: string, k: nat)
    requires !(|s| > 0 && IsSign(s[0]))
    ensures ParseInt(s).Some? ==> ParseInt(Zeros(k) + s) == ParseInt(s)
  {
    if ParseInt(s).Some? {
      LeadingZerosValue(k, s);
    }
  }

  /** Zeros put between the sign and the digits of a signed literal keep its value. */
  lemma ZFillKeepsSigned(s: string, k: nat)
    requires |s| > 0 && IsSign(s[0])
    ensures ParseInt(s).Some? ==> ParseInt([s[0]] + (Zeros(k) + s[1..])) == ParseInt(s)
  {
    if ParseInt(s).Some? {
      assert !AllDigits(s) by {
        assert !IsDigit(s[0]);
      }
      LeadingZerosValue(k, s[1..]);
      ParseSigned(s[0], Zeros(k) + s[1..]);
    }
  }

  /** `str(n).zfill(w)` is the same string as `'{:0{w}d}'.format(n)`. */
  lemma ZFillOfStrInt(n: int, w: nat)
    ensures ZFill(StrInt(n), w) == FormatInt(n, w)
  {
    if n < 0 {
      ZFillOfNegative(n, w);
    } else {
      ZFillOfNatural(n, w);
    }
  }

  lemma ZFillOfNegative(n: int, w: nat)
    requires n < 0
    ensures ZFill(StrInt(n), w) == FormatInt(n, w)
  {
    var m: nat := -n;
    var d := Digits(m);
    var k := if w >= 1 then w - 1 else 0;
    assert StrInt(n) == "-" + d;
    assert FormatInt(n, w) == "-" + ZeroPad(m, k);
    ZeroPadIsPadding(m, k);
    ZFillOfSigned("-" + d, w);
    assert ("-" + d)[1..] == d;
    if |d| >= k {
      assert Zeros(0) + d == d;
    }
  }

  /** `zfill` of a signed string puts the zeros after the sign. */
  lemma ZFillOfSigned(s: string, w: nat)
    requires |s| > 0 && IsSign(s[0])
    ensures ZFill(s, w) == if |s| >= w then s else [s[0]] + (Zeros(w - |s|) + s[1..])
  {
  }

  /** `ZeroPad` is the digits behind as many zeros as the width lacks. */
  lemma ZeroPadIsPadding(n: nat, w: nat)
    ensures ZeroPad(n, w) == Zeros(if |Digits(n)| < w then w - |Digits(n)| else 0) + Digits(n)
  {
  }

  lemma ZFillOfNatural(n: nat, w: nat)
    ensures ZFill(StrInt(n), w) == FormatInt(n, w)
  {
    var d := Digits(n);
    assert StrInt(n) == d;
    DigitsFitWidth(n, w);
    if |d| >= w {
      assert Zeros(0) + d == d;
    } else {
      assert !IsSign(d[0]);
    }
  }

  // ---------------------------------------------------------------------
  // Slicing, stripping, lower-casing
  // ---------------------------------------------------------------------

  /** Python's `s[i:j]` for non-negative bounds: both bounds are clamped to the string. */
  function Slice(s: string, i: nat, j: nat): (r: string)
    ensures i <= j <= |s| ==> r == s[i..j]
    ensures i <= |s| <= j ==> r == s[i..]
    ensures |s| <= i || j <= i ==> r == []
  {
    var hi := Min(j, |s|);
    var lo := Min(i, hi);
    s[lo..hi]
  }

  /** The characters a `strip` call removes: whitespace (no argument) or a given set. */
  datatype StripChars = Whitespace | Chars(cs: set<char>)

  predicate Strips(drop: StripChars, c: char)
  {
    match drop
    case Whitespace => IsSpace(c)
    case Chars(cs) => c in cs
  }

  /** The index of the first character at or after `lo` that is not in `drop` (or `|s|`). */
  function StripStart(s: string, lo: nat, drop: StripChars): (k: nat)
    requires lo <= |s|
    ensures lo <= k <= |s|
    ensures forall i :: lo <= i < k ==> Strips(drop, s[i])
    ensures k < |s| ==> !Strips(drop, s[k])
    decreases |s| - lo
  {
    if lo < |s| && Strips(drop, s[lo]) then StripStart(s, lo + 1, drop) else lo
  }

  /** The index just past the last character before `hi` and at or after `lo` that is not in `drop` (or `lo`). */
  function StripEnd(s: string, lo: nat, hi: nat, drop: StripChars): (e: nat)
    requires lo <= hi <= |s|
    ensures lo <= e <= hi
    ensures forall i :: e <= i < hi ==> Strips(drop, s[i])
    ensures e > lo ==> !Strips(drop, s[e - 1])
  {
    if hi > lo && Strips(drop, s[hi - 1]) then StripEnd(s, lo, hi - 1, drop) else hi
  }

  /**
   * `r` is `s[k..k + |r|]` and every character of `s` outside that infix is
   * in `drop`.
   */
  predicate InfixAfterDropping(s: string, k: nat, r: string, drop: StripChars)
  {
    && k + |r| <= |s| && r == s[k..k + |r|]
    && (forall i :: 0 <= i < k ==> Strips(drop, s[i]))
    && (forall i :: k + |r| <= i < |s| ==> Strips(drop, s[i]))
  }

  /**
   * `s.strip(...)`: the infix of `s` left once every leading and every
   * trailing character that is in `drop` is removed. It starts at the first
   * character not in `drop`, everything removed is in `drop`, and what is
   * left neither starts nor ends with a character of `drop`.
   */
  function Strip(s: string, drop: StripChars): (r: string)
    ensures InfixAfterDropping(s, StripStart(s, 0, drop), r, drop)
    ensures r != [] ==> !Strips(drop, r[0]) && !Strips(drop, r[|r| - 1])
  {
    var k := StripStart(s, 0, drop);
    var e := StripEnd(s, k, |s|, drop);
    assert s[k..e] == s[k..k + |s[k..e]|];
    s[k..e]
  }

  /** The forward scan stops at the first character not in `drop`. */
  lemma {:induction false} StripStartAt(s: string, lo: nat, n: nat, drop: StripChars)
    requires lo <= n <= |s|
    requires forall i :: lo <= i < n ==> Strips(drop, s[i])
    requires n < |s| ==> !Strips(drop, s[n])
    ensures StripStart(s, lo, drop) == n
    decreases n - lo
  {
    if lo < n {
      StripStartAt(s, lo + 1, n, drop);
    }
  }

  /** The backward scan stops just after the last character not in `drop`. */
  lemma {:induction false} StripEndAt(s: string, lo: nat, n: nat, hi: nat, drop: StripChars)
    requires lo <= n <= hi <= |s|
    requires forall i :: n <= i < hi ==> Strips(drop, s[i])
    requires n > lo ==> !Strips(drop, s[n - 1])
    ensures StripEnd(s, lo, hi, drop) == n
    decreases hi - n
  {
    if n < hi {
      StripEndAt(s, lo, n, hi - 1, drop);
    }
  }

  /**
   * Stripping `pre + x + post`, where every character of `pre` and `post`
   * is in `drop` and `x` neither starts nor ends with one, leaves `x`.
   */
  lemma StripOfPadded(pre: string, x: string, post: string, drop: StripChars)
    requires forall i :: 0 <= i < |pre| ==> Strips(drop, pre[i])
    requires forall i :: 0 <= i < |post| ==> Strips(drop, post[i])
    requires x != [] ==> !Strips(drop, x[0]) && !Strips(drop, x[|x| - 1])
    ensures Strip(pre + x + post, drop) == x
  {
    var s := pre + x + post;
    var a := |pre|;
    var b := |pre| + |x|;
    assert forall i :: 0 <= i < a ==> s[i] == pre[i];
    assert forall i :: b <= i < |s| ==> s[i] == post[i - b];
    if x == [] {
      StripStartAt(s, 0, |s|, drop);
      StripEndAt(s, |s|, |s|, |s|, drop);
    } else {
      assert s[a] == x[0] && s[b - 1] == x[|x| - 1];
      StripStartAt(s, 0, a, drop);
      StripEndAt(s, a, b, |s|, drop);
      assert s[a..b] == x;
    }
  }

  /** The characters Python's `str.isspace` accepts, which `str.strip()` removes. */
  predicate IsSpace(c: char)
  {
    || c == ' ' || ('\t' <= c <= '\r')
    || ('\U{1C}' <= c <= '\U{1F}') || c == '\U{85}' || c == '\U{A0}' || c == '\U{1680}'
    || ('\U{2000}' <= c <= '\U{200A}') || c == '\U{2028}' || c == '\U{2029}' || c == '\U{202F}'
    || c == '\U{205F}' || c == '\U{3000}'
  }

  function LowerChar(c: char): char
  {
    if 'A' <= c <= 'Z' then (c as int + 32) as char else c
  }

  /**
   * `s.lower()` on ASCII letters. Python also lower-cases other letters; for
   * the membership tests the drivers make against lower-case ASCII words the
   * outcome is the same, since no other character lower-cases to one of the
   * letters those words use.
   */
  function Lower(s: string): (r: string)
    ensures |r| == |s| && forall i :: 0 <= i < |s| ==> r[i] == LowerChar(s[i])
  {
    seq(|s|, i requires 0 <= i < |s| => LowerChar(s[i]))
  }

  // ---------------------------------------------------------------------
  // float()
  // ---------------------------------------------------------------------

  /** The first index whose character satisfies `p`, or `|s|` when there is none. */
  function IndexWhere(s: string, p: char -> bool): (k: nat)
    ensures k <= |s| && (k < |s| ==> p(s[k]))
    ensures forall i :: 0 <= i < k ==> !p(s[i])
  {
    if s == [] || p(s[0]) then 0
    else
      var k := IndexWhere(s[1..], p);
      assert forall i :: 1 <= i < k + 1 ==> s[i] == s[1..][i - 1];
      1 + k
  }

  predicate IsPoint(c: char) { c == '.' }

  predicate IsExponentMark(c: char) { c == 'e' || c == 'E' }

  /** A mantissa split at its first decimal point: the digits before it and after it. */
  function SplitAtPoint(m: string): (string, string)
  {
    var dot := IndexWhere(m, IsPoint);
    (m[..dot], if dot < |m| then m[dot + 1..] else "")
  }

  /** The value of a decimal mantissa `digits`, `digits.digits`, `digits.` or `.digits`. */
  function ParseMantissa(m: string): Option<real>
  {
    var (whole, frac) := SplitAtPoint(m);
    if AllDigits(whole) && AllDigits(frac) && |whole| + |frac| >= 1 then
      Some(DigitsValue(whole) as real + Fraction(frac))
    else None
  }

  /** The value of the digits after a decimal point. */
  function Fraction(frac: string): real
    requires AllDigits(frac)
  {
    DigitsValue(frac) as real / Pow10(|frac|) as real
  }

  /** `x * 10^e` for any integer exponent. */
  function Scale(x: real, e: int): real
  {
    if e >= 0 then x * Pow10(e) as real else x / Pow10(-e) as real
  }

  /**
   * Python's `float(s)` for decimal literals `[sign] mantissa [(e|E) [sign] digits]`;
   * anything else raises `ValueError`, modelled as `None`.
   */
  function ParseFloat(s: string): (r: Option<real>)
    ensures r.Some? ==> |s| >= 1
  {
    var neg := |s| >= 1 && s[0] == '-';
    var body := if |s| >= 1 && IsSign(s[0]) then s[1..] else s;
    var e := IndexWhere(body, IsExponentMark);
    var mantissa := ParseMantissa(body[..e]);
    var exponent := if e < |body| then ParseInt(body[e + 1..]) else Some(0);
    if mantissa.Some? && exponent.Some? then
      var x := Scale(mantissa.value, exponent.value);
      Some(if neg then -x else x)
    else
      None
  }

  /** A search for a character that is not a digit runs to the end of a digit string. */
  lemma NoDigitIs(d: string, p: char -> bool)
    requires AllDigits(d)
    requires forall c :: IsDigit(c) ==> !p(c)
    ensures IndexWhere(d, p) == |d|
  {
  }

  /** A search that matches no character runs to the end. */
  lemma NoneFound(s: string, p: char -> bool)
    requires forall i :: 0 <= i < |s| ==> !p(s[i])
    ensures IndexWhere(s, p) == |s|
  {
  }

  /** A decimal digit string has no exponent mark and no decimal point, so its mantissa is the whole string. */
  lemma DigitLiteralMantissa(d: string)
    requires |d| >= 1 && AllDigits(d)
    ensures IndexWhere(d, IsExponentMark) == |d|
    ensures ParseMantissa(d) == Some(DigitsValue(d) as real)
  {
    NoDigitIs(d, IsExponentMark);
    NoDigitIs(d, IsPoint);
    assert d[..|d|] == d;
    assert SplitAtPoint(d) == (d, "");
    MantissaOfSplit(d, d, "");
    NoFraction();
  }

  lemma NoFraction()
    ensures Fraction("") == 0.0
  {
    assert DigitsValue("") == 0 && Pow10(0) == 1;
  }

  /** `float(s)` of an integer literal is the integer `int(s)` gives. */
  lemma ParseFloatOfIntLiteral(s: string)
    ensures ParseInt(s).Some? ==> ParseFloat(s) == Some(ParseInt(s).value as real)
  {
    if ParseInt(s).Some? {
      var body := if IsSign(s[0]) then s[1..] else s;
      assert |body| >= 1 && AllDigits(body);
      DigitLiteralMantissa(body);
      assert body[..|body|] == body;
      ScaleByOne(DigitsValue(body) as real);
    }
  }

  /** The first match of `p` in `a + b` is at `|a|` when `a` has none and `b` starts with one. */
  lemma IndexWhereAt(a: string, b: string, p: char -> bool)
    requires forall i :: 0 <= i < |a| ==> !p(a[i])
    requires |b| >= 1 && p(b[0])
    ensures IndexWhere(a + b, p) == |a|
  {
    var s := a + b;
    var k := IndexWhere(s, p);
    assert s[|a|] == b[0];
  }

  /** `float(w + '.' + f)` for digit strings `w` and `f`, not both empty: the whole part plus the fraction. */
  lemma ParseFloatOfDecimal(w: string, f: string)
    requires AllDigits(w) && AllDigits(f) && |w| + |f| >= 1
    ensures ParseFloat(w + "." + f) == Some(DigitsValue(w) as real + Fraction(f))
  {
    var s := w + "." + f;
    DecimalShape(w, f);
    MantissaOfSplit(s, w, f);
    ParseFloatOfMantissa(s, DigitsValue(w) as real + Fraction(f));
  }

  /** A decimal literal has no sign and no exponent, and splits at its point into the two digit strings. */
  lemma DecimalShape(w: string, f: string)
    requires AllDigits(w) && AllDigits(f)
    ensures var s := w + "." + f;
            && !IsSign(s[0])
            && IndexWhere(s, IsExponentMark) == |s|
            && SplitAtPoint(s) == (w, f)
  {
    var s := w + "." + f;
    assert s == w + ("." + f);
    assert !IsSign(s[0]) by {
      if |w| > 0 { assert s[0] == w[0]; } else { assert s[0] == '.'; }
    }
    assert forall i :: 0 <= i < |s| ==> !IsExponentMark(s[i]) by {
      forall i | 0 <= i < |s| ensures !IsExponentMark(s[i]) {
        if i < |w| { assert s[i] == w[i]; }
        else if i > |w| { assert s[i] == f[i - |w| - 1]; }
      }
    }
    NoneFound(s, IsExponentMark);
    IndexWhereAt(w, "." + f, IsPoint);
    assert s[..|w|] == w && s[|w| + 1..] == f;
  }

  lemma MantissaOfSplit(m: string, w: string, f: string)
    requires SplitAtPoint(m) == (w, f)
    requires AllDigits(w) && AllDigits(f) && |w| + |f| >= 1
    ensures ParseMantissa(m) == Some(DigitsValue(w) as real + Fraction(f))
  {
  }

  /** `float(s)` of an unsigned literal without an exponent is the value of its mantissa. */
  lemma ParseFloatOfMantissa(s: string, x: real)
    requires |s| >= 1 && !IsSign(s[0])
    requires IndexWhere(s, IsExponentMark) == |s| && ParseMantissa(s) == Some(x)
    ensures ParseFloat(s) == Some(x)
  {
    assert s[..|s|] == s;
    ScaleByOne(x);
  }

  lemma ScaleByOne(x: real)
    ensures Scale(x, 0) == x
  {
    assert Pow10(0) == 1;
  }
}
