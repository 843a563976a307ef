/** What a scalar line says, in plain terms (src/services/WorkflowLoader.ts:197-219). */
module WorkflowScalars {
  import opened Wrappers
  import opened Texts
  import opened WorkflowText
  import opened WorkflowLoader
  import opened WorkflowLayout
  import opened WorkflowImage

  // ----- Numbers -----

  predicate Numerals(s: string) {
    s != "" && forall i :: 0 <= i < |s| ==> '0' <= s[i] <= '9'
  }

  /** An optional minus, digits and, with a fraction, a point and digits. */
  ghost predicate IsNumber(s: string, sign: string, digits: string, fraction: Option<string>) {
    && (sign == "" || sign == "-") && Numerals(digits)
    && match fraction
       case None => s == sign + digits
       case Some(f) => Numerals(f) && s == sign + (digits + ("." + f))
  }

  ghost predicate LooksLikeNumber(s: string) {
    exists sign, digits, fraction :: IsNumber(s, sign, digits, fraction)
  }

  lemma NumberIsRead(s: string, sign: string, digits: string, fraction: Option<string>)
    requires IsNumber(s, sign, digits, fraction)
    ensures Unsigned(s) == s[|sign|..]
    ensures fraction.None? ==> IsInteger(s) && Unsigned(s) == digits
    ensures fraction.Some? ==> IsFraction(s) && !IsInteger(s)
  {
    var u := s[|sign|..];
    assert s[0] == if sign == "-" then '-' else digits[0];
    if fraction.None? {
      assert u == digits;
    } else {
      assert u == digits + ['.'] + fraction.value;
      assert '.' !in digits;
      IndexOfFirst(digits, '.', fraction.value);
      assert u[..|digits|] == digits && u[|digits| + 1..] == fraction.value;
      assert u[|digits|] == '.';
    }
  }

  lemma SignSplits(s: string) returns (sign: string)
    requires s != ""
    ensures (sign == "" || sign == "-") && s == sign + Unsigned(s)
  {
    sign := if s[0] == '-' then "-" else "";
  }

  lemma IntegerIsNumber(s: string)
    requires IsInteger(s)
    ensures LooksLikeNumber(s)
  {
    var sign := SignSplits(s);
    assert IsNumber(s, sign, Unsigned(s), None);
  }

  lemma FractionIsNumber(s: string)
    requires IsFraction(s)
    ensures LooksLikeNumber(s)
  {
    var sign := SignSplits(s);
    var u := Unsigned(s);
    var dot := IndexOf(u, '.');
    PointSplits(u, dot);
    MakesNumber(s, sign, u, u[..dot], u[dot + 1..]);
  }

  lemma MakesNumber(s: string, sign: string, u: string, digits: string, fraction: string)
    requires (sign == "" || sign == "-") && Numerals(digits) && Numerals(fraction)
    requires s == sign + u && u == digits + ("." + fraction)
    ensures LooksLikeNumber(s)
  {
    assert IsNumber(s, sign, digits, Some(fraction));
  }

  lemma PointSplits(u: string, dot: nat)
    requires dot < |u| && u[dot] == '.'
    ensures u == u[..dot] + ("." + u[dot + 1..])
  {
  }

  /** The parser's patterns for numbers, in these terms. */
  lemma NumberIff(s: string)
    ensures LooksLikeNumber(s) <==> IsInteger(s) || IsFraction(s)
  {
    if IsInteger(s) { IntegerIsNumber(s); }
    if IsFraction(s) { FractionIsNumber(s); }
    if LooksLikeNumber(s) {
      var sign, digits, fraction :| IsNumber(s, sign, digits, fraction);
      NumberIsRead(s, sign, digits, fraction);
    }
  }

  // ----- Scalar lines -----

  /** `k: s` */
  function ScalarLine(key: string, s: string): string {
    key + ":" + (" " + s)
  }

  /** A line of one plain key and one scalar, which the comment rule leaves alone. */
  ghost predicate IsPlainText(key: string, s: string) {
    && KeyOk(key) && Unbroken(key) && Unbroken(s) && Trim(s) == s && s != "" && !Bracketed(s)
    && StripComment(ScalarLine(key, s)) == ScalarLine(key, s)
  }

  /** The same, bound, so that it is not unfolded where it is passed on. */
  ghost predicate IsPlain(key: string, s: string) {
    forall x :: x == s ==> IsPlainText(key, x)
  }

  /** The line says that the key has this value. */
  ghost predicate Says(key: string, s: string, v: Value) {
    Parse(ScalarLine(key, s)) == Ok(Obj(map[key := v]))
  }

  lemma LineSays(key: string, s: string)
    requires IsPlain(key, s)
    ensures Says(key, s, ParseScalar(s))
  {
    var e := Entry(key, Leaf(s), "");
    assert IsPlainText(key, s);
    assert Head(e) + "" == Head(e) == ScalarLine(key, s);
    OneEntryParses(e);
  }

  lemma SaysOne(key: string, s: string, v: Value)
    requires IsPlain(key, s)
    ensures Says(key, s, v) <==> v == ParseScalar(s)
  {
    LineSays(key, s);
    assert map[key := v][key] == v && map[key := ParseScalar(s)][key] == ParseScalar(s);
  }

  predicate InQuotes(s: string) {
    s != "" && s[0] in {'\'', '"'} && s[|s| - 1] == s[0]
  }

  lemma ReadsItselfIff(s: string)
    requires s != ""
    ensures ParseScalar(s) == Str(s) <==> s !in {"~", "null", "true", "false"} && !LooksLikeNumber(s) && !InQuotes(s)
  {
    NumberIff(s);
    if InQuotes(s) && |s| >= 2 { assert |s[1..|s| - 1]| < |s|; }
  }

  /** Bare text is itself unless it is a null, a boolean, a number or in quotes. */
  lemma BareTextIsItselfIff(key: string, s: string)
    requires IsPlain(key, s)
    ensures Says(key, s, Str(s)) <==> s !in {"~", "null", "true", "false"} && !LooksLikeNumber(s) && !InQuotes(s)
  {
    assert IsPlainText(key, s);
    SaysOne(key, s, Str(s));
    ReadsItselfIff(s);
  }

  /** Text in quotes, of either kind, is what is inside. */
  lemma QuotedTextIsInside(key: string, q: char, s: string)
    requires q in {'\'', '"'} && IsPlain(key, [q] + s + [q])
    ensures Says(key, [q] + s + [q], Str(s))
  {
    var t := [q] + s + [q];
    assert t[0] == q && t[|t| - 1] == q && t[1..|t| - 1] == s;
    LineSays(key, t);
    if IsInteger(t) || IsFraction(t) { DigitStart(t); }
  }

  /** The words that are no text. */
  lemma WordsSay(key: string, s: string)
    requires IsPlain(key, s)
    ensures Says(key, s, Null) <==> s == "~" || s == "null"
    ensures Says(key, s, Bool(true)) <==> s == "true"
    ensures Says(key, s, Bool(false)) <==> s == "false"
  {
    assert IsPlainText(key, s);
    SaysOne(key, s, Null);
    SaysOne(key, s, Bool(true));
    SaysOne(key, s, Bool(false));
    NotWords(s);
  }

  lemma NotWords(s: string)
    ensures s == "~" || s == "null" || s == "true" || s == "false" ==> !IsInteger(s) && !IsFraction(s)
  {
    if IsInteger(s) || IsFraction(s) { DigitStart(s); }
  }

  function Zeros(n: nat): string {
    if n == 0 then "" else "0" + Zeros(n - 1)
  }

  lemma {:induction false} FirstDigitCounts(d: string)
    requires Numerals(d)
    ensures Numerals("0" + d) && ValueOf("0" + d) == ValueOf(d)
  {
    var z := "0" + d;
    assert z[..|z| - 1] == "0" + d[..|d| - 1];
    if |d| > 1 {
      FirstDigitCounts(d[..|d| - 1]);
    } else {
      assert d[..0] == "" && "0"[..0] == "" && ValueOf("0") == 0;
    }
  }

  lemma {:induction false} ZerosDoNotCount(k: nat, n: nat)
    ensures Numerals(Zeros(k) + Digits(n)) && ValueOf(Zeros(k) + Digits(n)) == n
  {
    DigitsValue(n);
    if k > 0 {
      ZerosDoNotCount(k - 1, n);
      FirstDigitCounts(Zeros(k - 1) + Digits(n));
      Regroup("0", Zeros(k - 1), Digits(n));
    } else {
      assert "" + Digits(n) == Digits(n);
    }
  }

  lemma ReadsInteger(s: string, sign: string, digits: string)
    requires IsNumber(s, sign, digits, None)
    ensures ParseScalar(s) == Int(if sign == "-" then 0 - ValueOf(digits) else ValueOf(digits))
  {
    NumberIsRead(s, sign, digits, None);
    NotWords(s);
    assert s[0] == if sign == "-" then '-' else digits[0];
  }

  lemma ReadsDecimal(sign: string, zeros: nat, n: nat)
    requires sign == "" || sign == "-"
    ensures var value: int := n;
            ParseScalar(sign + (Zeros(zeros) + Digits(n))) == Int(if sign == "-" then -value else value)
  {
    var digits := Zeros(zeros) + Digits(n);
    ZerosDoNotCount(zeros, n);
    assert IsNumber(sign + digits, sign, digits, None);
    ReadsInteger(sign + digits, sign, digits);
  }

  /** An integer is its decimal value, leading zeros and a minus sign included. */
  lemma IntegerSays(key: string, sign: string, zeros: nat, n: nat)
    requires (sign == "" || sign == "-") && IsPlain(key, sign + (Zeros(zeros) + Digits(n)))
    ensures var value: int := n;
            Says(key, sign + (Zeros(zeros) + Digits(n)), Int(if sign == "-" then -value else value))
  {
    ReadsDecimal(sign, zeros, n);
    LineSays(key, sign + (Zeros(zeros) + Digits(n)));
  }

  /** A decimal fraction is kept as it is written. */
  lemma FractionSays(key: string, s: string, sign: string, digits: string, fraction: string)
    requires IsPlain(key, s) && IsNumber(s, sign, digits, Some(fraction))
    ensures Says(key, s, Dec(s))
  {
    NumberIsRead(s, sign, digits, Some(fraction));
    LineSays(key, s);
    NotWords(s);
  }
}
