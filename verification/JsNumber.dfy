/**
  JavaScript numbers as the client uses them: `Number(text)`, `Number.isFinite`,
  and `String(id)`. Values are exact: rounding to binary64 is not modelled.
 */
module JsNumber {
  import opened Wrappers
  import opened JsText

  /** A safe integer: the only numbers used as portfolio ids. */
  type Id = n: int | -MAX_SAFE <= n <= MAX_SAFE witness 0

  const MAX_SAFE := 0x1F_FFFF_FFFF_FFFF

  /** A finite number: an integer, or `coef / 10^places` with no trailing zero. */
  datatype Num = Int(n: int) | Frac(coef: int, places: nat)

  /** Numbers as `ToNumber` yields them: a fraction has no trailing zero. */
  predicate Proper(n: Num) {
    n.Frac? ==> n.places > 0 && n.coef % 10 != 0
  }

  /** `coef / 10^places`, with trailing zeros removed. */
  function Normal(coef: int, places: nat): (r: Num)
    ensures Proper(r)
    decreases places
  {
    if places == 0 then Int(coef)
    else if coef % 10 == 0 then Normal(coef / 10, places - 1)
    else Frac(coef, places)
  }

  predicate Positive(n: Num) {
    match n case Int(i) => i > 0 case Frac(coef, _) => coef > 0
  }

  // ---- String(id) ----

  function Digits(n: nat): (s: string)
    ensures s != "" && forall c | c in s :: IsDigit(c)
  {
    var last := [('0' as int + n % 10) as char];
    if n < 10 then last else Digits(n / 10) + last
  }

  /** `String(n)` for a safe integer. */
  function Decimal(n: int): string {
    if n < 0 then "-" + Digits(-n) else Digits(n)
  }

  predicate IsDigit(c: char) { '0' <= c <= '9' }

  // ---- Number(text), StringToNumber of section 7.1.4.1.1 of ECMA-262 ----

  /** The number of leading decimal digits of `s`. */
  function DigitRun(s: string): (k: nat)
    ensures k <= |s| && (forall i | 0 <= i < k :: IsDigit(s[i])) && (k < |s| ==> !IsDigit(s[k]))
  {
    if s != "" && IsDigit(s[0]) then 1 + DigitRun(s[1..]) else 0
  }

  function DigitValue(c: char): int {
    if '0' <= c <= '9' then c as int - '0' as int
    else if 'a' <= c <= 'z' then c as int - 'a' as int + 10
    else if 'A' <= c <= 'Z' then c as int - 'A' as int + 10
    else 99
  }

  function Times(v: int, radix: nat): int {
    if radix == 16 then 16 * v else if radix == 8 then 8 * v else if radix == 2 then 2 * v else 10 * v
  }

  function Value(s: string, radix: nat): int {
    if s == "" then 0 else Times(Value(s[..|s| - 1], radix), radix) + DigitValue(s[|s| - 1])
  }

  function Shift(v: int, e: nat): int
    decreases e
  {
    if e == 0 then v else Shift(10 * v, e - 1)
  }

  /** `v * 10^e`. */
  function Scale(v: int, e: int): Num {
    if e >= 0 then Int(Shift(v, e)) else Normal(v, -e)
  }

  function Negate(n: Num): Num {
    match n case Int(i) => Int(-i) case Frac(coef, places) => Frac(-coef, places)
  }

  /** The exponent part `e[+-]digits`, or nothing; `None` when malformed. */
  function Exponent(s: string): Option<int> {
    if s == "" then Some(0)
    else if (s[0] != 'e' && s[0] != 'E') || |s| == 1 then None
    else
      var signed := s[1] == '+' || s[1] == '-';
      var body := if signed then s[2..] else s[1..];
      if body == "" || DigitRun(body) < |body| then None
      else Some(if s[1] == '-' then -Value(body, 10) else Value(body, 10))
  }

  /** StrUnsignedDecimalLiteral without `Infinity`: digits with an optional point and exponent. */
  function Unsigned(s: string): Option<Num> {
    var k := DigitRun(s);
    var point := k < |s| && s[k] == '.';
    var rest := if point then s[k + 1..] else s[k..];
    var f := if point then DigitRun(rest) else 0;
    if k + f == 0 then None
    else match Exponent(rest[f..])
      case None => None
      case Some(e) => Some(Scale(Value(s[..k] + rest[..f], 10), e - f))
  }

  predicate InRadix(s: string, radix: nat) {
    s != "" && forall c | c in s :: DigitValue(c) < radix
  }

  function Radix(c: char): nat {
    if c == 'x' || c == 'X' then 16
    else if c == 'o' || c == 'O' then 8
    else if c == 'b' || c == 'B' then 2
    else 0
  }

  /** `Number(text)`, or `None` when it is NaN or not finite. */
  function ToNumber(text: string): Option<Num> {
    Read(Trim(text))
  }

  function Read(s: string): Option<Num> {
    if s == "" then Some(Int(0))
    else if |s| > 2 && s[0] == '0' && Radix(s[1]) > 0 then
      if InRadix(s[2..], Radix(s[1])) then Some(Int(Value(s[2..], Radix(s[1])))) else None
    else
      var body := if s[0] == '+' || s[0] == '-' then s[1..] else s;
      match Unsigned(body)
      case None => None
      case Some(v) => Some(if s[0] == '-' then Negate(v) else v)
  }

  // ---- the round trip ----

  lemma {:induction false} DigitsRead(n: nat)
    ensures Value(Digits(n), 10) == n
  {
    if n >= 10 {
      DigitsRead(n / 10);
    }
  }

  lemma {:induction false} AllDigits(s: string)
    requires forall c | c in s :: IsDigit(c)
    ensures DigitRun(s) == |s|
  {
    if s != "" {
      assert s[0] in s;
      AllDigits(s[1..]);
    }
  }

  lemma UnsignedDigits(n: nat)
    ensures Unsigned(Digits(n)) == Some(Int(n))
  {
    var s := Digits(n);
    AllDigits(s);
    DigitsRead(n);
    assert s[..|s|] + "" == s;
    assert s[|s|..][0..] == "";
  }

  lemma DigitsPlain(n: nat)
    ensures var s := Digits(n); IsDigit(s[0]) && IsDigit(s[|s| - 1]) && (|s| > 1 ==> IsDigit(s[1]))
  {
    var s := Digits(n);
    assert s[0] in s && s[|s| - 1] in s && (|s| > 1 ==> s[1] in s);
  }

  lemma ReadSigned(negative: bool, body: string, v: Num)
    requires body != "" && IsDigit(body[0]) && (|body| > 1 ==> Radix(body[1]) == 0)
    requires Unsigned(body) == Some(v)
    ensures Read(if negative then "-" + body else body) == Some(if negative then Negate(v) else v)
  {
    var s := if negative then "-" + body else body;
    assert (if s[0] == '+' || s[0] == '-' then s[1..] else s) == body;
  }

  lemma TrimmedReads(s: string, v: Num)
    requires s != "" && !IsSpace(s[0]) && !IsSpace(s[|s| - 1]) && Read(s) == Some(v)
    ensures ToNumber(s) == Some(v)
  {
    hide Read;
    hide Trim;
    TrimFixed(s);
  }

  lemma IntegerReads(n: int)
    ensures ToNumber(Decimal(n)) == Some(Int(n))
  {
    hide ToNumber;
    hide Read;
    hide Unsigned;
    var abs: nat := if n < 0 then -n else n;
    DigitsPlain(abs);
    UnsignedDigits(abs);
    ReadSigned(n < 0, Digits(abs), Int(abs));
    TrimmedReads(Decimal(n), Int(n));
  }

  /** What `String` writes for an id, `Number` reads back. */
  lemma RoundTrip(n: Id)
    ensures ToNumber(Decimal(n)) == Some(Int(n))
  {
    IntegerReads(n);
  }

  /** `String` is injective on ids. */
  lemma DecimalInjective(a: Id, b: Id)
    requires Decimal(a) == Decimal(b)
    ensures a == b
  {
    RoundTrip(a);
    RoundTrip(b);
  }

  /** Whatever text is read, the number is proper. */
  lemma ReadsProper(text: string)
    ensures ToNumber(text).Some? ==> Proper(ToNumber(text).value)
  {
    hide Trim;
    hide DigitRun;
    hide Value;
    hide Exponent;
  }

  // ---- String(n), section 6.1.6.1.20 of ECMA-262 ----

  function Zeros(n: nat): string {
    if n == 0 then "" else Zeros(n - 1) + "0"
  }

  /** The digits without trailing zeros. */
  function Stripped(ds: string): (s: string)
    ensures ds != "" ==> s != ""
  {
    if |ds| > 1 && ds[|ds| - 1] == '0' then Stripped(ds[..|ds| - 1]) else ds
  }

  /** Scientific notation of the digits `ds` with the point after digit `n`. */
  function Scientific(ds: string, n: int): string
    requires ds != ""
  {
    (if |ds| == 1 then ds else ds[..1] + "." + ds[1..])
    + if n > 0 then "e+" + Digits(n - 1) else "e-" + Digits(1 - n)
  }

  /** The digits `ds`, the last `places` of them behind the point. */
  function Pointed(ds: string, places: nat): string
    requires ds != ""
  {
    var n: int := |ds| - places;
    if 0 < n <= 21 then ds[..n] + "." + ds[n..]
    else if -6 < n <= 0 then "0" + "." + (Zeros(-n) + ds)
    else Scientific(ds, n)
  }

  function Unsigned10(n: Num): string {
    match n
    case Int(i) =>
      var ds := Digits(if i < 0 then -i else i);
      if |ds| <= 21 then ds else Scientific(Stripped(ds), |ds|)
    case Frac(coef, places) => Pointed(Digits(if coef < 0 then -coef else coef), places)
  }

  predicate Negative(n: Num) {
    match n case Int(i) => i < 0 case Frac(coef, _) => coef < 0
  }

  /** `String(n)`. */
  function NumText(n: Num): string {
    if Negative(n) then "-" + Unsigned10(n) else Unsigned10(n)
  }

  lemma {:induction false} DigitsThen(ds: string, rest: string)
    requires forall c | c in ds :: IsDigit(c)
    requires rest == "" || !IsDigit(rest[0])
    ensures DigitRun(ds + rest) == |ds|
  {
    if ds == "" {
      assert ds + rest == rest;
    } else {
      assert ds[0] in ds && (ds + rest)[1..] == ds[1..] + rest;
      DigitsThen(ds[1..], rest);
    }
  }

  /** What may follow the digits of a numeral. */
  ghost predicate Tail(tail: string, e: int) {
    Exponent(tail) == Some(e) && (tail == "" || !IsDigit(tail[0])) && (tail != "" ==> tail[0] != '.')
  }

  lemma ExponentTail(negative: bool, n: nat)
    ensures Tail((if negative then "e-" else "e+") + Digits(n), if negative then -(n as int) else n as int)
  {
    hide Value;
    hide DigitRun;
    var es := Digits(n);
    var s := (if negative then "e-" else "e+") + es;
    AllDigits(es);
    DigitsRead(n);
    assert s[0] == 'e' && s[1] == (if negative then '-' else '+') && s[2..] == es;
  }

  lemma UnsignedWhole(ds: string, tail: string, e: int)
    requires ds != "" && (forall c | c in ds :: IsDigit(c)) && Tail(tail, e)
    ensures Unsigned(ds + tail) == Some(Scale(Value(ds, 10), e))
  {
    hide Exponent;
    hide Scale;
    hide Value;
    DigitsThen(ds, tail);
    var s := ds + tail;
    assert s[|ds|..] == tail && s[..|ds|] == ds && tail[0..] == tail && ds + tail[..0] == ds;
  }

  lemma PointedRuns(a: string, b: string, tail: string, e: int)
    requires (forall c | c in a :: IsDigit(c)) && (forall c | c in b :: IsDigit(c)) && Tail(tail, e)
    ensures
      var s := a + ("." + (b + tail));
      DigitRun(s) == |a| && DigitRun(b + tail) == |b| && s[|a|] == '.' && s[..|a|] == a && s[|a| + 1..] == b + tail
  {
    hide Exponent;
    DigitsThen(a, "." + (b + tail));
    DigitsThen(b, tail);
  }

  lemma UnsignedBy(s: string, k: nat, f: nat, e: int)
    requires k == DigitRun(s) && k < |s| && s[k] == '.' && f == DigitRun(s[k + 1..]) && k + f > 0
    requires Exponent(s[k + 1..][f..]) == Some(e)
    ensures Unsigned(s) == Some(Scale(Value(s[..k] + s[k + 1..][..f], 10), e - f))
  {
    hide Exponent;
    hide Scale;
    hide Value;
    hide DigitRun;
    hide IsDigit;
    var rest := s[k + 1..];
    assert DigitRun(s) == k && DigitRun(rest) == f;
  }

  lemma UnsignedPointed(a: string, b: string, tail: string, e: int)
    requires a != "" && (forall c | c in a :: IsDigit(c)) && (forall c | c in b :: IsDigit(c)) && Tail(tail, e)
    ensures Unsigned(a + "." + b + tail) == Some(Scale(Value(a + b, 10), e - |b|))
  {
    hide Unsigned;
    hide Exponent;
    hide Scale;
    hide Value;
    hide DigitRun;
    hide IsDigit;
    var s, rest := a + ("." + (b + tail)), b + tail;
    assert a + "." + b + tail == s;
    PointedRuns(a, b, tail, e);
    assert rest[|b|..] == tail;
    UnsignedBy(s, |a|, |b|, e);
    assert rest[..|b|] == b;
  }

  lemma ScientificReads(ds: string, n: int)
    requires ds != "" && forall c | c in ds :: IsDigit(c)
    ensures Unsigned(Scientific(ds, n)) == Some(Scale(Value(ds, 10), n - |ds|))
  {
    hide Unsigned;
    hide Scale;
    hide Value;
    hide Tail;
    ExponentTail(n <= 0, if n > 0 then n - 1 else 1 - n);
    var tail := if n > 0 then "e+" + Digits(n - 1) else "e-" + Digits(1 - n);
    if |ds| == 1 {
      UnsignedWhole(ds, tail, n - 1);
    } else {
      UnsignedPointed(ds[..1], ds[1..], tail, n - 1);
      assert ds[..1] + ds[1..] == ds;
    }
  }

  lemma {:induction false} ZerosLength(n: nat)
    ensures |Zeros(n)| == n && forall c | c in Zeros(n) :: IsDigit(c)
  {
    if n > 0 {
      ZerosLength(n - 1);
    }
  }

  lemma {:induction false} LeadingZeros(n: nat, ds: string)
    ensures Value(Zeros(n) + ds, 10) == Value(ds, 10)
    decreases n, |ds|
  {
    var s := Zeros(n) + ds;
    if ds != "" {
      assert s[..|s| - 1] == Zeros(n) + ds[..|ds| - 1];
      LeadingZeros(n, ds[..|ds| - 1]);
    } else if n > 0 {
      assert s == Zeros(n - 1) + "0" && s[..|s| - 1] == Zeros(n - 1) == Zeros(n - 1) + "";
      LeadingZeros(n - 1, "");
    } else {
      assert s == "";
    }
  }

  lemma InnerPointReads(ds: string, n: nat)
    requires 0 < n <= |ds| && forall c | c in ds :: IsDigit(c)
    ensures Unsigned(ds[..n] + "." + ds[n..]) == Some(Scale(Value(ds, 10), n - |ds|))
  {
    hide Unsigned;
    hide Scale;
    hide Value;
    assert Tail("", 0);
    hide Tail;
    UnsignedPointed(ds[..n], ds[n..], "", 0);
    assert ds[..n] + ds[n..] == ds && ds[..n] + "." + ds[n..] + "" == ds[..n] + "." + ds[n..];
  }

  lemma LeadingPointReads(ds: string, z: nat)
    requires forall c | c in ds :: IsDigit(c)
    ensures Unsigned("0" + "." + (Zeros(z) + ds)) == Some(Scale(Value(ds, 10), -(|ds| + z)))
  {
    hide Unsigned;
    hide Scale;
    hide Value;
    assert Tail("", 0);
    hide Tail;
    ZerosLength(z);
    ZerosFront(z + 1);
    LeadingZeros(z + 1, ds);
    var b := Zeros(z) + ds;
    UnsignedPointed("0", b, "", 0);
    assert "0" + b == Zeros(z + 1) + ds && "0" + "." + b + "" == "0" + "." + b;
  }

  lemma PointedReads(ds: string, places: nat)
    requires ds != "" && (forall c | c in ds :: IsDigit(c)) && places > 0
    ensures Unsigned(Pointed(ds, places)) == Some(Scale(Value(ds, 10), -(places as int)))
  {
    hide Unsigned;
    hide Scale;
    hide Scientific;
    hide Value;
    hide Zeros;
    var n: int := |ds| - places;
    if 0 < n <= 21 {
      InnerPointReads(ds, n);
    } else if -6 < n <= 0 {
      LeadingPointReads(ds, -n);
    } else {
      ScientificReads(ds, n);
    }
  }

  lemma {:induction false} TrailingZeros(ds: string, z: nat)
    ensures Value(ds + Zeros(z), 10) == Shift(Value(ds, 10), z)
    decreases z
  {
    if z == 0 {
      assert ds + "" == ds;
    } else {
      ZerosFront(z);
      assert ds + Zeros(z) == (ds + "0") + Zeros(z - 1);
      TrailingZeros(ds + "0", z - 1);
      assert (ds + "0")[..|ds|] == ds;
    }
  }

  lemma {:induction false} ZerosFront(z: nat)
    requires z > 0
    ensures Zeros(z) == "0" + Zeros(z - 1)
  {
    if z > 1 {
      ZerosFront(z - 1);
    }
  }

  lemma {:induction false} StrippedZeros(ds: string)
    requires ds != ""
    ensures var s := Stripped(ds); 0 < |s| <= |ds| && ds == s + Zeros(|ds| - |s|) && s[0] == ds[0]
  {
    if |ds| > 1 && ds[|ds| - 1] == '0' {
      var front := ds[..|ds| - 1];
      StrippedZeros(front);
      var s := Stripped(ds);
      assert ds == front + "0" == s + (Zeros(|front| - |s|) + "0");
    } else {
      assert ds + "" == ds;
    }
  }

  lemma BigReads(ds: string)
    requires ds != "" && forall c | c in ds :: IsDigit(c)
    ensures Unsigned(Scientific(Stripped(ds), |ds|)) == Some(Int(Value(ds, 10)))
  {
    hide Unsigned;
    hide Value;
    hide Scientific;
    StrippedZeros(ds);
    var s := Stripped(ds);
    assert forall c | c in s :: c in ds;
    ScientificReads(s, |ds|);
    TrailingZeros(s, |ds| - |s|);
  }

  lemma Unsigned10Reads(n: Num)
    requires Proper(n)
    ensures Unsigned(Unsigned10(n)) == Some(if Negative(n) then Negate(n) else n)
  {
    hide Unsigned;
    hide Value;
    hide Scientific;
    hide Pointed;
    match n
    case Int(i) =>
      var abs: nat := if i < 0 then -i else i;
      DigitsRead(abs);
      if |Digits(abs)| <= 21 {
        UnsignedDigits(abs);
      } else {
        BigReads(Digits(abs));
      }
    case Frac(coef, places) =>
      var abs: nat := if coef < 0 then -coef else coef;
      DigitsRead(abs);
      PointedReads(Digits(abs), places);
  }

  /** A text without a sign or a radix prefix, as every numeral begins and ends. */
  predicate NumeralEnds(s: string) {
    s != "" && IsDigit(s[0]) && IsDigit(s[|s| - 1]) && (|s| > 1 ==> Radix(s[1]) == 0)
  }

  lemma ScientificEnds(ds: string, n: int)
    requires ds != "" && forall c | c in ds :: IsDigit(c)
    ensures NumeralEnds(Scientific(ds, n))
  {
    DigitsPlain(if n > 0 then n - 1 else 1 - n);
    assert ds[0] in ds;
    if |ds| > 1 {
      assert Scientific(ds, n)[1] == '.';
    }
  }

  lemma PointedEnds(ds: string, places: nat)
    requires ds != "" && (forall c | c in ds :: IsDigit(c)) && places > 0
    ensures NumeralEnds(Pointed(ds, places))
  {
    hide Scientific;
    var n: int := |ds| - places;
    assert ds[0] in ds && ds[|ds| - 1] in ds && (|ds| > 1 ==> ds[1] in ds);
    if !(-6 < n <= 21) {
      ScientificEnds(ds, n);
    }
  }

  lemma Unsigned10Ends(n: Num)
    requires Proper(n)
    ensures NumeralEnds(Unsigned10(n))
  {
    hide Scientific;
    hide Pointed;
    match n
    case Int(i) =>
      var abs: nat := if i < 0 then -i else i;
      DigitsPlain(abs);
      if |Digits(abs)| > 21 {
        StrippedZeros(Digits(abs));
        assert forall c | c in Stripped(Digits(abs)) :: c in Digits(abs);
        ScientificEnds(Stripped(Digits(abs)), |Digits(abs)|);
      }
    case Frac(coef, places) => PointedEnds(Digits(if coef < 0 then -coef else coef), places);
  }

  /** What `String` writes for any number, `Number` reads back. */
  lemma NumTextReads(n: Num)
    requires Proper(n)
    ensures ToNumber(NumText(n)) == Some(n) && NumText(n) != ""
  {
    hide ToNumber;
    hide Read;
    hide Unsigned;
    hide Unsigned10;
    Unsigned10Reads(n);
    Unsigned10Ends(n);
    ReadSigned(Negative(n), Unsigned10(n), if Negative(n) then Negate(n) else n);
    TrimmedReads(NumText(n), n);
  }
}
