/** pkg/nano: exact XNO amounts as integers of raw units, 1 XNO = 10^30 raw.
  * This module holds the arithmetic; the heap of big integers that carries it
  * is in Amounts. */
module Nano {
  import opened Prelude
  import opened Decimal
  import Text

  const DECIMALS: nat := 30
  const RAW_PER_XNO: nat := 1_000_000_000_000_000_000_000_000_000_000
  const TOKENS_PER_M: nat := 1_000_000

  datatype ParseError = Malformed

  lemma RawPerXno(n: nat)
    requires n == DECIMALS
    ensures Pow10(n) == RAW_PER_XNO
  {
    assert Pow10(5) == 100_000;
    PowPlus(5, 5);
    PowPlus(10, 10);
    PowPlus(20, 10);
  }

  /** 10^30 split at any digit. */
  lemma SplitScale(k: nat)
    requires k <= DECIMALS
    ensures Pow10(DECIMALS - k) * Pow10(k) == RAW_PER_XNO
  {
    var n := DECIMALS - k + k;
    PowPlus(DECIMALS - k, k);
    RawPerXno(n);
  }

  // ---------------------------------------------------------------- parsing

  predicate IsDot(c: char) { c == '.' }

  function IntPart(u: string): string {
    var dot := Text.Index(u, '.');
    if dot >= 0 then u[..dot] else u
  }

  function FracPart(u: string): string {
    var dot := Text.Index(u, '.');
    if dot >= 0 then u[dot + 1..] else ""
  }

  predicate WellFormed(u: string) {
    && '.' !in FracPart(u)
    && Text.Trim(u, IsDot) != ""
    && AllDigits(IntPart(u)) && AllDigits(FracPart(u))
    && |FracPart(u)| <= DECIMALS
  }

  function Worth(i: string, f: string): nat
    requires AllDigits(i) && AllDigits(f) && |f| <= DECIMALS
  {
    Value(i) * RAW_PER_XNO + Value(f) * Pow10(DECIMALS - |f|)
  }

  /** The part after the sign: digits with at most one dot. */
  function ParseUnsigned(u: string): Result<nat, ParseError> {
    if WellFormed(u) then Ok(Worth(IntPart(u), FracPart(u))) else Err(Malformed)
  }

  /** parseDecimal, and with it ParseXNO: what the accepted string is worth. */
  function ParseXNO(s: string): Result<nat, ParseError> {
    var t := Text.TrimSpace(s);
    if t == "" || t[0] == '-' then Err(Malformed)
    else ParseUnsigned(if t[0] == '+' then t[1..] else t)
  }

  /** A numeral in the everyday sense: digits, optionally a point and more digits,
    * at least one digit in all and no more than thirty after the point. */
  ghost predicate IsNumeral(u: string, i: string, f: string) {
    && (u == i + "." + f || (f == "" && u == i))
    && AllDigits(i) && AllDigits(f) && i + f != "" && |f| <= 30
  }

  /** `raw` is the exact worth of the numeral i.f: i.f * 10^30, free of fractions. */
  ghost predicate WorthOf(raw: nat, i: string, f: string)
    requires AllDigits(i) && AllDigits(f)
  {
    raw * Pow10(|f|) == Value(i + f) * 1_000_000_000_000_000_000_000_000_000_000
  }

  ghost predicate Denotes(s: string, raw: nat) {
    var t := Text.TrimSpace(s);
    exists i, f :: (IsNumeral(t, i, f) || (t != "" && t[0] == '+' && IsNumeral(t[1..], i, f))) && WorthOf(raw, i, f)
  }

  lemma WorthIsSum(i: string, f: string, raw: nat)
    requires AllDigits(i) && AllDigits(f) && |f| <= DECIMALS
    ensures WorthOf(raw, i, f) <==> raw == Worth(i, f)
  {
    SplitScale(|f|);
    ValueConcat(i, f);
    Regroup(Value(i), Value(f), Pow10(|f|), Pow10(DECIMALS - |f|), raw);
  }

  lemma Regroup(i: nat, f: nat, p: nat, q: nat, raw: nat)
    requires p > 0
    ensures raw * p == (i * p + f) * (q * p) <==> raw == i * (q * p) + f * q
  {
    var sum := i * (q * p) + f * q;
    RegroupSum(i, f, p, q);
    if raw * p == sum * p { CancelFactor(raw, sum, p); }
  }

  lemma RegroupSum(i: nat, f: nat, p: nat, q: nat)
    ensures (i * (q * p) + f * q) * p == (i * p + f) * (q * p)
  {
    var m := q * p;
    assert (i * m) * p == (i * p) * m;
    assert (f * q) * p == f * m;
  }

  lemma CancelFactor(a: nat, b: nat, p: nat)
    requires p > 0 && a * p == b * p
    ensures a == b
  {
    assert (a - b) * p == 0;
  }

  lemma NumeralParts(u: string, i: string, f: string)
    requires IsNumeral(u, i, f)
    ensures IntPart(u) == i && FracPart(u) == f
    ensures '.' in u <==> u == i + "." + f
  {
    var dot := Text.Index(u, '.');
    assert '.' !in i && '.' !in f;
    if u == i + "." + f {
      assert u[|i|] == '.';
      forall k | 0 <= k < dot ensures u[k] != '.' { assert u[k] == u[..dot][k]; }
      assert forall k :: 0 <= k < |i| ==> u[k] == i[k];
    } else {
      assert u == i;
    }
  }

  lemma NumeralIsWellFormed(u: string, i: string, f: string)
    requires IsNumeral(u, i, f)
    ensures WellFormed(u)
  {
    NumeralParts(u, i, f);
    assert '.' !in f;
    var d := if i != "" then 0 else |u| - 1;
    assert IsDigit(u[d]);
    KeepsNonDot(u, d);
  }

  lemma KeepsNonDot(u: string, d: nat)
    requires d < |u| && u[d] != '.'
    ensures Text.Trim(u, IsDot) != ""
  {
    var t := Text.TrimLeft(u, IsDot);
    assert t != "" && !IsDot(t[0]);
  }

  lemma DotsAlone(u: string)
    requires u == "" || u == "."
    ensures Text.Trim(u, IsDot) == ""
  {
    assert "."[1..] == "";
    assert Text.TrimLeft(u, IsDot) == "";
  }

  lemma NotJustDots(u: string)
    requires WellFormed(u)
    ensures u != "" && u != "."
  {
    if u == "" || u == "." { DotsAlone(u); }
  }

  lemma PartsRejoin(u: string)
    ensures u == if '.' in u then IntPart(u) + "." + FracPart(u) else IntPart(u)
  {
  }

  lemma PartsAreNumeral(u: string)
    requires AllDigits(IntPart(u)) && AllDigits(FracPart(u)) && |FracPart(u)| <= DECIMALS
    requires u != "" && u != "."
    ensures IsNumeral(u, IntPart(u), FracPart(u))
  {
    var i, f := IntPart(u), FracPart(u);
    PartsRejoin(u);
    assert i != "" || f != "";
  }

  lemma UnsignedIsNumeral(u: string, raw: nat)
    ensures ParseUnsigned(u) == Ok(raw) <==> exists i, f :: IsNumeral(u, i, f) && WorthOf(raw, i, f)
  {
    if WellFormed(u) {
      NotJustDots(u);
      PartsAreNumeral(u);
      WorthIsSum(IntPart(u), FracPart(u), raw);
    }
    forall i, f | IsNumeral(u, i, f) && WorthOf(raw, i, f) ensures ParseUnsigned(u) == Ok(raw) {
      NumeralParts(u, i, f);
      NumeralIsWellFormed(u, i, f);
      WorthIsSum(i, f, raw);
    }
  }

  predicate NumeralChar(c: char) { IsDigit(c) || c == '.' }

  lemma NumeralEnds(u: string, i: string, f: string)
    requires IsNumeral(u, i, f)
    ensures u != "" && NumeralChar(u[0]) && NumeralChar(u[|u| - 1])
  {
    assert u[0] == (if i != "" then i[0] else '.');
    assert u[|u| - 1] == (if f != "" then f[|f| - 1] else if u == i then i[|i| - 1] else '.');
  }

  lemma NumeralIsUnsigned(u: string, i: string, f: string)
    requires IsNumeral(u, i, f)
    ensures u != "" && u[0] != '+' && u[0] != '-' && Text.TrimSpace(u) == u
  {
    NumeralEnds(u, i, f);
    Text.NothingToTrim(u);
  }

  /** Parsing accepts exactly the numerals and yields exactly what they are worth:
    * no rounding, no other string accepted, none rejected. */
  lemma ParseIsExact(s: string, raw: nat)
    ensures ParseXNO(s) == Ok(raw) <==> Denotes(s, raw)
  {
    var t := Text.TrimSpace(s);
    forall i, f | IsNumeral(t, i, f) ensures t != "" && t[0] != '+' && t[0] != '-' {
      NumeralIsUnsigned(t, i, f);
    }
    if t != "" {
      UnsignedIsNumeral(if t[0] == '+' then t[1..] else t, raw);
    }
  }

  // -------------------------------------------------------------- formatting

  predicate IsZeroDigit(c: char) { c == '0' }

  /** r in at least DECIMALS digits. */
  function Padded(r: nat): string {
    var d := Digits(r);
    if |d| < DECIMALS then Zeros(DECIMALS - |d|) + d else d
  }

  /** The fraction digits of r raw units, without trailing zeros. */
  function Fraction(r: nat): string {
    Text.TrimRight(Padded(r), IsZeroDigit)
  }

  function Joined(q: nat, r: nat): string {
    if r == 0 then Digits(q) else Digits(q) + "." + Fraction(r)
  }

  function FormatMagnitude(n: nat): string {
    Joined(n / RAW_PER_XNO, n % RAW_PER_XNO)
  }

  function Abs(a: int): nat { if a < 0 then -a else a }

  function Signed(negative: bool, s: string): string { if negative then "-" + s else s }

  function Format(a: int): string { Signed(a < 0, FormatMagnitude(Abs(a))) }

  /** No redundant zero, sign, point or blank. */
  predicate Canonical(s: string) {
    var dot := Text.Index(s, '.');
    if dot < 0 then Shortest(s)
    else
      var f := s[dot + 1..];
      Shortest(s[..dot]) && AllDigits(f) && 0 < |f| <= DECIMALS && f[|f| - 1] != '0'
  }

  lemma DigitsFit(r: nat, n: nat)
    requires r < RAW_PER_XNO && n == DECIMALS
    ensures |Digits(r)| <= n
  {
    RawPerXno(n);
    DigitsLength(r, n);
  }

  lemma PaddedValue(r: nat)
    requires r < RAW_PER_XNO
    ensures AllDigits(Padded(r)) && |Padded(r)| == DECIMALS && Value(Padded(r)) == r
  {
    var d := Digits(r);
    DigitsFit(r, DECIMALS);
    DigitsValue(r);
    if |d| < DECIMALS { LeadingZeros(DECIMALS - |d|, d); }
  }

  lemma TrimmedValue(w: string)
    requires AllDigits(w)
    ensures var f := Text.TrimRight(w, IsZeroDigit);
            AllDigits(f) && |f| <= |w| && Value(f) * Pow10(|w| - |f|) == Value(w) && (Value(w) > 0 ==> f != "")
  {
    var f := Text.TrimRight(w, IsZeroDigit);
    var tail := w[|f|..];
    assert w == f + tail;
    assert tail == Zeros(|tail|);
    assert forall k :: 0 <= k < |f| ==> f[k] == w[k];
    ValueConcat(f, tail);
    ValueZeros(|tail|);
  }

  lemma FractionOf(r: nat)
    requires 0 < r < RAW_PER_XNO
    ensures var f := Fraction(r);
            AllDigits(f) && 0 < |f| <= DECIMALS && f[|f| - 1] != '0' && Value(f) * Pow10(DECIMALS - |f|) == r
  {
    PaddedValue(r);
    TrimmedValue(Padded(r));
  }

  lemma FractionRange(f: string)
    requires AllDigits(f) && 0 < |f| <= DECIMALS && f[|f| - 1] != '0'
    ensures 0 < Value(f) * Pow10(DECIMALS - |f|) < RAW_PER_XNO
  {
    ValueBound(f);
    assert Value(f) > 0;
    SplitScale(|f|);
    ScaledBound(Value(f), Pow10(|f|), Pow10(DECIMALS - |f|));
  }

  /** A fraction with no trailing zero is the one printed for its own worth. */
  lemma FractionIsUnique(f: string)
    requires AllDigits(f) && 0 < |f| <= DECIMALS && f[|f| - 1] != '0'
    ensures var r := Value(f) * Pow10(DECIMALS - |f|); 0 < r < RAW_PER_XNO && Fraction(r) == f
  {
    var k := DECIMALS - |f|;
    var r, w := Value(f) * Pow10(k), f + Zeros(k);
    FractionRange(f);
    assert AllDigits(w) && Value(w) == r by { ValueConcat(f, Zeros(k)); ValueZeros(k); }
    assert Padded(r) == w by { PaddedValue(r); SameLengthSameValue(Padded(r), w); }
    TrimZeros(f, k);
  }

  lemma ScaledBound(x: nat, p: nat, q: nat)
    requires 0 < x < p && q > 0
    ensures 0 < x * q < q * p
  {
    assert (p - x) * q > 0;
    assert x * q >= q;
  }

  lemma {:induction false} TrimZeros(f: string, k: nat)
    requires f != "" && f[|f| - 1] != '0'
    ensures Text.TrimRight(f + Zeros(k), IsZeroDigit) == f
  {
    var s := f + Zeros(k);
    if k > 0 {
      assert s[..|s| - 1] == f + Zeros(k - 1);
      TrimZeros(f, k - 1);
    } else {
      assert s == f;
    }
  }

  function MagnitudeFraction(n: nat): string {
    var r := n % RAW_PER_XNO;
    if r == 0 then "" else Fraction(r)
  }

  lemma JoinedParts(q: nat, r: nat)
    requires r < RAW_PER_XNO
    ensures var i, f := Digits(q), if r == 0 then "" else Fraction(r);
            IsNumeral(Joined(q, r), i, f) && Worth(i, f) == q * RAW_PER_XNO + r
    ensures Canonical(Joined(q, r))
  {
    DigitsValue(q);
    if r != 0 { FractionOf(r); }
    NumeralParts(Joined(q, r), Digits(q), if r == 0 then "" else Fraction(r));
  }

  lemma FormatParts(n: nat)
    ensures var i, f := Digits(n / RAW_PER_XNO), MagnitudeFraction(n);
            IsNumeral(FormatMagnitude(n), i, f) && Worth(i, f) == n
    ensures Canonical(FormatMagnitude(n))
  {
    JoinedParts(n / RAW_PER_XNO, n % RAW_PER_XNO);
  }

  /** Printing any non-negative amount, of whatever size, and parsing it back
    * loses nothing, and the printed string is canonical. */
  lemma ParseFormat(n: nat)
    ensures ParseXNO(Format(n)) == Ok(n)
    ensures Canonical(Format(n))
  {
    var s, i, f := FormatMagnitude(n), Digits(n / RAW_PER_XNO), MagnitudeFraction(n);
    FormatParts(n);
    NumeralIsUnsigned(s, i, f);
    NumeralParts(s, i, f);
    NumeralIsWellFormed(s, i, f);
  }

  lemma CanonicalIsPrinted(s: string)
    requires Canonical(s)
    ensures IsNumeral(s, IntPart(s), FracPart(s))
    ensures FormatMagnitude(Worth(IntPart(s), FracPart(s))) == s
  {
    var i, f := IntPart(s), FracPart(s);
    assert s == if '.' in s then i + "." + f else i;
    var n := Worth(i, f);
    ValueDigits(i);
    if f != "" {
      FractionIsUnique(f);
      DivModOf(Value(i), Value(f) * Pow10(DECIMALS - |f|), n);
    } else {
      assert Value(f) == 0;
      DivModOf(Value(i), 0, n);
    }
  }

  lemma DivModOf(q: nat, r: nat, n: nat)
    requires r < RAW_PER_XNO && n == q * RAW_PER_XNO + r
    ensures n / RAW_PER_XNO == q && n % RAW_PER_XNO == r
  {
  }

  lemma CanonicalParses(s: string)
    requires Canonical(s)
    ensures IsNumeral(s, IntPart(s), FracPart(s))
    ensures ParseXNO(s) == Ok(Worth(IntPart(s), FracPart(s)))
  {
    CanonicalIsPrinted(s);
    NumeralIsUnsigned(s, IntPart(s), FracPart(s));
    NumeralIsWellFormed(s, IntPart(s), FracPart(s));
  }

  /** The canonical strings are exactly those that survive parse and print
    * unchanged; every other accepted string is rewritten to the canonical one. */
  lemma CanonicalIsFixpoint(s: string)
    ensures Canonical(s) <==> ParseXNO(s).Ok? && Format(ParseXNO(s).value) == s
  {
    if Canonical(s) {
      CanonicalParses(s);
      CanonicalIsPrinted(s);
    } else if ParseXNO(s).Ok? {
      ParseFormat(ParseXNO(s).value);
    }
  }

  lemma MagnitudeEnds(n: nat)
    ensures var s := FormatMagnitude(n); s != "" && NumeralChar(s[0]) && NumeralChar(s[|s| - 1])
  {
    FormatParts(n);
    NumeralEnds(FormatMagnitude(n), Digits(n / RAW_PER_XNO), MagnitudeFraction(n));
  }

  /** A negative amount prints with a sign, which no other amount carries and
    * which parsing refuses: amount strings are non-negative. */
  lemma SignOf(a: int)
    ensures Format(a) != "" && (Format(a)[0] == '-' <==> a < 0)
    ensures a < 0 ==> ParseXNO(Format(a)) == Err(Malformed)
  {
    var m := Format(a);
    MagnitudeEnds(if a < 0 then -a else a);
    if a < 0 { Text.NothingToTrim(m); }
  }

  /** Different amounts print differently, negative ones included. */
  lemma FormatIsInjective(a: int, b: int)
    requires Format(a) == Format(b)
    ensures a == b
  {
    SignOf(a);
    SignOf(b);
    var x, y := if a < 0 then -a else a, if b < 0 then -b else b;
    assert Format(x) == if a < 0 then Format(a)[1..] else Format(a);
    assert Format(y) == if b < 0 then Format(b)[1..] else Format(b);
    ParseFormat(x);
    ParseFormat(y);
  }

  // -------------------------------------------------------------- settlement

  /** A Go uint64 token counter. */
  type Counter = n: nat | n < 0x1_0000_0000_0000_0000

  datatype Usage = Usage(prompt: Counter, completion: Counter, reasoning: Counter, cached: Counter)

  /** Rates per million tokens in raw; an absent rate is 0. */
  datatype Rates = Rates(input: int, output: int, cachedInput: int)

  /** One term, in millionths of a raw unit. */
  function Share(tokens: nat, rate: int): nat {
    if tokens == 0 || rate <= 0 then 0 else tokens * rate
  }

  function ExactTotal(u: Usage, r: Rates): nat {
    Share(u.prompt, r.input) + Share(u.completion, r.output) + Share(u.reasoning, r.output)
      + Share(u.cached, r.cachedInput)
  }

  function Settlement(u: Usage, r: Rates): nat {
    ExactTotal(u, r) / TOKENS_PER_M
  }

  /** The greatest whole number of raw whose millionfold is within the exact sum
    * of tokens times rates, where a negative rate counts as none. */
  lemma SettlementIsFloor(u: Usage, r: Rates, n: nat)
    ensures n <= Settlement(u, r) <==>
            n * 1_000_000 <= u.prompt * Max(r.input, 0) + (u.completion + u.reasoning) * Max(r.output, 0)
                             + u.cached * Max(r.cachedInput, 0)
  {
    ShareIsProduct(u.prompt, r.input);
    ShareIsProduct(u.completion, r.output);
    ShareIsProduct(u.reasoning, r.output);
    ShareIsProduct(u.cached, r.cachedInput);
    var o := Max(r.output, 0);
    assert (u.completion + u.reasoning) * o == u.completion * o + u.reasoning * o;
  }

  lemma ShareIsProduct(tokens: nat, rate: int)
    ensures Share(tokens, rate) == tokens * Max(rate, 0)
  {
  }

  /** Rounding once never pays less than rounding each of the four terms, and
    * at most 3 raw more. */
  lemma OneRounding(u: Usage, r: Rates)
    ensures var each := Share(u.prompt, r.input) / TOKENS_PER_M + Share(u.completion, r.output) / TOKENS_PER_M
                        + Share(u.reasoning, r.output) / TOKENS_PER_M + Share(u.cached, r.cachedInput) / TOKENS_PER_M;
            each <= Settlement(u, r) <= each + 3
  {
  }

  ghost predicate FitsCounters(calls: seq<Usage>) {
    && SumOf(calls, 0) < 0x1_0000_0000_0000_0000 && SumOf(calls, 1) < 0x1_0000_0000_0000_0000
    && SumOf(calls, 2) < 0x1_0000_0000_0000_0000 && SumOf(calls, 3) < 0x1_0000_0000_0000_0000
  }

  function CounterOf(u: Usage, k: nat): nat {
    match k
    case 0 => u.prompt
    case 1 => u.completion
    case 2 => u.reasoning
    case _ => u.cached
  }

  function SumOf(calls: seq<Usage>, k: nat): nat {
    if calls == [] then 0 else SumOf(calls[..|calls| - 1], k) + CounterOf(calls[|calls| - 1], k)
  }

  ghost function Totals(calls: seq<Usage>): Usage
    requires FitsCounters(calls)
  {
    Usage(SumOf(calls, 0), SumOf(calls, 1), SumOf(calls, 2), SumOf(calls, 3))
  }

  function SettledOneByOne(calls: seq<Usage>, r: Rates): nat {
    if calls == [] then 0 else SettledOneByOne(calls[..|calls| - 1], r) + Settlement(calls[|calls| - 1], r)
  }

  /** Settling n calls one by one pays less than settling their totals by no more
    * than n - 1 raw, and never more. */
  lemma {:induction false} BatchedSettlement(calls: seq<Usage>, r: Rates)
    requires calls != [] && FitsCounters(calls)
    ensures SettledOneByOne(calls, r) <= Settlement(Totals(calls), r) <= SettledOneByOne(calls, r) + |calls| - 1
  {
    var front, last := calls[..|calls| - 1], calls[|calls| - 1];
    if front != [] {
      BatchedSettlement(front, r);
      TotalsAdd(front, last, Totals(calls), r);
    } else {
      assert forall k: nat :: SumOf(calls, k) == SumOf(front, k) + CounterOf(last, k);
    }
  }

  lemma TotalsAdd(front: seq<Usage>, last: Usage, totals: Usage, r: Rates)
    requires FitsCounters(front)
    requires forall k: nat :: k < 4 ==> CounterOf(totals, k) == SumOf(front, k) + CounterOf(last, k)
    ensures ExactTotal(totals, r) == ExactTotal(Totals(front), r) + ExactTotal(last, r)
  {
    var t := Totals(front);
    assert forall k: nat :: k < 4 ==> CounterOf(totals, k) == CounterOf(t, k) + CounterOf(last, k);
    assert CounterOf(totals, 0) == totals.prompt && CounterOf(totals, 1) == totals.completion
        && CounterOf(totals, 2) == totals.reasoning && CounterOf(totals, 3) == totals.cached;
    ShareAdds(t.prompt, last.prompt, r.input);
    ShareAdds(t.completion, last.completion, r.output);
    ShareAdds(t.reasoning, last.reasoning, r.output);
    ShareAdds(t.cached, last.cached, r.cachedInput);
  }

  lemma ShareAdds(a: nat, b: nat, rate: int)
    ensures Share(a + b, rate) == Share(a, rate) + Share(b, rate)
  {
    if rate > 0 { assert (a + b) * rate == a * rate + b * rate; }
  }

  /** More tokens or higher rates never settle for less. */
  lemma SettlementIsMonotone(u: Usage, v: Usage, r: Rates, q: Rates)
    requires u.prompt <= v.prompt && u.completion <= v.completion && u.reasoning <= v.reasoning && u.cached <= v.cached
    requires r.input <= q.input && r.output <= q.output && r.cachedInput <= q.cachedInput
    ensures Settlement(u, r) <= Settlement(v, q)
  {
    ShareIsMonotone(u.prompt, v.prompt, r.input, q.input);
    ShareIsMonotone(u.completion, v.completion, r.output, q.output);
    ShareIsMonotone(u.reasoning, v.reasoning, r.output, q.output);
    ShareIsMonotone(u.cached, v.cached, r.cachedInput, q.cachedInput);
  }

  lemma ShareIsMonotone(a: nat, b: nat, rate: int, rate': int)
    requires a <= b && rate <= rate'
    ensures Share(a, rate) <= Share(b, rate')
  {
    if a > 0 && rate > 0 {
      assert a * rate <= b * rate;
      assert b * rate <= b * rate';
    }
  }
}
