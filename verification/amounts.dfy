/** pkg/nano on the heap: amounts point at mutable big integers, every zero amount
  * shares one of them, and callers hold big integers of their own. */
module Amounts {
  import opened Prelude
  import opened Decimal
  import opened Nano
  import Text

  /** math/big.Int: an operation overwrites its receiver, which may be an operand. */
  class BigInt {
    var v: int

    constructor (n: int)
      ensures v == n
    {
      v := n;
    }

    method Set(a: BigInt)
      modifies this
      ensures v == old(a.v)
    {
      v := a.v;
    }

    method Plus(a: BigInt, b: BigInt)
      modifies this
      ensures v == old(a.v + b.v)
    {
      v := a.v + b.v;
    }

    method Minus(a: BigInt, b: BigInt)
      modifies this
      ensures v == old(a.v - b.v)
    {
      v := a.v - b.v;
    }

    method Times(a: BigInt, b: BigInt)
      modifies this
      ensures v == old(a.v * b.v)
    {
      v := a.v * b.v;
    }

    /** Quo for a non-negative dividend, where truncation and floor agree. */
    method Quo(a: BigInt, b: BigInt)
      requires a.v >= 0 && b.v > 0
      modifies this
      ensures v == old(a.v / b.v)
    {
      v := a.v / b.v;
    }
  }

  /** A nil pointer is the zero value Amount{}. */
  datatype Amount = Amount(raw: BigInt?)

  ghost function ValueOf(a: Amount): int
    reads a.raw
  {
    if a.raw == null then 0 else a.raw.v
  }

  /** The package with its two shared integers. */
  class Package {
    const zero: BigInt
    const rawPerXNO: BigInt

    ghost predicate Valid()
      reads this, zero, rawPerXNO
    {
      zero != rawPerXNO && zero.v == 0 && rawPerXNO.v == RAW_PER_XNO
    }

    constructor ()
      ensures Valid() && fresh(zero) && fresh(rawPerXNO)
    {
      zero := new BigInt(0);
      rawPerXNO := new BigInt(RAW_PER_XNO);
    }

    /** The integer an amount may hold after a call: one made by it, or the zero. */
    twostate predicate Sealed(new a: Amount)
      reads this
    {
      a.raw != null && (a.raw == zero || fresh(a.raw))
    }

    method Raw(a: Amount) returns (b: BigInt)
      ensures fresh(b) && b.v == ValueOf(a)
    {
      b := new BigInt(0);
      if a.raw != null { b.Set(a.raw); }
    }

    method NewRaw(raw: BigInt?) returns (a: Amount)
      requires Valid()
      ensures Sealed(a) && ValueOf(a) == if raw == null then 0 else raw.v
    {
      if raw == null { return Amount(zero); }
      var c := new BigInt(0);
      c.Set(raw);
      if c.v == 0 { return Amount(zero); }
      return Amount(c);
    }

    method CheckDigits(s: string) returns (ok: bool)
      ensures ok == AllDigits(s)
    {
      for i := 0 to |s|
        invariant AllDigits(s[..i])
      {
        if s[i] < '0' || s[i] > '9' { return false; }
        assert s[..i + 1] == s[..i] + [s[i]];
      }
      assert s[..|s|] == s;
      return true;
    }

    /** intPart * 10^30 plus fracPart padded on the right to 30 digits. */
    method Compose(intPart: string, fracPart: string) returns (raw: BigInt)
      requires Valid() && AllDigits(intPart) && AllDigits(fracPart) && |fracPart| <= DECIMALS
      ensures fresh(raw) && raw.v == Worth(intPart, fracPart)
    {
      raw := new BigInt(0);
      var intVal := new BigInt(Value(intPart));
      raw.Times(intVal, rawPerXNO);
      if fracPart != "" {
        var fracVal := new BigInt(Value(fracPart));
        var power := new BigInt(Pow10(DECIMALS - |fracPart|));
        fracVal.Times(fracVal, power);
        raw.Plus(raw, fracVal);
      }
    }

    /** The blanks and the sign: what is left is the unsigned numeral. */
    method StripSign(input: string) returns (ok: bool, s: string)
      ensures Nano.ParseXNO(input) == if ok then ParseUnsigned(s) else Err(Malformed)
    {
      s := Text.TrimSpace(input);
      if s == "" { return false, s; }
      if s[0] == '+' {
        s := s[1..];
      } else if s[0] == '-' {
        return false, s;
      }
      if s == "" { DotsAlone(s); return false, s; }
      return true, s;
    }

    method SplitAtDot(s: string) returns (intPart: string, fracPart: string)
      ensures intPart == IntPart(s) && fracPart == FracPart(s)
    {
      var dot := Text.Index(s, '.');
      intPart, fracPart := s, "";
      if dot >= 0 {
        intPart, fracPart := s[..dot], s[dot + 1..];
      }
    }

    /** The string half of parseDecimal. */
    method SplitDecimal(input: string) returns (ok: bool, intPart: string, fracPart: string)
      ensures ok ==> AllDigits(intPart) && AllDigits(fracPart) && |fracPart| <= DECIMALS
      ensures Nano.ParseXNO(input) == if ok then Ok(Worth(intPart, fracPart)) else Err(Malformed)
    {
      var s;
      intPart, fracPart := "", "";
      ok, s := StripSign(input);
      if !ok { return; }
      intPart, fracPart := SplitAtDot(s);
      ok := Text.Index(fracPart, '.') < 0;
      if !ok { return; }
      ZeroForNothing(fracPart);
      if intPart == "" { intPart := "0"; }
      ok := Text.Trim(s, IsDot) != "";
      if !ok { return; }
      ok := CheckDigits(intPart);
      if !ok { return; }
      ok := CheckDigits(fracPart);
      if !ok { return; }
      ok := |fracPart| <= DECIMALS;
    }

    /** Writing a missing integer part as "0" changes nothing. */
    lemma ZeroForNothing(f: string)
      ensures AllDigits("0") && AllDigits("")
      ensures AllDigits(f) && |f| <= DECIMALS ==> Worth("0", f) == Worth("", f)
    {
      assert "0"[..0] == "";
      assert Value("0") == 0 && Value("") == 0;
    }

    /** parseDecimal: nil stands for its error. */
    method ParseDecimal(input: string) returns (raw: BigInt?)
      requires Valid()
      ensures raw == null || fresh(raw)
      ensures raw != null ==> Nano.ParseXNO(input) == Ok(raw.v)
      ensures raw == null ==> Nano.ParseXNO(input).Err?
    {
      var ok, intPart, fracPart := SplitDecimal(input);
      if !ok { return null; }
      raw := Compose(intPart, fracPart);
    }

    method ParseXNO(s: string) returns (r: Result<Amount, ParseError>)
      requires Valid()
      ensures r.Ok? ==> Sealed(r.value) && Nano.ParseXNO(s) == Ok(ValueOf(r.value))
      ensures r.Err? ==> Nano.ParseXNO(s).Err?
    {
      var raw := ParseDecimal(s);
      if raw == null { return Err(Malformed); }
      var a := NewRaw(raw);
      return Ok(a);
    }

    method PadLeft(r: nat) returns (frac: string)
      ensures frac == Padded(r)
    {
      frac := Digits(r);
      ghost var k := 0;
      while |frac| < DECIMALS
        invariant frac == Zeros(k) + Digits(r)
        invariant k > 0 ==> |frac| <= DECIMALS
      {
        assert "0" + Zeros(k) == Zeros(k + 1);
        frac, k := "0" + frac, k + 1;
      }
    }

    method Join(q: nat, r: nat) returns (s: string)
      ensures s == Joined(q, r)
    {
      s := Digits(q);
      if r != 0 {
        var frac := PadLeft(r);
        frac := Text.TrimRight(frac, IsZeroDigit);
        s := s + "." + frac;
      }
    }

    method RawOf(a: Amount) returns (b: BigInt)
      ensures b.v == ValueOf(a)
      ensures if a.raw == null then fresh(b) else b == a.raw
    {
      if a.raw == null {
        b := new BigInt(0);
      } else {
        b := a.raw;
      }
    }

    /** QuoRem by one XNO, and the digits of both. */
    method Magnitude(abs: BigInt) returns (s: string)
      requires Valid() && abs.v >= 0
      ensures s == FormatMagnitude(abs.v)
    {
      var q, r := abs.v / rawPerXNO.v, abs.v % rawPerXNO.v;
      assert q == abs.v / RAW_PER_XNO && r == abs.v % RAW_PER_XNO;
      s := Join(q, r);
    }

    method Abs(raw: BigInt) returns (abs: BigInt)
      ensures fresh(abs) && abs.v == Nano.Abs(raw.v)
    {
      abs := new BigInt(if raw.v < 0 then -raw.v else raw.v);
    }

    method Format(a: Amount) returns (s: string)
      requires Valid()
      ensures s == Nano.Format(ValueOf(a))
    {
      var raw := RawOf(a);
      var neg := raw.v < 0;
      var abs := Abs(raw);
      s := Magnitude(abs);
      if neg { s := "-" + s; }
    }

    method Add(a: Amount, b: Amount) returns (c: Amount)
      requires Valid()
      ensures Sealed(c) && ValueOf(c) == ValueOf(a) + ValueOf(b)
    {
      var x := RawOf(a);
      var y := RawOf(b);
      var sum := new BigInt(0);
      sum.Plus(x, y);
      c := NewRaw(sum);
    }

    method Sub(a: Amount, b: Amount) returns (c: Amount)
      ensures Sealed(c) && ValueOf(c) == ValueOf(a) - ValueOf(b)
    {
      var x := RawOf(a);
      var y := RawOf(b);
      var difference := new BigInt(0);
      difference.Minus(x, y);
      c := Amount(difference);
    }

    method Cmp(a: Amount, b: Amount) returns (c: int)
      ensures c == if ValueOf(a) < ValueOf(b) then -1 else if ValueOf(a) == ValueOf(b) then 0 else 1
    {
      var x := RawOf(a);
      var y := RawOf(b);
      return if x.v < y.v then -1 else if x.v == y.v then 0 else 1;
    }

    method Share(tokens: Counter, rate: Amount) returns (b: BigInt)
      ensures fresh(b) && b.v == Nano.Share(tokens, ValueOf(rate))
    {
      if tokens == 0 || rate.raw == null || rate.raw.v <= 0 {
        b := new BigInt(0);
        return;
      }
      var t := new BigInt(tokens);
      var r := new BigInt(0);
      var x := RawOf(rate);
      r.Set(x);
      b := new BigInt(0);
      b.Times(t, r);
    }

    method Settlement(u: Usage, input: Amount, output: Amount, cachedInput: Amount) returns (a: Amount)
      requires Valid()
      ensures Sealed(a)
      ensures ValueOf(a) == Nano.Settlement(u, Rates(ValueOf(input), ValueOf(output), ValueOf(cachedInput)))
    {
      var total := new BigInt(0);
      var term := Share(u.prompt, input);
      total.Plus(total, term);
      term := Share(u.completion, output);
      total.Plus(total, term);
      term := Share(u.reasoning, output);
      total.Plus(total, term);
      term := Share(u.cached, cachedInput);
      total.Plus(total, term);
      var million := new BigInt(TOKENS_PER_M);
      total.Quo(total, million);
      a := NewRaw(total);
    }
  }

  /** What a caller of the package can do, by position in its own lists. */
  datatype Op =
    | DoParse(s: string)
    | DoNewRaw(k: nat)
    | DoRaw(a: nat)
    | DoAdd(a: nat, b: nat)
    | DoSub(a: nat, b: nat)
    | DoFormat(a: nat)
    | DoSettle(u: Usage, a: nat, b: nat, c: nat)
    | DoMakeInt(n: int)
    | DoOverwrite(k: nat, n: int)

  /** A caller with the amounts it was given and the integers it may overwrite. */
  class Caller {
    const pkg: Package
    var amounts: seq<Amount>
    var ints: seq<BigInt>

    /** What each amount was worth when the caller received it. */
    ghost var values: seq<int>

    ghost predicate Valid()
      reads this, pkg, pkg.zero, pkg.rawPerXNO, set a | a in amounts :: a.raw
    {
      && pkg.Valid()
      && pkg.zero !in ints && pkg.rawPerXNO !in ints
      && |values| == |amounts|
      && forall i :: 0 <= i < |amounts| ==>
           && amounts[i].raw !in ints && amounts[i].raw != pkg.rawPerXNO
           && ValueOf(amounts[i]) == values[i]
    }

    constructor (pkg: Package)
      requires pkg.Valid()
      ensures Valid() && amounts == [] && ints == [] && this.pkg == pkg
    {
      this.pkg := pkg;
      amounts, ints, values := [], [], [];
    }

    method Take(a: Amount)
      requires Valid() && a.raw !in ints && a.raw != pkg.rawPerXNO
      modifies this`amounts, this`values
      ensures Valid() && amounts == old(amounts) + [a] && values == old(values) + [ValueOf(a)]
    {
      amounts, values := amounts + [a], values + [ValueOf(a)];
    }

    /** The operations that return an amount. */
    method Produce(op: Op) returns (r: Option<Amount>)
      requires Valid()
      ensures r.Some? ==> r.value.raw != null && (r.value.raw == pkg.zero || fresh(r.value.raw))
    {
      var n := |amounts|;
      r := None;
      if op.DoParse? {
        var p := pkg.ParseXNO(op.s);
        if p.Ok? { r := Some(p.value); }
      } else if op.DoNewRaw? && op.k < |ints| {
        var a := pkg.NewRaw(ints[op.k]);
        r := Some(a);
      } else if op.DoAdd? && op.a < n && op.b < n {
        var c := pkg.Add(amounts[op.a], amounts[op.b]);
        r := Some(c);
      } else if op.DoSub? && op.a < n && op.b < n {
        var c := pkg.Sub(amounts[op.a], amounts[op.b]);
        r := Some(c);
      } else if op.DoSettle? && op.a < n && op.b < n && op.c < n {
        var c := pkg.Settlement(op.u, amounts[op.a], amounts[op.b], amounts[op.c]);
        r := Some(c);
      }
    }

    method Step(op: Op)
      requires Valid()
      modifies this`amounts, this`values, this`ints, set b | b in ints
      ensures Valid() && old(amounts) <= amounts && old(values) <= values
      ensures forall b :: b in ints ==> b in old(ints) || fresh(b)
    {
      if op.DoRaw? && op.a < |amounts| {
        var b := pkg.Raw(amounts[op.a]);
        ints := ints + [b];
      } else if op.DoMakeInt? {
        var b := new BigInt(op.n);
        ints := ints + [b];
      } else if op.DoOverwrite? && op.k < |ints| {
        ints[op.k].v := op.n;
      } else if op.DoFormat? && op.a < |amounts| {
        var _ := pkg.Format(amounts[op.a]);
      } else {
        var r := Produce(op);
        if r.Some? { Take(r.value); }
      }
    }

    /** Whatever the caller does, in any order and for as long as it likes, every
      * amount it ever received keeps the value it was received with. */
    method Run(ops: seq<Op>)
      requires Valid()
      modifies this`amounts, this`values, this`ints, set b | b in ints
      ensures Valid()
      ensures old(amounts) <= amounts && old(values) <= values
    {
      for k := 0 to |ops|
        invariant Valid()
        invariant old(amounts) <= amounts && old(values) <= values
        invariant forall b :: b in ints ==> b in old(ints) || fresh(b)
      {
        Step(ops[k]);
      }
    }
  }
}
