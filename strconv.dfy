/**
 * The part of Go's `strconv` package the tag parser relies on: `Atoi`, which
 * is `ParseInt(s, 10, 0)` on a 64-bit platform with a fast path for short
 * inputs, together with its inverse `Itoa`.
 *
 * Go returns a pair `(value, err)`; on a syntax error the value is 0 and on a
 * range error it is the nearest 64-bit bound.
 */
module GoStrconv {
  import opened Wrappers

  const MaxInt64: int := 0x7fff_ffff_ffff_ffff
  const MinInt64: int := -0x8000_0000_0000_0000
  const MaxUint64: int := 0xffff_ffff_ffff_ffff

  /** The `Err` field of a `*strconv.NumError`, or no error at all. */
  datatype NumError = NoError | ErrSyntax | ErrRange

  datatype Parsed = Parsed(value: int, err: NumError)

  predicate IsDigit(c: char) { '0' <= c <= '9' }

  function DigitValue(c: char): (d: int)
    requires IsDigit(c)
    ensures 0 <= d < 10
  {
    c as int - '0' as int
  }

  predicate AllDigits(s: string) { forall i :: 0 <= i < |s| ==> IsDigit(s[i]) }

  function Pow10(k: nat): (p: nat)
    ensures p >= 1
  {
    if k == 0 then 1 else 10 * Pow10(k - 1)
  }

  /** The number a string of decimal digits denotes. */
  function Val(s: string): nat
    requires AllDigits(s)
  {
    if |s| == 0 then 0 else DigitValue(s[0]) * Pow10(|s| - 1) + Val(s[1..])
  }

  /** `n >= cutoff` in `ParseUint` means `n * 10` no longer fits in 64 bits. */
  const Cutoff: int := MaxUint64 / 10 + 1

  /** The digit loop of `ParseUint(s, 10, 64)`, with accumulator `n`. */
  function ParseUintLoop(s: string, n: nat): Parsed
    decreases |s|
  {
    if |s| == 0 then Parsed(n, NoError)
    else if !IsDigit(s[0]) then Parsed(0, ErrSyntax)
    else if n >= Cutoff then Parsed(MaxUint64, ErrRange)
    else
      var n1 := n * 10 + DigitValue(s[0]);
      if n1 > MaxUint64 then Parsed(MaxUint64, ErrRange)
      else ParseUintLoop(s[1..], n1)
  }

  /** `strconv.ParseUint(s, 10, 64)`. */
  function ParseUint(s: string): Parsed
  {
    if |s| == 0 then Parsed(0, ErrSyntax) else ParseUintLoop(s, 0)
  }

  /** `strconv.ParseInt(s, 10, 64)`: optional sign, then `ParseUint`, then clamping. */
  function ParseInt(s: string): Parsed
  {
    if |s| == 0 then Parsed(0, ErrSyntax)
    else
      var neg := s[0] == '-';
      var digits := if s[0] == '+' || s[0] == '-' then s[1..] else s;
      var u := ParseUint(digits);
      if u.err == ErrSyntax then Parsed(0, ErrSyntax)
      else if !neg && u.value >= -MinInt64 then Parsed(MaxInt64, ErrRange)
      else if neg && u.value > -MinInt64 then Parsed(MinInt64, ErrRange)
      else Parsed(if neg then -u.value else u.value, NoError)
  }

  /** The digit loop of the fast path of `Atoi`; `None` is its syntax error. */
  function FastLoop(s: string, n: nat): Option<nat>
    decreases |s|
  {
    if |s| == 0 then Some(n)
    else if !IsDigit(s[0]) then None
    else FastLoop(s[1..], n * 10 + DigitValue(s[0]))
  }

  /** The fast path of `Atoi`, taken when `0 < len(s) < 19`. */
  function AtoiFast(s: string): Parsed
    requires 0 < |s|
  {
    var neg := s[0] == '-';
    var digits := if s[0] == '+' || s[0] == '-' then s[1..] else s;
    if |digits| < 1 then Parsed(0, ErrSyntax)
    else match FastLoop(digits, 0)
      case None => Parsed(0, ErrSyntax)
      case Some(n) => Parsed(if neg then -(n as int) else n as int, NoError)
  }

  /** `strconv.Atoi(s)`. */
  function Atoi(s: string): Parsed
  {
    if 0 < |s| < 19 then AtoiFast(s) else ParseInt(s)
  }

  /** The decimal digits of `n` without leading zeros. */
  function Digits(n: nat): (s: string)
    ensures |s| >= 1 && AllDigits(s)
  {
    if n < 10 then [('0' as int + n) as char]
    else Digits(n / 10) + [('0' as int + n % 10) as char]
  }

  /** `strconv.Itoa(n)`. */
  function Itoa(n: int): string
  {
    if n < 0 then "-" + Digits(-n) else Digits(n)
  }

  // ---------------------------------------------------------------------------
  // Lemmas

  lemma {:induction false} ValSnoc(s: string, c: char)
    requires AllDigits(s) && IsDigit(c)
    ensures AllDigits(s + [c]) && Val(s + [c]) == 10 * Val(s) + DigitValue(c)
    decreases |s|
  {
    DigitsSnoc(s, c);
    var t := s + [c];
    if |s| == 0 {
      assert t == [c];
    } else {
      assert t[0] == s[0] && t[1..] == s[1..] + [c];
      DigitsTail(s);
      ValSnoc(s[1..], c);
      LeadShift(DigitValue(s[0]), Pow10(|s| - 1), Val(s[1..]), DigitValue(c));
    }
  }

  lemma DigitsSnoc(s: string, c: char)
    requires AllDigits(s) && IsDigit(c)
    ensures AllDigits(s + [c])
  {
    var t := s + [c];
    forall i | 0 <= i < |t| ensures IsDigit(t[i]) {
      if i < |s| { assert t[i] == s[i]; }
    }
  }

  lemma DigitsTail(s: string)
    requires AllDigits(s) && |s| > 0
    ensures AllDigits(s[1..])
  {
    forall i | 0 <= i < |s[1..]| ensures IsDigit(s[1..][i]) { assert s[1..][i] == s[i + 1]; }
  }

  lemma LeadShift(d: int, p: int, v: int, e: int)
    ensures d * (10 * p) + (10 * v + e) == 10 * (d * p + v) + e
  {
  }

  /** `Digits` denotes the number it was made from. */
  lemma {:induction false} ValDigits(n: nat)
    ensures Val(Digits(n)) == n
    decreases n
  {
    if n >= 10 {
      ValDigits(n / 10);
      ValSnoc(Digits(n / 10), ('0' as int + n % 10) as char);
    }
  }

  /** The digit loop of `ParseUint` computes the number when nothing overflows. */
  lemma {:induction false} ParseUintLoopValue(s: string, n: nat)
    requires AllDigits(s)
    requires n * Pow10(|s|) + Val(s) <= MaxUint64
    ensures ParseUintLoop(s, n) == Parsed(n * Pow10(|s|) + Val(s), NoError)
    decreases |s|
  {
    if |s| > 0 {
      var d := DigitValue(s[0]);
      var p := Pow10(|s| - 1);
      var n1 := n * 10 + d;
      StepArithmetic(n, d, p);
      assert n1 * p + Val(s[1..]) == n * Pow10(|s|) + Val(s);
      assert n1 <= MaxUint64;
      assert n < Cutoff;
      assert AllDigits(s[1..]) by {
        forall i | 0 <= i < |s[1..]| ensures IsDigit(s[1..][i]) { assert s[1..][i] == s[i + 1]; }
      }
      ParseUintLoopValue(s[1..], n1);
    }
  }

  lemma StepArithmetic(n: nat, d: nat, p: nat)
    requires p >= 1
    ensures (n * 10 + d) * p == n * (10 * p) + d * p
    ensures n * 10 + d <= (n * 10 + d) * p
  {
  }

  /** `Digits(n)` has at most 19 characters for a 64-bit value. */
  lemma {:induction false} DigitsLength(n: nat, k: nat)
    requires n < Pow10(k)
    ensures |Digits(n)| <= k || (k == 0 && |Digits(n)| == 1)
    decreases n
  {
    if n >= 10 {
      assert k >= 2 by { assert Pow10(0) == 1 && Pow10(1) == 10; }
      assert n / 10 < Pow10(k - 1);
      DigitsLength(n / 10, k - 1);
    }
  }

  /** The fast loop computes the number of a digit string. */
  lemma {:induction false} FastLoopValue(s: string, n: nat)
    requires AllDigits(s)
    ensures FastLoop(s, n) == Some(n * Pow10(|s|) + Val(s))
    decreases |s|
  {
    if |s| > 0 {
      assert AllDigits(s[1..]) by {
        forall i | 0 <= i < |s[1..]| ensures IsDigit(s[1..][i]) { assert s[1..][i] == s[i + 1]; }
      }
      var d := DigitValue(s[0]);
      var p := Pow10(|s| - 1);
      FastLoopValue(s[1..], n * 10 + d);
      assert Pow10(|s|) == 10 * p;
      ShiftDigit(n, d, p);
    }
  }

  lemma ShiftDigit(n: nat, d: nat, p: nat)
    ensures (n * 10 + d) * p == n * (10 * p) + d * p
  {
  }

  /** `Atoi` inverts `Itoa` on every 64-bit integer. */
  lemma AtoiItoa(n: int)
    requires MinInt64 <= n <= MaxInt64
    ensures Atoi(Itoa(n)) == Parsed(n, NoError)
  {
    var m: nat := if n < 0 then -n else n;
    var ds := Digits(m);
    ValDigits(m);
    assert ds[0] != '-' && ds[0] != '+' by { assert IsDigit(ds[0]); }
    var s := Itoa(n);
    assert n < 0 ==> s[1..] == ds;
    assert n >= 0 ==> s == ds;
    if 0 < |s| < 19 {
      FastLoopValue(ds, 0);
    } else {
      assert 0 * Pow10(|ds|) + Val(ds) <= MaxUint64;
      ParseUintLoopValue(ds, 0);
    }
  }

  /** The digit loop fails with 0 on a syntax error and with the largest `uint64` on a range error. */
  lemma {:induction false} ParseUintLoopFailure(s: string, n: nat)
    ensures ParseUintLoop(s, n).err == ErrSyntax ==> ParseUintLoop(s, n).value == 0
    ensures ParseUintLoop(s, n).err == ErrRange ==> ParseUintLoop(s, n).value == MaxUint64
    decreases |s|
  {
    if |s| > 0 && IsDigit(s[0]) && n < Cutoff && n * 10 + DigitValue(s[0]) <= MaxUint64 {
      ParseUintLoopFailure(s[1..], n * 10 + DigitValue(s[0]));
    }
  }

  /** `Atoi` fails with 0 on a syntax error and with a 64-bit bound on a range error. */
  lemma AtoiFailureValue(s: string)
    ensures Atoi(s).err == ErrSyntax ==> Atoi(s).value == 0
    ensures Atoi(s).err == ErrRange ==> Atoi(s).value == MaxInt64 || Atoi(s).value == MinInt64
  {
    if |s| > 0 {
      var digits := if s[0] == '+' || s[0] == '-' then s[1..] else s;
      ParseUintLoopFailure(digits, 0);
    }
  }
}
