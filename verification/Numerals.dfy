/**
 How JavaScript reads numbers from texts: `parseInt(text, 10)` and `Number(text)`.
 Values are exact; rounding to a double is not modelled.
 */
module Numerals {
  import opened Common
  import opened Digits

  // ----- White space -----

  /** White space and line terminators. */
  predicate IsSpace(c: char) {
    || '\t' <= c <= '\r' || c == ' ' || c == '\U{a0}' || c == '\U{1680}' || '\U{2000}' <= c <= '\U{200a}'
    || c == '\U{2028}' || c == '\U{2029}' || c == '\U{202f}' || c == '\U{205f}' || c == '\U{3000}' || c == '\U{feff}'
  }

  function TrimLeft(s: string): string {
    if s != "" && IsSpace(s[0]) then TrimLeft(s[1..]) else s
  }

  function TrimRight(s: string): string {
    if s != "" && IsSpace(s[|s| - 1]) then TrimRight(s[..|s| - 1]) else s
  }

  function Trim(s: string): string { TrimRight(TrimLeft(s)) }

  lemma {:induction false} TrimRightCuts(s: string) returns (tail: string)
    ensures s == TrimRight(s) + tail && (tail == "" || IsSpace(tail[0]))
  {
    if s != "" && IsSpace(s[|s| - 1]) {
      var rest := TrimRightCuts(s[..|s| - 1]);
      tail := rest + [s[|s| - 1]];
      assert s == s[..|s| - 1] + [s[|s| - 1]];
    } else {
      tail := "";
    }
  }

  // ----- parseInt -----

  predicate Signed(t: string) { t != "" && (t[0] == '-' || t[0] == '+') }

  function Unsigned(t: string): string { if Signed(t) then t[1..] else t }

  /** `parseInt(s, 10)`; `None` is NaN. */
  function ParseInt(s: string): Option<int> {
    var t := TrimLeft(s);
    var digits := LeadingDigits(Unsigned(t));
    if digits == "" then None
    else if t[0] == '-' then Some(-ValueOf(digits))
    else Some(ValueOf(digits))
  }

  // ----- Number -----

  /** What a text is: a decimal literal in its parts; or a hexadecimal, octal or binary one, by its value. */
  datatype Form =
    | NotANumber
    | Infinite
    | Radix(value: int)
    | Dec(negative: bool, whole: string, fraction: string, exponent: int)

  function DigitIn(c: char, base: int): Option<int> {
    var d := if '0' <= c <= '9' then c as int - '0' as int
             else if 'a' <= c <= 'f' then c as int - 'a' as int + 10
             else if 'A' <= c <= 'F' then c as int - 'A' as int + 10
             else base;
    if d < base then Some(d) else None
  }

  /** The value of a non-empty text of digits. */
  function RadixValue(s: string, base: int): Option<int> {
    if s == "" then None
    else
      var last := DigitIn(s[|s| - 1], base);
      if last.None? || |s| == 1 then last
      else
        var front := RadixValue(s[..|s| - 1], base);
        if front.None? then None else Some(front.value * base + last.value)
  }

  /** The base of a prefixed literal. */
  function BaseOf(t: string): Option<int> {
    if |t| <= 2 || t[0] != '0' then None
    else
      match t[1]
      case 'x' => Some(16)
      case 'X' => Some(16)
      case 'o' => Some(8)
      case 'O' => Some(8)
      case 'b' => Some(2)
      case 'B' => Some(2)
      case _ => None
  }

  /** An exponent part, or none; `None` when the text is neither. */
  function ExponentOf(r: string): Option<int> {
    if r == "" then Some(0)
    else if r[0] == 'e' || r[0] == 'E' then
      var digits := Unsigned(r[1..]);
      if !AllDigits(digits) then None
      else if r[1] == '-' then Some(-ValueOf(digits))
      else Some(ValueOf(digits))
    else None
  }

  function DecimalForm(negative: bool, t: string): Form {
    var whole := LeadingDigits(t);
    LeadingDigitsPrefix(t);
    var rest := t[|whole|..];
    var pointed := rest != "" && rest[0] == '.';
    var fraction := if pointed then LeadingDigits(rest[1..]) else "";
    var tail := if pointed then (LeadingDigitsPrefix(rest[1..]); rest[1..][|fraction|..]) else rest;
    var exponent := ExponentOf(tail);
    if (whole == "" && fraction == "") || exponent.None? then NotANumber
    else Dec(negative, whole, fraction, exponent.value)
  }

  /** What `Number` takes the text for. The empty text is zero. */
  function FormOf(s: string): Form {
    var t := Trim(s);
    if t == "" then Radix(0)
    else
      var base := BaseOf(t);
      if base.Some? then
        var n := RadixValue(t[2..], base.value);
        if n.Some? then Radix(n.value) else NotANumber
      else if Unsigned(t) == "Infinity" then Infinite
      else DecimalForm(t[0] == '-', Unsigned(t))
  }

  function Pow10(n: nat): nat {
    if n == 0 then 1 else 10 * Pow10(n - 1)
  }

  /** m * 10^e, when it is a whole number. */
  function Whole(m: int, e: int): Option<int>
    decreases if e >= 0 then e else -e
  {
    if e == 0 then Some(m)
    else if e > 0 then Whole(10 * m, e - 1)
    else if m % 10 == 0 then Whole(m / 10, e + 1)
    else None
  }

  /** The value of `Number(s)`, when it is a whole number. */
  function Number(s: string): Option<int> {
    match FormOf(s)
    case NotANumber => None
    case Infinite => None
    case Radix(n) => Some(n)
    case Dec(negative, whole, fraction, exponent) =>
      var m := ValueOf(whole + fraction);
      Whole(if negative then -m else m, exponent - |fraction|)
  }

  /** The schema's coerced integers: whole, and at least 1. */
  predicate Accepted(s: string) {
    Number(s).Some? && Number(s).value >= 1
  }

  // ----- The two readings of one text -----

  lemma {:induction false} LeadingDigitsStop(a: string, b: string)
    requires b == "" || !IsDigit(b[0])
    ensures LeadingDigits(a + b) == LeadingDigits(a)
  {
    if a == "" {
      assert a + b == b;
    } else {
      assert (a + b)[1..] == a[1..] + b;
      LeadingDigitsStop(a[1..], b);
    }
  }

  /** White space after a text does not change the digits it begins with. */
  lemma {:induction false} DigitsOfTrimmed(s: string)
    ensures Trim(s) == "" ==> TrimLeft(s) == ""
    ensures LeadingDigits(Unsigned(TrimLeft(s))) == LeadingDigits(Unsigned(Trim(s)))
    ensures Trim(s) != "" ==> TrimLeft(s) != "" && TrimLeft(s)[0] == Trim(s)[0]
  {
    var t := Trim(s);
    var tail := TrimRightCuts(TrimLeft(s));
    assert TrimLeft(s) == t + tail;
    TrimmedLeft(s);
    if t != "" {
      assert Unsigned(t + tail) == Unsigned(t) + tail;
      LeadingDigitsStop(Unsigned(t), tail);
    } else {
      assert t + tail == tail;
    }
  }

  /** A prefixed literal begins with its zero. */
  lemma {:induction false} PrefixReadsZero(t: string)
    requires BaseOf(t).Some?
    ensures Unsigned(t) == t && LeadingDigits(t) == "0" && ValueOf("0") == 0
  {
    assert t == "0" + t[1..] && !IsDigit(t[1..][0]);
    LeadingDigitsOf("0", t[1..]);
    assert "0"[..0] == "";
  }

  /** `parseInt` takes from a decimal literal its whole part, and from a prefixed one the zero of its prefix. */
  lemma {:induction false} ParseIntOf(s: string)
    ensures match FormOf(s)
            case Dec(negative, whole, _, _) =>
              ParseInt(s) == if whole == "" then None else Some(if negative then -ValueOf(whole) else ValueOf(whole))
            case Radix(_) => ParseInt(s) == None || ParseInt(s) == Some(0)
            case _ => true
  {
    var t := Trim(s);
    DigitsOfTrimmed(s);
    if t == "" {
      assert FormOf(s) == Radix(0);
    } else if BaseOf(t).Some? {
      PrefixReadsZero(t);
    } else if Unsigned(t) != "Infinity" {
      DecimalReadsWhole(t[0] == '-', Unsigned(t));
      assert FormOf(s) == DecimalForm(t[0] == '-', Unsigned(t));
    }
  }

  lemma {:induction false} DecimalReadsWhole(negative: bool, t: string)
    ensures DecimalForm(negative, t).Dec? ==>
              DecimalForm(negative, t).negative == negative && DecimalForm(negative, t).whole == LeadingDigits(t)
    ensures DecimalForm(negative, t).Dec? || DecimalForm(negative, t).NotANumber?
  {
  }

  lemma {:induction false} TrimmedLeft(s: string)
    ensures TrimLeft(s) == "" || !IsSpace(TrimLeft(s)[0])
  {
    if s != "" && IsSpace(s[0]) {
      TrimmedLeft(s[1..]);
    }
  }

  lemma {:induction false} LeadingDigitsAreDigits(s: string)
    ensures forall i | 0 <= i < |LeadingDigits(s)| :: IsDigit(LeadingDigits(s)[i])
  {
    if s != "" && IsDigit(s[0]) {
      LeadingDigitsAreDigits(s[1..]);
    }
  }

  lemma {:induction false} FormHasDigits(s: string)
    requires FormOf(s).Dec?
    ensures forall i | 0 <= i < |FormOf(s).whole| :: IsDigit(FormOf(s).whole[i])
    ensures forall i | 0 <= i < |FormOf(s).fraction| :: IsDigit(FormOf(s).fraction[i])
  {
    var t := Unsigned(Trim(s));
    LeadingDigitsAreDigits(t);
    LeadingDigitsPrefix(t);
    var rest := t[|LeadingDigits(t)|..];
    if rest != "" {
      LeadingDigitsAreDigits(rest[1..]);
    }
  }

  // ----- Powers of ten -----

  lemma {:induction false} Pow10Positive(n: nat)
    ensures Pow10(n) >= 1 && (n > 0 ==> Pow10(n) >= 10)
  {
    if n > 0 {
      Pow10Positive(n - 1);
    }
  }

  lemma {:induction false} Pow10Sum(a: nat, b: nat)
    ensures Pow10(a + b) == Pow10(a) * Pow10(b)
  {
    if a > 0 {
      Pow10Sum(a - 1, b);
      Assoc(10, Pow10(a - 1), Pow10(b));
    }
  }

  lemma Assoc(x: int, y: int, z: int)
    ensures x * (y * z) == (x * y) * z
  {
  }

  lemma MulMonotone(a: int, b: int, c: nat)
    requires a <= b
    ensures a * c <= b * c
  {
    assert b * c - a * c == (b - a) * c >= 0;
  }

  /** Digits after the point are worth less than one. */
  lemma {:induction false} FractionBelowOne(f: string)
    requires forall i | 0 <= i < |f| :: IsDigit(f[i])
    ensures 0 <= ValueOf(f) < Pow10(|f|)
  {
    if f != "" {
      FractionBelowOne(f[..|f| - 1]);
    }
  }

  lemma {:induction false} ValueSplits(a: string, f: string)
    ensures ValueOf(a + f) == ValueOf(a) * Pow10(|f|) + ValueOf(f)
  {
    if f == "" {
      assert a + f == a;
    } else {
      var front, last := f[..|f| - 1], f[|f| - 1];
      assert (a + f)[..|a + f| - 1] == a + front && (a + f)[|a + f| - 1] == last;
      ValueSplits(a, front);
      TenTimes(ValueOf(a), Pow10(|front|), ValueOf(front));
    }
  }

  lemma TenTimes(x: int, p: int, y: int)
    ensures 10 * (x * p + y) == x * (10 * p) + 10 * y
  {
  }

  /** `Whole(m, e)` is the whole number m * 10^e, if there is one. */
  lemma {:induction false} WholeIs(m: int, e: int, n: int)
    ensures Whole(m, e) == Some(n) <==> if e >= 0 then n == m * Pow10(e) else n * Pow10(-e) == m
    decreases if e >= 0 then e else -e
  {
    if e > 0 {
      WholeIs(10 * m, e - 1, n);
      Assoc(m, 10, Pow10(e - 1));
    } else if e < 0 {
      Assoc(n, 10, Pow10(-e - 1));
      Assoc(10, n, Pow10(-e - 1));
      if m % 10 == 0 {
        WholeIs(m / 10, e + 1, n);
      }
    }
  }

  /** Clearing the fraction: n = m * 10^(x - k) in whole numbers. */
  lemma WholeScaled(m: int, x: int, k: nat)
    requires Whole(m, x - k).Some?
    ensures var n := Whole(m, x - k).value;
            if x >= 0 then n * Pow10(k) == m * Pow10(x) else n * (Pow10(k) * Pow10(-x)) == m
  {
    var n := Whole(m, x - k).value;
    WholeIs(m, x - k, n);
    if x >= k {
      Pow10Sum(x - k, k);
      Assoc(m, Pow10(x - k), Pow10(k));
    } else if x >= 0 {
      Pow10Sum(k - x, x);
      Assoc(n, Pow10(k - x), Pow10(x));
    } else {
      Pow10Sum(k, -x);
    }
  }

  /** n * p = m * q with m = w * p + f and 0 <= f < p: scaling by q = 1 gives n = w, by more gives n > w. */
  lemma ScaledUp(n: int, m: int, w: int, f: int, p: int, q: int)
    requires p >= 1 && 0 <= f < p && w >= 1 && m == w * p + f && n * p == m * q
    ensures q == 1 ==> n == w
    ensures q >= 10 ==> n > w
  {
    assert w * p >= p by { MulMonotone(1, w, p); }
    if q == 1 {
      assert (n - w) * p == f;
      if n > w {
        MulMonotone(1, n - w, p);
      } else if n < w {
        MulMonotone(n - w, -1, p);
      }
    } else if q >= 10 && n <= w {
      MulMonotone(10, q, m);
      MulMonotone(n, w, p);
    }
  }

  /** n * (p * q) = m with m = w * p + f and q >= 10: n is smaller than w. */
  lemma ScaledDown(n: int, m: int, w: int, f: int, p: int, q: int)
    requires p >= 1 && 0 <= f < p && w >= 1 && n >= 1 && q >= 10 && m == w * p + f && n * (p * q) == m
    ensures n < w
  {
    if n >= w {
      assert p * q >= 10 * p by { MulMonotone(10, q, p); }
      MulMonotone(10 * p, p * q, n);
      MulMonotone(w, n, 10 * p);
      assert w * (10 * p) == 10 * (w * p);
      MulMonotone(1, w, p);
    }
  }

  lemma NotBelowWhole(n: int, m: int, w: int, f: int, k: nat, x: nat)
    requires 0 <= f < Pow10(k) && w >= 1 && m == w * Pow10(k) + f && Whole(m, x - k) == Some(n)
    ensures if x == 0 then n == w else n > w
  {
    assert n * Pow10(k) == m * Pow10(x) by { WholeScaled(m, x, k); }
    Pow10Positive(k);
    Pow10Positive(x);
    ScaledUp(n, m, w, f, Pow10(k), Pow10(x));
  }

  lemma BelowWhole(n: int, m: int, w: int, f: int, k: nat, x: int)
    requires 0 <= f < Pow10(k) && w >= 1 && n >= 1 && x < 0 && m == w * Pow10(k) + f && Whole(m, x - k) == Some(n)
    ensures n < w
  {
    assert n * (Pow10(k) * Pow10(-x)) == m by { WholeScaled(m, x, k); }
    Pow10Positive(k);
    Pow10Positive(-x);
    ScaledDown(n, m, w, f, Pow10(k), Pow10(-x));
  }

  /** A whole number w.f * 10^x is w when x is zero, more when it is positive, less when it is negative. */
  lemma {:induction false} ScaleDecides(whole: string, fraction: string, x: int, n: int)
    requires forall i | 0 <= i < |whole| :: IsDigit(whole[i])
    requires forall i | 0 <= i < |fraction| :: IsDigit(fraction[i])
    requires ValueOf(whole) > 0 && n >= 1 && Whole(ValueOf(whole + fraction), x - |fraction|) == Some(n)
    ensures var w := ValueOf(whole); if x == 0 then n == w else if x > 0 then n > w else n < w
  {
    FractionBelowOne(fraction);
    ValueSplits(whole, fraction);
    if x >= 0 {
      NotBelowWhole(n, ValueOf(whole + fraction), ValueOf(whole), ValueOf(fraction), |fraction|, x);
    } else {
      BelowWhole(n, ValueOf(whole + fraction), ValueOf(whole), ValueOf(fraction), |fraction|, x);
    }
  }

  /** An accepted number equals its literal's whole part, if that is positive, exactly when the exponent is zero. */
  lemma {:induction false} ExponentDecides(s: string)
    requires Accepted(s) && FormOf(s).Dec? && ValueOf(FormOf(s).whole) > 0
    ensures var w, n, x := ValueOf(FormOf(s).whole), Number(s).value, FormOf(s).exponent;
            if x == 0 then n == w else if x > 0 then n > w else n < w
  {
    FormHasDigits(s);
    NotNegative(s);
    var Dec(_, whole, fraction, x) := FormOf(s);
    var n := Number(s).value;
    assert Whole(ValueOf(whole + fraction), x - |fraction|) == Some(n);
    ScaleDecides(whole, fraction, x, n);
  }

  lemma {:induction false} WholeKeepsSign(m: int, e: int)
    requires m <= 0 && Whole(m, e).Some?
    ensures Whole(m, e).value <= 0
    decreases if e >= 0 then e else -e
  {
    if e > 0 {
      WholeKeepsSign(10 * m, e - 1);
    } else if e < 0 {
      WholeKeepsSign(m / 10, e + 1);
    }
  }

  /** An accepted literal has no minus sign. */
  lemma {:induction false} NotNegative(s: string)
    requires Accepted(s) && FormOf(s).Dec?
    ensures !FormOf(s).negative
  {
    var Dec(_, whole, fraction, x) := FormOf(s);
    FormHasDigits(s);
    FractionBelowOne(whole + fraction);
    if FormOf(s).negative {
      assert Number(s) == Whole(-ValueOf(whole + fraction), x - |fraction|);
      WholeKeepsSign(-ValueOf(whole + fraction), x - |fraction|);
    }
  }

  lemma {:induction false} PlainDecimal(s: string)
    requires AllDigits(s)
    ensures DecimalForm(false, s) == Dec(false, s, "", 0)
  {
    LeadingDigitsOf(s, "");
    assert s + "" == s && s[|s|..] == "";
  }

  lemma {:induction false} PlainTrims(s: string)
    requires AllDigits(s)
    ensures TrimLeft(s) == s && Trim(s) == s && Unsigned(s) == s && BaseOf(s) == None && s != "Infinity" && s[0] != '-'
  {
    assert IsDigit(s[0]) && IsDigit(s[|s| - 1]);
    assert |s| > 2 ==> IsDigit(s[1]);
  }

  /** A text of digits is itself. */
  lemma {:induction false} PlainForm(s: string)
    requires AllDigits(s)
    ensures FormOf(s) == Dec(false, s, "", 0) && Number(s) == Some(ValueOf(s)) && ParseInt(s) == Some(ValueOf(s))
  {
    PlainTrims(s);
    PlainDecimal(s);
    assert s + "" == s && Pow10(0) == 1 && ValueOf(s) * 1 == ValueOf(s);
    ParseIntOf(s);
  }

  // ----- What the parts of a literal mean -----

  /** An exponent without a sign is the value of its digits. */
  lemma {:induction false} ExponentIsPlain(digits: string, e: char)
    requires AllDigits(digits) && (e == 'e' || e == 'E')
    ensures ExponentOf([e] + digits) == Some(ValueOf(digits))
  {
    var r := [e] + digits;
    assert r[1..] == digits && IsDigit(r[1]);
    assert Unsigned(r[1..]) == digits;
  }

  /** With a sign it is that value, or after a minus its negation. */
  lemma {:induction false} ExponentIsSigned(c: char, digits: string, e: char)
    requires AllDigits(digits) && (e == 'e' || e == 'E') && (c == '+' || c == '-')
    ensures ExponentOf([e, c] + digits) == Some(if c == '-' then -ValueOf(digits) else ValueOf(digits))
  {
    var r := [e, c] + digits;
    assert r[1..] == [c] + digits && r[1..][1..] == digits && r[1] == c;
    assert Unsigned(r[1..]) == digits;
  }

  /** A prefixed literal is read in base 16, 8 or 2, as its prefix says. */
  lemma {:induction false} PrefixIsBase(c: char, rest: string)
    requires rest != ""
    ensures BaseOf(['0', c] + rest) ==
            if c == 'x' || c == 'X' then Some(16) else if c == 'o' || c == 'O' then Some(8)
            else if c == 'b' || c == 'B' then Some(2) else None
  {
  }

  lemma {:induction false} PrefixedNumber(t: string)
    requires BaseOf(t).Some? && !IsSpace(t[|t| - 1])
    ensures Number(t) == RadixValue(t[2..], BaseOf(t).value)
  {
    assert !IsSpace(t[0]);
    assert TrimLeft(t) == t && Trim(t) == t;
  }

  /** Its value is positional: each digit, in either case of a letter, counts once, and those before it base times. */
  lemma {:induction false} RadixIsPositional(front: string, c: char, base: int)
    requires 2 <= base <= 16
    ensures DigitIn(c, base) == var d := if '0' <= c <= '9' then c as int - 48 else if 'a' <= c <= 'f' then c as int - 87
                                         else if 'A' <= c <= 'F' then c as int - 55 else 99;
                                if d < base then Some(d) else None
    ensures front == "" ==> RadixValue([c], base) == DigitIn(c, base)
    ensures front != "" ==>
              RadixValue(front + [c], base) ==
              if RadixValue(front, base).Some? && DigitIn(c, base).Some?
              then Some(RadixValue(front, base).value * base + DigitIn(c, base).value) else None
  {
    assert (front + [c])[..|front + [c]| - 1] == front;
  }
}
