/**
  JavaScript's reading of a string as a number (`Number(s)`, ECMA-262 section 7.1.4.1), rounded to a
  double, and exactly when Go's `strconv.Atoi` reads the same value.
 */
module Numbers {
  import opened Wrappers
  import opened Decimal

  /** A number other than NaN; negative zero is zero. */
  datatype Number = Finite(value: real) | Infinite(negative: bool) | NotANumber

  const TWO_53 := 0x20_0000_0000_0000
  const TWO_63 := 0x8000_0000_0000_0000

  /** Half the distance of doubles around 2^63. */
  const HALF_STEP := 1024

  /** The largest integer up to which JavaScript counts exactly. */
  const MAX_SAFE := TWO_53 - 1

  function Pow2(k: nat): nat {
    if k == 0 then 1 else 2 * Pow2(k - 1)
  }

  function Pow10(k: nat): nat {
    if k == 0 then 1 else 10 * Pow10(k - 1)
  }

  // ── rounding to a double ────────────────────────────────────────────────────

  /** The nearest integer, a tie going to the even one. */
  function Nearest(q: real): nat
    requires q >= 0.0
  {
    var n := q.Floor;
    var f := q - n as real;
    if f < 0.5 || (f == 0.5 && n % 2 == 0) then n else n + 1
  }

  /** Rounding in units of the smallest double: 53 significant bits. */
  function RoundUnits(q: real): nat
    requires q >= 0.0
    decreases q.Floor
  {
    if q < TWO_53 as real then Nearest(q) else 2 * RoundUnits(q / 2.0)
  }

  function Unit(): (u: real)
    ensures u >= 1.0
  {
    Pow2Positive(1074);
    Pow2(1074) as real
  }

  function Round(negative: bool, x: real): (n: Number)
    requires x >= 0.0
    ensures !n.NotANumber?
  {
    var r := RoundUnits(x * Unit()) as real / Unit();
    if r >= Pow2(1024) as real then Infinite(negative) else Finite(if negative then 0.0 - r else r)
  }

  // ── the string grammar ──────────────────────────────────────────────────────

  predicate IsSpace(c: char) {
    var u := c as int;
    9 <= u <= 13 || u == 32 || u == 160 || u == 5760 || 8192 <= u <= 8202
    || u == 8232 || u == 8233 || u == 8239 || u == 8287 || u == 12288 || u == 65279
  }

  function TrimLeft(s: string): string {
    if s != "" && IsSpace(s[0]) then TrimLeft(s[1..]) else s
  }

  function Trim(s: string): string {
    var t := TrimLeft(s);
    TrimRight(t)
  }

  function TrimRight(s: string): string {
    if s != "" && IsSpace(s[|s| - 1]) then TrimRight(s[..|s| - 1]) else s
  }

  function LeadingDigits(s: string): (k: nat)
    ensures k <= |s| && forall i | 0 <= i < k :: IsDigit(s[i])
    ensures k < |s| ==> !IsDigit(s[k])
  {
    if s != "" && IsDigit(s[0]) then LeadingDigits(s[1..]) + 1 else 0
  }

  /** digits * 10 ^ exponent */
  datatype Literal = Decimal(digits: nat, exponent: int) | Infinity

  function Signed(s: string): (bool, string) {
    if s != "" && (s[0] == '-' || s[0] == '+') then (s[0] == '-', s[1..]) else (false, s)
  }

  /** The part after the mantissa: nothing, or a signed decimal exponent. */
  function Exponent(s: string): Option<int> {
    if s == "" then Some(0)
    else if s[0] == 'e' || s[0] == 'E' then
      var (negative, digits) := Signed(s[1..]);
      if !Numeral(digits) then None else if negative then Some(0 - Value(digits)) else Some(Value(digits))
    else None
  }

  function Unsigned(s: string): Option<Literal> {
    if s == "Infinity" then Some(Infinity)
    else
      var k := LeadingDigits(s);
      var point := k < |s| && s[k] == '.';
      var rest := if point then s[k + 1..] else s[k..];
      var m := if point then LeadingDigits(rest) else 0;
      var mantissa := s[..k] + rest[..m];
      if !Numeral(mantissa) then None
      else
        match Exponent(rest[m..])
        case None => None
        case Some(e) => Some(Decimal(Value(mantissa), e - m))
  }

  function DigitIn(c: char): nat {
    if IsDigit(c) then c as int - '0' as int
    else if 'a' <= c <= 'f' then c as int - 'a' as int + 10
    else if 'A' <= c <= 'F' then c as int - 'A' as int + 10
    else 16
  }

  function RadixOf(s: string): nat {
    if |s| >= 3 && s[0] == '0' then
      if s[1] == 'x' || s[1] == 'X' then 16
      else if s[1] == 'o' || s[1] == 'O' then 8
      else if s[1] == 'b' || s[1] == 'B' then 2 else 0
    else 0
  }

  function ValueIn(s: string, radix: nat): nat {
    if s == "" then 0 else radix * ValueIn(s[..|s| - 1], radix) + DigitIn(s[|s| - 1])
  }

  function Read(s: string): Option<(bool, Literal)> {
    var t := Trim(s);
    var radix := RadixOf(t);
    if t == "" then Some((false, Decimal(0, 0)))
    else if radix > 0 then
      if forall c | c in t[2..] :: DigitIn(c) < radix then Some((false, Decimal(ValueIn(t[2..], radix), 0))) else None
    else
      var (negative, body) := Signed(t);
      match Unsigned(body)
      case None => None
      case Some(l) => Some((negative, l))
  }

  function Scaled(digits: nat, exponent: int): (x: real)
    ensures x >= 0.0
  {
    Pow10Positive(if exponent >= 0 then exponent else -exponent);
    if exponent >= 0 then digits as real * Pow10(exponent) as real else digits as real / Pow10(-exponent) as real
  }

  /** `Number(s)` */
  function JsNumber(s: string): Number {
    match Read(s)
    case None => NotANumber
    case Some(signed) =>
      match signed.1
      case Infinity => Infinite(signed.0)
      case Decimal(d, e) => Round(signed.0, Scaled(d, e))
  }

  /** `n || 0` */
  function OrZero(n: Number): Number {
    if n.NotANumber? then Finite(0.0) else n
  }

  /** `Number(s) || 0` */
  function NumberOrZero(s: string): Number {
    OrZero(JsNumber(s))
  }

  // ── when Go reads the same ──────────────────────────────────────────────────

  /** At most 53 significant bits. */
  predicate Fits(n: nat) {
    n < TWO_53 || (n % 2 == 0 && Fits(n / 2))
  }

  /** An optional sign and decimal digits: what `strconv.Atoi` accepts. */
  predicate GoInteger(s: string) {
    Numeral(Signed(s).1)
  }

  /** Not a number to JavaScript, or one that rounds to zero. */
  predicate Vanishes(s: string) {
    match Read(s)
    case None => true
    case Some(signed) =>
      match signed.1
      case Infinity => false
      case Decimal(d, e) => Scaled(d, e) * Unit() <= 0.5
  }

  /**
    An integer that fits both types, or, for Go's clamping at the lower end, one within half a step
    below it; anything else only when it vanishes.
   */
  predicate ReadsAlike(s: string) {
    if GoInteger(s) then
      var v := Value(Signed(s).1);
      if Signed(s).0 then v <= TWO_63 + HALF_STEP && (v > TWO_63 || Fits(v)) else v <= INT_MAX && Fits(v)
    else Vanishes(s)
  }

  lemma {:induction false} Pow2Positive(k: nat)
    ensures Pow2(k) >= 1
  {
    if k > 0 { Pow2Positive(k - 1); }
  }

  lemma {:induction false} Pow10Positive(k: nat)
    ensures Pow10(k) >= 1
  {
    if k > 0 { Pow10Positive(k - 1); }
  }

  lemma {:induction false} Pow2AtLeast(k: nat, j: nat)
    requires j <= k
    ensures Pow2(k) >= Pow2(j)
  {
    if j < k { Pow2AtLeast(k - 1, j); }
  }

  lemma {:induction false} RoundsLarge(q: real)
    requires q >= (TWO_53 / 2) as real
    ensures RoundUnits(q) >= TWO_53 / 2
    decreases q.Floor
  {
    if q >= TWO_53 as real { RoundsLarge(q / 2.0); }
  }

  lemma RoundsToZero(q: real)
    requires q >= 0.0
    ensures RoundUnits(q) == 0 <==> q <= 0.5
  {
    if q >= TWO_53 as real { RoundsLarge(q); }
  }

  lemma NearestWhole(n: nat)
    ensures Nearest(n as real) == n
  {
  }

  /** Even numbers from 2^53 on round like their halves. */
  lemma RoundsLikeHalf(n: nat)
    requires n >= TWO_53 && n % 2 == 0
    ensures RoundUnits(n as real) == 2 * RoundUnits((n / 2) as real)
  {
    assert n as real / 2.0 == (n / 2) as real;
  }

  /** A rounded number is a double: rounding it again changes nothing. */
  lemma {:induction false} RoundedStays(q: real)
    requires q >= 0.0
    ensures RoundUnits(RoundUnits(q) as real) == RoundUnits(q)
    decreases q.Floor
  {
    hide Nearest;
    if q < TWO_53 as real {
      NearestAtMost(q);
      NearestWhole(Nearest(q));
      if Nearest(q) == TWO_53 {
        RoundsLikeHalf(TWO_53);
        NearestWhole(TWO_53 / 2);
      }
    } else {
      RoundedStays(q / 2.0);
      RoundsLarge(q / 2.0);
      RoundsLikeHalf(2 * RoundUnits(q / 2.0));
    }
  }

  lemma NearestAtMost(q: real)
    requires 0.0 <= q < TWO_53 as real
    ensures Nearest(q) <= TWO_53
  {
  }

  lemma {:induction false} WholeStaysIfFits(v: nat)
    ensures RoundUnits(v as real) == v <==> Fits(v)
  {
    hide Nearest;
    if v < TWO_53 {
      NearestWhole(v);
    } else if v % 2 == 0 {
      WholeStaysIfFits(v / 2);
      RoundsLikeHalf(v);
    }
  }

  lemma {:induction false} UnitsStayIfFit(v: nat, k: nat)
    ensures RoundUnits((v * Pow2(k)) as real) == v * Pow2(k) <==> Fits(v)
  {
    hide Nearest;
    var q := v * Pow2(k);
    if k == 0 {
      WholeStaysIfFits(v);
    } else if q < TWO_53 {
      NearestWhole(q);
      Pow2Positive(k);
      Grows(v, Pow2(k));
    } else {
      UnitsStayIfFit(v, k - 1);
      assert q == 2 * (v * Pow2(k - 1));
      RoundsLikeHalf(q);
    }
  }

  lemma Grows(v: nat, p: nat)
    requires p >= 1
    ensures v <= v * p
  {
  }

  /** From 2^52 on rounding commutes with doubling. */
  lemma RoundsDouble(q: real)
    requires q >= (TWO_53 / 2) as real
    ensures RoundUnits(2.0 * q) == 2 * RoundUnits(q)
  {
    assert (2.0 * q) / 2.0 == q;
  }

  function Shifted(q: real, k: nat): real {
    if k == 0 then q else 2.0 * Shifted(q, k - 1)
  }

  lemma {:induction false} ShiftedIs(q: real, k: nat)
    ensures Shifted(q, k) == q * Pow2(k) as real
  {
    if k == 0 {
      TimesOne(q);
    } else {
      ShiftedIs(q, k - 1);
      ShiftStep(q, Pow2(k - 1) as real, Pow2(k) as real, Shifted(q, k - 1), Shifted(q, k));
    }
  }

  lemma TimesOne(q: real)
    ensures q * 1.0 == q
  {
  }

  lemma ShiftStep(q: real, p: real, twice: real, a: real, b: real)
    requires twice == 2.0 * p && a == q * p && b == 2.0 * a
    ensures b == q * twice
  {
    assert q * twice == 2.0 * (q * p);
  }

  lemma {:induction false} RoundsShifted(q: real, k: nat)
    requires q >= (TWO_53 / 2) as real
    ensures Shifted(q, k) >= q
    ensures RoundUnits(Shifted(q, k)) as real == Shifted(RoundUnits(q) as real, k)
    decreases k
  {
    hide RoundUnits;
    if k > 0 {
      RoundsShifted(q, k - 1);
      RoundsDouble(Shifted(q, k - 1));
    }
  }

  /** From 2^52 units of 2^k on, rounding commutes with dividing by 2^k. */
  lemma RoundsByHalves(q: real, k: nat)
    requires q >= (TWO_53 / 2) as real
    ensures q * Pow2(k) as real >= 0.0
    ensures RoundUnits(q * Pow2(k) as real) as real == RoundUnits(q) as real * Pow2(k) as real
  {
    hide RoundUnits, Shifted, Pow2;
    RoundsShifted(q, k);
    ShiftedIs(q, k);
    ShiftedIs(RoundUnits(q) as real, k);
  }

  // ── reading an integer ──────────────────────────────────────────────────────

  lemma {:induction false} AllLeadingDigits(s: string)
    requires forall c | c in s :: IsDigit(c)
    ensures LeadingDigits(s) == |s|
  {
    if s != "" {
      assert s[0] in s && forall c | c in s[1..] :: c in s;
      AllLeadingDigits(s[1..]);
    }
  }

  lemma IntegerIsTrimmed(s: string)
    requires GoInteger(s)
    ensures s != "" && Trim(s) == s && RadixOf(s) == 0 && Signed(s).1 != "Infinity"
  {
    var body := Signed(s).1;
    assert body[|body| - 1] in body && body[0] in body;
    assert s[|s| - 1] == body[|body| - 1];
    assert |s| >= 3 && s[0] == '0' ==> s == body && s[1] in body;
    assert "Infinity"[0] == 'I';
  }

  lemma IntegerReads(s: string)
    requires GoInteger(s)
    ensures Read(s) == Some((Signed(s).0, Decimal(Value(Signed(s).1), 0)))
  {
    hide Trim, RadixOf, LeadingDigits, Value;
    IntegerIsTrimmed(s);
    var body := Signed(s).1;
    AllLeadingDigits(body);
    assert body[..|body|] + body[|body|..][..0] == body;
    assert body[|body|..][0..] == "";
  }

  lemma {:induction false} Pow2Sum(a: nat, b: nat)
    ensures Pow2(a + b) == Pow2(a) * Pow2(b)
  {
    if b > 0 {
      Pow2Sum(a, b - 1);
      TwiceProduct(Pow2(a), Pow2(b - 1));
    }
  }

  lemma TwiceProduct(x: int, y: int)
    ensures x * (2 * y) == 2 * (x * y)
  {
  }

  /** An integer rounds to w exactly when its units do. */
  lemma RoundIs(negative: bool, v: nat, k: nat, w: nat)
    requires k == 1074 && w < Pow2(1024)
    ensures (Round(negative, v as real) == Finite(if negative then 0.0 - w as real else w as real))
       <==> RoundUnits((v * Pow2(k)) as real) == w * Pow2(k)
  {
    hide RoundUnits, Pow2;
    Pow2Positive(k);
    var u, r := Pow2(k), RoundUnits((v * Pow2(k)) as real);
    assert Unit() == u as real;
    assert v as real * u as real == (v * u) as real;
    Quotient(r, w, u);
  }

  lemma Quotient(r: nat, w: nat, u: nat)
    requires u >= 1
    ensures r as real / u as real == w as real <==> r == w * u
  {
    var q := r as real / u as real;
    assert q * u as real == r as real;
    if r == w * u {
      assert (q - w as real) * u as real == 0.0;
    }
  }

  lemma Sixteen()
    ensures Pow2(16) == 65536
  {
    assert Pow2(8) == 256;
    Pow2Sum(8, 8);
  }

  lemma BelowOverflow()
    ensures TWO_63 + TWO_63 <= Pow2(1024)
  {
    hide Pow2;
    Sixteen();
    Pow2Sum(16, 16);
    Pow2Sum(32, 32);
    Pow2AtLeast(1024, 64);
  }

  /** The integers that round down to 2^63. */
  lemma RoundsToEdge(v: nat, k: nat)
    requires v > TWO_63
    ensures RoundUnits((v * Pow2(k)) as real) == TWO_63 * Pow2(k) <==> v <= TWO_63 + HALF_STEP
  {
    hide RoundUnits, Pow2;
    var q, u := v as real / 2048.0, Pow2(k);
    Eleven();
    Pow2Sum(k, 11);
    var p := Pow2(k + 11);
    Cancel(v, u);
    RoundsByHalves(q, k + 11);
    EdgeOf(v);
    Pow2Positive(k + 11);
    assert TWO_63 * u == (TWO_53 / 2) * p;
    SameFactor(RoundUnits(q), TWO_53 / 2, p);
  }

  lemma Eleven()
    ensures Pow2(11) == 2048
  {
  }

  lemma Cancel(v: nat, u: nat)
    ensures v as real / 2048.0 * (u * 2048) as real == (v * u) as real
  {
    var q := v as real / 2048.0;
    assert q * 2048.0 == v as real;
    assert q * (u as real * 2048.0) == (q * 2048.0) * u as real;
  }

  lemma SameFactor(a: nat, b: nat, p: nat)
    requires p >= 1
    ensures a * p == b * p <==> a == b
  {
    if a * p == b * p { assert (a - b) * p == 0; }
  }

  lemma EdgeOf(v: nat)
    requires v > TWO_63
    ensures RoundUnits(v as real / 2048.0) == TWO_53 / 2 <==> v <= TWO_63 + HALF_STEP
  {
    var q := v as real / 2048.0;
    if q >= TWO_53 as real {
      RoundsLarge(q / 2.0);
    } else {
      assert q.Floor >= TWO_53 / 2;
    }
  }

  /** Go and JavaScript read the same value exactly on these strings. */
  lemma {:induction false} ReadsAlikeExact(s: string)
    ensures NumberOrZero(s) == Finite(Atoi(s) as real) <==> ReadsAlike(s)
  {
    hide Round, Read, Value, Vanishes, Atoi;
    if GoInteger(s) {
      IntegerReads(s);
      var v, negative := Value(Signed(s).1), Signed(s).0;
      assert Scaled(v, 0) == v as real;
      IntegerAlike(s, negative, v);
    } else {
      OthersAlike(s);
    }
  }

  lemma IntegerAlike(s: string, negative: bool, v: nat)
    requires GoInteger(s) && negative == Signed(s).0 && v == Value(Signed(s).1)
    ensures Round(negative, v as real) == Finite(Atoi(s) as real) <==> ReadsAlike(s)
  {
    hide Round, RoundUnits, Value, Pow2;
    BelowOverflow();
    var k := 1074;
    if negative {
      if v > TWO_63 {
        RoundIs(negative, v, k, TWO_63);
        RoundsToEdge(v, k);
      } else {
        RoundIs(negative, v, k, v);
        UnitsStayIfFit(v, k);
      }
    } else if v > INT_MAX {
      RoundIs(negative, v, k, INT_MAX);
      RoundedStays((v * Pow2(k)) as real);
      UnitsStayIfFit(INT_MAX, k);
    } else {
      RoundIs(negative, v, k, v);
      UnitsStayIfFit(v, k);
    }
  }

  lemma OthersAlike(s: string)
    requires !GoInteger(s)
    ensures Atoi(s) == 0 && (NumberOrZero(s) == Finite(0.0) <==> Vanishes(s))
  {
    hide Read, RoundUnits, Scaled, Unit;
    match Read(s) {
      case Some(signed) =>
        match signed.1 {
          case Decimal(d, e) => ZeroExact(signed.0, Scaled(d, e));
          case Infinity => {}
        }
      case None => {}
    }
  }

  lemma ZeroExact(negative: bool, x: real)
    requires x >= 0.0
    ensures Round(negative, x) == Finite(0.0) <==> x * Unit() <= 0.5
  {
    hide RoundUnits, Unit;
    RoundsToZero(x * Unit());
    var r := RoundUnits(x * Unit());
    Pow2Positive(1024);
    if r != 0 { assert r as real / Unit() > 0.0; }
  }

  // ── plain durations and printing ────────────────────────────────────────────

  /** Decimal digits that JavaScript counts exactly, or nothing at all. */
  predicate Plain(s: string) {
    s == "" || (Numeral(s) && Value(s) <= MAX_SAFE)
  }

  lemma PlainReadsAlike(s: string)
    requires Plain(s)
    ensures ReadsAlike(s)
  {
    if s == "" {
      assert Scaled(0, 0) == 0.0;
    } else {
      assert IsDigit(s[0]);
    }
  }

  lemma ItoaIsPlain(n: nat)
    requires n <= MAX_SAFE
    ensures Plain(Itoa(n)) && NumberOrZero(Itoa(n)) == Finite(n as real) && Atoi(Itoa(n)) == n
  {
    hide NumberOrZero, Value, Digits, Atoi;
    ValueOfDigits(n);
    PlainReadsAlike(Itoa(n));
    ReadsAlikeExact(Itoa(n));
    AtoiOfItoa(n);
  }

  lemma Visible(s: string, negative: bool, d: nat, e: int)
    requires Read(s) == Some((negative, Decimal(d, e))) && Scaled(d, e) >= 1.0
    ensures !Vanishes(s)
  {
    hide Read, Scaled, Unit;
    assert Scaled(d, e) * Unit() >= Unit() by { GrowsReal(Scaled(d, e), Unit()); }
  }

  lemma GrowsReal(x: real, u: real)
    requires x >= 1.0 && u >= 0.0
    ensures x * u >= u
  {
    assert (x - 1.0) * u >= 0.0;
  }

  /** Numbers that JavaScript reads and Go takes for a syntax error, or reads more exactly. */
  lemma SpellingsThatDiffer()
    ensures !ReadsAlike("1e3") && !ReadsAlike("212.4") && !ReadsAlike(" 12 ") && !ReadsAlike(Itoa(TWO_53 + 1))
  {
    hide ReadsAlike;
    ExponentDiffers();
    FractionDiffers();
    SpacesDiffer();
    PrecisionDiffers();
  }

  lemma ExponentDiffers()
    ensures !ReadsAlike("1e3")
  {
    hide Vanishes;
    var s := "1e3";
    assert s[1] == 'e' && !IsDigit(s[1]);
    assert Trim(s) == s && RadixOf(s) == 0;
    assert s[1..] == "e3" && s[..1] == "1" && "e3"[1..] == "3";
    assert LeadingDigits(s) == 1;
    assert "1" + "e3"[..0] == "1" && "e3"[0..] == "e3";
    assert Value("1") == 1 && Value("3") == 3 by { assert "1"[..0] == "" && "3"[..0] == ""; }
    assert Exponent("e3") == Some(3);
    assert Unsigned(s) == Some(Decimal(1, 3));
    assert Scaled(1, 3) >= 1.0 by { assert Pow10(3) == 1000; }
    Visible(s, false, 1, 3);
  }

  lemma FractionDiffers()
    ensures !ReadsAlike("212.4")
  {
    hide Vanishes;
    var s := "212.4";
    hide Unsigned;
    assert s[3] == '.' && !IsDigit(s[3]) && s[3] in s;
    NothingToTrim(s);
    assert RadixOf(s) == 0;
    MantissaOf2124();
    assert Scaled(2124, -1) >= 1.0 by { assert Pow10(1) == 10; }
    Visible(s, false, 2124, -1);
  }

  lemma MantissaOf2124()
    ensures Unsigned("212.4") == Some(Decimal(2124, -1))
  {
    hide Value;
    var s := "212.4";
    assert s[3] == '.' && s[..3] == "212" && s[3..] == ".4" && s[4..] == "4" && s[1..][1..][1..] == ".4";
    assert LeadingDigits(s) == 3;
    assert "4"[1..] == "" && "4"[..1] == "4" && LeadingDigits("4") == 1;
    assert "212" + "4" == "2124";
    ValueOf2124();
  }

  lemma ValueOf2124()
    ensures Numeral("2124") && Value("2124") == 2124
  {
    assert "2124"[..3] == "212" && "212"[..2] == "21" && "21"[..1] == "2" && "2"[..0] == "";
  }

  lemma SpacesDiffer()
    ensures !ReadsAlike(" 12 ")
  {
    hide Vanishes;
    var s := " 12 ";
    assert s[0] == ' ' && !IsDigit(s[0]) && s[0] in s;
    assert s[1..] == "12 " && "12 "[..2] == "12";
    assert Trim(s) == "12";
    assert "12"[..1] == "1" && "1"[..0] == "";
    assert Value("12") == 12;
    IntegerReads("12");
    assert Trim("12") == "12";
    assert Read(s) == Read("12");
    assert Scaled(12, 0) >= 1.0;
    Visible(s, false, 12, 0);
  }

  /** 2^53 + 1 has 54 significant bits. */
  lemma PrecisionDiffers()
    ensures !ReadsAlike(Itoa(TWO_53 + 1))
  {
    hide Value, Digits;
    ValueOfDigits(TWO_53 + 1);
    assert Digits(TWO_53 + 1)[0] in Digits(TWO_53 + 1);
    assert !Fits(TWO_53 + 1);
  }

  predicate IsDouble(n: Number) {
    match n
    case Infinite(_) => true
    case NotANumber => true
    case Finite(x) =>
      Units(x) as real == Magnitude(x) * Unit() && Magnitude(x) < Pow2(1024) as real
  }

  function Magnitude(x: real): (a: real)
    ensures a >= 0.0
  {
    if x < 0.0 then 0.0 - x else x
  }

  function Units(x: real): nat {
    RoundUnits(Magnitude(x) * Unit())
  }

  /**
    What ECMA-262 section 6.1.6.1.20 guarantees of `String(n)`: reading it gives the number back, and
    a whole number that counts exactly is printed in decimal digits.
   */
  ghost predicate Prints(show: Number -> string) {
    && (forall n | IsDouble(n) :: JsNumber(show(n)) == n)
    && (forall n: nat | n <= MAX_SAFE :: show(Finite(n as real)) == Itoa(n))
  }

  // ── such a printer exists ───────────────────────────────────────────────────

  function Pow5(k: nat): nat {
    if k == 0 then 1 else 5 * Pow5(k - 1)
  }

  lemma {:induction false} TenIsTwoTimesFive(k: nat)
    ensures Pow10(k) == Pow5(k) * Pow2(k) && Pow5(k) >= 1
  {
    if k > 0 {
      TenIsTwoTimesFive(k - 1);
      assert (5 * Pow5(k - 1)) * (2 * Pow2(k - 1)) == 10 * (Pow5(k - 1) * Pow2(k - 1));
    }
  }

  const TAIL := "e-1074"

  /** Every double is a whole number of 2^-1074, so it has an exact decimal spelling. */
  function Spelled(n: Number): string {
    match n
    case Infinite(negative) => if negative then "-Infinity" else "Infinity"
    case NotANumber => "NaN"
    case Finite(x) =>
      if 0.0 <= x <= MAX_SAFE as real && x.Floor as real == x then Itoa(x.Floor)
      else (if x < 0.0 then "-" else "") + DigitsOfUnits(Units(x), 1074) + TAIL
  }

  /** m * 2^-k is m * 5^k * 10^-k. */
  function DigitsOfUnits(m: nat, k: nat): (d: string)
    ensures Numeral(d)
  {
    Digits(m * Pow5(k))
  }

  lemma NothingToTrim(s: string)
    requires s != "" && !IsSpace(s[0]) && !IsSpace(s[|s| - 1])
    ensures Trim(s) == s
  {
  }

  lemma {:induction false} DigitsLead(d: string, rest: string)
    requires forall c | c in d :: IsDigit(c)
    requires rest != "" && !IsDigit(rest[0])
    ensures LeadingDigits(d + rest) == |d|
  {
    if d == "" {
      assert d + rest == rest;
    } else {
      assert d[0] in d && (d + rest)[1..] == d[1..] + rest;
      DigitsLead(d[1..], rest);
    }
  }

  lemma TailReads()
    ensures Exponent(TAIL) == Some(-1074)
  {
    assert TAIL[1..] == "-1074" && "-1074"[1..] == "1074";
    assert "1074"[..3] == "107" && "107"[..2] == "10" && "10"[..1] == "1" && "1"[..0] == "";
  }

  lemma SpellingReads(negative: bool, d: string)
    requires Numeral(d)
    ensures Read((if negative then "-" else "") + d + TAIL) == Some((negative, Decimal(Value(d), -1074)))
  {
    hide Value, Unsigned, Trim;
    var body := d + TAIL;
    var t := (if negative then "-" else "") + d + TAIL;
    assert d[0] in d && body[0] == d[0] && t[|t| - 1] == '4';
    assert t == if negative then "-" + body else body;
    NothingToTrim(t);
    assert body[1] == if |d| > 1 then d[1] else 'e';
    assert |d| > 1 ==> d[1] in d;
    assert RadixOf(t) == 0;
    assert Signed(t) == (negative, body);
    UnsignedSpelling(d);
  }

  lemma UnsignedSpelling(d: string)
    requires Numeral(d)
    ensures Unsigned(d + TAIL) == Some(Decimal(Value(d), -1074))
  {
    hide Value, Exponent, LeadingDigits;
    var body := d + TAIL;
    DigitsLead(d, TAIL);
    assert body[..|d|] == d && body[|d|..] == TAIL && TAIL[..0] == "" && TAIL[0..] == TAIL && d + "" == d;
    assert d[0] in d && body[0] == d[0];
    assert body != "Infinity" by { assert "Infinity"[0] == 'I'; }
    TailReads();
  }

  lemma UnitsBack(m: nat, k: nat)
    requires k == 1074
    ensures Scaled(m * Pow5(k), 0 - k) * Unit() == m as real
  {
    hide Pow2, Pow5, Pow10;
    TenIsTwoTimesFive(k);
    Pow2Positive(k);
    Pow10Positive(k);
    var five, two, ten := Pow5(k), Pow2(k), Pow10(k);
    var x := (m * five) as real / ten as real;
    assert x * ten as real == (m * five) as real;
    assert ten as real == five as real * two as real;
    assert (m * five) as real == m as real * five as real;
    var y := x * two as real;
    assert y * five as real == m as real * five as real;
    assert (y - m as real) * five as real == 0.0;
  }

  lemma SpelledReads(n: Number)
    requires IsDouble(n)
    ensures JsNumber(Spelled(n)) == n
  {
    match n {
      case Infinite(negative) =>
        InfinityReads(negative);
      case NotANumber =>
        NaNReads();
      case Finite(x) =>
        if 0.0 <= x <= MAX_SAFE as real && x.Floor as real == x {
          WholeReads(x.Floor);
        } else {
          FractionReads(x);
        }
    }
  }

  lemma InfinityReads(negative: bool)
    ensures JsNumber(if negative then "-Infinity" else "Infinity") == Infinite(negative)
  {
    var t := if negative then "-Infinity" else "Infinity";
    assert "-Infinity"[1..] == "Infinity";
    assert Trim(t) == t && RadixOf(t) == 0 && Signed(t) == (negative, "Infinity");
  }

  lemma NaNReads()
    ensures JsNumber("NaN") == NotANumber
  {
    var t := "NaN";
    NothingToTrim(t);
    assert LeadingDigits(t) == 0 && t[..0] + t[0..][..0] == "" && t[0] == 'N' && t[0..][0] == 'N';
    assert t != "Infinity" && Unsigned(t).None?;
    assert RadixOf(t) == 0 && Signed(t) == (false, t);
  }

  lemma WholeReads(n: nat)
    requires n <= MAX_SAFE
    ensures JsNumber(Itoa(n)) == Finite(n as real)
  {
    hide Value, Digits, Round;
    ItoaIsPlain(n);
    assert Digits(n)[0] in Digits(n);
    IntegerReads(Itoa(n));
  }

  lemma Divides(m: real, u: real, a: real)
    requires u > 0.0 && m == a * u
    ensures m / u == a
  {
    var q := m / u;
    assert q * u == m;
    assert (q - a) * u == 0.0;
  }

  lemma RoundExact(negative: bool, y: real, m: nat, a: real)
    requires y >= 0.0 && y * Unit() == m as real && RoundUnits(m as real) == m
    requires m as real == a * Unit() && a < Pow2(1024) as real
    ensures Round(negative, y) == Finite(if negative then 0.0 - a else a)
  {
    hide Pow2, RoundUnits, Unit;
    Divides(m as real, Unit(), a);
  }

  lemma FractionReads(x: real)
    requires IsDouble(Finite(x)) && !(0.0 <= x <= MAX_SAFE as real && x.Floor as real == x)
    ensures JsNumber(Spelled(Finite(x))) == Finite(x)
  {
    hide Pow2, Pow5, Units, Digits, Value, Scaled, Unit, Read, Round, Magnitude;
    var m := Units(x);
    var d := DigitsOfUnits(m, 1074);
    ValueOfDigits(m * Pow5(1074));
    SpellingReads(x < 0.0, d);
    UnitsBack(m, 1074);
    UnitsStay(x);
    RoundExact(x < 0.0, Scaled(m * Pow5(1074), -1074), m, Magnitude(x));
    Signs(x);
  }

  lemma UnitsStay(x: real)
    ensures RoundUnits(Units(x) as real) == Units(x)
  {
    hide RoundUnits, Unit, Magnitude;
    RoundedStays(Magnitude(x) * Unit());
  }

  lemma Signs(x: real)
    ensures x == if x < 0.0 then 0.0 - Magnitude(x) else Magnitude(x)
  {
  }

  lemma SomePrinterExists()
    ensures Prints(Spelled)
  {
    hide JsNumber, IsDouble, Spelled;
    forall n | IsDouble(n) ensures JsNumber(Spelled(n)) == n {
      SpelledReads(n);
    }
    forall n: nat | n <= MAX_SAFE ensures Spelled(Finite(n as real)) == Itoa(n) {
      SpelledWhole(n);
    }
  }

  lemma SpelledWhole(n: nat)
    requires n <= MAX_SAFE
    ensures Spelled(Finite(n as real)) == Itoa(n)
  {
  }
}
