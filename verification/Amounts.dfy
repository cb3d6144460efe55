/** The amounts the cutover computes with (amount-conversion.ts and the balance
    readers of runtime-services.ts).

    Strings are what the program stores; the saga modules work on the integers
    behind them. Three units occur: pico (10^-12 dollars, one digit of
    toFixed(12)), precise cents in units of 10^-8 dollars, and USDT micros. */
module Amounts {
  import opened Common
  import opened Division
  import opened Decimals

  const MICROS_PER_CENT: nat := 10000

  // ---------------------------------------------------------------------------
  // Integers

  /** readSourceBalanceUsdCents: the balance cut to eight dollar places. */
  function PreciseUnits(pico: nat): nat { pico / 10000 }

  /** usdCentsToUsdtMicros on precise units. */
  function MicrosOf(units: nat): nat { (units + 50) / 100 }

  /** readDestinationBalanceUsdtMicros: rounded half up. */
  function ReadMicros(pico: nat): nat { (pico + 500000) / 1000000 }

  /** readDestinationSpendableUsdtMicros: floored. */
  function SpendableMicros(pico: nat): nat { pico / 1000000 }

  /** hasOnlySubMicroMajorUnitDust */
  predicate OnlyDust(pico: nat) { pico < 1000000 }

  /** What the legacy wallet still misses of the recorded source, in micros. */
  function LegacyShortfall(source: nat, current: nat): nat {
    if MicrosOf(current) >= MicrosOf(source) then 0 else MicrosOf(source) - MicrosOf(current)
  }

  /** What the destination has not received of the target, in micros. */
  function DestinationShortfall(target: nat, starting: nat, current: nat): nat {
    var received := if current > starting then current - starting else 0;
    if received >= target then 0 else target - received
  }

  function CentsCeil(micros: nat): nat { (micros + MICROS_PER_CENT - 1) / MICROS_PER_CENT }

  // ---------------------------------------------------------------------------
  // Strings

  function ParseInteger(v: string): Result<nat, AmountError> {
    if v != "" && AllDigits(v) then Ok(DigitsValue(v)) else Err(InvalidAmount)
  }

  function UsdCentsToUsdtMicros(cents: string): Result<string, AmountError> {
    ToScaledInteger(cents, 4)
  }

  function UsdtMicrosToUsdCentsCeil(micros: string): Result<string, AmountError> {
    match ParseInteger(micros)
    case Err(e) => Err(e)
    case Ok(m) => Ok(Show(CentsCeil(m)))
  }

  function LegacyShortfallUsdtMicros(source: string, current: string): Result<string, AmountError> {
    ShortfallBetween(UsdCentsToUsdtMicros(source), UsdCentsToUsdtMicros(current))
  }

  function ShortfallBetween(source: Result<string, AmountError>, current: Result<string, AmountError>)
    : Result<string, AmountError>
  {
    match (source, current)
    case (Ok(s), Ok(c)) =>
      if !AllDigits(s) || !AllDigits(c) then Err(InvalidAmount)
      else if DigitsValue(c) >= DigitsValue(s) then Ok("0")
      else Ok(Show(DigitsValue(s) - DigitsValue(c)))
    case _ => Err(InvalidAmount)
  }

  function DestinationShortfallUsdtMicros(target: string, starting: string, current: string)
    : Result<string, AmountError>
  {
    match (ParseInteger(target), ParseInteger(starting), ParseInteger(current))
    case (Ok(t), Ok(s), Ok(c)) =>
      var received := if c > s then c - s else 0;
      if received >= t then Ok("0") else Ok(Show(t - received))
    case _ => Err(InvalidAmount)
  }

  /** How a precise balance is stored: cents with up to six places. */
  function StoredCents(units: nat): string { FromScaledInteger(Show(units), 6) }

  // ---------------------------------------------------------------------------
  // The strings carry exactly the integers

  /** A toFixed(12) balance, read in each of the three ways. */
  lemma {:induction false} BalanceReadsAreExact(balance: string, pico: nat)
    requires IsDecimal(balance) && |Fraction(balance)| == 12 && pico == Numerator(balance)
    ensures PreciseCents(balance) == Ok(StoredCents(PreciseUnits(pico)))
    ensures RuntimeScaled(balance, 6, true) == Ok(ReadMicros(pico))
    ensures RuntimeScaled(balance, 6, false) == Ok(SpendableMicros(pico))
  {
    Powers();
    RuntimeScalingIsExact(balance, 8, 100000000);
    RuntimeScalingIsExact(balance, 6, 1000000);
    TwelvePlaces(pico);
  }

  /** The test for dust compares the normalised balance with a micro, exactly. */
  lemma {:induction false} DustIsUnderAMicro(balance: string, pico: nat, n: string)
    requires IsDecimal(balance) && |Fraction(balance)| == 12 && pico == Numerator(balance) && n == Normalize(balance)
    ensures IsDecimal(n) && (OnlyDust(pico) <==> Numerator(n) * 1000000 < Denominator(n))
    ensures OnlyDust(pico) <==> SpendableMicros(pico) == 0
  {
    NormalizeWithPoint(balance, n);
    var places := |Fraction(n)|;
    Pow10Add(places, 12 - places, 12);
    ShiftIsProduct(Numerator(n), 12 - places);
    Powers();
    SameComparison(Numerator(n), Pow10(places), Pow10(12 - places), pico);
  }

  lemma {:induction false} SameComparison(num: nat, den: nat, factor: nat, pico: nat)
    requires factor > 0 && pico == num * factor && den * factor == 1000000000000
    ensures pico < 1000000 <==> num * 1000000 < den
  {
    assert num * 1000000 * factor == pico * 1000000;
    if num * 1000000 < den {
      MulLe(num * 1000000 + 1, den, factor);
    } else {
      MulLe(den, num * 1000000, factor);
    }
  }

  lemma {:induction false} TwelvePlaces(pico: nat)
    ensures pico * 100000000 / 1000000000000 == PreciseUnits(pico)
    ensures pico * 1000000 / 1000000000000 == SpendableMicros(pico)
    ensures RoundHalfUp(pico * 1000000, 1000000000000) == ReadMicros(pico)
  {
    CancelFactor(pico, 10000, 100000000);
    CancelFactor(pico, 1000000, 1000000);
    RoundHalfUpCancels(pico, 1000000, 1000000);
    CancelFactor(pico + 500000, 1000000, 2);
  }

  /** The stored target is the stored source rounded half up, and equals the
      balance rounded to micros in one step. */
  lemma {:induction false} TargetIsRoundedBalance(pico: nat)
    ensures UsdCentsToUsdtMicros(StoredCents(PreciseUnits(pico))) == Ok(Show(MicrosOf(PreciseUnits(pico))))
    ensures MicrosOf(PreciseUnits(pico)) == ReadMicros(pico)
  {
    CentsToMicros(PreciseUnits(pico));
    NestedFloor(pico, 10000, 50, 100);
  }

  lemma {:induction false} LegacyShortfallIsExact(source: nat, current: nat)
    ensures LegacyShortfallUsdtMicros(StoredCents(source), StoredCents(current))
         == Ok(Show(LegacyShortfall(source, current)))
    ensures MicrosOf(current) + LegacyShortfall(source, current)
         == if MicrosOf(current) >= MicrosOf(source) then MicrosOf(current) else MicrosOf(source)
  {
    CentsToMicros(source);
    CentsToMicros(current);
    ShortfallOfShown(MicrosOf(source), MicrosOf(current));
  }

  lemma {:induction false} ShortfallOfShown(s: nat, c: nat)
    ensures ShortfallBetween(Ok(Show(s)), Ok(Show(c))) == Ok(Show(if c >= s then 0 else s - c))
  {
    ShowValue(s);
    ShowValue(c);
  }

  /** Invalid digits in any argument are refused; otherwise the shortfall tops the
      received amount up to the target and never past it. */
  lemma {:induction false} DestinationShortfallIsExact(target: string, starting: string, current: string)
    ensures var r := DestinationShortfallUsdtMicros(target, starting, current);
            match (ParseInteger(target), ParseInteger(starting), ParseInteger(current))
            case (Ok(t), Ok(s), Ok(c)) =>
              && r == Ok(Show(DestinationShortfall(t, s, c)))
              && (s <= c ==> c - s + DestinationShortfall(t, s, c) == if c - s >= t then c - s else t)
              && (s > c ==> DestinationShortfall(t, s, c) == t)
            case _ => r == Err(InvalidAmount)
  {}

  /** Malformed digits are refused; otherwise the result is the least number of cents
      that covers the micros, in digits. */
  lemma {:induction false} CentsCeilIsLeast(micros: string, cents: nat)
    ensures match UsdtMicrosToUsdCentsCeil(micros)
            case Err(_) => micros == "" || !AllDigits(micros)
            case Ok(r) =>
              && micros != "" && AllDigits(micros) && AllDigits(r) && r != ""
              && (cents * MICROS_PER_CENT >= DigitsValue(micros) <==> cents >= DigitsValue(r))
  {
    if micros != "" && AllDigits(micros) { ShowValue(CentsCeil(DigitsValue(micros))); }
  }

  // ---------------------------------------------------------------------------
  // Whole micros move readings by whole micros

  lemma {:induction false} ReadingsMoveExactly(pico: nat, micros: nat)
    ensures ReadMicros(pico + micros * 1000000) == ReadMicros(pico) + micros
    ensures SpendableMicros(pico + micros * 1000000) == SpendableMicros(pico) + micros
  {}

  lemma {:induction false} LegacyReadingMoves(pico: nat, credit: nat, micros: nat)
    requires micros * 1000000 <= credit
    ensures MicrosOf(PreciseUnits(pico + credit)) >= MicrosOf(PreciseUnits(pico)) + micros
  {
    NestedFloor(pico, 10000, 50, 100);
    NestedFloor(pico + credit, 10000, 50, 100);
  }

  lemma {:induction false} TakingAllLeavesDust(pico: nat)
    ensures SpendableMicros(pico) * 1000000 <= pico
    ensures SpendableMicros(pico - SpendableMicros(pico) * 1000000) == 0
  {}

  lemma {:induction false} LessIsSpendable(less: nat, more: nat)
    requires less <= more
    ensures SpendableMicros(less) <= SpendableMicros(more)
  {}
}
