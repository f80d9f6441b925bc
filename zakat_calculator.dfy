/**
 * The zakat calculator card: six text fields, the weighted sum of what
 * they hold, the nisab threshold and the 2.5 % rate.
 *
 * Amounts are exact reals. Parsing a field is a parameter (`parse`): it
 * yields the number `parseFloat` would read, or `None` where `parseFloat`
 * gives NaN.
 */
module ZakatCalculator {
  import opened Types

  /** The text of the six input fields. */
  datatype ZakatValues = ZakatValues(
    cash: string, gold: string, silver: string,
    stocks: string, business: string, other: string)

  /** The name of one input field. */
  datatype Field = Cash | Gold | Silver | Stocks | Business | Other

  function Get(values: ZakatValues, field: Field): string {
    match field
    case Cash => values.cash
    case Gold => values.gold
    case Silver => values.silver
    case Stocks => values.stocks
    case Business => values.business
    case Other => values.other
  }

  /** `{ ...prev, [field]: value }` */
  function With(values: ZakatValues, field: Field, value: string): (r: ZakatValues)
    ensures Get(r, field) == value
    ensures forall f :: f != field ==> Get(r, f) == Get(values, f)
  {
    match field
    case Cash => values.(cash := value)
    case Gold => values.(gold := value)
    case Silver => values.(silver := value)
    case Stocks => values.(stocks := value)
    case Business => values.(business := value)
    case Other => values.(other := value)
  }

  const EmptyValues: ZakatValues := ZakatValues("", "", "", "", "", "")

  const GoldPricePerGram: real := 70.0
  const SilverPricePerGram: real := 0.8
  const GoldNisabGrams: real := 87.48
  const SilverNisabGrams: real := 612.36
  const ZakatRate: real := 0.025

  /** `parseFloat(text) || 0`: the number read, with NaN (and 0) giving 0. */
  function Amount(parse: string -> Option<real>, text: string): (a: real)
    ensures parse(text).None? ==> a == 0.0
    ensures parse(text).Some? ==> a == parse(text).value
  {
    parse(text).GetOr(0.0)
  }

  /** Cash, gold grams at the gold price, silver grams at the silver price, stocks, business assets, other. */
  function TotalWealth(cash: real, gold: real, silver: real, stocks: real, business: real, other: real): (total: real)
    ensures cash >= 0.0 && gold >= 0.0 && silver >= 0.0 && stocks >= 0.0 && business >= 0.0 && other >= 0.0 ==>
      total >= 0.0
  {
    cash + gold * GoldPricePerGram + silver * SilverPricePerGram + stocks + business + other
  }

  /** The total wealth the six fields describe. */
  function TotalOf(parse: string -> Option<real>, values: ZakatValues): (total: real)
    ensures (forall f :: Amount(parse, Get(values, f)) >= 0.0) ==> total >= 0.0
  {
    assert Get(values, Cash) == values.cash && Get(values, Gold) == values.gold
      && Get(values, Silver) == values.silver && Get(values, Stocks) == values.stocks
      && Get(values, Business) == values.business && Get(values, Other) == values.other;
    TotalWealth(
      Amount(parse, values.cash), Amount(parse, values.gold), Amount(parse, values.silver),
      Amount(parse, values.stocks), Amount(parse, values.business), Amount(parse, values.other))
  }

  /** The smaller of the gold and the silver nisab values: with these prices, the silver one. */
  function NisabThreshold(): (nisab: real)
    ensures nisab <= GoldNisabGrams * GoldPricePerGram && nisab <= SilverNisabGrams * SilverPricePerGram
    ensures nisab == GoldNisabGrams * GoldPricePerGram || nisab == SilverNisabGrams * SilverPricePerGram
    ensures nisab == 489.888
  {
    var goldNisabValue := GoldNisabGrams * GoldPricePerGram;
    var silverNisabValue := SilverNisabGrams * SilverPricePerGram;
    if goldNisabValue <= silverNisabValue then goldNisabValue else silverNisabValue
  }

  /** Nothing below the threshold; from the threshold up, 2.5 % of the whole total. */
  function ZakatDue(totalWealth: real): (zakat: real)
    ensures totalWealth < NisabThreshold() ==> zakat == 0.0
    ensures totalWealth >= NisabThreshold() ==> zakat == totalWealth * ZakatRate
  {
    if totalWealth < NisabThreshold() then 0.0 else totalWealth * ZakatRate
  }

  /** For a non-negative total, zakat is never negative and never more than the total. */
  lemma ZakatBounds(totalWealth: real)
    requires totalWealth >= 0.0
    ensures 0.0 <= ZakatDue(totalWealth) <= totalWealth
  {
  }

  /** More wealth never means less zakat. */
  lemma ZakatMonotone(t1: real, t2: real)
    requires t1 <= t2
    ensures ZakatDue(t1) <= ZakatDue(t2)
  {
  }

  /**
   * The rate applies to the whole total, not to the excess over the
   * threshold: above it, zakat exceeds 2.5 % of the excess by exactly
   * 2.5 % of the threshold, and at the threshold it jumps from nothing to
   * 12.2472.
   */
  lemma ZakatOnWholeTotal(totalWealth: real)
    requires totalWealth >= NisabThreshold()
    ensures ZakatDue(totalWealth) == (totalWealth - NisabThreshold()) * ZakatRate + NisabThreshold() * ZakatRate
    ensures ZakatDue(NisabThreshold()) == 12.2472
    ensures forall t :: t < NisabThreshold() ==> ZakatDue(t) == 0.0
  {
  }

  /** With every field empty (which `parseFloat` reads as NaN), there is no zakat. */
  lemma EmptyFieldsOweNothing(parse: string -> Option<real>)
    requires parse("").None?
    ensures TotalOf(parse, EmptyValues) == 0.0
    ensures ZakatDue(TotalOf(parse, EmptyValues)) == 0.0
  {
  }

  /** The calculator card's state: the field texts, the computed amount (`null` before any) and whether it is shown. */
  class ZakatCalculatorCard {
    var values: ZakatValues
    var zakatAmount: Option<real>
    var showResult: bool

    constructor ()
      ensures values == EmptyValues && zakatAmount.None? && !showResult
    {
      values := EmptyValues;
      zakatAmount := None;
      showResult := false;
    }

    /** `calculateZakat`: reads the fields, sets the amount and shows it. */
    method CalculateZakat(parse: string -> Option<real>)
      modifies this
      ensures zakatAmount == Some(ZakatDue(TotalOf(parse, values)))
      ensures showResult
      ensures values == old(values)
    {
      var cash := Amount(parse, values.cash);
      var gold := Amount(parse, values.gold);
      var silver := Amount(parse, values.silver);
      var stocks := Amount(parse, values.stocks);
      var business := Amount(parse, values.business);
      var other := Amount(parse, values.other);
      var goldValue := gold * GoldPricePerGram;
      var silverValue := silver * SilverPricePerGram;
      var totalWealth := cash + goldValue + silverValue + stocks + business + other;
      var nisabThreshold := NisabThreshold();
      if totalWealth < nisabThreshold {
        zakatAmount := Some(0.0);
      } else {
        zakatAmount := Some(totalWealth * ZakatRate);
      }
      showResult := true;
    }

    /** `resetCalculator`: empties every field, forgets the amount and hides it. */
    method ResetCalculator()
      modifies this
      ensures values == EmptyValues && zakatAmount.None? && !showResult
    {
      values := EmptyValues;
      zakatAmount := None;
      showResult := false;
    }

    /** `updateValue(field, value)`: replaces one field's text. */
    method UpdateValue(field: Field, value: string)
      modifies this
      ensures values == With(old(values), field, value)
      ensures zakatAmount == old(zakatAmount) && showResult == old(showResult)
    {
      values := With(values, field, value);
    }
  }
}
