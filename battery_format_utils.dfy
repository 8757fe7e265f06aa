/**
 * Display formatting of the battery health percentage and of the serial number.
 * The percentage is computed over exact reals; the integer modes round it
 * the way Swift's ceil, round and floor do.
 */
module BatteryFormatUtils {
  import opened Decimal
  import SettingsUtils

  /** Largest integer not above x. */
  function FloorOf(x: real): (k: int)
    ensures k as real <= x < k as real + 1.0
  {
    x.Floor
  }

  /** Smallest integer not below x. */
  function CeilOf(x: real): (k: int)
    ensures x <= k as real < x + 1.0
  {
    -((-x).Floor)
  }

  /** Swift's `round`: to the nearest integer, halves away from zero. */
  function RoundOf(x: real): (k: int)
    ensures x >= 0.0 ==> x - 0.5 < k as real <= x + 0.5
    ensures x < 0.0 ==> x - 0.5 <= k as real < x + 0.5
  {
    if x >= 0.0 then (x + 0.5).Floor else -((-x + 0.5).Floor)
  }

  /** `Double(nominal) / Double(design) * 100.0` */
  function HealthRatio(nominal: int, design: int): real
    requires design != 0
  {
    (nominal as real) / (design as real) * 100.0
  }

  /** The text shown for the health percentage. `Keep` stays a two-decimal token. */
  datatype CapacityText = Whole(digits: string) | TwoDecimals(nominal: int, design: int)

  /** The integer a rounding mode produces; Keep has none. */
  function RoundedPercent(nominal: int, design: int, accuracy: SettingsUtils.MaximumCapacityAccuracy): (k: int)
    requires design != 0 && accuracy != SettingsUtils.Keep
    ensures accuracy == SettingsUtils.Floor ==> k as real <= HealthRatio(nominal, design) < k as real + 1.0
    ensures accuracy == SettingsUtils.Ceiling ==> HealthRatio(nominal, design) <= k as real < HealthRatio(nominal, design) + 1.0
    ensures accuracy == SettingsUtils.Round ==> -0.5 <= k as real - HealthRatio(nominal, design) <= 0.5
  {
    var x := HealthRatio(nominal, design);
    match accuracy
    case Ceiling => CeilOf(x)
    case Round => RoundOf(x)
    case Floor => FloorOf(x)
  }

  /**
   * `getFormatMaximumCapacity`: the integer modes give the decimal form of
   * the rounded percentage. A zero design capacity is excluded: the source
   * then converts an infinite or NaN value to Int, which traps.
   */
  function FormatMaximumCapacity(nominal: int, design: int, accuracy: SettingsUtils.MaximumCapacityAccuracy): (r: CapacityText)
    requires design != 0
    ensures accuracy == SettingsUtils.Keep <==> r.TwoDecimals?
    ensures r.TwoDecimals? ==> r.nominal == nominal && r.design == design
    ensures r.Whole? ==> IsDecimal(r.digits) && ParseDecimal(r.digits) == RoundedPercent(nominal, design, accuracy)
  {
    if accuracy == SettingsUtils.Keep then TwoDecimals(nominal, design)
    else
      var k := RoundedPercent(nominal, design, accuracy);
      DecimalRoundTrip(k);
      Whole(IntToDecimal(k))
  }

  /** Floor never exceeds Round, Round never exceeds Ceiling, and Ceiling is at most one above Floor. */
  lemma RoundingModesOrdered(nominal: int, design: int)
    requires design != 0
    ensures RoundedPercent(nominal, design, SettingsUtils.Floor) <= RoundedPercent(nominal, design, SettingsUtils.Round)
    ensures RoundedPercent(nominal, design, SettingsUtils.Round) <= RoundedPercent(nominal, design, SettingsUtils.Ceiling)
    ensures RoundedPercent(nominal, design, SettingsUtils.Ceiling) - RoundedPercent(nominal, design, SettingsUtils.Floor) <= 1
  {
  }

  /** A battery at its design capacity shows 100 in every integer mode. */
  lemma FullBatteryShowsHundred(capacity: int, accuracy: SettingsUtils.MaximumCapacityAccuracy)
    requires capacity != 0 && accuracy != SettingsUtils.Keep
    ensures FormatMaximumCapacity(capacity, capacity, accuracy) == Whole("100")
  {
    SelfRatio(capacity as real);
    IntegralPercentExact(capacity, capacity, accuracy, 100);
    assert NatToDigits(100) == "100" by {
      assert NatToDigits(1) == "1";
      assert NatToDigits(10) == "10";
    }
  }

  lemma SelfRatio(c: real)
    requires c != 0.0
    ensures c / c * 100.0 == 100.0
  {
  }

  /** An integral percentage is shown exactly, whatever the mode. */
  lemma IntegralPercentExact(nominal: int, design: int, accuracy: SettingsUtils.MaximumCapacityAccuracy, k: int)
    requires design != 0 && accuracy != SettingsUtils.Keep
    requires HealthRatio(nominal, design) == k as real
    ensures FormatMaximumCapacity(nominal, design, accuracy) == Whole(IntToDecimal(k))
  {
    var r := RoundedPercent(nominal, design, accuracy);
    assert r == k by {
      if accuracy == SettingsUtils.Round {
        assert -0.5 <= (r - k) as real <= 0.5;
      }
    }
  }

  /** `maskSerialNumber`: the first five characters, then one `*` per remaining character. */
  function MaskSerialNumber(serial: string): (r: string)
    ensures |r| == |serial|
    ensures |serial| < 5 ==> r == serial
    ensures |serial| >= 5 ==> r[..5] == serial[..5] && forall k :: 5 <= k < |r| ==> r[k] == '*'
  {
    if |serial| < 5 then serial
    else serial[..5] + seq(|serial| - 5, _ => '*')
  }

  /** Masking an already masked serial changes nothing. */
  lemma MaskIdempotent(serial: string)
    ensures MaskSerialNumber(MaskSerialNumber(serial)) == MaskSerialNumber(serial)
  {
  }
}
