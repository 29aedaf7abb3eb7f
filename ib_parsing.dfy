/** The Interactive Brokers parsing tables: market-depth operations, sides, bar sizes and durations. */
module IbParsing {
  import opened Outcomes
  import opened Strings

  datatype BookAction = Add | Update | Delete | Clear

  datatype OrderSide = NoOrderSide | Buy | Sell

  /** IB's market-depth `operation` code to the book action it performs. */
  const MktDepthOperations: map<int, BookAction> := map[0 := Add, 1 := Update, 2 := Delete]

  /** IB's market-depth `side` code to the order side. */
  const IbSide: map<int, OrderSide> := map[1 := Buy, 0 := Sell]

  /** Every depth code has its own action, and CLEAR is never produced. */
  lemma DepthOperationsTable()
    ensures MktDepthOperations.Keys == {0, 1, 2}
    ensures MktDepthOperations.Values == {Add, Update, Delete}
    ensures forall a, b ::
      a in MktDepthOperations && b in MktDepthOperations && MktDepthOperations[a] == MktDepthOperations[b]
      ==> a == b
  {
    assert MktDepthOperations[0] == Add && MktDepthOperations[1] == Update && MktDepthOperations[2] == Delete;
  }

  /** Side 1 buys, side 0 sells, and no other code is known. */
  lemma SideTable()
    ensures IbSide.Keys == {0, 1}
    ensures IbSide.Values == {Buy, Sell}
    ensures forall a, b :: a in IbSide && b in IbSide && IbSide[a] == IbSide[b] ==> a == b
  {
    assert IbSide[0] == Sell && IbSide[1] == Buy;
  }

  datatype BarAggregation =
    | Tick | TickImbalance | TickRuns
    | Volume | VolumeImbalance | VolumeRuns
    | Value | ValueImbalance | ValueRuns
    | Millisecond | Second | Minute | Hour | Day | Week | Month

  datatype BarSpecification = BarSpecification(step: int, aggregation: BarAggregation)

  /** The bar sizes IB accepts, as a table independent of the case analysis below. */
  const SupportedSteps: map<BarAggregation, set<int>> := map[
    Second := {5, 10, 15, 30},
    Minute := {1, 2, 3, 5, 10, 15, 20, 30},
    Hour := {1, 2, 3, 4, 8},
    Day := {1},
    Week := {1}
  ]

  predicate Supported(spec: BarSpecification)
  {
    spec.aggregation in SupportedSteps && spec.step in SupportedSteps[spec.aggregation]
  }

  /** The unit word IB expects after the step: plural exactly when the step is not 1, except
      that seconds are always "secs" and days and weeks always singular. */
  function UnitWord(aggregation: BarAggregation, step: int): string
  {
    match aggregation
    case Second => "secs"
    case Minute => if step == 1 then "min" else "mins"
    case Hour => if step == 1 then "hour" else "hours"
    case Day => "day"
    case Week => "week"
    case _ => ""
  }

  /** `(use_real_time_bars, bar_size)` for a bar specification, or ValueError. */
  function BarSpecToBarSize(spec: BarSpecification): (r: Result<(bool, string)>)
    ensures r.Ok? <==> Supported(spec)
    ensures r.Err? ==> r.error == ValueError
    ensures r.Ok? ==> (r.value.0 <==> spec.aggregation == Second && spec.step == 5)
  {
    var aggregation := spec.aggregation;
    var step := spec.step;
    if aggregation == Second && step == 5 then
      Ok((true, IntToString(step) + " secs"))
    else if aggregation == Second && step in [10, 15, 30] then
      Ok((false, IntToString(step) + " secs"))
    else if aggregation == Minute && step in [1, 2, 3, 5, 10, 15, 20, 30] then
      Ok((false, IntToString(step) + " min" + (if step == 1 then "" else "s")))
    else if aggregation == Hour && step in [1, 2, 3, 4, 8] then
      Ok((false, IntToString(step) + " hour" + (if step == 1 then "" else "s")))
    else if aggregation == Day && step == 1 then
      Ok((false, IntToString(step) + " day"))
    else if aggregation == Week && step == 1 then
      Ok((false, IntToString(step) + " week"))
    else
      Err(ValueError)
  }

  /** Each size is the step, a space and the unit word. */
  lemma BarSizeSpelling(spec: BarSpecification)
    ensures BarSpecToBarSize(spec).Ok? ==>
      BarSpecToBarSize(spec).value.1 == IntToString(spec.step) + " " + UnitWord(spec.aggregation, spec.step)
  {
    var n := IntToString(spec.step);
    match spec.aggregation {
      case Second =>
        assert n + " secs" == n + " " + "secs";
      case Minute =>
        assert n + " min" + "" == n + " " + "min";
        assert n + " min" + "s" == n + " " + "mins";
      case Hour =>
        assert n + " hour" + "" == n + " " + "hour";
        assert n + " hour" + "s" == n + " " + "hours";
      case Day =>
        assert n + " day" == n + " " + "day";
      case Week =>
        assert n + " week" == n + " " + "week";
      case _ =>
    }
  }

  function AggregationOfUnit(word: string): Option<BarAggregation>
  {
    if word == "secs" then Some(Second)
    else if word in ["min", "mins"] then Some(Minute)
    else if word in ["hour", "hours"] then Some(Hour)
    else if word == "day" then Some(Day)
    else if word == "week" then Some(Week)
    else None
  }

  /** Reads an IB bar-size string such as "15 mins" back into a bar specification. */
  function ParseBarSize(barSize: string): Option<BarSpecification>
  {
    var (digits, word) := SplitOnce(barSize, ' ');
    if |digits| == 0 || !AllDigits(digits) then None
    else match AggregationOfUnit(word)
      case None => None
      case Some(aggregation) => Some(BarSpecification(ParseNat(digits), aggregation))
  }

  /** Every bar size this adapter produces names the specification it came from. */
  lemma BarSizeRoundTrip(spec: BarSpecification)
    requires Supported(spec)
    ensures ParseBarSize(BarSpecToBarSize(spec).value.1) == Some(spec)
  {
    var step := spec.step;
    assert step >= 1;
    var word := UnitWord(spec.aggregation, step);
    BarSizeSpelling(spec);
    var size := BarSpecToBarSize(spec).value.1;
    assert size == Decimal(step) + " " + word;
    SplitAfterDigits(Decimal(step), word);
    assert SplitOnce(size, ' ') == (Decimal(step), word);
    assert AggregationOfUnit(word) == Some(spec.aggregation);
    ParseDecimal(step);
  }

  /** The minute and hour sizes carry the plural "s" exactly when the step is not 1. */
  lemma BarSizePlural(spec: BarSpecification)
    requires Supported(spec) && spec.aggregation in {Minute, Hour}
    ensures BarSpecToBarSize(spec).value.1[|BarSpecToBarSize(spec).value.1| - 1] == 's' <==> spec.step != 1
  {
  }

  datatype DurationUnit = Years | Months | Weeks | Days | Seconds

  function UnitLetter(u: DurationUnit): char
  {
    match u
    case Years => 'Y'
    case Months => 'M'
    case Weeks => 'W'
    case Days => 'D'
    case Seconds => 'S'
  }

  /** `datetime.timedelta` after Python's normalisation: any days, 0 <= seconds < 86400,
      0 <= microseconds < 1000000. */
  datatype TimeDelta = TimeDelta(days: int, seconds: nat, microseconds: nat)

  predicate Normalized(d: TimeDelta)
  {
    d.seconds < 86400 && d.microseconds < 1000000
  }

  function TotalMicroseconds(d: TimeDelta): int
  {
    (d.days * 86400 + d.seconds) * 1000000 + d.microseconds
  }

  /** Python's `f"{n / den:.0f}"` value: the nearest integer, ties to even. */
  function RoundHalfEven(n: int, den: nat): (q: int)
    requires den > 0
    ensures 2 * (n - den * q) <= den && 2 * (den * q - n) <= den
    ensures 2 * (n - den * q) == den || 2 * (den * q - n) == den ==> q % 2 == 0
  {
    var f := n / den;
    var r := n % den;
    assert n - den * f == r;
    assert den * (f + 1) - n == den - r;
    if 2 * r < den then f
    else if 2 * r > den then f + 1
    else if f % 2 == 0 then f
    else f + 1
  }

  datatype Duration = Duration(amount: int, unit: DurationUnit)

  /** The IB duration a timedelta becomes; the unit is chosen on whole days alone. */
  function DurationOf(d: TimeDelta): (r: Duration)
    requires Normalized(d)
    ensures r.unit == Years <==> d.days >= 365
    ensures r.unit == Months <==> 30 <= d.days < 365
    ensures r.unit == Weeks <==> 7 <= d.days < 30
    ensures r.unit == Days <==> 1 <= d.days < 7
    ensures r.unit == Seconds <==> d.days < 1
    ensures r.unit == Days ==> r.amount == d.days
    ensures r.unit == Seconds ==> r.amount >= 30
    ensures r.amount >= 1
  {
    if d.days >= 365 then Duration(RoundHalfEven(d.days, 365), Years)
    else if d.days >= 30 then Duration(RoundHalfEven(d.days, 30), Months)
    else if d.days >= 7 then Duration(RoundHalfEven(d.days, 7), Weeks)
    else if d.days >= 1 then Duration(d.days, Days)
    else
      var total := TotalMicroseconds(d);
      Duration(if total < 30 * 1000000 then 30 else RoundHalfEven(total, 1000000), Seconds)
  }

  /** `timedelta_to_duration_str`: the amount, a space and the unit letter. */
  function TimedeltaToDurationStr(d: TimeDelta): (r: string)
    requires Normalized(d)
    ensures 1 <= d.days < 7 ==> r == Decimal(d.days) + " D"
    ensures |r| >= 3 && r[|r| - 1] == UnitLetter(DurationOf(d).unit) && r[|r| - 2] == ' '
  {
    var duration := DurationOf(d);
    IntToString(duration.amount) + " " + [UnitLetter(duration.unit)]
  }

  function UnitOfLetter(s: string): Option<DurationUnit>
  {
    if s == "Y" then Some(Years)
    else if s == "M" then Some(Months)
    else if s == "W" then Some(Weeks)
    else if s == "D" then Some(Days)
    else if s == "S" then Some(Seconds)
    else None
  }

  /** Reads an IB duration string such as "3 W" back into amount and unit. */
  function ParseDuration(s: string): Option<Duration>
  {
    var (digits, letter) := SplitOnce(s, ' ');
    if |digits| == 0 || !AllDigits(digits) then None
    else match UnitOfLetter(letter)
      case None => None
      case Some(u) => Some(Duration(ParseNat(digits), u))
  }

  /** The rendered duration string names exactly the amount and unit chosen for it. */
  lemma DurationRoundTrip(d: TimeDelta)
    requires Normalized(d)
    ensures ParseDuration(TimedeltaToDurationStr(d)) == Some(DurationOf(d))
  {
    var duration := DurationOf(d);
    var letter := [UnitLetter(duration.unit)];
    SplitAfterDigits(Decimal(duration.amount), letter);
    ParseDecimal(duration.amount);
  }
}
