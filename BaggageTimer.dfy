/** The dwell-time badge: elapsed seconds since a start time, whole hours and
    minutes, and the three SLA bands. Clocks are integer milliseconds. */
module BaggageTimer {

  /** `Math.floor((now - start) / 1000)`; Dafny's `/` by a positive divisor
      rounds down, as `Math.floor` does, for negative differences too. */
  function ElapsedSeconds(startMs: int, nowMs: int): int {
    (nowMs - startMs) / 1000
  }

  /** The quotient of JavaScript's `%`, rounded toward zero. */
  function TruncatedQuotient(a: int, b: int): int
    requires b > 0
  {
    if a >= 0 then a / b else -((-a) / b)
  }

  /** JavaScript's `%`: the remainder of the division rounded toward zero, so
      it takes the sign of the dividend. */
  function JsRemainder(a: int, b: int): (r: int)
    requires b > 0
    ensures a == TruncatedQuotient(a, b) * b + r
    ensures -b < r < b
    ensures a >= 0 ==> 0 <= r
    ensures a < 0 ==> r <= 0
  {
    if a >= 0 then a % b
    else
      assert -a == ((-a) / b) * b + (-a) % b;
      assert TruncatedQuotient(a, b) * b == -(((-a) / b) * b);
      -((-a) % b)
  }

  function Hours(elapsed: int): int {
    elapsed / 3600
  }

  function Minutes(elapsed: int): int {
    JsRemainder(elapsed, 3600) / 60
  }

  const DefaultLimitHours := 24

  datatype Band = Nominal | Warning | Breach

  function Rank(b: Band): nat {
    match b
    case Nominal => 0
    case Warning => 1
    case Breach => 2
  }

  /** `isExpired`. */
  predicate IsExpired(hours: int, limitHours: int) {
    hours >= limitHours
  }

  /** `isWarning`, `hours >= limitHours * 0.75`, cross-multiplied. */
  predicate IsWarning(hours: int, limitHours: int) {
    4 * hours >= 3 * limitHours
  }

  /** The badge's band: a breach takes precedence over a warning. */
  function Classify(hours: int, limitHours: int): Band {
    if IsExpired(hours, limitHours) then Breach
    else if IsWarning(hours, limitHours) then Warning
    else Nominal
  }

  /** The cross-multiplied warning test is exactly the comparison with three
      quarters of the limit. */
  lemma WarningIsThreeQuarters(hours: int, limitHours: int)
    ensures IsWarning(hours, limitHours) <==> (hours as real) >= (limitHours as real) * 0.75
  {
  }

  /** For a start time in the past the badge's fields split the elapsed time:
      minutes lie in 0..59 and hours and minutes account for it to the
      minute. */
  lemma TimeFieldsDecompose(elapsed: int)
    requires elapsed >= 0
    ensures 0 <= Minutes(elapsed) <= 59
    ensures Hours(elapsed) * 3600 + Minutes(elapsed) * 60 <= elapsed
            < Hours(elapsed) * 3600 + Minutes(elapsed) * 60 + 60
  {
    var h, r := elapsed / 3600, elapsed % 3600;
    assert elapsed == h * 3600 + r;
    var m := r / 60;
    assert r == m * 60 + r % 60;
  }

  /** For a start time in the future both fields are negative or zero: hours
      round down while minutes keep the dividend's sign. */
  lemma NegativeElapsedFields(elapsed: int)
    requires elapsed < 0
    ensures Hours(elapsed) <= -1
    ensures -60 <= Minutes(elapsed) <= 0
  {
  }

  /** The badge's whole hours are the elapsed milliseconds divided by one
      hour, rounded down: the two floors compose. */
  lemma HoursFromMilliseconds(startMs: int, nowMs: int)
    ensures Hours(ElapsedSeconds(startMs, nowMs)) == (nowMs - startMs) / 3_600_000
  {
    var x := nowMs - startMs;
    var q, r := x / 1000, x % 1000;
    var h, s := q / 3600, q % 3600;
    assert x == h * 3_600_000 + (s * 1000 + r);
    assert 0 <= s * 1000 + r < 3_600_000;
  }

  /** With a non-negative limit a breach is also a warning. */
  lemma BreachImpliesWarning(hours: int, limitHours: int)
    requires limitHours >= 0
    ensures IsExpired(hours, limitHours) ==> IsWarning(hours, limitHours)
  {
  }

  /** The band never drops as the hours grow, whatever the limit. */
  lemma BandMonotone(h1: int, h2: int, limitHours: int)
    requires h1 <= h2
    ensures Rank(Classify(h1, limitHours)) <= Rank(Classify(h2, limitHours))
  {
  }

  /** The bands under the default 24-hour limit: nominal below 18 hours,
      a warning from 18 up to 23 hours and a breach from 24; only whole
      hours count, so 17 h 59 min is still nominal. */
  lemma DefaultLimitBands(hours: int)
    ensures Classify(hours, DefaultLimitHours) == Nominal <==> hours <= 17
    ensures Classify(hours, DefaultLimitHours) == Warning <==> 18 <= hours <= 23
    ensures Classify(hours, DefaultLimitHours) == Breach <==> hours >= 24
    ensures Classify(Hours(17 * 3600 + 59 * 60), DefaultLimitHours) == Nominal
    ensures Classify(Hours(18 * 3600), DefaultLimitHours) == Warning
  {
  }
}
