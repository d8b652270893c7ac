/** The static unit and compass helpers of the weather service: km/h conversion and the
    eight-sector wind direction label. Speeds and angles are exact reals. */
module WeatherUnits {
  import opened Common

  /** JavaScript's `Math.round`: the nearest integer, halves rounded up. */
  function Round(x: real): (r: int)
    ensures x - 0.5 < r as real <= x + 0.5
  {
    (x + 0.5).Floor
  }

  /** `convertWindSpeed`: a speed in m/s rounded to whole km/h. */
  function ConvertWindSpeed(speedMs: real): (kmh: int)
    ensures speedMs * 3.6 - 0.5 < kmh as real <= speedMs * 3.6 + 0.5
  {
    Round(speedMs * 3.6)
  }

  /** JavaScript's `a % 8` on an integer: the remainder has the sign of the dividend. */
  function JsRem8(a: int): (r: int)
    ensures a >= 0 ==> 0 <= r < 8
    ensures a < 0 ==> -8 < r <= 0
    ensures (a - r) % 8 == 0
  {
    if a >= 0 then a % 8 else -((-a) % 8)
  }

  const Directions: seq<string> := ["N", "NE", "E", "SE", "S", "SW", "W", "NW"]

  /** `getWindDirection`: `directions[Math.round(degrees / 45) % 8]`. A negative index reads
      `undefined` from the array; that outcome is None. */
  function GetWindDirection(degrees: real): (dir: Option<string>)
    ensures dir.Some? <==> Round(degrees / 45.0) >= 0 || Round(degrees / 45.0) % 8 == 0
    ensures dir.Some? ==> dir.value in Directions
  {
    var index := JsRem8(Round(degrees / 45.0));
    if index < 0 then None else Some(Directions[index])
  }

  lemma ConvertWindSpeedMonotone(s1: real, s2: real)
    requires s1 <= s2
    ensures ConvertWindSpeed(s1) <= ConvertWindSpeed(s2)
  {
  }

  lemma ConvertWindSpeedExamples()
    ensures ConvertWindSpeed(0.0) == 0
    ensures ConvertWindSpeed(20.0) == 72
    ensures ConvertWindSpeed(22.0) == 79
    ensures ConvertWindSpeed(19.44) == 70
    ensures ConvertWindSpeed(25.0) == 90
  {
  }

  lemma RoundShift(x: real, n: int)
    ensures Round(x + n as real) == Round(x) + n
  {
  }

  /** For a non-negative angle the label is `directions[round(deg / 45) mod 8]`, always present. */
  lemma DirectionOfNonNegative(degrees: real)
    requires degrees >= 0.0
    ensures GetWindDirection(degrees) == Some(Directions[Round(degrees / 45.0) % 8])
  {
  }

  /** Angles that round up to the ninth sector wrap around to north. */
  lemma DirectionWrapsToNorth(degrees: real)
    requires 337.5 <= degrees < 382.5
    ensures GetWindDirection(degrees) == Some("N")
  {
    assert Round(degrees / 45.0) == 8;
  }

  /** Adding a full turn to a non-negative angle does not change its label. */
  lemma DirectionFullTurn(degrees: real)
    requires degrees >= 0.0
    ensures GetWindDirection(degrees + 360.0) == GetWindDirection(degrees)
  {
    assert (degrees + 360.0) / 45.0 == degrees / 45.0 + 8 as real;
    RoundShift(degrees / 45.0, 8);
  }

  lemma DirectionExamples()
    ensures GetWindDirection(0.0) == Some("N")
    ensures GetWindDirection(359.0) == Some("N")
    ensures GetWindDirection(90.0) == Some("E")
    ensures GetWindDirection(180.0) == Some("S")
    ensures GetWindDirection(22.5) == Some("NE")
    ensures GetWindDirection(-45.0) == None
  {
    assert Round(359.0 / 45.0) == 8;
    assert Round(90.0 / 45.0) == 2;
    assert Round(180.0 / 45.0) == 4;
    assert Round(22.5 / 45.0) == 1;
    assert Round(-45.0 / 45.0) == -1;
  }
}
