/**
 * The position record of `TraccarClient.h` with its "omit" sentinels made
 * explicit: a NaN double is `None`, a null string pointer is `None`, and the
 * integer sentinels keep their C values behind accessor functions.
 */
module Positions {
  import opened Wrappers
  import opened Bytes

  type I32 = i: int | -0x8000_0000 <= i < 0x8000_0000
  type U16 = n: nat | n < 0x1_0000
  type U64 = n: nat | n < 0x1_0000_0000_0000_0000

  /** `traccar_position_t` / `TraccarPosition`. */
  datatype Position = Position(
    latitude: Option<real>,        // degrees; NaN is None
    longitude: Option<real>,       // degrees; NaN is None
    altitudeMeters: Option<real>,
    speedKmh: Option<real>,
    headingDeg: Option<real>,
    hdop: Option<real>,
    accuracyMeters: Option<real>,
    timestampMs: U64,              // 0: not set
    batteryPercent: I32,           // 0..100, negative: not set
    validFlag: I32,                // -1 omit, 0 false, 1 true
    charging: bool,
    driverUniqueId: Option<Text>,  // null pointer is None
    cell: Option<Text>,
    wifi: Option<Text>,
    eventName: Option<Text>,
    activityType: Option<Text>,
    odometer: Option<real>)
  {
    /** The battery level, present exactly when the sentinel test `batteryPercent >= 0` passes. */
    function Battery(): (b: Option<nat>)
      ensures b.Some? <==> batteryPercent >= 0
      ensures b.Some? ==> b.value == batteryPercent
    {
      if batteryPercent >= 0 then Some(batteryPercent as nat) else None
    }

    /** The tri-state valid flag: negative omits it, zero is `false`, any other value is `true`. */
    function Valid(): (v: Option<bool>)
      ensures v.None? <==> validFlag < 0
      ensures v == Some(false) <==> validFlag == 0
      ensures v == Some(true) <==> validFlag > 0
    {
      if validFlag >= 0 then Some(validFlag != 0) else None
    }
  }

  /** A string field is sent when it is neither null nor empty. */
  predicate Provided(s: Option<Text>)
  {
    s.Some? && s.value != []
  }

  /** The default-constructed `TraccarPosition`: NaN doubles, 0, -1, -1, false and empty strings. */
  const Default: Position := Position(
    None, None, None, None, None, None, None,
    0, -1, -1, false,
    Some(""), Some(""), Some(""), Some(""), Some(""),
    None)

  /** Every optional field of the default position is absent under its own sentinel rule. */
  lemma DefaultAllAbsent()
    ensures Default.latitude.None? && Default.longitude.None? && Default.altitudeMeters.None?
    ensures Default.speedKmh.None? && Default.headingDeg.None? && Default.hdop.None?
    ensures Default.accuracyMeters.None? && Default.odometer.None?
    ensures Default.timestampMs == 0 && Default.Battery().None? && Default.Valid().None? && !Default.charging
    ensures !Provided(Default.driverUniqueId) && !Provided(Default.cell) && !Provided(Default.wifi)
    ensures !Provided(Default.eventName) && !Provided(Default.activityType)
  {
  }
}

/**
 * Speed conversion: km/h to knots (divide by 1.852), then `floor` when
 * `TRACCAR_SPEED_ROUND_DOWN` is 1 and C `round` (nearest, halves away from
 * zero) when it is 0, the default. The switch is the parameter `roundDown`.
 */
module SpeedConversion {
  const KmhPerKnot: real := 1.852

  /** The default of `TRACCAR_SPEED_ROUND_DOWN`: round to nearest. */
  const DefaultRoundDown: bool := false

  /** C `round`: the nearest integer, halves rounded away from zero. */
  function RoundHalfAway(x: real): (r: int)
    ensures -0.5 <= x - r as real <= 0.5
    ensures x - r as real == 0.5 ==> x < 0.0
    ensures r as real - x == 0.5 ==> x > 0.0
  {
    if x >= 0.0 then (x + 0.5).Floor else -((-x + 0.5).Floor)
  }

  /** `(int)floor(kmh / 1.852)` or `(int)round(kmh / 1.852)`. */
  function Knots(kmh: real, roundDown: bool): (k: int)
    ensures roundDown ==> k as real <= kmh / KmhPerKnot < k as real + 1.0
    ensures !roundDown ==> -0.5 <= kmh / KmhPerKnot - k as real <= 0.5
    ensures !roundDown && kmh / KmhPerKnot - k as real == 0.5 ==> kmh < 0.0
    ensures !roundDown && k as real - kmh / KmhPerKnot == 0.5 ==> kmh > 0.0
  {
    if roundDown then (kmh / KmhPerKnot).Floor else RoundHalfAway(kmh / KmhPerKnot)
  }

  /** 10 km/h is about 5.40 knots, and 3.8 km/h about 2.05: both modes give 5 and 2. */
  lemma KnotsAgree()
    ensures Knots(10.0, false) == 5 && Knots(10.0, true) == 5
    ensures Knots(3.8, false) == 2 && Knots(3.8, true) == 2
  {
  }

  /** 3.7 km/h is about 1.998 knots: the switch decides between 2 and 1. */
  lemma KnotsSwitch()
    ensures Knots(3.7, false) == 2 && Knots(3.7, true) == 1
  {
  }

  /** Rounding down never gives more than rounding to nearest, and at most one less. */
  lemma FloorBelowRound(kmh: real)
    ensures Knots(kmh, false) - 1 <= Knots(kmh, true) <= Knots(kmh, false)
  {
  }
}
