/**
 * How the encoders turn the readings of a position into field values:
 * doubles through a fixed-point formatter, the speed as whole knots, and
 * strings only when neither null nor empty.
 */
module FieldValues {
  import opened Wrappers
  import opened Bytes
  import opened Positions
  import opened SpeedConversion
  import opened Fields

  /** Fixed-point printing of a double with the given number of decimals (`%.7f` or Arduino `String(x, 7)`, and so on). */
  type Formatter = (real, nat) -> Text

  /** A double field printed with `decimals` places, absent when NaN. */
  function Fixed(x: Option<real>, decimals: nat, fmt: Formatter): (v: Option<Value>)
    ensures v.Some? <==> x.Some?
  {
    match x
    case None => None
    case Some(r) => Some(Number(fmt(r, decimals)))
  }

  /** The speed in whole knots, printed with `%d` or `String(int)`. */
  function KnotsValue(x: Option<real>, roundDown: bool): (v: Option<Value>)
    ensures v.Some? <==> x.Some?
  {
    match x
    case None => None
    case Some(kmh) => Some(Number(SignedDecimal(Knots(kmh, roundDown))))
  }

  /** The `valid` flag as `true` or `false`, absent when the flag says to omit it. */
  function FlagValue(v: Option<bool>): (r: Option<Value>)
    ensures r.Some? <==> v.Some?
  {
    match v
    case None => None
    case Some(b) => Some(Bool(b))
  }

  /** The battery level printed with `%d`, absent when it is not set. */
  function LevelValue(b: Option<nat>): (r: Option<Value>)
    ensures r.Some? <==> b.Some?
  {
    match b
    case None => None
    case Some(n) => Some(Number(Decimal(n)))
  }

  /** A free-text field: present when neither null nor empty. */
  function TextValue(s: Option<Text>): (v: Option<Value>)
    ensures v.Some? <==> Provided(s)
  {
    if Provided(s) then Some(FreeText(s.value)) else None
  }
}
