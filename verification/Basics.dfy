/** Small shared vocabulary: optional values, outcomes of calls that may raise,
    and the numeric constants and helpers the trading engine uses. */
module Basics {

  datatype Option<+T> = None | Some(value: T)

  /** The Python exceptions that the modelled calls can raise. */
  datatype Fault =
    | ValueError
    | ZeroDivision
    | AlreadyOpen
    | AssetMismatch
    | NonPositiveQty
    | NoPosition
    | MathDomain
    | UnicodeEncode
    | Storage

  datatype Result<+T> = Ok(value: T) | Err(fault: Fault)

  const EPS: real := 0.000000000001
  const BPS: real := 10000.0

  function Abs(x: real): real {
    if x < 0.0 then -x else x
  }

  function Max(x: real, y: real): real {
    if x >= y then x else y
  }

  function Min(x: real, y: real): real {
    if x <= y then x else y
  }

  function Times(x: real, y: real): real {
    x * y
  }

  /** A total divided by a positive count. */
  function Mean(total: real, n: nat): real
    requires n >= 1
  {
    total / n as real
  }

  function Ratio(x: real, y: real): real
    requires y != 0.0
  {
    x / y
  }

  predicate GtEps(a: real, b: real) {
    a > b + EPS
  }

  /** Signed direction of a position: every branch of the engine that
      depends on the side compares it with "long". */
  function Sign(side: string): real {
    if side == "long" then 1.0 else -1.0
  }
}
