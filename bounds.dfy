/**
  Validation of the price bounds a user types after `/notify SYMBOL`
  (`validate_range` in bot.py). A token is text; `float` stands for
  Python's `float()`, giving the number a token denotes or None when it
  raises ValueError.
 */
module Bounds {
  import opened Optional

  /** Why a range is refused; each is one reply of `validate_range`. */
  datatype BoundsError =
    | NotANumber(token: string)                 // float() raised: the reply shows the token
    | Negative(value: real)                     // parsed but below zero: the reply shows the number
    | Descending(minimal: real, maximal: real)  // both fine but minimum above maximum

  datatype Range = Range(minimal: real, maximal: real)

  datatype Result = Ok(range: Range) | Err(error: BoundsError)

  /** A token that parses to a number that is not negative (zero is accepted). */
  predicate Accepted(float: string -> Option<real>, token: string)
  {
    float(token).Some? && float(token).value >= 0.0
  }

  /** The one-token check of the loop body: parse, then refuse a negative value. */
  function CheckToken(float: string -> Option<real>, token: string): (e: Option<BoundsError>)
    ensures e.None? <==> Accepted(float, token)
    ensures float(token).None? ==> e == Some(NotANumber(token))
    ensures float(token).Some? && float(token).value < 0.0 ==> e == Some(Negative(float(token).value))
  {
    match float(token)
    case None => Some(NotANumber(token))
    case Some(v) => if v < 0.0 then Some(Negative(v)) else None
  }

  /**
    `validate_range`: one token is a point target (it is both the minimum
    and the maximum), two are a range (minimum first). The minimum is checked
    before the maximum, and the order of the two only once both are accepted.
    The source returns None on success; the bounds it computed are returned
    here.
   */
  function ValidateRange(float: string -> Option<real>, tokens: seq<string>): (r: Result)
    requires 1 <= |tokens| <= 2
    ensures r.Ok? <==>
      (forall i :: 0 <= i < |tokens| ==> Accepted(float, tokens[i])) &&
      float(tokens[0]).value <= float(tokens[|tokens| - 1]).value
    ensures r.Ok? ==>
      r.range == Range(float(tokens[0]).value, float(tokens[|tokens| - 1]).value) &&
      0.0 <= r.range.minimal <= r.range.maximal
    ensures |tokens| == 1 && r.Ok? ==> r.range.minimal == r.range.maximal == float(tokens[0]).value
    ensures !Accepted(float, tokens[0]) ==> r == Err(CheckToken(float, tokens[0]).value)
    ensures Accepted(float, tokens[0]) && !Accepted(float, tokens[|tokens| - 1]) ==>
      r == Err(CheckToken(float, tokens[|tokens| - 1]).value)
    ensures (exists i :: 0 <= i < |tokens| && !Accepted(float, tokens[i])) ==> r.Err? && !r.error.Descending?
    ensures r.Err? && r.error.Descending? <==>
      (forall i :: 0 <= i < |tokens| ==> Accepted(float, tokens[i])) &&
      float(tokens[0]).value > float(tokens[|tokens| - 1]).value
    ensures r.Err? && r.error.Descending? ==>
      r.error == Descending(float(tokens[0]).value, float(tokens[|tokens| - 1]).value)
  {
    var minimal := tokens[0];
    var maximal := tokens[|tokens| - 1];
    match CheckToken(float, minimal)
    case Some(e) => Err(e)
    case None =>
      match CheckToken(float, maximal)
      case Some(e) => Err(e)
      case None =>
        var lo, hi := float(minimal).value, float(maximal).value;
        if lo > hi then Err(Descending(lo, hi)) else Ok(Range(lo, hi))
  }
}
