/** The kind of a boat: the two constants of the BoatType enum. */
module BoatTypes {
  import opened Wrappers

  datatype BoatType = SAILING | POWER

  /**
   * The enum constant's name, which is also how a kind is rendered: a non-empty run of
   * upper-case letters, so upper-casing it changes nothing.
   */
  function Name(t: BoatType): (s: string)
    ensures |s| > 0 && forall i :: 0 <= i < |s| ==> 'A' <= s[i] <= 'Z'
  {
    match t
    case SAILING => "SAILING"
    case POWER => "POWER"
  }

  /**
   * BoatType.valueOf: the kind whose constant name is exactly s; any other text is an
   * IllegalArgumentException (None).
   */
  function ValueOf(s: string): (r: Option<BoatType>)
    ensures forall t :: r == Some(t) <==> s == Name(t)
  {
    if s == "SAILING" then Some(SAILING)
    else if s == "POWER" then Some(POWER)
    else None
  }

  /** Rendering a kind and reading the name back gives the same kind. */
  lemma ValueOfName(t: BoatType)
    ensures ValueOf(Name(t)) == Some(t)
  {
  }
}
