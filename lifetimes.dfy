/** How long a metric's value persists before it is reset. */
module Lifetimes {

  /** Declared in this order by Glean's `Lifetime` enum (its declaration is not part
      of this model); only the ordinal crosses the native boundary. */
  datatype Lifetime = Ping | Application | User

  /** `lifetime.ordinal`: the position of the constant in the declaration. */
  function Ordinal(lifetime: Lifetime): (r: nat)
    ensures r < 3
  {
    match lifetime
    case Ping => 0
    case Application => 1
    case User => 2
  }

  /** Distinct lifetimes cross the native boundary as distinct ordinals. */
  lemma OrdinalInjective(a: Lifetime, b: Lifetime)
    ensures Ordinal(a) == Ordinal(b) <==> a == b
  {
  }
}
