/** The two helpers of scripts/functions.js that the game logic uses. */
module Functions {
  /** The identifier a client sends in its handshake: the configured one, unchanged. */
  function GenerateUniqueIdentifier(clientIdent: string): (r: string)
    ensures r == clientIdent
  {
    clientIdent
  }

  /** `value` pulled into `[min, max]`; the lower bound is tested first. */
  function Clamp(value: int, min: int, max: int): (r: int)
    ensures value < min ==> r == min
    ensures min <= value <= max ==> r == value
    ensures max < value && min <= value ==> r == max
    ensures min <= max ==> min <= r <= max
  {
    if value < min then min
    else if value > max then max
    else value
  }

  lemma ClampIdempotent(value: int, min: int, max: int)
    requires min <= max
    ensures Clamp(Clamp(value, min, max), min, max) == Clamp(value, min, max)
  {
  }

  lemma ClampMonotone(a: int, b: int, min: int, max: int)
    requires min <= max && a <= b
    ensures Clamp(a, min, max) <= Clamp(b, min, max)
  {
  }

  /** With crossed bounds the lower-bound test wins first and idempotence fails. */
  lemma ClampCrossedBoundsNotIdempotent()
    ensures Clamp(Clamp(0, 2, 1), 2, 1) != Clamp(0, 2, 1)
  {
  }
}
