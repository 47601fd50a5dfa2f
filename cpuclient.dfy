/**
 * The bot's chase rule from cpuClient.js: from its own head toward the
 * consumable, along x first, then along y, and no input once it is there.
 */
module CpuClient {
  import opened Wrappers
  import opened Grid

  /** The direction the bot emits, or None when it emits nothing. */
  function ChooseDirection(position: Cell, target: Cell): (r: Option<string>)
    ensures position.x != target.x ==> r == Some(if target.x > position.x then "right" else "left")
    ensures position.x == target.x && position.y != target.y ==>
              r == Some(if target.y > position.y then "down" else "up")
    ensures r == None <==> position == target
  {
    var directionX := if target.x > position.x then "right" else "left";
    var directionY := if target.y > position.y then "down" else "up";
    if position.x != target.x then Some(directionX)
    else if position.y != target.y then Some(directionY)
    else None
  }

  /** Every emitted direction, stepped as the server steps it, brings the head one cell closer. */
  lemma ChaseApproaches(position: Cell, target: Cell)
    ensures match ChooseDirection(position, target)
            case None => Distance(position, target) == 0
            case Some(d) => IsCardinal(d) && Distance(Step(position, d), target) + 1 == Distance(position, target)
  {
  }

  /** Where the head is after `n` bot inputs, each applied by the server's step. */
  function Follow(position: Cell, target: Cell, n: nat): Cell
    decreases n
  {
    if n == 0 then position
    else match ChooseDirection(position, target)
         case None => position
         case Some(d) => Follow(Step(position, d), target, n - 1)
  }

  /** Left undisturbed, the bot reaches the consumable after exactly as many inputs as the distance. */
  lemma {:induction false} ChaseArrives(position: Cell, target: Cell, n: nat)
    ensures Distance(position, target) <= n ==> Follow(position, target, n) == target
    ensures n < Distance(position, target) ==> Distance(Follow(position, target, n), target) == Distance(position, target) - n
    decreases n
  {
    ChaseApproaches(position, target);
    if n > 0 {
      match ChooseDirection(position, target)
      case None =>
      case Some(d) => ChaseArrives(Step(position, d), target, n - 1);
    }
  }
}
