/**
 * Grid cells and the one-cell step of a worm's head, shared by the server
 * (server.js) and the bot (cpuClient.js).
 */
module Grid {
  /** One grid cell, `{x, y}` on the wire; x grows to the right and y grows downwards. */
  datatype Cell = Cell(x: int, y: int)

  /** The four direction values that move a head. */
  predicate IsCardinal(d: string) {
    d == "up" || d == "down" || d == "left" || d == "right"
  }

  function Abs(n: int): nat {
    if n < 0 then -n else n
  }

  /** Manhattan distance between two cells. */
  function Distance(a: Cell, b: Cell): nat {
    Abs(a.x - b.x) + Abs(a.y - b.y)
  }

  /**
   * The head after one input: "up" lowers y, "down" raises y, "left" lowers x,
   * "right" raises x; any other value leaves the copied head where it was.
   */
  function Step(c: Cell, d: string): (r: Cell)
    ensures Distance(c, r) == if IsCardinal(d) then 1 else 0
    ensures r.y < c.y <==> d == "up"
    ensures r.y > c.y <==> d == "down"
    ensures r.x < c.x <==> d == "left"
    ensures r.x > c.x <==> d == "right"
  {
    match d
    case "up" => c.(y := c.y - 1)
    case "down" => c.(y := c.y + 1)
    case "left" => c.(x := c.x - 1)
    case "right" => c.(x := c.x + 1)
    case _ => c
  }

  function Opposite(d: string): (r: string)
    requires IsCardinal(d)
    ensures IsCardinal(r) && r != d
  {
    match d
    case "up" => "down"
    case "down" => "up"
    case "left" => "right"
    case _ => "left"
  }

  /** A step in a cardinal direction is undone by a step in the opposite one. */
  lemma StepUndone(c: Cell, d: string)
    requires IsCardinal(d)
    ensures Step(Step(c, d), Opposite(d)) == c
  {
  }
}
