/** Plane coordinates as the diagram uses them (the `Coords` interface). */
module Geometry {

  datatype Coords = Coords(x: real, y: real)

  function Abs(r: real): (a: real)
    ensures a >= 0.0 && (a == r || a == -r)
  {
    if r < 0.0 then -r else r
  }

  function Plus(a: Coords, b: Coords): (c: Coords)
    ensures c.x == a.x + b.x && c.y == a.y + b.y
  {
    Coords(a.x + b.x, a.y + b.y)
  }
}
