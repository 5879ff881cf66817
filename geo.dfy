/**
 * The value types shared by the projection and the drawing code: a map
 * position in millionths of a degree, a screen point in pixels, and a
 * geographic rectangle.
 */
module Geo {

  datatype Position = Position(longitude: int, latitude: int)

  datatype GuiPoint = GuiPoint(x: int, y: int)

  /** A rectangle on the map; `north` and `east` are the larger values. */
  datatype Area = Area(west: int, east: int, north: int, south: int)

  predicate InArea(p: Position, a: Area)
  {
    a.west <= p.longitude <= a.east && a.south <= p.latitude <= a.north
  }

  /** `inner` lies inside `outer`, edges included. */
  predicate Covers(outer: Area, inner: Area)
  {
    outer.west <= inner.west && inner.east <= outer.east &&
    outer.south <= inner.south && inner.north <= outer.north
  }

  /** The rectangle `a` pushed outward by `d` on each side. */
  function Widen(a: Area, d: int): (r: Area)
    ensures d >= 0 ==> Covers(r, a)
    ensures r.east - r.west == a.east - a.west + 2 * d
    ensures r.north - r.south == a.north - a.south + 2 * d
  {
    Area(a.west - d, a.east + d, a.north + d, a.south - d)
  }
}
