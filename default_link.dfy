/**
 * The geometry the default link component derives from its two endpoints when
 * smart routing is off: straight or curved path, and the label position.
 */
module DefaultComponents {
  import opened Wrappers
  import opened Geometry
  import opened ToolKit
  import opened DefaultModels

  /** Below this distance on the dominant axis the link is drawn straight. */
  const StraightThreshold: real := 50.0
  /** The label sits this far right of and below the midpoint. */
  const LabelOffset: real := 20.0

  /** The endpoints' distance along the dominant axis (`xOrY`). */
  function DominantDistance(first: Coords, last: Coords): (d: real)
    ensures d >= 0.0
    ensures IsHorizontal(first, last) ==> d == Abs(first.x - last.x)
    ensures !IsHorizontal(first, last) ==> d == Abs(first.y - last.y)
    ensures d >= Abs(first.x - last.x) && d >= Abs(first.y - last.y)
  {
    if IsHorizontal(first, last) then Abs(first.x - last.x) else Abs(first.y - last.y)
  }

  /** `isStraight`: the endpoints are closer than 50 on the dominant axis. */
  predicate IsStraight(first: Coords, last: Coords)
  {
    DominantDistance(first, last) < StraightThreshold
  }

  /** The path drawn without smart routing: curvyness 0 when straight, the link's otherwise. */
  function RegularPath(first: Coords, last: Coords, curvyness: real): (p: CurvePath)
    ensures p.start == first && p.end == last
    ensures IsStraight(first, last) ==> p.control1 == first && p.control2 == last
    ensures !IsStraight(first, last) && IsHorizontal(first, last) ==>
      p.control1 == Coords(first.x + curvyness, first.y) && p.control2 == Coords(last.x - curvyness, last.y)
    ensures !IsStraight(first, last) && !IsHorizontal(first, last) ==>
      p.control1 == Coords(first.x, first.y + curvyness) && p.control2 == Coords(last.x, last.y - curvyness)
  {
    GenerateCurvePath(first, last, if IsStraight(first, last) then 0.0 else curvyness)
  }

  /** Two endpoints at least 50 apart on either axis are always drawn as a curve. */
  lemma FarEndpointsCurve(first: Coords, last: Coords, curvyness: real)
    requires Abs(first.x - last.x) >= StraightThreshold || Abs(first.y - last.y) >= StraightThreshold
    ensures !IsStraight(first, last)
  {
  }

  /** `calcCenterOfPath`: the midpoint of the endpoints, shifted by 20 on both axes. */
  function CalcCenterOfPath(first: Coords, second: Coords): (c: Coords)
    ensures (c.x - LabelOffset) - first.x == second.x - (c.x - LabelOffset)
    ensures (c.y - LabelOffset) - first.y == second.y - (c.y - LabelOffset)
  {
    Coords((first.x + second.x) / 2.0 + LabelOffset, (first.y + second.y) / 2.0 + LabelOffset)
  }

  /** A label model as the link component uses it: its coordinates. */
  class Label {
    var coords: Coords

    constructor (coords: Coords)
      ensures this.coords == coords
    {
      this.coords := coords;
    }

    method SetCoords(c: Coords)
      modifies this
      ensures coords == c
    {
      coords := c;
    }
  }

  class DefaultLinkComponent {
    /** The style state the component inherits from the default link model. */
    const model: DefaultLinkModel
    /** The current value of `_path$`; `None` before the first endpoint emission. */
    var path: Option<CurvePath>
    var linkLabel: Label?

    constructor (model: DefaultLinkModel, linkLabel: Label?)
      ensures this.model == model && this.linkLabel == linkLabel && path.None?
    {
      this.model := model;
      this.linkLabel := linkLabel;
      path := None;
    }

    /**
     * The subscription body for one pair of endpoint coordinates, smart routing off:
     * publish the regular path, then move the label (when there is one) to the centre.
     */
    method OnEndpoints(first: Coords, last: Coords)
      modifies this, linkLabel
      ensures linkLabel == old(linkLabel)
      ensures path == Some(RegularPath(first, last, model.Curvyness()))
      ensures linkLabel != null ==> linkLabel.coords == CalcCenterOfPath(first, last)
    {
      var curvy := if IsStraight(first, last) then 0.0 else model.Curvyness();
      path := Some(GenerateCurvePath(first, last, curvy));
      if linkLabel != null {
        linkLabel.SetCoords(CalcCenterOfPath(first, last));
      }
    }
  }
}
