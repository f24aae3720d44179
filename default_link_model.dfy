/** The default link's style state: width, colour and curvyness cells. */
module DefaultModels {

  const DefaultWidth: real := 3.0
  const DefaultColor: string := "rgba(255,255,255,0.5)"
  const DefaultCurvyness: real := 50.0

  class DefaultLinkModel {
    const linkType: string
    const logPrefix: string
    var width: real
    var color: string
    var curvyness: real

    /** A new default link: width 3, half-transparent white, curvyness 50. */
    constructor (linkType: string := "default", logPrefix: string := "[DefaultLink]")
      ensures this.linkType == linkType && this.logPrefix == logPrefix
      ensures Width() == DefaultWidth && Color() == DefaultColor && Curvyness() == DefaultCurvyness
    {
      this.linkType := linkType;
      this.logPrefix := logPrefix;
      width := DefaultWidth;
      color := DefaultColor;
      curvyness := DefaultCurvyness;
    }

    /** The `width` getter. */
    function Width(): real
      reads this
    {
      width
    }

    /** The `color` getter. */
    function Color(): string
      reads this
    {
      color
    }

    /** The `curvyness` getter. */
    function Curvyness(): real
      reads this
    {
      curvyness
    }

    method SetWidth(w: real)
      modifies this
      ensures Width() == w
      ensures Color() == old(Color()) && Curvyness() == old(Curvyness())
    {
      width := w;
    }

    method SetColor(c: string)
      modifies this
      ensures Color() == c
      ensures Width() == old(Width()) && Curvyness() == old(Curvyness())
    {
      color := c;
    }

    method SetCurvyness(c: real)
      modifies this
      ensures Curvyness() == c
      ensures Width() == old(Width()) && Color() == old(Color())
    {
      curvyness := c;
    }
  }

  /** Setting one style value and reading the others back sees the defaults untouched. */
  method StyleSettersAreIndependent(w: real, c: string, k: real) returns (link: DefaultLinkModel)
    ensures link.Width() == w && link.Color() == c && link.Curvyness() == k
  {
    link := new DefaultLinkModel();
    assert link.Color() == DefaultColor;
    link.SetWidth(w);
    assert link.Color() == DefaultColor && link.Curvyness() == DefaultCurvyness;
    link.SetColor(c);
    assert link.Width() == w;
    link.SetCurvyness(k);
  }
}
