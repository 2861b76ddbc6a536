/** Clamping a widget's geometry to the dashboard box (`fixDimension`,
    `getPositioning`). */
module Geometry {
  import opened Values

  /** The clamped size and position on one axis. */
  datatype Dim = Dim(widgetSize: int, widgetPos: int)

  /** The geometry `getPositioning` hands to the component's state. */
  datatype Positioning = Positioning(x: int, y: int, width: int, height: int, z: int, expanded: bool)

  /** One-axis clamp. `Math.floor(dashSize / 2)` is Dafny's `dashSize / 2`:
      with a positive divisor Euclidean division rounds down, for every sign
      of `dashSize`. */
  function FixDimension(dashSize: int, size: int, position: int): (r: Dim)
    // the widget never reaches past the far edge
    ensures r.widgetPos + r.widgetSize <= dashSize
    // a widget that fits is left alone
    ensures position + size <= dashSize ==> r == Dim(size, position)
    // an overflowing widget is pinned to the far edge; it keeps its size
    // unless that is more than half the dashboard, and then gets exactly half
    ensures dashSize < position + size ==>
      && r.widgetPos + r.widgetSize == dashSize
      && (size <= dashSize / 2 ==> r.widgetSize == size)
      && (dashSize / 2 < size ==> r.widgetSize == dashSize / 2)
    // with non-negative inputs the result lies inside the dashboard
    ensures 0 <= dashSize && 0 <= size && 0 <= position ==>
      && 0 <= r.widgetPos
      && 0 <= r.widgetSize <= size
      && r.widgetSize <= dashSize
  {
    var widgetSize := if position + size > dashSize && dashSize / 2 < size then dashSize / 2 else size;
    var widgetPos := if position + size > dashSize then dashSize - widgetSize else position;
    Dim(widgetSize, widgetPos)
  }

  /** Clamping what the clamp returned changes nothing. */
  lemma FixDimensionIdempotent(dashSize: int, size: int, position: int)
    ensures var r := FixDimension(dashSize, size, position);
      FixDimension(dashSize, r.widgetSize, r.widgetPos) == r
  {
  }

  /** An overflowing widget and a fitting widget on a 400-wide axis. */
  lemma FixDimensionExamples()
    ensures FixDimension(400, 300, 200) == Dim(200, 200)
    ensures FixDimension(400, 100, 250) == Dim(100, 250)
  {
  }

  /** `getPositioning` as written: the props `offsetWidth` and `offsetHeight`
      are bound to the names `dashHeight` and `dashWidth` respectively, so x
      and width are clamped against `offsetHeight` and y and height against
      `offsetWidth`. An expanded widget gets that same box from the origin. */
  function GetPositioning(p: Props): (r: Positioning)
    ensures r.z == p.z && r.expanded == p.expanded
    ensures p.expanded ==> r == Positioning(0, 0, p.offsetHeight, p.offsetWidth, p.z, true)
    ensures !p.expanded ==>
      && Dim(r.width, r.x) == FixDimension(p.offsetHeight, p.width, p.x)
      && Dim(r.height, r.y) == FixDimension(p.offsetWidth, p.height, p.y)
  {
    var dashHeight, dashWidth := p.offsetWidth, p.offsetHeight;
    if p.expanded then
      Positioning(0, 0, dashWidth, dashHeight, p.z, p.expanded)
    else
      var newX := FixDimension(dashWidth, p.width, p.x);
      var newY := FixDimension(dashHeight, p.height, p.y);
      Positioning(newX.widgetPos, newY.widgetPos, newX.widgetSize, newY.widgetSize, p.z, p.expanded)
  }

  /** A collapsed widget with non-negative geometry ends up inside the box
      `offsetHeight` wide and `offsetWidth` high, never larger than requested. */
  lemma GetPositioningInBounds(p: Props)
    requires !p.expanded
    requires 0 <= p.offsetWidth && 0 <= p.offsetHeight
    requires 0 <= p.x && 0 <= p.y && 0 <= p.width && 0 <= p.height
    ensures var r := GetPositioning(p);
      && 0 <= r.x && r.x + r.width <= p.offsetHeight && r.width <= p.width
      && 0 <= r.y && r.y + r.height <= p.offsetWidth && r.height <= p.height
  {
  }

  /** Feeding the computed geometry back in as props yields it again. */
  lemma GetPositioningIdempotent(p: Props)
    ensures var r := GetPositioning(p);
      GetPositioning(p.(x := r.x, y := r.y, width := r.width, height := r.height)) == r
  {
    var r := GetPositioning(p);
    if !p.expanded {
      FixDimensionIdempotent(p.offsetHeight, p.width, p.x);
      FixDimensionIdempotent(p.offsetWidth, p.height, p.y);
    }
  }
}
