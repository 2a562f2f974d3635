/** The rectangle arithmetic of the bar branch of `DrawBar`
    (`GetBarDrawingProperties`), of `DrawBarArea`, and the position of the
    dot drawn for a point item. */
module BarGeometry {
  import opened Wrappers
  import opened Drawing

  /** `GetBarDrawingProperties`, as written. The height is already floored at
      `minBarHeight` before the `height < minBarHeight` test, so the branch
      that would re-anchor a short bar is never taken: the bar always starts
      at the higher of the axis origin and the value's y and always spans at
      least `minBarHeight`. `margin` is the base-class `Margin`, read only in
      that branch. */
  function BarDrawingProperties(
    minBarHeight: real, margin: real, headerHeight: real, itemSize: Size,
    barSize: Size, origin: real, barX: real, barY: real): (r: Rect)
    ensures r.x == barX - itemSize.width / 2.0 && r.width == barSize.width
    ensures r.y == Min(origin, barY)
    ensures r.height >= minBarHeight && r.height >= Abs(origin - barY)
    ensures r.height == minBarHeight || r.height == Abs(origin - barY)
    ensures Abs(origin - barY) >= minBarHeight ==> r.y + r.height == Max(origin, barY)
  {
    var x := barX - itemSize.width / 2.0;
    var y := Min(origin, barY);
    var height := Max(minBarHeight, Abs(origin - barY));
    if height < minBarHeight then
      var y' := if y + minBarHeight > margin + itemSize.height
                then headerHeight + itemSize.height - minBarHeight
                else y;
      Rect(x, y', barSize.width, minBarHeight)
    else
      Rect(x, y, barSize.width, height)
  }

  /** The rectangle `DrawBarArea` fills, or `None` when `barAreaAlpha` is 0
      and nothing is drawn. The area reaches from the top of the plot
      (`headerHeight`) for a positive value, or from its bottom
      (`headerHeight + itemSize.height`) otherwise, to the value's y. */
  function BarAreaRect(
    barAreaAlpha: Byte, headerHeight: real, itemSize: Size, barSize: Size,
    value: real, barX: real, barY: real): (r: Option<Rect>)
    ensures r.None? <==> barAreaAlpha == 0
    ensures r.Some? ==>
      var base := if value > 0.0 then headerHeight else headerHeight + itemSize.height;
      && r.value.x == barX - itemSize.width / 2.0
      && r.value.width == barSize.width
      && r.value.height >= 0.0
      && r.value.y == Min(base, barY)
      && r.value.y + r.value.height == Max(base, barY)
  {
    if barAreaAlpha > 0 then
      var max := if value > 0.0 then headerHeight else headerHeight + itemSize.height;
      var height := Abs(max - barY);
      var y := Min(max, barY);
      Some(Rect(barX - itemSize.width / 2.0, y, barSize.width, height))
    else
      None
  }

  /** The point drawn (and recorded) for an item of a point series: the
      horizontal centre of the bar slot, at the value's y. */
  function ItemPoint(itemSize: Size, barSize: Size, barX: real, barY: real): (p: Point)
    ensures p.y == barY
    ensures p.x == (barX - itemSize.width / 2.0) + barSize.width / 2.0
  {
    Point(barX - (itemSize.width / 2.0) + (barSize.width / 2.0), barY)
  }

  /** The re-anchoring branch of `GetBarDrawingProperties` is dead: even a bar
      whose value lies within `minBarHeight` of the origin, and whose bottom
      would pass `margin + itemSize.height`, keeps `y == min(origin, barY)`. */
  lemma ShortBarIsNotReanchored(
    minBarHeight: real, margin: real, headerHeight: real, itemSize: Size,
    barSize: Size, origin: real, barY: real, barX: real)
    requires Abs(origin - barY) < minBarHeight
    ensures var r := BarDrawingProperties(minBarHeight, margin, headerHeight, itemSize, barSize, origin, barX, barY);
      && r.height == minBarHeight
      && r.y == Min(origin, barY)
  {
  }

  /** The dot of a point item sits at the horizontal middle of the rectangle
      a bar item drawn at the same slot would get. */
  lemma ItemPointCentredOnBar(
    minBarHeight: real, margin: real, headerHeight: real, itemSize: Size,
    barSize: Size, origin: real, barX: real, barY: real)
    ensures var r := BarDrawingProperties(minBarHeight, margin, headerHeight, itemSize, barSize, origin, barX, barY);
      ItemPoint(itemSize, barSize, barX, barY).x == r.x + r.width / 2.0
  {
  }
}
