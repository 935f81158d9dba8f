/** The rendered circles of the scatter plot. Each circle has a bound
    datum (its coordinate pair), a fill, a title, a radius and a fill
    opacity; `paint`, `wipe` and the hover handlers overwrite them in place. */
module Scatter {
  import opened Colors

  /** One entry of the coordinate dataset, `[x, y]`. */
  datatype Point = Point(x: real, y: real)

  /** The `title` attribute: `""`, or the circle's bound datum. */
  datatype Title = Blank | Datum(point: Point)

  /** `dotR`, and the radius and opacity the hover handlers set. */
  const DotR: real := 3.0
  const HoverRadius: real := 2.0 * DotR
  const HoverOpacity: real := 0.8
  const FullOpacity: real := 1.0

  /** The colouring of all circles: fills and titles, by circle index. */
  datatype Look = Look(fill: seq<Color>, title: seq<Title>)

  /** `paint(series, scale)` is defined on `n` circles: the series has a
      value for each of them and the scale is defined on that value. */
  ghost predicate Paintable(series: seq<real>, scale: Scale, n: nat) {
    n <= |series| && forall i :: 0 <= i < n ==> scale.requires(series[i])
  }

  /** Colouring of freshly created circles: default fill, empty title. */
  function InitialLook(n: nat): Look {
    Look(seq(n, _ => DefaultFill), seq(n, _ => Blank))
  }

  /** Colouring after `paint`: circle `i` filled with `scale(series[i])`,
      titled with its own datum. */
  function PaintLook(datum: seq<Point>, series: seq<real>, scale: Scale): Look
    requires Paintable(series, scale, |datum|)
  {
    Look(seq(|datum|, i requires 0 <= i < |datum| => scale(series[i])),
         seq(|datum|, i requires 0 <= i < |datum| => Datum(datum[i])))
  }

  class Plot {
    var datum: seq<Point>
    var fill: array<Color>
    var title: array<Title>
    var radius: array<real>
    var opacity: array<real>

    /** One entry per circle in each attribute array. */
    ghost predicate Valid()
      reads this
    {
      && fill.Length == |datum|
      && title.Length == |datum|
      && radius.Length == |datum|
      && opacity.Length == |datum|
      && radius != opacity
    }

    function Count(): nat
      reads this
    {
      |datum|
    }

    function View(): Look
      reads this, fill, title
    {
      Look(fill[..], title[..])
    }

    /** The empty SVG that `initPaint` creates: no circles yet. */
    constructor ()
      ensures Valid() && Count() == 0
    {
      datum := [];
      fill := new Color[0];
      title := new Title[0];
      radius := new real[0];
      opacity := new real[0];
    }

    /** `loaded_hd`: `selectAll("circle").data(points)` rebinds the data of
        the circles already there, and `enter().append` creates one circle
        for each further point, with the default fill, an empty title and
        radius `dotR`. */
    method LoadHd(points: seq<Point>)
      requires Valid()
      modifies this
      ensures Valid() && fresh(fill) && fresh(title) && fresh(radius) && fresh(opacity)
      ensures Count() == if |points| < old(Count()) then old(Count()) else |points|
      ensures forall i :: 0 <= i < Count() ==>
                datum[i] == if i < |points| then points[i] else old(datum[i])
      ensures forall i :: 0 <= i < old(Count()) ==>
                && fill[i] == old(fill[i]) && title[i] == old(title[i])
                && radius[i] == old(radius[i]) && opacity[i] == old(opacity[i])
      ensures forall i :: old(Count()) <= i < Count() ==>
                && fill[i] == DefaultFill && title[i] == Blank
                && radius[i] == DotR && opacity[i] == FullOpacity
      ensures old(Count()) == 0 ==> datum == points && View() == InitialLook(|points|)
    {
      var n := |datum|;
      var m := if |points| < n then n else |points|;
      var d0, f0, t0, r0, o0 := datum, fill[..], title[..], radius[..], opacity[..];
      datum := seq(m, i requires 0 <= i < m => if i < |points| then points[i] else d0[i]);
      fill := new Color[m](i => if 0 <= i < |f0| then f0[i] else DefaultFill);
      title := new Title[m](i => if 0 <= i < |t0| then t0[i] else Blank);
      radius := new real[m](i => if 0 <= i < |r0| then r0[i] else DotR);
      opacity := new real[m](i => if 0 <= i < |o0| then o0[i] else FullOpacity);
      if n == 0 {
        assert View().fill == InitialLook(m).fill;
        assert View().title == InitialLook(m).title;
      }
    }

    /** `paint(value, colscale)`: every title becomes the circle's datum,
        then every fill becomes the scale's colour for the circle's value. */
    method Paint(series: seq<real>, scale: Scale)
      requires Valid() && Paintable(series, scale, Count())
      modifies fill, title
      ensures View() == PaintLook(datum, series, scale)
    {
      var i := 0;
      while i < title.Length
        invariant 0 <= i <= title.Length
        invariant forall k :: 0 <= k < i ==> title[k] == Datum(datum[k])
      {
        title[i] := Datum(datum[i]);
        i := i + 1;
      }
      var j := 0;
      while j < fill.Length
        invariant 0 <= j <= fill.Length
        invariant forall k :: 0 <= k < j ==> fill[k] == scale(series[k])
        invariant forall k :: 0 <= k < title.Length ==> title[k] == Datum(datum[k])
      {
        fill[j] := scale(series[j]);
        j := j + 1;
      }
      assert View().fill == PaintLook(datum, series, scale).fill;
      assert View().title == PaintLook(datum, series, scale).title;
    }

    /** `wipe()`: every title becomes empty and every fill the default. */
    method Wipe()
      requires Valid()
      modifies fill, title
      ensures View() == InitialLook(Count())
    {
      var i := 0;
      while i < title.Length
        invariant 0 <= i <= title.Length
        invariant forall k :: 0 <= k < i ==> title[k] == Blank
      {
        title[i] := Blank;
        i := i + 1;
      }
      var j := 0;
      while j < fill.Length
        invariant 0 <= j <= fill.Length
        invariant forall k :: 0 <= k < j ==> fill[k] == DefaultFill
        invariant forall k :: 0 <= k < title.Length ==> title[k] == Blank
      {
        fill[j] := DefaultFill;
        j := j + 1;
      }
      assert View().fill == InitialLook(Count()).fill;
      assert View().title == InitialLook(Count()).title;
    }

    /** The `mouseover` handler of circle `i`. */
    method MouseOver(i: nat)
      requires Valid() && i < Count()
      modifies radius, opacity
      ensures radius[i] == HoverRadius && opacity[i] == HoverOpacity
      ensures forall k :: 0 <= k < Count() && k != i ==>
                radius[k] == old(radius[k]) && opacity[k] == old(opacity[k])
      ensures View() == old(View())
    {
      radius[i] := HoverRadius;
      opacity[i] := HoverOpacity;
    }

    /** The `mouseout` handler of circle `i`. */
    method MouseOut(i: nat)
      requires Valid() && i < Count()
      modifies radius, opacity
      ensures radius[i] == DotR && opacity[i] == FullOpacity
      ensures forall k :: 0 <= k < Count() && k != i ==>
                radius[k] == old(radius[k]) && opacity[k] == old(opacity[k])
      ensures View() == old(View())
    {
      radius[i] := DotR;
      opacity[i] := FullOpacity;
    }
  }
}
