/** Recolouring the circles by an attribute, and resetting them: the
    effect of `controlCallback` in source/index.js and of every
    `onChange` handler in hdp.js. */
module Recolor {
  import opened Colors
  import opened Scatter
  import opened Loader

  /** Paint by an attribute, or wipe. */
  datatype Effect = ColorBy(attribute: Attribute) | Reset

  /** What an effect needs of the loaded data: painting by `a` needs `a`'s
      series and scale for every circle; a wipe needs nothing. */
  ghost predicate Applicable(d: Dataset, n: nat, e: Effect) {
    match e
    case ColorBy(a) => ReadyFor(d, a, n)
    case Reset => true
  }

  /** Every effect in the sequence is applicable. */
  ghost predicate AllApplicable(d: Dataset, n: nat, es: seq<Effect>) {
    forall k :: 0 <= k < |es| ==> Applicable(d, n, es[k])
  }

  /** The colouring an effect leaves on circles with these data; it does
      not depend on the colouring before. */
  function EffectLook(d: Dataset, datum: seq<Point>, e: Effect): Look
    requires Applicable(d, |datum|, e)
  {
    match e
    case ColorBy(a) => PaintLook(datum, SeriesOf(d, a).value, ScaleOf(d, a).value)
    case Reset => InitialLook(|datum|)
  }

  /** The colouring after a sequence of effects. */
  function Replay(d: Dataset, datum: seq<Point>, look: Look, es: seq<Effect>): Look
    requires AllApplicable(d, |datum|, es)
    decreases |es|
  {
    if es == [] then look else Replay(d, datum, EffectLook(d, datum, es[0]), es[1..])
  }

  /** Only the last effect decides the colouring: painting is an overwrite,
      not a toggle, and attributes need not be switched off in between. */
  lemma {:induction false} LastWriteWins(d: Dataset, datum: seq<Point>, look: Look, es: seq<Effect>)
    requires AllApplicable(d, |datum|, es)
    ensures Replay(d, datum, look, es) == if es == [] then look else EffectLook(d, datum, es[|es| - 1])
    decreases |es|
  {
    if es != [] && |es| > 1 {
      LastWriteWins(d, datum, EffectLook(d, datum, es[0]), es[1..]);
    }
  }

  /** Painting twice by the same attribute is painting once, and a reset
      brings back the colouring the circles were created with. */
  lemma PaintIdempotentResetRestores(d: Dataset, datum: seq<Point>, look: Look, a: Attribute,
                                     es: seq<Effect>)
    requires ReadyFor(d, a, |datum|) && AllApplicable(d, |datum|, es)
    ensures Replay(d, datum, look, [ColorBy(a), ColorBy(a)]) == Replay(d, datum, look, [ColorBy(a)])
    ensures Replay(d, datum, look, es + [Reset]) == InitialLook(|datum|)
  {
    LastWriteWins(d, datum, look, [ColorBy(a), ColorBy(a)]);
    LastWriteWins(d, datum, look, [ColorBy(a)]);
    LastWriteWins(d, datum, look, es + [Reset]);
  }

  /** Documentation only, spelling out `PaintLook` and `ScaleOf` for one
      circle: colouring by an attribute fills circle `i` with the
      attribute's scale at the `i`-th value and titles it with its own
      datum; "gender" uses the label scale. */
  lemma ColorByPaintsEveryCircle(d: Dataset, datum: seq<Point>, a: Attribute, i: nat)
    requires ReadyFor(d, a, |datum|) && i < |datum|
    ensures var l := EffectLook(d, datum, ColorBy(a));
      && |l.fill| == |datum| && |l.title| == |datum|
      && l.fill[i] == ScaleOf(d, a).value(SeriesOf(d, a).value[i])
      && l.title[i] == Datum(datum[i])
    ensures a == Gender ==> ScaleOf(d, a) == d.colorLabel
  {
  }

  /** `controlCallback(inputValue, series, scale)`: paint when the value is
      truthy, wipe otherwise. */
  method Control(plot: Plot, d: Dataset, a: Attribute, on: bool)
    requires plot.Valid() && (on ==> ReadyFor(d, a, plot.Count()))
    modifies plot.fill, plot.title
    ensures plot.View() == EffectLook(d, plot.datum, if on then ColorBy(a) else Reset)
  {
    if on {
      plot.Paint(SeriesOf(d, a).value, ScaleOf(d, a).value);
    } else {
      plot.Wipe();
    }
  }
}
