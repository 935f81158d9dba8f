/** The dat.GUI control of hdp.js: five independent checkboxes, each of
    which paints its own attribute when ticked and wipes when cleared. */
module HdpGui {
  import opened Scatter
  import opened Loader
  import opened Recolor

  /** The controls object `DCmap` that dat.GUI edits. */
  class DCmap {
    var example: string
    var step: int
    var cGroups: bool
    var cAge: bool
    var cGender: bool
    var cCaps: bool
    var cCapscore: bool

    /** `new DCmap()`: every toggle starts cleared. */
    constructor ()
      ensures example == "exploring data" && step == 0
      ensures forall a :: !Get(a)
    {
      example := "exploring data";
      step := 0;
      cGroups, cAge, cGender, cCaps, cCapscore := false, false, false, false, false;
    }

    /** The toggle of each attribute. */
    function Get(a: Attribute): bool
      reads this
    {
      match a
      case Group => cGroups
      case Age => cAge
      case Gender => cGender
      case DiseaseSeverity => cCaps
      case CognitiveDecline => cCapscore
    }

    /** dat.GUI writes the new checkbox value into its property. */
    method Set(a: Attribute, value: bool)
      modifies this
      ensures Get(a) == value
      ensures forall b :: b != a ==> Get(b) == old(Get(b))
      ensures example == old(example) && step == old(step)
    {
      match a
      case Group => cGroups := value;
      case Age => cAge := value;
      case Gender => cGender := value;
      case DiseaseSeverity => cCaps := value;
      case CognitiveDecline => cCapscore := value;
    }
  }

  /** The effect of the `onChange` handler of attribute `a`. */
  function OnChangeEffect(a: Attribute, value: bool): Effect {
    if value then ColorBy(a) else Reset
  }

  /** A checkbox change: the toggle is written, then its handler paints its
      own series with its own scale, or wipes. Other toggles are untouched. */
  method OnChange(controls: DCmap, plot: Plot, d: Dataset, a: Attribute, value: bool)
    requires plot.Valid() && (value ==> ReadyFor(d, a, plot.Count()))
    modifies controls, plot.fill, plot.title
    ensures controls.Get(a) == value
    ensures forall b :: b != a ==> controls.Get(b) == old(controls.Get(b))
    ensures controls.example == old(controls.example) && controls.step == old(controls.step)
    ensures plot.View() == EffectLook(d, plot.datum, OnChangeEffect(a, value))
  {
    controls.Set(a, value);
    Control(plot, d, a, value);
  }

  /** A sequence of checkbox changes, in firing order. */
  type Changes = seq<(Attribute, bool)>

  function Effects(cs: Changes): seq<Effect> {
    seq(|cs|, i requires 0 <= i < |cs| => OnChangeEffect(cs[i].0, cs[i].1))
  }

  /** Whatever the toggles, the colouring is that of the last handler fired. */
  lemma LastHandlerFiredWins(d: Dataset, datum: seq<Point>, look: Look, cs: Changes)
    requires forall k :: 0 <= k < |cs| && cs[k].1 ==> ReadyFor(d, cs[k].0, |datum|)
    requires cs != []
    ensures Replay(d, datum, look, Effects(cs))
         == EffectLook(d, datum, OnChangeEffect(cs[|cs| - 1].0, cs[|cs| - 1].1))
  {
    LastWriteWins(d, datum, look, Effects(cs));
  }

  /** The toggles do not exclude each other: ticking "group" and then "age"
      leaves both ticked, and the points coloured by age. */
  method TogglesNotExclusive(controls: DCmap, plot: Plot, d: Dataset)
    requires plot.Valid() && ReadyFor(d, Group, plot.Count()) && ReadyFor(d, Age, plot.Count())
    modifies controls, plot.fill, plot.title
    ensures controls.Get(Group) && controls.Get(Age)
    ensures plot.View() == EffectLook(d, plot.datum, ColorBy(Age))
  {
    OnChange(controls, plot, d, Group, true);
    OnChange(controls, plot, d, Age, true);
  }
}
