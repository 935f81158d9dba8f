/** The control-panel callback of source/index.js: the first attribute
    key present in the event, in a fixed order, decides what is painted. */
module IndexPanel {
  import opened Common
  import opened Scatter
  import opened Loader
  import opened Recolor

  /** `LABEL_GROUP` ... `LABEL_COG_DEC`. */
  function Label(a: Attribute): string {
    match a
    case Group => "group"
    case Age => "age"
    case Gender => "gender"
    case DiseaseSeverity => "disease severity"
    case CognitiveDecline => "cognitive decline"
  }

  /** The position of an attribute in the `if ... else if` chain. */
  function Rank(a: Attribute): nat {
    match a
    case Group => 0
    case Age => 1
    case Gender => 2
    case DiseaseSeverity => 3
    case CognitiveDecline => 4
  }

  /** A control-panel event: the own properties of `data`. */
  type PanelEvent = map<string, Value>

  /** The dispatch of `panelCallback`: the attribute acted on and the value
      passed to `controlCallback`. */
  function Dispatch(event: PanelEvent): (r: Result<(Attribute, Value)>)
    ensures r.Err? <==> forall a :: Label(a) !in event
    ensures r.Err? ==> r.error == InvalidCallbackKey
    ensures r.Ok? ==> Label(r.value.0) in event && r.value.1 == event[Label(r.value.0)]
    ensures r.Ok? ==> forall a :: Rank(a) < Rank(r.value.0) ==> Label(a) !in event
  {
    if Label(Group) in event then Ok((Group, event[Label(Group)]))
    else if Label(Age) in event then Ok((Age, event[Label(Age)]))
    else if Label(Gender) in event then Ok((Gender, event[Label(Gender)]))
    else if Label(DiseaseSeverity) in event then Ok((DiseaseSeverity, event[Label(DiseaseSeverity)]))
    else if Label(CognitiveDecline) in event then Ok((CognitiveDecline, event[Label(CognitiveDecline)]))
    else Err(InvalidCallbackKey)
  }

  /** The effect of one event, or the exception it raises. */
  function PanelEffect(event: PanelEvent): Result<Effect> {
    match Dispatch(event)
    case Err(e) => Err(e)
    case Ok((a, v)) => Ok(if Truthy(v) then ColorBy(a) else Reset)
  }

  /** `panelCallback(data)` followed by `controlCallback`. An event with no
      attribute key throws before anything is painted. */
  method PanelCallback(plot: Plot, d: Dataset, event: PanelEvent) returns (r: Result<Attribute>)
    requires plot.Valid()
    requires PanelEffect(event).Ok? ==> Applicable(d, plot.Count(), PanelEffect(event).value)
    modifies plot.fill, plot.title
    ensures Dispatch(event).Err? ==> r == Err(InvalidCallbackKey) && plot.View() == old(plot.View())
    ensures Dispatch(event).Ok? ==>
              && r == Ok(Dispatch(event).value.0)
              && plot.View() == EffectLook(d, plot.datum, PanelEffect(event).value)
  {
    var disp := Dispatch(event);
    if disp.Err? {
      return Err(disp.error);
    }
    var (a, v) := disp.value;
    Control(plot, d, a, Truthy(v));
    r := Ok(a);
  }

  /** Documentation only: three instances of `Dispatch`'s contract. An
      event holding several attribute keys acts on the first of them only,
      and an event with no attribute key throws. */
  lemma FirstKeyOnly(v: Value, w: Value)
    ensures Dispatch(map["age" := v, "group" := w]) == Ok((Group, w))
    ensures Dispatch(map["cognitive decline" := v, "gender" := w]) == Ok((Gender, w))
    ensures Dispatch(map["sex" := v]) == Err(InvalidCallbackKey)
  {
  }
}
