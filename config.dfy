/** The configuration loop of the `HDP` constructor: every own key of the
    configuration object is visited in order; a recognised key assigns a
    module-level variable, anything else throws. Assignments made before a
    throw stay in place, because they are module state. */
module Config {
  import opened Common

  /** The two copies of the widget: source/index.js and hdp.js. */
  datatype Variant = IndexJs | HdpJs

  /** The module-level variables the loop assigns: `cb`, `gui_id`,
      `guiBefore`, `vis_id` and `domTarget`. hdp.js has only `cb` and
      `domTarget`; the other three stay `Undefined` there. */
  datatype Settings = Settings(cb: Value, guiId: Value, guiBefore: Value, visId: Value, domTarget: Value)

  /** The values the module-level variables have before the loop runs. */
  function Defaults(variant: Variant): Settings {
    match variant
    case IndexJs => Settings(Undefined, Str("hdp_gui"), Undefined, Str("hdp"), Str("body"))
    case HdpJs => Settings(Undefined, Undefined, Undefined, Undefined, Str("body"))
  }

  /** A configuration object: its own keys with their values, in
      enumeration order. */
  type ConfigObject = seq<(string, Value)>

  /** The loop's outcome: it finishes, or it throws; either way the
      module-level variables keep what was assigned so far. */
  datatype Outcome = Configured(settings: Settings) | Rejected(error: Error, settings: Settings)

  predicate StartsWithHash(s: string) {
    |s| > 0 && s[0] == '#'
  }

  /** One pass of the `switch (prop)` body. */
  function Step(variant: Variant, s: Settings, key: string, v: Value): (r: Outcome)
    ensures r.Configured? <==> ValidEntry(variant, key, v)
    ensures key !in AcceptedKeys(variant) ==> r == Rejected(InvalidParameter(key), s)
    ensures key == "target" ==> r.settings == s.(domTarget := v)
    ensures key == "target" && r.Rejected? ==> r.error == if v.Str? then SelectorRequired else TargetNotString
    ensures key == "guiBefore" && r.Configured? ==> r.settings.guiBefore == Bool(Truthy(v))
  {
    if key == "cb" then Configured(s.(cb := v))
    else if variant == IndexJs && key == "gui_id" then Configured(s.(guiId := v))
    else if variant == IndexJs && key == "guiBefore" then Configured(s.(guiBefore := Bool(Truthy(v))))
    else if variant == IndexJs && key == "id" then Configured(s.(visId := v))
    else if key == "target" then
      // domTarget is assigned before the selector is checked
      var s' := s.(domTarget := v);
      match v
      case Str(t) => if StartsWithHash(t) then Configured(s') else Rejected(SelectorRequired, s')
      case _ => Rejected(TargetNotString, s')
    else Rejected(InvalidParameter(key), s)
  }

  /** The whole loop, as a fold of `Step` over the entries. */
  function ApplyConfig(variant: Variant, s: Settings, config: ConfigObject): Outcome
    decreases |config|
  {
    if config == [] then Configured(s)
    else
      match Step(variant, s, config[0].0, config[0].1)
      case Rejected(e, s') => Rejected(e, s')
      case Configured(s') => ApplyConfig(variant, s', config[1..])
  }

  /** The keys each copy recognises. */
  function AcceptedKeys(variant: Variant): set<string> {
    match variant
    case IndexJs => {"cb", "gui_id", "guiBefore", "id", "target"}
    case HdpJs => {"cb", "target"}
  }

  /** An entry the loop lets through: a recognised key, and for `target`
      a string starting with `#`. */
  predicate ValidEntry(variant: Variant, key: string, v: Value) {
    key in AcceptedKeys(variant) && (key == "target" ==> v.Str? && StartsWithHash(v.s))
  }

  /** The value of the last entry with this key, if there is one. */
  function LastValue(config: ConfigObject, key: string): Option<Value>
    decreases |config|
  {
    if config == [] then None
    else
      match LastValue(config[1..], key)
      case Some(v) => Some(v)
      case None => if config[0].0 == key then Some(config[0].1) else None
  }

  function GetOr(o: Option<Value>, default: Value): Value {
    match o
    case Some(v) => v
    case None => default
  }

  /** The loop as the constructor runs it. */
  method Configure(variant: Variant, config: ConfigObject) returns (out: Outcome)
    ensures out == ApplyConfig(variant, Defaults(variant), config)
  {
    var s := Defaults(variant);
    var i := 0;
    while i < |config|
      invariant 0 <= i <= |config|
      invariant ApplyConfig(variant, s, config[i..]) == ApplyConfig(variant, Defaults(variant), config)
    {
      assert config[i..][1..] == config[i + 1..];
      var step := Step(variant, s, config[i].0, config[i].1);
      if step.Rejected? {
        return step;
      }
      s := step.settings;
      i := i + 1;
    }
    out := Configured(s);
  }

  /** The loop finishes exactly when every entry is valid. */
  lemma {:induction false} ConfiguredIffAllValid(variant: Variant, s: Settings, config: ConfigObject)
    ensures ApplyConfig(variant, s, config).Configured?
        <==> forall i :: 0 <= i < |config| ==> ValidEntry(variant, config[i].0, config[i].1)
    decreases |config|
  {
    if config != [] {
      var step := Step(variant, s, config[0].0, config[0].1);
      assert step.Configured? <==> ValidEntry(variant, config[0].0, config[0].1);
      if step.Configured? {
        ConfiguredIffAllValid(variant, step.settings, config[1..]);
        assert forall i :: 1 <= i < |config| ==> config[i] == config[1..][i - 1];
      }
    }
  }

  /** The first invalid entry decides the exception: nothing after it is
      looked at, an unknown key assigns nothing, and a bad `target` is left
      assigned to `domTarget`. */
  lemma {:induction false} RejectedAtFirstInvalid(variant: Variant, s: Settings, config: ConfigObject, j: nat)
    requires j < |config| && !ValidEntry(variant, config[j].0, config[j].1)
    requires forall i :: 0 <= i < j ==> ValidEntry(variant, config[i].0, config[i].1)
    ensures var out := ApplyConfig(variant, s, config);
      && out.Rejected?
      && var before := ApplyConfig(variant, s, config[..j]);
      && before.Configured?
      && (config[j].0 !in AcceptedKeys(variant) ==>
            out.error == InvalidParameter(config[j].0) && out.settings == before.settings)
      && (config[j].0 == "target" ==>
            out.error in {SelectorRequired, TargetNotString}
            && out.settings == before.settings.(domTarget := config[j].1))
    decreases j
  {
    if j == 0 {
      assert config[..0] == [];
    } else {
      var step := Step(variant, s, config[0].0, config[0].1);
      assert ValidEntry(variant, config[0].0, config[0].1);
      assert step.Configured?;
      var rest := config[1..];
      assert forall i :: 0 <= i < j - 1 ==> rest[i] == config[i + 1];
      RejectedAtFirstInvalid(variant, step.settings, rest, j - 1);
      assert config[..j][1..] == rest[..j - 1];
    }
  }

  /** When the loop finishes, every variable holds the value of the last
      entry for its key, or its earlier value when there is none. */
  lemma {:induction false} LastAssignmentWins(variant: Variant, s: Settings, config: ConfigObject)
    requires ApplyConfig(variant, s, config).Configured?
    ensures var t := ApplyConfig(variant, s, config).settings;
      && t.cb == GetOr(LastValue(config, "cb"), s.cb)
      && t.domTarget == GetOr(LastValue(config, "target"), s.domTarget)
      && t.guiId == GetOr(LastValue(config, "gui_id"), s.guiId)
      && t.visId == GetOr(LastValue(config, "id"), s.visId)
      && t.guiBefore == match LastValue(config, "guiBefore")
                        case Some(v) => Bool(Truthy(v))
                        case None => s.guiBefore
    decreases |config|
  {
    if config != [] {
      var step := Step(variant, s, config[0].0, config[0].1);
      LastAssignmentWins(variant, step.settings, config[1..]);
    }
  }

  /** hdp.js lets through no key but `cb` and `target`. */
  lemma HdpAcceptsOnlyCbAndTarget(s: Settings, config: ConfigObject)
    requires ApplyConfig(HdpJs, s, config).Configured?
    ensures forall i :: 0 <= i < |config| ==> config[i].0 == "cb" || config[i].0 == "target"
  {
    ConfiguredIffAllValid(HdpJs, s, config);
  }
}
