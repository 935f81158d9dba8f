/** Loading the six datasets: each fetch resolves to a `[handler, data]`
    pair, `Promise.all` joins them, and `execJSONhandlers` applies each
    handler to its data in list order. The handlers assign the module-level
    series and build the colour scales from them. */
module Loader {
  import opened Common
  import opened Colors
  import opened Scatter
  import Config

  /** The `loaded_*` functions. */
  datatype Handler = LoadedHd | LoadedHdAge | LoadedHdCaps | LoadedHdCapscore | LoadedHdGender | LoadedHdl

  /** What a fetch resolves to: a handler together with the parsed JSON it
      receives. Coordinates go to `loaded_hd`, number series to the others. */
  datatype Request =
    | ForHd(points: seq<Point>)
    | ForAge(values: seq<real>)
    | ForCaps(values: seq<real>)
    | ForCapscore(values: seq<real>)
    | ForGender(values: seq<real>)
    | ForHdl(values: seq<real>)

  function HandlerOf(r: Request): Handler {
    match r
    case ForHd(_) => LoadedHd
    case ForAge(_) => LoadedHdAge
    case ForCaps(_) => LoadedHdCaps
    case ForCapscore(_) => LoadedHdCapscore
    case ForGender(_) => LoadedHdGender
    case ForHdl(_) => LoadedHdl
  }

  /** The `jsonInputs` table: resource name and handler, in the order the
      fetches are issued. */
  function Resources(variant: Config.Variant): seq<(string, Handler)> {
    match variant
    case IndexJs =>
      [("hd", LoadedHd), ("hd_age", LoadedHdAge), ("hd_caps", LoadedHdCaps),
       ("hd_capscore", LoadedHdCapscore), ("hd_gender", LoadedHdGender), ("hdl", LoadedHdl)]
    case HdpJs =>
      [("hd.json", LoadedHd), ("hd_age.json", LoadedHdAge), ("hd_caps.json", LoadedHdCaps),
       ("hd_capscore.json", LoadedHdCapscore), ("hd_gender.json", LoadedHdGender), ("hdl.json", LoadedHdl)]
  }

  /** The d3 linear scales built from a series (over its extent, or over
      nine equal steps); d3's numerics are not modelled. */
  datatype Builders = Builders(forLabels: seq<real> -> real -> Color,
                               forAge: seq<real> -> real -> Color,
                               forCapscore: seq<real> -> real -> Color)

  /** The module-level variables the handlers assign, and the handlers
      called so far, in call order. */
  datatype Dataset = Dataset(
    points: Option<seq<Point>>,
    labels: Option<seq<real>>,
    age: Option<seq<real>>,
    gender: Option<seq<real>>,
    capsg: Option<seq<real>>,
    caps: Option<seq<real>>,
    colorLabel: Option<Scale>,
    colorAge: Option<Scale>,
    colorCapsg: Option<Scale>,
    colorCaps: Option<Scale>,
    calls: seq<Handler>)

  const Unloaded: Dataset :=
    Dataset(None, None, None, None, None, None, None, None, None, None, [])

  /** One handler call, `fd[0](fd[1])`. For `loaded_hd` this is only the
      assignment of `points`; its creation of the circles is
      `Scatter.Plot.LoadHd`. */
  function Handle(b: Builders, d: Dataset, req: Request): (r: Dataset)
    // the call is recorded
    ensures r.calls == d.calls + [HandlerOf(req)]
    // each handler stores its own data and builds its own scale ...
    ensures req.ForHd? ==> r.points == Some(req.points)
    ensures req.ForAge? ==> r.age == Some(req.values) && r.colorAge == Some(b.forAge(req.values))
    ensures req.ForCaps? ==> r.capsg == Some(req.values) && r.colorCapsg == Some(SeverityScale)
    ensures req.ForCapscore? ==> r.caps == Some(req.values) && r.colorCaps == Some(b.forCapscore(req.values))
    ensures req.ForGender? ==> r.gender == Some(req.values)
    ensures req.ForHdl? ==> r.labels == Some(req.values) && r.colorLabel == Some(b.forLabels(req.values))
    // ... and leaves everything else as it was
    ensures !req.ForHd? ==> r.points == d.points
    ensures !req.ForAge? ==> r.age == d.age && r.colorAge == d.colorAge
    ensures !req.ForCaps? ==> r.capsg == d.capsg && r.colorCapsg == d.colorCapsg
    ensures !req.ForCapscore? ==> r.caps == d.caps && r.colorCaps == d.colorCaps
    ensures !req.ForGender? ==> r.gender == d.gender
    ensures !req.ForHdl? ==> r.labels == d.labels && r.colorLabel == d.colorLabel
  {
    var d' := d.(calls := d.calls + [HandlerOf(req)]);
    match req
    case ForHd(p) => d'.(points := Some(p))
    case ForAge(v) => d'.(age := Some(v), colorAge := Some(b.forAge(v)))
    case ForCaps(v) => d'.(capsg := Some(v), colorCapsg := Some(SeverityScale))
    case ForCapscore(v) => d'.(caps := Some(v), colorCaps := Some(b.forCapscore(v)))
    case ForGender(v) => d'.(gender := Some(v))
    case ForHdl(v) => d'.(labels := Some(v), colorLabel := Some(b.forLabels(v)))
  }

  /** The handlers applied to the requests from first to last. */
  function HandleAll(b: Builders, d: Dataset, reqs: seq<Request>): Dataset
    decreases |reqs|
  {
    if reqs == [] then d else HandleAll(b, Handle(b, d, reqs[0]), reqs[1..])
  }

  /** `execJSONhandlers`: throws on a missing argument, does nothing on an
      empty list, and otherwise calls every handler. */
  function Exec(b: Builders, d: Dataset, reqs: Option<seq<Request>>): Result<Dataset> {
    match reqs
    case None => Err(NoHandlers)
    case Some(rs) => if |rs| == 0 then Ok(d) else Ok(HandleAll(b, d, rs))
  }

  method ExecJsonHandlers(b: Builders, d: Dataset, reqs: Option<seq<Request>>) returns (r: Result<Dataset>)
    ensures r == Exec(b, d, reqs)
  {
    if reqs.None? {
      return Err(NoHandlers);
    }
    var rs := reqs.value;
    if |rs| == 0 {
      return Ok(d);
    }
    var cur := d;
    var i := 0;
    while i < |rs|
      invariant 0 <= i <= |rs|
      invariant HandleAll(b, cur, rs[i..]) == HandleAll(b, d, rs)
    {
      assert rs[i..][1..] == rs[i + 1..];
      cur := Handle(b, cur, rs[i]);
      i := i + 1;
    }
    r := Ok(cur);
  }

  function Handlers(reqs: seq<Request>): seq<Handler> {
    seq(|reqs|, i requires 0 <= i < |reqs| => HandlerOf(reqs[i]))
  }

  /** Each request's handler is called exactly once, in list order. */
  lemma {:induction false} HandleAllCallsInOrder(b: Builders, d: Dataset, reqs: seq<Request>)
    ensures HandleAll(b, d, reqs).calls == d.calls + Handlers(reqs)
    decreases |reqs|
  {
    if reqs != [] {
      HandleAllCallsInOrder(b, Handle(b, d, reqs[0]), reqs[1..]);
      assert Handlers(reqs) == [HandlerOf(reqs[0])] + Handlers(reqs[1..]);
    }
  }

  /** `Promise.all`: every value, in list order, if every fetch succeeded;
      otherwise a rejection. */
  function Join(fetched: seq<Result<Request>>): (r: Result<seq<Request>>)
    ensures r.Ok? <==> forall i :: 0 <= i < |fetched| ==> fetched[i].Ok?
    ensures r.Ok? ==> |r.value| == |fetched| && forall i :: 0 <= i < |fetched| ==> r.value[i] == fetched[i].value
    ensures r.Err? ==> r.error == FetchRejected
  {
    if fetched == [] then Ok([])
    else
      match fetched[0]
      case Err(_) => Err(FetchRejected)
      case Ok(x) =>
        match Join(fetched[1..])
        case Err(e) => Err(e)
        case Ok(rest) => Ok([x] + rest)
  }

  /** The observable steps of the constructor. */
  datatype Event = FetchesIssued | InitPaint | Called(handler: Handler) | UserCallback

  datatype Status = Completed | ConfigThrew(error: Error) | InitPaintThrew | FetchFailed

  datatype RunOutcome = RunOutcome(status: Status, settings: Config.Settings, dataset: Dataset, trace: seq<Event>)

  function CallEvents(hs: seq<Handler>): seq<Event> {
    seq(|hs|, i requires 0 <= i < |hs| => Called(hs[i]))
  }

  /** The `HDP` constructor: the fetches are issued, the configuration loop
      runs, `initPaint` runs (it may throw; it is outside this model), then
      `Promise.all(...).then(execJSONhandlers).then(userCallback)`. */
  function Run(variant: Config.Variant, config: Config.ConfigObject, initPaintThrows: bool,
               fetched: seq<Result<Request>>, b: Builders): (r: RunOutcome)
    ensures |r.trace| >= 1 && r.trace[0] == FetchesIssued
    ensures InitPaint in r.trace <==> !r.status.ConfigThrew?
    ensures r.status != Completed ==> r.dataset == Unloaded && NoHandlerOrCallback(r.trace)
    ensures UserCallback in r.trace <==> r.status == Completed && Truthy(r.settings.cb)
    ensures r.status == Completed ==>
              && !initPaintThrows && Join(fetched).Ok?
              && r.dataset.calls == Handlers(Join(fetched).value)
  {
    var co := Config.ApplyConfig(variant, Config.Defaults(variant), config);
    if co.Rejected? then RunOutcome(ConfigThrew(co.error), co.settings, Unloaded, [FetchesIssued])
    else if initPaintThrows then RunOutcome(InitPaintThrew, co.settings, Unloaded, [FetchesIssued, InitPaint])
    else
      match Join(fetched)
      case Err(_) => RunOutcome(FetchFailed, co.settings, Unloaded, [FetchesIssued, InitPaint])
      case Ok(reqs) =>
        HandleAllCallsInOrder(b, Unloaded, reqs);
        var d := Exec(b, Unloaded, Some(reqs)).value;
        RunOutcome(Completed, co.settings, d,
                   [FetchesIssued, InitPaint] + CallEvents(d.calls)
                   + if Truthy(co.settings.cb) then [UserCallback] else [])
  }

  predicate NoHandlerOrCallback(trace: seq<Event>) {
    forall i :: 0 <= i < |trace| ==> trace[i] == FetchesIssued || trace[i] == InitPaint
  }

  /** The configuration loop throws exactly when some entry is invalid, and
      then neither `initPaint`, nor a handler, nor the user callback runs. */
  lemma RunConfigErrorStopsAll(variant: Config.Variant, config: Config.ConfigObject, initPaintThrows: bool,
                               fetched: seq<Result<Request>>, b: Builders)
    ensures var r := Run(variant, config, initPaintThrows, fetched, b);
      && (r.status.ConfigThrew? <==> exists i :: 0 <= i < |config| && !Config.ValidEntry(variant, config[i].0, config[i].1))
      && (r.status.ConfigThrew? ==> r.trace == [FetchesIssued] && r.dataset == Unloaded)
  {
    Config.ConfiguredIffAllValid(variant, Config.Defaults(variant), config);
  }

  /** A rejected fetch means that no handler and no user callback runs. */
  lemma RunFetchFailureStopsAll(variant: Config.Variant, config: Config.ConfigObject,
                                fetched: seq<Result<Request>>, b: Builders, k: nat)
    requires forall i :: 0 <= i < |config| ==> Config.ValidEntry(variant, config[i].0, config[i].1)
    requires k < |fetched| && fetched[k].Err?
    ensures var r := Run(variant, config, false, fetched, b);
      && r.status == FetchFailed && r.dataset == Unloaded
      && r.trace == [FetchesIssued, InitPaint] && NoHandlerOrCallback(r.trace)
  {
    Config.ConfiguredIffAllValid(variant, Config.Defaults(variant), config);
  }

  /** When every fetch succeeds, each handler runs once, in the order of the
      fetches, and the user callback runs afterwards iff `cb` is truthy. */
  lemma RunCompletes(variant: Config.Variant, config: Config.ConfigObject,
                     fetched: seq<Result<Request>>, b: Builders)
    requires forall i :: 0 <= i < |config| ==> Config.ValidEntry(variant, config[i].0, config[i].1)
    requires forall i :: 0 <= i < |fetched| ==> fetched[i].Ok?
    ensures var r := Run(variant, config, false, fetched, b);
      var settings := Config.ApplyConfig(variant, Config.Defaults(variant), config).settings;
      var reqs := Join(fetched).value;
      && r.status == Completed
      && r.dataset == HandleAll(b, Unloaded, reqs)
      && r.trace == [FetchesIssued, InitPaint] + CallEvents(Handlers(reqs))
                    + if Truthy(settings.cb) then [UserCallback] else []
  {
    Config.ConfiguredIffAllValid(variant, Config.Defaults(variant), config);
    var reqs := Join(fetched).value;
    HandleAllCallsInOrder(b, Unloaded, reqs);
  }

  /** The fetches answer the six resources of `jsonInputs`, in order. */
  predicate AnswersResources(variant: Config.Variant, fetched: seq<Result<Request>>) {
    |fetched| == |Resources(variant)|
    && forall i :: 0 <= i < |fetched| && fetched[i].Ok? ==> HandlerOf(fetched[i].value) == Resources(variant)[i].1
  }

  /** With all six fetches answered, the six handlers run once each. */
  lemma RunCallsEachHandlerOnce(variant: Config.Variant, config: Config.ConfigObject,
                                fetched: seq<Result<Request>>, b: Builders)
    requires forall i :: 0 <= i < |config| ==> Config.ValidEntry(variant, config[i].0, config[i].1)
    requires forall i :: 0 <= i < |fetched| ==> fetched[i].Ok?
    requires AnswersResources(variant, fetched)
    ensures var r := Run(variant, config, false, fetched, b);
      && |r.trace| >= 8
      && r.trace[2..8] == [Called(LoadedHd), Called(LoadedHdAge), Called(LoadedHdCaps),
                           Called(LoadedHdCapscore), Called(LoadedHdGender), Called(LoadedHdl)]
      && r.trace[8..] == if Truthy(r.settings.cb) then [UserCallback] else []
  {
    RunCompletes(variant, config, fetched, b);
    var reqs := Join(fetched).value;
    assert Handlers(reqs) == [LoadedHd, LoadedHdAge, LoadedHdCaps, LoadedHdCapscore, LoadedHdGender, LoadedHdl];
  }

  /** The five attributes the points can be coloured by. */
  datatype Attribute = Group | Age | Gender | DiseaseSeverity | CognitiveDecline

  /** The series each attribute paints. */
  function SeriesOf(d: Dataset, a: Attribute): Option<seq<real>> {
    match a
    case Group => d.labels
    case Age => d.age
    case Gender => d.gender
    case DiseaseSeverity => d.capsg
    case CognitiveDecline => d.caps
  }

  /** The scale each attribute paints with; gender reuses the label scale. */
  function ScaleOf(d: Dataset, a: Attribute): Option<Scale> {
    match a
    case Group => d.colorLabel
    case Age => d.colorAge
    case Gender => d.colorLabel
    case DiseaseSeverity => d.colorCapsg
    case CognitiveDecline => d.colorCaps
  }

  /** Attribute `a` can paint `n` circles: its series and its scale are
      loaded, and the scale accepts each of the first `n` values. */
  ghost predicate ReadyFor(d: Dataset, a: Attribute, n: nat) {
    SeriesOf(d, a).Some? && ScaleOf(d, a).Some? && Paintable(SeriesOf(d, a).value, ScaleOf(d, a).value, n)
  }

  /** Every attribute can paint `n` circles. */
  ghost predicate Ready(d: Dataset, n: nat) {
    forall a: Attribute :: ReadyFor(d, a, n)
  }

  /** Running the six standard requests assigns each series from its own
      data and builds each scale from its own series;
      when each series covers every point and every grade is one of 0..3,
      every attribute can paint every circle. */
  lemma FullLoadIsReady(b: Builders, points: seq<Point>, labels: seq<real>, age: seq<real>,
                        gender: seq<real>, capsg: seq<real>, caps: seq<real>)
    requires |points| <= |labels| && |points| <= |age| && |points| <= |gender|
    requires |points| <= |capsg| && |points| <= |caps|
    requires forall i :: 0 <= i < |points| ==> capsg[i] in SeverityDomain
    ensures var d := HandleAll(b, Unloaded, [ForHd(points), ForAge(age), ForCaps(capsg),
                                             ForCapscore(caps), ForGender(gender), ForHdl(labels)]);
      && d.points == Some(points)
      && d.colorCapsg == Some(SeverityScale)
      && d.colorLabel == Some(b.forLabels(labels))
      && d.labels == Some(labels) && d.age == Some(age) && d.gender == Some(gender)
      && d.capsg == Some(capsg) && d.caps == Some(caps)
      && d.colorAge == Some(b.forAge(age)) && d.colorCaps == Some(b.forCapscore(caps))
      && Ready(d, |points|)
  {
    var d1 := Handle(b, Unloaded, ForHd(points));
    var d2 := Handle(b, d1, ForAge(age));
    var d3 := Handle(b, d2, ForCaps(capsg));
    var d4 := Handle(b, d3, ForCapscore(caps));
    var d5 := Handle(b, d4, ForGender(gender));
    var d := Handle(b, d5, ForHdl(labels));
    assert HandleAll(b, d5, [ForHdl(labels)]) == d;
    assert HandleAll(b, d4, [ForGender(gender), ForHdl(labels)]) == d;
    assert HandleAll(b, d3, [ForCapscore(caps), ForGender(gender), ForHdl(labels)]) == d;
    assert HandleAll(b, d2, [ForCaps(capsg), ForCapscore(caps), ForGender(gender), ForHdl(labels)]) == d;
    assert HandleAll(b, d1, [ForAge(age), ForCaps(capsg), ForCapscore(caps), ForGender(gender), ForHdl(labels)]) == d;
    forall a: Attribute
      ensures ReadyFor(d, a, |points|)
    {
    }
  }
}
