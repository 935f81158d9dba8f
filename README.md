# hdp scatter-plot widget, modelled in Dafny

A model of the core of the `hdp` widget: a D3 scatter plot of
pre-computed points that can be coloured by one of five attributes
(patient/control group, age, gender, disease-severity grade and
cognitive-decline score). The widget exists in two near-identical
copies, `source/index.js` and `hdp.js`; the model states their shared
behaviour once and names the copy (`Config.Variant`) where they differ.

- `Common`: the exceptions the widget throws (`Error`), `Option`/`Result`,
  JavaScript values (`Value`) and their truthiness.
- `Colors`: colours, colour scales as abstract functions from a data value
  to a colour, and the fixed ordinal palette of the severity grade.
- `Config`: the configuration loop of the `HDP` constructor, as a fold
  (`ApplyConfig`) and as the loop the constructor runs (`Configure`).
  `source/index.js` accepts `cb`, `gui_id`, `guiBefore`, `id` and `target`;
  `hdp.js` accepts `cb` and `target`.
- `Scatter`: the circles (`Plot`), with one array entry per circle for fill,
  title, radius and fill opacity, and the operations that overwrite them:
  creation in `loaded_hd`, `paint`, `wipe` and the hover handlers.
- `Loader`: the six fetches joined by `Promise.all` (`Join`), the
  `loaded_*` handlers as a state transformer over the module-level series
  (`Handle`, `HandleAll`), `execJSONhandlers`, and the whole constructor
  flow (`Run`) with its trace of observable steps.
- `Recolor`: the effect of painting by an attribute or wiping, and
  `controlCallback`.
- `IndexPanel`: `panelCallback` of `source/index.js` (first key present,
  in a fixed order).
- `HdpGui`: the `DCmap` toggles of `hdp.js` and their `onChange` handlers.

In these places the model follows the code as written:
- The fetches are issued (`source/index.js:64-77`, `hdp.js:48-61`) before the
  configuration loop runs, so a configuration error does not prevent the
  requests; it only prevents their results from ever being used. `Run`'s
  trace therefore starts with `FetchesIssued` (for `source/index.js` this
  assumes `inputData` is an object, see "Left out").
- `paint` sets each circle's title to its bound datum, the coordinate pair,
  not to the attribute value (`source/index.js:336`, `hdp.js:278`).
- "gender" paints with the label scale in both copies.
- The toggles of `hdp.js` are independent; the last handler fired decides
  the colouring.

## Model

| member | source | states |
|---|---|---|
| `Colors.SeverityPalette` | source/index.js:285-290 | grades 0, 1, 2, 3 map to "white", "yellow", "orange", "red" |
| `Colors.SeverityGradesDistinct` | hdp.js:230-235 | two different severity grades always get different colours |
| `Colors.OrdinalInjective` | hdp.js:232-234 | an ordinal scale whose range repeats no colour tells any two domain values apart |
| `Colors.IndexOf` | source/index.js:288 | the position found holds the value and no earlier position does |
| `Config.Step` | source/index.js:83-113 | one entry of the loop is accepted iff the copy recognises its key and, for `target`, the value is a string starting with `#`; an unknown key throws `InvalidParameter(key)` and assigns nothing; `target` is assigned to `domTarget` before it is checked, and a bad one throws `SelectorRequired` for a string and `TargetNotString` otherwise; `guiBefore` is stored coerced to a boolean |
| `Config.Configure` | source/index.js:80-115 | the constructor's configuration loop computes exactly the fold `ApplyConfig` from the module defaults, stopping at the first throw |
| `Config.ConfiguredIffAllValid` | source/index.js:83-113 | the loop finishes iff every key is accepted by the copy and every `target` is a string starting with `#` |
| `Config.RejectedAtFirstInvalid` | source/index.js:104-112 | the first invalid entry decides the throw; entries after it are ignored, earlier assignments persist, an unknown key throws `InvalidParameter(key)` without assigning, a bad `target` stays assigned to `domTarget` |
| `Config.LastAssignmentWins` | source/index.js:86-109 | after a successful loop each variable holds the last value given for its key (`guiBefore` coerced to a boolean), or its default |
| `Config.HdpAcceptsOnlyCbAndTarget` | hdp.js:64-82 | hdp.js's loop finishes only if every key is `cb` or `target` |
| `Scatter.Plot.constructor` | hdp.js:197-200 | the SVG starts with no circles |
| `Scatter.Plot.LoadHd` | source/index.js:310-320 | existing circles are rebound to the new points and keep their attributes; one circle per further point is created with default fill (140,140,140), empty title, radius `dotR` and full opacity; on an empty plot the colouring equals `InitialLook` |
| `Scatter.Plot.Paint` | source/index.js:334-339 | afterwards circle `i` has fill `scale(series[i])` and its own datum as title, for every `i`; nothing else changes |
| `Scatter.Plot.Wipe` | hdp.js:283-289 | afterwards every circle has the default fill and an empty title, the colouring the circles were created with |
| `Scatter.Plot.MouseOver` | hdp.js:266-269 | circle `i` gets radius `2*dotR` and opacity 0.8; other circles and all fills and titles are unchanged |
| `Scatter.Plot.MouseOut` | hdp.js:270-273 | circle `i` gets back radius `dotR` and opacity 1.0; other circles and all fills and titles are unchanged |
| `Loader.Handle` | source/index.js:265-329 | a handler records its call, stores its own data, builds its own scale (severity with the fixed ordinal palette), and leaves every other variable as it was; `loaded_hd_gender` builds no scale |
| `Loader.Run` | source/index.js:42-123 | the fetches are always issued first; `initPaint` runs iff the configuration loop did not throw; when the run does not complete, no series is assigned and no handler or user callback runs; the user callback runs iff the run completes and `cb` is truthy; a completed run had `initPaint` succeed and every fetch succeed, and called the handlers of the fetched requests in order |
| `Loader.Join` | source/index.js:118-119 | `Promise.all` succeeds iff every fetch succeeded, and then yields every value in list order; otherwise it rejects |
| `Loader.ExecJsonHandlers` | source/index.js:131-137 | throws `NoHandlers` on a missing argument, leaves the state alone on an empty list, and otherwise applies the handlers in order (`Exec`) |
| `Loader.HandleAllCallsInOrder` | hdp.js:98-104 | every request's handler is called exactly once, in list order |
| `Loader.RunConfigErrorStopsAll` | source/index.js:80-122 | the constructor throws a configuration error iff some entry is invalid, and then `initPaint`, the handlers and the user callback never run |
| `Loader.RunFetchFailureStopsAll` | hdp.js:84-89 | one rejected fetch means no handler and no user callback runs and no series is assigned |
| `Loader.RunCompletes` | source/index.js:117-122 | with a valid configuration and six successful fetches, the handlers run once each in fetch order, and only then the user callback, iff `cb` is truthy |
| `Loader.RunCallsEachHandlerOnce` | hdp.js:36-89 | with fetches answering the `jsonInputs` table, the trace calls the six `loaded_*` handlers once each, in table order, and after them holds only the user callback, iff `cb` is truthy |
| `Loader.FullLoadIsReady` | source/index.js:265-298 | each of the six handlers assigns its series from its own data and builds its scale from that series (severity with the fixed palette), and every attribute can then paint every circle |
| `Recolor.LastWriteWins` | hdp.js:142-185 | after any sequence of paints and wipes, the colouring is the one the last of them produces |
| `Recolor.PaintIdempotentResetRestores` | source/index.js:334-350 | painting twice by an attribute equals painting once; a wipe after any sequence restores the creation colouring |
| `Recolor.ColorByPaintsEveryCircle` | source/index.js:196-205 | colouring by an attribute fills every circle with the attribute's scale at its value and titles it with its datum; "gender" uses the label scale |
| `Recolor.Control` | source/index.js:216-222 | a truthy value paints the attribute's series with its scale, a falsy one wipes |
| `IndexPanel.Dispatch` | source/index.js:194-210 | throws iff no attribute key is present; otherwise acts on a present key, passes its value, and no key earlier in the order group, age, gender, disease severity, cognitive decline is present |
| `IndexPanel.PanelCallback` | source/index.js:194-222 | an invalid event throws and changes no circle; a valid one paints or wipes as its first key's value says |
| `IndexPanel.FirstKeyOnly` | source/index.js:196-201 | with several keys only the first in order is acted on; an unknown key throws |
| `HdpGui.DCmap.constructor` | hdp.js:106-114 | all five toggles start false |
| `HdpGui.DCmap.Set` | hdp.js:109-113 | writing a toggle changes that toggle only |
| `HdpGui.OnChange` | hdp.js:142-185 | a checkbox change stores its toggle, leaves the other toggles and the `example` and `step` fields alone, and paints its own series with its own scale when true, wipes when false |
| `HdpGui.LastHandlerFiredWins` | hdp.js:142-185 | whatever the toggles, the colouring is that of the last handler fired |
| `HdpGui.TogglesNotExclusive` | hdp.js:142-158 | firing the "group" then the "age" handler on a `DCmap` leaves both toggles ticked and the points coloured by age |

## Left out

- The linear colour scales, Lab interpolation, colorbrewer palettes and `rangesplit` (`source/index.js:169-173`, `hdp.js:117-121`): floating-point numerics inside d3. `Loader.Builders` stands for the scale each linear handler builds from its series.
- `d3.rgb(...)` around the scale's colour in `paint` is treated as the identity on colours; named colours are not converted to RGB.
- Screen positions (`xscale`/`yscale`), stroke colour and width: float pixel mapping and constant styling.
- SVG, DOM and GUI plumbing: `initPaint`, `getTargetNode`, `initGUI`, `guiControls`, `guiOptParams`. `Run` takes whether `initPaint` throws as a parameter. As written, `initGUI` in `source/index.js:224-235` always throws (line 226 assigns the undeclared `panel` in strict mode, and line 227 would read the undeclared `data`), so that copy never reaches `Promise.all`; `panelCallback` is modelled directly instead.
- `d3.json` and promise scheduling: the fetch outcomes are a parameter, one per resource in `jsonInputs` order; which rejection `Promise.all` reports and when is not modelled.
- Exceptions inside the handlers and a truthy `cb` that is not a function.
- The environment guards and global registration of `hdp.js` (lines 5-7 and 291-297), the unused `colors`, `line` and `group` variables, and the `example` text field that dat.GUI adds at `hdp.js:141` (edits to `example` are not modelled).
- `Value` has no arrays and no NaN; the configuration object is a sequence of its own keys in enumeration order.
- The initial `fill-opacity` is unset in the source; the model gives it 1.0, the CSS initial value that `mouseout` restores.
- Scatter.Plot.Paint: requires the series to cover every circle and the scale to be defined on those values, because values past the end of the series and ordinal inputs outside the domain are d3-internal.
- Recolor.Control: when `on` holds, requires the painted attribute's series and scale to be loaded and to cover every circle (`ReadyFor`), because callbacks fired before the data arrive find no circles and do nothing; a wipe requires nothing.
- IndexPanel.PanelCallback: requires `ReadyFor` of the dispatched attribute when its value is truthy, for the same reason.
- HdpGui.OnChange: requires `ReadyFor` of its attribute when the new value is true, for the same reason.
- Loader.Run: assumes `inputData` is an object. `source/index.js:44-49` reads its six properties before any fetch is issued, so a missing or `null` argument throws a `TypeError` before anything else happens; that path is not modelled.
- Loader.Run: models the first construction only. The configuration variables and loaded series are module-level in both copies (`source/index.js:8-31`, `hdp.js:9-29`), so a second `HDP` starts from whatever the first one left, not from the defaults.
