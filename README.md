# Air-traffic hive plot: controller state and event rules

This project models in Dafny the controller logic of the air-traffic hive-plot page (`main.js`). The page draws nodes on three radial axes and links as curved paths. The model covers:

- the transform button, which steps the radial-scale exponent `exp` through 1 → 0.5 → 0.3 → 1, hides the labels at the deepest level, and sends every node, link and label to its new target;
- the hive-link accessors, which place a present endpoint at `angle(d.x)` and `r(d.y)` and an absent endpoint at the centre;
- the `data-s` / `data-t` attributes of the link paths;
- the node `mousedown` / `mouseup` / `mouseout` handlers, which hide every `path` and then reveal the links incident to the pressed node;
- the invert and legend toggles.

Modules, one per component:

- `Wrappers` (`wrappers.dfy`): `Option` and `Result`.
- `Zoom` (`zoom.dfy`): the exponent step as a function, and its cycle, invariant and period-three lemmas.
- `Hive` (`hive.dfy`): node and link data, the accessors, the link-path attributes and, under "Findings", the attribute passes as written in the source.
- `Highlight` (`highlight.dfy`): the page's `path` elements in document order, the three CSS selectors, and the restyling passes as functions.
- `Plot` (`plot.dfy`): the class `HivePlot`. It holds the state that the page changes in place:
  - `exp`;
  - arrays of node rotations and `cx` values;
  - link shapes;
  - path and label opacities;
  - the three class flags.

  Each event handler is a method with loops over those arrays, proved against the functions of the other modules. `Valid()` keeps the invariant `exp ∈ {1, 0.5, 0.3}` and keeps every node and link drawn with the current scale.

The two D3 scales are parameters of the plot and are not interpreted:
- `angle: int -> real` is the ordinal axis scale;
- `radial: real -> real -> real` gives the power scale for each exponent.

The initial draw uses `radial(1.0)`, because the `radius` scale is built once at load time, while `exp` is 1, and is never rebuilt. Each transition uses `radial(exp)` for the new exponent.

On four points the page behaves differently from what one might expect. The first three are modelled as `main.js` writes them:
- An exponent outside the cycle is kept unchanged; no error is raised.
- Labels go to opacity 100, not 1.
- A press hides every `path`, including the legend arrow and the aircraft, not only the link paths.
- A link with a missing endpoint makes the initial draw throw (main.js:140-141). This behaviour is modelled only in `Hive.LinkAttributesAsWritten` and the lemmas about it. The plot itself (`Plot.HivePlot.Draw`, `Highlight.DocumentPaths`) models the corrected page, whose path simply lacks the missing attribute (see "Findings").

## Model

| member | source | states |
|---|---|---|
| `Zoom.Step` | main.js:52-62 | after a click, labels are hidden exactly when the new exponent is 0.3; an exponent in {1, 0.5, 0.3} moves to a different one of the three; any other exponent is kept, with labels shown |
| `Zoom.LabelOpacity` | main.js:94 | the label target is 0 exactly when labels are hidden, and 100 otherwise |
| `Zoom.StepCycle` | main.js:54-62 | the button goes 1 → 0.5 → 0.3 → 1, hiding labels only on the step to 0.3 |
| `Zoom.ThreeStepsRestore` | main.js:54-62 | three clicks return every exponent to itself |
| `Zoom.PeriodThree` | main.js:54-62 | the exponent after n + 3 clicks equals the exponent after n clicks, from any start |
| `Zoom.HidePeriodThree` | main.js:52-62 | the label flag and label opacity target of click n + 3 equal those of click n |
| `Zoom.LevelAfter` | main.js:54-62 | starting from the initial exponent 1 (main.js:7), after n clicks the exponent is level n mod 3 of [1, 0.5, 0.3], so it never leaves the cycle |
| `Zoom.HiddenEveryThirdClick` | main.js:52-62 | from the initial exponent, click n hides the labels exactly when n mod 3 = 2 |
| `Hive.EndAngle` | main.js:86 | the `.angle` accessor gives `angle(d.x)` for a present endpoint and 0 for an absent one; the initial draw (main.js:138) uses the same accessor |
| `Hive.EndRadius` | main.js:87 | the `.radius` accessor gives the current scale applied to `d.y` for a present endpoint and 0 for an absent one; the initial draw (main.js:139) uses the same accessor |
| `Hive.End` | main.js:86-87 | a present endpoint is placed where its node is drawn (angle of its axis, scaled magnitude); an absent one is placed at angle 0, radius 0 |
| `Hive.Shape` | main.js:136-139 | both endpoints of a link follow the rule of `End` under the same scales; the initial draw and the transition (main.js:84-87) share this rule |
| `Hive.RescaleKeepsAngles` | main.js:84-87 | changing the radial scale leaves both endpoint angles of every link unchanged |
| `Hive.DataS` | main.js:140 | a link path's `data-s` is present exactly when the source is, and is then the source id |
| `Hive.DataT` | main.js:141 | a link path's `data-t` is present exactly when the target is, and is then the target id |
| `Hive.SourceIdAsWritten` | main.js:140 | `d.source.id` as written: the source id when the source is present, otherwise a `TypeError` |
| `Hive.TargetIdAsWritten` | main.js:141 | `d.target.id` as written: the target id when the target is present, otherwise a `TypeError` |
| `Hive.SourceIdsAsWritten` | main.js:140 | the `data-s` pass over all link paths: on success, one id per link, in order, each the source id of its link; otherwise a `TypeError` |
| `Hive.TargetIdsAsWritten` | main.js:141 | the `data-t` pass over all link paths: on success, one id per link, in order, each the target id of its link; otherwise a `TypeError` |
| `Hive.LinkAttributesAsWritten` | main.js:140-141 | the `data-s` pass followed by the `data-t` pass: on success, both id lists, agreeing link by link with `DataS` / `DataT`; otherwise the `TypeError` that ends `init` |
| `Hive.SourceIdsFailIff` | main.js:140 | the as-written `data-s` pass throws exactly when some link has no source |
| `Hive.TargetIdsFailIff` | main.js:141 | the as-written `data-t` pass throws exactly when some link has no target |
| `Hive.DrawAbortsIffDangling` | main.js:136-141 | the as-written attribute passes throw exactly when some link has a missing endpoint |
| `Hive.DanglingSourceExample` | main.js:136-141 | a link with no source gets a shape anchored at the centre, and the as-written draw then throws on it |
| `Hive.GuardedAttributesAgree` | main.js:140-141 | when no link is dangling, the guarded attributes are exactly the ids the as-written passes produce, link by link |
| `Hive.SourceIdsAgree` | main.js:140 | when every link has a source, the as-written `data-s` pass succeeds with one id per link, matching `DataS` |
| `Hive.TargetIdsAgree` | main.js:141 | when every link has a target, the as-written `data-t` pass succeeds with one id per link, matching `DataT` |
| `Highlight.DocumentPaths` | main.js:108-166 | the document's paths are the legend arrow, then one link path per link carrying its `data-s` / `data-t`, then the aircraft |
| `Highlight.Restyle` | main.js:154-156 | `selectAll(sel).style('opacity', v)` sets exactly the matching paths to v and keeps every other path's opacity |
| `Highlight.Press` | main.js:153-157 | whatever the prior opacities, after `mousedown` on node i a path has opacity 1 exactly when it is a link path whose `data-s` or `data-t` is i; every other path has 0 |
| `Highlight.Release` | main.js:158-159 | `mouseup` / `mouseout` set every path to 1 |
| `Highlight.PressIdempotent` | main.js:153-157 | pressing the same node again yields the same opacities |
| `Highlight.ReleaseAfterPress` | main.js:153-159 | press followed by release gives the same as release alone: all paths visible |
| `Highlight.PressedDocument` | main.js:153-156 | on the page's paths, after pressing node i the path of link k is visible exactly when an endpoint of link k has id i, and the legend arrow and the aircraft are hidden |
| `Plot.HivePlot.Draw` | main.js:131-152 | the initial draw sets exponent 1, rotations `angle(d.x)`, `cx` and link shapes under `radial(1)`, all path and label opacities 1, and the svg `legend` class off |
| `Plot.HivePlot.Transform` | main.js:47-95 | the exponent steps by `Step`; every node's `cx` becomes `radial(exp)(d.y)`; every link shape uses `radial(exp)`; every label goes to `LabelOpacity` of the step's flag, 0 exactly when the new exponent is 0.3; rotations, path opacities and flags are unchanged; the invariant is kept |
| `Plot.HivePlot.StylePaths` | main.js:154 | the path-opacity array becomes `Restyle` of its old contents |
| `Plot.HivePlot.MouseDown` | main.js:153-157 | the path-opacity array becomes `Press` of its old contents: 1 exactly on the incident link paths, 0 elsewhere; nothing else changes |
| `Plot.HivePlot.MouseUp` | main.js:158 | every path opacity becomes 1; nothing else changes |
| `Plot.HivePlot.MouseOut` | main.js:159 | every path opacity becomes 1; nothing else changes |
| `Plot.HivePlot.InvertClick` | main.js:33-38 | flips the body `inverted` flag and nothing else |
| `Plot.HivePlot.LegendClick` | main.js:39-46 | flips the body and svg `legend` flags and nothing else; they are equal afterwards exactly when they were equal before |
| `Plot.HivePlot.LinkEndsOnNodes` | main.js:138-150 | at every zoom level, a drawn link starts at the rotation and `cx` of its source node and ends at those of its target node |
| `Plot.TransformThrice` | main.js:47-95 | three clicks restore the exponent, every `cx` and every link shape exactly, and leave the labels at the target of the current level |
| `Plot.InvertTwice` | main.js:33-38 | inverting twice restores the flag |
| `Plot.LegendTwice` | main.js:39-46 | toggling the legend twice restores both flags |
| `Plot.PressTwice` | main.js:153-157 | two presses of the same node leave the path opacities exactly as one press does: `Press` of the opacities before the first |

## Findings

| source | as written | input that shows it | evidently intended | confidence | as-written member | corrected member |
|---|---|---|---|---|---|---|
| main.js:140-141 | `data-s` / `data-t` read `d.source.id` / `d.target.id` with no guard. The `.angle` / `.radius` accessors just above guard against a missing endpoint. | a link whose `source` (or `target`) is `undefined`: its shape is drawn at the centre, then the `data-s` (or `data-t`) pass throws a TypeError. `init` stops there, and the nodes, aircraft and labels are never drawn. | a dangling link is tolerated: it is drawn at the centre and its path lacks the missing attribute | medium; not executed | `Hive.LinkAttributesAsWritten`, `Hive.DrawAbortsIffDangling`, `Hive.DanglingSourceExample` | `Hive.DataS`, `Hive.DataT`, `Hive.GuardedAttributesAgree`, `Highlight.PressedDocument` |

The plot (`Plot.HivePlot.Draw`, `Highlight.DocumentPaths`) uses the corrected attributes `DataS` / `DataT`.

## Left out

- Plot.HivePlot.Draw: models the corrected page. For a dataset with a link that lacks an endpoint, `main.js` throws at line 140 or 141; `init` then stops, and the nodes (main.js:143-161), the aircraft (main.js:164-170) and the labels (main.js:173-184) are never drawn. `Draw` instead builds the full plot, with the missing `data-s` / `data-t` attribute left off. That aborted page is modelled only by `Hive.LinkAttributesAsWritten` and `Hive.DrawAbortsIffDangling`.
- D3's power scale and `.nice()` (main.js:12-16, main.js:64-68): library code over floating point. The scale is the uninterpreted parameter `radial`, indexed by exponent. Its domain, range bounds and monotonicity are not modelled.
- The ordinal `rangePoints` angles (main.js:8-11) and `degrees()` (main.js:18-20): floating-point trigonometry. `angle` is uninterpreted. A node's rotation is recorded as `angle(d.x)`, without the conversion to degrees that applies the −90° offset; `d3.hive.link` applies the same offset internally.
- The path geometry of `d3.hive.link()`: plugin code not shown. The model records only the angle and radius the accessors feed it for each endpoint (`LinkShape`).
- Animation timing:
  - the random per-element durations (main.js:51), the easing and the interpolation are nondeterministic presentation details, so a transition sets its target values at once;
  - the fixed start delay of 10 (main.js:49) is one constant shared by every element of all three selections, and it does not affect the values elements end at, so it is not represented;
  - overlapping transitions are therefore last-write-wins.
- DOM and SVG construction (main.js:98-184): the svg, the legend group, the axes, the aircraft and the axis labels. They appear only as the legend-arrow and aircraft paths and as `labelCount` text elements.
- The info-panel handlers (main.js:24-32) and `window.onload` (main.js:187): menu wiring with no state that the model uses.
- Node size `Math.sqrt(d.count * 4)` (main.js:151), `data-name`, `data-id` and the title text: floating point and display-only attributes. `mousedown`'s `i` is taken as given: it is the node's index, which the attribute selectors compare with link ids.
- CSS rendering: an opacity style is kept as the value written (0, 1 or 100). An unset style is recorded as 1, its initial value. Clamping 100 to 1 on screen is not modelled.
- `d3.select('svg')` in the legend toggle is taken to be the plot's svg. The page's HTML is not part of this model, so the body's initial classes are constructor parameters.
