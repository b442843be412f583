# Mode changer node (rgthree-comfy), modelled in Dafny

The mode changer is a virtual node of the ComfyUI graph editor. It shows one
on/off toggle widget per graph node connected to its inputs, and a toggle drives
its node's integer `mode` (for instance "always" against "never" for the muter,
"always" against "bypass" for the bypasser). This project models the logic of
`BaseNodeModeChanger`:

- the **restriction policy** applied when a toggle is switched:
  `"default"` (independent toggles), `"max one"` (switching one on switches all
  others off) and `"always one"` (as "max one", and the last toggle on cannot be
  switched off);
- the **throttled resync** run on every redraw, at most once per 1000 ms, which
  sets every widget from its node's mode (so that changes made elsewhere, such as
  a group bypass, show up on the toggles);
- the **reshaping** of the widget list when the linked nodes change: widgets are
  appended or cut off the tail and each is labelled `"Enable " + title`;
- **setWidget**, which labels a widget and can force its node's mode, and the
  three `forceWidget…` entry points and the click handler.

Two modules:

- `ModeChangerSpec` (`mode_changer_spec.dfy`): the widget and node values, the
  restriction test, and one function per operation saying what it computes
  (`Synced`, `Stabilized`, `SetWidgetEffect`, `ModeChange`), with the lemmas
  that state the policies' guarantees.
- `ModeChanger` (`mode_changer.dfy`): the class `BaseNodeModeChanger`, whose
  fields (`widgets`, `nodes`, `restriction`, `lastCheck`, `modeOn`, `modeOff`)
  the methods update in place. Every method's postcondition ties the new state to
  the spec function applied to the old state; `DoModeChange` switches every
  widget off (the target included) by calling itself with `skip` set, as the
  closure does, and then switches the target on.

Modelling decisions:

- The restriction is kept as the property's string. "Switch the others off" is
  taken when the string contains `" one"` (`IncludesOne`), "keep the last one on"
  only when it equals `"always one"`; `RestrictionChoices` shows how the three
  offered values fall.
- Widget `i` is paired with linked node `i`. In the code each widget's
  `doModeChange` closure holds the node it was labelled for; the model assumes
  that this is the node at the same index. That fails when a widget keeps its
  label while the node at its index is a different node with the same title
  (the closure is replaced only on a relabel), in which case the code's widget
  still drives the old node. Switching requires `i < |widgets| <= |nodes|`,
  which `Paired()` (as many widgets as nodes) gives; the constructor and every
  stabilization establish it and the other methods keep it.
- A widget appended during stabilization starts as an unnamed, off toggle, but
  the `setWidget` call that follows always relabels it (a label is never empty)
  and so gives it its node's state (`mode == modeOn`), not `false`.
- `setWidget` with a forced value on a widget that already carries the right
  label changes the node's mode and leaves the widget's value as it was; the
  widget is brought back in step by the next resync pass (`SetWidgetEffect`,
  `Synced`).

## Model

| member | source | states |
|---|---|---|
| `ModeChanger.BaseNodeModeChanger.constructor` | web/comfyui/base_node_mode_changer.js:5-20 | a new changer has no widgets, restriction "default", last check time 0; both modes must be non-negative |
| `ModeChanger.BaseNodeModeChanger.OnDrawForeground` | web/comfyui/base_node_mode_changer.js:24-46 | within the interval nothing changes; otherwise the check time becomes `now` and the widgets become the resynced list, node modes untouched |
| `ModeChanger.BaseNodeModeChanger.HandleLinkedNodesStabilization` | web/comfyui/base_node_mode_changer.js:47-65 | the widget list becomes the stabilized list for the new linked nodes and the result is exactly "a widget was added, removed or relabelled" |
| `ModeChanger.BaseNodeModeChanger.SetWidget` | web/comfyui/base_node_mode_changer.js:66-103 | only widget i and node i change, as `SetWidgetEffect` says, and the result is its change flag |
| `ModeChanger.BaseNodeModeChanger.DoModeChange` | web/comfyui/base_node_mode_changer.js:74-89 | the widgets and nodes become `ModeChange` of the old ones, including the loop that switches every widget off |
| `ModeChanger.BaseNodeModeChanger.WidgetCallback` | web/comfyui/base_node_mode_changer.js:90-92 | a click switches without a forced value and with the policy applied |
| `ModeChanger.BaseNodeModeChanger.ForceWidgetOff` | web/comfyui/base_node_mode_changer.js:104-106 | switches with forced value false |
| `ModeChanger.BaseNodeModeChanger.ForceWidgetOn` | web/comfyui/base_node_mode_changer.js:107-109 | switches with forced value true |
| `ModeChanger.BaseNodeModeChanger.ForceWidgetToggle` | web/comfyui/base_node_mode_changer.js:110-112 | switches with the opposite of the widget's current value |
| `ModeChangerSpec.RestrictionChoices` | web/comfyui/base_node_mode_changer.js:115-118 | "max one" and "always one" contain " one" and "default" does not; only "always one" equals "always one" |
| `ModeChangerSpec.Synced` | web/comfyui/base_node_mode_changer.js:36-45 | the resynced list has the same length and names, every widget with a node shows whether it is at modeOn, widgets without a node are unchanged |
| `ModeChangerSpec.SyncFixpoint` | web/comfyui/base_node_mode_changer.js:36-45 | a pass leaves the list unchanged exactly when it was already in step, and a second pass changes nothing |
| `ModeChangerSpec.Stabilized` | web/comfyui/base_node_mode_changer.js:49-63 | as many widgets as linked nodes, each labelled "Enable " + title; a widget already so labelled keeps its place and value; a new or relabelled one takes its node's state |
| `ModeChangerSpec.StabilizeChangedIff` | web/comfyui/base_node_mode_changer.js:48-64 | the reported change is true if and only if the widget list differs afterwards |
| `ModeChangerSpec.StabilizeIdempotent` | web/comfyui/base_node_mode_changer.js:49-63 | stabilizing twice against the same nodes equals once, and the second pass reports no change |
| `ModeChangerSpec.SetWidgetEffect` | web/comfyui/base_node_mode_changer.js:66-103 | the widget ends labelled for its node; its value is reset (forced value, else node at modeOn) only when the name differed; a forced value sets the node's mode; the result is true exactly when widget or node changed |
| `ModeChangerSpec.ModeChange` | web/comfyui/base_node_mode_changer.js:74-89 | switching keeps both list lengths, every widget name and node title, and every node that has no widget |
| `ModeChangerSpec.ExclusiveSwitchOn` | web/comfyui/base_node_mode_changer.js:76-88 | switching on under a restriction containing " one" leaves exactly the target on, its node at modeOn and every other widget's node at modeOff |
| `ModeChangerSpec.LastToggleStaysOn` | web/comfyui/base_node_mode_changer.js:83-88 | under "always one" a switch-off leaves the target on (node at modeOn) exactly when no other widget is on, else off (node at modeOff); nothing else changes |
| `ModeChangerSpec.OnlyTargetChanges` | web/comfyui/base_node_mode_changer.js:76-88 | with the policy skipped, or a restriction that triggers neither rule, only the target widget and node change, to the requested value and matching mode |
| `ModeChangerSpec.DefaultIsIndependent` | web/comfyui/base_node_mode_changer.js:77-88 | under "default" the target takes the requested value and no other widget or node changes |
| `ModeChangerSpec.AlwaysOneKeepsExactlyOne` | web/comfyui/base_node_mode_changer.js:78-88 | under "always one" a non-skipped switch keeps "exactly one widget on" |
| `ModeChangerSpec.AtMostOneStaysAtMostOne` | web/comfyui/base_node_mode_changer.js:78-88 | under "max one" or "always one" a non-skipped switch keeps "at most one widget on" |
| `ModeChangerSpec.ModeChangeKeepsSync` | web/comfyui/base_node_mode_changer.js:87-88 | when modeOn and modeOff differ, switching keeps every widget in step with its node |
| `ModeChangerSpec.ClickFlips` | web/comfyui/base_node_mode_changer.js:76-88 | a click on an in-step widget whose node is at modeOn or modeOff flips it, unless it is the last one on under "always one" |
| `ModeChangerSpec.CountOnOne` | web/comfyui/base_node_mode_changer.js:84 | a widget is the only one on exactly when it is on and every other widget is off (the `every` test) |

## Left out

- The delayed check in `onConstructed` that throws when a mode was not overridden, and `addOutput`: promise timing and host calls. The constructor instead requires both modes to be non-negative.
- `Date.now()` is the parameter `now`; the drawing context and all drawing are not modelled.
- `getConnectedInputNodesAndFilterPassThroughs` (graph traversal through pass-through nodes, in `utils.js`) is not part of this model: the linked nodes are the field `nodes`, replaced by the list given to stabilization.
- `changeModeOfNodes` (in `utils.js`) is not part of this model; it is taken to assign the node's mode, without any recursion into subgraphs.
- Missing values are not modelled: the widget list and the linked-node list always exist and hold no empty entries, so the early return at line 34, the `continue` at line 39 and the `if (node)` test at line 56 have no counterpart.
- ModeChanger.BaseNodeModeChanger.DoModeChange: each widget acts on the node at its own index rather than on the node object its closure captured; two widgets sharing one node object (aliasing) and a widget whose captured node moved to another index are not captured.
- Widget options (`{on: "yes", off: "no"}`), `_tempWidth`, the `callback` and `doModeChange` wiring as objects, `collapsible`, `isVirtualNode`, `inputsPassThroughFollowing` and the superclass: editor plumbing.
- A missing `properties` object or `toggleRestriction` value (the optional chaining at lines 78 and 83): the restriction is always a string.
- `_modeCheckInterval` is an instance field in the code; it is never changed there, so it is the constant `ModeCheckInterval` (1000).
- The code never checks that `modeOn` and `modeOff` differ; only `ModeChangeKeepsSync` and `ClickFlips` assume it.
