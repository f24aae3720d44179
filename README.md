# ngx-diagrams interaction core in Dafny

This project models the interaction engine of the ngx-diagrams diagram editor and proves what it does.

The centre is `NgxDiagramComponent`, the pointer state machine. It holds at most one action at a time: selecting, moving items, or moving the canvas.

- **Pointer-down** picks an action by what lies under the pointer: a port first, then a point, then a link, then a node, then the bare canvas.
- **Pointer-move** updates the selection, positions or canvas offset.
- **Pointer-up** commits the gesture in three passes:
  - it attaches, splits or trims links at the port under the pointer;
  - it prunes loose links;
  - it prunes refused and duplicate links.
- **The wheel** changes the zoom level.

Around it the project models:

- the entity base (identity, lock flag, defaults, memoised cloning, destroy signal);
- the tool-kit helpers;
- the default link's geometry and style cells;
- the engine's three factory registries.

## Module structure

| file | module | what it holds |
|---|---|---|
| `wrappers.dfy` | `Wrappers` | `Option`, `Result` and `Outcome` |
| `geometry.dfy` | `Geometry` | coordinates |
| `toolkit.dfy` | `ToolKit` | the helpers of `utils/tool-kit.util.ts` |
| `base_entity.dfy` | `Entity` | `BaseEntity` |
| `default_link_model.dfy` | `DefaultModels` | `DefaultLinkModel` |
| `default_link.dfy` | `DefaultComponents` | `DefaultLinkComponent` |
| `engine.dfy` | `Engine` | `DiagramEngine` registries |
| `graph.dfy` | `GraphModel` | the graph records, and the node, port, link and point operations the component calls, each as a function |
| `gestures.dfy` | `Gestures` | actions, specification functions for each gesture, and the lemmas about them |
| `mouse_element.dfy` | `MouseElement` | `getMouseElement` over a chain of ancestor elements |
| `diagram_model.dfy` | `Diagram` | the imperative `DiagramModel` the component mutates |
| `diagram_component.dfy` | `Component` | `NgxDiagramComponent` and its handlers |

The component's handlers are methods on a class. Each states its new state through a specification function of `Gestures`: for example, `OnMouseUp` ensures the new graph equals `Commit(old graph, …)`. The properties the source promises are then lemmas about those functions.

## Modelling choices

- Coordinates, zoom levels, widths and curvyness are `real`.
- The collaborators `DiagramModel`, `LinkModel`, `PortModel`, `PointModel` and the action classes are not part of this model; they are modelled by the minimal behaviour the component relies on:
  - `DiagramModel`, `LinkModel`, `PortModel` and `PointModel` become records in the graph's maps.
  - `setSourcePort` and `setTargetPort` register the link with the new port. They never unregister it from the old one; the handler does that itself where it has to.
  - `remove()` takes the link out of the diagram and out of both of its ports.
  - `clone` copies the link record under a fresh id.
- `removePointsBefore(point)` and `removePointsAfter(point)` keep every point when the point is not on the link.
  - `canLinkToPort` is a per-port refusal set.
  - `isModelLocked(port)` holds when the port or its node is locked.
  - `getPortCoords` is the node position plus a fixed port offset.
  - `containsElement` is a strict box test on `coordinate * zoom + offset`.
  - `getGridPosition` rounds to the nearest grid multiple.
- `UID()` is replaced by a counter in the graph, which never repeats. `BaseEntity` takes the fresh id as a parameter.
- A lookup that misses makes the handler return `Fail(error)` and change nothing. This covers `getNode`, `getPort`, `getLink`, `getPointModel`, and a `closest` that finds no element.
- `new MoveItemsAction(..)` gathers every selected unlocked node and every selected point, at its current position. The order of the items is left open.
- Each of the two document listeners is a count: the press registers two, and the release unregisters them.

## Model

| member | source | states |
|---|---|---|
| ToolKit.IsNil | projects/ngx-diagrams/src/lib/utils/tool-kit.util.ts:88-90 | true exactly for `null` and `undefined` |
| ToolKit.CoerceArray | projects/ngx-diagrams/src/lib/utils/tool-kit.util.ts:92-97 | nil gives `[]`, an array is returned unchanged, a scalar is wrapped as `[v]` |
| ToolKit.CoerceArrayIdempotent | projects/ngx-diagrams/src/lib/utils/tool-kit.util.ts:92-97 | coercing an already coerced array changes nothing |
| ToolKit.MapToArray | projects/ngx-diagrams/src/lib/utils/tool-kit.util.ts:99-108 | the loop yields exactly the non-nil values in key order, never more than there are keys |
| ToolKit.NonNilValuesLength | projects/ngx-diagrams/src/lib/utils/tool-kit.util.ts:99-108 | the result is at most as long as the key list |
| ToolKit.NonNilValuesMembers | projects/ngx-diagrams/src/lib/utils/tool-kit.util.ts:99-108 | a value is in the result iff some property holds it as a non-nil value |
| ToolKit.ArrayToMap | projects/ngx-diagrams/src/lib/utils/tool-kit.util.ts:110-119 | the loop builds the id map of the non-nil elements, later ones overwriting earlier ones |
| ToolKit.IdMapKeys | projects/ngx-diagrams/src/lib/utils/tool-kit.util.ts:110-119 | a key is present iff it is the id of some non-nil element (nil elements are skipped) |
| ToolKit.IdMapLastWins | projects/ngx-diagrams/src/lib/utils/tool-kit.util.ts:110-119 | for repeated ids the last non-nil element with that id is stored |
| ToolKit.GenerateCurvePath | projects/ngx-diagrams/src/lib/utils/tool-kit.util.ts:125-131 | curvy on x and 0 on y when \|dx\| > \|dy\|, else the reverse; first control point `first + (cx, cy)`, second `last - (cx, cy)` |
| ToolKit.StraightWithoutCurvyness | projects/ngx-diagrams/src/lib/utils/tool-kit.util.ts:125-131 | with the default curvy 0 both control points are the endpoints |
| ToolKit.GenerateDynamicPath | projects/ngx-diagrams/src/lib/utils/tool-kit.util.ts:134-141 | one moveto for the first coordinate, then one lineto per remaining coordinate in order, all scaled; empty input fails |
| Entity.InitialId | packages/core/src/lib/base.entity.ts:27 | `options.id` when given and non-empty, else the fresh id |
| Entity.InitialLocked | packages/core/src/lib/base.entity.ts:31 | locked iff `options.locked` is true |
| Entity.InitialName | packages/core/src/lib/base.entity.ts:32 | `options.name`, or `'default'` when absent |
| Entity.InitialDisplayName | packages/core/src/lib/base.entity.ts:33 | `options.displayName`, or `''` when absent |
| Entity.BaseEntity.constructor | packages/core/src/lib/base.entity.ts:26-34 | id, type, log prefix, lock, name and display name defaults; a fresh destroy subject |
| Entity.BaseEntity.Spread | packages/core/src/lib/base.entity.ts:90 | the spread copy shares every field's value |
| Entity.BaseEntity.SetId | packages/core/src/lib/base.entity.ts:44-46 | the id setter replaces the id |
| Entity.BaseEntity.SetLocked | packages/core/src/lib/base.entity.ts:72-78 | `getLocked` returns the value set (true by default); name and display name unchanged |
| Entity.BaseEntity.SetName | packages/core/src/lib/base.entity.ts:48-54 | the name getter returns the value set; the lock flag and the display name are unchanged |
| Entity.BaseEntity.Clone | packages/core/src/lib/base.entity.ts:85-97 | a stored clone is returned with the table unchanged; otherwise a fresh spread copy with the new id is stored under the original id |
| Entity.BaseEntity.Destroy | packages/core/src/lib/base.entity.ts:110-114 | one notification (none if already completed), then completion |
| Entity.CloneIsMemoised | packages/core/src/lib/base.entity.ts:85-97 | two clones through one table are the same object, with one new table entry |
| Entity.DestroyNotifiesOnce | packages/core/src/lib/base.entity.ts:110-114 | destroying twice notifies at most once |
| DefaultModels.DefaultLinkModel.constructor | projects/ngx-diagrams/src/lib/defaults/models/default-link.model.ts:5-15 | width 3, colour `rgba(255,255,255,0.5)`, curvyness 50, type `default` |
| DefaultModels.DefaultLinkModel.SetWidth | projects/ngx-diagrams/src/lib/defaults/models/default-link.model.ts:17-19 | `width` returns the value set; colour and curvyness unchanged |
| DefaultModels.DefaultLinkModel.SetColor | projects/ngx-diagrams/src/lib/defaults/models/default-link.model.ts:21-23 | `color` returns the value set; width and curvyness unchanged |
| DefaultModels.DefaultLinkModel.SetCurvyness | projects/ngx-diagrams/src/lib/defaults/models/default-link.model.ts:33-35 | `curvyness` returns the value set; width and colour unchanged |
| DefaultModels.StyleSettersAreIndependent | projects/ngx-diagrams/src/lib/defaults/models/default-link.model.ts:17-47 | after the three setters each getter returns its own value |
| DefaultComponents.DominantDistance | projects/ngx-diagrams/src/lib/defaults/components/default-link/default-link.component.ts:58-61 | the distance on x exactly when \|dx\| > \|dy\|, otherwise on y; the larger of the two |
| DefaultComponents.RegularPath | projects/ngx-diagrams/src/lib/defaults/components/default-link/default-link.component.ts:58-66 | straight (curvyness 0) below 50 on the dominant axis, otherwise curved by the link's curvyness on that axis |
| DefaultComponents.FarEndpointsCurve | projects/ngx-diagrams/src/lib/defaults/components/default-link/default-link.component.ts:58-63 | endpoints 50 or more apart on either axis are never straight |
| DefaultComponents.CalcCenterOfPath | projects/ngx-diagrams/src/lib/defaults/components/default-link/default-link.component.ts:110-112 | the point 20 right of and below the midpoint of the endpoints |
| DefaultComponents.DefaultLinkComponent.OnEndpoints | projects/ngx-diagrams/src/lib/defaults/components/default-link/default-link.component.ts:54-73 | publishes the regular path; moves the label to the centre exactly when there is a label |
| Engine.Register | projects/ngx-diagrams/src/lib/services/engine.service.ts:42-44 | the factory is filed under its type, the other entries stay, and the registry stays keyed by type |
| Engine.Lookup | projects/ngx-diagrams/src/lib/services/engine.service.ts:50-55 | success iff the type is registered, with the registered factory; otherwise the cannot-find error for that kind and type |
| Engine.LookupAfterRegister | projects/ngx-diagrams/src/lib/services/engine.service.ts:42-53 | a lookup of a just-registered type returns that factory |
| Engine.LookupOtherAfterRegister | projects/ngx-diagrams/src/lib/services/engine.service.ts:42-44 | registering one type leaves the lookups of other types as they were |
| Engine.RegisterOverwrites | projects/ngx-diagrams/src/lib/services/engine.service.ts:43 | a second factory with the same type replaces the first |
| Engine.DiagramEngine.constructor | projects/ngx-diagrams/src/lib/services/engine.service.ts:21-25 | all three registries start empty |
| Engine.DiagramEngine.RegisterNodeFactory | projects/ngx-diagrams/src/lib/services/engine.service.ts:42-44 | the node registry gains the factory under its type; the other registries are not in its frame |
| Engine.DiagramEngine.RegisterPortFactory | projects/ngx-diagrams/src/lib/services/engine.service.ts:70-72 | the same for the port registry |
| Engine.DiagramEngine.RegisterLinkFactory | projects/ngx-diagrams/src/lib/services/engine.service.ts:102-104 | the same for the link registry |
| Engine.DiagramEngine.RegisterDefaultFactories | projects/ngx-diagrams/src/lib/services/engine.service.ts:32-38 | registers the node and port defaults and leaves the link registry alone |
| Engine.DiagramEngine.GetNodeFactory | projects/ngx-diagrams/src/lib/services/engine.service.ts:50-55 | the registered factory iff the type is registered, else the node error |
| Engine.DiagramEngine.GetPortFactory | projects/ngx-diagrams/src/lib/services/engine.service.ts:78-83 | the registered factory iff the type is registered, else the port error |
| Engine.DiagramEngine.GetLinkFactory | projects/ngx-diagrams/src/lib/services/engine.service.ts:106-111 | the registered factory iff the type is registered, else the link error |
| Engine.DiagramEngine.GetFactoryForNode | projects/ngx-diagrams/src/lib/services/engine.service.ts:57-59 | succeeds iff the node's type is registered, with a factory of that type |
| Engine.DiagramEngine.GetFactoryForPort | projects/ngx-diagrams/src/lib/services/engine.service.ts:85-87 | succeeds iff the port's type is registered, with a factory of that type |
| Engine.DiagramEngine.GetFactoryForLink | projects/ngx-diagrams/src/lib/services/engine.service.ts:113-115 | succeeds iff the link's type is registered, with a factory of that type |
| Engine.DefaultsWithoutLinkFactory | projects/ngx-diagrams/src/lib/services/engine.service.ts:32-38 | on a new engine with the defaults, node and port lookups find them, and any link lookup fails |
| Engine.RegisterIsolated | projects/ngx-diagrams/src/lib/services/engine.service.ts:42-44 | registering nodes twice under one type keeps the second; port and link lookups unchanged |
| GraphModel.RemovePortLink | projects/ngx-diagrams/src/lib/containers/diagram/diagram.component.ts:215 | the port's link set loses the link; no other port, link or refusal changes |
| GraphModel.SetTargetPort | projects/ngx-diagrams/src/lib/containers/diagram/diagram.component.ts:213-214 | the link's target becomes the port, which gains the link; other port link sets unchanged |
| GraphModel.RemoveLink | projects/ngx-diagrams/src/lib/containers/diagram/diagram.component.ts:243 | the link leaves the diagram; port link sets only shrink; refusals unchanged |
| GraphModel.PointIndex | projects/ngx-diagrams/src/lib/containers/diagram/diagram.component.ts:216 | the first index holding the point id, or -1 exactly when none does |
| GraphModel.RemovePointsBefore | projects/ngx-diagrams/src/lib/containers/diagram/diagram.component.ts:223 | keeps the point and those after it; unchanged when the point is absent |
| GraphModel.RemovePointsAfter | projects/ngx-diagrams/src/lib/containers/diagram/diagram.component.ts:221 | keeps the points up to and including the point; unchanged when absent |
| GraphModel.RemoveMiddlePoints | projects/ngx-diagrams/src/lib/containers/diagram/diagram.component.ts:390 | only the first and last points remain |
| GraphModel.ClearSelection | projects/ngx-diagrams/src/lib/containers/diagram/diagram.component.ts:378 | every node, link and point becomes unselected, nothing else changes |
| GraphModel.GridPosition | projects/ngx-diagrams/src/lib/containers/diagram/diagram.component.ts:332-333 | a multiple of the grid size within half a cell of the input; the identity for grid 0 |
| GraphModel.MoveNode | projects/ngx-diagrams/src/lib/containers/diagram/diagram.component.ts:332-340 | the node moves and every port's coordinates become node position plus port offset |
| Gestures.BoxSelectPoints | projects/ngx-diagrams/src/lib/containers/diagram/diagram.component.ts:304-311 | each point is selected exactly when the box contains it; ids and positions kept |
| Gestures.BoxSelect | projects/ngx-diagrams/src/lib/containers/diagram/diagram.component.ts:294-316 | the nodes, links and id counter of the graph are kept |
| Gestures.BoxSelectSelects | projects/ngx-diagrams/src/lib/containers/diagram/diagram.component.ts:294-316 | nodes and points are selected iff inside the box; a link is selected iff it was or all its points are inside (never deselected) |
| Gestures.MoveAllSameShape | projects/ngx-diagrams/src/lib/containers/diagram/diagram.component.ts:329-348 | a move changes positions only: same nodes, ports, links, ends and point ids |
| Gestures.MoveAllMovesNode | projects/ngx-diagrams/src/lib/containers/diagram/diagram.component.ts:331-341 | a moved node ends at `grid(initial + delta/zoom)` and its ports at node plus offset |
| Gestures.MoveAllMovesPoint | projects/ngx-diagrams/src/lib/containers/diagram/diagram.component.ts:331-347 | a free point ends at `grid(initial + delta/zoom)`, a port-attached one at `initial + grid(delta/zoom)` |
| Gestures.SplitRewire | projects/ngx-diagrams/src/lib/containers/diagram/diagram.component.ts:210-215 | one id is drawn and the original link now targets the port |
| Gestures.SplitRewireOldTarget | projects/ngx-diagrams/src/lib/containers/diagram/diagram.component.ts:210-215 | the old target swaps the original link for the clone |
| Gestures.SplitRewireNewPort | projects/ngx-diagrams/src/lib/containers/diagram/diagram.component.ts:210-215 | the dropped-on port gains both the original and the clone |
| Gestures.AttachLooseEnd | projects/ngx-diagrams/src/lib/containers/diagram/diagram.component.ts:225-227 | a link with no target gets the port as target and is registered with it |
| Gestures.SplitLinks | projects/ngx-diagrams/src/lib/containers/diagram/diagram.component.ts:209-218 | the original keeps the points up to the cut; the clone runs from the port to the old target with the points from the cut on |
| Gestures.SplitPorts | projects/ngx-diagrams/src/lib/containers/diagram/diagram.component.ts:209-218 | old target: original out, clone in; dropped-on port: both in |
| Gestures.SplitLink | projects/ngx-diagrams/src/lib/containers/diagram/diagram.component.ts:205-218 | splitting a moved middle point: fresh clone id, the two halves share the cut point and together hold the old points, port sets as in SplitPorts |
| Gestures.AttachAtTarget | projects/ngx-diagrams/src/lib/containers/diagram/diagram.component.ts:220-221 | dropping on the link's own target removes the points after the moved one, nothing else |
| Gestures.AttachAtSource | projects/ngx-diagrams/src/lib/containers/diagram/diagram.component.ts:222-223 | dropping on the link's own source removes the points before the moved one, nothing else |
| Gestures.AttachOneFrame | projects/ngx-diagrams/src/lib/containers/diagram/diagram.component.ts:200-229 | one attach step only rewrites its own link and may add one link with a fresh id |
| Gestures.AttachAllKeepsUnmoved | projects/ngx-diagrams/src/lib/containers/diagram/diagram.component.ts:200-230 | the attach pass keeps all links, never reuses ids, and leaves links owning no moved point as they were |
| Gestures.AttachAllNoHit | projects/ngx-diagrams/src/lib/containers/diagram/diagram.component.ts:205 | without an unlocked port under the pointer nothing is attached |
| Gestures.LooseAllPrunes | projects/ngx-diagrams/src/lib/containers/diagram/diagram.component.ts:233-246 | only moved links are removed, and afterwards every moved link left has both ends |
| Gestures.InvalidAllPrunes | projects/ngx-diagrams/src/lib/containers/diagram/diagram.component.ts:249-272 | only moved, fully attached links are removed; afterwards each such link left is allowed by its source and has no duplicate |
| Gestures.CommitWithoutLooseLinks | projects/ngx-diagrams/src/lib/containers/diagram/diagram.component.ts:198-272 | with loose links disallowed, every moved link left is attached at both ends, allowed and unique; unmoved links are untouched |
| Gestures.CommitWithLooseLinks | projects/ngx-diagrams/src/lib/containers/diagram/diagram.component.ts:198-272 | with loose links allowed, a loose moved link stays as the attach pass left it; unmoved links are untouched |
| MouseElement.Closest | projects/ngx-diagrams/src/lib/containers/diagram/diagram.component.ts:152 | the nearest element of the chain carrying the attribute, `None` iff no element does |
| MouseElement.GetMouseElement | projects/ngx-diagrams/src/lib/containers/diagram/diagram.component.ts:148-191 | port beats point beats link beats node; the canvas (`None`) exactly when no element carries any of the four attributes; each kind of result exactly when the nearest element names an existing model, and that model is the one it names (a port through the nearest node element, a point through its own link id); each failure is the missing element, missing link id or missing node, port, link or point the lookup names |
| MouseElement.PortBeatsNode | projects/ngx-diagrams/src/lib/containers/diagram/diagram.component.ts:152-160 | a port element inside a node element resolves to the port of that node |
| MouseElement.PointResolves | projects/ngx-diagrams/src/lib/containers/diagram/diagram.component.ts:163-169 | a point element carrying its link id resolves to that point |
| Diagram.DiagramModel.Uid | projects/ngx-diagrams/src/lib/containers/diagram/diagram.component.ts:211 | a fresh id not used by any link; the counter moves past it |
| Diagram.DiagramModel.ClearSelection | projects/ngx-diagrams/src/lib/containers/diagram/diagram.component.ts:378 | the graph becomes `ClearSelection` of the old one |
| Diagram.DiagramModel.AddLink | projects/ngx-diagrams/src/lib/containers/diagram/diagram.component.ts:401 | the link is added under its drawn id |
| Diagram.DiagramModel.AddPortLink | projects/ngx-diagrams/src/lib/containers/diagram/diagram.component.ts:387 | the port registers the link |
| Diagram.DiagramModel.RemovePortLink | projects/ngx-diagrams/src/lib/containers/diagram/diagram.component.ts:215 | the port unregisters the link |
| Diagram.DiagramModel.SetTargetPort | projects/ngx-diagrams/src/lib/containers/diagram/diagram.component.ts:226 | the graph becomes `SetTargetPort` of the old one |
| Diagram.DiagramModel.RemoveLink | projects/ngx-diagrams/src/lib/containers/diagram/diagram.component.ts:243 | the graph becomes `RemoveLink` of the old one |
| Diagram.DiagramModel.RemovePointsAfter | projects/ngx-diagrams/src/lib/containers/diagram/diagram.component.ts:221 | the link's points are trimmed after the point |
| Diagram.DiagramModel.RemovePointsBefore | projects/ngx-diagrams/src/lib/containers/diagram/diagram.component.ts:223 | the link's points are trimmed before the point |
| Diagram.DiagramModel.SetNodeSelected | projects/ngx-diagrams/src/lib/containers/diagram/diagram.component.ts:296-298 | only that node's flag changes |
| Diagram.DiagramModel.SetLinkSelected | projects/ngx-diagrams/src/lib/containers/diagram/diagram.component.ts:314 | only that link's flag becomes true |
| Diagram.DiagramModel.SetPointSelected | projects/ngx-diagrams/src/lib/containers/diagram/diagram.component.ts:305-309 | only that point's flag changes |
| Diagram.DiagramModel.MoveNodeTo | projects/ngx-diagrams/src/lib/containers/diagram/diagram.component.ts:332-340 | the node and its ports move; nothing else changes |
| Diagram.DiagramModel.MovePointTo | projects/ngx-diagrams/src/lib/containers/diagram/diagram.component.ts:345-346 | only that point's coordinates change |
| Diagram.DiagramModel.SetOffset | projects/ngx-diagrams/src/lib/containers/diagram/diagram.component.ts:353-356 | the offset becomes the given pair |
| Diagram.DiagramModel.SetZoomLevel | projects/ngx-diagrams/src/lib/containers/diagram/diagram.component.ts:441 | the zoom level becomes the given value |
| Component.SelectModel | projects/ngx-diagrams/src/lib/containers/diagram/diagram.component.ts:413 | a node, link or point in the graph is selected afterwards; entity sets unchanged |
| Component.PressReplacesSelection | projects/ngx-diagrams/src/lib/containers/diagram/diagram.component.ts:410-413 | pressing an unselected element without shift leaves it the only selected node, link or point |
| Component.PressKeepsSelection | projects/ngx-diagrams/src/lib/containers/diagram/diagram.component.ts:410-413 | with shift, or on a selected element, everything selected stays selected |
| Component.PressAsWrittenKeepsOtherSelection | projects/ngx-diagrams/src/lib/containers/diagram/diagram.component.ts:410 | as written, pressing node 1 keeps node 0 selected, where the corrected press clears it |
| Component.PressAsWrittenKeepsSelection | projects/ngx-diagrams/src/lib/containers/diagram/diagram.component.ts:410-413 | as written, a press only adds the pressed element to the selection: it is selected if it exists, and everything selected before stays selected |
| Component.DragNewLinkState | projects/ngx-diagrams/src/lib/containers/diagram/diagram.component.ts:383-401 | one new link under a fresh id from the port with no target, two points at the pointer, registered with the port, only its last point selected |
| Component.DragGathersNewEnd | projects/ngx-diagrams/src/lib/containers/diagram/diagram.component.ts:399-403 | the move that follows gathers exactly the new link's last point |
| Component.NewMoveItemsAction | projects/ngx-diagrams/src/lib/containers/diagram/diagram.component.ts:403 | the action holds the pointer position and exactly the selected unlocked nodes and selected points |
| Component.ScrollDelta | projects/ngx-diagrams/src/lib/containers/diagram/diagram.component.ts:429-439 | the (inverted) delta divided by 3 for a fractional ctrl pinch, by 60 otherwise |
| Component.NextZoomLevel | projects/ngx-diagrams/src/lib/containers/diagram/diagram.component.ts:440-442 | the new level is applied iff it exceeds 10; a positive level stays positive |
| Component.AnchoredOffsetKeepsCursorPoint | projects/ngx-diagrams/src/lib/containers/diagram/diagram.component.ts:444-465 | the diagram point under the cursor is the same before and after zooming |
| Component.NgxDiagramComponent.constructor | projects/ngx-diagrams/src/lib/containers/diagram/diagram.component.ts:35-54 | all four inputs default to true, no action, no emissions, no listeners |
| Component.NgxDiagramComponent.FireAction | projects/ngx-diagrams/src/lib/containers/diagram/diagram.component.ts:111-115 | emits the current action iff there is one |
| Component.NgxDiagramComponent.StopFiringAction | projects/ngx-diagrams/src/lib/containers/diagram/diagram.component.ts:120-125 | emits the action unless skipped, then no action |
| Component.NgxDiagramComponent.StartFiringAction | projects/ngx-diagrams/src/lib/containers/diagram/diagram.component.ts:130-133 | the action becomes the new one and is emitted |
| Component.NgxDiagramComponent.DragLinkFrom | projects/ngx-diagrams/src/lib/containers/diagram/diagram.component.ts:383-401 | the graph becomes `DragNewLink` of the old one |
| Component.NgxDiagramComponent.SelectPressed | projects/ngx-diagrams/src/lib/containers/diagram/diagram.component.ts:410-413 | the graph becomes `PressSelectAsWritten` of the old one: the pressed element is selected and nothing is deselected |
| Component.NgxDiagramComponent.PressCanvas | projects/ngx-diagrams/src/lib/containers/diagram/diagram.component.ts:370-380 | shift starts selecting at the relative point; otherwise the selection is cleared and a canvas move starts at the current offset; either way it is emitted |
| Component.NgxDiagramComponent.PressPort | projects/ngx-diagrams/src/lib/containers/diagram/diagram.component.ts:381-407 | unlocked: drags a new link and starts a move of its last point; locked: clears the selection and starts nothing |
| Component.NgxDiagramComponent.PressElement | projects/ngx-diagrams/src/lib/containers/diagram/diagram.component.ts:408-416 | selects the element as the handler is written (no deselection) and starts a move of everything gathered |
| Component.NgxDiagramComponent.PressOn | projects/ngx-diagrams/src/lib/containers/diagram/diagram.component.ts:369-420 | dispatches on the resolved element, selecting as written, then registers both listeners |
| Component.NgxDiagramComponent.OnMouseDown | projects/ngx-diagrams/src/lib/containers/diagram/diagram.component.ts:362-421 | button 3 changes nothing; a failed lookup fails and changes nothing; otherwise canvas, port or element handling as above |
| Component.NgxDiagramComponent.BoxSelectNodes | projects/ngx-diagrams/src/lib/containers/diagram/diagram.component.ts:294-300 | the node loop yields the nodes of `BoxSelect` |
| Component.NgxDiagramComponent.BoxSelectOneLink | projects/ngx-diagrams/src/lib/containers/diagram/diagram.component.ts:302-315 | the point loop with `allSelected` yields `BoxSelectLink` |
| Component.NgxDiagramComponent.BoxSelectLinks | projects/ngx-diagrams/src/lib/containers/diagram/diagram.component.ts:302-316 | the link loop yields the links of `BoxSelect` |
| Component.NgxDiagramComponent.MoveItem | projects/ngx-diagrams/src/lib/containers/diagram/diagram.component.ts:330-347 | the graph becomes `MoveOne` of the old one |
| Component.NgxDiagramComponent.MoveItems | projects/ngx-diagrams/src/lib/containers/diagram/diagram.component.ts:329-348 | the loop yields `MoveAll` |
| Component.NgxDiagramComponent.OnMouseMove | projects/ngx-diagrams/src/lib/containers/diagram/diagram.component.ts:284-360 | idle: nothing; selecting: box-select with the previous corner, then the corner moves and the action fires; moving: `MoveAll` by delta/zoom and fires; canvas: offset is initial plus raw delta and fires, only if translation is allowed |
| Component.NgxDiagramComponent.SplitLinkAt | projects/ngx-diagrams/src/lib/containers/diagram/diagram.component.ts:209-218 | the handler's split steps yield `Split` |
| Component.NgxDiagramComponent.AttachPoint | projects/ngx-diagrams/src/lib/containers/diagram/diagram.component.ts:200-229 | the graph becomes `AttachOne` of the old one |
| Component.NgxDiagramComponent.AttachPoints | projects/ngx-diagrams/src/lib/containers/diagram/diagram.component.ts:200-230 | the loop yields `AttachAll` |
| Component.NgxDiagramComponent.RemoveLooseLinks | projects/ngx-diagrams/src/lib/containers/diagram/diagram.component.ts:233-246 | the loop yields `LooseAll` |
| Component.NgxDiagramComponent.RemoveInvalidLinks | projects/ngx-diagrams/src/lib/containers/diagram/diagram.component.ts:249-272 | the loop yields `InvalidAll` |
| Component.NgxDiagramComponent.DropTarget | projects/ngx-diagrams/src/lib/containers/diagram/diagram.component.ts:205 | a port exactly when the element is an unlocked port |
| Component.NgxDiagramComponent.OnMouseUp | projects/ngx-diagrams/src/lib/containers/diagram/diagram.component.ts:193-282 | after a move the graph becomes `Commit`; in every completed case the action is emitted as stopped, cleared and both listeners released; a failed lookup changes nothing |
| Component.NgxDiagramComponent.OnMouseWheel | projects/ngx-diagrams/src/lib/containers/diagram/diagram.component.ts:423-467 | when zoom is allowed the level follows `NextZoomLevel(ScrollDelta(..))` and the cursor point stays put; otherwise nothing changes |
| Component.PressThenRelease | projects/ngx-diagrams/src/lib/containers/diagram/diagram.component.ts:419-420 | a press followed by a release leaves no listener behind and no action |

## Left out

- Rendering: `ngOnInit`, `ngAfterViewInit`, widget generation (`generateWidgetFor*` and the factories they call), painting and change detection. This is UI plumbing around components that are not part of this model.
- DOM and event plumbing: `closest`, `getAttribute` and `getBoundingClientRect` are inputs (the element chain, the event record and the rect fields). `renderer.listen` is a listener count. `preventDefault`, `stopPropagation` and `console.log` have no state to model.
- The relative points (`getRelativePoint`, `getRelativeMousePoint`) are event fields, because the engine code that measures them is not part of this model.
- Reactive streams: each `BehaviorSubject`, value state and `EventEmitter` becomes its current value or the list of what it emitted. The rxjs operators and subscriptions are not modelled.
- The log and dev-mode globals and `UID` internals are left out: they only use the console and `Math.random`.
- Smart routing (`PathFinding.calculatePath`) is not part of this model. The SVG string the path library prints is also out. Paths are command records instead.
- `generateLinePath` reads a field `x$` that coordinates do not have, so its output carries no meaning.
- `calcLabelIncline` (which uses `Math.atan`) is left out. So is the commented-out label rotation.
- Component.NgxDiagramComponent.OnMouseWheel: requires a bounding rect of positive width and height. With a zero-size rect the source divides by zero and produces NaN offsets, which reals cannot express.
- Component.NewMoveItemsAction: `move-items.action.ts` is not part of this model. The model gathers selected unlocked nodes and selected points, with no duplicates guaranteed and in an unspecified order.
- Gestures.IsDuplicate: only links still in the diagram count. A link that `remove()` took off the diagram also leaves its ports, so the ports never hold such a link.
- Engine.Lookup: `if (factories[type])` also accepts inherited object properties such as `toString`. The model treats the registry as a plain dictionary.
- Entity.BaseEntity.Clone: the spread copy is a plain object, without `BaseEntity`'s prototype methods. The model keeps it a `BaseEntity` that shares the state cells.
- GraphModel.RemovePointsBefore / GraphModel.RemovePointsAfter: `link.model.ts` is not part of this model, so a point missing from the link is taken to leave the points unchanged. An implementation that splices at index -1 would behave differently. The case arises when a link with two moved points is split at the first, and the second is then looked up on the shortened link.
- Floating point is modelled as exact real arithmetic.
- The storybook demo components only build sample graphs and are not modelled.

## Findings

| source | as written | input that shows it | evidently intended | confidence | as-written member | corrected member |
|---|---|---|---|---|---|---|
| projects/ngx-diagrams/src/lib/containers/diagram/diagram.component.ts:410 | `!selectedModel.model.getSelected` tests the method itself, which is always truthy, so a press never clears the selection | node 0 selected, node 1 not; press node 1 without shift: node 0 stays selected | `!selectedModel.model.getSelected()`: a press without shift on an unselected element replaces the selection | not executed | Component.PressAsWrittenKeepsOtherSelection | Component.PressReplacesSelection |
