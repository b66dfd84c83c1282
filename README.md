# VisualTouch: the touch-layer lifecycle, in Dafny

VisualTouch draws a circle under every finger on an iOS screen. A `UIWindow` subclass, `Window`,
keeps a flag `isTouchVisible` and a dictionary `touchLayers` from `touch.hash` to a
`TouchLayer`, which is a shape layer. For every touch of every touch event it handles, the window
applies a transition chosen by the touch's phase:

- **Began** creates a layer at the touch location, adds it to the window's layer tree, attaches
  the `touchBegan` animation and stores the layer under the hash.
- **Moved** moves the mapped layer without an implicit animation.
- **Stationary** does nothing.
- **Ended** and **Cancelled** take the hash out of the map and attach `touchEnded`. A completion
  block, run later, takes the layer out of the tree.

`showTouches` and `hideTouches`, reached through the enable and disable notifications, set and
clear the flag. `hideTouches` also drains the map through the same animated removal.

The repository has two variants of the window:

- `VisibleTouch` runs each batch on a copy of the map, passed `inout` to the helpers and assigned
  back at the end. Its `TouchLayer.apply(touch:)` sets line width and opacity to 0.
- `VisualTouch` updates the map in place. Its `TouchLayer` resets itself in `init`: line width 0,
  opacity 0, transform scale 2.

The model has five modules:

- `TouchModel` holds the shared state as a value, `Scene`, plus one function per helper.
  - `Scene` has the map, the layer store, the tree, the pending removals, the id counter and a
    diagnostics counter.
  - `Step` is the per-touch transition. `Fold` applies a batch in iteration order.
  - `Valid` is the invariant:
    - every mapped layer is in the tree and has no removal pending;
    - no layer is mapped under two keys;
    - pending removals are in the tree;
    - every id is below the counter.
- `VisibleTouch` and `VisualTouch` each have a class `Window` with the source's fields. Each
  method is proved to update the fields exactly as the matching `TouchModel` function says.
  `SendEvent` is proved equal to `Fold` by its loop invariant.
- `TouchProperties` proves what batches guarantee:
  - the key set follows the phases;
  - a touch's whole lifecycle;
  - distinct Begans add as many layers as there are touches;
  - hiding is idempotent;
  - the duplicate-Began leak;
  - the two variants agree on everything but styling.
- `Variants` drives one window of each kind with the same inputs. It proves that their maps and
  layer trees stay equal.

Layers are integer ids drawn from a counter. Their properties live in a store keyed by id:
position, line width, opacity, scale and the attached animation keys. The compositing tree is a
set of ids. A pending completion block is an id in `pendingRemovals`. The environment runs it by
calling `CompleteRemoval`.

The model keeps these behaviours of the code:

- `hideTouches` attaches `touchEnded` to every mapped layer and defers its removal to the
  completion block, like a per-touch Ended (VisualTouch/VisibleTouch.swift:65-68 and :127-132).
  No layer leaves the tree before its completion block runs.
- A Began for a hash that is already mapped overwrites the entry (VisualTouch/VisibleTouch.swift:114).
  The old layer stays in the tree with no pending removal, and nothing ever removes it.
  `DuplicateBeganLeaks` and `OrphanSurvives` prove this.
- A hash leaves the map at Ended or Cancelled, when `removeValue` runs
  (VisualTouch/VisibleTouch.swift:118-125). Its layer stays in the tree until the removal
  animation's completion block runs.
- `hideTouches` drains the map whatever the previous value of the flag was
  (VisualTouch/VisibleTouch.swift:65-68).

## Model

| member | source | states |
|---|---|---|
| TouchModel.InsertTouchLayer | VisualTouch/VisibleTouch.swift:148-151 | the layer joins the tree and gets `touchBegan` appended; every other layer, the map and the pending removals are unchanged |
| TouchModel.RemoveTouchLayer | VisualTouch/VisibleTouch.swift:153-160 | the layer gets `touchEnded` and a pending removal; the tree is not changed yet, nor is any other layer |
| TouchModel.NewTouchLayer | VisualTouch/VisualTouch.swift:32-41 | a fresh id not yet in the store is allocated with the given styling; validity is kept and nothing else changes |
| TouchModel.AddTouchLayerFor | VisualTouch/VisibleTouch.swift:109-116 | the hash maps to a fresh layer, which is in neither the store nor the tree before; it sits at the touch location with `touchBegan` and joins the tree; other keys keep their layers; a layer the hash replaced is left orphaned in the tree; validity is kept |
| TouchModel.MoveTouchLayerFor | VisualTouch/VisibleTouch.swift:134-142 | only the mapped layer's position changes; keys, tree, pending removals and animations stay the same; an unmapped hash changes nothing |
| TouchModel.RemoveTouchLayerFor | VisualTouch/VisibleTouch.swift:118-125 | exactly that key goes; its layer gets `touchEnded` and a pending removal and stays in the tree; an unmapped hash leaves everything but the diagnostics counter unchanged |
| TouchModel.Step | VisualTouch/VisibleTouch.swift:90-103 | the per-phase transition keeps the invariant; Stationary changes nothing; only Began grows the tree or the key set |
| TouchModel.Fold | VisualTouch/VisibleTouch.swift:89-104 | a batch applied in iteration order keeps the invariant and never lowers the id counter |
| TouchModel.FoldSnoc | VisualTouch/VisibleTouch.swift:90-103 | one more touch of the batch is one more `Step` on the fold of the prefix |
| TouchModel.AttachAll | VisualTouch/VisibleTouch.swift:128-130 | `touchEnded` is appended to exactly the given layers and no other |
| TouchModel.RemoveAllTouchLayers | VisualTouch/VisibleTouch.swift:127-132 | the map ends empty; every previously mapped layer gets `touchEnded` and a pending removal; the tree, the store's ids and the counters are kept; an unmapped layer, an orphan included, keeps its properties; the visible layers lose exactly the mapped ones; validity is kept |
| TouchModel.CompleteRemoval | VisualTouch/VisibleTouch.swift:155-157 | the layer leaves the tree and the pending set; map, store and counters are unchanged; validity is kept |
| VisibleTouch.Apply | VisualTouch/VisibleTouch.swift:32-38 | line width and opacity become 0; position, scale and animations are kept |
| VisibleTouch.Window.constructor | VisualTouch/VisibleTouch.swift:57-59 | a new window is hidden, with an empty map and tree |
| VisibleTouch.Window.ShowTouches | VisualTouch/VisibleTouch.swift:61-63 | the flag becomes true and the layers are untouched |
| VisibleTouch.Window.HideTouches | VisualTouch/VisibleTouch.swift:65-68 | the flag becomes false and the state is `RemoveAllTouchLayers` of the old state |
| VisibleTouch.Window.OnNotification | VisualTouch/VisibleTouch.swift:70-76 | enable shows and disable hides; any other name changes nothing |
| VisibleTouch.Window.SendEvent | VisualTouch/VisibleTouch.swift:79-105 | the event is always forwarded first; a hidden window, a non-touch event or absent touches leave the state unchanged; otherwise the state is `Fold` of the touches over the old state, computed on a copy that replaces the map at the end |
| VisibleTouch.Window.AddTouchLayerFor | VisualTouch/VisibleTouch.swift:109-116 | the copy and the store become `AddTouchLayerFor` with the `apply` styling; the field `touchLayers` is untouched |
| VisibleTouch.Window.RemoveTouchLayerFor | VisualTouch/VisibleTouch.swift:118-125 | the copy and the store become `RemoveTouchLayerFor`; the field `touchLayers` is untouched |
| VisibleTouch.Window.RemoveAllTouchLayers | VisualTouch/VisibleTouch.swift:127-132 | the loop over the map followed by `removeAll` yields `RemoveAllTouchLayers` of the old state |
| VisibleTouch.Window.MoveTouchLayerFor | VisualTouch/VisibleTouch.swift:134-142 | the copy is unchanged and the store becomes `MoveTouchLayerFor` |
| VisibleTouch.Window.KeepTouchLayerFor | VisualTouch/VisibleTouch.swift:144-146 | the copy is returned unchanged |
| VisibleTouch.Window.InsertTouchLayer | VisualTouch/VisibleTouch.swift:148-151 | the state becomes `InsertTouchLayer`: the layer joins the tree with `touchBegan` and nothing else changes |
| VisibleTouch.Window.RemoveTouchLayer | VisualTouch/VisibleTouch.swift:153-160 | the state becomes `RemoveTouchLayer`: the layer gets `touchEnded` and a pending removal, and the tree is unchanged |
| VisibleTouch.Window.CompleteRemoval | VisualTouch/VisibleTouch.swift:155-157 | the completion block takes the layer out of the tree and keeps validity |
| VisualTouch.Reset | VisualTouch/VisualTouch.swift:47-51 | line width 0, opacity 0 and scale 2; position and animations are kept |
| VisualTouch.Window.constructor | VisualTouch/VisualTouch.swift:70-72 | a new window is hidden, with an empty map and tree |
| VisualTouch.Window.ShowTouches | VisualTouch/VisualTouch.swift:74-76 | the flag becomes true and the layers are untouched |
| VisualTouch.Window.HideTouches | VisualTouch/VisualTouch.swift:78-81 | the flag becomes false and the state is `RemoveAllTouchLayers` of the old state |
| VisualTouch.Window.OnNotification | VisualTouch/VisualTouch.swift:83-89 | enable shows and disable hides; any other name changes nothing |
| VisualTouch.Window.SendEvent | VisualTouch/VisualTouch.swift:92-116 | the event is always forwarded first; a hidden window, a non-touch event or absent touches leave the state unchanged; otherwise the in-place loop yields `Fold` of the touches over the old state |
| VisualTouch.Window.NewTouchLayer | VisualTouch/VisualTouch.swift:32-41 | a fresh id gets line width 0, opacity 0, scale 2 and no animations |
| VisualTouch.Window.ResetLayer | VisualTouch/VisualTouch.swift:47-51 | the layer is replaced by its `Reset`; nothing else changes |
| VisualTouch.Window.AddTouchLayerFor | VisualTouch/VisualTouch.swift:120-126 | the state becomes `AddTouchLayerFor` with the `reset` styling |
| VisualTouch.Window.RemoveTouchLayerFor | VisualTouch/VisualTouch.swift:128-134 | the state becomes `RemoveTouchLayerFor` |
| VisualTouch.Window.RemoveAllTouchLayers | VisualTouch/VisualTouch.swift:136-141 | the loop over the map followed by `removeAll` yields `RemoveAllTouchLayers` of the old state |
| VisualTouch.Window.MoveTouchLayerFor | VisualTouch/VisualTouch.swift:143-151 | the state becomes `MoveTouchLayerFor` |
| VisualTouch.Window.InsertTouchLayer | VisualTouch/VisualTouch.swift:153-156 | the state becomes `InsertTouchLayer` |
| VisualTouch.Window.RemoveTouchLayer | VisualTouch/VisualTouch.swift:158-165 | the state becomes `RemoveTouchLayer` |
| VisualTouch.Window.CompleteRemoval | VisualTouch/VisualTouch.swift:160-162 | the completion block takes the layer out of the tree and keeps validity |
| TouchProperties.FoldConcat | VisualTouch/VisibleTouch.swift:90-103 | running two batches in turn is running their concatenation |
| TouchProperties.FoldKeys | VisualTouch/VisibleTouch.swift:90-103 | the keys after a batch are exactly those that `LiveKeys` computes from the phases: Began adds, Ended and Cancelled remove, Moved and Stationary keep |
| TouchProperties.MovesKeepMembership | VisualTouch/VisibleTouch.swift:134-146 | a batch of Moved and Stationary touches changes no key, tree member, pending removal or animation |
| TouchProperties.TouchLifecycle | VisualTouch/VisibleTouch.swift:90-103 | Began, then held, then Ended or Cancelled: the hash maps to one fresh layer throughout; afterwards the hash is gone, and the layer carries `touchBegan` then `touchEnded` and waits in the tree until its completion block removes it |
| TouchProperties.BeganLast | VisualTouch/VisibleTouch.swift:109-116 | a Began for an unmapped hash adds one key and one tree member |
| TouchProperties.DistinctBeginsAddKeys | VisualTouch/VisibleTouch.swift:89-104 | a batch of Begans with distinct, unmapped hashes adds exactly those hashes as keys, and the map grows by the batch's length |
| TouchProperties.DistinctBeginsAddLayers | VisualTouch/VisibleTouch.swift:89-104 | such a batch grows the tree by exactly the batch's length |
| TouchProperties.StepKeepsOrphan | VisualTouch/VisibleTouch.swift:114 | a layer dropped from the map while still in the tree stays that way through any touch |
| TouchProperties.OrphanSurvives | VisualTouch/VisibleTouch.swift:114 | an orphaned layer survives every batch, `hideTouches` and every completion block |
| TouchProperties.DuplicateBeganLeaks | VisualTouch/VisualTouch.swift:124 | after a Began for a mapped hash, the replaced layer stays in the tree through any later batch and a hide |
| TouchProperties.RemoveAllTwice | VisualTouch/VisibleTouch.swift:127-132 | hiding twice leaves the same state as hiding once |
| TouchProperties.AddSameLayout | VisualTouch/VisualTouch.swift:120-126 | the two stylings give the same map, tree, positions and animations after a Began |
| TouchProperties.MoveSameLayout | VisualTouch/VisualTouch.swift:143-151 | ... and after a Moved |
| TouchProperties.RemoveForSameLayout | VisualTouch/VisualTouch.swift:128-134 | ... and after an Ended or Cancelled |
| TouchProperties.StepSameLayout | VisualTouch/VisualTouch.swift:103-114 | ... and after any one touch |
| TouchProperties.FoldSameLayout | VisualTouch/VisualTouch.swift:102-115 | the in-place and the copy-then-swap loops, with their two stylings, leave the same map, tree, pending removals, positions and animations |
| TouchProperties.RemoveAllSameLayout | VisualTouch/VisualTouch.swift:136-141 | the two variants still agree after a hide |
| TouchProperties.CompleteSameLayout | VisualTouch/VisualTouch.swift:160-162 | the two variants still agree after a completion block |
| TouchProperties.TapScenario | VisualTouch/VisibleTouch.swift:89-104 | a tap that begins at (10, 10), moves to (20, 20) and ends: one layer with `touchBegan`, then moved, then unmapped with `touchEnded` and pending until its completion empties the tree; a stray Moved changes nothing |
| Variants.RunBoth | VisualTouch/VisualTouch.swift:92-116 | a `VisibleTouch` and a `VisualTouch` window fed the same events, notifications and completions end with equal maps and equal layer trees |

## Left out

- Notification posting, observer registration and `deinit` are not modelled. `OnNotification` takes the notification's name directly.
- `super.sendEvent` is kept only as the `forwarded` log. It records that every event is handed on first, unconditionally.
- The `print` of a missing layer is modelled as the counter `notFound`.
- Core Animation internals are not modelled: `CATransaction`, `CALayer`, `CAKeyframeAnimation` and `QCMethod.group`. An animation is an opaque key appended to the layer's list. Adding a second animation under the same key would replace the first in Core Animation; the model appends instead.
- Keyframe values, key times, durations and easing are not modelled.
- `CGFloat` geometry is reduced: the radius, the oval path and the colours are dropped. Positions are opaque points. `touch.location(in:)` is the touch's own location. `touch.hash` is an integer.
- Styling is reduced to line width, opacity and scale. The transform is reduced to its scale factor.
- The completion block's timing is not modelled. It is the method `CompleteRemoval`, which the environment may call for any pending layer at any time.
- The iteration order of `allTouches` (a set) and of the dictionary is taken as given. `allTouches` is a sequence in that order. `RemoveAllTouchLayers` visits the keys in an unspecified order, and its result does not depend on that order.
- Layers are ids into a store, not shared objects. The `TouchLayer` objects that the map and the tree share become ids.
- The `init(coder:)` stubs, which only stop the program, are not modelled.
