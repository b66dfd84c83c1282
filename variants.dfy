/**
 * The two windows side by side. They differ only in how a fresh `TouchLayer` is styled
 * (`apply(touch:)` against `reset()`) and in whether the event loop works on a copy of the map;
 * fed the same inputs, they keep the same map, tree, pending removals and animations.
 */
module Variants {
  import opened TouchModel
  import opened TouchProperties
  import VisibleTouch
  import VisualTouch

  /** What the environment can do to a window. */
  datatype Input =
    | Deliver(e: Event)      // `sendEvent(_:)`
    | Enable                 // the enable notification
    | Disable                // the disable notification
    | Complete(id: LayerId)  // the completion block of a pending removal runs

  /**
   * Drive one window of each kind with the same inputs; a completion is delivered only for a
   * layer whose removal is still pending.
   */
  method RunBoth(inputs: seq<Input>)
    returns (visibleMap: map<int, LayerId>, visualMap: map<int, LayerId>,
             visibleTree: set<LayerId>, visualTree: set<LayerId>)
    ensures visibleMap == visualMap && visibleTree == visualTree
  {
    var a := new VisibleTouch.Window();
    var b := new VisualTouch.Window();
    for i := 0 to |inputs|
      invariant a.Valid() && b.Valid()
      invariant SameLayout(a.State(), b.State())
      invariant a.isTouchVisible == b.isTouchVisible
    {
      match inputs[i] {
        case Deliver(e) =>
          ghost var before := a.State();
          ghost var before' := b.State();
          a.SendEvent(e);
          b.SendEvent(e);
          if Handles(a.isTouchVisible, e) {
            FoldSameLayout(before, before', e.allTouches.value,
                           VisibleTouch.FreshTouchLayer, VisualTouch.FreshTouchLayer);
          }
        case Enable =>
          a.OnNotification(VisibleTouch.EnableName);
          b.OnNotification(VisualTouch.EnableName);
        case Disable =>
          ghost var before := a.State();
          ghost var before' := b.State();
          a.OnNotification(VisibleTouch.DisableName);
          b.OnNotification(VisualTouch.DisableName);
          RemoveAllSameLayout(before, before');
        case Complete(id) =>
          if id in a.pendingRemovals {
            ghost var before := a.State();
            ghost var before' := b.State();
            a.CompleteRemoval(id);
            b.CompleteRemoval(id);
            CompleteSameLayout(before, before', id);
          }
      }
    }
    visibleMap, visualMap := a.touchLayers, b.touchLayers;
    visibleTree, visualTree := a.sublayers, b.sublayers;
  }
}
