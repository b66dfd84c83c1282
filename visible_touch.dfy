/**
 * `VisibleTouch.Window`: the variant whose event loop works on a copy of `touchLayers`, passed
 * `inout` to each helper, and assigns the copy back once the whole batch is done.
 */
module VisibleTouch {
  import opened TouchModel

  /** The names of the notifications the window observes. */
  const EnableName := "VisibleTouch.enable"
  const DisableName := "VisibleTouch.disable"

  /** `TouchLayer.apply(touch:)`: no stroke and fully transparent; the transform is untouched. */
  function Apply(l: TouchLayer): (r: TouchLayer)
    ensures r.lineWidth == 0.0 && r.opacity == 0.0
    ensures r.position == l.position && r.scale == l.scale && r.animations == l.animations
  {
    l.(lineWidth := 0.0, opacity := 0.0)
  }

  /** A new `TouchLayer` once `apply(touch:)` has styled it. */
  const FreshTouchLayer := Apply(DefaultShapeLayer)

  class Window {
    var isTouchVisible: bool
    var touchLayers: map<int, LayerId>
    /** The properties of every touch layer allocated so far, by id. */
    var layers: map<LayerId, TouchLayer>
    /** The touch layers among the sublayers of the window's own layer. */
    var sublayers: set<LayerId>
    /** The layers whose `touchEnded` completion block has not run yet. */
    var pendingRemovals: set<LayerId>
    var nextLayer: LayerId
    var notFound: nat
    /** Every event handed on to `super.sendEvent`, in order. */
    var forwarded: seq<Event>

    /** The window's state as it would be with `touchMap` in place of `touchLayers`. */
    function StateWith(touchMap: map<int, LayerId>): Scene
      reads this
    {
      Scene(touchMap, layers, sublayers, pendingRemovals, nextLayer, notFound)
    }

    function State(): Scene
      reads this
    {
      StateWith(touchLayers)
    }

    ghost predicate Valid()
      reads this
    {
      TouchModel.Valid(State())
    }

    /** `init(frame:)`: hidden, with no touch layers. */
    constructor ()
      ensures Valid() && !isTouchVisible && State() == EmptyScene && forwarded == []
    {
      isTouchVisible := false;
      touchLayers := map[];
      layers := map[];
      sublayers := {};
      pendingRemovals := {};
      nextLayer := 0;
      notFound := 0;
      forwarded := [];
    }

    method ShowTouches()
      modifies this
      ensures isTouchVisible
      ensures State() == old(State()) && forwarded == old(forwarded)
    {
      isTouchVisible := true;
    }

    method HideTouches()
      requires Valid()
      modifies this
      ensures Valid() && !isTouchVisible
      ensures State() == TouchModel.RemoveAllTouchLayers(old(State())) && forwarded == old(forwarded)
    {
      isTouchVisible := false;
      RemoveAllTouchLayers();
    }

    /** Any other notification the window receives from the screen is ignored. */
    method OnNotification(name: string)
      requires Valid()
      modifies this
      ensures Valid() && forwarded == old(forwarded)
      ensures name == EnableName ==> isTouchVisible && State() == old(State())
      ensures name == DisableName ==>
                !isTouchVisible && State() == TouchModel.RemoveAllTouchLayers(old(State()))
      ensures name != EnableName && name != DisableName ==>
                isTouchVisible == old(isTouchVisible) && State() == old(State())
    {
      if name == EnableName {
        ShowTouches();
      } else if name == DisableName {
        HideTouches();
      }
    }

    /**
     * Every event goes on to `super.sendEvent` first; the touches of a handled event are then
     * applied one by one, in iteration order, to a copy of `touchLayers`, which replaces the
     * field at the end. Layers are added to the tree and animated as the batch goes.
     */
    method SendEvent(e: Event)
      requires Valid()
      modifies this
      ensures Valid()
      ensures forwarded == old(forwarded) + [e] && isTouchVisible == old(isTouchVisible)
      ensures State() == if Handles(old(isTouchVisible), e)
                         then Fold(old(State()), e.allTouches.value, FreshTouchLayer)
                         else old(State())
    {
      forwarded := forwarded + [e];
      if !(isTouchVisible && e.eventType == Touches) {
        return;
      }
      if e.allTouches.None? {
        return;
      }
      var touches := e.allTouches.value;
      var newTouchLayers := touchLayers;
      for i := 0 to |touches|
        invariant TouchModel.Valid(StateWith(newTouchLayers))
        invariant StateWith(newTouchLayers) == Fold(old(State()), touches[..i], FreshTouchLayer)
        invariant touchLayers == old(touchLayers)
        invariant isTouchVisible == old(isTouchVisible) && forwarded == old(forwarded) + [e]
      {
        var touch := touches[i];
        match touch.phase {
          case Began => newTouchLayers := AddTouchLayerFor(touch, newTouchLayers);
          case Moved => newTouchLayers := MoveTouchLayerFor(touch, newTouchLayers);
          case Stationary => newTouchLayers := KeepTouchLayerFor(touch, newTouchLayers);
          case Ended => newTouchLayers := RemoveTouchLayerFor(touch, newTouchLayers);
          case Cancelled => newTouchLayers := RemoveTouchLayerFor(touch, newTouchLayers);
        }
        FoldSnoc(old(State()), touches, i, FreshTouchLayer);
      }
      assert touches[..|touches|] == touches;
      touchLayers := newTouchLayers;
    }

    method AddTouchLayerFor(touch: Touch, touchMap: map<int, LayerId>)
      returns (touchMap': map<int, LayerId>)
      requires TouchModel.Valid(StateWith(touchMap))
      modifies this
      ensures StateWith(touchMap') ==
              TouchModel.AddTouchLayerFor(old(StateWith(touchMap)), touch, FreshTouchLayer)
      ensures touchLayers == old(touchLayers)
      ensures isTouchVisible == old(isTouchVisible) && forwarded == old(forwarded)
    {
      var layer := nextLayer;
      nextLayer := nextLayer + 1;
      layers := layers[layer := DefaultShapeLayer];
      layers := layers[layer := Apply(layers[layer])];
      layers := layers[layer := layers[layer].(position := touch.location)];
      touchMap' := touchMap[touch.hash := layer];
      InsertTouchLayer(layer);
    }

    method RemoveTouchLayerFor(touch: Touch, touchMap: map<int, LayerId>)
      returns (touchMap': map<int, LayerId>)
      requires TouchModel.Valid(StateWith(touchMap))
      modifies this
      ensures StateWith(touchMap') == TouchModel.RemoveTouchLayerFor(old(StateWith(touchMap)), touch)
      ensures touchLayers == old(touchLayers)
      ensures isTouchVisible == old(isTouchVisible) && forwarded == old(forwarded)
    {
      if touch.hash !in touchMap {
        notFound := notFound + 1;
        return touchMap;
      }
      var layer := touchMap[touch.hash];
      touchMap' := touchMap - {touch.hash};
      RemoveTouchLayer(layer);
    }

    /** Every mapped layer, in the map's own order, goes through `RemoveTouchLayer`. */
    method RemoveAllTouchLayers()
      requires Valid()
      modifies this
      ensures State() == TouchModel.RemoveAllTouchLayers(old(State()))
      ensures isTouchVisible == old(isTouchVisible) && forwarded == old(forwarded)
    {
      var keys := touchLayers.Keys;
      ghost var done: set<int> := {};
      while keys != {}
        invariant keys !! done && keys + done == touchLayers.Keys
        invariant touchLayers == old(touchLayers) && sublayers == old(sublayers)
        invariant nextLayer == old(nextLayer) && notFound == old(notFound)
        invariant isTouchVisible == old(isTouchVisible) && forwarded == old(forwarded)
        invariant layers == AttachAll(old(layers), LayersOf(touchLayers, done), TouchEnded)
        invariant pendingRemovals == old(pendingRemovals) + LayersOf(touchLayers, done)
        decreases keys
      {
        HasElement(keys);
        var h :| h in keys;
        var layer := touchLayers[h];
        LayersOfInjective(old(State()), done, h);
        AttachOneMore(old(layers), LayersOf(touchLayers, done), layer, TouchEnded);
        RemoveTouchLayer(layer);
        keys := keys - {h};
        done := done + {h};
      }
      assert LayersOf(touchLayers, done) == MappedLayers(old(State()));
      touchLayers := map[];
    }

    method MoveTouchLayerFor(touch: Touch, touchMap: map<int, LayerId>)
      returns (touchMap': map<int, LayerId>)
      requires TouchModel.Valid(StateWith(touchMap))
      modifies this
      ensures touchMap' == touchMap
      ensures StateWith(touchMap') == TouchModel.MoveTouchLayerFor(old(StateWith(touchMap)), touch)
      ensures touchLayers == old(touchLayers)
      ensures isTouchVisible == old(isTouchVisible) && forwarded == old(forwarded)
    {
      touchMap' := touchMap;
      if touch.hash !in touchMap {
        return;
      }
      var layer := touchMap[touch.hash];
      layers := layers[layer := layers[layer].(position := touch.location)];
    }

    /** A stationary touch leaves the map copy as it is. */
    method KeepTouchLayerFor(touch: Touch, touchMap: map<int, LayerId>)
      returns (touchMap': map<int, LayerId>)
      ensures touchMap' == touchMap
    {
      touchMap' := touchMap;
    }

    method InsertTouchLayer(layer: LayerId)
      requires layer in layers
      modifies this
      ensures State() == TouchModel.InsertTouchLayer(old(State()), layer)
      ensures isTouchVisible == old(isTouchVisible) && forwarded == old(forwarded)
    {
      sublayers := sublayers + {layer};
      layers := layers[layer := Attach(layers[layer], TouchBegan)];
    }

    method RemoveTouchLayer(layer: LayerId)
      requires layer in layers
      modifies this
      ensures State() == TouchModel.RemoveTouchLayer(old(State()), layer)
      ensures isTouchVisible == old(isTouchVisible) && forwarded == old(forwarded)
    {
      pendingRemovals := pendingRemovals + {layer};
      layers := layers[layer := Attach(layers[layer], TouchEnded)];
    }

    /** The completion block of `RemoveTouchLayer`, run later by the environment. */
    method CompleteRemoval(layer: LayerId)
      requires Valid() && layer in pendingRemovals
      modifies this
      ensures Valid()
      ensures State() == TouchModel.CompleteRemoval(old(State()), layer)
      ensures isTouchVisible == old(isTouchVisible) && forwarded == old(forwarded)
    {
      sublayers := sublayers - {layer};
      pendingRemovals := pendingRemovals - {layer};
    }
  }
}
