/**
 * `VisualTouch.Window`: the variant whose event loop updates `touchLayers` in place, and whose
 * `TouchLayer` resets itself to the pre-animation state when constructed.
 */
module VisualTouch {
  import opened TouchModel

  /** The names of the notifications the window observes. */
  const EnableName := "VisualTouch.enable"
  const DisableName := "VisualTouch.disable"

  /** `TouchLayer.reset()`: the state the `touchBegan` animation starts from. */
  function Reset(l: TouchLayer): (r: TouchLayer)
    ensures r.lineWidth == 0.0 && r.opacity == 0.0 && r.scale == 2.0
    ensures r.position == l.position && r.animations == l.animations
  {
    l.(lineWidth := 0.0, opacity := 0.0, scale := 2.0)
  }

  /** A freshly constructed `TouchLayer`: a new shape layer, reset. */
  const FreshTouchLayer := Reset(DefaultShapeLayer)

  class Window {
    var isTouchVisible: bool
    var touchLayers: map<int, LayerId>
    /** The properties of every touch layer allocated so far, by id. */
    var layers: map<LayerId, TouchLayer>
    /** The touch layers among the sublayers of the window's own layer. */
    var sublayers: set<LayerId>
    /** The layers whose `touchEnded` completion block has not run yet. */
    var pendingRemovals: set<LayerId>
    var nextLayer: LayerId
    var notFound: nat
    /** Every event handed on to `super.sendEvent`, in order. */
    var forwarded: seq<Event>

    function State(): Scene
      reads this
    {
      Scene(touchLayers, layers, sublayers, pendingRemovals, nextLayer, notFound)
    }

    ghost predicate Valid()
      reads this
    {
      TouchModel.Valid(State())
    }

    /** `init(frame:)`: hidden, with no touch layers. */
    constructor ()
      ensures Valid() && !isTouchVisible && State() == EmptyScene && forwarded == []
    {
      isTouchVisible := false;
      touchLayers := map[];
      layers := map[];
      sublayers := {};
      pendingRemovals := {};
      nextLayer := 0;
      notFound := 0;
      forwarded := [];
    }

    method ShowTouches()
      modifies this
      ensures isTouchVisible
      ensures State() == old(State()) && forwarded == old(forwarded)
    {
      isTouchVisible := true;
    }

    method HideTouches()
      requires Valid()
      modifies this
      ensures Valid() && !isTouchVisible
      ensures State() == TouchModel.RemoveAllTouchLayers(old(State())) && forwarded == old(forwarded)
    {
      isTouchVisible := false;
      RemoveAllTouchLayers();
    }

    /** Any other notification the window receives from the screen is ignored. */
    method OnNotification(name: string)
      requires Valid()
      modifies this
      ensures Valid() && forwarded == old(forwarded)
      ensures name == EnableName ==> isTouchVisible && State() == old(State())
      ensures name == DisableName ==>
                !isTouchVisible && State() == TouchModel.RemoveAllTouchLayers(old(State()))
      ensures name != EnableName && name != DisableName ==>
                isTouchVisible == old(isTouchVisible) && State() == old(State())
    {
      if name == EnableName {
        ShowTouches();
      } else if name == DisableName {
        HideTouches();
      }
    }

    /**
     * Every event goes on to `super.sendEvent` first; the touches of a handled event are then
     * applied one by one, in iteration order, directly to `touchLayers`.
     */
    method SendEvent(e: Event)
      requires Valid()
      modifies this
      ensures Valid()
      ensures forwarded == old(forwarded) + [e] && isTouchVisible == old(isTouchVisible)
      ensures State() == if Handles(old(isTouchVisible), e)
                         then Fold(old(State()), e.allTouches.value, FreshTouchLayer)
                         else old(State())
    {
      forwarded := forwarded + [e];
      if !(isTouchVisible && e.eventType == Touches) {
        return;
      }
      if e.allTouches.None? {
        return;
      }
      var touches := e.allTouches.value;
      for i := 0 to |touches|
        invariant Valid()
        invariant State() == Fold(old(State()), touches[..i], FreshTouchLayer)
        invariant isTouchVisible == old(isTouchVisible) && forwarded == old(forwarded) + [e]
      {
        var touch := touches[i];
        match touch.phase {
          case Began => AddTouchLayerFor(touch);
          case Moved => MoveTouchLayerFor(touch);
          case Stationary =>
          case Ended => RemoveTouchLayerFor(touch);
          case Cancelled => RemoveTouchLayerFor(touch);
        }
        FoldSnoc(old(State()), touches, i, FreshTouchLayer);
      }
      assert touches[..|touches|] == touches;
    }

    /** `TouchLayer()`: allocate a shape layer and reset it. */
    method NewTouchLayer() returns (layer: LayerId)
      requires Valid()
      modifies this
      ensures layer == old(nextLayer) && layer !in old(layers) && layer in layers
      ensures layers[layer].lineWidth == 0.0 && layers[layer].opacity == 0.0
      ensures layers[layer].scale == 2.0 && layers[layer].animations == []
      ensures State() == TouchModel.NewTouchLayer(old(State()), FreshTouchLayer)
      ensures isTouchVisible == old(isTouchVisible) && forwarded == old(forwarded)
    {
      layer := nextLayer;
      nextLayer := nextLayer + 1;
      layers := layers[layer := DefaultShapeLayer];
      ResetLayer(layer);
    }

    method ResetLayer(layer: LayerId)
      requires layer in layers
      modifies this
      ensures layers == old(layers)[layer := Reset(old(layers)[layer])]
      ensures touchLayers == old(touchLayers) && sublayers == old(sublayers)
      ensures pendingRemovals == old(pendingRemovals) && nextLayer == old(nextLayer)
      ensures notFound == old(notFound)
      ensures isTouchVisible == old(isTouchVisible) && forwarded == old(forwarded)
    {
      layers := layers[layer := layers[layer].(lineWidth := 0.0)];
      layers := layers[layer := layers[layer].(opacity := 0.0)];
      layers := layers[layer := layers[layer].(scale := 2.0)];
    }

    method AddTouchLayerFor(touch: Touch)
      requires Valid()
      modifies this
      ensures State() == TouchModel.AddTouchLayerFor(old(State()), touch, FreshTouchLayer)
      ensures isTouchVisible == old(isTouchVisible) && forwarded == old(forwarded)
    {
      var layer := NewTouchLayer();
      layers := layers[layer := layers[layer].(position := touch.location)];
      touchLayers := touchLayers[touch.hash := layer];
      InsertTouchLayer(layer);
    }

    method RemoveTouchLayerFor(touch: Touch)
      requires Valid()
      modifies this
      ensures State() == TouchModel.RemoveTouchLayerFor(old(State()), touch)
      ensures isTouchVisible == old(isTouchVisible) && forwarded == old(forwarded)
    {
      if touch.hash !in touchLayers {
        notFound := notFound + 1;
        return;
      }
      var layer := touchLayers[touch.hash];
      touchLayers := touchLayers - {touch.hash};
      RemoveTouchLayer(layer);
    }

    /** Every mapped layer, in the map's own order, goes through `RemoveTouchLayer`. */
    method RemoveAllTouchLayers()
      requires Valid()
      modifies this
      ensures State() == TouchModel.RemoveAllTouchLayers(old(State()))
      ensures isTouchVisible == old(isTouchVisible) && forwarded == old(forwarded)
    {
      var keys := touchLayers.Keys;
      ghost var done: set<int> := {};
      while keys != {}
        invariant keys !! done && keys + done == touchLayers.Keys
        invariant touchLayers == old(touchLayers) && sublayers == old(sublayers)
        invariant nextLayer == old(nextLayer) && notFound == old(notFound)
        invariant isTouchVisible == old(isTouchVisible) && forwarded == old(forwarded)
        invariant layers == AttachAll(old(layers), LayersOf(touchLayers, done), TouchEnded)
        invariant pendingRemovals == old(pendingRemovals) + LayersOf(touchLayers, done)
        decreases keys
      {
        HasElement(keys);
        var h :| h in keys;
        var layer := touchLayers[h];
        LayersOfInjective(old(State()), done, h);
        AttachOneMore(old(layers), LayersOf(touchLayers, done), layer, TouchEnded);
        RemoveTouchLayer(layer);
        keys := keys - {h};
        done := done + {h};
      }
      assert LayersOf(touchLayers, done) == MappedLayers(old(State()));
      touchLayers := map[];
    }

    method MoveTouchLayerFor(touch: Touch)
      requires Valid()
      modifies this
      ensures State() == TouchModel.MoveTouchLayerFor(old(State()), touch)
      ensures isTouchVisible == old(isTouchVisible) && forwarded == old(forwarded)
    {
      if touch.hash !in touchLayers {
        return;
      }
      var layer := touchLayers[touch.hash];
      layers := layers[layer := layers[layer].(position := touch.location)];
    }

    method InsertTouchLayer(layer: LayerId)
      requires layer in layers
      modifies this
      ensures State() == TouchModel.InsertTouchLayer(old(State()), layer)
      ensures isTouchVisible == old(isTouchVisible) && forwarded == old(forwarded)
    {
      sublayers := sublayers + {layer};
      layers := layers[layer := Attach(layers[layer], TouchBegan)];
    }

    method RemoveTouchLayer(layer: LayerId)
      requires layer in layers
      modifies this
      ensures State() == TouchModel.RemoveTouchLayer(old(State()), layer)
      ensures isTouchVisible == old(isTouchVisible) && forwarded == old(forwarded)
    {
      pendingRemovals := pendingRemovals + {layer};
      layers := layers[layer := Attach(layers[layer], TouchEnded)];
    }

    /** The completion block of `RemoveTouchLayer`, run later by the environment. */
    method CompleteRemoval(layer: LayerId)
      requires Valid() && layer in pendingRemovals
      modifies this
      ensures Valid()
      ensures State() == TouchModel.CompleteRemoval(old(State()), layer)
      ensures isTouchVisible == old(isTouchVisible) && forwarded == old(forwarded)
    {
      sublayers := sublayers - {layer};
      pendingRemovals := pendingRemovals - {layer};
    }
  }
}
