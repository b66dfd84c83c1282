/**
 * The touch-identity -> touch-layer state shared by both `Window` variants, as a value.
 *
 * A `TouchLayer` object of the Swift window is identified here by a `LayerId`; the properties
 * the window sets on it live in the id-keyed store `layers`. The window's compositing tree (the
 * sublayers of `self.layer`) is the set `sublayers`, and each completion block scheduled by
 * `removeTouchLayer` is an entry of `pendingRemovals` until the environment runs it.
 */
module TouchModel {

  datatype Option<T> = None | Some(value: T)

  /** A location in the window's coordinate space; never computed with, only stored. */
  datatype Point = Point(x: real, y: real)

  datatype Phase = Began | Moved | Stationary | Ended | Cancelled

  /** One `UITouch` of an event: its `hash`, its `phase` and `location(in: window)`. */
  datatype Touch = Touch(hash: int, phase: Phase, location: Point)

  datatype EventType = Touches | Motion | RemoteControl | Presses

  /** A `UIEvent`; `allTouches` is `None` when the event carries no touch set. */
  datatype Event = Event(eventType: EventType, allTouches: Option<seq<Touch>>)

  /** The keys under which the window attaches its two animations. */
  datatype AnimationKey = TouchBegan | TouchEnded

  type LayerId = nat

  /** The properties of a touch layer the window reads or writes; `scale` is its transform. */
  datatype TouchLayer = TouchLayer(position: Point, lineWidth: real, opacity: real, scale: real,
                                   animations: seq<AnimationKey>)

  /** A newly allocated shape layer, before the window styles it. */
  const DefaultShapeLayer := TouchLayer(Point(0.0, 0.0), 1.0, 1.0, 1.0, [])

  /**
   * `touchLayers` maps `touch.hash` to a layer; `notFound` counts the "touch layer not found"
   * diagnostics printed by `removeTouchLayerFor`.
   */
  datatype Scene = Scene(touchLayers: map<int, LayerId>,
                         layers: map<LayerId, TouchLayer>,
                         sublayers: set<LayerId>,
                         pendingRemovals: set<LayerId>,
                         nextLayer: LayerId,
                         notFound: nat)

  const EmptyScene := Scene(map[], map[], {}, {}, 0, 0)

  /**
   * The invariant the window keeps: allocated ids lie below `nextLayer`, every layer in the tree
   * has properties, every pending layer is still in the tree, every mapped layer is in the tree
   * and not pending, and no layer is mapped under two keys.
   */
  ghost predicate Valid(s: Scene) {
    && (forall id :: id in s.layers ==> id < s.nextLayer)
    && s.sublayers <= s.layers.Keys
    && s.pendingRemovals <= s.sublayers
    && (forall h :: h in s.touchLayers ==>
          s.touchLayers[h] in s.sublayers && s.touchLayers[h] !in s.pendingRemovals)
    && (forall h, k :: h in s.touchLayers && k in s.touchLayers && h != k ==>
          s.touchLayers[h] != s.touchLayers[k])
  }

  /** The layers a touch map refers to under the hashes `hashes`. */
  function LayersOf(touchLayers: map<int, LayerId>, hashes: set<int>): set<LayerId> {
    set h | h in hashes && h in touchLayers :: touchLayers[h]
  }

  /** The layers the map currently refers to. */
  function MappedLayers(s: Scene): set<LayerId> {
    LayersOf(s.touchLayers, s.touchLayers.Keys)
  }

  /** A layer left in the tree that no key maps and no completion block will remove. */
  ghost predicate Orphaned(s: Scene, id: LayerId) {
    id in s.sublayers && id !in s.pendingRemovals && id !in MappedLayers(s)
  }

  function Attach(l: TouchLayer, key: AnimationKey): TouchLayer {
    l.(animations := l.animations + [key])
  }

  /** `insertTouchLayer`: add the layer to the tree and attach `touchBegan`. */
  function InsertTouchLayer(s: Scene, id: LayerId): (r: Scene)
    requires id in s.layers
    ensures r.sublayers == s.sublayers + {id}
    ensures r.layers.Keys == s.layers.Keys
    ensures r.layers[id].animations == s.layers[id].animations + [TouchBegan]
    ensures r.layers[id].position == s.layers[id].position
    ensures forall other :: other in s.layers && other != id ==> r.layers[other] == s.layers[other]
    ensures r.touchLayers == s.touchLayers && r.pendingRemovals == s.pendingRemovals
    ensures r.nextLayer == s.nextLayer && r.notFound == s.notFound
  {
    s.(sublayers := s.sublayers + {id}, layers := s.layers[id := Attach(s.layers[id], TouchBegan)])
  }

  /**
   * `removeTouchLayer`: attach `touchEnded` and schedule the completion block that takes the
   * layer out of the tree; the tree itself is not changed yet.
   */
  function RemoveTouchLayer(s: Scene, id: LayerId): (r: Scene)
    requires id in s.layers
    ensures r.pendingRemovals == s.pendingRemovals + {id}
    ensures r.layers.Keys == s.layers.Keys
    ensures r.layers[id].animations == s.layers[id].animations + [TouchEnded]
    ensures r.layers[id].position == s.layers[id].position
    ensures forall other :: other in s.layers && other != id ==> r.layers[other] == s.layers[other]
    ensures r.sublayers == s.sublayers && r.touchLayers == s.touchLayers
    ensures r.nextLayer == s.nextLayer && r.notFound == s.notFound
  {
    s.(pendingRemovals := s.pendingRemovals + {id},
       layers := s.layers[id := Attach(s.layers[id], TouchEnded)])
  }

  /** Allocate a fresh layer styled as `template`, as `TouchLayer()` does. */
  function NewTouchLayer(s: Scene, template: TouchLayer): (r: Scene)
    requires Valid(s)
    ensures Valid(r)
    ensures s.nextLayer !in s.layers && r.layers == s.layers[s.nextLayer := template]
    ensures r.nextLayer > s.nextLayer
    ensures r.touchLayers == s.touchLayers && r.sublayers == s.sublayers
    ensures r.pendingRemovals == s.pendingRemovals && r.notFound == s.notFound
  {
    s.(layers := s.layers[s.nextLayer := template], nextLayer := s.nextLayer + 1)
  }

  /**
   * `addTouchLayerFor`: a fresh layer at the touch location is stored under `touch.hash`,
   * inserted into the tree and given `touchBegan`. A layer already stored under that hash is
   * dropped from the map but stays in the tree, where nothing will remove it.
   */
  function AddTouchLayerFor(s: Scene, t: Touch, template: TouchLayer): (r: Scene)
    requires Valid(s)
    ensures Valid(r)
    ensures t.hash in r.touchLayers
    ensures r.touchLayers[t.hash] !in s.layers && r.touchLayers[t.hash] !in s.sublayers
    ensures r.layers[r.touchLayers[t.hash]] ==
            template.(position := t.location, animations := template.animations + [TouchBegan])
    ensures r.layers.Keys == s.layers.Keys + {r.touchLayers[t.hash]}
    ensures forall id :: id in s.layers ==> r.layers[id] == s.layers[id]
    ensures r.sublayers == s.sublayers + {r.touchLayers[t.hash]}
    ensures r.touchLayers.Keys == s.touchLayers.Keys + {t.hash}
    ensures forall h :: h in s.touchLayers && h != t.hash ==> r.touchLayers[h] == s.touchLayers[h]
    ensures r.pendingRemovals == s.pendingRemovals && r.notFound == s.notFound
    ensures r.touchLayers[t.hash] == s.nextLayer && r.nextLayer == s.nextLayer + 1
    ensures t.hash in s.touchLayers ==> Orphaned(r, s.touchLayers[t.hash])
  {
    var id := s.nextLayer;
    var s1 := NewTouchLayer(s, template);
    var s2 := s1.(layers := s1.layers[id := s1.layers[id].(position := t.location)]);
    var s3 := s2.(touchLayers := s2.touchLayers[t.hash := id]);
    var r := InsertTouchLayer(s3, id);
    assert forall h :: h in r.touchLayers && h != t.hash ==> r.touchLayers[h] != id;
    assert t.hash in s.touchLayers ==> s.touchLayers[t.hash] !in MappedLayers(r) by {
      if t.hash in s.touchLayers {
        var dropped := s.touchLayers[t.hash];
        forall h | h in r.touchLayers ensures r.touchLayers[h] != dropped {
          if h != t.hash {
            assert r.touchLayers[h] == s.touchLayers[h];
          }
        }
      }
    }
    r
  }

  /**
   * `moveTouchLayerFor`: the layer mapped under `touch.hash` takes the touch location; an
   * unmapped hash changes nothing. Membership of the map and the tree never changes.
   */
  function MoveTouchLayerFor(s: Scene, t: Touch): (r: Scene)
    requires Valid(s)
    ensures Valid(r)
    ensures r.touchLayers == s.touchLayers && r.sublayers == s.sublayers
    ensures r.pendingRemovals == s.pendingRemovals
    ensures r.nextLayer == s.nextLayer && r.notFound == s.notFound
    ensures r.layers.Keys == s.layers.Keys
    ensures t.hash in s.touchLayers ==>
              r.layers[s.touchLayers[t.hash]] == s.layers[s.touchLayers[t.hash]].(position := t.location)
    ensures forall id :: id in s.layers && (t.hash !in s.touchLayers || id != s.touchLayers[t.hash]) ==>
              r.layers[id] == s.layers[id]
    ensures t.hash !in s.touchLayers ==> r == s
  {
    if t.hash in s.touchLayers then
      var id := s.touchLayers[t.hash];
      s.(layers := s.layers[id := s.layers[id].(position := t.location)])
    else
      s
  }

  /**
   * `removeTouchLayerFor`: a mapped hash leaves the map and its layer gets `touchEnded` and a
   * pending removal, staying in the tree until then; an unmapped hash only prints a diagnostic.
   */
  function RemoveTouchLayerFor(s: Scene, t: Touch): (r: Scene)
    requires Valid(s)
    ensures Valid(r)
    ensures r.touchLayers.Keys == s.touchLayers.Keys - {t.hash}
    ensures forall h :: h in r.touchLayers ==> r.touchLayers[h] == s.touchLayers[h]
    ensures r.sublayers == s.sublayers && r.nextLayer == s.nextLayer
    ensures r.layers.Keys == s.layers.Keys
    ensures t.hash in s.touchLayers ==>
              var id := s.touchLayers[t.hash];
              && r.pendingRemovals == s.pendingRemovals + {id}
              && id !in s.pendingRemovals
              && r.layers[id] == Attach(s.layers[id], TouchEnded)
              && (forall other :: other in s.layers && other != id ==> r.layers[other] == s.layers[other])
              && r.notFound == s.notFound
    ensures t.hash !in s.touchLayers ==>
              r.touchLayers == s.touchLayers && r.layers == s.layers &&
              r.pendingRemovals == s.pendingRemovals && r.notFound == s.notFound + 1
  {
    if t.hash in s.touchLayers then
      var id := s.touchLayers[t.hash];
      RemoveTouchLayer(s.(touchLayers := s.touchLayers - {t.hash}), id)
    else
      s.(notFound := s.notFound + 1)
  }

  /** The transition one touch of a batch causes, chosen by its phase. */
  function Step(s: Scene, t: Touch, template: TouchLayer): (r: Scene)
    requires Valid(s)
    ensures Valid(r)
    ensures r.nextLayer >= s.nextLayer
    ensures t.phase == Stationary ==> r == s
    ensures t.phase != Began ==> r.sublayers == s.sublayers && r.touchLayers.Keys <= s.touchLayers.Keys
  {
    match t.phase
    case Began => AddTouchLayerFor(s, t, template)
    case Moved => MoveTouchLayerFor(s, t)
    case Stationary => s
    case Ended => RemoveTouchLayerFor(s, t)
    case Cancelled => RemoveTouchLayerFor(s, t)
  }

  /** The batch applied touch by touch in iteration order. */
  function Fold(s: Scene, ts: seq<Touch>, template: TouchLayer): (r: Scene)
    requires Valid(s)
    ensures Valid(r)
    ensures r.nextLayer >= s.nextLayer
    decreases |ts|
  {
    if ts == [] then s
    else Step(Fold(s, ts[..|ts| - 1], template), ts[|ts| - 1], template)
  }

  /** One more touch of the batch is one more `Step`. */
  lemma FoldSnoc(s: Scene, ts: seq<Touch>, i: nat, template: TouchLayer)
    requires Valid(s) && i < |ts|
    ensures Fold(s, ts[..i + 1], template) == Step(Fold(s, ts[..i], template), ts[i], template)
  {
    assert ts[..i + 1][..i] == ts[..i];
  }

  /** Apply `key` to every layer of `ids`, leaving the others alone. */
  function AttachAll(layers: map<LayerId, TouchLayer>, ids: set<LayerId>, key: AnimationKey)
    : (r: map<LayerId, TouchLayer>)
    ensures r.Keys == layers.Keys
    ensures forall id :: id in layers && id in ids ==> r[id] == Attach(layers[id], key)
    ensures forall id :: id in layers && id !in ids ==> r[id] == layers[id]
  {
    map id | id in layers :: if id in ids then Attach(layers[id], key) else layers[id]
  }

  /** A set helper for the choice of the next key in the drain loops; it says nothing about touches. */
  lemma EmptyIfNoElement(hashes: set<int>)
    requires forall h :: h !in hashes
    ensures hashes == {}
  {
    var none: set<int> := {};
    assert forall h :: h in hashes <==> h in none;
  }

  /** A set helper for the drain loops: a non-empty set of keys has a member to visit next. */
  lemma HasElement(hashes: set<int>)
    ensures hashes != {} ==> exists h :: h in hashes
  {
    if !(exists h :: h in hashes) {
      EmptyIfNoElement(hashes);
    }
  }

  /** A mapped layer is reached from no other key, so a key not yet visited names a new layer. */
  lemma LayersOfInjective(s: Scene, visited: set<int>, h: int)
    requires Valid(s) && h in s.touchLayers && h !in visited
    ensures s.touchLayers[h] !in LayersOf(s.touchLayers, visited)
    ensures s.touchLayers[h] in s.layers
  {
  }

  lemma AttachOneMore(layers: map<LayerId, TouchLayer>, ids: set<LayerId>, id: LayerId,
                      key: AnimationKey)
    requires id in layers && id !in ids
    ensures AttachAll(layers, ids + {id}, key) == AttachAll(layers, ids, key)[id := Attach(layers[id], key)]
  {
  }

  /**
   * `removeAllTouchLayers`: every mapped layer gets `touchEnded` and a pending removal, then the
   * map is emptied. The layers stay in the tree until their completion blocks run.
   */
  function RemoveAllTouchLayers(s: Scene): (r: Scene)
    requires Valid(s)
    ensures Valid(r)
    ensures r.touchLayers == map[]
    ensures r.sublayers == s.sublayers
    ensures r.pendingRemovals == s.pendingRemovals + MappedLayers(s)
    ensures forall h :: h in s.touchLayers ==>
              r.layers[s.touchLayers[h]] == Attach(s.layers[s.touchLayers[h]], TouchEnded)
    ensures r.sublayers - r.pendingRemovals == s.sublayers - s.pendingRemovals - MappedLayers(s)
    ensures r.layers.Keys == s.layers.Keys
    ensures r.nextLayer == s.nextLayer && r.notFound == s.notFound
    ensures forall id :: id in s.layers && id !in MappedLayers(s) ==> r.layers[id] == s.layers[id]
  {
    s.(touchLayers := map[],
       layers := AttachAll(s.layers, MappedLayers(s), TouchEnded),
       pendingRemovals := s.pendingRemovals + MappedLayers(s))
  }

  /** The completion block of a pending removal: `removeFromSuperlayer`. */
  function CompleteRemoval(s: Scene, id: LayerId): (r: Scene)
    requires Valid(s) && id in s.pendingRemovals
    ensures Valid(r)
    ensures id !in r.sublayers && id !in r.pendingRemovals
    ensures r.sublayers == s.sublayers - {id} && r.pendingRemovals == s.pendingRemovals - {id}
    ensures r.touchLayers == s.touchLayers && r.layers == s.layers
    ensures r.nextLayer == s.nextLayer && r.notFound == s.notFound
  {
    s.(sublayers := s.sublayers - {id}, pendingRemovals := s.pendingRemovals - {id})
  }

  /** True when the window handles the event's touches at all. */
  predicate Handles(visible: bool, e: Event) {
    visible && e.eventType == Touches && e.allTouches.Some?
  }
}
