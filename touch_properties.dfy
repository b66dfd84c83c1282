/**
 * What the touch-layer transitions guarantee over whole batches and across both variants.
 */
module TouchProperties {
  import opened TouchModel

  /** Running two batches one after the other is running their concatenation. */
  lemma {:induction false} FoldConcat(s: Scene, a: seq<Touch>, b: seq<Touch>, template: TouchLayer)
    requires Valid(s)
    ensures Fold(s, a + b, template) == Fold(Fold(s, a, template), b, template)
    decreases |b|
  {
    if b == [] {
      assert a + b == a;
    } else {
      var front := b[..|b| - 1];
      FoldConcat(s, a, front, template);
      assert (a + b)[..|a + b| - 1] == a + front;
      assert (a + b)[|a + b| - 1] == b[|b| - 1];
    }
  }

  /**
   * The hashes that have a layer after a batch, computed from the hashes alone: Began adds the
   * hash, Ended and Cancelled take it away, Moved and Stationary leave the set alone.
   */
  function LiveKeys(keys: set<int>, ts: seq<Touch>): set<int>
    decreases |ts|
  {
    if ts == [] then keys
    else
      var before := LiveKeys(keys, ts[..|ts| - 1]);
      var t := ts[|ts| - 1];
      match t.phase
      case Began => before + {t.hash}
      case Moved => before
      case Stationary => before
      case Ended => before - {t.hash}
      case Cancelled => before - {t.hash}
  }

  /** The map's keys after a batch follow the phases of its touches and nothing else. */
  lemma {:induction false} FoldKeys(s: Scene, ts: seq<Touch>, template: TouchLayer)
    requires Valid(s)
    ensures Fold(s, ts, template).touchLayers.Keys == LiveKeys(s.touchLayers.Keys, ts)
    decreases |ts|
  {
    if ts != [] {
      FoldKeys(s, ts[..|ts| - 1], template);
    }
  }

  /**
   * Moved and Stationary touches, whatever their hashes, change no key, no layer of the tree, no
   * pending removal and no animation; they only move layers.
   */
  lemma {:induction false} MovesKeepMembership(s: Scene, ts: seq<Touch>, template: TouchLayer)
    requires Valid(s)
    requires forall i :: 0 <= i < |ts| ==> ts[i].phase == Moved || ts[i].phase == Stationary
    ensures Fold(s, ts, template).touchLayers == s.touchLayers
    ensures Fold(s, ts, template).sublayers == s.sublayers
    ensures Fold(s, ts, template).pendingRemovals == s.pendingRemovals
    ensures Fold(s, ts, template).layers.Keys == s.layers.Keys
    ensures forall id :: id in s.layers ==>
              Fold(s, ts, template).layers[id].animations == s.layers[id].animations
    decreases |ts|
  {
    if ts != [] {
      MovesKeepMembership(s, ts[..|ts| - 1], template);
    }
  }

  /**
   * A touch that begins, is held (moved or stationary) and then ends or is cancelled: its hash is
   * mapped to one fresh layer from the Began until the end, after which the hash is gone and the
   * layer, with `touchBegan` then `touchEnded`, waits in the tree for its completion block, which
   * takes it out.
   */
  lemma TouchLifecycle(s: Scene, began: Touch, held: seq<Touch>, end: Touch, template: TouchLayer)
    requires Valid(s)
    requires began.phase == Began
    requires forall i :: 0 <= i < |held| ==>
               held[i].hash == began.hash && (held[i].phase == Moved || held[i].phase == Stationary)
    requires end.hash == began.hash && (end.phase == Ended || end.phase == Cancelled)
    ensures var id := Step(s, began, template).touchLayers[began.hash];
            var s1 := Fold(s, [began] + held, template);
            var r := Fold(s, [began] + held + [end], template);
            && id !in s.sublayers
            && began.hash in s1.touchLayers && s1.touchLayers[began.hash] == id
            && began.hash !in r.touchLayers
            && id in r.sublayers && id in r.pendingRemovals
            && r.layers[id].animations == template.animations + [TouchBegan, TouchEnded]
            && id !in CompleteRemoval(r, id).sublayers
  {
    var s0 := Step(s, began, template);
    var id := s0.touchLayers[began.hash];
    assert Fold(s, [began], template) == s0 by {
      assert [began][..0] == [];
    }
    FoldConcat(s, [began], held, template);
    MovesKeepMembership(s0, held, template);
    var s1 := Fold(s, [began] + held, template);
    FoldConcat(s, [began] + held, [end], template);
    assert Fold(s1, [end], template) == Step(s1, end, template) by {
      assert [end][..0] == [];
    }
  }

  /** The hashes of a batch. */
  function HashesOf(ts: seq<Touch>): set<int> {
    set i | 0 <= i < |ts| :: ts[i].hash
  }

  lemma HashesOfSnoc(ts: seq<Touch>)
    requires ts != []
    ensures HashesOf(ts) == HashesOf(ts[..|ts| - 1]) + {ts[|ts| - 1].hash}
  {
    var front := ts[..|ts| - 1];
    forall h | h in HashesOf(ts) ensures h in HashesOf(front) + {ts[|ts| - 1].hash} {
      var i :| 0 <= i < |ts| && ts[i].hash == h;
      if i < |ts| - 1 {
        assert front[i].hash == h;
      }
    }
    forall h | h in HashesOf(front) ensures h in HashesOf(ts) {
      var i :| 0 <= i < |front| && front[i].hash == h;
      assert ts[i].hash == h;
    }
  }

  /** A Began for a new hash, last in a batch, adds one key and one layer of the tree. */
  lemma BeganLast(s: Scene, ts: seq<Touch>, template: TouchLayer)
    requires Valid(s) && ts != [] && ts[|ts| - 1].phase == Began
    requires ts[|ts| - 1].hash !in Fold(s, ts[..|ts| - 1], template).touchLayers
    ensures var before := Fold(s, ts[..|ts| - 1], template);
            var r := Fold(s, ts, template);
            && r.touchLayers.Keys == before.touchLayers.Keys + {ts[|ts| - 1].hash}
            && |r.touchLayers| == |before.touchLayers| + 1
            && |r.sublayers| == |before.sublayers| + 1
  {
    var before := Fold(s, ts[..|ts| - 1], template);
    var t := ts[|ts| - 1];
    var r := AddTouchLayerFor(before, t, template);
    assert Fold(s, ts, template) == r;
    assert r.sublayers == before.sublayers + {r.touchLayers[t.hash]};
  }

  /**
   * A batch of N Began touches with distinct hashes that have no layer yet puts exactly N new
   * layers into the tree and N new keys into the map.
   */
  lemma {:induction false} DistinctBeginsAddKeys(s: Scene, ts: seq<Touch>, template: TouchLayer)
    requires Valid(s)
    requires forall i :: 0 <= i < |ts| ==> ts[i].phase == Began && ts[i].hash !in s.touchLayers
    requires forall i, j :: 0 <= i < j < |ts| ==> ts[i].hash != ts[j].hash
    ensures Fold(s, ts, template).touchLayers.Keys == s.touchLayers.Keys + HashesOf(ts)
    ensures |Fold(s, ts, template).touchLayers| == |s.touchLayers| + |ts|
    decreases |ts|
  {
    if ts != [] {
      var front := ts[..|ts| - 1];
      var t := ts[|ts| - 1];
      DistinctBeginsAddKeys(s, front, template);
      var before := Fold(s, front, template);
      NewHashNotInFront(ts);
      HashesOfSnoc(ts);
      BeganLast(s, ts, template);
      var r := Fold(s, ts, template);
      UnionStep(s.touchLayers.Keys, before.touchLayers.Keys, r.touchLayers.Keys,
                HashesOf(front), HashesOf(ts), t.hash);
    }
  }

  /** ... and every one of them adds a layer to the tree. */
  lemma {:induction false} DistinctBeginsAddLayers(s: Scene, ts: seq<Touch>, template: TouchLayer)
    requires Valid(s)
    requires forall i :: 0 <= i < |ts| ==> ts[i].phase == Began && ts[i].hash !in s.touchLayers
    requires forall i, j :: 0 <= i < j < |ts| ==> ts[i].hash != ts[j].hash
    ensures |Fold(s, ts, template).sublayers| == |s.sublayers| + |ts|
    decreases |ts|
  {
    if ts != [] {
      var front := ts[..|ts| - 1];
      DistinctBeginsAddLayers(s, front, template);
      DistinctBeginsAddKeys(s, front, template);
      NewHashNotInFront(ts);
      BeganLast(s, ts, template);
    }
  }

  /** The last hash of a batch whose hashes are distinct is not among the others. */
  lemma NewHashNotInFront(ts: seq<Touch>)
    requires ts != []
    requires forall i, j :: 0 <= i < j < |ts| ==> ts[i].hash != ts[j].hash
    ensures ts[|ts| - 1].hash !in HashesOf(ts[..|ts| - 1])
  {
    var front := ts[..|ts| - 1];
    forall i | 0 <= i < |front| ensures front[i].hash != ts[|ts| - 1].hash {
      assert front[i] == ts[i];
    }
  }

  lemma UnionStep(k0: set<int>, kb: set<int>, kr: set<int>, hf: set<int>, ht: set<int>, h: int)
    requires kb == k0 + hf && kr == kb + {h} && ht == hf + {h}
    ensures kr == k0 + ht
  {
  }

  /** An orphaned layer is not reached from any key. */
  lemma NotMapped(s: Scene, id: LayerId)
    requires Orphaned(s, id)
    ensures forall h :: h in s.touchLayers ==> s.touchLayers[h] != id
  {
    forall h | h in s.touchLayers ensures s.touchLayers[h] != id {
      assert s.touchLayers[h] in MappedLayers(s);
    }
  }

  /** An orphaned layer stays orphaned through every kind of touch. */
  lemma StepKeepsOrphan(s: Scene, id: LayerId, t: Touch, template: TouchLayer)
    requires Valid(s) && Orphaned(s, id)
    ensures Orphaned(Step(s, t, template), id)
  {
    NotMapped(s, id);
    var r := Step(s, t, template);
    match t.phase {
      case Began =>
        forall h | h in r.touchLayers ensures r.touchLayers[h] != id {
          if h != t.hash {
            assert r.touchLayers[h] == s.touchLayers[h];
          }
        }
      case Moved =>
      case Stationary =>
      case Ended =>
      case Cancelled =>
    }
  }

  /**
   * An orphaned layer (in the tree, unmapped, with no completion block pending) stays so through
   * any batch, and neither hiding nor a completion block removes it: nothing ever takes it out
   * of the tree.
   */
  lemma {:induction false} OrphanSurvives(s: Scene, id: LayerId, ts: seq<Touch>, template: TouchLayer)
    requires Valid(s) && Orphaned(s, id)
    ensures Orphaned(Fold(s, ts, template), id)
    ensures Orphaned(RemoveAllTouchLayers(s), id)
    ensures forall p :: p in s.pendingRemovals ==> Orphaned(CompleteRemoval(s, p), id)
    decreases |ts|
  {
    if ts != [] {
      OrphanSurvives(s, id, ts[..|ts| - 1], template);
      StepKeepsOrphan(Fold(s, ts[..|ts| - 1], template), id, ts[|ts| - 1], template);
    }
  }

  /**
   * A Began for a hash that already has a layer replaces the map entry, and the layer it
   * replaces is left in the tree for good: no later batch, hide or completion block removes it.
   */
  lemma DuplicateBeganLeaks(s: Scene, t: Touch, ts: seq<Touch>, template: TouchLayer)
    requires Valid(s) && t.phase == Began && t.hash in s.touchLayers
    ensures var r := Fold(Step(s, t, template), ts, template);
            && Orphaned(r, s.touchLayers[t.hash])
            && Orphaned(RemoveAllTouchLayers(r), s.touchLayers[t.hash])
  {
    var s1 := Step(s, t, template);
    OrphanSurvives(s1, s.touchLayers[t.hash], ts, template);
    OrphanSurvives(Fold(s1, ts, template), s.touchLayers[t.hash], [], template);
  }

  /** Hiding twice is hiding once: the second drain finds an empty map. */
  lemma RemoveAllTwice(s: Scene)
    requires Valid(s)
    ensures RemoveAllTouchLayers(RemoveAllTouchLayers(s)) == RemoveAllTouchLayers(s)
  {
    var r := RemoveAllTouchLayers(s);
    var none: set<LayerId> := {};
    assert MappedLayers(r) == none;
    assert r.pendingRemovals + none == r.pendingRemovals;
    assert AttachAll(r.layers, none, TouchEnded) == r.layers;
  }

  /**
   * Two scenes that agree on everything except the styling of their layers (line width, opacity,
   * transform): the map, the tree, the pending removals, the positions and the animations.
   */
  ghost predicate SameLayout(x: Scene, y: Scene) {
    && x.touchLayers == y.touchLayers
    && x.sublayers == y.sublayers
    && x.pendingRemovals == y.pendingRemovals
    && x.nextLayer == y.nextLayer
    && x.notFound == y.notFound
    && x.layers.Keys == y.layers.Keys
    && (forall id :: id in x.layers ==>
          x.layers[id].position == y.layers[id].position &&
          x.layers[id].animations == y.layers[id].animations)
  }

  lemma StepSameLayout(x: Scene, y: Scene, t: Touch, a: TouchLayer, b: TouchLayer)
    requires Valid(x) && Valid(y) && SameLayout(x, y) && a.animations == b.animations
    ensures SameLayout(Step(x, t, a), Step(y, t, b))
  {
    match t.phase {
      case Began => AddSameLayout(x, y, t, a, b);
      case Moved => MoveSameLayout(x, y, t);
      case Stationary =>
      case Ended => RemoveForSameLayout(x, y, t);
      case Cancelled => RemoveForSameLayout(x, y, t);
    }
  }

  /** Both layouts store the same fresh id under the hash, at the same place, with `touchBegan`. */
  lemma AddSameLayout(x: Scene, y: Scene, t: Touch, a: TouchLayer, b: TouchLayer)
    requires Valid(x) && Valid(y) && SameLayout(x, y) && a.animations == b.animations
    ensures SameLayout(AddTouchLayerFor(x, t, a), AddTouchLayerFor(y, t, b))
  {
    var rx := AddTouchLayerFor(x, t, a);
    var ry := AddTouchLayerFor(y, t, b);
    forall h | h in rx.touchLayers ensures rx.touchLayers[h] == ry.touchLayers[h] {
      if h != t.hash {
        assert rx.touchLayers[h] == x.touchLayers[h];
      }
    }
    assert rx.touchLayers == ry.touchLayers;
    forall id | id in rx.layers
      ensures rx.layers[id].position == ry.layers[id].position
      ensures rx.layers[id].animations == ry.layers[id].animations
    {
      if id in x.layers {
        assert rx.layers[id] == x.layers[id] && ry.layers[id] == y.layers[id];
      }
    }
  }

  lemma MoveSameLayout(x: Scene, y: Scene, t: Touch)
    requires Valid(x) && Valid(y) && SameLayout(x, y)
    ensures SameLayout(MoveTouchLayerFor(x, t), MoveTouchLayerFor(y, t))
  {
    var rx := MoveTouchLayerFor(x, t);
    var ry := MoveTouchLayerFor(y, t);
    forall id | id in rx.layers
      ensures rx.layers[id].position == ry.layers[id].position
      ensures rx.layers[id].animations == ry.layers[id].animations
    {
      if t.hash !in x.touchLayers || id != x.touchLayers[t.hash] {
        assert rx.layers[id] == x.layers[id] && ry.layers[id] == y.layers[id];
      }
    }
  }

  lemma RemoveForSameLayout(x: Scene, y: Scene, t: Touch)
    requires Valid(x) && Valid(y) && SameLayout(x, y)
    ensures SameLayout(RemoveTouchLayerFor(x, t), RemoveTouchLayerFor(y, t))
  {
    var rx := RemoveTouchLayerFor(x, t);
    var ry := RemoveTouchLayerFor(y, t);
    assert rx.touchLayers == ry.touchLayers;
    forall id | id in rx.layers
      ensures rx.layers[id].position == ry.layers[id].position
      ensures rx.layers[id].animations == ry.layers[id].animations
    {
      if t.hash !in x.touchLayers || id != x.touchLayers[t.hash] {
        assert rx.layers[id] == x.layers[id] && ry.layers[id] == y.layers[id];
      }
    }
  }

  /**
   * Whatever the styling of a fresh layer, a batch gives the same map, tree, pending removals,
   * positions and animations: the two variants, which differ in that styling only, agree.
   */
  lemma {:induction false} FoldSameLayout(x: Scene, y: Scene, ts: seq<Touch>, a: TouchLayer, b: TouchLayer)
    requires Valid(x) && Valid(y) && SameLayout(x, y) && a.animations == b.animations
    ensures SameLayout(Fold(x, ts, a), Fold(y, ts, b))
    decreases |ts|
  {
    if ts != [] {
      FoldSameLayout(x, y, ts[..|ts| - 1], a, b);
      StepSameLayout(Fold(x, ts[..|ts| - 1], a), Fold(y, ts[..|ts| - 1], b), ts[|ts| - 1], a, b);
    }
  }

  lemma RemoveAllSameLayout(x: Scene, y: Scene)
    requires Valid(x) && Valid(y) && SameLayout(x, y)
    ensures SameLayout(RemoveAllTouchLayers(x), RemoveAllTouchLayers(y))
  {
    assert MappedLayers(x) == MappedLayers(y);
  }

  lemma CompleteSameLayout(x: Scene, y: Scene, id: LayerId)
    requires Valid(x) && Valid(y) && SameLayout(x, y) && id in x.pendingRemovals
    ensures SameLayout(CompleteRemoval(x, id), CompleteRemoval(y, id))
  {
  }

  /**
   * A tap at (10, 10) moved to (20, 20) and lifted, one batch each, starting from an empty
   * window: one layer appears with `touchBegan`, moves without a new animation, then leaves the
   * map with `touchEnded` and stays in the tree until its completion block runs. A Moved for a
   * hash nobody has is ignored.
   */
  lemma TapScenario(template: TouchLayer)
    requires template.animations == []
    ensures var b := Fold(EmptyScene, [Touch(1, Began, Point(10.0, 10.0))], template);
            var m := Fold(b, [Touch(1, Moved, Point(20.0, 20.0))], template);
            var e := Fold(m, [Touch(1, Ended, Point(20.0, 20.0))], template);
            && b.touchLayers == map[1 := 0] && b.sublayers == {0}
            && b.layers[0].position == Point(10.0, 10.0) && b.layers[0].animations == [TouchBegan]
            && m.touchLayers == map[1 := 0] && m.sublayers == {0}
            && m.layers[0].position == Point(20.0, 20.0) && m.layers[0].animations == [TouchBegan]
            && e.touchLayers == map[] && e.sublayers == {0} && e.pendingRemovals == {0}
            && e.layers[0].animations == [TouchBegan, TouchEnded]
            && CompleteRemoval(e, 0).sublayers == {}
            && Fold(EmptyScene, [Touch(5, Moved, Point(0.0, 0.0))], template) == EmptyScene
  {
    var one := [Touch(1, Began, Point(10.0, 10.0))];
    assert one[..0] == [];
    var b := Fold(EmptyScene, one, template);
    assert b == AddTouchLayerFor(EmptyScene, one[0], template);
    var mv := [Touch(1, Moved, Point(20.0, 20.0))];
    assert mv[..0] == [];
    var up := [Touch(1, Ended, Point(20.0, 20.0))];
    assert up[..0] == [];
    var stray := [Touch(5, Moved, Point(0.0, 0.0))];
    assert stray[..0] == [];
  }
}
