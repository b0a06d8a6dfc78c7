/**
  The layer test-suite scenarios replayed against the model: each method
  builds the layers and objects the scenario builds, performs the same
  mutations in the same order, and returns what the scenario observes.
  The postconditions are the values the scenario expects.
 */
module LayerScenarios {
  import opened Priority
  import opened Layers

  /** What the scenario reads back from a backing unit: start, duration,
      media-start, media-duration, priority and the active flag. */
  datatype Backing = Backing(start: nat, duration: nat, mediaStart: nat, mediaDuration: nat,
                             priority: nat, active: bool)

  function Observe(t: TrackObject): Backing
    reads t
  {
    Backing(t.start, t.duration, t.mediaStart, t.mediaDuration, t.priority, t.active)
  }

  /** One object with timing 42/51/12 in one layer whose priority goes
      0, 1, 31 and back to 0.  The object's own fields never change, and the
      backing unit follows the layer's band. */
  method LayerProperties()
    returns (layerPriority: nat, objectState: seq<(nat, nat, nat, nat)>, backing: seq<Backing>, removed: bool)
    ensures layerPriority == 0
    ensures objectState == [(42, 51, 12, 0), (42, 51, 12, 0), (42, 51, 12, 0), (42, 51, 12, 0), (42, 51, 12, 0)]
    ensures backing == [Backing(42, 51, 12, 51, 0, true),
                        Backing(42, 51, 12, 51, LayerHeight, true),
                        Backing(42, 51, 12, 51, LayerHeight * 31, true),
                        Backing(42, 51, 12, 51, 0, true)]
    ensures removed
  {
    var layer, clip, state0, state1, first := PlaceClip();
    layerPriority := 0;
    objectState := [state0, state1];
    backing := [first];
    var state, seen := Reprioritise(layer, clip, 1);
    objectState, backing := objectState + [state], backing + [seen];
    state, seen := Reprioritise(layer, clip, 31);
    objectState, backing := objectState + [state], backing + [seen];
    state, seen := Reprioritise(layer, clip, 0);
    objectState, backing := objectState + [state], backing + [seen];
    removed := layer.RemoveObject(clip);
  }

  /** The first stage of `LayerProperties`: a fresh layer of priority 0 and
      the object 42/51/12, read before and after it is added. */
  method PlaceClip()
    returns (layer: Layer, clip: TimelineObject, before: (nat, nat, nat, nat), after: (nat, nat, nat, nat),
             seen: Backing)
    ensures fresh(layer) && fresh(clip) && fresh(clip.trackObject)
    ensures layer.Valid() && layer.priority == 0 && layer.objects == [clip]
    ensures clip.start == 42 && clip.duration == 51 && clip.inPoint == 12 && clip.priority == 0
    ensures before == (42, 51, 12, 0) && after == (42, 51, 12, 0)
    ensures seen == Backing(42, 51, 12, 51, 0, true)
  {
    layer := new Layer();
    clip := new TimelineObject(Source, 42, 51, 12);
    before := (clip.start, clip.duration, clip.inPoint, clip.priority);
    var added: bool;
    ghost var transitions: seq<TimelineObject>;
    added, transitions := layer.AddObject(clip);
    after := (clip.start, clip.duration, clip.inPoint, clip.priority);
    seen := Observe(clip.trackObject);
  }

  /** One re-prioritising stage of `LayerProperties`: the layer priority is
      set to `p`, and the object and its backing unit are read back. */
  method Reprioritise(layer: Layer, clip: TimelineObject, p: nat)
    returns (state: (nat, nat, nat, nat), seen: Backing)
    requires layer.Valid() && layer.objects == [clip]
    modifies layer`priority, clip.trackObject`priority
    ensures layer.Valid() && layer.priority == p && layer.objects == [clip]
    ensures state == (clip.start, clip.duration, clip.inPoint, clip.priority)
    ensures seen == Backing(clip.start, clip.duration, clip.inPoint, clip.duration, Flatten(p, clip.priority), true)
  {
    assert layer.Projections() == {clip.trackObject};
    layer.SetPriority(p);
    state := (clip.start, clip.duration, clip.inPoint, clip.priority);
    seen := Observe(clip.trackObject);
  }

  /** A fresh layer of priority `p` holding one fresh source whose local
      priority is set to `local` before it is added; `before` is that local
      priority as read before the add. */
  method LayerWith(p: nat, local: nat) returns (layer: Layer, clip: TimelineObject, before: nat)
    ensures fresh(layer) && fresh(clip) && fresh(clip.trackObject)
    ensures layer.Valid() && layer.priority == p && layer.objects == [clip] && !layer.autoTransition
    ensures before == local && clip.priority == ClampLocal(local)
  {
    layer := new Layer();
    layer.SetPriority(p);
    clip := new TimelineObject(Source, 0, 0, 0);
    clip.SetPriority(local);
    before := clip.priority;
    var ok: bool;
    ghost var transitions: seq<TimelineObject>;
    ok, transitions := layer.AddObject(clip);
  }

  /** Layers of priority 0, 1 and 2, each holding one source; the sources
      get local priorities 0, 1 and LayerHeight + 1 before they are added. */
  method ThreeLayers()
    returns (layer1: Layer, layer2: Layer, layer3: Layer,
             clip1: TimelineObject, clip2: TimelineObject, clip3: TimelineObject, localsBefore: seq<nat>)
    ensures fresh(layer1) && fresh(layer2) && fresh(layer3)
    ensures fresh(clip1) && fresh(clip2) && fresh(clip3)
    ensures fresh(clip1.trackObject) && fresh(clip2.trackObject) && fresh(clip3.trackObject)
    ensures layer1 != layer2 && layer1 != layer3 && layer2 != layer3
    ensures layer1.Valid() && layer2.Valid() && layer3.Valid()
    ensures !layer1.autoTransition && !layer2.autoTransition && !layer3.autoTransition
    ensures layer1.priority == 0 && layer2.priority == 1 && layer3.priority == 2
    ensures layer1.objects == [clip1] && layer2.objects == [clip2] && layer3.objects == [clip3]
    ensures localsBefore == [0, 1, LayerHeight + 1]
    ensures clip1.priority == 0 && clip2.priority == 1 && clip3.priority == LayerHeight - 1
  {
    var before1, before2, before3;
    layer1, clip1, before1 := LayerWith(0, 0);
    layer2, clip2, before2 := LayerWith(1, 1);
    layer3, clip3, before3 := LayerWith(2, LayerHeight + 1);
    localsBefore := [before1, before2, before3];
  }

  /** Gives `layer` the priority `p` while two other layers look on. */
  method SetLayerPriority(layer: Layer, p: nat, other1: Layer, other2: Layer)
    requires layer != other1 && layer != other2
    requires layer.Valid() && other1.Valid() && other2.Valid()
    modifies layer`priority, layer.Projections()`priority
    ensures layer.Valid() && other1.Valid() && other2.Valid()
    ensures layer.priority == p
  {
    LayersDisjoint(layer, other1);
    LayersDisjoint(layer, other2);
    layer.SetPriority(p);
  }

  /** Two layers trade priorities through `SetPriority`.  Each keeps its
      objects and their local priorities; each object's backing priority is
      flattened against its layer's new priority and so keeps its slot
      inside the band. */
  method TradePriorities(a: Layer, b: Layer)
    requires a != b && a.Valid() && b.Valid()
    modifies a`priority, b`priority, a.Projections()`priority, b.Projections()`priority
    ensures a.Valid() && b.Valid()
    ensures a.priority == old(b.priority) && b.priority == old(a.priority)
    ensures a.objects == old(a.objects) && b.objects == old(b.objects)
    ensures forall o :: o in a.objects ==>
              o.priority == old(o.priority) && o.trackObject.priority == Flatten(a.priority, o.priority) &&
              o.trackObject.priority % LayerHeight == old(o.trackObject.priority) % LayerHeight
    ensures forall o :: o in b.objects ==>
              o.priority == old(o.priority) && o.trackObject.priority == Flatten(b.priority, o.priority) &&
              o.trackObject.priority % LayerHeight == old(o.trackObject.priority) % LayerHeight
  {
    var p, q := a.priority, b.priority;
    LayersDisjoint(a, b);
    Reband(a, q, b);
    LayersDisjoint(a, b);
    Reband(b, p, a);
  }

  /** Gives `layer` the priority `p` while another layer looks on; each
      object's backing priority keeps its slot inside the band. */
  method Reband(layer: Layer, p: nat, other: Layer)
    requires layer != other && layer.Valid() && other.Valid()
    modifies layer`priority, layer.Projections()`priority
    ensures layer.Valid() && other.Valid() && layer.priority == p
    ensures forall o :: o in layer.objects ==>
              o.trackObject.priority == Flatten(p, o.priority) &&
              o.trackObject.priority % LayerHeight == old(o.trackObject.priority) % LayerHeight
  {
    forall o | o in layer.objects
      ensures Flatten(p, o.priority) % LayerHeight == Flatten(layer.priority, o.priority) % LayerHeight
    {
      FlattenDecomposes(p, o.priority);
      FlattenDecomposes(layer.priority, o.priority);
    }
    LayersDisjoint(layer, other);
    layer.SetPriority(p);
  }

  /** Gives three one-clip layers the priorities `p1`, `p2`, `p3`, one after
      the other, and reads back the three backing priorities. */
  method Reorder(layer1: Layer, layer2: Layer, layer3: Layer,
                 clip1: TimelineObject, clip2: TimelineObject, clip3: TimelineObject,
                 p1: nat, p2: nat, p3: nat)
    returns (backing: seq<nat>)
    requires layer1 != layer2 && layer1 != layer3 && layer2 != layer3
    requires layer1.Valid() && layer2.Valid() && layer3.Valid()
    requires layer1.objects == [clip1] && layer2.objects == [clip2] && layer3.objects == [clip3]
    modifies layer1`priority, layer2`priority, layer3`priority,
             layer1.Projections()`priority, layer2.Projections()`priority, layer3.Projections()`priority
    ensures layer1.Valid() && layer2.Valid() && layer3.Valid()
    ensures layer1.priority == p1 && layer2.priority == p2 && layer3.priority == p3
    ensures backing == [Flatten(p1, clip1.priority), Flatten(p2, clip2.priority), Flatten(p3, clip3.priority)]
  {
    SetLayerPriority(layer1, p1, layer2, layer3);
    SetLayerPriority(layer2, p2, layer1, layer3);
    SetLayerPriority(layer3, p3, layer1, layer2);
    backing := [clip1.trackObject.priority, clip2.trackObject.priority, clip3.trackObject.priority];
  }

  /** Moves `clip` from `src` into `dest`, a third layer looking on. */
  method Move(clip: TimelineObject, src: Layer, dest: Layer, other: Layer)
    requires src != dest && src != other && dest != other
    requires src.Valid() && dest.Valid() && other.Valid() && clip in src.objects
    requires !dest.autoTransition
    modifies clip`layer, clip`priority, clip`trackObject, src`objects, dest`objects,
             clip.trackObject`priority
    ensures src.Valid() && dest.Valid() && other.Valid()
    ensures src.objects == Without(old(src.objects), clip)
    ensures dest.objects == old(dest.objects) + [clip]
    ensures clip.priority == ClampLocal(old(clip.priority)) && clip.trackObject == old(clip.trackObject)
  {
    LayersDisjoint(src, other);
    LayersDisjoint(dest, other);
    var ok: bool;
    ghost var transitions: seq<TimelineObject>;
    ok, transitions := clip.MoveToLayer(dest);
  }

  /** Moves the clips of the second and third one-clip layers into the
      first, and reads back the layers' sizes, the backing priorities and
      the local priorities. */
  method MoveIntoFirst(layer1: Layer, layer2: Layer, layer3: Layer,
                       clip1: TimelineObject, clip2: TimelineObject, clip3: TimelineObject)
    returns (counts: seq<nat>, backing: seq<nat>, locals: seq<nat>)
    requires layer1 != layer2 && layer1 != layer3 && layer2 != layer3
    requires layer1.Valid() && layer2.Valid() && layer3.Valid() && !layer1.autoTransition
    requires layer1.objects == [clip1] && layer2.objects == [clip2] && layer3.objects == [clip3]
    requires clip2.priority < LayerHeight && clip3.priority < LayerHeight
    modifies clip2`layer, clip2`priority, clip2`trackObject, clip3`layer, clip3`priority, clip3`trackObject,
             layer1`objects, layer2`objects, layer3`objects, clip2.trackObject`priority, clip3.trackObject`priority
    ensures layer1.Valid() && layer1.objects == [clip1, clip2, clip3]
    ensures clip2.trackObject == old(clip2.trackObject) && clip3.trackObject == old(clip3.trackObject)
    ensures counts == [3, 0, 0]
    ensures locals == [clip1.priority, clip2.priority, clip3.priority]
    ensures locals == [old(clip1.priority), old(clip2.priority), old(clip3.priority)]
    ensures backing == [Flatten(layer1.priority, clip1.priority), Flatten(layer1.priority, clip2.priority),
                        Flatten(layer1.priority, clip3.priority)]
  {
    Move(clip2, layer2, layer1, layer3);
    Move(clip3, layer3, layer1, layer2);
    counts := [|layer1.objects|, |layer2.objects|, |layer3.objects|];
    backing := [clip1.trackObject.priority, clip2.trackObject.priority, clip3.trackObject.priority];
    locals := [clip1.priority, clip2.priority, clip3.priority];
  }

  /** Writes `p` straight into the backing unit of `clip` and reads back the
      backing priority and the clip's local priority. */
  method WriteBacking(layer: Layer, clip: TimelineObject, p: nat) returns (written: nat, local: nat)
    requires layer.Valid() && clip in layer.objects && InBand(layer.priority, p)
    modifies clip.trackObject`priority, clip`priority
    ensures written == p && local == p - layer.priority * LayerHeight
  {
    var track := clip.trackObject;
    var derived := track.SetPriority(p);
    written := track.priority;
    local := clip.priority;
  }

  /** Three layers with priorities 0, 1, 2 holding objects with local
      priorities 0, 1 and LayerHeight + 1; the layers are then reordered to
      2, 0, 1; the second and third objects move into the first layer; and
      the third object's backing priority is written directly. */
  method LayerPriorities()
    returns (localsBefore: seq<nat>, locals: seq<nat>, flattened: seq<nat>,
             layerPriorities: seq<nat>, reorderedLocals: seq<nat>, reordered: seq<nat>,
             counts: seq<nat>, moved: seq<nat>, movedLocals: seq<nat>, written: nat, derivedLocal: nat)
    ensures localsBefore == [0, 1, LayerHeight + 1]
    ensures locals == [0, 1, LayerHeight - 1]
    ensures flattened == [0, LayerHeight + 1, LayerHeight * 3 - 1]
    ensures layerPriorities == [2, 0, 1] && reorderedLocals == [0, 1, LayerHeight - 1]
    ensures reordered == [2 * LayerHeight, 1, LayerHeight * 2 - 1]
    ensures counts == [3, 0, 0]
    ensures moved == [2 * LayerHeight, 2 * LayerHeight + 1, LayerHeight * 3 - 1]
    ensures movedLocals == [0, 1, LayerHeight - 1]
    ensures written == 2 * LayerHeight && derivedLocal == 0
  {
    var layer1, layer2, layer3, clip1, clip2, clip3;
    layer1, layer2, layer3, clip1, clip2, clip3, localsBefore := ThreeLayers();
    locals := [clip1.priority, clip2.priority, clip3.priority];
    flattened := [clip1.trackObject.priority, clip2.trackObject.priority, clip3.trackObject.priority];

    layerPriorities, reorderedLocals, reordered, counts, moved, movedLocals, written, derivedLocal :=
      Rearrange(layer1, layer2, layer3, clip1, clip2, clip3);
  }

  /** The second half of `LayerPriorities`, from the three one-clip layers
      with priorities 0, 1, 2 on. */
  method Rearrange(layer1: Layer, layer2: Layer, layer3: Layer,
                   clip1: TimelineObject, clip2: TimelineObject, clip3: TimelineObject)
    returns (layerPriorities: seq<nat>, reorderedLocals: seq<nat>, reordered: seq<nat>,
             counts: seq<nat>, moved: seq<nat>, movedLocals: seq<nat>, written: nat, derivedLocal: nat)
    requires layer1 != layer2 && layer1 != layer3 && layer2 != layer3
    requires layer1.Valid() && layer2.Valid() && layer3.Valid() && !layer1.autoTransition
    requires layer1.objects == [clip1] && layer2.objects == [clip2] && layer3.objects == [clip3]
    requires clip1.priority == 0 && clip2.priority == 1 && clip3.priority == LayerHeight - 1
    modifies layer1`priority, layer2`priority, layer3`priority,
             clip2`layer, clip2`priority, clip2`trackObject, clip3`layer, clip3`priority, clip3`trackObject,
             layer1`objects, layer2`objects, layer3`objects,
             clip1.trackObject`priority, clip2.trackObject`priority, clip3.trackObject`priority
    ensures layerPriorities == [2, 0, 1] && reorderedLocals == [0, 1, LayerHeight - 1]
    ensures reordered == [2 * LayerHeight, 1, LayerHeight * 2 - 1]
    ensures counts == [3, 0, 0]
    ensures moved == [2 * LayerHeight, 2 * LayerHeight + 1, LayerHeight * 3 - 1]
    ensures movedLocals == [0, 1, LayerHeight - 1]
    ensures written == 2 * LayerHeight && derivedLocal == 0
  {
    assert layer1.Projections() == {clip1.trackObject};
    assert layer2.Projections() == {clip2.trackObject};
    assert layer3.Projections() == {clip3.trackObject};
    reordered := Reorder(layer1, layer2, layer3, clip1, clip2, clip3, 2, 0, 1);
    layerPriorities := [layer1.priority, layer2.priority, layer3.priority];
    reorderedLocals := [clip1.priority, clip2.priority, clip3.priority];
    counts, moved, movedLocals := MoveIntoFirst(layer1, layer2, layer3, clip1, clip2, clip3);
    written, derivedLocal := WriteBacking(layer1, clip3, LayerHeight * 2);
  }

  /** With automatic transitions on, a source at [0, 10000) and a source at
      [5000, 15000) added to one layer: the layer then lists the two sources
      and, after them, a transition. */
  method OverlappingSources() returns (objects: seq<TimelineObject>)
    ensures |objects| == 3
    ensures objects[0].kind == Source && objects[1].kind == Source && objects[2].kind == Transition
  {
    var layer, src := AutoLayerWith(0, 10000);
    var srcbis := new TimelineObject(Source, 5000, 10000, 0);
    var ok: bool;
    ghost var transitions: seq<TimelineObject>;
    ok, transitions := layer.AddObject(srcbis);
    OneTransition(transitions, src, srcbis);
    objects := layer.objects;
  }

  /** Against a single overlapping source, exactly one transition is made. */
  lemma OneTransition(transitions: seq<TimelineObject>, src: TimelineObject, o: TimelineObject)
    requires src.kind == Source && Overlaps(src.start, src.duration, o.start, o.duration)
    requires TransitionsFor(transitions, [src], o)
    ensures |transitions| == 1 && transitions[0].kind == Transition
  {
    assert [src][..0] == [];
    assert Overlapping([src], o.start, o.duration) == [src];
  }

  /** A fresh layer with automatic transitions on, holding one fresh source
      at [start, start + duration). */
  method AutoLayerWith(start: nat, duration: nat) returns (layer: Layer, src: TimelineObject)
    ensures fresh(layer) && fresh(src)
    ensures layer.Valid() && layer.autoTransition && layer.objects == [src]
    ensures src.kind == Source && src.start == start && src.duration == duration
  {
    layer := new Layer();
    layer.SetAutoTransition(true);
    src := new TimelineObject(Source, start, duration, 0);
    var ok: bool;
    ghost var transitions: seq<TimelineObject>;
    ok, transitions := layer.AddObject(src);
  }

  /** Scanning the layer's list after `OverlappingSources` finds a transition. */
  method AutomaticTransition() returns (found: bool)
    ensures found
  {
    var objects := OverlappingSources();
    found := false;
    var i := 0;
    while i < |objects|
      invariant 0 <= i <= |objects|
      invariant found <==> exists k :: 0 <= k < i && objects[k].kind == Transition
    {
      if objects[i].kind == Transition {
        found := true;
      }
      i := i + 1;
    }
    assert objects[2].kind == Transition;
  }
}
