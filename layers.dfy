/**
  Timeline layers, the timeline objects they hold and the track objects that
  project those objects onto a track.  The object invariant of a layer is the
  flattening rule: the backing priority of every track object equals
  `Flatten(layer.priority, owner.priority)`, and its timing mirrors its owner.
 */
module Layers {
  import opened Wrappers
  import opened Priority

  /** A timeline object is a clip-like source or a synthetic transition. */
  datatype Kind = Source | Transition

  function Max(a: nat, b: nat): nat { if a < b then b else a }
  function Min(a: nat, b: nat): nat { if a < b then a else b }

  /** `[s1, s1 + d1)` and `[s2, s2 + d2)` share at least one instant. */
  predicate Overlaps(s1: nat, d1: nat, s2: nat, d2: nat)
  {
    Max(s1, s2) < Min(s1 + d1, s2 + d2)
  }

  /** Overlap is symmetric and means that each interval starts before the
      other one ends. */
  lemma OverlapsIff(s1: nat, d1: nat, s2: nat, d2: nat)
    ensures Overlaps(s1, d1, s2, d2) <==> s1 < s2 + d2 && s2 < s1 + d1 && 0 < d1 && 0 < d2
    ensures Overlaps(s1, d1, s2, d2) <==> Overlaps(s2, d2, s1, d1)
  {
  }

  predicate Distinct<T(==)>(s: seq<T>)
  {
    forall i, j :: 0 <= i < j < |s| ==> s[i] != s[j]
  }

  /** `s` with every occurrence of `x` taken out, order kept. */
  function Without<T(==)>(s: seq<T>, x: T): (r: seq<T>)
    ensures forall i :: 0 <= i < |r| ==> r[i] in s && r[i] != x
    ensures forall i :: 0 <= i < |s| && s[i] != x ==> s[i] in r
    ensures |r| <= |s|
  {
    if s == [] then []
    else (if s[0] == x then [] else [s[0]]) + Without(s[1..], x)
  }

  /** Taking one element out of a sequence without repetitions keeps it
      without repetitions and shortens it by exactly one. */
  lemma {:induction false} WithoutDistinct<T>(s: seq<T>, x: T)
    requires Distinct(s)
    ensures Distinct(Without(s, x))
    ensures x in s ==> |Without(s, x)| == |s| - 1
    ensures x !in s ==> Without(s, x) == s
  {
    if s != [] {
      assert Distinct(s[1..]);
      WithoutDistinct(s[1..], x);
      var rest := Without(s[1..], x);
      if s[0] != x {
        assert s[0] !in s[1..];
        assert s[0] !in rest;
        var r := [s[0]] + rest;
        forall i, j | 0 <= i < j < |r| ensures r[i] != r[j] {
          if i == 0 { assert r[j] in rest; }
        }
      } else {
        assert x !in s[1..];
      }
    }
  }

  /** The per-track projection of a timeline object: the backing unit's
      priority, timing and activity. */
  class TrackObject {
    const owner: TimelineObject
    var priority: nat
    var start: nat
    var duration: nat
    var mediaStart: nat
    var mediaDuration: nat
    var active: bool

    /** A fresh projection copies its owner's timing and is active. */
    constructor (owner: TimelineObject)
      ensures this.owner == owner && priority == 0
      ensures TimingMirrors()
    {
      this.owner := owner;
      priority := 0;
      start := owner.start;
      duration := owner.duration;
      mediaStart := owner.inPoint;
      mediaDuration := owner.duration;
      active := true;
    }

    /** start = start, duration = duration, media-start = in-point,
        media-duration = duration, active. */
    ghost predicate TimingMirrors()
      reads this, owner
    {
      start == owner.start && duration == owner.duration &&
      mediaStart == owner.inPoint && mediaDuration == owner.duration && active
    }

    /** Writing the backing priority directly.  When the owner sits in a
        layer and the value falls into that layer's band, the owner's local
        priority is back-derived from it; a value outside the band is
        refused.  A projection whose owner is in no layer just stores it. */
    method SetPriority(p: nat) returns (derived: bool)
      requires owner.layer != null ==> owner.layer.Valid() && owner in owner.layer.objects
      modifies this`priority, owner`priority
      ensures owner.layer != null ==> owner.layer.Valid()
      ensures derived <==> owner.layer != null && owner.trackObject == this && InBand(owner.layer.priority, p)
      ensures derived ==> priority == p && owner.priority == p - owner.layer.priority * LayerHeight
      ensures derived ==> BackDerive(owner.layer.priority, p) == Some(owner.priority)
      ensures !derived && owner.layer != null && owner.trackObject == this ==>
                priority == old(priority) && owner.priority == old(owner.priority)
      ensures !(owner.layer != null && owner.trackObject == this) ==>
                priority == p && owner.priority == old(owner.priority)
    {
      var l := owner.layer;
      if l != null && owner.trackObject == this {
        if InBand(l.priority, p) {
          owner.priority := p - l.priority * LayerHeight;
          priority := p;
          derived := true;
        } else {
          derived := false;
        }
      } else {
        if l != null {
          assert forall o :: o in l.objects ==> o.trackObject != this;
        }
        priority := p;
        derived := false;
      }
    }
  }

  /** A temporal entity of a layer: start, duration, in-point and a local
      priority inside its layer. */
  class TimelineObject {
    const kind: Kind
    var start: nat
    var duration: nat
    var inPoint: nat
    var priority: nat
    var layer: Layer?
    var trackObject: TrackObject?

    /** A new object belongs to no layer, has no projection and has local
        priority 0. */
    constructor (kind: Kind, start: nat, duration: nat, inPoint: nat)
      ensures this.kind == kind && this.start == start && this.duration == duration
      ensures this.inPoint == inPoint && priority == 0
      ensures layer == null && trackObject == null
    {
      this.kind := kind;
      this.start := start;
      this.duration := duration;
      this.inPoint := inPoint;
      priority := 0;
      layer := null;
      trackObject := null;
    }

    ghost function ProjectionSet(): set<TrackObject>
      reads this
    {
      if trackObject == null then {} else {trackObject}
    }

    ghost function LayerSet(): set<Layer>
      reads this
    {
      if layer == null then {} else {layer}
    }

    /** Writing the local priority.  It is stored as given; when the object
        sits in a layer its projection is re-flattened against that layer. */
    method SetPriority(p: nat)
      requires layer != null ==> layer.Valid() && this in layer.objects
      modifies this`priority, ProjectionSet()`priority
      ensures priority == p
      ensures layer != null ==> layer.Valid()
      ensures layer != null ==> trackObject.priority == Flatten(layer.priority, p)
      ensures layer == null && trackObject != null ==> trackObject.priority == old(trackObject.priority)
    {
      priority := p;
      if layer != null {
        trackObject.priority := Flatten(layer.priority, p);
      }
    }

    /** Writing start, duration and in-point; the projection's timing follows. */
    method SetTiming(start: nat, duration: nat, inPoint: nat)
      requires layer != null ==> layer.Valid() && this in layer.objects
      modifies this`start, this`duration, this`inPoint, ProjectionSet()`start,
               ProjectionSet()`duration, ProjectionSet()`mediaStart, ProjectionSet()`mediaDuration
      ensures this.start == start && this.duration == duration && this.inPoint == inPoint
      ensures layer != null ==> layer.Valid()
      ensures layer != null ==> trackObject.priority == old(trackObject.priority)
    {
      this.start, this.duration, this.inPoint := start, duration, inPoint;
      if layer != null {
        var t := trackObject;
        t.start, t.duration, t.mediaStart, t.mediaDuration := start, duration, inPoint, duration;
      }
    }

    /** Moving to `dest`: an object in no layer is simply added; otherwise it
        leaves its layer and is appended to `dest`, keeping its projection,
        which is re-flattened against `dest`. */
    method MoveToLayer(dest: Layer) returns (ok: bool, ghost transitions: seq<TimelineObject>)
      requires dest.Valid()
      requires layer != null ==> layer.Valid() && this in layer.objects
      modifies this`layer, this`priority, this`trackObject, dest`objects,
               LayerSet()`objects, ProjectionSet()`priority
      ensures ok && dest.Valid() && layer == dest
      ensures priority == ClampLocal(old(priority))
      ensures trackObject != null && trackObject.priority == Flatten(dest.priority, old(priority))
      ensures old(layer) != null ==> trackObject == old(trackObject)
      ensures old(layer) != null && old(layer) != dest ==>
                old(layer).Valid() && old(layer).objects == Without(old(layer.objects), this)
      ensures var remaining := if old(layer) == dest then Without(old(dest.objects), this) else old(dest.objects);
              dest.objects == remaining + [this] + transitions &&
              (dest.autoTransition && kind == Source ==> TransitionsFor(transitions, remaining, this)) &&
              (!(dest.autoTransition && kind == Source) ==> transitions == [])
    {
      var src := layer;
      if src == null {
        ok, transitions := dest.AddObject(this);
        return;
      }
      src.Detach(this);
      assert this !in src.objects;
      if src != dest {
        assert this !in dest.objects;
      }
      var remaining := dest.objects;
      dest.Insert(this);
      assert src != dest ==> src.Valid();
      transitions := [];
      if dest.autoTransition && kind == Source {
        transitions := dest.AddTransitions(this, remaining);
      }
      ok := true;
    }
  }

  /** An ordered, priority-tagged container of timeline objects. */
  class Layer {
    var priority: nat
    var autoTransition: bool
    var objects: seq<TimelineObject>

    ghost function Projections(): set<TrackObject>
      reads this, objects
    {
      set o | o in objects && o.trackObject != null :: o.trackObject
    }

    ghost function Repr(): set<object>
      reads this, objects
    {
      {this} + (set o | o in objects :: o as object) + (set t | t in Projections() :: t as object)
    }

    /** Each listed object is listed once, names this layer, and owns a
        projection whose backing priority is the flattened priority. */
    ghost predicate Valid()
      reads this, objects, Projections()
    {
      Distinct(objects) &&
      forall o :: o in objects ==>
        o.layer == this && o.trackObject != null && o.trackObject.owner == o &&
        o.trackObject.priority == Flatten(priority, o.priority) &&
        o.trackObject.TimingMirrors()
    }

    /** A new layer has priority 0, no objects and no automatic transitions. */
    constructor ()
      ensures Valid() && priority == 0 && objects == [] && !autoTransition
    {
      priority := 0;
      autoTransition := false;
      objects := [];
    }

    method SetAutoTransition(enabled: bool)
      modifies this`autoTransition
      ensures autoTransition == enabled
    {
      autoTransition := enabled;
    }

    /** Writing the layer priority re-flattens every owned object's
        projection; local priorities and membership are untouched. */
    method SetPriority(p: nat)
      requires Valid()
      modifies this`priority, Projections()`priority
      ensures Valid() && priority == p
      ensures forall o :: o in objects ==> o.trackObject.priority == Flatten(p, o.priority)
    {
      priority := p;
      var i := 0;
      while i < |objects|
        invariant 0 <= i <= |objects| && priority == p
        invariant forall o :: o in objects ==>
                    o.layer == this && o.trackObject != null && o.trackObject.owner == o
        invariant forall k :: 0 <= k < i ==>
                    objects[k].trackObject.priority == Flatten(p, objects[k].priority)
        invariant forall k :: i <= k < |objects| ==>
                    objects[k].trackObject.priority == old(objects[k].trackObject.priority)
      {
        objects[i].trackObject.priority := Flatten(p, objects[i].priority);
        i := i + 1;
      }
    }

    /** Appends an object that has a projection but no layer: its local
        priority is clamped into the band and written back, and the
        projection is flattened against this layer. */
    method Insert(o: TimelineObject)
      requires Valid()
      requires o.layer == null && o.trackObject != null && o.trackObject.owner == o
      requires o.trackObject.TimingMirrors()
      modifies this`objects, o`priority, o`layer, o.trackObject`priority
      ensures Valid() && objects == old(objects) + [o]
      ensures o.layer == this && o.priority == ClampLocal(old(o.priority))
      ensures o.trackObject.priority == Flatten(priority, old(o.priority))
    {
      assert o !in objects;
      o.priority := ClampLocal(o.priority);
      o.layer := this;
      o.trackObject.priority := Flatten(priority, o.priority);
      objects := objects + [o];
    }

    /** Takes `o` out of the list and clears its layer; its projection stays. */
    method Detach(o: TimelineObject)
      requires Valid()
      modifies this`objects, o`layer
      ensures Valid() && objects == Without(old(objects), o) && o.layer == null
    {
      WithoutDistinct(objects, o);
      objects := Without(objects, o);
      o.layer := null;
    }

    /** Adding an object.  Fails, changing nothing, when the object already
        belongs to a layer.  Otherwise the object gets a fresh projection and
        is appended; with automatic transitions on, one transition per
        existing source it overlaps is appended after it. */
    method AddObject(o: TimelineObject) returns (ok: bool, ghost transitions: seq<TimelineObject>)
      requires Valid()
      modifies this`objects, o`priority, o`layer, o`trackObject
      ensures Valid()
      ensures ok <==> old(o.layer) == null
      ensures !ok ==> objects == old(objects) && o.priority == old(o.priority)
      ensures !ok ==> o.layer == old(o.layer) && o.trackObject == old(o.trackObject)
      ensures ok ==> o.layer == this && o.priority == ClampLocal(old(o.priority))
      ensures ok ==> o.trackObject != null && fresh(o.trackObject)
      ensures ok ==> o.trackObject.priority == Flatten(priority, old(o.priority))
      ensures ok ==> o.trackObject.TimingMirrors()
      ensures ok ==> objects == old(objects) + [o] + transitions
      ensures !(ok && autoTransition && o.kind == Source) ==> transitions == []
      ensures ok && autoTransition && o.kind == Source ==>
                TransitionsFor(transitions, old(objects), o)
      ensures forall t :: t in transitions ==> fresh(t)
    {
      transitions := [];
      if o.layer != null {
        return false, transitions;
      }
      var existing := objects;
      var t := new TrackObject(o);
      o.trackObject := t;
      Insert(o);
      if autoTransition && o.kind == Source {
        transitions := AddTransitions(o, existing);
      }
      ok := true;
    }

    /** Removing an object.  Fails, changing nothing, unless the object
        belongs to this layer; otherwise it leaves the list and its
        projection is dropped. */
    method RemoveObject(o: TimelineObject) returns (ok: bool)
      requires Valid()
      modifies this`objects, o`layer, o`trackObject
      ensures Valid()
      ensures ok <==> old(o.layer) == this
      ensures !ok ==> objects == old(objects)
      ensures !ok ==> o.layer == old(o.layer) && o.trackObject == old(o.trackObject)
      ensures ok ==> objects == Without(old(objects), o) && o.layer == null && o.trackObject == null
    {
      if o.layer != this {
        return false;
      }
      Detach(o);
      o.trackObject := null;
      ok := true;
    }

    /** For every source among `candidates` that overlaps `o`, in order,
        appends a fresh transition spanning the intersection. */
    method AddTransitions(o: TimelineObject, candidates: seq<TimelineObject>)
      returns (ghost created: seq<TimelineObject>)
      requires Valid()
      modifies this`objects
      ensures Valid() && objects == old(objects) + created
      ensures TransitionsFor(created, candidates, o)
      ensures forall t :: t in created ==> fresh(t)
    {
      created := [];
      var i := 0;
      while i < |candidates|
        invariant 0 <= i <= |candidates|
        invariant Valid() && objects == old(objects) + created
        invariant TransitionsFor(created, candidates[..i], o)
        invariant forall t :: t in created ==> fresh(t)
      {
        var c := candidates[i];
        if c.kind == Source && Overlaps(c.start, c.duration, o.start, o.duration) {
          var t := AppendTransition(c, o);
          TransitionsForExtend(created, candidates, i, o, t);
          created := created + [t];
        } else {
          TransitionsForSkip(created, candidates, i, o);
        }
        i := i + 1;
      }
      assert candidates[..i] == candidates;
    }

    /** Appends a fresh transition spanning the intersection of `c` and `o`. */
    method AppendTransition(c: TimelineObject, o: TimelineObject) returns (t: TimelineObject)
      requires Valid() && Overlaps(c.start, c.duration, o.start, o.duration)
      modifies this`objects
      ensures Valid() && objects == old(objects) + [t]
      ensures fresh(t) && Bridges(t, c, o)
    {
      var s := Max(c.start, o.start);
      t := new TimelineObject(Transition, s, Min(c.start + c.duration, o.start + o.duration) - s, 0);
      var p := new TrackObject(t);
      t.trackObject := p;
      Insert(t);
    }
  }

  /** The sources among `candidates` whose interval overlaps `[start, start + duration)`, in order. */
  ghost function Overlapping(candidates: seq<TimelineObject>, start: nat, duration: nat): (r: seq<TimelineObject>)
    reads candidates
    ensures forall k :: 0 <= k < |r| ==> r[k] in candidates && r[k].kind == Source &&
                                         Overlaps(r[k].start, r[k].duration, start, duration)
  {
    if candidates == [] then []
    else
      var rest := Overlapping(candidates[..|candidates| - 1], start, duration);
      var c := candidates[|candidates| - 1];
      if c.kind == Source && Overlaps(c.start, c.duration, start, duration) then rest + [c] else rest
  }

  /** Every overlapping source among the candidates is selected. */
  lemma {:induction false} OverlappingComplete(candidates: seq<TimelineObject>, start: nat, duration: nat,
                                               c: TimelineObject)
    requires c in candidates && c.kind == Source && Overlaps(c.start, c.duration, start, duration)
    ensures c in Overlapping(candidates, start, duration)
    decreases |candidates|
  {
    var init := candidates[..|candidates| - 1];
    if c != candidates[|candidates| - 1] {
      assert candidates == init + [candidates[|candidates| - 1]];
      assert c in init;
      OverlappingComplete(init, start, duration, c);
    }
  }

  /** Two different valid layers share no object: an object names the one
      layer it is in, and a projection names the one object it belongs to. */
  lemma LayersDisjoint(a: Layer, b: Layer)
    requires a != b && a.Valid() && b.Valid()
    ensures a.Repr() !! b.Repr()
  {
  }

  /** `created` holds one fresh transition per source of `candidates` that
      overlaps `o`, in the same order, each spanning the intersection. */
  ghost predicate TransitionsFor(created: seq<TimelineObject>, candidates: seq<TimelineObject>, o: TimelineObject)
    reads created, candidates, o
  {
    var pairs := Overlapping(candidates, o.start, o.duration);
    |created| == |pairs| &&
    forall k :: 0 <= k < |created| ==> Bridges(created[k], pairs[k], o)
  }

  /** A candidate that is an overlapping source adds one bridging transition. */
  lemma TransitionsForExtend(created: seq<TimelineObject>, candidates: seq<TimelineObject>, i: nat,
                             o: TimelineObject, t: TimelineObject)
    requires i < |candidates| && TransitionsFor(created, candidates[..i], o)
    requires Bridges(t, candidates[i], o)
    requires candidates[i].kind == Source && Overlaps(candidates[i].start, candidates[i].duration, o.start, o.duration)
    ensures TransitionsFor(created + [t], candidates[..i + 1], o)
  {
    assert candidates[..i + 1][..i] == candidates[..i];
  }

  /** A candidate that is not an overlapping source adds no transition. */
  lemma TransitionsForSkip(created: seq<TimelineObject>, candidates: seq<TimelineObject>, i: nat, o: TimelineObject)
    requires i < |candidates| && TransitionsFor(created, candidates[..i], o)
    requires !(candidates[i].kind == Source &&
               Overlaps(candidates[i].start, candidates[i].duration, o.start, o.duration))
    ensures TransitionsFor(created, candidates[..i + 1], o)
  {
    assert candidates[..i + 1][..i] == candidates[..i];
  }

  /** `t` is a transition spanning exactly the intersection of `a` and `b`. */
  ghost predicate Bridges(t: TimelineObject, a: TimelineObject, b: TimelineObject)
    reads t, a, b
  {
    t.kind == Transition &&
    t.start == Max(a.start, b.start) &&
    t.start + t.duration == Min(a.start + a.duration, b.start + b.duration) &&
    t.duration > 0
  }
}
