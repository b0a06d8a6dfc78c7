# Layer priorities and effect-property keys, modelled in Dafny

This project models two pieces of the GStreamer Editing Services.

**Layer-priority flattening.** A timeline holds layers. Each layer has a
priority and an ordered list of timeline objects, and each object has a
local priority. Every object placed in a layer is projected onto a track by a
track object, whose backing unit carries one flat priority:
`layer.priority * LAYER_HEIGHT + local`, with `LAYER_HEIGHT = 1000` and the
local priority clamped into `[0, LAYER_HEIGHT)`. The flat priority is recomputed
when:

- an object joins a layer (the clamped local priority is written back);
- a layer's priority changes;
- an object moves to another layer.

Writing a track object's priority directly back-derives the owner's local
priority. With automatic transitions on, adding a source that overlaps an
earlier source appends a transition object to the layer.

This part is modelled with classes:

- `Layers.Layer`, whose invariant `Valid()` is the flattening rule;
- `Layers.TimelineObject`;
- `Layers.TrackObject`.

The behaviour is pinned down only by the assertions of
`tests/check/ges/layer.c`. The layer, timeline-object and track-object
implementations are not part of this model, so the classes are written
against those assertions. The three test functions are replayed as methods
(`LayerScenarios`) whose postconditions are the values the test expects.

**Effect-property keys.** A track effect builds a hash table holding:

- every writable property of every child element whose factory class has a
  '/'-separated category that is exactly `Effect`;
- each such property mapped to the child that owns it;
- keys compared with `pspec_equal` and hashed with `pspec_hash`.

The model has these parts:

- `PspecKey`: the key equality, written with C `strcmp`; the hash loop as
  written (shift, subtract, add, in unsigned 32-bit arithmetic); the proof
  that it is the 31-times polynomial modulo 2^32; and the proof that the hash
  agrees with the equality.
- `TrackEffect`: the category split, the writable filter, the table as a fold
  over the children, and the nested-loop method that builds it.

Files:

- `wrappers.dfy`: `Option`.
- `priority.dfy`: the flattening rule.
- `layers.dfy`: the classes.
- `scenarios.dfy`: the test replays.
- `pspec.dfy`: key equality and hash.
- `track_effect.dfy`: the property table.

## Model

| member | source | states |
|---|---|---|
| Priority.ClampLocal | tests/check/ges/layer.c:228-234 | the stored local priority is below LAYER_HEIGHT, equal to the given one when that fits, and LAYER_HEIGHT - 1 otherwise |
| Priority.Flatten | tests/check/ges/layer.c:215-234 | the flattened priority lies inside the band [L*1000, (L+1)*1000) of its layer |
| Priority.FlattenCases | tests/check/ges/layer.c:215-234 | in-range local priorities are added to the layer base (0, 1001); out-of-range ones land in the band's last slot (2999) |
| Priority.FlattenDecomposes | tests/check/ges/layer.c:119-137 | dividing a flattened priority by LAYER_HEIGHT gives back the layer priority, and the remainder is the clamped local priority |
| Priority.BandsOrdered | tests/check/ges/layer.c:236-253 | every object of a lower-priority layer is flattened below every object of a higher-priority layer, whatever the local priorities |
| Priority.FlattenMonotoneInLayer | tests/check/ges/layer.c:215-226 | within one layer, flattening keeps the order of local priorities, and keeps distinct in-range ones distinct |
| Priority.BackDerive | tests/check/ges/layer.c:280-285 | a written backing priority yields a local priority exactly when it lies in the layer's band, and that local priority is below LAYER_HEIGHT |
| Priority.BackDeriveRoundTrip | tests/check/ges/layer.c:280-285 | back-deriving a flattened priority gives the clamped local priority, and flattening a back-derived one gives the written value |
| Layers.Overlaps | tests/check/ges/layer.c:309-317 | two half-open intervals overlap when the later start is before the earlier end |
| Layers.OverlapsIff | tests/check/ges/layer.c:309-317 | two intervals overlap iff each starts before the other ends and both are non-empty; overlap is symmetric |
| Layers.WithoutDistinct | tests/check/ges/layer.c:256-262 | taking an object out of a layer's list keeps the list free of repeats and shortens it by exactly one |
| Layers.TrackObject.constructor | tests/check/ges/layer.c:115-116 | a new backing unit mirrors its owner: start, duration, media-start = in-point, media-duration = duration, active |
| Layers.TrackObject.SetPriority | tests/check/ges/layer.c:280-285 | an in-band write sets the backing priority and makes the owner's local priority written - L*1000; the layer stays valid; an out-of-band write changes nothing |
| Layers.TimelineObject.constructor | tests/check/ges/layer.c:94-99 | a new object keeps the given start, duration and in-point, has local priority 0, and is in no layer |
| Layers.TimelineObject.SetPriority | tests/check/ges/layer.c:194-200 | the local priority is stored as given; an object in a layer has its projection re-flattened; the projection of an object in no layer keeps its priority |
| Layers.TimelineObject.SetTiming | tests/check/ges/layer.c:93-98 | start, duration and in-point are stored; the projection's timing follows and its priority is kept |
| Layers.TimelineObject.MoveToLayer | tests/check/ges/layer.c:255-278 | the object leaves its old layer and is appended to the destination; it keeps its projection, which is re-flattened against the destination; both layers stay valid |
| Layers.Layer.Valid | tests/check/ges/layer.c:115-137 | the layer invariant: objects are listed once, name this layer, own a projection whose backing priority is Flatten(layer priority, local) and whose timing mirrors the object |
| Layers.Layer.constructor | tests/check/ges/layer.c:75-76 | a new layer has priority 0, no objects and no automatic transitions |
| Layers.Layer.SetAutoTransition | tests/check/ges/layer.c:309 | the auto-transition flag takes the given value |
| Layers.Layer.SetPriority | tests/check/ges/layer.c:118-137 | every owned object's backing priority becomes Flatten(new priority, local); local priorities and membership are unchanged |
| Layers.Layer.Insert | tests/check/ges/layer.c:199-234 | the appended object's local priority is clamped and written back; its backing priority is flattened against the layer |
| Layers.Layer.Detach | tests/check/ges/layer.c:255-262 | the object leaves the list, order kept, and names no layer |
| Layers.Layer.AddObject | tests/check/ges/layer.c:101-116 | adding fails iff the object is already in a layer, and a failed add leaves the list, the local priority, the object's layer and its projection unchanged; otherwise the object gets a fresh projection with mirrored timing and the flattened priority; it is appended, followed by one transition per overlapping earlier source when automatic transitions are on |
| Layers.Layer.RemoveObject | tests/check/ges/layer.c:139-140 | removal succeeds iff the object is in this layer; a failed removal leaves the list, the object's layer and its projection unchanged; a successful one takes the object out of the list and drops its projection |
| Layers.Layer.AddTransitions | tests/check/ges/layer.c:317-328 | appends exactly one fresh transition per overlapping source among the candidates, in order |
| Layers.Layer.AppendTransition | tests/check/ges/layer.c:317-328 | appends one fresh transition for an overlapping pair; the layer stays valid |
| Layers.TransitionsForExtend | tests/check/ges/layer.c:317-328 | a candidate that is an overlapping source extends the transitions by one bridging transition |
| Layers.TransitionsForSkip | tests/check/ges/layer.c:317-328 | a candidate that is not an overlapping source adds no transition |
| Layers.Overlapping | tests/check/ges/layer.c:317-328 | selects only sources from the candidates that overlap the interval |
| Layers.OverlappingComplete | tests/check/ges/layer.c:317-328 | every overlapping source among the candidates is selected, so the selection is exactly the overlapping sources |
| Layers.LayersDisjoint | tests/check/ges/layer.c:161-175 | two distinct valid layers share no object and no projection |
| LayerScenarios.LayerProperties | tests/check/ges/layer.c:61-144 | object state stays (42,51,12,0); the backing priority goes 0, 1000, 31000, 0 with timing 42/51/12/51 and active; removal succeeds |
| LayerScenarios.PlaceClip | tests/check/ges/layer.c:72-116 | a fresh layer has priority 0; the object 42/51/12 reads the same before and after it is added; its backing unit reads 42/51/12/51, priority 0, active |
| LayerScenarios.Reprioritise | tests/check/ges/layer.c:118-137 | after a layer priority write, the object's own fields are unchanged and its backing unit reads its timing, the flattened priority and active |
| LayerScenarios.LayerWith | tests/check/ges/layer.c:195-213 | a layer of the given priority holding one source whose local priority is clamped on adding |
| LayerScenarios.ThreeLayers | tests/check/ges/layer.c:161-234 | locals 0, 1 and 1001 before adding become 0, 1 and 999 after |
| LayerScenarios.SetLayerPriority | tests/check/ges/layer.c:237-239 | one layer's priority changes while the other two stay valid |
| LayerScenarios.TradePriorities | tests/check/ges/layer.c:236-253 | when two layers trade priorities, each keeps its objects and their local priorities, and every backing priority is the flattening against the layer's new priority, in the same slot of the band |
| LayerScenarios.Reband | tests/check/ges/layer.c:237-239 | one layer's new priority re-flattens each of its objects into the same slot of the new band, and another layer stays valid |
| LayerScenarios.Reorder | tests/check/ges/layer.c:236-253 | after reordering, the backing priorities are the flattening against the new layer priorities |
| LayerScenarios.Move | tests/check/ges/layer.c:256-257 | one move empties the source's slot and appends to the destination; all three layers stay valid |
| LayerScenarios.MoveIntoFirst | tests/check/ges/layer.c:255-278 | after both moves, the first layer holds 3 objects and the others none; locals are kept; backing priorities are flattened against the first layer |
| LayerScenarios.WriteBacking | tests/check/ges/layer.c:280-285 | an in-band write reads back as written and back-derives the local priority |
| LayerScenarios.LayerPriorities | tests/check/ges/layer.c:148-291 | the test's expected values: locals 0, 1, 999; backing 0, 1001, 2999; after the reorder layer priorities 2, 0, 1, locals 0, 1, 999 and backing 2000, 1, 1999; after the moves counts 3, 0, 0 and backing 2000, 2001, 2999; after the direct write 2000 with local 0 |
| LayerScenarios.Rearrange | tests/check/ges/layer.c:236-285 | from layers 0, 1, 2 with locals 0, 1, 999: after the reorder the layers read 2, 0, 1, the locals 0, 1, 999 and the backing 2000, 1, 1999; counts 3, 0, 0 and backing 2000, 2001, 2999 after the moves; 2000 with local 0 after the direct write |
| LayerScenarios.AutoLayerWith | tests/check/ges/layer.c:309-316 | a layer with automatic transitions on, holding one source |
| LayerScenarios.OverlappingSources | tests/check/ges/layer.c:309-319 | the layer lists the two sources, then a transition |
| LayerScenarios.OneTransition | tests/check/ges/layer.c:309-319 | against one overlapping earlier source, exactly one transition is created |
| LayerScenarios.AutomaticTransition | tests/check/ges/layer.c:295-329 | scanning the layer's objects finds a transition |
| PspecKey.CStr | ges/ges-track-effect.c:81 | the string a buffer holds is its prefix before the first NUL, and holds no NUL |
| PspecKey.Strcmp | ges/ges-track-effect.c:71 | strcmp returns zero exactly when the two buffers hold the same string |
| PspecKey.PspecEqual | ges/ges-track-effect.c:64-72 | two specifications are equal keys iff they have the same declaring type and their name buffers hold the same string |
| PspecKey.PspecEqualIsEquivalence | ges/ges-track-effect.c:64-72 | key equality is reflexive, symmetric and transitive |
| PspecKey.Step | ges/ges-track-effect.c:82 | `(h << 5) - h + c` in 32-bit unsigned arithmetic is `(31*h + c) mod 2^32` |
| PspecKey.Hash | ges/ges-track-effect.c:81-82 | the rolling hash stays below 2^32 |
| PspecKey.HashBuffer | ges/ges-track-effect.c:81-82 | the loop that stops at the terminator stays below 2^32 |
| PspecKey.PspecHash | ges/ges-track-effect.c:74-85 | the key hash is a 32-bit value |
| PspecKey.EmptyNameHash | ges/ges-track-effect.c:78-84 | an empty name hashes to the declaring type truncated to 32 bits |
| PspecKey.HashBufferIsHashOfString | ges/ges-track-effect.c:81 | the hash loop sees only the bytes before the terminator |
| PspecKey.HashAppend | ges/ges-track-effect.c:81-82 | appending a byte applies one more 31-times step modulo 2^32 |
| PspecKey.HashIsPolynomial | ges/ges-track-effect.c:74-85 | the hash equals `h*31^n + sum of c_i*31^(n-1-i)` reduced modulo 2^32 |
| PspecKey.HashRespectsEqual | ges/ges-track-effect.c:108 | specifications equal under pspec_equal have equal pspec_hash |
| PspecKey.ComputePspecHash | ges/ges-track-effect.c:74-85 | the loop computes the key hash |
| TrackEffect.Split | ges/ges-track-effect.c:130 | splitting yields at least one segment |
| TrackEffect.SplitSegments | ges/ges-track-effect.c:130 | no segment of a split contains '/' |
| TrackEffect.JoinSplit | ges/ges-track-effect.c:130 | joining the segments with '/' gives back the class string |
| TrackEffect.SplitJoin | ges/ges-track-effect.c:130 | splitting '/'-free segments joined with '/' gives back the segments |
| TrackEffect.Categories | ges/ges-track-effect.c:130 | a class has no categories exactly when it is empty |
| TrackEffect.CategoriesJoin | ges/ges-track-effect.c:130 | no category contains '/', and a non-empty class is its categories joined with '/' |
| TrackEffect.IsEffectClass | ges/ges-track-effect.c:130-133 | a factory class is an effect class when one of its '/'-separated categories is exactly `Effect` |
| TrackEffect.EffectSegment | ges/ges-track-effect.c:132-133 | a class with a segment that is exactly `Effect`, in any position, is an effect class |
| TrackEffect.Writable | ges/ges-track-effect.c:139 | a specification is writable when its flags carry the writable bit |
| TrackEffect.KeyMatchesEqual | ges/ges-track-effect.c:64-72 | two specifications share a table key iff pspec_equal holds between them |
| TrackEffect.KeyDeterminesHash | ges/ges-track-effect.c:108 | specifications with the same table key hash equally |
| TrackEffect.Insert | ges/ges-track-effect.c:140-141 | inserting adds the key if absent; the key maps to the given child; a key already present keeps its stored specification; every other entry is unchanged |
| TrackEffect.AddWritable | ges/ges-track-effect.c:138-143 | inserting one child's writable properties keeps every existing key; each entry is either unchanged or maps to that child |
| TrackEffect.AddChild | ges/ges-track-effect.c:130-151 | one child's contribution keeps every existing key; each entry is either unchanged or maps to that child's position |
| TrackEffect.PropsTable | ges/ges-track-effect.c:116-171 | every entry of the table maps to the position of one of the children |
| TrackEffect.GetPropsHashtable | ges/ges-track-effect.c:101-106 | no table without a backing element |
| TrackEffect.AddWritableEntry | ges/ges-track-effect.c:138-143 | after one child's writable properties are inserted, a key is present iff it was before or the child has a writable property with it; such a key maps to the child; the first stored specification is kept |
| TrackEffect.PropsTableHasKey | ges/ges-track-effect.c:130-150 | a key is in the table iff the scan over the children finds an effect child with a writable property with that key |
| TrackEffect.PropsTableKeys | ges/ges-track-effect.c:130-150 | a key is in the table iff some effect child has a writable property with that key |
| TrackEffect.PropsTableChild | ges/ges-track-effect.c:138-143 | each key maps to the last effect child that has a writable property with that key |
| TrackEffect.PropsTableSpec | ges/ges-track-effect.c:138-143 | each key's stored specification is writable, has that key, and comes from the first child contributing it |
| TrackEffect.ComputePropsHashtable | ges/ges-track-effect.c:88-176 | the nested loops (children, categories with a break at the first `Effect`, properties) build exactly the specified table; no element gives no table |
| TrackEffect.AddChildLoop | ges/ges-track-effect.c:130-151 | the category scan with its break at the first `Effect` builds exactly one child's contribution |
| TrackEffect.InsertWritable | ges/ges-track-effect.c:137-143 | the property loop inserts exactly the writable properties, in order, mapped to the child |

## Left out

- Timelines and tracks: the model has one track. Each object in a layer has exactly one track object, and layer or track registration with a timeline is not modelled. The layer, timeline-object and track-object implementations are not part of this model.
- Layers.TrackObject.SetPriority: the value the source gives the owner when the written backing priority lies outside the layer's band is not shown. The model refuses such a write and changes nothing.
- Layers.TimelineObject.SetPriority: for an object already in a layer, a local priority of LAYER_HEIGHT or more is stored as given and flattened with the clamp. The clamped value is written back only when the object joins a layer, which is the only write-back the test shows.
- Layers.Layer.AddObject: the transition's exact span and the number of transitions are not shown by the source, which asserts only that one exists. The model creates one transition per overlapping earlier source, spanning the intersection, and the scenario asserts only existence.
- Removing or re-evaluating transitions when objects are removed, moved, resized or repositioned, and transitions' own track priorities (a transition's local priority is 0).
- Backing-element creation failure and the fill callback that puts a fake source into the backing element.
- Floating references, reference counting and freeing: ownership transfer has no observable effect on priorities.
- Bin iteration with `RESYNC`: the children are the sequence the recursive iteration yields, in order. A resync is not modelled.
- Priority.Flatten: priorities are unbounded integers. The source reads layer, local and backing priorities as 32-bit unsigned values, so `layer * 1000 + local` wraps once the layer priority exceeds 4294967. The model does not capture that wrap.
- Priority.BandsOrdered: the bands are ordered only because the model's priorities are unbounded; with the 32-bit wrap above layer priority 4294967, a high layer's band would land below layer 0's.
- PspecKey.PspecHash: characters are bytes 0..255. The sign extension of a signed `gchar` above 127 is platform-dependent and not modelled. The declaring type is truncated to 32 bits explicitly.
- A NULL factory class string: the class is always a string.
- The metadata container, the extractable interface, the text-overlay and transition headers, and the metadata tests in `tests/check/ges/layer.c`: tag-list and floating-point semantics that live outside this core.
