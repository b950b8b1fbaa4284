# DazBlenderTools core, modelled in Dafny

DazBlenderTools is a Blender add-on for preparing character and clothing
meshes. This project models the part of it that is logic rather than calls
into Blender:

- the helpers in `utils.py`:
  - the scene's enum items for armatures and meshes;
  - the hierarchy walk of `delete_hierarchy`;
  - the survey and pruning of vertex groups;
  - the shape-key lookup, clearing and activation helpers.
- the `execute` bodies of the morph and vertex-paint operators in `panel.py`:
  Preview Next/Previous Morph, Add Tucked Base Morph, Add Tucked Morphs, Next
  Tucked Morph, Print Vertex Weight and Merge Paint Groups.

The Blender object (`Blend.BlendObject`) is a class whose fields the
operators update in place:

- the shape-key blocks and the active key index;
- the vertex-group names, the per-vertex group entries and the active group;
- the colour attributes;
- the mirror-editing flag.

Every method names the fields it may change in its `modifies` clause. An
object the add-on reads but may find missing (`bpy.data.objects.get(...)`,
`context.active_object`) is a nullable `BlendObject?`.

An operator returns an `Outcome`: `Finished`, `Cancelled(message)` (the
`self.report({'ERROR'}, ...)` path) or `Raised(error)`. `Raised` stands for
the `AttributeError`, `IndexError` or `UnboundLocalError` that the Python
body raises on a missing object, key or attribute, and for the
`RuntimeError` of a mode switch with no active object. A raise does not undo
anything, so every change made before it stays, and every contract states
the state at that point.

Modules, one per file:

- `Blend` (`blend.dfy`): the host object model and the host primitives the
  add-on calls.
- `ShapeKeyUtils` (`shape_key_utils.dfy`), `VertexGroupUtils`
  (`vertex_group_utils.dfy`) and `SceneUtils` (`scene_utils.dfy`): the
  `utils.py` helpers.
- `Panel` (`panel.dfy`): the operators.

Host behaviour the model assumes, because the add-on relies on Blender for it:

- `key_blocks.get(name)` returns the first block with that name.
- `shape_key_add` appends a block with value 0.0 and leaves the active index
  alone.
- `obj.data.shape_keys` is None exactly when there are no key blocks.
- The active key index is clamped into range when it is set.
- `vertex_groups.remove` drops the group's vertex entries and renumbers the
  higher groups down by one. It lowers the active group index by one when
  that index is at or above the removed group; then, if groups remain and
  none is active, it makes the first group active.
- The active vertex-group index is -1 (no active group) or the index of a
  group.
- `bpy.ops` calls have no effect on the modelled state. The one failure the
  operators can reach is `bpy.ops.object.mode_set`, whose poll fails with a
  RuntimeError when there is no active object.
- Each object has its own key blocks. Two different objects that share one
  mesh datablock (a linked duplicate) are not modelled; only the chosen
  mesh being the active object itself is.

A vertex group is pruned when its maximum is at or below 0.000001, not only
when it is strictly below it (`utils.py:69`); the model follows that comparison.

## Model

| member | source | states |
|---|---|---|
| `Blend.PyIndex` | panel.py:264-265 | Python's `xs[i]` position for a list of length n: i itself when non-negative, n + i when negative, always in range |
| `Blend.NameIndex` | utils.py:76-81 | the first position holding the name, and -1 exactly when no position holds it |
| `Blend.KeyBlockIndex` | panel.py:275 | `key_blocks.get(name)`: the first block with that name, and -1 exactly when no block has it |
| `Blend.SameNamesSameIndex` | utils.py:76-81 | two key lists with the same names position by position give the same lookup result |
| `Blend.WithValueKeepsLookup` | panel.py:274-275 | setting a key's value does not change where any name is found |
| `Blend.AppendedLookup` | panel.py:608-610 | a key appended under a name no other key has is found at the end of the list |
| `Blend.OwnNameIndex` | panel.py:278 | looking up key p's own name finds a position at or before p, and finds exactly p when names are distinct |
| `Blend.AttributeIndex` | panel.py:478-479 | `color_attributes.get(name)`: defined as `NameIndex` over the attribute names, so it is the first attribute with that name, -1 exactly when there is none |
| `Blend.WithValue` | utils.py:90 | `key.value = v` at position i: key i keeps its name and gets value v, every other key is unchanged |
| `Blend.ClampKeyIndex` | panel.py:278-279 | the host keeps the active key index in range and leaves an in-range index as it is |
| `Blend.ShiftEntry` | utils.py:70 | after removing group k, an entry of a higher group moves down by one, a lower one stays, and the weight is kept |
| `Blend.DropGroup` | utils.py:70 | reference definition of one vertex's entries after `vertex_groups.remove` of group k: the entry for k dropped, higher groups renumbered down |
| `Blend.DropGroupAll` | utils.py:70 | removing group k renumbers each vertex's entries, and the vertex count stays the same |
| `Blend.DropGroupAllInRange` | utils.py:70 | after removing group k, every vertex entry still names an existing group |
| `Blend.ActiveAfterRemove` | utils.py:70 | the host's active group after group k of n is removed: stays below k, moves down above k, and is never -1 while groups remain; -1 when the last group goes |
| `Blend.WithChannel` | panel.py:484 | `color[k] = v`: channel k becomes v and the other three channels are unchanged |
| `Blend.BlendObject.SetActiveShapeKeyIndex` | utils.py:96 | `obj.active_shape_key_index = i`: the clamped index, nothing else changes |
| `Blend.BlendObject.ShapeKeyAdd` | panel.py:608 | `shape_key_add`: one block with value 0.0 appended, the active index unchanged |
| `Blend.BlendObject.SetKeyValue` | utils.py:90 | `key_blocks[i].value = v`, nothing else changes |
| `Blend.BlendObject.RemoveVertexGroup` | utils.py:70 | `vertex_groups.remove`: the group's name is gone, the entries are renumbered, the active group follows `ActiveAfterRemove`, and the host invariant (including the active group's range) holds |
| `Blend.BlendObject.SetColor` | panel.py:484 | one colour of one attribute replaced, nothing else changes |
| `Blend.BlendObject.RemoveColorAttribute` | panel.py:486 | the attribute at position k is removed, the others keep their order |
| `ShapeKeyUtils.ClearedKey` | utils.py:89-90 | reference definition of one block after `clear_shapekeys`: HideNips kept, any other block at 0.0 |
| `ShapeKeyUtils.Cleared` | utils.py:83-90 | the keys after clearing, with the same count |
| `ShapeKeyUtils.ClearedSpec` | utils.py:83-90 | every key not named HideNips is 0.0; HideNips keeps its value; names, order and count are unchanged |
| `ShapeKeyUtils.ClearedIdempotent` | utils.py:83-90 | clearing twice is the same as clearing once |
| `ShapeKeyUtils.ClearedKeepsLookup` | utils.py:83-90 | clearing does not change where any name is found |
| `ShapeKeyUtils.GetShapekeyIndex` | utils.py:76-81 | the smallest position with the key's name; -1 exactly when the object is None, has no key blocks or has no such name |
| `ShapeKeyUtils.ClearShapekeys` | utils.py:83-90 | the loop leaves exactly the cleared key list (or does nothing on None) and changes only the key blocks |
| `ShapeKeyUtils.LastMatch` | utils.py:92-96 | reference definition of the index the loop leaves: the last block with the name, or the current index |
| `ShapeKeyUtils.LastMatchSpec` | utils.py:92-96 | the result is the last position with the name, and the current index exactly when no key has it |
| `ShapeKeyUtils.SetActiveShapekeyByName` | utils.py:92-96 | the loop leaves the active index at the last match, or unchanged when nothing matches or there are no keys; only the active index changes |
| `VertexGroupUtils.MaxIn` | utils.py:58-59 | reference definition of the running maximum of a group's weights over entries read in order, from 0 |
| `VertexGroupUtils.GroupMax` | utils.py:49-60 | reference definition of a group's surveyed maximum over every vertex's entries |
| `VertexGroupUtils.SurveyOf` | utils.py:49-60 | reference definition of `survey`'s dictionary: every group index below n mapped to its `GroupMax` |
| `VertexGroupUtils.FlattenMembers` | utils.py:54-55 | the flattened entries are exactly the entries of all the vertices |
| `VertexGroupUtils.MaxInSpec` | utils.py:58-59 | the running maximum from 0 is at least 0, bounds every weight of the group, and is 0 or one of those weights |
| `VertexGroupUtils.GroupMaxSpec` | utils.py:49-60 | a group's maximum is at least 0 and at least every weight of the group; it is 0 when no vertex is in the group; when weights are non-negative and the group has entries, it is the largest weight |
| `VertexGroupUtils.Survey` | utils.py:49-60 | the map has an entry for exactly the groups 0..n-1, and each entry is that group's maximum |
| `VertexGroupUtils.Doomed` | utils.py:69 | reference definition of a pruned group: surveyed, with maximum at or below 0.000001 |
| `VertexGroupUtils.CountDoomed` | utils.py:69 | the number of pruned groups in a range is at most the range's size |
| `VertexGroupUtils.CountDoomedFrom` | utils.py:67-70 | extending the range down by one index adds that index if it is pruned |
| `VertexGroupUtils.CountDoomedSplit` | utils.py:67-70 | the count over a range is the sum of the counts over its two parts |
| `VertexGroupUtils.Kept` | utils.py:69 | the kept indices lie in the range |
| `VertexGroupUtils.KeptSpec` | utils.py:62-70 | the kept indices are exactly the non-pruned ones, strictly increasing |
| `VertexGroupUtils.KeptLength` | utils.py:69-70 | the number of kept indices in a range is its size less the pruned ones |
| `VertexGroupUtils.KeptAt` | utils.py:69-70 | a kept index sits in the kept list at its index less the pruned indices below it |
| `VertexGroupUtils.Select` | utils.py:62-70 | picking names at given positions gives one name per position |
| `VertexGroupUtils.SelectSpec` | utils.py:62-70 | the i-th picked name is the name at the i-th position |
| `VertexGroupUtils.PrunedGroups` | utils.py:62-70 | reference definition of the group names left by pruning: the names at the kept indices |
| `VertexGroupUtils.PrunedGroupsSpec` | utils.py:62-70 | after pruning, the remaining groups are exactly those whose maximum is above 0.000001, in their original order |
| `VertexGroupUtils.RenumberAll` | utils.py:70 | per vertex, the entries once the pruned groups above a bound are gone |
| `VertexGroupUtils.RenumberNothing` | utils.py:66-68 | before any removal the vertex entries are as surveyed |
| `VertexGroupUtils.DropGroupConcat` | utils.py:70 | removing a group distributes over a split of a vertex's entries |
| `VertexGroupUtils.RenumberStep` | utils.py:68-70 | one step of the descending walk, on one vertex: removing a pruned group lo-1 (or skipping a kept one) extends the renumbering down to lo-1 |
| `VertexGroupUtils.RenumberAllStep` | utils.py:68-70 | the same step for all vertices |
| `VertexGroupUtils.ShiftActive` | utils.py:68-70 | reference definition of the active group once the pruned groups from a bound upwards are gone: moved down by the pruned groups up to it, and the first group when some but not all groups went and none would be active |
| `VertexGroupUtils.ShiftActiveInRange` | utils.py:68-70 | during the walk the active index is -1 or names one of the groups left |
| `VertexGroupUtils.ShiftActiveStep` | utils.py:68-70 | the same step for the active group index, through the host's `ActiveAfterRemove` with the current group count |
| `VertexGroupUtils.RenumberedEntryName` | utils.py:62-70 | a vertex entry of a surviving group, once renumbered, keeps its weight and names the same group among the groups left |
| `VertexGroupUtils.PrunedActiveGroup` | utils.py:62-70 | after pruning, a surviving active group is still active under its new index; there is no active group exactly when no group is left, or when none was active and nothing was removed |
| `VertexGroupUtils.DropLastOfPrefix` | utils.py:70 | removing position k from a list whose first part ends at k removes the last element of that part |
| `VertexGroupUtils.KeptDoomedStep` | utils.py:69-70 | a pruned index does not join the kept list |
| `VertexGroupUtils.GroupsKeptStep` | utils.py:69 | a kept index joins the kept part of the group list |
| `VertexGroupUtils.RemoveIfDoomed` | utils.py:69-70 | one turn of the walk removes group gn exactly when its maximum is at or below the threshold, and moves the walk's state down to gn |
| `VertexGroupUtils.WalkStarts` | utils.py:64-67 | before the walk, the object is in the walk's starting state |
| `VertexGroupUtils.WalkDown` | utils.py:67-70 | the descending loop ends in the final state; the removed indices are strictly descending and are exactly the pruned ones |
| `VertexGroupUtils.PruneObject` | utils.py:63-70 | one object's groups, vertex entries and active group become their pruned forms; removals are strictly descending and are exactly the pruned groups; nothing else changes |
| `VertexGroupUtils.PruneVertexGroups` | utils.py:62-70 | every object of the list is pruned in this way |
| `SceneUtils.NamesOfType` | utils.py:9-11 | reference definition of the names of the scene objects of one type, in scene order |
| `SceneUtils.NamesOfTypeConcat` | utils.py:9-11 | filtering by type commutes with concatenation, so scene order is kept |
| `SceneUtils.NamesOfTypeMembers` | utils.py:9-11 | a name is listed exactly when some scene object of the type has it |
| `SceneUtils.ItemsOfType` | utils.py:8-11 | the loop yields one `(name, name, description)` item per object of the type, in scene order |
| `SceneUtils.GetArmatureItems` | utils.py:7-12 | never empty: the armatures' items in scene order, or the single NONE sentinel exactly when there is no armature |
| `SceneUtils.GetMeshItems` | utils.py:14-19 | never empty: the meshes' items in scene order, or the single NONE sentinel exactly when there is no mesh |
| `SceneUtils.DistinctConcat` | utils.py:25-28 | concatenating two duplicate-free, disjoint lists gives a duplicate-free list |
| `SceneUtils.Preorder` | utils.py:25-28 | reference definition of the preorder of a hierarchy: the root, then each child's preorder |
| `SceneUtils.PreorderAll` | utils.py:27-28 | reference definition of the children's preorders, concatenated in child order |
| `SceneUtils.PreorderMembers` | utils.py:25-28 | the preorder lists exactly the objects of the hierarchy |
| `SceneUtils.PreorderAllMembers` | utils.py:27-28 | the children's preorders, concatenated, list exactly their objects |
| `SceneUtils.PreorderDistinct` | utils.py:25-28 | in a tree, each object appears in the preorder once |
| `SceneUtils.PreorderAllDistinct` | utils.py:27-28 | the same for a list of disjoint trees |
| `SceneUtils.Collect` | utils.py:25-28 | `collect` appends the root and then each child's preorder to the list it is given |
| `SceneUtils.DeleteHierarchySelection` | utils.py:21-30 | the list to delete is the preorder: root first, exactly the hierarchy's objects, each once for a tree |
| `Panel.Previewed` | panel.py:267-279 | reference definition of what the preview tail leaves, with its AttributeError cases and the mesh-is-obj case |
| `Panel.Highlighted` | panel.py:267-274 | the keys after clearing and then setting one key to 1.0, with the same count |
| `Panel.HighlightedSpec` | panel.py:267-274 | the chosen key is 1.0, every other non-HideNips key is 0.0, HideNips keeps its value, names are unchanged |
| `Panel.HighlightedKeepsLookup` | panel.py:274-275 | highlighting does not change where any name is found |
| `Panel.ClearBoth` | panel.py:267-268 | clearing both objects leaves each one's keys cleared, including when they are the same object |
| `Panel.PreviewLookups` | panel.py:274-279 | on one object, the target's name is found at the same place before and after highlighting and setting |
| `Panel.PreviewKeyOnSelf` | panel.py:267-279 | the preview tail on one object: keys highlighted, the first key with the target's name set to 1.0 and active, mirror on |
| `Panel.PreviewKeyOnOther` | panel.py:267-279 | the preview tail on two objects: the target shown on obj and the same-named key shown on the mesh, both active; an AttributeError on a missing mesh, missing key blocks or a missing key, with the changes made so far |
| `Panel.PreviewKey` | panel.py:267-279 | the preview tail for any chosen mesh |
| `Panel.PreviewWithoutTarget` | panel.py:262-274 | with no object, the mesh cleared and then RuntimeError from the sculpt-mode switch; with no key blocks, the mesh cleared, the object's keys and active index unchanged, mirror on and UnboundLocalError |
| `Panel.PreviewNextMorph` | panel.py:254-281 | the target is the key before the active one, or the last key when the active index is 0, and it is shown by the preview tail; RuntimeError without an object; without key blocks, UnboundLocalError with mirror on and only the mesh cleared |
| `Panel.PreviewPreviousMorph` | panel.py:290-321 | cancels with "No previous morph", changing nothing, when active + 1 is not below the key count; otherwise the key after the active one is shown; RuntimeError without an object; without key blocks, UnboundLocalError with mirror on and only the mesh cleared |
| `Panel.NextTucked` | panel.py:682-691 | reference definition of Next Tucked Morph's transition from the active key's name |
| `Panel.NextTuckedWalk` | panel.py:682-691 | TuckedMax goes to TuckedShaftMax, which goes to TuckedScrotumMax; that one stops with "No more tucked morphs"; any other name stops with "No tucked morph selected" |
| `Panel.TuckedShown` | panel.py:648-657 | reference definition of what the tucked tail leaves: both objects cleared, the named key active at 1.0 on the mesh and then on obj, AttributeError where a lookup fails |
| `Panel.TuckedLookups` | panel.py:696-701 | on one object, the tucked key found first is found again after it is shown |
| `Panel.ShowFirstNamed` | panel.py:696-702 | the first key of the name becomes active at 1.0, or nothing changes when there is none |
| `Panel.ShowTuckedOnSelf` | panel.py:693-702 | the tucked tail on one object: cleared, then the first key of the name active at 1.0 |
| `Panel.ShowTuckedOnOther` | panel.py:693-702 | the tucked tail on two objects: both cleared, the target active at 1.0 on the mesh and then on obj; an AttributeError where a lookup fails |
| `Panel.ShowTuckedMorph` | panel.py:693-702 | the tucked tail for any chosen mesh |
| `Panel.AppendTuckedBase` | panel.py:608-612 | TuckedBase is appended at 1.0 and becomes the active key |
| `Panel.AddTuckedBaseMorph` | panel.py:593-625 | cancels on a missing object; AttributeError without key blocks; cancels, changing nothing, when TuckedBase exists; otherwise appends exactly one TuckedBase key, active at 1.0, then sets the mesh's TuckedBase to 1.0 and turns mirror on, or raises AttributeError |
| `Panel.TuckedKeys` | panel.py:645-646 | the three tucked keys in creation order, each at 0.0 |
| `Panel.TuckedGuardAsWritten` | panel.py:641 | reference definition of the guard as written: some key block itself is `in` the list of tucked names |
| `Panel.TuckedGuard` | panel.py:641 | reference definition of the intended guard: some key block's name is a tucked name |
| `Panel.TuckedGuardAsWrittenNeverFires` | panel.py:641 | the duplicate guard as written is false for every key list |
| `Panel.TuckedGuardCounterexample` | panel.py:641 | with a key named TuckedMax, the guard as written does not fire but the intended guard does |
| `Panel.TuckedGuardSpec` | panel.py:641 | the intended guard fires exactly when some tucked name is found |
| `Panel.TuckedMaxAfterAppend` | panel.py:645-655 | after appending, TuckedMax is found at the first new key unless an older TuckedMax exists, which is then found instead |
| `Panel.AddTuckedMorphsGuarded` | panel.py:641-657 | when the guard fires, cancels and changes nothing; otherwise appends the three keys in order and shows TuckedMax on both objects |
| `Panel.AddTuckedMorphs` | panel.py:634-660 | AttributeError without an object or key blocks; otherwise, since the guard never fires, always appends the three keys and shows TuckedMax |
| `Panel.AddTuckedMorphsCorrected` | panel.py:641-657 | with the intended guard: AttributeError, changing nothing, without an object or key blocks; cancels, changing neither object, when a tucked key exists; otherwise the new keys are found at their new positions and TuckedMax is shown |
| `Panel.NextTuckedMorph` | panel.py:669-705 | cancels without an object with keys; from the active key's name, either cancels with the step's message and changes nothing, or shows the next tucked morph on both objects |
| `Panel.PrintVertexWeight` | panel.py:724-744 | the maximum starts at 0.0, is never negative, and is the active group's largest weight; AttributeError exactly when there is no active group on a mesh |
| `Panel.MergeChannel` | panel.py:483-484 | the destination colours after the copy, with the same count |
| `Panel.MergeChannelSpec` | panel.py:483-484 | channel 1 of each destination colour that has a source colour becomes the source's channel 1; every other channel and colour is unchanged |
| `Panel.CopyChannel` | panel.py:483-484 | the copy loop leaves the merged destination; it completes exactly when the source is no longer than the destination |
| `Panel.MergePaintGroups` | panel.py:472-493 | AttributeError on a missing object, source or destination; IndexError on a short destination, after the prefix is copied; otherwise the merged attributes without the source, and both objects cleared |

## Left out

- Every `bpy.ops` call: mode switches, tool selection, select-all and
  delete. They are host operators, and the model treats them as no-ops.
- `delete_hierarchy` after `collect`: selecting and deleting through the
  host. The model stops at the list of objects to delete.
- `ob.select_set` and `male_anatomy_mesh.hide_set(False)`: viewport
  selection and visibility, which the model does not hold.
- `Panel.MergePaintGroups`: the Finished state leaves out the final rename
  `mesh.color_attributes.active.name = "Attribute"`, because the host picks
  the active colour attribute after a removal and the model has no active
  colour attribute. This also leaves out the AttributeError raised there
  when no attribute is active.
- `self.report(...)` messages other than the cancel messages: host UI
  output whose text does not change the state.
- Panel `draw` methods, `register`/`unregister`, property registration and
  `__init__.py`: UI and class registration with no modelled state.
- The other operators of `panel.py`: reparenting, weight and paint transfer,
  smoothing, clear-morph and default-key selection, export and settings.
  They delegate to host routines.
- `from_mix` of `shape_key_add` and the vertex positions of shape keys: only
  key names and values are modelled.
- `obj.vertex_groups[g.group].weight(v.index)` in `survey` is modelled as the
  weight stored in the vertex entry, which is what the host returns for it.
- `VertexGroupUtils.PruneVertexGroups`: requires the objects in the list to
  be distinct, as `context.selected_objects` is. A list naming one object
  twice would prune it twice, and the model does not state that case.
- `Blend.BlendObject.RemoveVertexGroup`: the renumbering of the entries and
  of the active group is a model of Blender's behaviour, not something the
  add-on states. The model keeps each vertex's remaining entries in their
  order, where the host moves the last entry into the freed slot; only the
  largest weight per group is ever read, and it does not depend on order.
- `Panel.AddTuckedBaseMorph`: distinct objects are assumed not to share mesh
  data; only obj == mesh is modelled. When the anatomy mesh is another
  object using obj's mesh data, the source finds the new TuckedBase key on
  it and finishes, where the contract gives AttributeError.
- `Panel.AddTuckedMorphs`: distinct objects are assumed not to share mesh
  data; only obj == mesh is modelled. With shared data the appended keys
  and the clearing land on one list, and the contract describes two.
- `Panel.AddTuckedMorphsGuarded`: the same shared-mesh-data gap as
  `Panel.AddTuckedMorphs`.
- `Panel.AddTuckedMorphsCorrected`: the same shared-mesh-data gap as
  `Panel.AddTuckedMorphs`.
- `Panel.NextTuckedMorph`: distinct objects are assumed not to share mesh
  data; only obj == mesh is modelled.
- `Panel.PreviewNextMorph`: distinct objects are assumed not to share mesh
  data; only obj == mesh is modelled. The same holds for
  `Panel.PreviewPreviousMorph`.
- `Panel.PreviewPreviousMorph`: the same shared-mesh-data gap as
  `Panel.PreviewNextMorph`.
- Objects whose data has no `shape_keys` attribute at all (an armature):
  the source raises AttributeError when it reads `obj.data.shape_keys` on
  them, and the model takes the path of an object without key blocks.
- Floating-point weights and colours are modelled as reals.

## Findings

| source | as written | input that shows it | evidently intended | confidence | as-written member | corrected member |
|---|---|---|---|---|---|---|
| panel.py:641 | the duplicate guard of Add Tucked Morphs tests each key block object, not its name, for membership in the list of tucked names, so it is always false | an object whose key blocks already include one named TuckedMax: the operator appends a second set of tucked keys, and TuckedMax is then found at the old key | cancel with "Object already has tucked morphs" when any key block is named like a tucked morph | not executed | `Panel.TuckedGuardCounterexample` | `Panel.AddTuckedMorphsCorrected` |
