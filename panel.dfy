/**
 * The `execute` bodies of the morph and vertex-paint operators of panel.py,
 * reduced to what they do to the shape keys, vertex groups and colour
 * attributes of the active object and of the mesh chosen in the scene's enum
 * property. Each operator takes those two objects (either may be None) and
 * returns how `execute` ends. Host operators such as mode switches and tool
 * selection change nothing modelled here; the one way they fail that the
 * operators reach is a mode switch with no active object.
 */
module Panel {
  import opened Blend
  import opened ShapeKeyUtils
  import opened VertexGroupUtils

  // ---------------------------------------------------------------------------
  // Showing one morph: every other key cleared, the chosen key at 1.0
  // ---------------------------------------------------------------------------

  /** The key blocks after `clear_shapekeys` and then `key_blocks[i].value = 1.0`. */
  function Highlighted(keys: seq<ShapeKey>, i: nat): (r: seq<ShapeKey>)
    requires i < |keys|
    ensures |r| == |keys|
  {
    WithValue(Cleared(keys), i, 1.0)
  }

  /**
   * A highlighted key list shows key i alone: it is at 1.0, every other key
   * not named HideNips is at 0.0, HideNips keeps its value, and names, order
   * and count are as before.
   */
  lemma HighlightedSpec(keys: seq<ShapeKey>, i: nat)
    requires i < |keys|
    ensures |Highlighted(keys, i)| == |keys|
    ensures forall j :: 0 <= j < |keys| ==> Highlighted(keys, i)[j].name == keys[j].name
    ensures Highlighted(keys, i)[i].value == 1.0
    ensures forall j :: 0 <= j < |keys| && j != i && keys[j].name != KeptKey ==> Highlighted(keys, i)[j].value == 0.0
    ensures forall j :: 0 <= j < |keys| && j != i && keys[j].name == KeptKey ==> Highlighted(keys, i)[j].value == keys[j].value
  {
    ClearedSpec(keys);
  }

  /** Clearing and highlighting keep every name where it was, so lookups by name are unaffected. */
  lemma HighlightedKeepsLookup(keys: seq<ShapeKey>, i: nat, name: string)
    requires i < |keys|
    ensures KeyBlockIndex(Highlighted(keys, i), name) == KeyBlockIndex(keys, name)
  {
    ClearedKeepsLookup(keys, name);
    WithValueKeepsLookup(Cleared(keys), i, 1.0, name);
  }

  /**
   * What the preview tail of Preview Next Morph and Preview Previous Morph
   * leaves once key p of `obj` is chosen: mirror editing is on, key p is
   * shown on `obj`, and the first key of `mesh` with the same name is shown on
   * `mesh`; when `mesh` is None or has no such key the operator fails with
   * AttributeError before any active index changes.
   */
  twostate predicate Previewed(obj: BlendObject, mesh: BlendObject?, p: nat, outcome: Outcome)
    reads obj, mesh
  {
    p < |old(obj.keys)| &&
    var name := old(obj.keys)[p].name;
    var q := if mesh == null then -1 else KeyBlockIndex(old(mesh.keys), name);
    && obj.mirrorX
    && (outcome == Finished <==> q >= 0)
    && (outcome != Finished ==> outcome == Raised(AttributeError))
    && (q < 0 ==>
          && obj.keys == Highlighted(old(obj.keys), p)
          && obj.activeKeyIndex == old(obj.activeKeyIndex)
          && (mesh != null ==> mesh.keys == Cleared(old(mesh.keys)) && mesh.activeKeyIndex == old(mesh.activeKeyIndex)))
    && (q >= 0 && mesh != obj ==>
          && obj.keys == Highlighted(old(obj.keys), p)
          && obj.activeKeyIndex == KeyBlockIndex(old(obj.keys), name)
          && mesh.keys == Highlighted(old(mesh.keys), q)
          && mesh.activeKeyIndex == q)
    && (q >= 0 && mesh == obj ==>
          && obj.keys == WithValue(Highlighted(old(obj.keys), p), q, 1.0)
          && obj.activeKeyIndex == q)
  }

  /** The host's guarantees hold of both objects that are present. */
  ghost predicate BothValid(obj: BlendObject?, mesh: BlendObject?)
    reads obj, mesh
  {
    (obj != null ==> obj.Valid()) && (mesh != null ==> mesh.Valid())
  }

  /** `utils.clear_shapekeys(obj)` followed by `utils.clear_shapekeys(mesh)`; clearing one object twice is clearing it once. */
  method ClearBoth(obj: BlendObject?, mesh: BlendObject?)
    requires BothValid(obj, mesh)
    modifies {obj, mesh} - {null}`keys
    ensures BothValid(obj, mesh)
    ensures obj != null ==> obj.keys == Cleared(old(obj.keys))
    ensures mesh != null ==> mesh.keys == Cleared(old(mesh.keys))
  {
    ClearShapekeys(obj);
    ClearShapekeys(mesh);
    if mesh != null && mesh == obj {
      ClearedIdempotent(old(obj.keys));
    }
  }

  /**
   * The lookups the preview tail makes when the chosen mesh is `obj` itself:
   * the target keeps its name through clearing and highlighting, and the
   * first key with that name is found at the same place q <= p each time.
   */
  lemma PreviewLookups(keys: seq<ShapeKey>, p: nat)
    requires p < |keys|
    ensures Cleared(keys)[p].name == keys[p].name
    ensures var q := KeyBlockIndex(keys, keys[p].name);
      && 0 <= q <= p
      && KeyBlockIndex(Highlighted(keys, p), keys[p].name) == q
      && KeyBlockIndex(WithValue(Highlighted(keys, p), q, 1.0), keys[p].name) == q
      && WithValue(Highlighted(keys, p), q, 1.0)[p].name == keys[p].name
  {
    OwnNameIndex(keys, p);
    var name := keys[p].name;
    var q := KeyBlockIndex(keys, name);
    ClearedKeepsLookup(keys, name);
    WithValueKeepsLookup(Cleared(keys), p, 1.0, name);
    WithValueKeepsLookup(Highlighted(keys, p), q, 1.0, name);
  }

  /** The preview tail when the chosen mesh is the active object itself. */
  method PreviewKeyOnSelf(obj: BlendObject, p: nat) returns (outcome: Outcome)
    requires obj.Valid() && p < |obj.keys|
    modifies obj`keys, obj`activeKeyIndex, obj`mirrorX
    ensures obj.Valid()
    ensures Previewed(obj, obj, p, outcome)
  {
    ghost var keys0 := obj.keys;
    PreviewLookups(keys0, p);
    ClearBoth(obj, obj);
    obj.mirrorX := true;
    var name := obj.keys[p].name;
    obj.SetKeyValue(p, 1.0);
    var q := KeyBlockIndex(obj.keys, name);
    obj.SetKeyValue(q, 1.0);
    obj.SetActiveShapeKeyIndex(GetShapekeyIndex(obj, obj.keys[p]));
    obj.SetActiveShapeKeyIndex(GetShapekeyIndex(obj, obj.keys[q]));
    outcome := Finished;
  }

  /** The preview tail when the chosen mesh is another object or None. */
  method PreviewKeyOnOther(obj: BlendObject, mesh: BlendObject?, p: nat) returns (outcome: Outcome)
    requires obj.Valid() && p < |obj.keys|
    requires mesh != null ==> mesh.Valid()
    requires mesh != obj
    modifies {obj, mesh} - {null}`keys, {obj, mesh} - {null}`activeKeyIndex, obj`mirrorX
    ensures BothValid(obj, mesh)
    ensures Previewed(obj, mesh, p, outcome)
  {
    ghost var keys0 := obj.keys;
    ClearBoth(obj, mesh);
    obj.mirrorX := true;
    var name := obj.keys[p].name;
    ClearedSpec(keys0);
    obj.SetKeyValue(p, 1.0);
    if mesh == null || |mesh.keys| == 0 {
      // selected_mesh.data on None, or shape_keys.key_blocks on None
      outcome := Raised(AttributeError);
      return;
    }
    ClearedKeepsLookup(old(mesh.keys), name);
    var q := KeyBlockIndex(mesh.keys, name);
    if q < 0 {
      // mesh_key is None
      outcome := Raised(AttributeError);
      return;
    }
    mesh.SetKeyValue(q, 1.0);
    HighlightedKeepsLookup(keys0, p, name);
    obj.SetActiveShapeKeyIndex(GetShapekeyIndex(obj, obj.keys[p]));
    mesh.SetActiveShapeKeyIndex(GetShapekeyIndex(mesh, mesh.keys[q]));
    outcome := Finished;
  }

  /**
   * The shared tail of the two preview operators, once `obj` has key blocks
   * and key p is the target: clear both objects, turn on mirror editing, set
   * the target to 1.0, find it by name on `mesh` and set that to 1.0, then
   * make both active.
   */
  method PreviewKey(obj: BlendObject, mesh: BlendObject?, p: nat) returns (outcome: Outcome)
    requires obj.Valid() && p < |obj.keys|
    requires mesh != null ==> mesh.Valid()
    modifies {obj, mesh} - {null}`keys, {obj, mesh} - {null}`activeKeyIndex, {obj} - {null}`mirrorX
    ensures BothValid(obj, mesh)
    ensures Previewed(obj, mesh, p, outcome)
  {
    if mesh == obj {
      outcome := PreviewKeyOnSelf(obj, p);
    } else {
      outcome := PreviewKeyOnOther(obj, mesh, p);
    }
  }

  /** What the preview operators do when `obj` is None or has no key blocks, so that no target was chosen. */
  method PreviewWithoutTarget(obj: BlendObject?, mesh: BlendObject?) returns (outcome: Outcome)
    requires obj != null ==> obj.Valid() && |obj.keys| == 0
    requires mesh != null ==> mesh.Valid()
    modifies {obj, mesh} - {null}`keys, {obj, mesh} - {null}`activeKeyIndex, {obj} - {null}`mirrorX
    ensures BothValid(obj, mesh)
    ensures obj == null ==> outcome == Raised(RuntimeError)
    ensures obj != null ==> outcome == Raised(UnboundLocalError) && obj.mirrorX && obj.keys == []
    ensures obj != null ==> obj.activeKeyIndex == old(obj.activeKeyIndex)
    ensures mesh != null ==> mesh.keys == Cleared(old(mesh.keys)) && mesh.activeKeyIndex == old(mesh.activeKeyIndex)
  {
    ClearBoth(obj, mesh);
    if obj == null {
      // bpy.ops.object.mode_set(mode='SCULPT') fails its poll without an active object
      outcome := Raised(RuntimeError);
    } else {
      obj.mirrorX := true;
      // the target key was never bound
      outcome := Raised(UnboundLocalError);
    }
  }

  /**
   * `DAZTOOLS_OT_PreviewNextMorph.execute`: the target is the key just
   * before the active one, with no lower bound, so at index 0 Python's
   * negative index picks the last key.
   */
  method PreviewNextMorph(obj: BlendObject?, mesh: BlendObject?) returns (outcome: Outcome)
    requires obj != null ==> obj.Valid()
    requires mesh != null ==> mesh.Valid()
    modifies {obj, mesh} - {null}`keys, {obj, mesh} - {null}`activeKeyIndex, {obj} - {null}`mirrorX
    ensures BothValid(obj, mesh)
    ensures obj == null ==> outcome == Raised(RuntimeError)
    ensures obj != null && |old(obj.keys)| == 0 ==>
      && outcome == Raised(UnboundLocalError) && obj.mirrorX
      && obj.keys == old(obj.keys) && obj.activeKeyIndex == old(obj.activeKeyIndex)
    ensures (obj == null || |old(obj.keys)| == 0) && mesh != null ==>
      mesh.keys == Cleared(old(mesh.keys)) && mesh.activeKeyIndex == old(mesh.activeKeyIndex)
    ensures obj != null && |old(obj.keys)| > 0 ==>
      var n := |old(obj.keys)|;
      var p := if old(obj.activeKeyIndex) == 0 then n - 1 else old(obj.activeKeyIndex) - 1;
      Previewed(obj, mesh, p, outcome)
  {
    if obj != null && |obj.keys| > 0 {
      var p := PyIndex(obj.activeKeyIndex - 1, |obj.keys|);
      outcome := PreviewKey(obj, mesh, p);
    } else {
      outcome := PreviewWithoutTarget(obj, mesh);
    }
  }

  /**
   * `DAZTOOLS_OT_PreviewPreviousMorph.execute`: the target is the key just
   * after the active one; when there is none the operator cancels with "No
   * previous morph" and changes nothing.
   */
  method PreviewPreviousMorph(obj: BlendObject?, mesh: BlendObject?) returns (outcome: Outcome)
    requires obj != null ==> obj.Valid()
    requires mesh != null ==> mesh.Valid()
    modifies {obj, mesh} - {null}`keys, {obj, mesh} - {null}`activeKeyIndex, {obj} - {null}`mirrorX
    ensures BothValid(obj, mesh)
    ensures obj == null ==> outcome == Raised(RuntimeError)
    ensures obj != null && |old(obj.keys)| == 0 ==>
      && outcome == Raised(UnboundLocalError) && obj.mirrorX
      && obj.keys == old(obj.keys) && obj.activeKeyIndex == old(obj.activeKeyIndex)
    ensures (obj == null || |old(obj.keys)| == 0) && mesh != null ==>
      mesh.keys == Cleared(old(mesh.keys)) && mesh.activeKeyIndex == old(mesh.activeKeyIndex)
    ensures obj != null && |old(obj.keys)| > 0 && old(obj.activeKeyIndex) + 1 >= |old(obj.keys)| ==>
      && outcome == Cancelled("No previous morph")
      && obj.keys == old(obj.keys) && obj.activeKeyIndex == old(obj.activeKeyIndex) && obj.mirrorX == old(obj.mirrorX)
      && (mesh != null ==> mesh.keys == old(mesh.keys) && mesh.activeKeyIndex == old(mesh.activeKeyIndex) && mesh.mirrorX == old(mesh.mirrorX))
    ensures obj != null && old(obj.activeKeyIndex) + 1 < |old(obj.keys)| ==>
      Previewed(obj, mesh, old(obj.activeKeyIndex) + 1, outcome)
  {
    if obj != null && |obj.keys| > 0 {
      if obj.activeKeyIndex + 1 < |obj.keys| {
        outcome := PreviewKey(obj, mesh, obj.activeKeyIndex + 1);
      } else {
        outcome := Cancelled("No previous morph");
      }
    } else {
      outcome := PreviewWithoutTarget(obj, mesh);
    }
  }

  // ---------------------------------------------------------------------------
  // Tucked morphs
  // ---------------------------------------------------------------------------

  /** The name of the key Add Tucked Base Morph creates. */
  const TuckedBaseName: string := "TuckedBase"

  /** The tucked morphs, in the order Add Tucked Morphs creates them and Next Tucked Morph walks them. */
  const TuckedNames: seq<string> := ["TuckedMax", "TuckedShaftMax", "TuckedScrotumMax"]

  /** What Next Tucked Morph does for the name of the active key: move on to another key, or cancel with a message. */
  datatype TuckedStep = MoveTo(next: string) | Stop(message: string)

  /** The transition Next Tucked Morph takes from the active key's name. */
  function NextTucked(name: string): TuckedStep
  {
    if name == "TuckedMax" then MoveTo("TuckedShaftMax")
    else if name == "TuckedShaftMax" then MoveTo("TuckedScrotumMax")
    else if name == "TuckedScrotumMax" then Stop("No more tucked morphs")
    else Stop("No tucked morph selected")
  }

  /**
   * Next Tucked Morph walks the tucked morphs in creation order: each one but
   * the last moves to its successor, the last stops with "No more tucked
   * morphs", and any other name stops with "No tucked morph selected".
   */
  lemma NextTuckedWalk(name: string)
    ensures forall i :: 0 <= i < |TuckedNames| - 1 ==> (name == TuckedNames[i] <==> NextTucked(name) == MoveTo(TuckedNames[i + 1]))
    ensures name == TuckedNames[|TuckedNames| - 1] <==> NextTucked(name) == Stop("No more tucked morphs")
    ensures name !in TuckedNames <==> NextTucked(name) == Stop("No tucked morph selected")
  {
  }

  /**
   * What the shared tail of Add Tucked Morphs and Next Tucked Morph leaves,
   * given the key lists `keys` of `obj` and `meshKeys` of `mesh` as the tail
   * starts: both objects cleared, then the first key named `name` on `mesh`
   * and then on `obj` made active and set to 1.0. The lookup on `mesh` fails
   * with AttributeError when `mesh` is None or lacks the key, and the lookup
   * on `obj` fails the same way when `obj` lacks it.
   */
  twostate predicate TuckedShown(obj: BlendObject, mesh: BlendObject?, name: string,
                                 keys: seq<ShapeKey>, meshKeys: seq<ShapeKey>, outcome: Outcome)
    reads obj, mesh
  {
    var q := if mesh == null then -1 else KeyBlockIndex(meshKeys, name);
    var t := KeyBlockIndex(keys, name);
    && (outcome == Finished <==> q >= 0 && t >= 0)
    && (outcome != Finished ==> outcome == Raised(AttributeError))
    && (q >= 0 && t >= 0 ==> obj.keys == Highlighted(keys, t) && obj.activeKeyIndex == t)
    && (q < 0 || t < 0 ==> obj.keys == Cleared(keys) && obj.activeKeyIndex == old(obj.activeKeyIndex))
    && (mesh != null && mesh != obj ==>
          && (q >= 0 ==> mesh.keys == Highlighted(meshKeys, q) && mesh.activeKeyIndex == q)
          && (q < 0 ==> mesh.keys == Cleared(meshKeys) && mesh.activeKeyIndex == old(mesh.activeKeyIndex)))
  }

  /** The lookups the tucked tail makes when the chosen mesh is `obj` itself: the key found first is found again after it is shown. */
  lemma TuckedLookups(keys: seq<ShapeKey>, name: string)
    ensures KeyBlockIndex(Cleared(keys), name) == KeyBlockIndex(keys, name)
    ensures var q := KeyBlockIndex(keys, name);
      q >= 0 ==>
        && KeyBlockIndex(Highlighted(keys, q), name) == q
        && WithValue(Highlighted(keys, q), q, 1.0) == Highlighted(keys, q)
  {
    ClearedKeepsLookup(keys, name);
    var q := KeyBlockIndex(keys, name);
    if q >= 0 {
      HighlightedKeepsLookup(keys, q, name);
    }
  }

  /**
   * `key = o.data.shape_keys.key_blocks.get(name)`, then
   * `o.active_shape_key_index = utils.get_shapekey_index(o, key)` and
   * `key.value = 1.0`; `found` is false when the lookup fails (no key blocks
   * or no such name), and then nothing changes.
   */
  method ShowFirstNamed(o: BlendObject, name: string) returns (found: bool)
    requires o.Valid()
    modifies o`keys, o`activeKeyIndex
    ensures o.Valid()
    ensures var q := KeyBlockIndex(old(o.keys), name);
      && (found <==> q >= 0)
      && (found ==> o.keys == WithValue(old(o.keys), q, 1.0) && o.activeKeyIndex == q)
      && (!found ==> o.keys == old(o.keys) && o.activeKeyIndex == old(o.activeKeyIndex))
  {
    var q := KeyBlockIndex(o.keys, name);
    if |o.keys| == 0 || q < 0 {
      found := false;
      return;
    }
    o.SetActiveShapeKeyIndex(GetShapekeyIndex(o, o.keys[q]));
    o.SetKeyValue(q, 1.0);
    found := true;
  }

  /** The tucked tail when the chosen mesh is the active object itself. */
  method ShowTuckedOnSelf(obj: BlendObject, name: string) returns (outcome: Outcome)
    requires obj.Valid() && |obj.keys| > 0
    modifies obj`keys, obj`activeKeyIndex
    ensures obj.Valid()
    ensures TuckedShown(obj, obj, name, old(obj.keys), old(obj.keys), outcome)
  {
    TuckedLookups(obj.keys, name);
    ClearBoth(obj, obj);
    var found := ShowFirstNamed(obj, name);
    if !found {
      // get_shapekey_index reads the name of the missing key
      outcome := Raised(AttributeError);
      return;
    }
    found := ShowFirstNamed(obj, name);
    outcome := Finished;
  }

  /** The tucked tail when the chosen mesh is another object or None. */
  method ShowTuckedOnOther(obj: BlendObject, mesh: BlendObject?, name: string) returns (outcome: Outcome)
    requires obj.Valid() && |obj.keys| > 0
    requires mesh != null ==> mesh.Valid()
    requires mesh != obj
    modifies {obj, mesh} - {null}`keys, {obj, mesh} - {null}`activeKeyIndex
    ensures BothValid(obj, mesh)
    ensures TuckedShown(obj, mesh, name, old(obj.keys), if mesh == null then [] else old(mesh.keys), outcome)
  {
    ClearedKeepsLookup(obj.keys, name);
    ClearBoth(obj, mesh);
    if mesh == null {
      // male_anatomy_mesh.data on None
      outcome := Raised(AttributeError);
      return;
    }
    ClearedKeepsLookup(old(mesh.keys), name);
    // with no key blocks, male_anatomy_mesh.data.shape_keys.key_blocks fails on None
    var found := ShowFirstNamed(mesh, name);
    if !found {
      outcome := Raised(AttributeError);
      return;
    }
    found := ShowFirstNamed(obj, name);
    if !found {
      // obj_key is None
      outcome := Raised(AttributeError);
      return;
    }
    outcome := Finished;
  }

  /**
   * The tail Add Tucked Morphs and Next Tucked Morph share: clear both
   * objects, then on `mesh` and then on `obj` make the first key named `name`
   * active and set it to 1.0.
   */
  method ShowTuckedMorph(obj: BlendObject, mesh: BlendObject?, name: string) returns (outcome: Outcome)
    requires obj.Valid() && |obj.keys| > 0
    requires mesh != null ==> mesh.Valid()
    modifies {obj, mesh} - {null}`keys, {obj, mesh} - {null}`activeKeyIndex
    ensures BothValid(obj, mesh)
    ensures TuckedShown(obj, mesh, name, old(obj.keys), if mesh == null then [] else old(mesh.keys), outcome)
  {
    if mesh == obj {
      outcome := ShowTuckedOnSelf(obj, name);
    } else {
      outcome := ShowTuckedOnOther(obj, mesh, name);
    }
  }

  /**
   * `obj.shape_key_add(name="TuckedBase")` on an object without such a key,
   * then the new key looked up by name, made active and set to 1.0.
   */
  method AppendTuckedBase(obj: BlendObject)
    requires obj.Valid() && KeyBlockIndex(obj.keys, TuckedBaseName) < 0
    modifies obj`keys, obj`activeKeyIndex
    ensures obj.Valid()
    ensures obj.keys == old(obj.keys) + [ShapeKey(TuckedBaseName, 1.0)]
    ensures obj.activeKeyIndex == |old(obj.keys)|
  {
    ghost var keys0 := obj.keys;
    AppendedLookup(keys0, ShapeKey(TuckedBaseName, 0.0));
    obj.ShapeKeyAdd(TuckedBaseName);
    var t := KeyBlockIndex(obj.keys, TuckedBaseName);
    obj.SetActiveShapeKeyIndex(GetShapekeyIndex(obj, obj.keys[t]));
    obj.SetKeyValue(t, 1.0);
    assert obj.keys == keys0 + [ShapeKey(TuckedBaseName, 1.0)];
  }

  /**
   * `DAZTOOLS_OT_AddTuckedBaseMorph.execute`: cancels when either object is
   * missing or the key already exists; otherwise appends a key named
   * TuckedBase, makes it active at 1.0, sets the mesh's TuckedBase key to 1.0
   * and turns on mirror editing.
   */
  method AddTuckedBaseMorph(obj: BlendObject?, mesh: BlendObject?) returns (outcome: Outcome)
    requires obj != null ==> obj.Valid()
    requires mesh != null ==> mesh.Valid()
    modifies {obj, mesh} - {null}`keys, {obj, mesh} - {null}`activeKeyIndex, {obj} - {null}`mirrorX
    ensures BothValid(obj, mesh)
    ensures obj == null || mesh == null ==>
      && outcome == Cancelled("Valid object not selected")
      && (obj != null ==> obj.keys == old(obj.keys) && obj.activeKeyIndex == old(obj.activeKeyIndex) && obj.mirrorX == old(obj.mirrorX))
      && (mesh != null ==> mesh.keys == old(mesh.keys) && mesh.activeKeyIndex == old(mesh.activeKeyIndex))
    ensures obj != null && mesh != null && (|old(obj.keys)| == 0 || KeyBlockIndex(old(obj.keys), TuckedBaseName) >= 0) ==>
      && outcome == (if |old(obj.keys)| == 0 then Raised(AttributeError) else Cancelled("Object already has tucked base morph"))
      && obj.keys == old(obj.keys) && obj.activeKeyIndex == old(obj.activeKeyIndex) && obj.mirrorX == old(obj.mirrorX)
      && mesh.keys == old(mesh.keys) && mesh.activeKeyIndex == old(mesh.activeKeyIndex)
    ensures obj != null && mesh != null && |old(obj.keys)| > 0 && KeyBlockIndex(old(obj.keys), TuckedBaseName) < 0 ==>
      var q := KeyBlockIndex(old(mesh.keys), TuckedBaseName);
      && obj.keys == old(obj.keys) + [ShapeKey(TuckedBaseName, 1.0)]
      && obj.activeKeyIndex == |old(obj.keys)|
      && (outcome == Finished <==> mesh == obj || q >= 0)
      && (outcome != Finished ==> outcome == Raised(AttributeError) && obj.mirrorX == old(obj.mirrorX) && mesh.keys == old(mesh.keys))
      && (outcome == Finished ==> obj.mirrorX)
      && (mesh != obj && q >= 0 ==> mesh.keys == WithValue(old(mesh.keys), q, 1.0))
      && (mesh != obj ==> mesh.activeKeyIndex == old(mesh.activeKeyIndex))
  {
    if obj == null || mesh == null {
      outcome := Cancelled("Valid object not selected");
      return;
    }
    if |obj.keys| == 0 {
      // obj.data.shape_keys is None
      outcome := Raised(AttributeError);
      return;
    }
    if KeyBlockIndex(obj.keys, TuckedBaseName) >= 0 {
      outcome := Cancelled("Object already has tucked base morph");
      return;
    }
    ghost var keys0 := obj.keys;
    AppendTuckedBase(obj);
    if |mesh.keys| == 0 {
      // male_anatomy_mesh.data.shape_keys is None
      outcome := Raised(AttributeError);
      return;
    }
    if mesh == obj {
      AppendedLookup(keys0, ShapeKey(TuckedBaseName, 1.0));
    }
    var q := KeyBlockIndex(mesh.keys, TuckedBaseName);
    if q < 0 {
      // mesh_key is None
      outcome := Raised(AttributeError);
      return;
    }
    mesh.SetKeyValue(q, 1.0);
    if mesh == obj {
      assert obj.keys == keys0 + [ShapeKey(TuckedBaseName, 1.0)];
    }
    obj.mirrorX := true;
    outcome := Finished;
  }

  /** The key blocks Add Tucked Morphs appends, one per tucked name, each at 0.0. */
  function TuckedKeys(): (r: seq<ShapeKey>)
    ensures |r| == |TuckedNames|
    ensures forall i :: 0 <= i < |r| ==> r[i] == ShapeKey(TuckedNames[i], 0.0)
  {
    [ShapeKey(TuckedNames[0], 0.0), ShapeKey(TuckedNames[1], 0.0), ShapeKey(TuckedNames[2], 0.0)]
  }

  /** A Python value the guard at panel.py:641 compares: a string or a key block. */
  datatype PyValue = Str(s: string) | Block(key: ShapeKey)

  /** Python `==` on these values: a key block is never equal to a string. */
  function PyEq(a: PyValue, b: PyValue): bool
  {
    match (a, b)
    case (Str(x), Str(y)) => x == y
    case (Block(x), Block(y)) => x == y
    case _ => false
  }

  /** `x in xs` on a Python list of strings. */
  function PyIn(x: PyValue, xs: seq<string>): bool
  {
    exists i :: 0 <= i < |xs| && PyEq(x, Str(xs[i]))
  }

  /**
   * The duplicate guard of Add Tucked Morphs as written: it tests each key
   * block itself, not its name, for membership in the list of tucked names.
   */
  function TuckedGuardAsWritten(keys: seq<ShapeKey>): bool
  {
    exists i :: 0 <= i < |keys| && PyIn(Block(keys[i]), TuckedNames)
  }

  /** The guard the operator evidently means: some key block is named like a tucked morph. */
  function TuckedGuard(keys: seq<ShapeKey>): bool
  {
    exists i :: 0 <= i < |keys| && keys[i].name in TuckedNames
  }

  /** As written, the guard never fires: a key block is never equal to a string. */
  lemma TuckedGuardAsWrittenNeverFires(keys: seq<ShapeKey>)
    ensures !TuckedGuardAsWritten(keys)
  {
  }

  /** An object that already has TuckedMax passes the written guard but not the intended one. */
  lemma TuckedGuardCounterexample()
    ensures !TuckedGuardAsWritten([ShapeKey("TuckedMax", 0.0)])
    ensures TuckedGuard([ShapeKey("TuckedMax", 0.0)])
  {
    assert [ShapeKey("TuckedMax", 0.0)][0].name in TuckedNames;
  }

  /** The intended guard fires exactly when a lookup of some tucked name finds a key block. */
  lemma TuckedGuardSpec(keys: seq<ShapeKey>)
    ensures TuckedGuard(keys) <==> exists j :: 0 <= j < |TuckedNames| && KeyBlockIndex(keys, TuckedNames[j]) >= 0
  {
    if TuckedGuard(keys) {
      var i :| 0 <= i < |keys| && keys[i].name in TuckedNames;
      var j :| 0 <= j < |TuckedNames| && TuckedNames[j] == keys[i].name;
      assert KeyBlockIndex(keys, TuckedNames[j]) >= 0;
    }
    if exists j :: 0 <= j < |TuckedNames| && KeyBlockIndex(keys, TuckedNames[j]) >= 0 {
      var j :| 0 <= j < |TuckedNames| && KeyBlockIndex(keys, TuckedNames[j]) >= 0;
      var i := KeyBlockIndex(keys, TuckedNames[j]);
      assert keys[i].name in TuckedNames;
    }
  }

  /** After the three tucked keys are appended, TuckedMax is found: at the end of the old keys unless one existed already. */
  lemma TuckedMaxAfterAppend(keys: seq<ShapeKey>)
    ensures 0 <= KeyBlockIndex(keys + TuckedKeys(), "TuckedMax") <= |keys|
    ensures KeyBlockIndex(keys, "TuckedMax") < 0 ==> KeyBlockIndex(keys + TuckedKeys(), "TuckedMax") == |keys|
    ensures KeyBlockIndex(keys, "TuckedMax") >= 0 ==> KeyBlockIndex(keys + TuckedKeys(), "TuckedMax") == KeyBlockIndex(keys, "TuckedMax")
  {
    var all := keys + TuckedKeys();
    assert all[|keys|].name == "TuckedMax";
    assert forall i :: 0 <= i < |keys| ==> all[i] == keys[i];
  }

  /**
   * Add Tucked Morphs from the duplicate guard on, given the value the guard
   * computed: cancel when it fired, otherwise append the three tucked keys
   * in order and show TuckedMax on both objects.
   */
  method AddTuckedMorphsGuarded(obj: BlendObject, mesh: BlendObject?, guardFired: bool) returns (outcome: Outcome)
    requires obj.Valid() && |obj.keys| > 0
    requires mesh != null ==> mesh.Valid()
    modifies {obj, mesh} - {null}`keys, {obj, mesh} - {null}`activeKeyIndex
    ensures BothValid(obj, mesh)
    ensures guardFired ==>
      && outcome == Cancelled("Object already has tucked morphs")
      && obj.keys == old(obj.keys) && obj.activeKeyIndex == old(obj.activeKeyIndex)
      && (mesh != null ==> mesh.keys == old(mesh.keys) && mesh.activeKeyIndex == old(mesh.activeKeyIndex))
    ensures !guardFired ==>
      var added := old(obj.keys) + TuckedKeys();
      TuckedShown(obj, mesh, "TuckedMax", added, if mesh == null then [] else if mesh == obj then added else old(mesh.keys), outcome)
  {
    if guardFired {
      outcome := Cancelled("Object already has tucked morphs");
      return;
    }
    ghost var keys0 := obj.keys;
    var i := 0;
    while i < |TuckedNames|
      invariant 0 <= i <= |TuckedNames|
      invariant obj.Valid()
      invariant obj.keys == keys0 + TuckedKeys()[..i]
      modifies obj`keys
    {
      obj.ShapeKeyAdd(TuckedNames[i]);
      assert TuckedKeys()[..i + 1] == TuckedKeys()[..i] + [ShapeKey(TuckedNames[i], 0.0)];
      i := i + 1;
    }
    assert TuckedKeys()[..i] == TuckedKeys();
    outcome := ShowTuckedMorph(obj, mesh, "TuckedMax");
  }

  /**
   * `DAZTOOLS_OT_AddTuckedMorphs.execute` as written: it fails with
   * AttributeError when `obj` is None or has no key blocks, and otherwise
   * always appends the three tucked keys, because its duplicate guard never
   * fires.
   */
  method AddTuckedMorphs(obj: BlendObject?, mesh: BlendObject?) returns (outcome: Outcome)
    requires obj != null ==> obj.Valid()
    requires mesh != null ==> mesh.Valid()
    modifies {obj, mesh} - {null}`keys, {obj, mesh} - {null}`activeKeyIndex
    ensures BothValid(obj, mesh)
    ensures obj == null || |old(obj.keys)| == 0 ==>
      && outcome == Raised(AttributeError)
      && (obj != null ==> obj.keys == old(obj.keys) && obj.activeKeyIndex == old(obj.activeKeyIndex))
      && (mesh != null ==> mesh.keys == old(mesh.keys) && mesh.activeKeyIndex == old(mesh.activeKeyIndex))
    ensures obj != null && |old(obj.keys)| > 0 ==>
      var added := old(obj.keys) + TuckedKeys();
      TuckedShown(obj, mesh, "TuckedMax", added, if mesh == null then [] else if mesh == obj then added else old(mesh.keys), outcome)
  {
    if obj == null || |obj.keys| == 0 {
      // obj.data.shape_keys.key_blocks on None
      outcome := Raised(AttributeError);
      return;
    }
    TuckedGuardAsWrittenNeverFires(obj.keys);
    outcome := AddTuckedMorphsGuarded(obj, mesh, TuckedGuardAsWritten(obj.keys));
  }

  /** Add Tucked Morphs with the duplicate guard it evidently means: it cancels when a tucked key already exists. */
  method AddTuckedMorphsCorrected(obj: BlendObject?, mesh: BlendObject?) returns (outcome: Outcome)
    requires obj != null ==> obj.Valid()
    requires mesh != null ==> mesh.Valid()
    modifies {obj, mesh} - {null}`keys, {obj, mesh} - {null}`activeKeyIndex
    ensures BothValid(obj, mesh)
    ensures obj == null || |old(obj.keys)| == 0 ==>
      && outcome == Raised(AttributeError)
      && (obj != null ==> obj.keys == old(obj.keys) && obj.activeKeyIndex == old(obj.activeKeyIndex))
      && (mesh != null ==> mesh.keys == old(mesh.keys) && mesh.activeKeyIndex == old(mesh.activeKeyIndex))
    ensures obj != null && |old(obj.keys)| > 0 && TuckedGuard(old(obj.keys)) ==>
      && outcome == Cancelled("Object already has tucked morphs")
      && obj.keys == old(obj.keys) && obj.activeKeyIndex == old(obj.activeKeyIndex)
      && (mesh != null ==> mesh.keys == old(mesh.keys) && mesh.activeKeyIndex == old(mesh.activeKeyIndex))
    ensures obj != null && |old(obj.keys)| > 0 && !TuckedGuard(old(obj.keys)) ==>
      var added := old(obj.keys) + TuckedKeys();
      && TuckedShown(obj, mesh, "TuckedMax", added, if mesh == null then [] else if mesh == obj then added else old(mesh.keys), outcome)
      && forall j :: 0 <= j < |TuckedNames| ==> KeyBlockIndex(added, TuckedNames[j]) == |old(obj.keys)| + j
  {
    if obj == null || |obj.keys| == 0 {
      outcome := Raised(AttributeError);
      return;
    }
    ghost var keys0 := obj.keys;
    if !TuckedGuard(keys0) {
      var added := keys0 + TuckedKeys();
      forall j | 0 <= j < |TuckedNames| ensures KeyBlockIndex(added, TuckedNames[j]) == |keys0| + j {
        assert forall i :: 0 <= i < |keys0| ==> added[i] == keys0[i] && keys0[i].name !in TuckedNames;
        assert added[|keys0| + j].name == TuckedNames[j];
      }
    }
    outcome := AddTuckedMorphsGuarded(obj, mesh, TuckedGuard(obj.keys));
  }

  /**
   * `DAZTOOLS_OT_NextTuckedMorph.execute`: from the name of the active key,
   * either cancel or show the next tucked morph on both objects.
   */
  method NextTuckedMorph(obj: BlendObject?, mesh: BlendObject?) returns (outcome: Outcome)
    requires obj != null ==> obj.Valid()
    requires mesh != null ==> mesh.Valid()
    modifies {obj, mesh} - {null}`keys, {obj, mesh} - {null}`activeKeyIndex
    ensures BothValid(obj, mesh)
    ensures obj == null || |old(obj.keys)| == 0 ==>
      && outcome == Cancelled("No object with shape keys selected")
      && (obj != null ==> obj.keys == old(obj.keys) && obj.activeKeyIndex == old(obj.activeKeyIndex))
      && (mesh != null ==> mesh.keys == old(mesh.keys) && mesh.activeKeyIndex == old(mesh.activeKeyIndex))
    ensures obj != null && |old(obj.keys)| > 0 ==>
      match NextTucked(old(obj.keys)[old(obj.activeKeyIndex)].name)
      case Stop(message) =>
        && outcome == Cancelled(message)
        && obj.keys == old(obj.keys) && obj.activeKeyIndex == old(obj.activeKeyIndex)
        && (mesh != null ==> mesh.keys == old(mesh.keys) && mesh.activeKeyIndex == old(mesh.activeKeyIndex))
      case MoveTo(next) =>
        TuckedShown(obj, mesh, next, old(obj.keys), if mesh == null then [] else old(mesh.keys), outcome)
  {
    if obj == null || |obj.keys| == 0 {
      outcome := Cancelled("No object with shape keys selected");
      return;
    }
    var activeKey := obj.keys[obj.activeKeyIndex];
    // key_blocks.get(active_key.name) finds a block with the same name
    var a := KeyBlockIndex(obj.keys, activeKey.name);
    var current := obj.keys[a].name;
    match NextTucked(current) {
      case Stop(message) =>
        outcome := Cancelled(message);
      case MoveTo(next) =>
        outcome := ShowTuckedMorph(obj, mesh, next);
    }
  }

  // ---------------------------------------------------------------------------
  // Debug and vertex paint
  // ---------------------------------------------------------------------------

  /**
   * `DAZTOOLS_OT_PrintVertexWeight.execute`: the active vertex group exists
   * only for a mesh whose active group index is in range; then the operator
   * finds the group's largest weight, starting from 0.0. Without one, the
   * final report reads the name of None and fails with AttributeError.
   */
  method PrintVertexWeight(obj: BlendObject?) returns (outcome: Outcome, groupName: string, maxWeight: real)
    ensures outcome == Finished <==> obj != null && obj.kind == MESH && 0 <= obj.activeGroupIndex < |obj.groups|
    ensures outcome != Finished ==> outcome == Raised(AttributeError)
    ensures maxWeight >= 0.0
    ensures outcome == Finished ==> groupName == obj.groups[obj.activeGroupIndex]
    ensures outcome == Finished ==> maxWeight == GroupMax(obj.vertices, obj.activeGroupIndex)
    ensures outcome == Finished ==>
      forall v, e :: v in obj.vertices && e in v && e.group == obj.activeGroupIndex ==> e.weight <= maxWeight
  {
    maxWeight := 0.0;
    groupName := "";
    if obj == null || obj.kind != MESH || !(0 <= obj.activeGroupIndex < |obj.groups|) {
      outcome := Raised(AttributeError);
      return;
    }
    var k: nat := obj.activeGroupIndex;
    var vertices := obj.vertices;
    var vi := 0;
    assert Flatten(vertices[..0]) == [];
    while vi < |vertices|
      invariant 0 <= vi <= |vertices|
      invariant maxWeight == MaxIn(Flatten(vertices[..vi]), k)
    {
      var v := vertices[vi];
      var done := Flatten(vertices[..vi]);
      var j := 0;
      assert done + v[..0] == done;
      while j < |v|
        invariant 0 <= j <= |v|
        invariant maxWeight == MaxIn(done + v[..j], k)
      {
        var g := v[j];
        assert (done + v[..j + 1])[..|done + v[..j + 1]| - 1] == done + v[..j];
        assert (done + v[..j + 1])[|done + v[..j + 1]| - 1] == g;
        if g.group == k && g.weight > maxWeight {
          // max(max_weight, g.weight) keeps the first argument unless the second is larger
          maxWeight := g.weight;
        }
        j := j + 1;
      }
      assert v[..j] == v;
      assert vertices[..vi + 1][..vi] == vertices[..vi];
      vi := vi + 1;
    }
    assert vertices[..vi] == vertices;
    GroupMaxSpec(vertices, k);
    groupName := obj.groups[k];
    outcome := Finished;
  }

  /** Merge Paint Groups copies channel 1 (green) of each colour. */
  const SrcChannel: nat := 1
  const DstChannel: nat := 1

  /** The destination colours after the merge loop: colour i takes channel 1 of source colour i, for every i both have. */
  function MergeChannel(dst: seq<Color>, src: seq<Color>): (r: seq<Color>)
    ensures |r| == |dst|
  {
    seq(|dst|, i requires 0 <= i < |dst| =>
      if i < |src| then WithChannel(dst[i], DstChannel, Channel(src[i], SrcChannel)) else dst[i])
  }

  /**
   * The merge writes channel 1 of every destination colour that has a source
   * colour to that source colour's channel 1, and changes nothing else.
   */
  lemma MergeChannelSpec(dst: seq<Color>, src: seq<Color>)
    ensures |MergeChannel(dst, src)| == |dst|
    ensures forall i :: 0 <= i < |dst| && i < |src| ==> Channel(MergeChannel(dst, src)[i], DstChannel) == Channel(src[i], SrcChannel)
    ensures forall i, k :: 0 <= i < |dst| && 0 <= k < 4 && (i >= |src| || k != DstChannel) ==>
      Channel(MergeChannel(dst, src)[i], k) == Channel(dst[i], k)
  {
  }

  /** The colour attributes after the merge loop, with `d` the destination and `s` the source. */
  function Merged(attrs: seq<ColorAttribute>, d: nat, s: nat): seq<ColorAttribute>
    requires d < |attrs| && s < |attrs|
  {
    attrs[d := attrs[d].(data := MergeChannel(attrs[d].data, attrs[s].data))]
  }

  /**
   * The merge loop once the destination attribute d exists: for i, src_av in
   * enumerate(src), channel 1 of colour i of d takes channel 1 of src_av,
   * until the source ends (`complete`) or colour i of d does not exist.
   */
  method CopyChannel(obj: BlendObject, d: nat, src: seq<Color>) returns (complete: bool)
    requires d < |obj.colorAttributes|
    modifies obj`colorAttributes
    ensures complete <==> |src| <= |old(obj.colorAttributes)[d].data|
    ensures obj.colorAttributes == old(obj.colorAttributes[d := obj.colorAttributes[d].(data := MergeChannel(obj.colorAttributes[d].data, src))])
  {
    ghost var attrs := obj.colorAttributes;
    ghost var dst := attrs[d].data;
    var i := 0;
    while i < |src|
      invariant 0 <= i <= |src| && i <= |dst|
      invariant |obj.colorAttributes| == |attrs|
      invariant forall k :: 0 <= k < |attrs| && k != d ==> obj.colorAttributes[k] == attrs[k]
      invariant obj.colorAttributes[d].name == attrs[d].name
      invariant |obj.colorAttributes[d].data| == |dst|
      invariant forall j :: 0 <= j < i ==> obj.colorAttributes[d].data[j] == MergeChannel(dst, src)[j]
      invariant forall j :: i <= j < |dst| ==> obj.colorAttributes[d].data[j] == dst[j]
    {
      if i >= |obj.colorAttributes[d].data| {
        // dst_attribute.data[i] is past the end
        complete := false;
        assert obj.colorAttributes[d].data == MergeChannel(dst, src);
        assert obj.colorAttributes == attrs[d := attrs[d].(data := MergeChannel(dst, src))];
        return;
      }
      var c := obj.colorAttributes[d].data[i];
      obj.SetColor(d, i, WithChannel(c, DstChannel, Channel(src[i], SrcChannel)));
      i := i + 1;
    }
    complete := true;
    assert obj.colorAttributes[d].data == MergeChannel(dst, src);
    assert obj.colorAttributes == attrs[d := attrs[d].(data := MergeChannel(dst, src))];
  }

  /**
   * `DAZTOOLS_OT_MergePaintGroups.execute`: copies channel 1 of the colour
   * attribute "Attribute" into channel 1 of "Penis", element by element,
   * removes "Attribute" and clears the shape keys of both objects. A missing
   * attribute that is read fails with AttributeError, and a destination
   * shorter than the source fails with IndexError once it runs out.
   */
  method MergePaintGroups(obj: BlendObject?, paintMesh: BlendObject?) returns (outcome: Outcome)
    requires BothValid(obj, paintMesh)
    modifies {obj} - {null}`colorAttributes, {obj, paintMesh} - {null}`keys
    ensures BothValid(obj, paintMesh)
    ensures obj == null ==> outcome == Raised(AttributeError)
    ensures obj == null && paintMesh != null ==> paintMesh.keys == old(paintMesh.keys)
    ensures obj != null ==>
      var attrs := old(obj.colorAttributes);
      var s := AttributeIndex(attrs, "Attribute");
      var d := AttributeIndex(attrs, "Penis");
      && (s < 0 || (d < 0 && |attrs[s].data| > 0) ==>
            outcome == Raised(AttributeError) && obj.colorAttributes == attrs)
      && (s >= 0 && d >= 0 && |attrs[s].data| > |attrs[d].data| ==>
            outcome == Raised(IndexError) && obj.colorAttributes == Merged(attrs, d, s))
      && (outcome != Finished ==>
            obj.keys == old(obj.keys) && (paintMesh != null ==> paintMesh.keys == old(paintMesh.keys)))
      && (outcome == Finished <==> s >= 0 && (if d < 0 then |attrs[s].data| == 0 else |attrs[s].data| <= |attrs[d].data|))
      && (outcome == Finished ==>
            && obj.colorAttributes == (var m := if d < 0 then attrs else Merged(attrs, d, s); m[..s] + m[s + 1..])
            && obj.keys == Cleared(old(obj.keys))
            && (paintMesh != null ==> paintMesh.keys == Cleared(old(paintMesh.keys))))
  {
    if obj == null {
      // mesh = obj.data on None
      outcome := Raised(AttributeError);
      return;
    }
    var s := AttributeIndex(obj.colorAttributes, "Attribute");
    var d := AttributeIndex(obj.colorAttributes, "Penis");
    if s < 0 {
      // src_attribute.data on None
      outcome := Raised(AttributeError);
      return;
    }
    var src := obj.colorAttributes[s].data;
    if d < 0 {
      if |src| > 0 {
        // dst_attribute.data on None, in the first turn of the loop
        outcome := Raised(AttributeError);
        return;
      }
    } else {
      var complete := CopyChannel(obj, d, src);
      if !complete {
        outcome := Raised(IndexError);
        return;
      }
    }
    obj.RemoveColorAttribute(s);
    ClearBoth(obj, paintMesh);
    outcome := Finished;
  }
}
