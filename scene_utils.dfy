/**
 * The scene helpers of utils.py (its "Armature Operations" section): the enum
 * items listing the scene's armatures or meshes, and the recursive gathering
 * of an object's hierarchy that `delete_hierarchy` does before it deletes.
 */
module SceneUtils {
  import opened Blend

  /** One object of `context.scene.objects`, as far as the item builders read it. */
  datatype SceneObject = SceneObject(name: string, kind: ObjectType)

  /** One `(identifier, name, description)` triple of an enum property's items. */
  datatype EnumItem = EnumItem(identifier: string, name: string, description: string)

  /** The names of the scene objects of the given type, in scene order. */
  function NamesOfType(objects: seq<SceneObject>, kind: ObjectType): seq<string>
  {
    if objects == [] then []
    else
      var last := objects[|objects| - 1];
      NamesOfType(objects[..|objects| - 1], kind) + (if last.kind == kind then [last.name] else [])
  }

  /** Filtering commutes with concatenation, so the names keep the scene's relative order. */
  lemma {:induction false} NamesOfTypeConcat(a: seq<SceneObject>, b: seq<SceneObject>, kind: ObjectType)
    ensures NamesOfType(a + b, kind) == NamesOfType(a, kind) + NamesOfType(b, kind)
  {
    if b == [] {
      assert a + b == a;
    } else {
      assert (a + b)[..|a + b| - 1] == a + b[..|b| - 1];
      NamesOfTypeConcat(a, b[..|b| - 1], kind);
    }
  }

  /** A name is listed exactly when some scene object of that type has it. */
  lemma {:induction false} NamesOfTypeMembers(objects: seq<SceneObject>, kind: ObjectType, name: string)
    ensures name in NamesOfType(objects, kind) <==> exists i :: 0 <= i < |objects| && objects[i].kind == kind && objects[i].name == name
  {
    if objects != [] {
      var init := objects[..|objects| - 1];
      NamesOfTypeMembers(init, kind, name);
      if exists i :: 0 <= i < |objects| && objects[i].kind == kind && objects[i].name == name {
        var i :| 0 <= i < |objects| && objects[i].kind == kind && objects[i].name == name;
        if i < |init| {
          assert init[i] == objects[i];
        }
      }
      if name in NamesOfType(init, kind) {
        var i :| 0 <= i < |init| && init[i].kind == kind && init[i].name == name;
        assert objects[i] == init[i];
      }
    }
  }

  /** The loop both item builders run: one `(name, name, description)` item per object of the type. */
  method ItemsOfType(objects: seq<SceneObject>, kind: ObjectType, description: string) returns (items: seq<EnumItem>)
    ensures |items| == |NamesOfType(objects, kind)|
    ensures forall i :: 0 <= i < |items| ==>
      items[i] == EnumItem(NamesOfType(objects, kind)[i], NamesOfType(objects, kind)[i], description)
  {
    items := [];
    var j := 0;
    while j < |objects|
      invariant 0 <= j <= |objects|
      invariant |items| == |NamesOfType(objects[..j], kind)|
      invariant forall i :: 0 <= i < |items| ==>
        items[i] == EnumItem(NamesOfType(objects[..j], kind)[i], NamesOfType(objects[..j], kind)[i], description)
    {
      assert objects[..j + 1][..j] == objects[..j];
      if objects[j].kind == kind {
        items := items + [EnumItem(objects[j].name, objects[j].name, description)];
      }
      j := j + 1;
    }
    assert objects[..j] == objects;
  }

  /**
   * `get_armature_items(self, context)`: one item per armature of the scene,
   * in scene order, or the single "NONE" item when there is none.
   */
  method GetArmatureItems(objects: seq<SceneObject>) returns (items: seq<EnumItem>)
    ensures |items| > 0
    ensures NamesOfType(objects, ARMATURE) == [] ==> items == [EnumItem("NONE", "No Armatures", "")]
    ensures NamesOfType(objects, ARMATURE) != [] ==>
      && |items| == |NamesOfType(objects, ARMATURE)|
      && forall i :: 0 <= i < |items| ==>
        items[i] == EnumItem(NamesOfType(objects, ARMATURE)[i], NamesOfType(objects, ARMATURE)[i], "Armature object")
  {
    items := ItemsOfType(objects, ARMATURE, "Armature object");
    if items == [] {
      items := [EnumItem("NONE", "No Armatures", "")];
    }
  }

  /**
   * `get_mesh_items(self, context)`: one item per mesh of the scene, in scene
   * order, or the single "NONE" item when there is none.
   */
  method GetMeshItems(objects: seq<SceneObject>) returns (items: seq<EnumItem>)
    ensures |items| > 0
    ensures NamesOfType(objects, MESH) == [] ==> items == [EnumItem("NONE", "No Meshes", "")]
    ensures NamesOfType(objects, MESH) != [] ==>
      && |items| == |NamesOfType(objects, MESH)|
      && forall i :: 0 <= i < |items| ==>
        items[i] == EnumItem(NamesOfType(objects, MESH)[i], NamesOfType(objects, MESH)[i], "Mesh object")
  {
    items := ItemsOfType(objects, MESH, "Mesh object");
    if items == [] {
      items := [EnumItem("NONE", "No Meshes", "")];
    }
  }

  /** An object and, through `obj.children`, the hierarchy below it. */
  datatype Node = Node(name: string, children: seq<Node>)

  /** The objects of a hierarchy, root first, then each child's hierarchy in child order. */
  function Preorder(t: Node): seq<string>
    decreases t
  {
    [t.name] + PreorderAll(t.children)
  }

  /** The preorders of a list of hierarchies, one after the other. */
  function PreorderAll(ts: seq<Node>): seq<string>
    decreases ts
  {
    if ts == [] then [] else PreorderAll(ts[..|ts| - 1]) + Preorder(ts[|ts| - 1])
  }

  /** The set of objects of a hierarchy. */
  function Members(t: Node): set<string>
    decreases t
  {
    {t.name} + MembersAll(t.children)
  }

  /** The set of objects of a list of hierarchies. */
  function MembersAll(ts: seq<Node>): set<string>
    decreases ts
  {
    if ts == [] then {} else MembersAll(ts[..|ts| - 1]) + Members(ts[|ts| - 1])
  }

  /** A hierarchy that is a tree: no object is reachable along two paths. */
  predicate IsTree(t: Node)
    decreases t
  {
    t.name !in MembersAll(t.children) && AreTrees(t.children)
  }

  /** A list of trees with pairwise disjoint objects. */
  predicate AreTrees(ts: seq<Node>)
    decreases ts
  {
    ts == [] || (AreTrees(ts[..|ts| - 1]) && IsTree(ts[|ts| - 1]) && MembersAll(ts[..|ts| - 1]) !! Members(ts[|ts| - 1]))
  }

  /** The set of elements of a list. */
  function ElementsOf(s: seq<string>): set<string>
  {
    set x | x in s
  }

  /** No element occurs twice. */
  predicate Distinct(s: seq<string>)
  {
    forall i, j :: 0 <= i < j < |s| ==> s[i] != s[j]
  }

  lemma DistinctConcat(a: seq<string>, b: seq<string>)
    requires Distinct(a) && Distinct(b) && ElementsOf(a) !! ElementsOf(b)
    ensures Distinct(a + b)
  {
    forall i, j | 0 <= i < j < |a + b| ensures (a + b)[i] != (a + b)[j] {
      if j < |a| {
        assert (a + b)[i] == a[i] && (a + b)[j] == a[j];
      } else if i >= |a| {
        assert (a + b)[i] == b[i - |a|] && (a + b)[j] == b[j - |a|];
      } else {
        assert (a + b)[i] in ElementsOf(a) && (a + b)[j] in ElementsOf(b);
      }
    }
  }

  /** The preorder lists exactly the objects of the hierarchy. */
  lemma {:induction false} PreorderMembers(t: Node)
    ensures ElementsOf(Preorder(t)) == Members(t)
    decreases t
  {
    PreorderAllMembers(t.children);
  }

  lemma {:induction false} PreorderAllMembers(ts: seq<Node>)
    ensures ElementsOf(PreorderAll(ts)) == MembersAll(ts)
    decreases ts
  {
    if ts != [] {
      PreorderAllMembers(ts[..|ts| - 1]);
      PreorderMembers(ts[|ts| - 1]);
    }
  }

  /** In a tree every object occurs in the preorder once and only once. */
  lemma {:induction false} PreorderDistinct(t: Node)
    requires IsTree(t)
    ensures Distinct(Preorder(t))
    decreases t
  {
    PreorderAllDistinct(t.children);
    PreorderAllMembers(t.children);
    DistinctConcat([t.name], PreorderAll(t.children));
  }

  lemma {:induction false} PreorderAllDistinct(ts: seq<Node>)
    requires AreTrees(ts)
    ensures Distinct(PreorderAll(ts))
    decreases ts
  {
    if ts != [] {
      var init, last := ts[..|ts| - 1], ts[|ts| - 1];
      PreorderAllDistinct(init);
      PreorderDistinct(last);
      PreorderAllMembers(init);
      PreorderMembers(last);
      DistinctConcat(PreorderAll(init), Preorder(last));
    }
  }

  /**
   * `collect(obj)` inside `delete_hierarchy`: appends `obj`, then collects
   * each child in turn, onto the list gathered so far.
   */
  method Collect(t: Node, toDelete: seq<string>) returns (r: seq<string>)
    ensures r == toDelete + Preorder(t)
    ensures |r| > |toDelete| && r[|toDelete|] == t.name
    decreases t
  {
    r := toDelete + [t.name];
    var i := 0;
    while i < |t.children|
      invariant 0 <= i <= |t.children|
      invariant r == toDelete + [t.name] + PreorderAll(t.children[..i])
    {
      assert t.children[..i + 1][..i] == t.children[..i];
      r := Collect(t.children[i], r);
      i := i + 1;
    }
    assert t.children[..i] == t.children;
  }

  /**
   * The objects `delete_hierarchy(obj)` selects for deletion: the whole
   * hierarchy in preorder, root first, each object of a tree exactly once.
   */
  method DeleteHierarchySelection(root: Node) returns (toDelete: seq<string>)
    ensures toDelete == Preorder(root)
    ensures |toDelete| > 0 && toDelete[0] == root.name
    ensures ElementsOf(toDelete) == Members(root)
    ensures IsTree(root) ==> Distinct(toDelete)
  {
    toDelete := Collect(root, []);
    PreorderMembers(root);
    if IsTree(root) {
      PreorderDistinct(root);
    }
  }
}
