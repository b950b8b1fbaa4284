/**
 * The part of the host application's object model that the add-on reads and
 * writes: an object's shape keys and their active index, its vertex groups and
 * per-vertex weights, its colour attributes, and the host primitives the add-on
 * calls on them (adding a shape key, setting a key's value or the active index,
 * removing a vertex group or a colour attribute).
 *
 * A Python `None` object is a null `BlendObject?`; an exception raised while an
 * operator runs is the outcome `Raised`, and the changes made before it stay.
 */
module Blend {

  /** `obj.type`, as far as the add-on distinguishes it. */
  datatype ObjectType = ARMATURE | MESH | OtherType

  /** One key block of `obj.data.shape_keys.key_blocks`. */
  datatype ShapeKey = ShapeKey(name: string, value: real)

  /** One entry of `vertex.groups`: the index of a vertex group and the vertex's weight in it. */
  datatype GroupWeight = GroupWeight(group: nat, weight: real)

  /** The group entries of one vertex of the mesh. */
  type Vertex = seq<GroupWeight>

  /** One RGBA colour of a colour attribute; channel 0 is r, 1 is g, 2 is b, 3 is a. */
  datatype Color = Color(r: real, g: real, b: real, a: real)

  /** One entry of `mesh.color_attributes`: its name and its per-element colours. */
  datatype ColorAttribute = ColorAttribute(name: string, data: seq<Color>)

  /** The Python exceptions an operator body can raise on the states it is given. */
  datatype PyError = AttributeError | IndexError | UnboundLocalError | RuntimeError

  /** How an operator's `execute` ends: `{'FINISHED'}`, `{'CANCELLED'}` after an error report, or an exception. */
  datatype Outcome = Finished | Cancelled(message: string) | Raised(error: PyError)

  /** Python's `xs[i]` position for a sequence of length n (a negative index counts from the end). */
  function PyIndex(i: int, n: nat): (r: nat)
    requires -(n as int) <= i < n
    ensures r < n
    ensures i >= 0 ==> r == i
    ensures i < 0 ==> r == n + i
  {
    if i < 0 then n + i else i
  }

  /** The position of the first name equal to `name`, or -1 when there is none. */
  function NameIndex(names: seq<string>, name: string): (r: int)
    ensures -1 <= r < |names|
    ensures r >= 0 ==> names[r] == name
    ensures r >= 0 ==> forall i :: 0 <= i < r ==> names[i] != name
    ensures r == -1 <==> forall i :: 0 <= i < |names| ==> names[i] != name
  {
    if |names| == 0 then -1
    else if names[0] == name then 0
    else
      var r := NameIndex(names[1..], name);
      if r == -1 then -1 else r + 1
  }

  /** The names of the key blocks, in order. */
  function KeyNames(keys: seq<ShapeKey>): (r: seq<string>)
    ensures |r| == |keys| && forall i :: 0 <= i < |keys| ==> r[i] == keys[i].name
  {
    seq(|keys|, i requires 0 <= i < |keys| => keys[i].name)
  }

  /**
   * The position of `key_blocks.get(name)`: the first key block with that
   * name, or -1 when `get` returns None.
   */
  function KeyBlockIndex(keys: seq<ShapeKey>, name: string): (r: int)
    ensures -1 <= r < |keys|
    ensures r >= 0 ==> keys[r].name == name
    ensures r >= 0 ==> forall i :: 0 <= i < r ==> keys[i].name != name
    ensures r == -1 <==> forall i :: 0 <= i < |keys| ==> keys[i].name != name
  {
    NameIndex(KeyNames(keys), name)
  }

  /** A lookup by name only sees names: two key lists with the same names find the same position. */
  lemma SameNamesSameIndex(a: seq<ShapeKey>, b: seq<ShapeKey>, name: string)
    requires |a| == |b|
    requires forall i :: 0 <= i < |a| ==> a[i].name == b[i].name
    ensures KeyBlockIndex(a, name) == KeyBlockIndex(b, name)
  {
    assert KeyNames(a) == KeyNames(b);
  }

  /** Setting a value leaves every name in place, so every lookup by name finds the same position. */
  lemma WithValueKeepsLookup(keys: seq<ShapeKey>, i: nat, v: real, name: string)
    requires i < |keys|
    ensures KeyBlockIndex(WithValue(keys, i, v), name) == KeyBlockIndex(keys, name)
  {
    SameNamesSameIndex(WithValue(keys, i, v), keys, name);
  }

  /** A key appended under a name no other key has is found at the end. */
  lemma AppendedLookup(keys: seq<ShapeKey>, k: ShapeKey)
    requires KeyBlockIndex(keys, k.name) < 0
    ensures KeyBlockIndex(keys + [k], k.name) == |keys|
  {
    assert (keys + [k])[|keys|].name == k.name;
    assert forall i :: 0 <= i < |keys| ==> (keys + [k])[i] == keys[i];
  }

  /**
   * Looking up a key's own name finds that key or an earlier one with the same
   * name, and exactly that key when the names are distinct.
   */
  lemma OwnNameIndex(keys: seq<ShapeKey>, p: nat)
    requires p < |keys|
    ensures 0 <= KeyBlockIndex(keys, keys[p].name) <= p
    ensures (forall i, j :: 0 <= i < j < |keys| ==> keys[i].name != keys[j].name) ==> KeyBlockIndex(keys, keys[p].name) == p
  {
  }

  /** The names of the colour attributes, in order. */
  function AttributeNames(attrs: seq<ColorAttribute>): seq<string>
  {
    seq(|attrs|, i requires 0 <= i < |attrs| => attrs[i].name)
  }

  /** The position of `color_attributes.get(name)`, or -1 when it returns None. */
  function AttributeIndex(attrs: seq<ColorAttribute>, name: string): int
  {
    NameIndex(AttributeNames(attrs), name)
  }

  /** The key blocks after `keys[i].value = v`. */
  function WithValue(keys: seq<ShapeKey>, i: nat, v: real): (r: seq<ShapeKey>)
    requires i < |keys|
    ensures |r| == |keys| && r[i] == ShapeKey(keys[i].name, v)
    ensures forall j :: 0 <= j < |keys| && j != i ==> r[j] == keys[j]
  {
    keys[i := keys[i].(value := v)]
  }

  /** The host keeps `active_shape_key_index` inside [0, max(0, n - 1)]; an assignment outside is clamped. */
  function ClampKeyIndex(i: int, n: nat): (r: int)
    ensures n == 0 ==> r == 0
    ensures n > 0 ==> 0 <= r < n
    ensures 0 <= i < n ==> r == i
  {
    if n == 0 || i < 0 then 0 else if i >= n then n - 1 else i
  }

  /** The active shape-key index is in range: 0 when there are no key blocks. */
  predicate ActiveKeyInRange(keys: seq<ShapeKey>, active: int)
  {
    if |keys| == 0 then active == 0 else 0 <= active < |keys|
  }

  /** Every vertex entry names one of the object's n vertex groups. */
  predicate GroupRefsInRange(vertices: seq<Vertex>, n: nat)
  {
    forall v, e :: v in vertices && e in v ==> e.group < n
  }

  /** A vertex's entry after group k is removed: a higher group index moves down by one. */
  function ShiftEntry(e: GroupWeight, k: nat): (r: GroupWeight)
    requires e.group != k
    ensures r.weight == e.weight
    ensures e.group < k ==> r.group == e.group
    ensures e.group > k ==> r.group == e.group - 1
  {
    if e.group > k then e.(group := e.group - 1) else e
  }

  /**
   * A vertex's entries after `vertex_groups.remove` of group k: its entry for
   * k goes, and the entries of higher groups are renumbered down by one with
   * their weights kept. The entries are kept in their order; the host moves
   * the vertex's last entry into the freed slot instead, which no reading of
   * a group's largest weight can tell apart.
   */
  function DropGroup(es: Vertex, k: nat): Vertex
  {
    if es == [] then []
    else (if es[0].group == k then [] else [ShiftEntry(es[0], k)]) + DropGroup(es[1..], k)
  }

  /** Every vertex after group k is removed. */
  function DropGroupAll(vertices: seq<Vertex>, k: nat): (r: seq<Vertex>)
    ensures |r| == |vertices|
    ensures forall i :: 0 <= i < |vertices| ==> r[i] == DropGroup(vertices[i], k)
  {
    seq(|vertices|, i requires 0 <= i < |vertices| => DropGroup(vertices[i], k))
  }

  /** Removing group k from a vertex whose entries name groups below n leaves entries that name groups below n - 1. */
  lemma {:induction false} DropGroupInRange(es: Vertex, k: nat, n: nat)
    requires k < n
    requires forall e :: e in es ==> e.group < n
    ensures forall e :: e in DropGroup(es, k) ==> e.group < n - 1
  {
    if es != [] {
      DropGroupInRange(es[1..], k, n);
      assert es[0] in es;
      forall e | e in es[1..] ensures e in es {
      }
    }
  }

  /** Removing vertex group k keeps every vertex entry in range for the shorter group list. */
  lemma DropGroupAllInRange(vertices: seq<Vertex>, k: nat, n: nat)
    requires k < n
    requires GroupRefsInRange(vertices, n)
    ensures GroupRefsInRange(DropGroupAll(vertices, k), n - 1)
  {
    var r := DropGroupAll(vertices, k);
    forall v, e | v in r && e in v ensures e.group < n - 1 {
      var i :| 0 <= i < |r| && r[i] == v;
      assert vertices[i] in vertices;
      DropGroupInRange(vertices[i], k, n);
    }
  }

  /** The active vertex-group index is -1 (no active group) or the index of a group. */
  predicate ActiveGroupInRange(groups: seq<string>, active: int)
  {
    -1 <= active < |groups|
  }

  /**
   * The host's active vertex group after group k of n is removed: an active
   * group at or above k moves down by one, and when groups remain but none
   * would be active, the first group becomes active.
   */
  function ActiveAfterRemove(active: int, k: nat, n: nat): (r: int)
    requires k < n && -1 <= active < n
    ensures -1 <= r < n - 1 || (n == 1 && r == -1)
    ensures 0 <= active < k ==> r == active
    ensures k < active ==> r == active - 1
    ensures active == k && k > 0 ==> r == k - 1
    ensures n > 1 ==> 0 <= r
    ensures n > 1 && active <= 0 ==> r == 0
    ensures n == 1 ==> r == -1
  {
    var shifted := if active >= k then active - 1 else active;
    if shifted < 0 && n > 1 then 0 else shifted
  }

  /** The one channel `c[k]` of a colour. */
  function Channel(c: Color, k: nat): real
    requires k < 4
  {
    if k == 0 then c.r else if k == 1 then c.g else if k == 2 then c.b else c.a
  }

  /** The colour after `c[k] = v`: channel k is v, every other channel is as it was. */
  function WithChannel(c: Color, k: nat, v: real): (r: Color)
    requires k < 4
    ensures Channel(r, k) == v
    ensures forall j :: 0 <= j < 4 && j != k ==> Channel(r, j) == Channel(c, j)
  {
    if k == 0 then c.(r := v) else if k == 1 then c.(g := v) else if k == 2 then c.(b := v) else c.(a := v)
  }

  /** The host object owning shape keys, vertex groups and colour attributes. */
  class BlendObject {
    /** `obj.type` */
    var kind: ObjectType
    /** `obj.data.shape_keys.key_blocks`; empty exactly when `obj.data.shape_keys` is None */
    var keys: seq<ShapeKey>
    /** `obj.active_shape_key_index` */
    var activeKeyIndex: int
    /** the names of `obj.vertex_groups`; a group's `index` is its position */
    var groups: seq<string>
    /** `obj.vertex_groups.active_index`; the active group is None when it is out of range */
    var activeGroupIndex: int
    /** `obj.data.vertices`, each vertex as its group entries */
    var vertices: seq<Vertex>
    /** `obj.data.color_attributes` */
    var colorAttributes: seq<ColorAttribute>
    /** `obj.use_mesh_mirror_x` */
    var mirrorX: bool

    /** What the host guarantees of every object it hands to the add-on. */
    ghost predicate Valid()
      reads this
    {
      && ActiveKeyInRange(keys, activeKeyIndex)
      && GroupRefsInRange(vertices, |groups|)
      && ActiveGroupInRange(groups, activeGroupIndex)
    }

    /** `obj.active_shape_key_index = i`, clamped by the host. */
    method SetActiveShapeKeyIndex(i: int)
      requires Valid()
      modifies this`activeKeyIndex
      ensures Valid()
      ensures activeKeyIndex == ClampKeyIndex(i, |keys|)
    {
      activeKeyIndex := ClampKeyIndex(i, |keys|);
    }

    /** `obj.shape_key_add(name=...)`: a new key block with value 0.0 at the end; the active index stays. */
    method ShapeKeyAdd(name: string)
      requires Valid()
      modifies this`keys
      ensures Valid()
      ensures keys == old(keys) + [ShapeKey(name, 0.0)]
    {
      keys := keys + [ShapeKey(name, 0.0)];
    }

    /** `key_blocks[i].value = v` */
    method SetKeyValue(i: nat, v: real)
      requires Valid()
      requires i < |keys|
      modifies this`keys
      ensures Valid()
      ensures keys == WithValue(old(keys), i, v)
    {
      keys := WithValue(keys, i, v);
    }

    /** `vertex_groups.remove(vertex_groups[k])`, with the host's renumbering of vertex entries and of the active group. */
    method RemoveVertexGroup(k: nat)
      requires Valid()
      requires k < |groups|
      modifies this`groups, this`vertices, this`activeGroupIndex
      ensures Valid()
      ensures groups == old(groups[..k] + groups[k + 1..])
      ensures vertices == DropGroupAll(old(vertices), k)
      ensures activeGroupIndex == ActiveAfterRemove(old(activeGroupIndex), k, |old(groups)|)
    {
      DropGroupAllInRange(vertices, k, |groups|);
      activeGroupIndex := ActiveAfterRemove(activeGroupIndex, k, |groups|);
      groups := groups[..k] + groups[k + 1..];
      vertices := DropGroupAll(vertices, k);
    }

    /** `color_attributes[d].data[i].color = c` */
    method SetColor(d: nat, i: nat, c: Color)
      requires d < |colorAttributes| && i < |colorAttributes[d].data|
      modifies this`colorAttributes
      ensures colorAttributes == old(colorAttributes[d := colorAttributes[d].(data := colorAttributes[d].data[i := c])])
    {
      colorAttributes := colorAttributes[d := colorAttributes[d].(data := colorAttributes[d].data[i := c])];
    }

    /** `color_attributes.remove(color_attributes[k])` */
    method RemoveColorAttribute(k: nat)
      requires k < |colorAttributes|
      modifies this`colorAttributes
      ensures colorAttributes == old(colorAttributes[..k] + colorAttributes[k + 1..])
    {
      colorAttributes := colorAttributes[..k] + colorAttributes[k + 1..];
    }
  }
}
