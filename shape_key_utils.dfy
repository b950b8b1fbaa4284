/**
 * The shape-key helpers of utils.py (its "Morph Operations" section):
 * looking a key up by name, clearing every key but the one that is kept, and
 * making the last key with a given name the active one.
 */
module ShapeKeyUtils {
  import opened Blend

  /** The one key `clear_shapekeys` leaves alone. */
  const KeptKey: string := "HideNips"

  /** A key block after `clear_shapekeys` has passed over it. */
  function ClearedKey(k: ShapeKey): ShapeKey
  {
    if k.name == KeptKey then k else k.(value := 0.0)
  }

  /** The key blocks after `clear_shapekeys`: each block passed through `ClearedKey`, in list order. */
  function Cleared(keys: seq<ShapeKey>): (r: seq<ShapeKey>)
    ensures |r| == |keys|
  {
    seq(|keys|, i requires 0 <= i < |keys| => ClearedKey(keys[i]))
  }

  /**
   * `clear_shapekeys` sets every key not named HideNips to 0.0 and changes
   * nothing else: names, order, count and the HideNips values stay.
   */
  lemma ClearedSpec(keys: seq<ShapeKey>)
    ensures |Cleared(keys)| == |keys|
    ensures forall i :: 0 <= i < |keys| ==> Cleared(keys)[i].name == keys[i].name
    ensures forall i :: 0 <= i < |keys| && keys[i].name != KeptKey ==> Cleared(keys)[i].value == 0.0
    ensures forall i :: 0 <= i < |keys| && keys[i].name == KeptKey ==> Cleared(keys)[i].value == keys[i].value
  {
  }

  /** Clearing twice is clearing once. */
  lemma ClearedIdempotent(keys: seq<ShapeKey>)
    ensures Cleared(Cleared(keys)) == Cleared(keys)
  {
  }

  /** Clearing leaves every name where it was, so a lookup by name finds the same position. */
  lemma ClearedKeepsLookup(keys: seq<ShapeKey>, name: string)
    ensures KeyBlockIndex(Cleared(keys), name) == KeyBlockIndex(keys, name)
  {
    ClearedSpec(keys);
  }

  /**
   * `get_shapekey_index(obj, shapekey)`: the position of the first key block
   * named like `shapekey`, or -1 when there is no object, no shape keys or no
   * such name.
   */
  function GetShapekeyIndex(obj: BlendObject?, shapekey: ShapeKey): (r: int)
    reads obj
    ensures -1 <= r
    ensures r >= 0 ==> obj != null && r < |obj.keys| && obj.keys[r].name == shapekey.name
    ensures r >= 0 ==> forall i :: 0 <= i < r ==> obj.keys[i].name != shapekey.name
    ensures r == -1 <==> (obj == null || |obj.keys| == 0 || forall i :: 0 <= i < |obj.keys| ==> obj.keys[i].name != shapekey.name)
  {
    if obj != null && |obj.keys| > 0 then KeyBlockIndex(obj.keys, shapekey.name) else -1
  }

  /** `clear_shapekeys(obj)`: every key block not named HideNips gets value 0.0, in list order. */
  method ClearShapekeys(obj: BlendObject?)
    requires obj != null ==> obj.Valid()
    modifies {obj} - {null}`keys
    ensures obj != null ==> obj.Valid()
    ensures obj != null ==> obj.keys == Cleared(old(obj.keys))
  {
    if obj != null {
      ghost var original := obj.keys;
      var i := 0;
      while i < |obj.keys|
        invariant 0 <= i <= |obj.keys| == |original|
        invariant forall j :: 0 <= j < i ==> obj.keys[j] == ClearedKey(original[j])
        invariant forall j :: i <= j < |original| ==> obj.keys[j] == original[j]
        invariant obj.Valid()
      {
        if obj.keys[i].name != KeptKey {
          obj.SetKeyValue(i, 0.0);
        }
        i := i + 1;
      }
      assert obj.keys == Cleared(original);
    }
  }

  /**
   * The active index `set_active_shapekey_by_name` leaves: the last position
   * whose key is named `name`, or `current` when no key has that name.
   */
  function LastMatch(keys: seq<ShapeKey>, name: string, current: int): int
  {
    if keys == [] then current
    else if keys[|keys| - 1].name == name then |keys| - 1
    else LastMatch(keys[..|keys| - 1], name, current)
  }

  /** `LastMatch` is the last matching position, and `current` exactly when nothing matches. */
  lemma {:induction false} LastMatchSpec(keys: seq<ShapeKey>, name: string, current: int)
    ensures (forall i :: 0 <= i < |keys| ==> keys[i].name != name) ==> LastMatch(keys, name, current) == current
    ensures (exists i :: 0 <= i < |keys| && keys[i].name == name) ==>
      var r := LastMatch(keys, name, current);
      0 <= r < |keys| && keys[r].name == name && forall j :: r < j < |keys| ==> keys[j].name != name
  {
    if keys != [] {
      var init := keys[..|keys| - 1];
      LastMatchSpec(init, name, current);
      if keys[|keys| - 1].name != name {
        assert forall i :: 0 <= i < |init| ==> init[i] == keys[i];
        if exists i :: 0 <= i < |keys| && keys[i].name == name {
          var i :| 0 <= i < |keys| && keys[i].name == name;
          assert init[i].name == name;
        }
      }
    }
  }

  /**
   * `set_active_shapekey_by_name(obj, name)`: walks the key blocks in order
   * and makes each one named `name` active, so the last such key wins.
   */
  method SetActiveShapekeyByName(obj: BlendObject?, name: string)
    requires obj != null ==> obj.Valid()
    modifies {obj} - {null}`activeKeyIndex
    ensures obj != null ==> obj.Valid()
    ensures obj != null ==> obj.activeKeyIndex == LastMatch(old(obj.keys), name, old(obj.activeKeyIndex))
  {
    if obj != null && |obj.keys| > 0 {
      var i := 0;
      while i < |obj.keys|
        invariant 0 <= i <= |obj.keys|
        invariant obj.Valid()
        invariant obj.activeKeyIndex == LastMatch(obj.keys[..i], name, old(obj.activeKeyIndex))
      {
        assert obj.keys[..i + 1][..i] == obj.keys[..i];
        if obj.keys[i].name == name {
          obj.SetActiveShapeKeyIndex(i);
        }
        i := i + 1;
      }
      assert obj.keys[..i] == obj.keys;
    }
  }
}
