/**
 * The vertex-group helpers of utils.py (its "Prune vertex groups" section):
 * `survey` finds every group's largest weight, and `prune_vertex_groups`
 * removes the groups whose largest weight is at most 0.000001.
 */
module VertexGroupUtils {
  import opened Blend

  /** A group whose surveyed maximum is at or below this is removed. */
  const PruneThreshold: real := 0.000001

  /**
   * The largest weight of group k among the entries `es`, read in order,
   * starting from 0: `m = w if w > m` for every entry of group k.
   */
  function MaxIn(es: seq<GroupWeight>, k: nat): real
  {
    if es == [] then 0.0
    else
      var m := MaxIn(es[..|es| - 1], k);
      var e := es[|es| - 1];
      if e.group == k && e.weight > m then e.weight else m
  }

  /** All vertex entries, vertex by vertex. */
  function Flatten(vertices: seq<Vertex>): seq<GroupWeight>
  {
    if vertices == [] then [] else Flatten(vertices[..|vertices| - 1]) + vertices[|vertices| - 1]
  }

  /** The largest weight of group k over all vertices, or 0 when no entry is larger. */
  function GroupMax(vertices: seq<Vertex>, k: nat): real
  {
    MaxIn(Flatten(vertices), k)
  }

  /** An entry belongs to the flattened list exactly when it belongs to one of the vertices. */
  lemma {:induction false} FlattenMembers(vertices: seq<Vertex>)
    ensures forall e :: e in Flatten(vertices) <==> exists v :: v in vertices && e in v
  {
    if vertices != [] {
      var init := vertices[..|vertices| - 1];
      FlattenMembers(init);
      assert vertices == init + [vertices[|vertices| - 1]];
    }
  }

  /** `MaxIn` is at least 0, bounds every entry of the group, and is 0 or one of the group's weights. */
  lemma {:induction false} MaxInSpec(es: seq<GroupWeight>, k: nat)
    ensures MaxIn(es, k) >= 0.0
    ensures forall e :: e in es && e.group == k ==> e.weight <= MaxIn(es, k)
    ensures MaxIn(es, k) == 0.0 || exists e :: e in es && e.group == k && e.weight == MaxIn(es, k)
  {
    if es != [] {
      var init := es[..|es| - 1];
      MaxInSpec(init, k);
      assert es == init + [es[|es| - 1]];
    }
  }

  /**
   * What `survey` promises for group k: the entry is at least 0 and at least
   * every weight of the group; it is 0 when no vertex belongs to the group;
   * and when the weights are not negative and some vertex belongs to the
   * group, it is the largest of the group's weights.
   */
  lemma GroupMaxSpec(vertices: seq<Vertex>, k: nat)
    ensures GroupMax(vertices, k) >= 0.0
    ensures forall v, e :: v in vertices && e in v && e.group == k ==> e.weight <= GroupMax(vertices, k)
    ensures (forall v, e :: v in vertices && e in v ==> e.group != k) ==> GroupMax(vertices, k) == 0.0
    ensures (forall v, e :: v in vertices && e in v ==> e.weight >= 0.0) && (exists v, e :: v in vertices && e in v && e.group == k) ==>
      exists v, e :: v in vertices && e in v && e.group == k && e.weight == GroupMax(vertices, k)
  {
    FlattenMembers(vertices);
    MaxInSpec(Flatten(vertices), k);
    if (forall v, e :: v in vertices && e in v ==> e.weight >= 0.0) && (exists v, e :: v in vertices && e in v && e.group == k) {
      var v, e :| v in vertices && e in v && e.group == k;
      assert e in Flatten(vertices);
      if GroupMax(vertices, k) == 0.0 {
        assert e.weight == 0.0;
      }
    }
  }

  /** The dictionary `survey` builds for n groups: every group index mapped to its maximum. */
  function SurveyOf(vertices: seq<Vertex>, n: nat): map<nat, real>
  {
    map k: nat | k < n :: GroupMax(vertices, k)
  }

  /**
   * `survey(obj)`: sets every group's entry to 0, then raises a group's entry
   * to each of its weights that is larger.
   */
  method Survey(obj: BlendObject) returns (maxWeight: map<nat, real>)
    requires obj.Valid()
    ensures forall k: nat :: k in maxWeight <==> k < |obj.groups|
    ensures forall k :: k in maxWeight ==> maxWeight[k] == GroupMax(obj.vertices, k)
    ensures maxWeight == SurveyOf(obj.vertices, |obj.groups|)
  {
    var n := |obj.groups|;
    var vertices := obj.vertices;
    maxWeight := map[];
    var gi := 0;
    while gi < n
      invariant 0 <= gi <= n
      invariant forall k: nat :: k in maxWeight <==> k < gi
      invariant forall k :: k in maxWeight ==> maxWeight[k] == 0.0
    {
      maxWeight := maxWeight[gi := 0.0];
      gi := gi + 1;
    }
    assert Flatten(vertices[..0]) == [];
    var vi := 0;
    while vi < |vertices|
      invariant 0 <= vi <= |vertices|
      invariant forall k: nat :: k in maxWeight <==> k < n
      invariant forall k :: k in maxWeight ==> maxWeight[k] == MaxIn(Flatten(vertices[..vi]), k)
    {
      var v := vertices[vi];
      assert v in vertices;
      var done := Flatten(vertices[..vi]);
      var j := 0;
      assert done + v[..0] == done;
      while j < |v|
        invariant 0 <= j <= |v|
        invariant forall k: nat :: k in maxWeight <==> k < n
        invariant forall k :: k in maxWeight ==> maxWeight[k] == MaxIn(done + v[..j], k)
      {
        var g := v[j];
        assert g in v;
        var gn := g.group;
        // obj.vertex_groups[g.group].weight(v.index) is the weight of this entry
        var w := g.weight;
        assert (done + v[..j + 1])[..|done + v[..j + 1]| - 1] == done + v[..j];
        assert (done + v[..j + 1])[|done + v[..j + 1]| - 1] == g;
        if gn !in maxWeight || w > maxWeight[gn] {
          maxWeight := maxWeight[gn := w];
        }
        j := j + 1;
      }
      assert v[..j] == v;
      assert vertices[..vi + 1][..vi] == vertices[..vi];
      vi := vi + 1;
    }
    assert vertices[..vi] == vertices;
    var s := SurveyOf(vertices, n);
    assert maxWeight.Keys == s.Keys;
  }

  /** Group k is removed by `prune_vertex_groups`: its surveyed maximum is at most the threshold. */
  predicate Doomed(m: map<nat, real>, k: nat)
  {
    k in m && m[k] <= PruneThreshold
  }

  /** The number of removed groups among the indices lo .. hi - 1. */
  function CountDoomed(m: map<nat, real>, lo: nat, hi: nat): (r: nat)
    ensures lo <= hi ==> r <= hi - lo
    ensures hi <= lo ==> r == 0
    decreases hi
  {
    if hi <= lo then 0 else CountDoomed(m, lo, hi - 1) + (if Doomed(m, hi - 1) then 1 else 0)
  }

  /** Starting the count one index lower adds that index when it is removed. */
  lemma {:induction false} CountDoomedFrom(m: map<nat, real>, lo: nat, hi: nat)
    requires 0 < lo <= hi
    ensures CountDoomed(m, lo - 1, hi) == CountDoomed(m, lo, hi) + (if Doomed(m, lo - 1) then 1 else 0)
    decreases hi
  {
    if hi > lo {
      CountDoomedFrom(m, lo, hi - 1);
    }
  }

  /** The indices lo .. n - 1 of the groups that stay, in increasing order. */
  function Kept(m: map<nat, real>, lo: nat, n: nat): (r: seq<nat>)
    ensures forall i :: 0 <= i < |r| ==> lo <= r[i] < n
    decreases n - lo
  {
    if lo >= n then [] else (if Doomed(m, lo) then [] else [lo]) + Kept(m, lo + 1, n)
  }

  /** `Kept` lists exactly the indices from lo below n that are not removed, each once and in increasing order. */
  lemma {:induction false} KeptSpec(m: map<nat, real>, lo: nat, n: nat)
    ensures forall k :: k in Kept(m, lo, n) <==> lo <= k < n && !Doomed(m, k)
    ensures forall i, j :: 0 <= i < j < |Kept(m, lo, n)| ==> Kept(m, lo, n)[i] < Kept(m, lo, n)[j]
    decreases n - lo
  {
    if lo < n {
      var rest := Kept(m, lo + 1, n);
      KeptSpec(m, lo + 1, n);
      assert forall i :: 0 <= i < |rest| ==> lo < rest[i];
      assert Kept(m, lo, n) == (if Doomed(m, lo) then [] else [lo]) + rest;
    }
  }

  /** The names at the given positions, in that order. */
  function Select(names: seq<string>, idx: seq<nat>): (r: seq<string>)
    requires forall i :: 0 <= i < |idx| ==> idx[i] < |names|
    ensures |r| == |idx|
  {
    if idx == [] then [] else [names[idx[0]]] + Select(names, idx[1..])
  }

  /** `Select` picks, at each position, the name at the corresponding index. */
  lemma {:induction false} SelectSpec(names: seq<string>, idx: seq<nat>)
    requires forall i :: 0 <= i < |idx| ==> idx[i] < |names|
    ensures forall i :: 0 <= i < |idx| ==> Select(names, idx)[i] == names[idx[i]]
  {
    if idx != [] {
      SelectSpec(names, idx[1..]);
    }
  }

  /** The vertex groups left when the groups `m` dooms are removed. */
  function PrunedGroups(names: seq<string>, m: map<nat, real>): (r: seq<string>)
  {
    KeptSpec(m, 0, |names|);
    Select(names, Kept(m, 0, |names|))
  }

  /**
   * The groups `prune_vertex_groups` leaves are exactly those whose largest
   * weight is above the threshold, in their original order.
   */
  lemma PrunedGroupsSpec(names: seq<string>, vertices: seq<Vertex>)
    ensures var kept := Kept(SurveyOf(vertices, |names|), 0, |names|);
      && PrunedGroups(names, SurveyOf(vertices, |names|)) == Select(names, kept)
      && (forall k: nat :: k in kept <==> k < |names| && GroupMax(vertices, k) > PruneThreshold)
      && (forall i, j :: 0 <= i < j < |kept| ==> kept[i] < kept[j])
      && |PrunedGroups(names, SurveyOf(vertices, |names|))| == |kept|
      && (forall i :: 0 <= i < |kept| ==> PrunedGroups(names, SurveyOf(vertices, |names|))[i] == names[kept[i]])
  {
    KeptSpec(SurveyOf(vertices, |names|), 0, |names|);
    SelectSpec(names, Kept(SurveyOf(vertices, |names|), 0, |names|));
  }

  /**
   * A vertex entry once the removed groups from lo upwards are gone: an entry
   * of a group from lo upwards moves down by the number of removed groups
   * between lo and it.
   */
  function RenumberEntry(e: GroupWeight, m: map<nat, real>, lo: nat): GroupWeight
  {
    if e.group >= lo then e.(group := e.group - CountDoomed(m, lo, e.group)) else e
  }

  /** A vertex's entries once the removed groups from lo upwards are gone. */
  function Renumber(es: Vertex, m: map<nat, real>, lo: nat): Vertex
  {
    if es == [] then []
    else (if es[0].group >= lo && Doomed(m, es[0].group) then [] else [RenumberEntry(es[0], m, lo)]) + Renumber(es[1..], m, lo)
  }

  /** Every vertex once the removed groups from lo upwards are gone. */
  function RenumberAll(vertices: seq<Vertex>, m: map<nat, real>, lo: nat): (r: seq<Vertex>)
    ensures |r| == |vertices|
    ensures forall i :: 0 <= i < |vertices| ==> r[i] == Renumber(vertices[i], m, lo)
  {
    seq(|vertices|, i requires 0 <= i < |vertices| => Renumber(vertices[i], m, lo))
  }

  /**
   * The active group index once the removed groups from lo upwards of n are
   * gone: an active group from lo upwards moves down by the number of removed
   * groups up to it, and when some but not all groups were removed and none
   * would be active, the first group is active.
   */
  function ShiftActive(active: int, m: map<nat, real>, lo: nat, n: nat): int
  {
    var shifted := if active < lo then active else active - CountDoomed(m, lo, active + 1);
    var removed := CountDoomed(m, lo, n);
    if 0 < removed < n && shifted < 0 then 0 else shifted
  }

  /** Before anything is removed (lo = n), renumbering changes no entry below n. */
  lemma {:induction false} RenumberNothing(es: Vertex, m: map<nat, real>, n: nat)
    requires forall e :: e in es ==> e.group < n
    ensures Renumber(es, m, n) == es
  {
    if es != [] {
      assert es[0] in es;
      forall e | e in es[1..] ensures e.group < n {
        assert e in es;
      }
      RenumberNothing(es[1..], m, n);
    }
  }

  /** Renumbering distributes over a split of the entries. */
  lemma {:induction false} DropGroupConcat(a: Vertex, b: Vertex, k: nat)
    ensures DropGroup(a + b, k) == DropGroup(a, k) + DropGroup(b, k)
  {
    if a == [] {
      assert a + b == b;
    } else {
      assert (a + b)[0] == a[0];
      assert (a + b)[1..] == a[1..] + b;
      DropGroupConcat(a[1..], b, k);
    }
  }

  /**
   * One step of the descending walk: with the groups from lo upwards already
   * gone, removing group lo - 1 when it is doomed (and doing nothing when it
   * is not) leaves the entries for the groups from lo - 1 upwards gone.
   */
  lemma {:induction false} RenumberStep(es: Vertex, m: map<nat, real>, lo: nat)
    requires lo > 0
    ensures Doomed(m, lo - 1) ==> DropGroup(Renumber(es, m, lo), lo - 1) == Renumber(es, m, lo - 1)
    ensures !Doomed(m, lo - 1) ==> Renumber(es, m, lo) == Renumber(es, m, lo - 1)
  {
    if es != [] {
      RenumberStep(es[1..], m, lo);
      var e := es[0];
      var j := lo - 1;
      if e.group >= lo {
        CountDoomedFrom(m, lo, e.group);
      }
      var head := if e.group >= lo && Doomed(m, e.group) then [] else [RenumberEntry(e, m, lo)];
      assert Renumber(es, m, lo) == head + Renumber(es[1..], m, lo);
      if Doomed(m, j) {
        DropGroupConcat(head, Renumber(es[1..], m, lo), j);
        if head != [] {
          assert DropGroup(head, j) == (if head[0].group == j then [] else [ShiftEntry(head[0], j)]) + DropGroup([], j);
        }
      }
    }
  }

  /** The vertex-level form of `RenumberStep`. */
  lemma RenumberAllStep(vertices: seq<Vertex>, m: map<nat, real>, lo: nat)
    requires lo > 0
    ensures Doomed(m, lo - 1) ==> DropGroupAll(RenumberAll(vertices, m, lo), lo - 1) == RenumberAll(vertices, m, lo - 1)
    ensures !Doomed(m, lo - 1) ==> RenumberAll(vertices, m, lo) == RenumberAll(vertices, m, lo - 1)
  {
    forall i | 0 <= i < |vertices| {
      RenumberStep(vertices[i], m, lo);
    }
  }

  /** The kept indices from lo below n are those not removed: n - lo less the removed ones. */
  lemma {:induction false} KeptLength(m: map<nat, real>, lo: nat, n: nat)
    requires lo <= n
    ensures |Kept(m, lo, n)| == n - lo - CountDoomed(m, lo, n)
    decreases n - lo
  {
    if lo < n {
      KeptLength(m, lo + 1, n);
      CountDoomedFrom(m, lo + 1, n);
    }
  }

  /** Counting removed groups over lo .. hi - 1 is counting over lo .. mid - 1 and then mid .. hi - 1. */
  lemma {:induction false} CountDoomedSplit(m: map<nat, real>, lo: nat, mid: nat, hi: nat)
    requires lo <= mid <= hi
    ensures CountDoomed(m, lo, hi) == CountDoomed(m, lo, mid) + CountDoomed(m, mid, hi)
    decreases hi
  {
    if hi > mid {
      CountDoomedSplit(m, lo, mid, hi - 1);
    }
  }

  /**
   * With the groups from lo upwards of n gone, the active index is -1 or names
   * one of the groups that remain.
   */
  lemma ShiftActiveInRange(active: int, m: map<nat, real>, lo: nat, n: nat)
    requires lo <= n && -1 <= active < n
    ensures CountDoomed(m, lo, n) <= n - lo
    ensures -1 <= ShiftActive(active, m, lo, n) < n - CountDoomed(m, lo, n)
  {
    if active >= lo {
      CountDoomedSplit(m, lo, active + 1, n);
    }
  }

  /**
   * The active index after group lo - 1 is removed (when doomed) from a state
   * where the groups from lo upwards are gone and n minus the removed ones remain.
   */
  lemma ShiftActiveStep(active: int, m: map<nat, real>, lo: nat, n: nat)
    requires 0 < lo <= n && -1 <= active < n
    ensures Doomed(m, lo - 1) ==>
      && CountDoomed(m, lo, n) < n
      && -1 <= ShiftActive(active, m, lo, n) < n - CountDoomed(m, lo, n)
      && ActiveAfterRemove(ShiftActive(active, m, lo, n), lo - 1, n - CountDoomed(m, lo, n)) == ShiftActive(active, m, lo - 1, n)
    ensures !Doomed(m, lo - 1) ==> ShiftActive(active, m, lo, n) == ShiftActive(active, m, lo - 1, n)
  {
    CountDoomedFrom(m, lo, n);
    ShiftActiveInRange(active, m, lo, n);
    if active >= lo {
      CountDoomedFrom(m, lo, active + 1);
    }
  }

  /** A kept index k sits in `Kept` after the kept indices below it. */
  lemma {:induction false} KeptAt(m: map<nat, real>, lo: nat, n: nat, k: nat)
    requires lo <= k < n && !Doomed(m, k)
    ensures CountDoomed(m, lo, k) <= k - lo
    ensures k - lo - CountDoomed(m, lo, k) < |Kept(m, lo, n)|
    ensures Kept(m, lo, n)[k - lo - CountDoomed(m, lo, k)] == k
    decreases k - lo
  {
    if lo < k {
      KeptAt(m, lo + 1, n, k);
      CountDoomedFrom(m, lo + 1, k);
    }
  }

  /**
   * A vertex entry that survives pruning still names its group: renumbered,
   * it is the index of the same group name among the groups left, with the
   * same weight.
   */
  lemma RenumberedEntryName(names: seq<string>, m: map<nat, real>, e: GroupWeight)
    requires e.group < |names| && !Doomed(m, e.group)
    ensures RenumberEntry(e, m, 0).weight == e.weight
    ensures RenumberEntry(e, m, 0).group < |PrunedGroups(names, m)|
    ensures PrunedGroups(names, m)[RenumberEntry(e, m, 0).group] == names[e.group]
  {
    KeptAt(m, 0, |names|, e.group);
    SelectSpec(names, Kept(m, 0, |names|));
  }

  /**
   * The active group after pruning: a surviving active group stays active
   * under its new index, and there is no active group exactly when no group
   * is left, or when none was active and nothing was removed.
   */
  lemma PrunedActiveGroup(names: seq<string>, m: map<nat, real>, active: int)
    requires -1 <= active < |names|
    ensures var r := ShiftActive(active, m, 0, |names|);
      && -1 <= r < |PrunedGroups(names, m)|
      && (0 <= active && !Doomed(m, active) ==> 0 <= r && PrunedGroups(names, m)[r] == names[active])
      && (r == -1 <==> |PrunedGroups(names, m)| == 0 || (active == -1 && CountDoomed(m, 0, |names|) == 0))
  {
    var n := |names|;
    KeptLength(m, 0, n);
    KeptSpec(m, 0, n);
    SelectSpec(names, Kept(m, 0, n));
    ShiftActiveInRange(active, m, 0, n);
    if active >= 0 {
      CountDoomedSplit(m, 0, active + 1, n);
      if !Doomed(m, active) {
        KeptAt(m, 0, n, active);
      }
    }
  }

  /** Removing position k from a + b, where a ends at position k, removes the last element of a. */
  lemma DropLastOfPrefix(a: seq<string>, b: seq<string>, k: nat)
    requires |a| == k + 1
    ensures (a + b)[..k] + (a + b)[k + 1..] == a[..k] + b
  {
    assert (a + b)[..k] == a[..k];
    assert (a + b)[k + 1..] == b;
  }

  /** A removed index is dropped from the list of kept indices without a trace. */
  lemma KeptDoomedStep(m: map<nat, real>, gn: nat, n: nat)
    requires gn < n && Doomed(m, gn)
    ensures Kept(m, gn, n) == Kept(m, gn + 1, n)
  {
  }

  /** A kept index gn joins the prefix of names that the walk has not reached yet. */
  lemma GroupsKeptStep(names: seq<string>, m: map<nat, real>, gn: nat, n: nat)
    requires gn < n == |names| && !Doomed(m, gn)
    ensures names[..gn + 1] + Select(names, Kept(m, gn + 1, n)) == names[..gn] + Select(names, Kept(m, gn, n))
  {
    var rest := Kept(m, gn + 1, n);
    assert Kept(m, gn, n) == [gn] + rest;
    assert ([gn] + rest)[1..] == rest;
    var tail := Select(names, rest);
    assert Select(names, [gn] + rest) == [names[gn]] + tail;
    assert names[..gn + 1] == names[..gn] + [names[gn]];
    assert (names[..gn] + [names[gn]]) + tail == names[..gn] + ([names[gn]] + tail);
  }

  /**
   * The state of `obj` once the descending walk has dealt with every group
   * from gn up: groups below gn are untouched, the doomed ones above are gone.
   */
  ghost predicate WalkedDownTo(obj: BlendObject, names: seq<string>, vertices: seq<Vertex>, active: int, m: map<nat, real>, gn: nat)
    reads obj
  {
    && gn <= |names|
    && -1 <= active < |names|
    && obj.groups == names[..gn] + Select(names, Kept(m, gn, |names|))
    && obj.vertices == RenumberAll(vertices, m, gn)
    && obj.activeGroupIndex == ShiftActive(active, m, gn, |names|)
  }

  /** One turn of the walk: group gn is removed exactly when its surveyed maximum is at or below the threshold. */
  method RemoveIfDoomed(obj: BlendObject, m: map<nat, real>, gn: nat,
                        ghost names: seq<string>, ghost vertices: seq<Vertex>, ghost active: int)
      returns (removedGroup: bool)
    requires obj.Valid()
    requires gn < |names| && gn in m
    requires WalkedDownTo(obj, names, vertices, active, m, gn + 1)
    modifies obj`groups, obj`vertices, obj`activeGroupIndex
    ensures obj.Valid()
    ensures WalkedDownTo(obj, names, vertices, active, m, gn)
    ensures removedGroup <==> Doomed(m, gn)
  {
    var n := |names|;
    RenumberAllStep(vertices, m, gn + 1);
    ShiftActiveStep(active, m, gn + 1, n);
    KeptLength(m, gn + 1, n);
    if m[gn] <= PruneThreshold {
      KeptDoomedStep(m, gn, n);
      DropLastOfPrefix(names[..gn + 1], Select(names, Kept(m, gn + 1, n)), gn);
      assert names[..gn + 1][..gn] == names[..gn];
      obj.RemoveVertexGroup(gn);
      removedGroup := true;
    } else {
      GroupsKeptStep(names, m, gn, n);
      removedGroup := false;
    }
  }

  /** Before the walk starts (gn = n) nothing has been removed and the object is as the survey found it. */
  lemma WalkStarts(obj: BlendObject, m: map<nat, real>)
    requires obj.Valid()
    requires forall k: nat :: k in m <==> k < |obj.groups|
    ensures WalkedDownTo(obj, obj.groups, obj.vertices, obj.activeGroupIndex, m, |obj.groups|)
  {
    var n := |obj.groups|;
    forall v | v in obj.vertices ensures Renumber(v, m, n) == v {
      forall e | e in v ensures e.group < n {
      }
      RenumberNothing(v, m, n);
    }
    assert RenumberAll(obj.vertices, m, n) == obj.vertices;
    assert obj.groups[..n] == obj.groups;
  }

  /** The removal loop: the groups n - 1 down to 0 in turn, each removed when it is doomed. */
  method WalkDown(obj: BlendObject, m: map<nat, real>, n: nat,
                  ghost names: seq<string>, ghost vertices: seq<Vertex>, ghost active: int)
      returns (ghost removed: seq<nat>)
    requires obj.Valid()
    requires n == |names|
    requires forall k: nat :: k in m <==> k < |names|
    requires WalkedDownTo(obj, names, vertices, active, m, |names|)
    modifies obj`groups, obj`vertices, obj`activeGroupIndex
    ensures obj.Valid()
    ensures WalkedDownTo(obj, names, vertices, active, m, 0)
    ensures forall i, j :: 0 <= i < j < |removed| ==> removed[i] > removed[j]
    ensures forall k: nat :: k in removed <==> k < |names| && Doomed(m, k)
  {
    removed := [];
    // the keys of m are exactly 0 .. n - 1, so sorting them by -gn gives n - 1 down to 0
    var gn := n;
    while gn > 0
      invariant 0 <= gn <= |names|
      invariant obj.Valid()
      invariant WalkedDownTo(obj, names, vertices, active, m, gn)
      invariant forall i, j :: 0 <= i < j < |removed| ==> removed[i] > removed[j]
      invariant forall k: nat :: k in removed <==> gn <= k < |names| && Doomed(m, k)
      decreases gn
    {
      gn := gn - 1;
      var removedGroup := RemoveIfDoomed(obj, m, gn, names, vertices, active);
      if removedGroup {
        assert forall i :: 0 <= i < |removed| ==> removed[i] in removed;
        removed := removed + [gn];
      }
    }
  }

  /** One object's part of `prune_vertex_groups`: survey, then remove doomed groups from the highest index down. */
  method PruneObject(obj: BlendObject) returns (ghost removed: seq<nat>)
    requires obj.Valid()
    modifies obj`groups, obj`vertices, obj`activeGroupIndex
    ensures obj.Valid()
    ensures var m := SurveyOf(old(obj.vertices), |old(obj.groups)|);
      && obj.groups == PrunedGroups(old(obj.groups), m)
      && obj.vertices == RenumberAll(old(obj.vertices), m, 0)
      && obj.activeGroupIndex == ShiftActive(old(obj.activeGroupIndex), m, 0, |old(obj.groups)|)
    ensures forall i, j :: 0 <= i < j < |removed| ==> removed[i] > removed[j]
    ensures forall k: nat :: k in removed <==> k < |old(obj.groups)| && Doomed(SurveyOf(old(obj.vertices), |old(obj.groups)|), k)
  {
    var maxWeight := Survey(obj);
    ghost var names := obj.groups;
    WalkStarts(obj, maxWeight);
    removed := WalkDown(obj, maxWeight, |obj.groups|, names, obj.vertices, obj.activeGroupIndex);
    assert names[..0] + Select(names, Kept(maxWeight, 0, |names|)) == PrunedGroups(names, maxWeight);
  }

  /** `prune_vertex_groups(objects)`: prunes each object of the list in turn. */
  method PruneVertexGroups(objects: seq<BlendObject>)
    requires forall i, j :: 0 <= i < j < |objects| ==> objects[i] != objects[j]
    requires forall o :: o in objects ==> o.Valid()
    modifies objects`groups, objects`vertices, objects`activeGroupIndex
    ensures forall o :: o in objects ==> o.Valid()
    ensures forall o :: o in objects ==>
      var m := SurveyOf(old(o.vertices), |old(o.groups)|);
      && o.groups == PrunedGroups(old(o.groups), m)
      && o.vertices == RenumberAll(old(o.vertices), m, 0)
      && o.activeGroupIndex == ShiftActive(old(o.activeGroupIndex), m, 0, |old(o.groups)|)
  {
    var i := 0;
    while i < |objects|
      invariant 0 <= i <= |objects|
      invariant forall o :: o in objects ==> o.Valid()
      invariant forall j :: 0 <= j < i ==>
        var o := objects[j];
        var m := SurveyOf(old(o.vertices), |old(o.groups)|);
        && o.groups == PrunedGroups(old(o.groups), m)
        && o.vertices == RenumberAll(old(o.vertices), m, 0)
        && o.activeGroupIndex == ShiftActive(old(o.activeGroupIndex), m, 0, |old(o.groups)|)
      invariant forall j :: i <= j < |objects| ==>
        var o := objects[j];
        o.groups == old(o.groups) && o.vertices == old(o.vertices) && o.activeGroupIndex == old(o.activeGroupIndex)
    {
      var _ := PruneObject(objects[i]);
      i := i + 1;
    }
  }
}
