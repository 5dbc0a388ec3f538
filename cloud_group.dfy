/** The resource-list deduplication of pkg/cloud/group.go.

    OwnedResourcesGroup walks the per-platform resource lists in order and
    keeps a resource only when no earlier resource had the same
    GroupVersionKind.  The lists are a parameter here: the source builds
    them from GetAWSResources, which is not part of this model. */
module Cloud {
  import opened Kube

  type OwnedResources = seq<Obj>

  /** resource.GetObjectKind().GroupVersionKind(). */
  function KindOf(o: Obj): GroupVersionKind
  {
    o.typeMeta
  }

  /** The GroupVersionKinds occurring in a list. */
  function Kinds(s: seq<Obj>): set<GroupVersionKind>
    decreases |s|
  {
    if s == [] then {} else Kinds(s[..|s| - 1]) + {KindOf(s[|s| - 1])}
  }

  /** The lists one after the other. */
  function Flatten(groups: seq<OwnedResources>): OwnedResources
    decreases |groups|
  {
    if groups == [] then [] else Flatten(groups[..|groups| - 1]) + groups[|groups| - 1]
  }

  /** Every resource of every list is in the flattened list, and nothing else. */
  lemma {:induction false} FlattenHoldsAllLists(groups: seq<OwnedResources>)
    ensures forall o :: o in Flatten(groups) <==> exists i :: 0 <= i < |groups| && o in groups[i]
    decreases |groups|
  {
    if groups != [] {
      var n := |groups| - 1;
      FlattenHoldsAllLists(groups[..n]);
      forall i, o | 0 <= i < |groups| && o in groups[i]
        ensures o in Flatten(groups)
      {
        if i < n {
          assert groups[..n][i] == groups[i];
        }
      }
      forall o | o in Flatten(groups)
        ensures exists i :: 0 <= i < |groups| && o in groups[i]
      {
        if o in Flatten(groups[..n]) {
          var i :| 0 <= i < n && o in groups[..n][i];
          assert o in groups[i];
        }
      }
    }
  }

  /** The reference definition: the list with every resource dropped whose
      kind occurred earlier. */
  function Distinct(s: seq<Obj>): seq<Obj>
    decreases |s|
  {
    if s == [] then []
    else
      var init := s[..|s| - 1];
      if KindOf(s[|s| - 1]) in Kinds(init) then Distinct(init) else Distinct(init) + [s[|s| - 1]]
  }

  /** s[i] is the first resource of its kind in s. */
  ghost predicate FirstOfKind(s: seq<Obj>, i: int)
    requires 0 <= i < |s|
  {
    forall j | 0 <= j < i :: KindOf(s[j]) != KindOf(s[i])
  }

  /** No two elements share a kind. */
  ghost predicate KindsDistinct(s: seq<Obj>)
  {
    forall a, b | 0 <= a < b < |s| :: KindOf(s[a]) != KindOf(s[b])
  }

  /** The positions of the first resource of each kind, in increasing order. */
  ghost function FirstPositions(s: seq<Obj>): seq<nat>
    decreases |s|
  {
    if s == [] then []
    else
      var n := |s| - 1;
      if KindOf(s[n]) in Kinds(s[..n]) then FirstPositions(s[..n]) else FirstPositions(s[..n]) + [n]
  }

  lemma KindsOfAppend(s: seq<Obj>, x: Obj)
    ensures Kinds(s + [x]) == Kinds(s) + {KindOf(x)}
  {
    assert (s + [x])[..|s|] == s;
  }

  lemma {:induction false} KindInKinds(s: seq<Obj>, g: GroupVersionKind)
    ensures g in Kinds(s) <==> exists j :: 0 <= j < |s| && KindOf(s[j]) == g
    decreases |s|
  {
    if s != [] {
      var n := |s| - 1;
      KindInKinds(s[..n], g);
      if exists j :: 0 <= j < |s| && KindOf(s[j]) == g {
        var j :| 0 <= j < |s| && KindOf(s[j]) == g;
        if j < n {
          assert KindOf(s[..n][j]) == g;
        }
      }
      if g in Kinds(s[..n]) {
        var j :| 0 <= j < n && KindOf(s[..n][j]) == g;
        assert KindOf(s[j]) == g;
      }
    }
  }

  /** FirstPositions lists, in increasing order, exactly the positions
      holding the first resource of their kind. */
  lemma {:induction false} FirstPositionsAreFirsts(s: seq<Obj>)
    ensures forall k | 0 <= k < |FirstPositions(s)| :: FirstPositions(s)[k] < |s|
    ensures forall k, l | 0 <= k < l < |FirstPositions(s)| :: FirstPositions(s)[k] < FirstPositions(s)[l]
    ensures forall i | 0 <= i < |s| :: i in FirstPositions(s) <==> FirstOfKind(s, i)
    decreases |s|
  {
    if s != [] {
      var n := |s| - 1;
      var init := s[..n];
      FirstPositionsAreFirsts(init);
      KindInKinds(init, KindOf(s[n]));
      forall i | 0 <= i < n
        ensures FirstOfKind(s, i) <==> FirstOfKind(init, i)
      {
        assert forall j | 0 <= j <= i :: s[j] == init[j];
      }
    }
  }

  /** Distinct(s) is s at its first positions: it keeps exactly the first
      resource of each kind, in input order. */
  lemma {:induction false} DistinctIsFirstPositions(s: seq<Obj>)
    ensures |Distinct(s)| == |FirstPositions(s)|
    ensures forall k | 0 <= k < |Distinct(s)| :: FirstPositions(s)[k] < |s| && Distinct(s)[k] == s[FirstPositions(s)[k]]
    decreases |s|
  {
    FirstPositionsAreFirsts(s);
    if s != [] {
      var n := |s| - 1;
      var init := s[..n];
      DistinctIsFirstPositions(init);
      FirstPositionsAreFirsts(init);
    }
  }

  /** The result keeps, for each kind, its first occurrence. */
  lemma FirstResourceIsKept(s: seq<Obj>, i: nat)
    requires i < |s| && FirstOfKind(s, i)
    ensures s[i] in Distinct(s)
  {
    FirstPositionsAreFirsts(s);
    DistinctIsFirstPositions(s);
    var k :| 0 <= k < |FirstPositions(s)| && FirstPositions(s)[k] == i;
    assert Distinct(s)[k] == s[i];
  }

  /** Every element of the result is the first resource of its kind. */
  lemma KeptResourceIsFirst(s: seq<Obj>, k: nat)
    requires k < |Distinct(s)|
    ensures exists i :: 0 <= i < |s| && FirstOfKind(s, i) && Distinct(s)[k] == s[i]
  {
    FirstPositionsAreFirsts(s);
    DistinctIsFirstPositions(s);
    var i := FirstPositions(s)[k];
    assert FirstOfKind(s, i) && Distinct(s)[k] == s[i];
  }

  /** No two resources of the result share a kind. */
  lemma DistinctHasDistinctKinds(s: seq<Obj>)
    ensures KindsDistinct(Distinct(s))
  {
    FirstPositionsAreFirsts(s);
    DistinctIsFirstPositions(s);
    var d, p := Distinct(s), FirstPositions(s);
    forall a, b | 0 <= a < b < |d|
      ensures KindOf(d[a]) != KindOf(d[b])
    {
      assert p[a] < p[b] && FirstOfKind(s, p[b]);
    }
  }

  /** Every kind of the input occurs in the result, and no other. */
  lemma {:induction false} DistinctKeepsAllKinds(s: seq<Obj>)
    ensures Kinds(Distinct(s)) == Kinds(s)
    decreases |s|
  {
    if s != [] {
      var n := |s| - 1;
      var init := s[..n];
      assert s == init + [s[n]];
      DistinctKeepsAllKinds(init);
      KindsOfAppend(init, s[n]);
      if KindOf(s[n]) !in Kinds(init) {
        KindsOfAppend(Distinct(init), s[n]);
      }
    }
  }

  /** The result is a subsequence of the input: there are increasing
      positions of the input holding its elements, so order is kept and it
      is no longer than the input. */
  lemma DistinctIsSubsequence(s: seq<Obj>)
    ensures |Distinct(s)| <= |s|
    ensures exists pos: seq<nat> ::
              && |pos| == |Distinct(s)|
              && (forall k, l | 0 <= k < l < |pos| :: pos[k] < pos[l])
              && (forall k | 0 <= k < |pos| :: pos[k] < |s| && Distinct(s)[k] == s[pos[k]])
  {
    FirstPositionsAreFirsts(s);
    DistinctIsFirstPositions(s);
    var pos := FirstPositions(s);
    IncreasingBelowIsShort(pos, |s|);
  }

  lemma {:induction false} IncreasingBelowIsShort(pos: seq<nat>, n: nat)
    requires forall k, l | 0 <= k < l < |pos| :: pos[k] < pos[l]
    requires forall k | 0 <= k < |pos| :: pos[k] < n
    ensures |pos| <= n
    decreases n
  {
    if pos != [] {
      var init := pos[..|pos| - 1];
      assert forall k | 0 <= k < |init| :: init[k] < pos[|pos| - 1] <= n - 1;
      IncreasingBelowIsShort(init, n - 1);
    }
  }

  /** A list whose kinds are already distinct is returned unchanged. */
  lemma {:induction false} DistinctOfDistinctKinds(s: seq<Obj>)
    requires KindsDistinct(s)
    ensures Distinct(s) == s
    decreases |s|
  {
    if s != [] {
      var n := |s| - 1;
      var init := s[..n];
      assert KindsDistinct(init);
      DistinctOfDistinctKinds(init);
      KindInKinds(init, KindOf(s[n]));
      assert s == init + [s[n]];
    }
  }

  /** One step of the loop: the next resource is kept exactly when its
      kind has not been seen. */
  lemma DistinctAppend(s: seq<Obj>, x: Obj)
    ensures Distinct(s + [x]) == if KindOf(x) in Kinds(s) then Distinct(s) else Distinct(s) + [x]
  {
    assert (s + [x])[..|s|] == s;
  }

  /** The inner loop's prefix grows by the next resource. */
  lemma PrefixStep(done: seq<Obj>, group: OwnedResources, j: nat)
    requires j < |group|
    ensures done + group[..j + 1] == (done + group[..j]) + [group[j]]
  {
    assert group[..j + 1] == group[..j] + [group[j]];
  }

  /** The inner loop starts from the lists before it and ends on them with
      the next list appended. */
  lemma FlattenAppend(groups: seq<OwnedResources>, i: nat)
    requires i < |groups|
    ensures Flatten(groups[..i]) + groups[i][..0] == Flatten(groups[..i])
    ensures Flatten(groups[..i + 1]) == Flatten(groups[..i]) + groups[i][..|groups[i]|]
  {
    assert groups[..i + 1][..i] == groups[..i];
    assert groups[i][..|groups[i]|] == groups[i];
    assert groups[i][..0] == [];
  }

  lemma DistinctOfEmpty()
    ensures Distinct([]) == []
  {
  }

  /** OwnedResourcesGroup, over the given per-platform lists. */
  method OwnedResourcesGroup(resourceUnion: seq<OwnedResources>) returns (resourceDistinct: OwnedResources)
    ensures resourceDistinct == Distinct(Flatten(resourceUnion))
  {
    resourceDistinct := [];
    var seen: set<GroupVersionKind> := {};
    for i := 0 to |resourceUnion|
      invariant resourceDistinct == Distinct(Flatten(resourceUnion[..i]))
      invariant seen == Kinds(Flatten(resourceUnion[..i]))
    {
      var platformGroup := resourceUnion[i];
      ghost var done := Flatten(resourceUnion[..i]);
      FlattenAppend(resourceUnion, i);
      for j := 0 to |platformGroup|
        invariant resourceDistinct == Distinct(done + platformGroup[..j])
        invariant seen == Kinds(done + platformGroup[..j])
      {
        var resource := platformGroup[j];
        var objType := KindOf(resource);
        PrefixStep(done, platformGroup, j);
        DistinctAppend(done + platformGroup[..j], resource);
        KindsOfAppend(done + platformGroup[..j], resource);
        if objType !in seen {
          seen := seen + {objType};
          resourceDistinct := resourceDistinct + [resource];
        }
      }
    }
    assert resourceUnion[..|resourceUnion|] == resourceUnion;
  }
}
