/** The body-part tree as a value, the host effects `buildHierarchy` issues on
    it, and the pre-order walk those effects follow. */
module Hierarchy {
  import opened Wrappers

  /** A body part as the hierarchy build sees it: its composite name, its
      driving curve, its driven geometries and its children, all in order. */
  datatype Tree = Part(name: string, curve: string, geos: seq<string>, children: seq<Tree>)

  /** One step of the hierarchy build: a call of `annulate_object` on an
      object (whose host effects `Annulation.AnnulateEffects` gives), or the
      host call that parents `child` under `parent`. */
  datatype Step = Annulate(target: string) | Parent(child: string, parent: string)

  /** The geometry loop of `buildHierarchy`: annulate each geometry, then
      parent it under the driving curve. */
  function GeoSteps(geos: seq<string>, curve: string): seq<Step>
  {
    if geos == [] then []
    else [Annulate(geos[0]), Parent(geos[0], curve)] + GeoSteps(geos[1..], curve)
  }

  /** What `buildHierarchy` does at one node before it turns to the children. */
  function NodeSteps(t: Tree): seq<Step>
  {
    [Annulate(t.curve)] + GeoSteps(t.geos, t.curve)
  }

  /** The steps of `t.buildHierarchy()`, following the source's recursion. */
  function HierarchyLog(t: Tree): seq<Step>
    decreases t, 1
  {
    NodeSteps(t) + ChildSteps(t, 0)
  }

  /** The child loop of `buildHierarchy` from child `i` on: parent the
      child's curve under this node's curve, then build the child. */
  function ChildSteps(t: Tree, i: nat): seq<Step>
    requires i <= |t.children|
    decreases t, 0, |t.children| - i
  {
    if i == |t.children| then []
    else [Parent(t.children[i].curve, t.curve)] + HierarchyLog(t.children[i]) + ChildSteps(t, i + 1)
  }

  // ---------------------------------------------------------------------
  // The pre-order walk, defined on its own

  /** One visit of the walk: the node and the father it was reached from. */
  datatype Visit = Visit(node: Tree, father: Option<Tree>)

  /** The nodes of `t` in pre-order, each with its father (`f` for `t` itself). */
  function Visits(t: Tree, f: Option<Tree>): seq<Visit>
    decreases t, 1
  {
    [Visit(t, f)] + ChildVisits(t, 0)
  }

  /** The pre-order visits of the subtrees of children `i..` of `t`. */
  function ChildVisits(t: Tree, i: nat): seq<Visit>
    requires i <= |t.children|
    decreases t, 0, |t.children| - i
  {
    if i == |t.children| then []
    else Visits(t.children[i], Some(t)) + ChildVisits(t, i + 1)
  }

  /** The nodes of a sequence of visits. */
  function VisitedNodes(vs: seq<Visit>): (r: seq<Tree>)
    ensures |r| == |vs|
    ensures forall k :: 0 <= k < |vs| ==> r[k] == vs[k].node
  {
    if vs == [] then [] else [vs[0].node] + VisitedNodes(vs[1..])
  }

  lemma {:induction false} VisitedNodesConcat(a: seq<Visit>, b: seq<Visit>)
    ensures VisitedNodes(a + b) == VisitedNodes(a) + VisitedNodes(b)
  {
    if a != [] {
      assert (a + b)[1..] == a[1..] + b;
      VisitedNodesConcat(a[1..], b);
    } else {
      assert a + b == b;
    }
  }

  /** The effects one visit accounts for: the step that parents the node's
      curve under its father's curve (none at the root), then the node's own
      steps. */
  function VisitSteps(v: Visit): seq<Step>
  {
    ParentStep(v.node, v.father) + NodeSteps(v.node)
  }

  /** The step that parents `t`'s curve under its father's curve, if any. */
  function ParentStep(t: Tree, f: Option<Tree>): seq<Step>
  {
    match f
    case None => []
    case Some(p) => [Parent(t.curve, p.curve)]
  }

  /** The effects of a sequence of visits, one block after the other. */
  function Blocks(vs: seq<Visit>): seq<Step>
  {
    if vs == [] then [] else VisitSteps(vs[0]) + Blocks(vs[1..])
  }

  lemma {:induction false} BlocksConcat(a: seq<Visit>, b: seq<Visit>)
    ensures Blocks(a + b) == Blocks(a) + Blocks(b)
  {
    if a != [] {
      assert (a + b)[1..] == a[1..] + b;
      BlocksConcat(a[1..], b);
    } else {
      assert a + b == b;
    }
  }

  /** The effects of the walk from `t` (reached from `f`) are its own visit's
      parenting step followed by the log of `t.buildHierarchy()`. */
  lemma {:induction false} VisitsBlocks(t: Tree, f: Option<Tree>)
    ensures Blocks(Visits(t, f)) == ParentStep(t, f) + HierarchyLog(t)
    decreases t, 1
  {
    ChildVisitsBlocks(t, 0);
  }

  lemma {:induction false} ChildVisitsBlocks(t: Tree, i: nat)
    requires i <= |t.children|
    ensures Blocks(ChildVisits(t, i)) == ChildSteps(t, i)
    decreases t, 0, |t.children| - i
  {
    if i < |t.children| {
      var c := t.children[i];
      BlocksConcat(Visits(c, Some(t)), ChildVisits(t, i + 1));
      VisitsBlocks(c, Some(t));
      ChildVisitsBlocks(t, i + 1);
    }
  }

  /** The log of `t.buildHierarchy()` is the pre-order walk of `t`, node by
      node: each node's curve and geometries are annulated and its geometries
      parented, and every node but the root is preceded by the step that
      parents its curve under its father's curve. */
  lemma LogIsPreorderWalk(t: Tree)
    ensures HierarchyLog(t) == Blocks(Visits(t, None))
  {
    VisitsBlocks(t, None);
  }

  // ---------------------------------------------------------------------
  // Every node after its father

  /** Visit `k` has a father, is one of its father's children, and either
      comes from `outside` or its father was visited earlier. */
  ghost predicate FatherBefore(vs: seq<Visit>, k: int, outside: Option<Tree>)
    requires 0 <= k < |vs|
  {
    && vs[k].father.Some?
    && vs[k].node in vs[k].father.value.children
    && (vs[k].father == outside || exists j :: 0 <= j < k && Some(vs[j].node) == vs[k].father)
  }

  /** Every visit has its father before it, unless that father is `outside`. */
  ghost predicate FathersFirst(vs: seq<Visit>, outside: Option<Tree>)
  {
    forall k :: 0 <= k < |vs| ==> FatherBefore(vs, k, outside)
  }

  lemma FathersFirstConcat(a: seq<Visit>, b: seq<Visit>, outside: Option<Tree>)
    requires FathersFirst(a, outside) && FathersFirst(b, outside)
    ensures FathersFirst(a + b, outside)
  {
    forall k | 0 <= k < |a + b|
      ensures FatherBefore(a + b, k, outside)
    {
      if k < |a| {
        FatherBeforeInPrefix(a, b, k, outside);
      } else {
        FatherBeforeInSuffix(a, b, k - |a|, outside);
      }
    }
  }

  lemma FatherBeforeInPrefix(a: seq<Visit>, b: seq<Visit>, k: int, outside: Option<Tree>)
    requires 0 <= k < |a| && FatherBefore(a, k, outside)
    ensures FatherBefore(a + b, k, outside)
  {
    var ab := a + b;
    assert ab[k] == a[k];
    if ab[k].father != outside {
      var j :| 0 <= j < k && Some(a[j].node) == a[k].father;
      assert ab[j] == a[j];
    }
  }

  lemma FatherBeforeInSuffix(a: seq<Visit>, b: seq<Visit>, k: int, outside: Option<Tree>)
    requires 0 <= k < |b| && FatherBefore(b, k, outside)
    ensures FatherBefore(a + b, k + |a|, outside)
  {
    var ab := a + b;
    assert ab[k + |a|] == b[k];
    if ab[k + |a|].father != outside {
      var j :| 0 <= j < k && Some(b[j].node) == b[k].father;
      assert ab[j + |a|] == b[j];
    }
  }

  /** A visit put in front of walks whose visits have their fathers first
      (reaching back to that visit's node at most) leaves those visits with
      their fathers first. */
  lemma ConsFatherBefore(v: Visit, cs: seq<Visit>, k: int, outside: Option<Tree>)
    requires 1 <= k <= |cs| && FatherBefore(cs, k - 1, Some(v.node))
    ensures FatherBefore([v] + cs, k, outside)
  {
    var vs := [v] + cs;
    assert vs[k] == cs[k - 1];
    if cs[k - 1].father == Some(v.node) {
      assert Some(vs[0].node) == vs[k].father;
    } else {
      var j :| 0 <= j < k - 1 && Some(cs[j].node) == cs[k - 1].father;
      assert vs[j + 1] == cs[j];
    }
  }

  /** The walk from a child `t` of `f` visits every node after its father. */
  lemma {:induction false} VisitsFathersFirst(t: Tree, f: Option<Tree>)
    requires f.Some? && t in f.value.children
    ensures FathersFirst(Visits(t, f), f)
    decreases t, 1
  {
    var cs := ChildVisits(t, 0);
    var vs := [Visit(t, f)] + cs;
    ChildVisitsFathersFirst(t, 0);
    forall k | 0 <= k < |vs|
      ensures FatherBefore(vs, k, f)
    {
      if k > 0 {
        ConsFatherBefore(Visit(t, f), cs, k, f);
      }
    }
  }

  lemma {:induction false} ChildVisitsFathersFirst(t: Tree, i: nat)
    requires i <= |t.children|
    ensures FathersFirst(ChildVisits(t, i), Some(t))
    decreases t, 0, |t.children| - i
  {
    if i < |t.children| {
      var c := t.children[i];
      VisitsFathersFirst(c, Some(t));
      ChildVisitsFathersFirst(t, i + 1);
      FathersFirstConcat(Visits(c, Some(t)), ChildVisits(t, i + 1), Some(t));
    }
  }

  /** The pre-order walk of `t` visits `t` first and every other node after
      the visit of its father, of whose children it is one. */
  lemma PreorderFatherFirst(t: Tree)
    ensures var vs := Visits(t, None);
      && vs[0] == Visit(t, None)
      && forall k :: 1 <= k < |vs| ==>
           && vs[k].father.Some?
           && vs[k].node in vs[k].father.value.children
           && exists j :: 0 <= j < k && Some(vs[j].node) == vs[k].father
  {
    var cs := ChildVisits(t, 0);
    var vs := [Visit(t, None)] + cs;
    assert vs == Visits(t, None);
    ChildVisitsFathersFirst(t, 0);
    forall k | 1 <= k < |vs|
      ensures vs[k].father.Some? && vs[k].node in vs[k].father.value.children
      ensures exists j :: 0 <= j < k && Some(vs[j].node) == vs[k].father
    {
      ConsFatherBefore(Visit(t, None), cs, k, None);
      assert FatherBefore(vs, k, None);
    }
  }

  // ---------------------------------------------------------------------
  // Every node is visited

  /** `s` is `t` or a subtree of one of its children. */
  ghost predicate IsSubtree(s: Tree, t: Tree)
    decreases t
  {
    s == t || exists i :: 0 <= i < |t.children| && IsSubtree(s, t.children[i])
  }

  /** The walk from `t` visits exactly the subtrees of `t`. */
  lemma {:induction false} VisitsCover(t: Tree, f: Option<Tree>, s: Tree)
    ensures s in VisitedNodes(Visits(t, f)) <==> IsSubtree(s, t)
    decreases t, 1
  {
    var vs := Visits(t, f);
    var cs := ChildVisits(t, 0);
    ChildVisitsCover(t, 0, s);
    assert VisitedNodes(vs) == [t] + VisitedNodes(cs);
  }

  lemma {:induction false} ChildVisitsCover(t: Tree, i: nat, s: Tree)
    requires i <= |t.children|
    ensures s in VisitedNodes(ChildVisits(t, i)) <==>
      exists j :: i <= j < |t.children| && IsSubtree(s, t.children[j])
    decreases t, 0, |t.children| - i
  {
    if i < |t.children| {
      var a, b := Visits(t.children[i], Some(t)), ChildVisits(t, i + 1);
      VisitsCover(t.children[i], Some(t), s);
      ChildVisitsCover(t, i + 1, s);
      VisitedNodesConcat(a, b);
      assert s in VisitedNodes(a + b) <==> s in VisitedNodes(a) || s in VisitedNodes(b);
      if exists j :: i <= j < |t.children| && IsSubtree(s, t.children[j]) {
        var j :| i <= j < |t.children| && IsSubtree(s, t.children[j]);
        if j > i {
          assert s in VisitedNodes(b);
        }
      }
      if IsSubtree(s, t.children[i]) {
        assert i <= i < |t.children| && IsSubtree(s, t.children[i]);
      }
    }
  }
}
