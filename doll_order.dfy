/** The order in which the hierarchy build visits the doll's parts. */
module DollOrder {
  import opened Wrappers
  import opened Hierarchy
  import opened DollTree

  /** The subtrees of `t` in pre-order, computed directly. */
  function Preorder(t: Tree): seq<Tree>
    decreases t, 1
  {
    [t] + ChildPreorder(t, 0)
  }

  function ChildPreorder(t: Tree, i: nat): seq<Tree>
    requires i <= |t.children|
    decreases t, 0, |t.children| - i
  {
    if i == |t.children| then [] else Preorder(t.children[i]) + ChildPreorder(t, i + 1)
  }

  lemma {:induction false} PreorderVisited(t: Tree, f: Option<Tree>)
    ensures VisitedNodes(Visits(t, f)) == Preorder(t)
    decreases t, 1
  {
    VisitedNodesConcat([Visit(t, f)], ChildVisits(t, 0));
    ChildPreorderVisited(t, 0);
  }

  lemma {:induction false} ChildPreorderVisited(t: Tree, i: nat)
    requires i <= |t.children|
    ensures VisitedNodes(ChildVisits(t, i)) == ChildPreorder(t, i)
    decreases t, 0, |t.children| - i
  {
    if i < |t.children| {
      VisitedNodesConcat(Visits(t.children[i], Some(t)), ChildVisits(t, i + 1));
      PreorderVisited(t.children[i], Some(t));
      ChildPreorderVisited(t, i + 1);
    }
  }

  lemma PreorderOfOnlyChild(t: Tree)
    requires |t.children| == 1
    ensures Preorder(t) == [t] + Preorder(t.children[0])
  {
    assert ChildPreorder(t, 1) == [];
  }

  lemma LeftArmOrder()
    ensures Preorder(ShoulderLeft) == [ShoulderLeft, ElbowLeft, WristLeft]
  {
    assert Preorder(WristLeft) == [WristLeft];
    PreorderOfOnlyChild(ElbowLeft);
    PreorderOfOnlyChild(ShoulderLeft);
  }

  lemma RightArmOrder()
    ensures Preorder(ShoulderRight) == [ShoulderRight, ElbowRight, WristRight]
  {
    assert Preorder(WristRight) == [WristRight];
    PreorderOfOnlyChild(ElbowRight);
    PreorderOfOnlyChild(ShoulderRight);
  }

  lemma LeftLegOrder()
    ensures Preorder(FemoralLeft) == [FemoralLeft, KneeLeft, AnkleLeft]
  {
    assert Preorder(AnkleLeft) == [AnkleLeft];
    PreorderOfOnlyChild(KneeLeft);
    PreorderOfOnlyChild(FemoralLeft);
  }

  lemma RightLegOrder()
    ensures Preorder(FemoralRight) == [FemoralRight, KneeRight, AnkleRight]
  {
    assert Preorder(AnkleRight) == [AnkleRight];
    PreorderOfOnlyChild(KneeRight);
    PreorderOfOnlyChild(FemoralRight);
  }

  lemma UpperBodyOrder()
    ensures Preorder(Waist) ==
      [Waist, ShoulderLeft, ElbowLeft, WristLeft, ShoulderRight, ElbowRight, WristRight, Neck, Head]
  {
    LeftArmOrder();
    RightArmOrder();
    assert Preorder(Head) == [Head];
    PreorderOfOnlyChild(Neck);
    assert ChildPreorder(Waist, 2) == [Neck, Head];
    assert ChildPreorder(Waist, 1) == [ShoulderRight, ElbowRight, WristRight, Neck, Head];
    assert ChildPreorder(Waist, 0) == [ShoulderLeft, ElbowLeft, WristLeft] + ChildPreorder(Waist, 1);
  }

  lemma LowerBodyOrder()
    ensures ChildPreorder(Root, 1) ==
      [FemoralLeft, KneeLeft, AnkleLeft, FemoralRight, KneeRight, AnkleRight]
  {
    LeftLegOrder();
    RightLegOrder();
    assert ChildPreorder(Root, 2) == [FemoralRight, KneeRight, AnkleRight];
  }

  lemma DollOrder()
    ensures Preorder(Master) == CreationOrder
  {
    PreorderOfOnlyChild(Master);
    UpperBodyOrder();
    LowerBodyOrder();
    assert Preorder(Root) == [Root] + Preorder(Waist) + ChildPreorder(Root, 1);
  }

  /** The hierarchy build visits the parts in the order the script created them. */
  lemma WalkFollowsCreationOrder()
    ensures VisitedNodes(Visits(Master, None)) == CreationOrder
  {
    PreorderVisited(Master, None);
    DollOrder();
  }
}
