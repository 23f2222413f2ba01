/** The doll the script builds: seventeen body parts under `master`, wired
    together in creation order, and the single hierarchy build at the end. */
module Doll {
  import opened Wrappers
  import opened Strings
  import opened Joints
  import opened Hierarchy
  import opened BodyParts
  import opened DollTree
  import opened DollOrder

  // ---------------------------------------------------------------------
  // Facts about the doll's parts

  lemma CurvesInCreationOrder()
    ensures |CreationOrder| == |CreationCurves|
    ensures forall k :: 0 <= k < |CreationOrder| ==> CreationOrder[k].curve == CreationCurves[k]
  {
  }

  /** No two parts share a driving curve, so the walk visits each of the
      seventeen parts once, and visits nothing else. */
  lemma EveryPartVisitedOnce()
    ensures var vs := VisitedNodes(Visits(Master, None));
      && |vs| == 17
      && (forall i, j :: 0 <= i < j < |vs| ==> vs[i] != vs[j])
      && forall s :: s in vs <==> IsSubtree(s, Master)
  {
    var vs := VisitedNodes(Visits(Master, None));
    WalkFollowsCreationOrder();
    CurvesInCreationOrder();
    CurvesDistinct();
    forall i, j | 0 <= i < j < |vs|
      ensures vs[i] != vs[j]
    {
      assert vs[i].curve == CreationCurves[i] != CreationCurves[j] == vs[j].curve;
    }
    forall s
      ensures s in vs <==> IsSubtree(s, Master)
    {
      VisitsCover(Master, None, s);
    }
  }

  lemma CurvesDistinct()
    ensures forall i, j :: 0 <= i < j < |CreationCurves| ==> CreationCurves[i] != CreationCurves[j]
  {
  }

  /** Both wrists are named `wrist_center`: part names are not unique. */
  lemma WristNamesClash()
    ensures var vs := VisitedNodes(Visits(Master, None));
      exists i, j :: 0 <= i < j < |vs| && vs[i].name == vs[j].name == "wrist_center"
  {
    WalkFollowsCreationOrder();
    var vs := VisitedNodes(Visits(Master, None));
    assert vs[5].name == vs[8].name == "wrist_center";
  }

  /** A name none of whose letters upper-cases to `G` or `F` contains
      neither `RIGHT` nor `LEFT` once upper-cased. */
  lemma {:induction false} UntaggedNotMirrored(name: string)
    requires forall i :: 0 <= i < |name| ==> UpperChar(name[i]) != 'G' && UpperChar(name[i]) != 'F'
    ensures !MirroredName(name)
  {
    var u := Upper(name);
    forall i | 0 <= i < |name|
      ensures u[i] != 'G' && u[i] != 'F'
    {
      UpperAt(name, i);
    }
    MissingCharNotContained(u, "RIGHT", 'G');
    MissingCharNotContained(u, "LEFT", 'F');
  }

  /** A center part whose given name has no letter `g` or `f` is not flagged. */
  lemma CenterTagNotMirrored(base: string)
    requires forall i :: 0 <= i < |base| ==> UpperChar(base[i]) != 'G' && UpperChar(base[i]) != 'F'
    ensures !MirroredName(base + "_" + Center)
  {
    var name := base + "_" + Center;
    forall i | 0 <= i < |name|
      ensures UpperChar(name[i]) != 'G' && UpperChar(name[i]) != 'F'
    {
      if i >= |base| {
        assert name[i] == ("_" + Center)[i - |base|];
      }
    }
    UntaggedNotMirrored(name);
  }

  /** The seven center parts, both wrists among them, are not flagged as
      having a mirrored version. */
  lemma CenterPartsNotMirrored()
    ensures !MirroredName(Master.name) && !MirroredName(Root.name) && !MirroredName(Waist.name)
    ensures !MirroredName(WristLeft.name) && !MirroredName(WristRight.name)
    ensures !MirroredName(Neck.name) && !MirroredName(Head.name)
  {
    CenterTagNotMirrored("master");
    CenterTagNotMirrored("root");
    CenterTagNotMirrored("waist");
    CenterTagNotMirrored("wrist");
    CenterTagNotMirrored("neck");
    CenterTagNotMirrored("head");
  }

  /** The ten left and right parts are flagged as having a mirrored version. */
  lemma SidedPartsMirrored()
    ensures MirroredName(ShoulderLeft.name) && MirroredName(ElbowLeft.name)
    ensures MirroredName(FemoralLeft.name) && MirroredName(KneeLeft.name) && MirroredName(AnkleLeft.name)
    ensures MirroredName(ShoulderRight.name) && MirroredName(ElbowRight.name)
    ensures MirroredName(FemoralRight.name) && MirroredName(KneeRight.name) && MirroredName(AnkleRight.name)
  {
    SideTagMirrored("shoulder", Left);
    SideTagMirrored("elbow", Left);
    SideTagMirrored("femoral", Left);
    SideTagMirrored("knee", Left);
    SideTagMirrored("ankle", Left);
    SideTagMirrored("shoulder", Right);
    SideTagMirrored("elbow", Right);
    SideTagMirrored("femoral", Right);
    SideTagMirrored("knee", Right);
    SideTagMirrored("ankle", Right);
  }

  /** Exactly the ten left and right parts are flagged as having a mirrored
      version; the seven center parts, both wrists among them, are not. */
  lemma MirroredFlags()
    ensures forall k :: 0 <= k < |CreationOrder| ==>
      (MirroredName(CreationOrder[k].name) <==> k !in {0, 1, 2, 5, 8, 9, 10})
  {
    CenterPartsNotMirrored();
    SidedPartsMirrored();
  }
}
