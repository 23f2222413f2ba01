/** The script's construction of the doll, replayed on `BodyPart` objects:
    each part is created, linked to its father and given its extra geometry
    in the order the script does it, one section of the script (a limb, the
    neck and head) at a time, and the hierarchy is then built once from
    `master`. */
module DollBuild {
  import opened Joints
  import opened Hierarchy
  import opened BodyParts
  import opened DollTree

  /** One section of the script: a part named `name_side` driven by
      `curve` with geometries `geos` is created and linked under `father`;
      when the section builds a further geometry (`extra` is not `NoGeo`),
      the part is then given it. */
  method NewPart(name: string, side: string, curve: string, geos: GeoArg, extra: GeoArg, father: BodyPart)
    returns (part: BodyPart)
    modifies father`childs
    ensures fresh(part)
    ensures part.name == name + "_" + side && part.drivingCurve == curve
    ensures part.geos == GeosOf(geos) + GeosOf(extra)
    ensures part.father == father && part.childs == []
    ensures father.childs == old(father.childs) + [part]
  {
    part := new BodyPart(name, side, curve, geos);
    part.DefineFather(father);
    if extra != NoGeo {
      part.AppendGeos(extra);
    }
  }

  /** The left arm section: shoulder under `waist`, elbow, wrist. */
  method BuildLeftArm(waist: BodyPart) returns (shoulder: BodyPart, ghost limb: set<BodyPart>)
    modifies waist`childs
    ensures fresh(limb) && shoulder in limb
    ensures Represents(shoulder, ShoulderLeft, limb)
    ensures FathersLinked(shoulder, ShoulderLeft, limb) && FathersWithin(limb, limb + {waist})
    ensures shoulder.father == waist && waist.childs == old(waist.childs) + [shoulder]
  {
    shoulder := NewPart("shoulder", Left, "shoulder_joint_left_crv", Single("shoulder_joint_left_geo"), Single("arm_left_geo"), waist);
    var elbow := NewPart("elbow", Left, "elbow_joint_left_crv", Single("elbow_joint_left_geo"), Single("forearm_left_geo"), shoulder);
    var wrist := NewPart("wrist", Center, "wrist_joint_left_crv", Single("wrist_joint_left_geo"), Single("hand_left_geo"), elbow);
    limb := {shoulder, elbow, wrist};
    assert Represents(wrist, WristLeft, limb);
    assert FathersLinked(wrist, WristLeft, limb);
    assert Represents(elbow, ElbowLeft, limb);
    assert FathersLinked(elbow, ElbowLeft, limb);
  }

  /** The right arm section: shoulder under `waist`, elbow, wrist. */
  method BuildRightArm(waist: BodyPart) returns (shoulder: BodyPart, ghost limb: set<BodyPart>)
    modifies waist`childs
    ensures fresh(limb) && shoulder in limb
    ensures Represents(shoulder, ShoulderRight, limb)
    ensures FathersLinked(shoulder, ShoulderRight, limb) && FathersWithin(limb, limb + {waist})
    ensures shoulder.father == waist && waist.childs == old(waist.childs) + [shoulder]
  {
    shoulder := NewPart("shoulder", Right, "shoulder_joint_right_crv", Single("shoulder_joint_right_geo"), Single("arm_right_geo"), waist);
    var elbow := NewPart("elbow", Right, "elbow_joint_right_crv", Single("elbow_joint_right_geo"), Single("forearm_right_geo"), shoulder);
    var wrist := NewPart("wrist", Center, "wrist_joint_right_crv", Single("wrist_joint_right_geo"), Single("hand_right_geo"), elbow);
    limb := {shoulder, elbow, wrist};
    assert Represents(wrist, WristRight, limb);
    assert FathersLinked(wrist, WristRight, limb);
    assert Represents(elbow, ElbowRight, limb);
    assert FathersLinked(elbow, ElbowRight, limb);
  }

  /** The neck and head sections: neck under `waist`, head under the neck. */
  method BuildNeckAndHead(waist: BodyPart) returns (neck: BodyPart, ghost limb: set<BodyPart>)
    modifies waist`childs
    ensures fresh(limb) && neck in limb
    ensures Represents(neck, Neck, limb)
    ensures FathersLinked(neck, Neck, limb) && FathersWithin(limb, limb + {waist})
    ensures neck.father == waist && waist.childs == old(waist.childs) + [neck]
  {
    neck := NewPart("neck", Center, "neck_joint_center_crv", Single("neck_joint_center_geo"), NoGeo, waist);
    var head := NewPart("head", Center, "head_center_crv", Single("head_center_geo"), NoGeo, neck);
    limb := {neck, head};
    assert Represents(head, Head, limb);
    assert FathersLinked(head, Head, limb);
  }

  /** The left leg section: femoral under `root`, knee, ankle. */
  method BuildLeftLeg(root: BodyPart) returns (femoral: BodyPart, ghost limb: set<BodyPart>)
    modifies root`childs
    ensures fresh(limb) && femoral in limb
    ensures Represents(femoral, FemoralLeft, limb)
    ensures FathersLinked(femoral, FemoralLeft, limb) && FathersWithin(limb, limb + {root})
    ensures femoral.father == root && root.childs == old(root.childs) + [femoral]
  {
    femoral := NewPart("femoral", Left, "femoral_joint_left_crv", Single("femoral_joint_left_geo"), Single("thigh_left_geo"), root);
    var knee := NewPart("knee", Left, "knee_joint_left_crv", Single("knee_joint_left_geo"), Single("tibia_left_geo"), femoral);
    var ankle := NewPart("ankle", Left, "ankle_joint_left_crv", Single("ankle_joint_left_geo"), Single("foot_left_geo"), knee);
    limb := {femoral, knee, ankle};
    assert Represents(ankle, AnkleLeft, limb);
    assert FathersLinked(ankle, AnkleLeft, limb);
    assert Represents(knee, KneeLeft, limb);
    assert FathersLinked(knee, KneeLeft, limb);
  }

  /** The right leg section: femoral under `root`, knee, ankle. */
  method BuildRightLeg(root: BodyPart) returns (femoral: BodyPart, ghost limb: set<BodyPart>)
    modifies root`childs
    ensures fresh(limb) && femoral in limb
    ensures Represents(femoral, FemoralRight, limb)
    ensures FathersLinked(femoral, FemoralRight, limb) && FathersWithin(limb, limb + {root})
    ensures femoral.father == root && root.childs == old(root.childs) + [femoral]
  {
    femoral := NewPart("femoral", Right, "femoral_joint_right_crv", Single("femoral_joint_right_geo"), Single("thigh_right_geo"), root);
    var knee := NewPart("knee", Right, "knee_joint_right_crv", Single("knee_joint_right_geo"), Single("tibia_right_geo"), femoral);
    var ankle := NewPart("ankle", Right, "ankle_joint_right_crv", Single("ankle_joint_right_geo"), Single("foot_right_geo"), knee);
    limb := {femoral, knee, ankle};
    assert Represents(ankle, AnkleRight, limb);
    assert FathersLinked(ankle, AnkleRight, limb);
    assert Represents(knee, KneeRight, limb);
    assert FathersLinked(knee, KneeRight, limb);
  }

  /** A part with the fields of tree `t` whose three children have it as
      their father and stand for the three children of `t`, with their
      father links, stands for `t` with its father links in the union of
      the children's part sets. */
  lemma JoinThree(n: BodyPart, t: Tree, first: set<BodyPart>, second: set<BodyPart>, third: set<BodyPart>,
                  nodes: set<BodyPart>)
    requires nodes == {n} + first + second + third
    requires n.name == t.name && n.drivingCurve == t.curve && n.geos == t.geos
    requires |n.childs| == |t.children| == 3
    requires n.childs[0].father == n && n.childs[1].father == n && n.childs[2].father == n
    requires Represents(n.childs[0], t.children[0], first) && FathersLinked(n.childs[0], t.children[0], first)
    requires Represents(n.childs[1], t.children[1], second) && FathersLinked(n.childs[1], t.children[1], second)
    requires Represents(n.childs[2], t.children[2], third) && FathersLinked(n.childs[2], t.children[2], third)
    ensures Represents(n, t, nodes) && FathersLinked(n, t, nodes)
  {
    forall i | 0 <= i < 3
      ensures Represents(n.childs[i], t.children[i], nodes) && FathersLinked(n.childs[i], t.children[i], nodes)
    {
      var part := if i == 0 then first else if i == 1 then second else third;
      RepresentsGrow(n.childs[i], t.children[i], part, nodes);
      FathersLinkedGrow(n.childs[i], t.children[i], part, nodes);
    }
  }

  /** A part with the fields of tree `t` whose only child has it as its
      father and stands for the only child of `t` stands for `t`. */
  lemma JoinOne(n: BodyPart, t: Tree, below: set<BodyPart>, nodes: set<BodyPart>)
    requires nodes == {n} + below
    requires n.name == t.name && n.drivingCurve == t.curve && n.geos == t.geos
    requires |n.childs| == |t.children| == 1 && n.childs[0].father == n
    requires Represents(n.childs[0], t.children[0], below) && FathersLinked(n.childs[0], t.children[0], below)
    ensures Represents(n, t, nodes) && FathersLinked(n, t, nodes)
  {
    RepresentsGrow(n.childs[0], t.children[0], below, nodes);
    FathersLinkedGrow(n.childs[0], t.children[0], below, nodes);
  }

  /** Parts whose fathers lie in two sets have their fathers in any set
      holding both. */
  lemma FathersWithinUnion(a: set<BodyPart>, outerA: set<BodyPart>, b: set<BodyPart>, outerB: set<BodyPart>,
                           nodes: set<BodyPart>)
    requires FathersWithin(a, outerA) && FathersWithin(b, outerB) && outerA + outerB <= nodes
    ensures FathersWithin(a + b, nodes)
  {
  }

  /** A part under `father` above parts whose fathers are the part or among
      them: every part of the union has its father in it or is the part. */
  lemma JoinFathers(n: BodyPart, father: BodyPart, below: set<BodyPart>, nodes: set<BodyPart>)
    requires nodes == {n} + below && n.father == father
    requires FathersWithin(below, nodes)
    ensures FathersWithin(nodes, nodes + {father})
  {
  }

  /** The two arm sections, left then right, both under `waist`. */
  method BuildArms(waist: BodyPart) returns (shoulderLeft: BodyPart, shoulderRight: BodyPart, ghost arms: set<BodyPart>)
    modifies waist`childs
    ensures fresh(arms) && shoulderLeft in arms && shoulderRight in arms
    ensures Represents(shoulderLeft, ShoulderLeft, arms) && Represents(shoulderRight, ShoulderRight, arms)
    ensures waist.childs == old(waist.childs) + [shoulderLeft, shoulderRight]
    ensures shoulderLeft.father == waist && shoulderRight.father == waist
    ensures FathersLinked(shoulderLeft, ShoulderLeft, arms) && FathersLinked(shoulderRight, ShoulderRight, arms)
    ensures FathersWithin(arms, arms + {waist})
  {
    ghost var leftArm, rightArm;
    shoulderLeft, leftArm := BuildLeftArm(waist);
    shoulderRight, rightArm := BuildRightArm(waist);
    arms := leftArm + rightArm;
    RepresentsGrow(shoulderLeft, ShoulderLeft, leftArm, arms);
    RepresentsGrow(shoulderRight, ShoulderRight, rightArm, arms);
    FathersLinkedGrow(shoulderLeft, ShoulderLeft, leftArm, arms);
    FathersLinkedGrow(shoulderRight, ShoulderRight, rightArm, arms);
  }

  /** The waist section and everything above it: waist under `root`, then
      the arms and the neck with the head. */
  method BuildUpperBody(root: BodyPart) returns (waist: BodyPart, ghost body: set<BodyPart>)
    modifies root`childs
    ensures fresh(body) && waist in body
    ensures Represents(waist, Waist, body)
    ensures FathersLinked(waist, Waist, body) && FathersWithin(body, body + {root})
    ensures waist.father == root && root.childs == old(root.childs) + [waist]
  {
    waist := NewPart("waist", Center, "waist_joint_center_crv",
                     Many(["waist_joint_center_geo", "chest_center_geo"]), NoGeo, root);
    var shoulderLeft, shoulderRight, arms := BuildArms(waist);
    var neck, neckAndHead := BuildNeckAndHead(waist);
    body := {waist} + arms + neckAndHead;
    assert waist.childs == [shoulderLeft, shoulderRight, neck];
    JoinThree(waist, Waist, arms, arms, neckAndHead, body);
    FathersWithinUnion(arms, arms + {waist}, neckAndHead, neckAndHead + {waist}, body);
    JoinFathers(waist, root, arms + neckAndHead, body);
  }

  /** The two leg sections, left then right, both under `root`. */
  method BuildLegs(root: BodyPart) returns (femoralLeft: BodyPart, femoralRight: BodyPart, ghost legs: set<BodyPart>)
    modifies root`childs
    ensures fresh(legs) && femoralLeft in legs && femoralRight in legs
    ensures Represents(femoralLeft, FemoralLeft, legs) && Represents(femoralRight, FemoralRight, legs)
    ensures root.childs == old(root.childs) + [femoralLeft, femoralRight]
    ensures femoralLeft.father == root && femoralRight.father == root
    ensures FathersLinked(femoralLeft, FemoralLeft, legs) && FathersLinked(femoralRight, FemoralRight, legs)
    ensures FathersWithin(legs, legs + {root})
  {
    ghost var leftLeg, rightLeg;
    femoralLeft, leftLeg := BuildLeftLeg(root);
    femoralRight, rightLeg := BuildRightLeg(root);
    legs := leftLeg + rightLeg;
    RepresentsGrow(femoralLeft, FemoralLeft, leftLeg, legs);
    RepresentsGrow(femoralRight, FemoralRight, rightLeg, legs);
    FathersLinkedGrow(femoralLeft, FemoralLeft, leftLeg, legs);
    FathersLinkedGrow(femoralRight, FemoralRight, rightLeg, legs);
  }

  /** The root section and everything under it: root under `master`, then
      the upper body and the two legs. */
  method BuildRoot(master: BodyPart) returns (root: BodyPart, ghost below: set<BodyPart>)
    modifies master`childs
    ensures fresh(below) && root in below
    ensures Represents(root, Root, below)
    ensures FathersLinked(root, Root, below) && FathersWithin(below, below + {master})
    ensures root.father == master && master.childs == old(master.childs) + [root]
  {
    root := NewPart("root", Center, "root_center_crv", Single("root_center_geo"), NoGeo, master);
    var waist, body := BuildUpperBody(root);
    var femoralLeft, femoralRight, legs := BuildLegs(root);
    below := {root} + body + legs;
    assert root.childs == [waist, femoralLeft, femoralRight];
    JoinThree(root, Root, body, legs, legs, below);
    FathersWithinUnion(body, body + {root}, legs, legs + {root}, below);
    JoinFathers(root, master, body + legs, below);
  }

  /** The script's construction: the seventeen parts under `master`, wired
      as the doll tree. */
  method BuildDoll() returns (master: BodyPart, ghost nodes: set<BodyPart>)
    ensures Represents(master, Master, nodes)
    ensures FathersLinked(master, Master, nodes)
    ensures FathersWithin(nodes - {master}, nodes)
    ensures master.father == null
  {
    master := new BodyPart("master", Center, "master_crv", NoGeo);
    var root, below := BuildRoot(master);
    nodes := {master} + below;
    JoinOne(master, Master, below, nodes);
    assert nodes - {master} == below;
  }

  /** The whole script: build the doll, then build its hierarchy once from
      `master`. The steps are those of the pre-order walk of the doll tree. */
  method RigDoll() returns (steps: seq<Step>)
    ensures steps == HierarchyLog(Master)
  {
    var master, nodes := BuildDoll();
    steps := master.BuildHierarchy(Master, nodes);
  }
}
