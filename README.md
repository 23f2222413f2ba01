# Basic FK doll rig, modelled in Dafny

`basic_doll_FK.py` builds a forward-kinematics doll in a 3D modelling host.
It creates seventeen body parts. Each part has a control curve and some
meshes. It wires the parts into a tree under a `master` control, and a single
recursive `buildHierarchy` call then parents every mesh and every child curve
under the right control. This project models the parts of the script that
decide something:

- The `BodyPart` class is a Dafny `class` with the same fields. Its methods
  update those fields in place. Its getters are functions that read them.
  `buildHierarchy` is a recursive method that returns the log of host steps
  it would issue. A step is "annulate object x" or "parent x under y".
- `annulate_object` is a method. It lists attribute paths by extension and
  then locks each one in a loop. A function states which of the nine
  transform channels end up locked.
- `paintCurve` is modelled as its colour choice, `create_joint` as its
  branch table.
- The doll the script builds is a value tree, `DollTree.Master`. A method
  replays the script's construction on `BodyPart` objects and proves that
  they stand for that tree, with every father link set. Building the doll and then
  calling `master.buildHierarchy()` (`RigDoll`) produces the
  hierarchy log of that tree.

Host calls (`cmds.*`) are opaque. They appear only as abstract `Scene.Effect`
values or `Hierarchy.Step` values, recorded in the order the script issues
them.

The main results:

- `buildHierarchy` performs a pre-order walk.
  - Its log is the concatenation of one block per visited part.
  - Every part is visited after its father.
  - The walk visits exactly the parts of the tree.
- On the doll:
  - The walk visits the seventeen parts once each, in the order the script
    created them.
  - Both wrists are created with the center side tag. So two distinct parts
    share the name `wrist_center`, and neither wrist is flagged as
    "has a mirrored version".
  - Exactly the ten parts named with `left` or `right` are flagged.
- `annulate_object` locks a channel exactly when the channel is in the
  channel rule for that name. The rule is:
  - Curves (name contains `crv`) lock scale, and lock translation unless the
    name contains `root` or `master`.
  - Everything else locks all nine channels.

The locking rule depends on the object's name, not on its side tag
(`basic_doll_FK.py:156-165`).

## Model

| member | source | states |
|---|---|---|
| Strings.ContainsIff | basic_doll_FK.py:156-158 | Python's substring test `sub in s` holds exactly when `sub` occurs at some index of `s` |
| Strings.UpperAt | basic_doll_FK.py:82 | `upper()` keeps the length and upper-cases each character in place (ASCII letters only) |
| Strings.UpperConcat | basic_doll_FK.py:82 | upper-casing a concatenation is the concatenation of the upper-cased halves |
| Strings.MissingCharNotContained | basic_doll_FK.py:82 | a string lacking some character of `sub` does not contain `sub` |
| Annulation.LockedChannels | basic_doll_FK.py:154-165 | the channels locked are exactly: all nine for a non-curve; for a curve, scale plus translation unless the name is a root or master control; listed in tx..sz order |
| Annulation.AttrsAt | basic_doll_FK.py:159-165 | the k-th attribute path is `target + "." + suffix` of the k-th listed channel |
| Annulation.AttrInjective | basic_doll_FK.py:159-165 | different channels of one object have different attribute paths |
| Annulation.AnnulateLocksExactly | basic_doll_FK.py:148-168 | `annulate_object` locks the attribute of channel `ch` if and only if `ch` is selected by the channel rule |
| Annulation.AnnulateObject | basic_doll_FK.py:148-168 | the effects are freeze, delete history, then one lock per selected channel, in the order the lists are extended |
| Annulation.LockAttributes | basic_doll_FK.py:167-168 | the loop locks every listed attribute once, in list order |
| Joints.CurveColor | basic_doll_FK.py:95-101 | colour 22 if and only if side is center, 13 if and only if left, 6 if and only if neither |
| Joints.PaintCurve | basic_doll_FK.py:95-104 | two attribute sets on the curve: override enabled first, then the override colour set to the colour chosen for `side` (`CurveColor`), one of 22, 13, 6 |
| Joints.CreateJoint | basic_doll_FK.py:108-144 | radius per joint name (elbow/knee 0.038, wrist/ankle 0.032, waist 0.08, else 0.05), groove except for neck and waist, sphere and control rotations, control radius 1.75 times the sphere's, colour of the side, and the two object names |
| Joints.MirroredJointsAgree | basic_doll_FK.py:108-144 | a left and a right joint of one name differ only in names, colour and the sign of the shoulder control's x rotation |
| Hierarchy.VisitsBlocks | basic_doll_FK.py:71-78 | the log of a part is the concatenation of the blocks of its pre-order visits |
| Hierarchy.LogIsPreorderWalk | basic_doll_FK.py:71-78 | the log of `buildHierarchy` from a root part is the blocks of the root's pre-order walk |
| Hierarchy.VisitsFathersFirst | basic_doll_FK.py:71-78 | in the walk under a father, every visited part is a child of its recorded father, which is visited earlier or is the outer father |
| Hierarchy.PreorderFatherFirst | basic_doll_FK.py:71-78 | the walk starts at the root, and every later part is a child of a part visited before it |
| Hierarchy.VisitsCover | basic_doll_FK.py:71-78 | the walk visits a tree exactly when the tree is a subtree of the start part |
| BodyParts.SideTagMirrored | basic_doll_FK.py:80-83 | a part named with a `left` or `right` side tag is flagged as having a mirrored version |
| BodyParts.MirroredNameIff | basic_doll_FK.py:80-83 | the "has a mirrored version" flag (`MirroredName`) holds if and only if `RIGHT` or `LEFT` starts at some index of the upper-cased name |
| BodyParts.BodyPart.HasMirroredVersion | basic_doll_FK.py:80-83 | a part is flagged if and only if `RIGHT` or `LEFT` occurs in its upper-cased name |
| BodyParts.BodyPart.GetName | basic_doll_FK.py:48-49 | returns the part's stored name, which the constructor sets to `name_side` |
| BodyParts.BodyPart.constructor | basic_doll_FK.py:36-46 | the name is `name_side`; the driving curve is as given; the geometries are none, the one string, or the list; there is no father and no child |
| BodyParts.BodyPart.AppendGeos | basic_doll_FK.py:51-55 | a string adds one geometry, a list adds all of its items in order, anything else adds nothing |
| BodyParts.BodyPart.GetFatherName | basic_doll_FK.py:57-59 | the father's name if and only if a father is set, otherwise `None` |
| BodyParts.BodyPart.GetChildsNames | basic_doll_FK.py:61-62 | the names of the children, one per child, in order |
| BodyParts.BodyPart.DefineFather | basic_doll_FK.py:64-66 | the father is set and this part is appended to the father's children, so both getters see the new link |
| BodyParts.BodyPart.ReceiveChild | basic_doll_FK.py:68-69 | the child is appended to the children |
| BodyParts.BodyPart.BuildHierarchy | basic_doll_FK.py:71-78 | for an acyclic part graph standing for a tree, the steps issued are the tree's hierarchy log, which is the block of its pre-order walk |
| DollOrder.PreorderVisited | basic_doll_FK.py:71-78 | the parts visited by the walk are the pre-order listing of the tree |
| DollOrder.WalkFollowsCreationOrder | basic_doll_FK.py:206-446 | the hierarchy build on the doll visits the seventeen parts in the order the script creates them |
| Doll.EveryPartVisitedOnce | basic_doll_FK.py:206-446 | the doll walk visits seventeen pairwise distinct parts, and exactly the parts of the doll |
| Doll.WristNamesClash | basic_doll_FK.py:270-316 | two distinct visited parts (the two wrists) are both named `wrist_center` |
| Doll.UntaggedNotMirrored | basic_doll_FK.py:82 | a name with no letter that upper-cases to `G` or `F` is never flagged as mirrored |
| Doll.CenterTagNotMirrored | basic_doll_FK.py:37 | a center-tagged name whose base has no `g` or `f` is not flagged |
| Doll.CenterPartsNotMirrored | basic_doll_FK.py:206-348 | master, root, waist, both wrists, neck and head are not flagged as having a mirrored version |
| Doll.SidedPartsMirrored | basic_doll_FK.py:244-431 | every shoulder, elbow, femoral, knee and ankle part is flagged |
| Doll.MirroredFlags | basic_doll_FK.py:80-83 | in creation order, a part is flagged if and only if it is not one of the seven center-tagged parts |
| DollBuild.NewPart | basic_doll_FK.py:244-253 | one section of the script: a fresh part with the given name, curve and geometries (plus the extra geometry when one is appended), linked under its father |
| DollBuild.BuildLeftArm | basic_doll_FK.py:244-280 | the left arm parts are fresh, the shoulder hangs under the waist, each part below has the part it hangs under as its father, and they stand for the left shoulder subtree |
| DollBuild.BuildRightArm | basic_doll_FK.py:289-325 | the right arm parts are fresh, the shoulder hangs under the waist, each part below has the part it hangs under as its father, and they stand for the right shoulder subtree |
| DollBuild.BuildNeckAndHead | basic_doll_FK.py:333-348 | the neck and head parts are fresh, the neck hangs under the waist, the head has the neck as its father, and they stand for the neck subtree |
| DollBuild.BuildLeftLeg | basic_doll_FK.py:354-395 | the left leg parts are fresh, the femoral hangs under the root, each part below has the part it hangs under as its father, and they stand for the left femoral subtree |
| DollBuild.BuildRightLeg | basic_doll_FK.py:405-441 | the right leg parts are fresh, the femoral hangs under the root, each part below has the part it hangs under as its father, and they stand for the right femoral subtree |
| DollBuild.BuildArms | basic_doll_FK.py:244-325 | both arms, left then right, are appended to the waist's children, have the waist as their father, and stand for their subtrees with their father links |
| DollBuild.BuildUpperBody | basic_doll_FK.py:237-348 | the waist hangs under the root and stands for the waist subtree (left arm, right arm, neck); every part in it has its father set, to the part it hangs under |
| DollBuild.BuildLegs | basic_doll_FK.py:354-441 | both legs, left then right, are appended to the root's children, have the root as their father, and stand for their subtrees with their father links |
| DollBuild.BuildRoot | basic_doll_FK.py:223-441 | the root hangs under the master and stands for the root subtree (upper body, left leg, right leg); every part in it has its father set, to the part it hangs under |
| DollBuild.BuildDoll | basic_doll_FK.py:206-441 | the script's seventeen parts form an acyclic graph under a father-less master that stands for the doll tree; every child has the part it hangs under as its father, and every part but the master has a father among the parts, so `getFatherName()` names it |
| DollBuild.RigDoll | basic_doll_FK.py:206-446 | building the doll and then calling `master.buildHierarchy()` issues exactly the hierarchy log of the doll tree |

## Left out

- Geometry creation and placement are not modelled. This covers every `cmds` call that creates, moves, rotates, scales, extrudes, bevels, groups or selects geometry, and the `master_points` coordinates. These calls decide no control flow.
- Joints.CreateJoint: the host calls it issues are not modelled, and neither is the `position` argument. The model returns the values the calls would receive. The joint names of the doll's parts are not tied to `create_joint`.
- The `paintCurve` calls for the master, root and head curves are not part of `DollBuild`, which models only the part objects.
- The model assumes the host creates every object under the name the script asks for. The host may rename objects, and the script reads the created name back (`arm_left_geo[0]`); that case is not modelled.
- Annulate steps in the hierarchy log stand for `annulate_object`. Their host effects are given separately by `Annulation.AnnulateEffects` and are not expanded inside the log.
- The text of `__str__` and the final feedback loop (`basic_doll_FK.py:452-469`) are left out. Only the "has a mirrored version" flag is modelled, as `MirroredName`.
- Strings.UpperAt: `upper()` is modelled on ASCII letters only. Unicode case mapping is not modelled.
- BodyParts.BodyPart.constructor: the source constructor keeps a geometry only when it is a `str` (line 41), so a Python 2 `unicode` geometry passed to it is dropped and the part starts with no geometry, while `appendGeos` (line 52) accepts both types. The model has no separate `unicode` case: `Single` always keeps the geometry, in both operations.
- BodyParts.BodyPart.BuildHierarchy: `defineFather` (lines 64-66) does not guard against cycles, so `a.defineFather(b); b.defineFather(a)` links two parts into a loop, and `buildHierarchy` (lines 71-78) on such a graph recurses until Python raises a recursion error. The model requires the part graph to stand for a tree (`Represents`), so it excludes cyclic graphs and says nothing about that failure.
- A list passed to the constructor is kept by reference in the source, so later appends are visible through the caller's list. The model copies it as a value, so that aliasing is not captured.
- Radii are exact reals, not floating point.
- Getters return a copy of the state; Python identity of the returned lists is not modelled.
- The source spells the method `recieveChild`; the model names it `ReceiveChild`.
