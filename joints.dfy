/** The construction helpers of the rig script: the side-to-colour choice of
    `paintCurve` and the parameter and name table of `create_joint`. */
module Joints {
  import opened Scene

  /** The side tags the script uses (`l`, `r`, `c`). */
  const Left: string := "left"
  const Right: string := "right"
  const Center: string := "center"

  /** The palette index `paintCurve` gives a curve on `side`:
      22 for center, 13 for left, 6 for every other side. */
  function CurveColor(side: string): (color: int)
    ensures color == 22 <==> side == Center
    ensures color == 13 <==> side == Left
    ensures color == 6 <==> side != Center && side != Left
  {
    if side == Center then 22
    else if side == Left then 13
    else 6
  }

  /** `paintCurve(current, side)`: enable the colour override of `current`
      and set its colour for `side`. */
  function PaintCurve(current: string, side: string): (effects: seq<Effect>)
    ensures |effects| == 2
    ensures effects[0] == SetAttr(current + ".overrideEnabled", 1)
    ensures effects[1] == SetAttr(current + ".overrideColor", CurveColor(side))
    ensures effects[1].value in {22, 13, 6}
  {
    [SetAttr(current + ".overrideEnabled", 1), SetAttr(current + ".overrideColor", CurveColor(side))]
  }

  /** A rotation in whole degrees about x, y and z. */
  datatype Rotation = Rotation(x: int, y: int, z: int)

  /** Everything `create_joint(name, side, position)` decides before it calls
      the host: the sphere radius, the sphere and control rotations, whether
      a groove is extruded, the control-circle radius, the curve colour and
      the names of the two host objects. */
  datatype JointParams = JointParams(
    radius: real,
    rotation: Rotation,
    ctrlRotation: Rotation,
    groove: bool,
    curveRadius: real,
    color: int,
    curveName: string,
    geoName: string)

  /** The branch table of `create_joint`. */
  function CreateJoint(name: string, side: string): (p: JointParams)
    ensures name == "elbow" || name == "knee" ==> p.radius == 0.038
    ensures name == "wrist" || name == "ankle" ==> p.radius == 0.032
    ensures name == "waist" ==> p.radius == 0.08
    ensures name !in {"elbow", "knee", "wrist", "ankle", "waist"} ==> p.radius == 0.05
    ensures !p.groove <==> name == "neck" || name == "waist"
    ensures p.rotation == (if name == "wrist" || name == "shoulder" then Rotation(90, 0, 0) else Rotation(90, 90, 0))
    ensures name == "shoulder" && side == Right ==> p.ctrlRotation == Rotation(-45, 90, 0)
    ensures name == "shoulder" && side != Right ==> p.ctrlRotation == Rotation(45, 90, 0)
    ensures name != "shoulder" ==> p.ctrlRotation == Rotation(90, 0, 0)
    ensures p.curveRadius == 1.75 * p.radius
    ensures p.color == CurveColor(side)
    ensures p.curveName == name + "_joint_" + side + "_crv"
    ensures p.geoName == name + "_joint_" + side + "_geo"
  {
    var (groove, radius, rotation, ctrlRotation) :=
      if name in ["elbow", "knee", "ankle", "wrist"] then
        (true,
         if name in ["wrist", "ankle"] then 0.032 else 0.038,
         if name == "wrist" then Rotation(90, 0, 0) else Rotation(90, 90, 0),
         Rotation(90, 0, 0))
      else if name == "shoulder" then
        (true, 0.05, Rotation(90, 0, 0),
         if side == Right then Rotation(-45, 90, 0) else Rotation(45, 90, 0))
      else if name == "neck" then
        (false, 0.05, Rotation(90, 90, 0), Rotation(90, 0, 0))
      else if name == "waist" then
        (false, 0.08, Rotation(90, 90, 0), Rotation(90, 0, 0))
      else
        (true, 0.05, Rotation(90, 90, 0), Rotation(90, 0, 0));
    JointParams(radius, rotation, ctrlRotation, groove, 1.75 * radius, CurveColor(side),
                name + "_joint_" + side + "_crv", name + "_joint_" + side + "_geo")
  }

  /** The left and right joints of one name are built alike: only the names,
      the colour and, for the shoulder, the sign of the control's x rotation
      differ. */
  lemma MirroredJointsAgree(name: string)
    ensures var l, r := CreateJoint(name, Left), CreateJoint(name, Right);
      && l.radius == r.radius && l.rotation == r.rotation && l.groove == r.groove
      && l.curveRadius == r.curveRadius
      && l.ctrlRotation.y == r.ctrlRotation.y && l.ctrlRotation.z == r.ctrlRotation.z
      && (if name == "shoulder" then r.ctrlRotation.x == -l.ctrlRotation.x
          else r.ctrlRotation == l.ctrlRotation)
      && l.color != r.color
  {
  }
}
