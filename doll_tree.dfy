/** The body-part tree the script wires together, as a value: seventeen
    parts under `master`, each with its name, driving curve and geometries. */
module DollTree {
  import opened Hierarchy
  import opened Joints

  // The tree as a value, leaves first. Each name is built as the
  // constructor builds it, the given name, `_`, then the side tag.
  const WristLeft := Part("wrist" + "_" + Center, "wrist_joint_left_crv", ["wrist_joint_left_geo", "hand_left_geo"], [])
  const ElbowLeft := Part("elbow" + "_" + Left, "elbow_joint_left_crv", ["elbow_joint_left_geo", "forearm_left_geo"], [WristLeft])
  const ShoulderLeft := Part("shoulder" + "_" + Left, "shoulder_joint_left_crv", ["shoulder_joint_left_geo", "arm_left_geo"], [ElbowLeft])
  const WristRight := Part("wrist" + "_" + Center, "wrist_joint_right_crv", ["wrist_joint_right_geo", "hand_right_geo"], [])
  const ElbowRight := Part("elbow" + "_" + Right, "elbow_joint_right_crv", ["elbow_joint_right_geo", "forearm_right_geo"], [WristRight])
  const ShoulderRight := Part("shoulder" + "_" + Right, "shoulder_joint_right_crv", ["shoulder_joint_right_geo", "arm_right_geo"], [ElbowRight])
  const Head := Part("head" + "_" + Center, "head_center_crv", ["head_center_geo"], [])
  const Neck := Part("neck" + "_" + Center, "neck_joint_center_crv", ["neck_joint_center_geo"], [Head])
  const Waist := Part("waist" + "_" + Center, "waist_joint_center_crv", ["waist_joint_center_geo", "chest_center_geo"],
                      [ShoulderLeft, ShoulderRight, Neck])
  const AnkleLeft := Part("ankle" + "_" + Left, "ankle_joint_left_crv", ["ankle_joint_left_geo", "foot_left_geo"], [])
  const KneeLeft := Part("knee" + "_" + Left, "knee_joint_left_crv", ["knee_joint_left_geo", "tibia_left_geo"], [AnkleLeft])
  const FemoralLeft := Part("femoral" + "_" + Left, "femoral_joint_left_crv", ["femoral_joint_left_geo", "thigh_left_geo"], [KneeLeft])
  const AnkleRight := Part("ankle" + "_" + Right, "ankle_joint_right_crv", ["ankle_joint_right_geo", "foot_right_geo"], [])
  const KneeRight := Part("knee" + "_" + Right, "knee_joint_right_crv", ["knee_joint_right_geo", "tibia_right_geo"], [AnkleRight])
  const FemoralRight := Part("femoral" + "_" + Right, "femoral_joint_right_crv", ["femoral_joint_right_geo", "thigh_right_geo"], [KneeRight])
  const Root := Part("root" + "_" + Center, "root_center_crv", ["root_center_geo"], [Waist, FemoralLeft, FemoralRight])
  const Master := Part("master" + "_" + Center, "master_crv", [], [Root])

  /** The parts of the doll in the order the script creates (and prints) them. */
  const CreationOrder: seq<Tree> := [
    Master, Root, Waist,
    ShoulderLeft, ElbowLeft, WristLeft,
    ShoulderRight, ElbowRight, WristRight,
    Neck, Head,
    FemoralLeft, KneeLeft, AnkleLeft,
    FemoralRight, KneeRight, AnkleRight]

  /** The driving curves of the parts, in creation order. */
  const CreationCurves: seq<string> := [
    "master_crv", "root_center_crv", "waist_joint_center_crv",
    "shoulder_joint_left_crv", "elbow_joint_left_crv", "wrist_joint_left_crv",
    "shoulder_joint_right_crv", "elbow_joint_right_crv", "wrist_joint_right_crv",
    "neck_joint_center_crv", "head_center_crv",
    "femoral_joint_left_crv", "knee_joint_left_crv", "ankle_joint_left_crv",
    "femoral_joint_right_crv", "knee_joint_right_crv", "ankle_joint_right_crv"]
}
