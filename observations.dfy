/**
 * The grasp detector of the assemble-sandwich task (`ingredient_grasped`):
 * an environment has grasped an ingredient when the gripper is closed and one
 * of the four ingredients present in the scene is close to the end-effector.
 */
module Observations {
  import opened Geometry

  /** The only objects ever considered, in the order the detector visits them. */
  const IngredientNames: seq<string> := ["bread_slice_1", "bread_slice_2", "patty", "cheese_slice"]

  /** Default arguments of `ingredient_grasped`. */
  const DefaultDiffThreshold: real := 0.05
  const DefaultGraspThreshold: real := 0.60

  /** Index of the end-effector among the frame transformer's targets. */
  const EndEffectorTarget: nat := 1

  /** One environment's robot state: target frame positions and joint positions. */
  datatype RobotSnapshot = RobotSnapshot(targetPos: seq<Vec3>, jointPos: seq<real>)

  /** Objects present in the scene, each with its position in every environment. */
  type Scene = map<string, seq<Vec3>>

  predicate WellFormedRobot(r: RobotSnapshot) {
    |r.targetPos| > EndEffectorTarget && |r.jointPos| > 0
  }

  /** Every robot snapshot has its end-effector and gripper, and every object has one position per environment. */
  predicate WellShaped(robots: seq<RobotSnapshot>, scene: Scene) {
    && (forall e | 0 <= e < |robots| :: WellFormedRobot(robots[e]))
    && (forall name | name in scene :: |scene[name]| == |robots|)
  }

  function EndEffector(r: RobotSnapshot): Vec3
    requires WellFormedRobot(r)
  {
    r.targetPos[EndEffectorTarget]
  }

  /** The gripper is the last joint. */
  function GripperPos(r: RobotSnapshot): real
    requires WellFormedRobot(r)
  {
    r.jointPos[|r.jointPos| - 1]
  }

  /** Lower joint values mean a more closed gripper. */
  predicate GripperClosed(r: RobotSnapshot, graspThreshold: real)
    requires WellFormedRobot(r)
  {
    GripperPos(r) < graspThreshold
  }

  predicate Near(obj: Vec3, endEffector: Vec3, diffThreshold: real) {
    NormBelow(SquaredDistance(obj, endEffector), diffThreshold)
  }

  /** Object `name` is in the scene, near the end-effector in environment `e`, and the gripper there is closed. */
  predicate GraspedIn(robots: seq<RobotSnapshot>, scene: Scene, e: nat, name: string,
                      diffThreshold: real, graspThreshold: real)
    requires WellShaped(robots, scene) && e < |robots|
  {
    && name in scene
    && Near(scene[name][e], EndEffector(robots[e]), diffThreshold)
    && GripperClosed(robots[e], graspThreshold)
  }

  /** Reference definition: some ingredient is grasped in environment `e` (no order involved). */
  predicate AnyIngredientGrasped(robots: seq<RobotSnapshot>, scene: Scene, e: nat,
                                 diffThreshold: real, graspThreshold: real)
    requires WellShaped(robots, scene) && e < |robots|
  {
    exists name | name in IngredientNames :: GraspedIn(robots, scene, e, name, diffThreshold, graspThreshold)
  }

  /** The loop's accumulator after visiting `names` from left to right. */
  function GraspFold(robots: seq<RobotSnapshot>, scene: Scene, e: nat, names: seq<string>,
                     diffThreshold: real, graspThreshold: real): bool
    requires WellShaped(robots, scene) && e < |robots|
  {
    if names == [] then false
    else
      GraspFold(robots, scene, e, names[..|names| - 1], diffThreshold, graspThreshold)
      || GraspedIn(robots, scene, e, names[|names| - 1], diffThreshold, graspThreshold)
  }

  /** Folding with OR over any list of names is "some name in the list is grasped". */
  lemma {:induction false} GraspFoldIsExists(robots: seq<RobotSnapshot>, scene: Scene, e: nat, names: seq<string>,
                                             diffThreshold: real, graspThreshold: real)
    requires WellShaped(robots, scene) && e < |robots|
    ensures GraspFold(robots, scene, e, names, diffThreshold, graspThreshold)
        <==> exists name | name in names :: GraspedIn(robots, scene, e, name, diffThreshold, graspThreshold)
  {
    if names != [] {
      var init := names[..|names| - 1];
      GraspFoldIsExists(robots, scene, e, init, diffThreshold, graspThreshold);
      assert names == init + [names[|names| - 1]];
    }
  }

  /** `ingredient_grasped` over a batch of environments. */
  method IngredientGrasped(robots: seq<RobotSnapshot>, scene: Scene, diffThreshold: real, graspThreshold: real)
    returns (grasped: seq<bool>)
    requires WellShaped(robots, scene)
    ensures |grasped| == |robots|
    ensures forall e | 0 <= e < |robots| ::
      grasped[e] == AnyIngredientGrasped(robots, scene, e, diffThreshold, graspThreshold)
  {
    var closed := seq(|robots|, e requires 0 <= e < |robots| => GripperClosed(robots[e], graspThreshold));
    grasped := seq(|robots|, _ => false);
    var k := 0;
    while k < |IngredientNames|
      invariant 0 <= k <= |IngredientNames|
      invariant |grasped| == |robots|
      invariant forall e | 0 <= e < |robots| ::
        grasped[e] == GraspFold(robots, scene, e, IngredientNames[..k], diffThreshold, graspThreshold)
    {
      var name := IngredientNames[k];
      if name in scene {
        var pos := scene[name];
        grasped := seq(|robots|, e requires 0 <= e < |robots| =>
          grasped[e] || (Near(pos[e], EndEffector(robots[e]), diffThreshold) && closed[e]));
      }
      assert IngredientNames[..k + 1][..k] == IngredientNames[..k];
      k := k + 1;
    }
    assert IngredientNames[..k] == IngredientNames;
    forall e | 0 <= e < |robots|
      ensures grasped[e] == AnyIngredientGrasped(robots, scene, e, diffThreshold, graspThreshold)
    {
      GraspFoldIsExists(robots, scene, e, IngredientNames, diffThreshold, graspThreshold);
    }
  }

  // ---------------------------------------------------------------------------
  // Properties

  /** An open gripper (joint at or above `graspThreshold`) never grasps, whatever the distances. */
  lemma OpenGripperNeverGrasps(robots: seq<RobotSnapshot>, scene: Scene, e: nat, diffThreshold: real, graspThreshold: real)
    requires WellShaped(robots, scene) && e < |robots|
    requires GripperPos(robots[e]) >= graspThreshold
    ensures !AnyIngredientGrasped(robots, scene, e, diffThreshold, graspThreshold)
  {
  }

  /** With no present ingredient near the end-effector nothing is grasped, whatever the gripper. */
  lemma NothingNearNeverGrasps(robots: seq<RobotSnapshot>, scene: Scene, e: nat, diffThreshold: real, graspThreshold: real)
    requires WellShaped(robots, scene) && e < |robots|
    requires forall name | name in IngredientNames && name in scene ::
      !Near(scene[name][e], EndEffector(robots[e]), diffThreshold)
    ensures !AnyIngredientGrasped(robots, scene, e, diffThreshold, graspThreshold)
  {
  }

  /** A scene without any of the four ingredients is not an error: nothing is grasped anywhere. */
  lemma NoIngredientsNoGrasp(robots: seq<RobotSnapshot>, scene: Scene, e: nat, diffThreshold: real, graspThreshold: real)
    requires WellShaped(robots, scene) && e < |robots|
    requires forall name | name in IngredientNames :: name !in scene
    ensures !AnyIngredientGrasped(robots, scene, e, diffThreshold, graspThreshold)
  {
  }

  /** Objects other than the four ingredients (the plate, say) never affect the result. */
  lemma OtherObjectsIgnored(robots: seq<RobotSnapshot>, scene: Scene, other: string, pos: seq<Vec3>, e: nat,
                            diffThreshold: real, graspThreshold: real)
    requires WellShaped(robots, scene) && e < |robots|
    requires other !in IngredientNames && |pos| == |robots|
    ensures WellShaped(robots, scene[other := pos])
    ensures AnyIngredientGrasped(robots, scene[other := pos], e, diffThreshold, graspThreshold)
        == AnyIngredientGrasped(robots, scene, e, diffThreshold, graspThreshold)
  {
    var scene' := scene[other := pos];
    forall name | name in IngredientNames
      ensures GraspedIn(robots, scene', e, name, diffThreshold, graspThreshold)
           == GraspedIn(robots, scene, e, name, diffThreshold, graspThreshold)
    {
      assert name != other;
    }
  }

  // ---------------------------------------------------------------------------
  // Worked cases at the default thresholds: one environment, the patty at the end-effector

  function HoldingRobot(gripper: real): RobotSnapshot {
    RobotSnapshot([Vec3(0.0, 0.0, 0.0), Vec3(0.0, 0.0, 0.12)], [0.0, gripper])
  }

  function PattyScene(): Scene {
    map["patty" := [Vec3(0.0, 0.0, 0.12)], "plate" := [Vec3(0.0, 0.0, 0.0)]]
  }

  /** A gripper at 0.3, below the default 0.60, holds the patty. */
  lemma ClosedGripperHoldsPatty()
    ensures WellShaped([HoldingRobot(0.3)], PattyScene())
    ensures AnyIngredientGrasped([HoldingRobot(0.3)], PattyScene(), 0, DefaultDiffThreshold, DefaultGraspThreshold)
  {
    var r := HoldingRobot(0.3);
    assert EndEffector(r) == Vec3(0.0, 0.0, 0.12) && GripperPos(r) == 0.3;
    assert PattyScene()["patty"][0] == EndEffector(r);
    assert SquaredDistance(EndEffector(r), EndEffector(r)) == 0.0;
    assert GraspedIn([r], PattyScene(), 0, "patty", DefaultDiffThreshold, DefaultGraspThreshold);
  }

  /** A gripper exactly at the default 0.60 counts as open: the comparison is strict. */
  lemma GripperAtThresholdIsOpen()
    ensures WellShaped([HoldingRobot(0.6)], PattyScene())
    ensures !AnyIngredientGrasped([HoldingRobot(0.6)], PattyScene(), 0, DefaultDiffThreshold, DefaultGraspThreshold)
  {
  }

  /** Visiting the ingredients in any other order gives the same answer. */
  lemma VisitOrderIrrelevant(robots: seq<RobotSnapshot>, scene: Scene, e: nat, names: seq<string>,
                             diffThreshold: real, graspThreshold: real)
    requires WellShaped(robots, scene) && e < |robots|
    requires multiset(names) == multiset(IngredientNames)
    ensures GraspFold(robots, scene, e, names, diffThreshold, graspThreshold)
         == AnyIngredientGrasped(robots, scene, e, diffThreshold, graspThreshold)
  {
    GraspFoldIsExists(robots, scene, e, names, diffThreshold, graspThreshold);
    forall name
      ensures name in names <==> name in IngredientNames
    {
      assert name in names <==> name in multiset(names);
      assert name in IngredientNames <==> name in multiset(IngredientNames);
    }
  }
}
