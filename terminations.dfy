/**
 * The success test of the assemble-sandwich task (`task_done`): per parallel
 * environment, the four ingredients must sit over the plate, be stacked bottom
 * bread < cheese < patty < top bread, and be at rest. A test mode reports
 * success everywhere.
 */
module Terminations {
  import opened Geometry

  /** One environment's state at one step: five world positions and four linear velocities. */
  datatype Snapshot = Snapshot(
    plate: Vec3,
    bread1: Vec3, cheese: Vec3, patty: Vec3, bread2: Vec3,
    bread1Vel: Vec3, cheeseVel: Vec3, pattyVel: Vec3, bread2Vel: Vec3)

  /** Default arguments of `task_done`. */
  const DefaultHeightThreshold: real := 0.02
  const DefaultXyThreshold: real := 0.05

  /** Fixed margin by which the bottom bread must clear the plate. */
  const BottomClearance: real := 0.005
  /** Fixed speed limit of the stability gate (m/s); not a parameter. */
  const VelocityThreshold: real := 0.05

  /** Every ingredient's horizontal distance to the plate centre is below `xyThreshold`. */
  predicate XyAligned(s: Snapshot, xyThreshold: real) {
    && NormBelow(SquaredPlanarDistance(s.bread1, s.plate), xyThreshold)
    && NormBelow(SquaredPlanarDistance(s.cheese, s.plate), xyThreshold)
    && NormBelow(SquaredPlanarDistance(s.patty, s.plate), xyThreshold)
    && NormBelow(SquaredPlanarDistance(s.bread2, s.plate), xyThreshold)
  }

  /** Heights above the plate, bottom of the stack first. */
  function Heights(s: Snapshot): (h: seq<real>)
    ensures |h| == 4
  {
    [s.bread1.z - s.plate.z, s.cheese.z - s.plate.z, s.patty.z - s.plate.z, s.bread2.z - s.plate.z]
  }

  /** Each ingredient is higher than the previous one, and the bottom bread is clear of the plate. */
  predicate VerticalOrder(s: Snapshot) {
    var h := Heights(s);
    && h[0] > BottomClearance
    && h[1] > h[0]
    && h[2] > h[1]
    && h[3] > h[2]
  }

  /** Every ingredient moves slower than `VelocityThreshold`. */
  predicate Stable(s: Snapshot) {
    && NormBelow(SquaredNorm(s.bread1Vel), VelocityThreshold)
    && NormBelow(SquaredNorm(s.cheeseVel), VelocityThreshold)
    && NormBelow(SquaredNorm(s.pattyVel), VelocityThreshold)
    && NormBelow(SquaredNorm(s.bread2Vel), VelocityThreshold)
  }

  /** `task_done` over a batch of environments. */
  function TaskDone(batch: seq<Snapshot>, heightThreshold: real, xyThreshold: real, testMode: bool): (done: seq<bool>)
    ensures |done| == |batch|
    ensures testMode ==> forall i | 0 <= i < |done| :: done[i]
    ensures !testMode ==> forall i | 0 <= i < |done| ::
      done[i] == (XyAligned(batch[i], xyThreshold) && VerticalOrder(batch[i]) && Stable(batch[i]))
  {
    if testMode then
      seq(|batch|, _ => true)
    else
      seq(|batch|, i requires 0 <= i < |batch| =>
        XyAligned(batch[i], xyThreshold) && VerticalOrder(batch[i]) && Stable(batch[i]))
  }

  // ---------------------------------------------------------------------------
  // What the gates mean

  /**
   * The adjacent comparisons make the heights a strictly increasing chain:
   * every ingredient is higher than every ingredient meant to lie below it, and
   * all four are more than `BottomClearance` above the plate.
   */
  lemma VerticalOrderIsStrictStack(s: Snapshot)
    ensures VerticalOrder(s) <==>
      && (forall i, j | 0 <= i < j < 4 :: Heights(s)[i] < Heights(s)[j])
      && (forall i | 0 <= i < 4 :: Heights(s)[i] > BottomClearance)
  {
    var h := Heights(s);
    if (forall i, j | 0 <= i < j < 4 :: h[i] < h[j]) && (forall i | 0 <= i < 4 :: h[i] > BottomClearance) {
      assert h[0] < h[1] && h[1] < h[2] && h[2] < h[3];
      assert h[0] > BottomClearance;
    }
  }

  /** Alignment in terms of the actual horizontal distances `d1..d4` (the planar norms). */
  lemma XyAlignedIsDistanceBelow(s: Snapshot, xyThreshold: real, d1: real, d2: real, d3: real, d4: real)
    requires d1 >= 0.0 && d1 * d1 == SquaredPlanarDistance(s.bread1, s.plate)
    requires d2 >= 0.0 && d2 * d2 == SquaredPlanarDistance(s.cheese, s.plate)
    requires d3 >= 0.0 && d3 * d3 == SquaredPlanarDistance(s.patty, s.plate)
    requires d4 >= 0.0 && d4 * d4 == SquaredPlanarDistance(s.bread2, s.plate)
    ensures XyAligned(s, xyThreshold) <==> d1 < xyThreshold && d2 < xyThreshold && d3 < xyThreshold && d4 < xyThreshold
  {
    NormBelowIsRootBelow(d1, xyThreshold);
    NormBelowIsRootBelow(d2, xyThreshold);
    NormBelowIsRootBelow(d3, xyThreshold);
    NormBelowIsRootBelow(d4, xyThreshold);
  }

  /** Stability in terms of the actual speeds `v1..v4` (the velocity norms). */
  lemma StableIsSpeedBelow(s: Snapshot, v1: real, v2: real, v3: real, v4: real)
    requires v1 >= 0.0 && v1 * v1 == SquaredNorm(s.bread1Vel)
    requires v2 >= 0.0 && v2 * v2 == SquaredNorm(s.cheeseVel)
    requires v3 >= 0.0 && v3 * v3 == SquaredNorm(s.pattyVel)
    requires v4 >= 0.0 && v4 * v4 == SquaredNorm(s.bread2Vel)
    ensures Stable(s) <==> v1 < 0.05 && v2 < 0.05 && v3 < 0.05 && v4 < 0.05
  {
    NormBelowIsRootBelow(v1, VelocityThreshold);
    NormBelowIsRootBelow(v2, VelocityThreshold);
    NormBelowIsRootBelow(v3, VelocityThreshold);
    NormBelowIsRootBelow(v4, VelocityThreshold);
  }

  // ---------------------------------------------------------------------------
  // Properties of task_done

  /** In test mode every environment reports success, whatever its state. */
  lemma TestModeAlwaysDone(batch: seq<Snapshot>, heightThreshold: real, xyThreshold: real)
    ensures TaskDone(batch, heightThreshold, xyThreshold, true) == seq(|batch|, _ => true)
  {
  }

  /** `height_threshold` is accepted but never consulted. */
  lemma HeightThresholdIgnored(batch: seq<Snapshot>, h1: real, h2: real, xyThreshold: real, testMode: bool)
    ensures TaskDone(batch, h1, xyThreshold, testMode) == TaskDone(batch, h2, xyThreshold, testMode)
  {
  }

  /** An environment's result depends on its own snapshot only, not on its position in the batch or on the others. */
  lemma TaskDoneIsPerEnvironment(b1: seq<Snapshot>, i: nat, b2: seq<Snapshot>, j: nat,
                                 heightThreshold: real, xyThreshold: real, testMode: bool)
    requires i < |b1| && j < |b2| && b1[i] == b2[j]
    ensures TaskDone(b1, heightThreshold, xyThreshold, testMode)[i] == TaskDone(b2, heightThreshold, xyThreshold, testMode)[j]
  {
  }

  /** Outside test mode, a moving ingredient (squared speed at least 0.05^2) means not done. */
  lemma MovingIngredientNotDone(batch: seq<Snapshot>, i: nat, heightThreshold: real, xyThreshold: real)
    requires i < |batch|
    requires SquaredNorm(batch[i].bread2Vel) >= VelocityThreshold * VelocityThreshold
    ensures !TaskDone(batch, heightThreshold, xyThreshold, false)[i]
  {
  }

  // ---------------------------------------------------------------------------
  // Worked cases: a correct stack, a swapped stack, a misaligned slice, a moving slice

  function Origin(): Vec3 { Vec3(0.0, 0.0, 0.0) }

  function RestingStack(): Snapshot {
    Snapshot(Origin(),
      Vec3(0.0, 0.0, 0.015), Vec3(0.0, 0.0, 0.030), Vec3(0.0, 0.0, 0.045), Vec3(0.0, 0.0, 0.060),
      Origin(), Origin(), Origin(), Origin())
  }

  lemma RestingStackIsDone()
    ensures TaskDone([RestingStack()], DefaultHeightThreshold, DefaultXyThreshold, false) == [true]
  {
    var s := RestingStack();
    assert XyAligned(s, DefaultXyThreshold);
    assert Heights(s) == [0.015, 0.030, 0.045, 0.060];
    assert VerticalOrder(s);
    assert Stable(s);
    var done := TaskDone([s], DefaultHeightThreshold, DefaultXyThreshold, false);
    assert done[0];
  }

  lemma SwappedLayersNotDone()
    ensures TaskDone([RestingStack().(cheese := Vec3(0.0, 0.0, 0.045), patty := Vec3(0.0, 0.0, 0.030))],
                     DefaultHeightThreshold, DefaultXyThreshold, false) == [false]
  {
    var s := RestingStack().(cheese := Vec3(0.0, 0.0, 0.045), patty := Vec3(0.0, 0.0, 0.030));
    assert Heights(s) == [0.015, 0.045, 0.030, 0.060];
    assert !VerticalOrder(s);
    var done := TaskDone([s], DefaultHeightThreshold, DefaultXyThreshold, false);
    assert !done[0];
  }

  lemma MisalignedSliceNotDone()
    ensures TaskDone([RestingStack().(bread1 := Vec3(0.10, 0.0, 0.015))], DefaultHeightThreshold, DefaultXyThreshold, false) == [false]
  {
  }

  lemma MovingSliceNotDone()
    ensures TaskDone([RestingStack().(bread2Vel := Vec3(0.2, 0.0, 0.0))], DefaultHeightThreshold, DefaultXyThreshold, false) == [false]
  {
  }
}
