/**
 * The unit-test scenarios of the robots and of the input validation, stated
 * as methods whose postconditions are the outcomes the scenarios expect.
 */
module Scenarios {
  import opened Wrappers
  import opened Charger
  import opened Entities
  import opened Modelling

  /**
   * One part handed over between two robots: the first robot takes it, the
   * second cannot take it until the first frees it, and then can.
   */
  method HandOver(part: ChargerPart, first: Robot, second: Robot)
    returns (firstTaken: bool, secondBefore: bool, freed: bool, secondAfter: bool)
    requires part.owner == null && first != second
    modifies part
    ensures firstTaken && !secondBefore && freed && secondAfter
    ensures part.owner == second
  {
    firstTaken := part.TryBeTaken(first);
    secondBefore := part.TryBeTaken(second);
    freed := part.TryBeFreed(first);
    secondAfter := part.TryBeTaken(second);
  }

  /** A part taken and then freed by the same robot is free again. */
  method TakeThenFree(part: ChargerPart, robot: Robot) returns (free: bool)
    requires part.owner == null
    modifies part
    ensures free && part.owner == null
  {
    var _ := part.TryBeTaken(robot);
    var _ := part.TryBeFreed(robot);
    free := part.IsFree();
  }

  /** A robot's part taken a second time by the same robot is refused, and its owner stays. */
  method TakeTwice(part: ChargerPart, robot: Robot) returns (first: bool, second: bool)
    requires part.owner == null
    modifies part
    ensures first && !second && part.owner == robot
  {
    first := part.TryBeTaken(robot);
    second := part.TryBeTaken(robot);
  }

  /** A new robot has charge 50. */
  method DefaultCharge() returns (charge: int)
    ensures charge == 50
  {
    var fork := new ChargerPart("Fork");
    var cable := new ChargerPart("Cable");
    var robot := new Robot(0, Random, fork, cable);
    charge := robot.GetCharge();
  }

  /** A gentlemanly robot whose neighbours are not set refuses to decide on a yield. */
  method GentlemanWithoutNeighbours() returns (r: Result<bool, RobotError>)
    ensures r == Failure(NeighbourIsNotSet)
  {
    var fork := new ChargerPart("Fork");
    var cable := new ChargerPart("Cable");
    var robot := new Robot(0, Gentlemanly, fork, cable);
    r := robot.TryFreeChargerPartInFavourOfNeighbour();
  }

  /** A robot holding both parts and charged six times from 50 stops at 100. */
  method CannotChargeAbove100() returns (charge: int)
    ensures charge == 100
  {
    var fork := new ChargerPart("Fork");
    var cable := new ChargerPart("Cable");
    var robot := new Robot(0, Random, fork, cable);
    var _ := robot.TryTakeLeftChargerPart();
    var _ := robot.TryTakeRightChargerPart();
    var i := 0;
    while i < 6
      invariant 0 <= i <= 6
      invariant robot.Valid() && robot.GatheredCharging()
      invariant robot.charge == ChargedTimes(InitialCharge, i)
    {
      robot.BeCharged();
      ChargedTimesStep(InitialCharge, i);
      i := i + 1;
    }
    InitialChargeIsChargeLevel();
    ChargedTimesSaturates(InitialCharge, 6);
    charge := robot.GetCharge();
  }

  /** A robot discharged five times from 50 is inactive and can take neither part. */
  method DisconnectedWhenDischargedTo0() returns (active: bool, takenRight: bool, takenLeft: bool)
    ensures !active && !takenRight && !takenLeft
  {
    var fork := new ChargerPart("Fork");
    var cable := new ChargerPart("Cable");
    var robot := new Robot(0, Random, fork, cable);
    var i := 0;
    while i < 5
      invariant 0 <= i <= 5
      invariant robot.Valid() && robot.charge == DischargedTimes(InitialCharge, i)
    {
      robot.BeDischarged();
      DischargedTimesStep(InitialCharge, i);
      i := i + 1;
    }
    InitialChargeIsChargeLevel();
    DischargedTimesStopsAtZero(InitialCharge, 5);
    active := robot.IsActive();
    takenRight := robot.TryTakeRightChargerPart();
    takenLeft := robot.TryTakeLeftChargerPart();
  }

  /**
   * A robot whose left part is held by another robot is not charged; once the
   * other robot frees the part, the robot takes it and is charged to 60.
   */
  method NeedsTwoParts() returns (chargeWithOne: int, gathered: bool, chargeWithBoth: int)
    ensures chargeWithOne == 50 && gathered && chargeWithBoth == 60
  {
    var fork := new ChargerPart("Fork");
    var cable := new ChargerPart("Cable");
    var anotherCable := new ChargerPart("Cable");
    var robot := new Robot(0, Random, fork, cable);
    var anotherRobot := new Robot(1, Random, anotherCable, fork);
    var _ := anotherRobot.TryTakeRightChargerPart();
    var _ := robot.TryTakeRightChargerPart();
    var _ := robot.TryTakeLeftChargerPart();
    robot.BeCharged();
    chargeWithOne := robot.GetCharge();
    var _ := anotherRobot.TryFreeRightChargerPart();
    var _ := robot.TryTakeLeftChargerPart();
    robot.BeCharged();
    gathered := robot.GatheredCharging();
    chargeWithBoth := robot.GetCharge();
  }

  /** A robot discharged until inactive has already freed the part it held. */
  method FreesPartsBeforeExiting() returns (taken: bool, freedAfterwards: bool)
    ensures taken && !freedAfterwards
  {
    var fork := new ChargerPart("Fork");
    var cable := new ChargerPart("Cable");
    var anotherCable := new ChargerPart("Cable");
    var robot := new Robot(0, Random, fork, cable);
    var anotherRobot := new Robot(1, Random, anotherCable, fork);
    var _ := anotherRobot.TryTakeRightChargerPart();
    taken := robot.TryTakeRightChargerPart();
    while robot.IsActive()
      invariant robot.Valid()
      decreases robot.charge
    {
      robot.BeDischarged();
    }
    freedAfterwards := robot.TryFreeRightChargerPart();
  }

  /**
   * The three robots of the yield scenario in a row, over four parts: a
   * random robot, a gentlemanly robot that holds both its parts and knows the
   * other two as its neighbours, and a greedy robot; all at charge 50.
   */
  method GentlemanInTheMiddle() returns (randomRobot: Robot, gentlemanlyRobot: Robot, greedyRobot: Robot, gathered: bool)
    ensures gathered
    ensures fresh(randomRobot) && fresh(gentlemanlyRobot) && fresh(greedyRobot)
    ensures fresh(randomRobot.left) && fresh(gentlemanlyRobot.left) && fresh(greedyRobot.left) && fresh(greedyRobot.right)
    ensures randomRobot.right == gentlemanlyRobot.left && gentlemanlyRobot.right == greedyRobot.left
    ensures randomRobot.left != gentlemanlyRobot.left && randomRobot.left != greedyRobot.left
    ensures randomRobot.left != greedyRobot.right && gentlemanlyRobot.left != greedyRobot.left
    ensures gentlemanlyRobot.left != greedyRobot.right && greedyRobot.left != greedyRobot.right
    ensures randomRobot.Valid() && gentlemanlyRobot.Valid() && greedyRobot.Valid()
    ensures randomRobot.charge == 50 && gentlemanlyRobot.charge == 50 && greedyRobot.charge == 50
    ensures gentlemanlyRobot.hasLeft && gentlemanlyRobot.hasRight
    ensures gentlemanlyRobot.leftNeighbour == randomRobot && gentlemanlyRobot.rightNeighbour == greedyRobot
  {
    var fork1 := new ChargerPart("Fork1");
    var cable1 := new ChargerPart("Cable1");
    var fork2 := new ChargerPart("Fork2");
    var cable2 := new ChargerPart("Cable2");
    randomRobot := new Robot(0, Random, fork1, cable1);
    gentlemanlyRobot := new Robot(1, Gentlemanly, cable1, fork2);
    greedyRobot := new Robot(2, Greedy, fork2, cable2);
    gentlemanlyRobot.SetLeftNeighbour(randomRobot);
    gentlemanlyRobot.SetRightNeighbour(greedyRobot);

    var _ := gentlemanlyRobot.TryTakeLeftChargerPart();
    var _ := gentlemanlyRobot.TryTakeRightChargerPart();
    gathered := gentlemanlyRobot.GatheredCharging();
  }

  /**
   * A gentlemanly robot holding both parts gives its left part to its left
   * neighbour once that neighbour's charge drops below its own; the left
   * neighbour can then take it, while the right part stays held.
   */
  method GentlemanGivesWay()
    returns (gatheredBefore: bool, gatheredAfter: bool, freedLeftAgain: bool, leftNeighbourTook: bool, rightNeighbourTook: bool)
    ensures gatheredBefore && !gatheredAfter && !freedLeftAgain && leftNeighbourTook && !rightNeighbourTook
  {
    var randomRobot, gentlemanlyRobot, greedyRobot;
    randomRobot, gentlemanlyRobot, greedyRobot, gatheredBefore := GentlemanInTheMiddle();

    randomRobot.BeDischarged();
    var _ := gentlemanlyRobot.TryFreeChargerPartInFavourOfNeighbour();
    gatheredAfter := gentlemanlyRobot.GatheredCharging();
    freedLeftAgain := gentlemanlyRobot.TryFreeLeftChargerPart();
    leftNeighbourTook := randomRobot.TryTakeRightChargerPart();
    rightNeighbourTook := greedyRobot.TryTakeLeftChargerPart();
  }

  /** Five arguments are refused for their count. */
  method TooFewArguments() returns (r: Outcome<InputError>)
    ensures r == Fail(IllegalArgumentsNumber)
  {
    r := CheckInput(["1", "2", "3", "2", "3"]);
  }

  /** A non-integer fourth argument is refused at position 4, before the out-of-range sixth. */
  method NonIntegerArgument() returns (r: Outcome<InputError>)
    ensures r == Fail(IllegalArgument(4, NotAnInteger))
  {
    var args := ["1", "2", "3", "ok", "3", "4"];
    assert IsSelector(args[0]) && IsSelector(args[1]) && IsSelector(args[2]);
    assert ParseInt(args[3]).None?;
    r := CheckInput(args);
  }

  /** An integer outside 1..3 in sixth place is refused at position 6. */
  method OutOfRangeArgument() returns (r: Outcome<InputError>)
    ensures r == Fail(IllegalArgument(6, OutOfRange))
  {
    var args := ["1", "2", "3", "2", "3", "4"];
    assert IsSelector(args[0]) && IsSelector(args[1]) && IsSelector(args[2]);
    assert IsSelector(args[3]) && IsSelector(args[4]);
    assert ParseInt(args[5]) == Some(4);
    r := CheckInput(args);
  }

  /** Six valid selectors build a valid ring of robots at charge 50 that own nothing. */
  method ValidSelectorsBuildARing(strategyValues: seq<Strategy>) returns (r: Result<RobotChargeModelling, InputError>)
    requires |strategyValues| == 3
    ensures r.Success? && r.value.Valid()
    ensures forall i :: 0 <= i < RobotCount ==> r.value.robots[i].charge == InitialCharge
  {
    var args := ["1", "2", "3", "3", "2", "1"];
    assert IsSelector(args[0]) && IsSelector(args[1]) && IsSelector(args[2]);
    assert IsSelector(args[3]) && IsSelector(args[4]) && IsSelector(args[5]);
    r := NewRobotChargeModelling(args, strategyValues);
    forall i | 0 <= i < RobotCount
      ensures r.value.robots[i].charge == InitialCharge
    {
      assert r.value.Built(args, i);
    }
  }
}
