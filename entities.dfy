/**
 * The entities of the simulation: charger parts, which a single robot may own
 * at a time, and robots, which take and free the two parts beside them and are
 * charged and discharged in steps. Each operation is one atomic step.
 */
module Entities {
  import opened Wrappers
  import opened Charger

  /** The acquisition policy a robot was built with. */
  datatype Strategy = Greedy | Random | Gentlemanly

  /** Raised when a gentlemanly robot decides on a yield before its neighbours are wired. */
  datatype RobotError = NeighbourIsNotSet

  /** What a gentlemanly robot gives up in one yield decision. */
  datatype Yield = YieldLeft | YieldRight | KeepBoth

  /**
   * The gentlemanly yield rule: the left part is checked before the right one,
   * and a held part is given up only to an active neighbour whose charge is
   * strictly lower than the robot's own.
   */
  function YieldDecision(hasLeft: bool, hasRight: bool, leftCharge: int, rightCharge: int, charge: int): (y: Yield)
    ensures y == YieldLeft ==> hasLeft && leftCharge != 0 && leftCharge < charge
    ensures y == YieldRight ==> hasRight && rightCharge != 0 && rightCharge < charge
    ensures y != YieldLeft ==> !(hasLeft && leftCharge != 0 && leftCharge < charge)
    ensures y == KeepBoth ==> !(hasRight && rightCharge != 0 && rightCharge < charge)
  {
    if hasLeft && leftCharge != 0 && leftCharge < charge then YieldLeft
    else if hasRight && rightCharge != 0 && rightCharge < charge then YieldRight
    else KeepBoth
  }

  /** A part of a charger: a slot that at most one robot owns at a time. */
  class ChargerPart {
    /** Name of the part, used only for display. */
    const name: string
    /** The robot that owns the part, or null when the part is free. */
    var owner: Robot?

    constructor (name: string)
      ensures this.name == name && owner == null
    {
      this.name := name;
      owner := null;
    }

    /** The caller becomes the owner if, and only if, the part had no owner. */
    method TryBeTaken(possibleOwner: Robot) returns (taken: bool)
      modifies this`owner
      ensures taken <==> old(owner) == null
      ensures owner == if taken then possibleOwner else old(owner)
    {
      if owner == null {
        owner := possibleOwner;
        return true;
      }
      return false;
    }

    /** The part becomes free if, and only if, the caller owned it. */
    method TryBeFreed(possibleOwner: Robot) returns (freed: bool)
      modifies this`owner
      ensures freed <==> old(owner) == possibleOwner
      ensures owner == if freed then null else old(owner)
    {
      if owner == possibleOwner {
        owner := null;
        return true;
      }
      return false;
    }

    /** Whether no robot owns the part; a query that changes nothing. */
    method IsFree() returns (free: bool)
      ensures free <==> owner == null
    {
      free := owner == null;
    }
  }

  /**
   * A robot between two charger parts. Its flags record which parts it
   * holds; its charge moves in steps of ten within [0, 100]. A gentlemanly
   * robot also knows its two neighbouring robots.
   */
  class Robot {
    /** Identifier of the robot, used only for display. */
    const id: int
    const strategy: Strategy
    /** The charger part at the robot's left. */
    const left: ChargerPart
    /** The charger part at the robot's right. */
    const right: ChargerPart
    var charge: int
    var hasLeft: bool
    var hasRight: bool
    /** The robot at the left, read by the gentlemanly yield rule; null until set. */
    var leftNeighbour: Robot?
    /** The robot at the right, read by the gentlemanly yield rule; null until set. */
    var rightNeighbour: Robot?

    /**
     * The robot's invariant: its charge is a charge level, each flag agrees
     * with the real owner of the matching part, and a discharged robot holds
     * no part.
     */
    ghost predicate Valid()
      reads this, left, right
    {
      left != right &&
      IsChargeLevel(charge) &&
      (hasLeft <==> left.owner == this) &&
      (hasRight <==> right.owner == this) &&
      (charge == 0 ==> !hasLeft && !hasRight)
    }

    constructor (id: int, strategy: Strategy, left: ChargerPart, right: ChargerPart)
      requires left != right
      ensures Valid()
      ensures this.id == id && this.strategy == strategy && this.left == left && this.right == right
      ensures charge == InitialCharge && !hasLeft && !hasRight
      ensures leftNeighbour == null && rightNeighbour == null
    {
      this.id := id;
      this.strategy := strategy;
      this.left := left;
      this.right := right;
      charge := InitialCharge;
      hasLeft := false;
      hasRight := false;
      leftNeighbour := null;
      rightNeighbour := null;
    }

    /** The robot is active while its charge is not zero; an inactive robot holds no part. */
    function IsActive(): (active: bool)
      reads this, left, right
      ensures Valid() && !active ==> !hasLeft && !hasRight && left.owner != this && right.owner != this
    {
      charge != 0
    }

    /** The robot is full when its charge is at the top of its range. */
    function IsFullCharged(): (full: bool)
      reads this, left, right
      ensures Valid() ==> (full <==> charge >= FullCharge)
    {
      charge == FullCharge
    }

    /** The current charge, always a charge level. */
    function GetCharge(): (c: int)
      reads this, left, right
      ensures Valid() ==> IsChargeLevel(c)
    {
      charge
    }

    /** Whether the robot holds both of its parts, in the sense of owning them. */
    function GatheredCharging(): (gathered: bool)
      reads this, left, right
      ensures Valid() ==> (gathered <==> left.owner == this && right.owner == this)
    {
      hasLeft && hasRight
    }

    /** One charge tick: adds one step while active, holding both parts and not full. */
    method BeCharged()
      requires Valid()
      modifies this`charge
      ensures Valid()
      ensures charge == Charged(old(charge), hasLeft && hasRight)
    {
      if IsActive() && GatheredCharging() && !IsFullCharged() {
        charge := charge + ChargeAmount;
      }
    }

    /**
     * One discharge tick: removes one step while active; reaching zero frees
     * both parts the robot owns.
     */
    method BeDischarged()
      requires Valid()
      modifies this`charge, this`hasLeft, this`hasRight, left`owner, right`owner
      ensures Valid()
      ensures charge == Discharged(old(charge))
      ensures charge != 0 ==>
        hasLeft == old(hasLeft) && hasRight == old(hasRight) &&
        left.owner == old(left.owner) && right.owner == old(right.owner)
      ensures charge == 0 ==>
        !hasLeft && !hasRight &&
        left.owner == (if old(left.owner) == this then null else old(left.owner)) &&
        right.owner == (if old(right.owner) == this then null else old(right.owner))
    {
      if IsActive() {
        charge := charge - OneStepDischarge;
        if charge == 0 {
          var _ := TryFreeLeftChargerPart();
          var _ := TryFreeRightChargerPart();
        }
      }
    }

    /** An active robot takes its left part exactly when the part is free. */
    method TryTakeLeftChargerPart() returns (taken: bool)
      requires Valid()
      modifies this`hasLeft, left`owner
      ensures Valid()
      ensures taken <==> old(charge) != 0 && old(left.owner) == null
      ensures left.owner == if taken then this else old(left.owner)
      ensures hasLeft == (old(hasLeft) || taken)
    {
      if IsActive() {
        taken := left.TryBeTaken(this);
        if taken {
          hasLeft := true;
        }
      } else {
        return false;
      }
    }

    /** An active robot takes its right part exactly when the part is free. */
    method TryTakeRightChargerPart() returns (taken: bool)
      requires Valid()
      modifies this`hasRight, right`owner
      ensures Valid()
      ensures taken <==> old(charge) != 0 && old(right.owner) == null
      ensures right.owner == if taken then this else old(right.owner)
      ensures hasRight == (old(hasRight) || taken)
    {
      if IsActive() {
        taken := right.TryBeTaken(this);
        if taken {
          hasRight := true;
        }
      } else {
        return false;
      }
    }

    /** The left part is freed exactly when this robot owns it, active or not. */
    method TryFreeLeftChargerPart() returns (freed: bool)
      requires left != right
      requires hasLeft <==> left.owner == this
      modifies this`hasLeft, left`owner
      ensures old(Valid()) ==> Valid()
      ensures freed <==> old(left.owner) == this
      ensures left.owner == if freed then null else old(left.owner)
      ensures !hasLeft
    {
      freed := left.TryBeFreed(this);
      if freed {
        hasLeft := false;
      }
    }

    /** The right part is freed exactly when this robot owns it, active or not. */
    method TryFreeRightChargerPart() returns (freed: bool)
      requires left != right
      requires hasRight <==> right.owner == this
      modifies this`hasRight, right`owner
      ensures old(Valid()) ==> Valid()
      ensures freed <==> old(right.owner) == this
      ensures right.owner == if freed then null else old(right.owner)
      ensures !hasRight
    {
      freed := right.TryBeFreed(this);
      if freed {
        hasRight := false;
      }
    }

    method SetLeftNeighbour(neighbour: Robot?)
      modifies this`leftNeighbour
      ensures leftNeighbour == neighbour
    {
      leftNeighbour := neighbour;
    }

    method SetRightNeighbour(neighbour: Robot?)
      modifies this`rightNeighbour
      ensures rightNeighbour == neighbour
    {
      rightNeighbour := neighbour;
    }

    /**
     * The gentlemanly yield: fails before any change when a neighbour is not
     * set; otherwise frees at most one held part, as YieldDecision says, and
     * reports whether it did.
     */
    method TryFreeChargerPartInFavourOfNeighbour() returns (r: Result<bool, RobotError>)
      requires Valid()
      modifies this`hasLeft, this`hasRight, left`owner, right`owner
      ensures Valid()
      ensures leftNeighbour == null || rightNeighbour == null ==>
        r == Failure(NeighbourIsNotSet) &&
        hasLeft == old(hasLeft) && hasRight == old(hasRight) &&
        left.owner == old(left.owner) && right.owner == old(right.owner)
      ensures leftNeighbour != null && rightNeighbour != null ==>
        var y := YieldDecision(old(hasLeft), old(hasRight), leftNeighbour.charge, rightNeighbour.charge, charge);
        r == Success(y != KeepBoth) &&
        hasLeft == (old(hasLeft) && y != YieldLeft) &&
        hasRight == (old(hasRight) && y != YieldRight) &&
        left.owner == (if y == YieldLeft then null else old(left.owner)) &&
        right.owner == (if y == YieldRight then null else old(right.owner))
    {
      if leftNeighbour == null || rightNeighbour == null {
        return Failure(NeighbourIsNotSet);
      }
      if hasLeft && leftNeighbour.IsActive() && leftNeighbour.GetCharge() < GetCharge() {
        var _ := TryFreeLeftChargerPart();
        return Success(true);
      } else if hasRight && rightNeighbour.IsActive() && rightNeighbour.GetCharge() < GetCharge() {
        var _ := TryFreeRightChargerPart();
        return Success(true);
      }
      return Success(false);
    }
  }
}
