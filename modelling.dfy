/**
 * The orchestrator of the simulation: validation of the six strategy
 * selectors, the ring of six robots and six charger parts, the wiring of
 * gentlemanly neighbours and the termination predicate.
 */
module Modelling {
  import opened Wrappers
  import opened Charger
  import opened Entities

  /** Number of robots, and of charger parts, in the ring. */
  const RobotCount := 6
  /** Range of a Java int, the result type of Integer.parseInt. */
  const MinInt := -0x8000_0000
  const MaxInt := 0x7fff_ffff

  // ---------------------------------------------------------------------------
  // Parsing of one selector (Integer.parseInt on decimal ASCII digits)

  predicate IsDigit(c: char) { '0' <= c <= '9' }

  predicate AllDigits(s: string) { forall k :: 0 <= k < |s| ==> IsDigit(s[k]) }

  function DigitValue(c: char): nat
    requires IsDigit(c)
  {
    (c - '0') as nat
  }

  function DigitChar(d: nat): (c: char)
    requires d < 10
    ensures IsDigit(c) && DigitValue(c) == d
  {
    ('0' as int + d) as char
  }

  /** The value of a string of decimal digits, read most significant digit first. */
  function DigitsValue(s: string): nat
    requires AllDigits(s)
    decreases |s|
  {
    if s == [] then 0 else DigitsValue(s[..|s| - 1]) * 10 + DigitValue(s[|s| - 1])
  }

  /**
   * Integer.parseInt: an optional sign followed by at least one decimal
   * digit, whose value fits in a Java int; None where Java throws
   * NumberFormatException.
   */
  function ParseInt(s: string): (r: Option<int>)
    ensures r.Some? ==> MinInt <= r.value <= MaxInt
    ensures r.Some? ==> s != [] && IsDigit(s[|s| - 1])
  {
    if s == [] then None
    else
      var digits := if s[0] == '-' || s[0] == '+' then s[1..] else s;
      if digits == [] || !AllDigits(digits) then None
      else
        var magnitude: int := DigitsValue(digits);
        var value := if s[0] == '-' then -magnitude else magnitude;
        if MinInt <= value <= MaxInt then Some(value) else None
  }

  /** Integer.toString for a non-negative int: its decimal digits, without sign or leading zeros. */
  function DecimalString(n: nat): (s: string)
    decreases n
  {
    if n < 10 then [DigitChar(n)] else DecimalString(n / 10) + [DigitChar(n % 10)]
  }

  lemma {:induction false} DecimalStringDigits(n: nat)
    ensures AllDigits(DecimalString(n)) && DigitsValue(DecimalString(n)) == n
    decreases n
  {
    if n >= 10 {
      DecimalStringDigits(n / 10);
      var s := DecimalString(n);
      assert s[..|s| - 1] == DecimalString(n / 10);
    }
  }

  /** Parsing the decimal rendering of a non-negative int gives that int back. */
  lemma ParseIntOfDecimalString(n: nat)
    requires n <= MaxInt
    ensures ParseInt(DecimalString(n)) == Some(n)
  {
    DecimalStringDigits(n);
  }

  // ---------------------------------------------------------------------------
  // Validation of the command-line selectors

  /** Why one selector was rejected: the exception cause Java attaches, or its absence. */
  datatype ArgumentFault = NotAnInteger | OutOfRange

  /** The two input errors: a wrong argument count, or a bad selector at a 1-based position. */
  datatype InputError =
    | IllegalArgumentsNumber
    | IllegalArgument(position: nat, fault: ArgumentFault)

  /** A selector parses to 1, 2 or 3. */
  predicate IsSelector(s: string)
  {
    var v := ParseInt(s);
    v.Some? && 1 <= v.value <= 3
  }

  /** Input the simulation accepts: six selectors. */
  predicate ValidInput(args: seq<string>)
  {
    |args| == RobotCount && forall i :: 0 <= i < |args| ==> IsSelector(args[i])
  }

  /** `e` is the error for the first fault of `args`, in the order checkInput looks for faults. */
  predicate ReportsFirstFault(args: seq<string>, e: InputError)
  {
    match e
    case IllegalArgumentsNumber => |args| != RobotCount
    case IllegalArgument(p, fault) =>
      |args| == RobotCount && 1 <= p <= |args| &&
      !IsSelector(args[p - 1]) &&
      (forall j :: 0 <= j < p - 1 ==> IsSelector(args[j])) &&
      (fault == NotAnInteger <==> ParseInt(args[p - 1]).None?)
  }

  /**
   * checkInput: rejects a count other than six, then the first selector that
   * is not an integer or is outside 1..3; accepts everything else.
   */
  method CheckInput(args: seq<string>) returns (r: Outcome<InputError>)
    ensures r == Pass <==> ValidInput(args)
    ensures r.Fail? ==> ReportsFirstFault(args, r.error)
  {
    if |args| != RobotCount {
      return Fail(IllegalArgumentsNumber);
    }
    var i := 0;
    while i < RobotCount
      invariant 0 <= i <= RobotCount
      invariant forall j :: 0 <= j < i ==> IsSelector(args[j])
    {
      var parsed := ParseInt(args[i]);
      if parsed.None? {
        return Fail(IllegalArgument(i + 1, NotAnInteger));
      }
      if parsed.value < 1 || parsed.value > 3 {
        return Fail(IllegalArgument(i + 1, OutOfRange));
      }
      i := i + 1;
    }
    return Pass;
  }

  /** Every selector string the randomised input test builds is accepted. */
  lemma SelectorRenderingsAccepted(v: nat)
    requires 1 <= v <= 3
    ensures IsSelector(DecimalString(v))
  {
    ParseIntOfDecimalString(v);
  }

  // ---------------------------------------------------------------------------
  // The ring

  /** Index of robot i's right part; its left part has index i. */
  function RightPartIndex(i: nat): (j: nat)
    requires i < RobotCount
    ensures j < RobotCount && j != i
  {
    if i == 0 then RobotCount - 1 else i - 1
  }

  /** Index of a gentlemanly robot i's left neighbour. */
  function LeftNeighbourIndex(i: nat): (j: nat)
    requires i < RobotCount
    ensures j < RobotCount && j != i
  {
    if i == 0 then i + 1 else if i == RobotCount - 1 then 0 else i + 1
  }

  /** Index of a gentlemanly robot i's right neighbour. */
  function RightNeighbourIndex(i: nat): (j: nat)
    requires i < RobotCount
    ensures j < RobotCount && j != i
  {
    if i == 0 then RobotCount - 1 else if i == RobotCount - 1 then i - 1 else i - 1
  }

  /**
   * The wiring is the ring modulo six: robot i's right part and right
   * neighbour are i - 1, its left neighbour is i + 1.
   */
  lemma RingIndicesAreModular(i: nat)
    requires i < RobotCount
    ensures RightPartIndex(i) == (i + RobotCount - 1) % RobotCount
    ensures LeftNeighbourIndex(i) == (i + 1) % RobotCount
    ensures RightNeighbourIndex(i) == (i + RobotCount - 1) % RobotCount
  {
  }

  /**
   * Each part j is used by exactly two robots: robot j, as its left part, and
   * robot j's left neighbour, as its right part.
   */
  lemma EachPartSharedByTwo(i: nat, j: nat)
    requires i < RobotCount && j < RobotCount
    ensures (i == j || RightPartIndex(i) == j) <==> (i == j || i == LeftNeighbourIndex(j))
    ensures j != LeftNeighbourIndex(j)
  {
  }

  /**
   * A robot's left part is its left neighbour's right part, and its right
   * part is its right neighbour's left part.
   */
  lemma NeighboursShareParts(i: nat)
    requires i < RobotCount
    ensures RightPartIndex(LeftNeighbourIndex(i)) == i
    ensures LeftNeighbourIndex(RightPartIndex(i)) == i
    ensures RightNeighbourIndex(i) == RightPartIndex(i)
  {
  }

  /** The six charger parts of the ring, alternately forks and cables, all free. */
  method NewChargerParts() returns (parts: seq<ChargerPart>)
    ensures |parts| == RobotCount
    ensures forall k :: 0 <= k < RobotCount ==> fresh(parts[k]) && parts[k].owner == null
    ensures forall k, l :: 0 <= k < RobotCount && 0 <= l < RobotCount && k != l ==> parts[k] != parts[l]
  {
    var fork1 := new ChargerPart("Fork1");
    var cable1 := new ChargerPart("Cable1");
    var fork2 := new ChargerPart("Fork2");
    var cable2 := new ChargerPart("Cable2");
    var fork3 := new ChargerPart("Fork3");
    var cable3 := new ChargerPart("Cable3");
    parts := [fork1, cable1, fork2, cable2, fork3, cable3];
  }

  /** A step of `actor` moves a part's owner only between nobody and `actor`. */
  predicate OwnerMovedOnlyFor(before: Robot?, after: Robot?, actor: Robot)
  {
    after == before || ((before == null || before == actor) && (after == null || after == actor))
  }

  /** The strategy a valid selector picks from the enumeration's values. */
  function SelectedStrategy(strategyValues: seq<Strategy>, s: string): (strategy: Strategy)
    requires |strategyValues| == 3 && IsSelector(s)
    ensures strategy in strategyValues
  {
    strategyValues[ParseInt(s).value - 1]
  }

  /** Selector v, written in decimal, picks the v-th of the enumeration's values. */
  lemma SelectorPicksItsPosition(strategyValues: seq<Strategy>, v: nat)
    requires |strategyValues| == 3 && 1 <= v <= 3
    ensures IsSelector(DecimalString(v))
    ensures SelectedStrategy(strategyValues, DecimalString(v)) == strategyValues[v - 1]
  {
    ParseIntOfDecimalString(v);
  }

  /** The simulation: six robots in a ring, each part shared by two neighbours. */
  class RobotChargeModelling {
    /** The values of the Strategy enumeration in declaration order; selector v picks the v-th. */
    const strategyValues: seq<Strategy>
    var robots: seq<Robot>

    constructor (strategyValues: seq<Strategy>)
      requires |strategyValues| == 3
      ensures this.strategyValues == strategyValues && robots == []
    {
      this.strategyValues := strategyValues;
      robots := [];
    }

    /** The charger parts of the ring. */
    ghost function Parts(): set<ChargerPart>
      reads this
    {
      set i | 0 <= i < |robots| :: robots[i].left
    }

    /** Six distinct robots over six distinct parts, robot i between parts i and i - 1. */
    ghost predicate Wired()
      reads this
    {
      |robots| == RobotCount &&
      (forall k, l :: 0 <= k < RobotCount && 0 <= l < RobotCount && k != l ==>
        robots[k] != robots[l] && robots[k].left != robots[l].left) &&
      (forall k :: 0 <= k < RobotCount ==> robots[k].right == robots[RightPartIndex(k)].left)
    }

    /** Gentlemanly robots know their two neighbours; the other robots know none. */
    ghost predicate NeighboursWired()
      reads this, robots
    {
      Wired() &&
      forall i :: 0 <= i < RobotCount ==>
        if robots[i].strategy == Gentlemanly then
          robots[i].leftNeighbour == robots[LeftNeighbourIndex(i)] &&
          robots[i].rightNeighbour == robots[RightNeighbourIndex(i)]
        else
          robots[i].leftNeighbour == null && robots[i].rightNeighbour == null
    }

    /**
     * Part j and the two robots beside it agree on who owns it: the part is
     * free or owned by one of them, and each one's flag says whether it is
     * the owner.
     */
    ghost predicate PartAgrees(j: nat)
      requires Wired() && j < RobotCount
      reads this, robots[j], robots[LeftNeighbourIndex(j)], robots[j].left
    {
      var part, user, neighbour := robots[j].left, robots[j], robots[LeftNeighbourIndex(j)];
      (user.hasLeft <==> part.owner == user) &&
      (neighbour.hasRight <==> part.owner == neighbour) &&
      (part.owner == null || part.owner == user || part.owner == neighbour)
    }

    /** Robot k's charge is a charge level, and a discharged robot holds nothing. */
    ghost predicate ChargeAgrees(k: nat)
      requires Wired() && k < RobotCount
      reads this, robots[k]
    {
      IsChargeLevel(robots[k].charge) &&
      (robots[k].charge == 0 ==> !robots[k].hasLeft && !robots[k].hasRight)
    }

    /** The ring's invariant: the wiring, and agreement on every part and every charge. */
    ghost predicate Valid()
      reads this, robots, Parts()
    {
      NeighboursWired() &&
      (forall j :: 0 <= j < RobotCount ==> PartAgrees(j)) &&
      (forall k :: 0 <= k < RobotCount ==> ChargeAgrees(k))
    }

    /** In a valid ring every robot keeps its own invariant. */
    lemma RobotValid(k: nat)
      requires Valid() && k < RobotCount
      ensures robots[k].Valid()
    {
      var r := RightPartIndex(k);
      NeighboursShareParts(r);
      assert PartAgrees(k) && PartAgrees(r) && ChargeAgrees(k);
    }

    /** Robot i as built from selector args[i]: charge 50, owning nothing, no neighbours yet. */
    ghost predicate Built(args: seq<string>, i: nat)
      requires ValidInput(args) && |strategyValues| == 3 && i < |robots| && i < RobotCount
      reads this, robots[i], robots[i].left
    {
      robots[i].id == i &&
      robots[i].strategy == SelectedStrategy(strategyValues, args[i]) &&
      robots[i].charge == InitialCharge &&
      !robots[i].hasLeft && !robots[i].hasRight &&
      robots[i].left.owner == null
    }

    /** Robot r as initRobots builds it at index k, between chargerParts[k] and the part before. */
    ghost predicate BuiltAt(r: Robot, k: nat, args: seq<string>, chargerParts: seq<ChargerPart>)
      requires ValidInput(args) && |strategyValues| == 3 && k < RobotCount && |chargerParts| == RobotCount
      reads r
    {
      r.id == k && r.strategy == SelectedStrategy(strategyValues, args[k]) &&
      r.left == chargerParts[k] && r.right == chargerParts[RightPartIndex(k)] &&
      r.charge == InitialCharge && !r.hasLeft && !r.hasRight &&
      r.leftNeighbour == null && r.rightNeighbour == null
    }

    /** Robots built as initRobots builds them, over six distinct free parts, form a valid ring. */
    lemma BuiltRobotsFormARing(args: seq<string>, chargerParts: seq<ChargerPart>)
      requires ValidInput(args) && |strategyValues| == 3
      requires |robots| == RobotCount && |chargerParts| == RobotCount
      requires forall k, l :: 0 <= k < RobotCount && 0 <= l < RobotCount && k != l ==> chargerParts[k] != chargerParts[l]
      requires forall k :: 0 <= k < RobotCount ==> chargerParts[k].owner == null
      requires forall k :: 0 <= k < RobotCount ==> BuiltAt(robots[k], k, args, chargerParts)
      ensures Wired()
      ensures forall i :: 0 <= i < RobotCount ==>
        robots[i].Valid() && Built(args, i) &&
        robots[i].leftNeighbour == null && robots[i].rightNeighbour == null
    {
      forall k, l | 0 <= k < RobotCount && 0 <= l < RobotCount && k != l
        ensures robots[k] != robots[l] && robots[k].left != robots[l].left
      {
        assert BuiltAt(robots[k], k, args, chargerParts) && BuiltAt(robots[l], l, args, chargerParts);
      }
      forall i | 0 <= i < RobotCount
        ensures robots[i].right == robots[RightPartIndex(i)].left
      {
        assert BuiltAt(robots[i], i, args, chargerParts);
        assert BuiltAt(robots[RightPartIndex(i)], RightPartIndex(i), args, chargerParts);
      }
      forall i | 0 <= i < RobotCount
        ensures robots[i].Valid() && Built(args, i)
        ensures robots[i].leftNeighbour == null && robots[i].rightNeighbour == null
      {
        var j := RightPartIndex(i);
        assert BuiltAt(robots[i], i, args, chargerParts);
        assert chargerParts[i] != chargerParts[j];
        assert chargerParts[i].owner == null && chargerParts[j].owner == null;
        InitialChargeIsChargeLevel();
      }
    }

    /** initRobots: six new parts, and robot i built between parts i and i - 1 (mod 6). */
    method InitRobots(args: seq<string>) returns (result: seq<Robot>)
      requires ValidInput(args) && |strategyValues| == 3 && robots == []
      modifies this`robots
      ensures result == robots && Wired()
      ensures forall i :: 0 <= i < RobotCount ==> fresh(robots[i]) && fresh(robots[i].left)
      ensures forall i :: 0 <= i < RobotCount ==>
        robots[i].Valid() && Built(args, i) &&
        robots[i].leftNeighbour == null && robots[i].rightNeighbour == null
    {
      var chargerParts := NewChargerParts();

      var i := 0;
      while i < RobotCount
        invariant 0 <= i <= RobotCount && |robots| == i
        invariant forall k :: 0 <= k < i ==> fresh(robots[k]) && BuiltAt(robots[k], k, args, chargerParts)
        invariant forall k :: 0 <= k < RobotCount ==> chargerParts[k].owner == null
      {
        var strategy := SelectedStrategy(strategyValues, args[i]);
        var robot: Robot;
        if i == 0 {
          robot := new Robot(i, strategy, chargerParts[i], chargerParts[RobotCount - 1]);
        } else {
          robot := new Robot(i, strategy, chargerParts[i], chargerParts[i - 1]);
        }
        robots := robots + [robot];
        i := i + 1;
      }
      BuiltRobotsFormARing(args, chargerParts);
      return robots;
    }

    /** setGentlemanRobotNeighbours: each gentlemanly robot i learns robots i + 1 and i - 1 (mod 6). */
    method SetGentlemanRobotNeighbours()
      requires Wired()
      requires forall i :: 0 <= i < RobotCount ==> robots[i].leftNeighbour == null && robots[i].rightNeighbour == null
      modifies robots`leftNeighbour, robots`rightNeighbour
      ensures NeighboursWired()
    {
      var i := 0;
      while i < RobotCount
        invariant 0 <= i <= RobotCount
        invariant forall k :: 0 <= k < RobotCount ==>
          if k < i && robots[k].strategy == Gentlemanly then
            robots[k].leftNeighbour == robots[LeftNeighbourIndex(k)] &&
            robots[k].rightNeighbour == robots[RightNeighbourIndex(k)]
          else
            robots[k].leftNeighbour == null && robots[k].rightNeighbour == null
      {
        var robot := robots[i];
        if robot.strategy == Gentlemanly {
          if i == 0 {
            robot.SetLeftNeighbour(robots[i + 1]);
            robot.SetRightNeighbour(robots[RobotCount - 1]);
          } else if i == RobotCount - 1 {
            robot.SetLeftNeighbour(robots[0]);
            robot.SetRightNeighbour(robots[i - 1]);
          } else {
            robot.SetLeftNeighbour(robots[i + 1]);
            robot.SetRightNeighbour(robots[i - 1]);
          }
        }
        i := i + 1;
      }
    }

    /** A wired ring in which no robot owns anything and every charge is the initial one is valid. */
    lemma InitialRingValid()
      requires NeighboursWired()
      requires forall k :: 0 <= k < RobotCount ==>
        robots[k].charge == InitialCharge && !robots[k].hasLeft && !robots[k].hasRight &&
        robots[k].left.owner == null
      ensures Valid()
    {
      InitialChargeIsChargeLevel();
    }

    /** isAllRobotsDischarged: no robot is active. */
    method IsAllRobotsDischarged() returns (all: bool)
      ensures all <==> forall i :: 0 <= i < |robots| ==> !robots[i].IsActive()
    {
      var i := 0;
      while i < |robots|
        invariant 0 <= i <= |robots|
        invariant forall k :: 0 <= k < i ==> !robots[k].IsActive()
      {
        if robots[i].IsActive() {
          return false;
        }
        i := i + 1;
      }
      return true;
    }

    /** isAllAliveRobotsFullCharged: every active robot is full. */
    method IsAllAliveRobotsFullCharged() returns (all: bool)
      ensures all <==> forall i :: 0 <= i < |robots| ==> robots[i].IsActive() ==> robots[i].IsFullCharged()
    {
      var i := 0;
      while i < |robots|
        invariant 0 <= i <= |robots|
        invariant forall k :: 0 <= k < i ==> robots[k].IsActive() ==> robots[k].IsFullCharged()
      {
        if robots[i].IsActive() {
          if !robots[i].IsFullCharged() {
            return false;
          }
        }
        i := i + 1;
      }
      return true;
    }

    /**
     * The exit condition of the monitoring loop: it holds exactly when every
     * robot is either discharged or full.
     */
    method IsModellingFinished() returns (finished: bool)
      ensures finished <==> forall i :: 0 <= i < |robots| ==> robots[i].charge == 0 || robots[i].charge == FullCharge
    {
      var discharged := IsAllRobotsDischarged();
      if discharged {
        return true;
      }
      finished := IsAllAliveRobotsFullCharged();
    }

    /** Two neighbours never both hold the part between them, so they never charge together. */
    lemma NeighboursNeverShareAPart(i: nat)
      requires Valid() && i < RobotCount
      ensures !(robots[i].hasLeft && robots[LeftNeighbourIndex(i)].hasRight)
      ensures robots[i].GatheredCharging() ==> !robots[LeftNeighbourIndex(i)].GatheredCharging()
    {
      assert PartAgrees(i);
      assert robots[i] != robots[LeftNeighbourIndex(i)];
    }

    /**
     * Part j is untouched by a step that changed only robot i and its two
     * parts, when j is neither of those parts.
     */
    twostate lemma OtherPartsAgree(i: nat)
      requires old(Valid()) && i < RobotCount && robots == old(robots)
      requires forall k :: 0 <= k < RobotCount && k != i ==> unchanged(robots[k])
      requires forall k :: 0 <= k < RobotCount && k != i && k != RightPartIndex(i) ==> unchanged(robots[k].left)
      ensures forall j :: 0 <= j < RobotCount && j != i && j != RightPartIndex(i) ==> PartAgrees(j)
      ensures forall k :: 0 <= k < RobotCount && k != i ==> ChargeAgrees(k)
    {
      forall j | 0 <= j < RobotCount && j != i && j != RightPartIndex(i)
        ensures PartAgrees(j)
      {
        assert old(PartAgrees(j));
        var n := LeftNeighbourIndex(j);
        NeighboursShareParts(j);
        assert n != i;
      }
      forall k | 0 <= k < RobotCount && k != i
        ensures ChargeAgrees(k)
      {
        assert old(ChargeAgrees(k));
      }
    }

    /**
     * The two parts of robot i still agree after a step of robot i that kept
     * its own invariant and moved each of its parts' owner only between
     * nobody and itself.
     */
    twostate lemma TouchedPartsAgree(i: nat)
      requires old(Valid()) && i < RobotCount && robots == old(robots)
      requires robots[i].Valid()
      requires forall k :: 0 <= k < RobotCount && k != i ==> unchanged(robots[k])
      requires OwnerMovedOnlyFor(old(robots[i].left.owner), robots[i].left.owner, robots[i])
      requires OwnerMovedOnlyFor(old(robots[i].right.owner), robots[i].right.owner, robots[i])
      ensures PartAgrees(i) && PartAgrees(RightPartIndex(i)) && ChargeAgrees(i)
    {
      var r := RightPartIndex(i);
      NeighboursShareParts(i);
      NeighboursShareParts(r);
      assert old(PartAgrees(i)) && old(PartAgrees(r));
      assert robots[LeftNeighbourIndex(i)] != robots[i] && robots[r] != robots[i];
    }

    /** A step that changed only robot i, its flags and its parts' owners, as its methods promise, keeps the ring valid. */
    twostate lemma StepKeepsRing(i: nat)
      requires old(Valid()) && i < RobotCount && robots == old(robots)
      requires robots[i].Valid()
      requires robots[i].leftNeighbour == old(robots[i].leftNeighbour)
      requires robots[i].rightNeighbour == old(robots[i].rightNeighbour)
      requires forall k :: 0 <= k < RobotCount && k != i ==> unchanged(robots[k])
      requires forall k :: 0 <= k < RobotCount && k != i && k != RightPartIndex(i) ==> unchanged(robots[k].left)
      requires OwnerMovedOnlyFor(old(robots[i].left.owner), robots[i].left.owner, robots[i])
      requires OwnerMovedOnlyFor(old(robots[i].right.owner), robots[i].right.owner, robots[i])
      ensures Valid()
    {
      OtherPartsAgree(i);
      TouchedPartsAgree(i);
      assert NeighboursWired() by {
        forall k | 0 <= k < RobotCount
          ensures robots[k].leftNeighbour == old(robots[k].leftNeighbour)
          ensures robots[k].rightNeighbour == old(robots[k].rightNeighbour)
        {
        }
      }
    }

    /*
     * The atomic steps of robot i's threads on the ring: its strategy thread
     * takes, frees, gives way and is charged; its discharge thread discharges
     * it. Whatever robot acts, and in whatever order steps interleave, the
     * ring's invariant holds after each step.
     */

    /** Robot i takes its left or its right part. */
    method TakeStep(i: nat, leftSide: bool) returns (taken: bool)
      requires Valid() && i < RobotCount
      modifies robots[i], robots[i].left, robots[i].right
      ensures Valid()
      ensures var part := if leftSide then robots[i].left else robots[i].right;
        (taken <==> old(robots[i].charge) != 0 && old(part.owner) == null) &&
        part.owner == if taken then robots[i] else old(part.owner)
      ensures var other := if leftSide then robots[i].right else robots[i].left;
        other.owner == old(other.owner)
      ensures robots[i].charge == old(robots[i].charge)
    {
      RobotValid(i);
      var robot := robots[i];
      if leftSide {
        taken := robot.TryTakeLeftChargerPart();
      } else {
        taken := robot.TryTakeRightChargerPart();
      }
      StepKeepsRing(i);
    }

    /** Robot i frees its left or its right part. */
    method FreeStep(i: nat, leftSide: bool) returns (freed: bool)
      requires Valid() && i < RobotCount
      modifies robots[i], robots[i].left, robots[i].right
      ensures Valid()
      ensures var part := if leftSide then robots[i].left else robots[i].right;
        (freed <==> old(part.owner) == robots[i]) &&
        part.owner == if freed then null else old(part.owner)
      ensures var other := if leftSide then robots[i].right else robots[i].left;
        other.owner == old(other.owner)
      ensures robots[i].charge == old(robots[i].charge)
    {
      RobotValid(i);
      var robot := robots[i];
      if leftSide {
        freed := robot.TryFreeLeftChargerPart();
      } else {
        freed := robot.TryFreeRightChargerPart();
      }
      StepKeepsRing(i);
    }

    /** Robot i is charged by one step when it holds both parts. */
    method ChargeStep(i: nat)
      requires Valid() && i < RobotCount
      modifies robots[i]
      ensures Valid()
      ensures robots[i].charge == Charged(old(robots[i].charge), robots[i].GatheredCharging())
    {
      RobotValid(i);
      robots[i].BeCharged();
      StepKeepsRing(i);
    }

    /** Robot i's discharge thread takes one step off its charge. */
    method DischargeStep(i: nat)
      requires Valid() && i < RobotCount
      modifies robots[i], robots[i].left, robots[i].right
      ensures Valid()
      ensures robots[i].charge == Discharged(old(robots[i].charge))
      ensures robots[i].charge != 0 ==>
        robots[i].hasLeft == old(robots[i].hasLeft) && robots[i].hasRight == old(robots[i].hasRight) &&
        robots[i].left.owner == old(robots[i].left.owner) && robots[i].right.owner == old(robots[i].right.owner)
      ensures robots[i].charge == 0 ==>
        !robots[i].hasLeft && !robots[i].hasRight &&
        robots[i].left.owner == (if old(robots[i].left.owner) == robots[i] then null else old(robots[i].left.owner)) &&
        robots[i].right.owner == (if old(robots[i].right.owner) == robots[i] then null else old(robots[i].right.owner))
    {
      RobotValid(i);
      robots[i].BeDischarged();
      StepKeepsRing(i);
    }

    /** A gentlemanly robot i gives up a part to a neighbour whose charge is lower. */
    method GiveWayStep(i: nat) returns (yielded: bool)
      requires Valid() && i < RobotCount && robots[i].strategy == Gentlemanly
      modifies robots[i], robots[i].left, robots[i].right
      ensures Valid()
      ensures robots[i].charge == old(robots[i].charge)
      ensures var y := YieldDecision(old(robots[i].hasLeft), old(robots[i].hasRight),
          robots[LeftNeighbourIndex(i)].charge, robots[RightNeighbourIndex(i)].charge, robots[i].charge);
        (yielded <==> y != KeepBoth) &&
        robots[i].left.owner == (if y == YieldLeft then null else old(robots[i].left.owner)) &&
        robots[i].right.owner == (if y == YieldRight then null else old(robots[i].right.owner))
    {
      RobotValid(i);
      var robot := robots[i];
      var outcome := robot.TryFreeChargerPartInFavourOfNeighbour();
      yielded := outcome.Success? && outcome.value;
      assert robot.left.owner == old(robot.left.owner) || robot.left.owner == null;
      assert robot.right.owner == old(robot.right.owner) || robot.right.owner == null;
      StepKeepsRing(i);
    }
  }

  /**
   * The constructor of the simulation up to the launch of its threads:
   * checkInput, then initRobots and setGentlemanRobotNeighbours. Bad input is
   * rejected before anything is built.
   */
  method NewRobotChargeModelling(args: seq<string>, strategyValues: seq<Strategy>)
    returns (r: Result<RobotChargeModelling, InputError>)
    requires |strategyValues| == 3
    ensures r.Success? <==> ValidInput(args)
    ensures r.Failure? ==> ReportsFirstFault(args, r.error)
    ensures r.Success? ==>
      var m := r.value;
      fresh(m) && m.strategyValues == strategyValues && m.Valid() &&
      forall i :: 0 <= i < RobotCount ==> m.Built(args, i)
  {
    var checked := CheckInput(args);
    if checked.Fail? {
      return Failure(checked.error);
    }
    var m := new RobotChargeModelling(strategyValues);
    var built := m.InitRobots(args);
    m.SetGentlemanRobotNeighbours();
    m.InitialRingValid();
    return Success(m);
  }
}
