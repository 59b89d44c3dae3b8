# Robot charge modelling, in Dafny

This project models a dining-philosophers style simulation. Six robots sit
in a ring around six charger parts, alternately forks and cables. Each robot
uses the part at its left and the part at its right. A robot charges only
while it holds both parts. Each part belongs to at most one robot at a time.

- A robot starts at 50 % charge.
- Its discharge thread removes 10 % per tick until the charge reaches 0. At 0
  the robot is disconnected and frees whatever it holds.
- Its strategy thread takes and frees parts, and charges the robot by 10 % per
  tick up to 100 %.
- A gentlemanly robot also gives a held part up to an active neighbouring
  robot whose charge is strictly lower than its own, checking the left part
  first.
- The simulation reads six strategy selectors (1, 2 or 3) from the command
  line. It builds the ring and runs until every robot is either discharged or
  full.

The model keeps the source's imperative shape. Each method of the model is
one atomic step: the Java `synchronized` methods, and also the unsynchronised
`tryTake*` and `tryFree*` methods of `Robot`.

- `ChargerPart` and `Robot` are classes whose methods update the owner, the
  charge and the holding flags in place, under `modifies` clauses.
- The gentlemanly subclass becomes a `strategy` tag, plus two neighbour fields
  that stay null unless they are wired.
- `RobotChargeModelling` is a class that holds the sequence of robots. Its
  methods build the ring and wire the neighbours in index loops, as the source
  does.
- Input validation and the termination test are loops proved against their
  specifications.

Files:

- `wrappers.dfy`: the `Option`, `Result` and `Outcome` datatypes.
- `charger.dfy`: the charge constants and the effect of one charge or discharge
  tick, with lemmas about repeated ticks.
- `entities.dfy`: the `ChargerPart` and `Robot` classes, and the gentlemanly
  yield rule.
- `modelling.dfy`: the following parts of the simulation:
  - `Integer.parseInt` on a selector;
  - `checkInput`;
  - the ring's index arithmetic;
  - `initRobots` and `setGentlemanRobotNeighbours`;
  - the termination predicate;
  - the ring invariant, and the atomic steps of the robots' threads, which
    preserve it.
- `scenarios.dfy`: the scenarios of the unit tests, written as methods whose
  postconditions are the outcomes the tests expect.

The ring invariant `RobotChargeModelling.Valid` says the following:

- the wiring is as built;
- every part is free or owned by one of its two robots;
- each robot's flags agree with the owners of its parts;
- every charge is a multiple of ten within [0, 100];
- a discharged robot holds nothing.

Each atomic step of any robot keeps this invariant (`TakeStep`, `FreeStep`,
`ChargeStep`, `DischargeStep`, `GiveWayStep`). Therefore it holds in every
interleaving of steps. One consequence: two neighbours never hold the part
between them at the same time, so they never charge together.

## Model

| member | source | states |
|---|---|---|
| Charger.InitialChargeIsChargeLevel | src/com/cyxoud/robots/entities/Robot.java:22 | the initial charge of 50 is a charge level: a multiple of ten within [0, 100] |
| Charger.Charged | src/com/cyxoud/robots/entities/Robot.java:54-61 | one charge tick keeps a charge level. It adds exactly 10 when the robot is active, holds both parts and is not full, and otherwise leaves the charge unchanged |
| Charger.Discharged | src/com/cyxoud/robots/entities/Robot.java:67-78 | one discharge tick keeps a charge level. It subtracts exactly 10 while the robot is active, and leaves the charge unchanged exactly when the robot is inactive (charge 0) |
| Charger.ChargedTimesStep | src/com/cyxoud/robots/entities/Robot.java:54-61 | n + 1 charge ticks are one tick after n ticks |
| Charger.DischargedTimesStep | src/com/cyxoud/robots/entities/Robot.java:67-78 | n + 1 discharge ticks are one tick after n ticks |
| Charger.ChargedTimesSaturates | src/com/cyxoud/robots/entities/Robot.java:54-61 | n charge ticks of an active robot that holds both parts give min(charge + 10n, 100) |
| Charger.DischargedTimesStopsAtZero | src/com/cyxoud/robots/entities/Robot.java:67-78 | n discharge ticks give max(charge - 10n, 0): the charge never goes below zero |
| Charger.TicksKeepChargeLevel | src/com/cyxoud/robots/entities/Robot.java:54-78 | any number of charge or discharge ticks from a charge level stays a charge level |
| Entities.YieldDecision | src/com/cyxoud/robots/entities/GentlemanlyRobot.java:30-41 | the left part is yielded exactly when it is held and the left neighbour is active with a strictly lower charge. Otherwise the right part is yielded under the same condition. Otherwise nothing is yielded |
| Entities.ChargerPart.constructor | src/com/cyxoud/robots/entities/ChargerPart.java:18-20 | a new part carries its name and has no owner |
| Entities.ChargerPart.TryBeTaken | src/com/cyxoud/robots/entities/ChargerPart.java:27-34 | the caller becomes the owner and true is returned exactly when the part was free. Otherwise the owner is unchanged, even when the caller already owns the part |
| Entities.ChargerPart.TryBeFreed | src/com/cyxoud/robots/entities/ChargerPart.java:41-48 | true is returned and the part becomes free exactly when the caller was the owner. Otherwise nothing changes |
| Entities.ChargerPart.IsFree | src/com/cyxoud/robots/entities/ChargerPart.java:53-55 | true exactly when the part has no owner. It changes nothing |
| Entities.Robot.constructor | src/com/cyxoud/robots/entities/Robot.java:44-49 | a new robot has charge 50, holds no part, has no neighbours, and satisfies the robot invariant |
| Entities.Robot.IsActive | src/com/cyxoud/robots/entities/Robot.java:83-85 | an inactive robot holds neither flag and owns neither part |
| Entities.Robot.IsFullCharged | src/com/cyxoud/robots/entities/Robot.java:90-92 | under the invariant, full exactly when the charge has reached 100 |
| Entities.Robot.GetCharge | src/com/cyxoud/robots/entities/Robot.java:157-159 | under the invariant, the charge is a multiple of ten within [0, 100] |
| Entities.Robot.GatheredCharging | src/com/cyxoud/robots/entities/Robot.java:164-166 | under the invariant, true exactly when the robot really owns both of its parts |
| Entities.Robot.BeCharged | src/com/cyxoud/robots/entities/Robot.java:54-61 | the new charge is one charge tick of the old one, given whether both parts are held. The invariant is kept |
| Entities.Robot.BeDischarged | src/com/cyxoud/robots/entities/Robot.java:67-78 | the new charge is one discharge tick of the old one. If it is still above 0, flags and owners are unchanged. On reaching 0, both flags are cleared and each part this robot owned is freed. The invariant is kept |
| Entities.Robot.TryTakeLeftChargerPart | src/com/cyxoud/robots/entities/Robot.java:97-109 | succeeds exactly when the robot is active and the left part is free. The robot then owns the part and its left flag is set. Otherwise nothing changes. The invariant is kept |
| Entities.Robot.TryTakeRightChargerPart | src/com/cyxoud/robots/entities/Robot.java:115-127 | the same as the left case, for the right part |
| Entities.Robot.TryFreeLeftChargerPart | src/com/cyxoud/robots/entities/Robot.java:133-141 | succeeds exactly when the robot owns the left part, whether or not it is active. The part becomes free, the flag is cleared afterwards, and the invariant is kept |
| Entities.Robot.TryFreeRightChargerPart | src/com/cyxoud/robots/entities/Robot.java:147-155 | the same as the left case, for the right part |
| Entities.Robot.SetLeftNeighbour | src/com/cyxoud/robots/entities/GentlemanlyRobot.java:44-46 | the left neighbour becomes the given robot |
| Entities.Robot.SetRightNeighbour | src/com/cyxoud/robots/entities/GentlemanlyRobot.java:48-50 | the right neighbour becomes the given robot |
| Entities.Robot.TryFreeChargerPartInFavourOfNeighbour | src/com/cyxoud/robots/entities/GentlemanlyRobot.java:25-42 | with a neighbour unset, it fails with NeighbourIsNotSet and changes nothing. Otherwise it frees exactly the part YieldDecision picks, at most one, and reports whether it freed one. Charges are untouched and the invariant is kept |
| Modelling.ParseInt | src/com/cyxoud/robots/RobotChargeModelling.java:34 | a parsed value is within the range of a Java int, and the parsed text is non-empty and ends in a digit |
| Modelling.DecimalStringDigits | tests/TestInputCombinations.java:28-30 | the decimal rendering of n is all digits and reads back as n |
| Modelling.ParseIntOfDecimalString | tests/TestInputCombinations.java:28-30 | parsing the decimal rendering of any non-negative int gives that int back |
| Modelling.SelectedStrategy | src/com/cyxoud/robots/RobotChargeModelling.java:79 | a valid selector picks one of the enumeration's values; their order is left as a parameter |
| Modelling.SelectorPicksItsPosition | src/com/cyxoud/robots/RobotChargeModelling.java:79 | selector v, written in decimal, is valid and picks the v-th of the enumeration's values |
| Modelling.RobotChargeModelling.constructor | src/com/cyxoud/robots/RobotChargeModelling.java:16 | an empty robot list and the given strategy order |
| Modelling.SelectorRenderingsAccepted | tests/TestInputCombinations.java:28-30 | the rendering of each of 1, 2 and 3 is a valid selector |
| Modelling.CheckInput | src/com/cyxoud/robots/RobotChargeModelling.java:27-45 | passes exactly when there are six arguments that each parse to 1, 2 or 3. Otherwise it reports a wrong count, or the 1-based position of the first bad argument and whether that argument was not an integer or was out of range |
| Modelling.RightPartIndex | src/com/cyxoud/robots/RobotChargeModelling.java:81-102 | robot i's right part is a part of the ring other than its left part i |
| Modelling.LeftNeighbourIndex | src/com/cyxoud/robots/RobotChargeModelling.java:117-128 | a gentlemanly robot's left neighbour is another robot of the ring |
| Modelling.RightNeighbourIndex | src/com/cyxoud/robots/RobotChargeModelling.java:117-128 | a gentlemanly robot's right neighbour is another robot of the ring |
| Modelling.RingIndicesAreModular | src/com/cyxoud/robots/RobotChargeModelling.java:78-131 | robot i's right part is (i + 5) mod 6, its left neighbour is (i + 1) mod 6 and its right neighbour is (i + 5) mod 6 |
| Modelling.EachPartSharedByTwo | src/com/cyxoud/robots/RobotChargeModelling.java:78-103 | part j is used by exactly two robots: robot j and robot j's left neighbour |
| Modelling.NeighboursShareParts | src/com/cyxoud/robots/RobotChargeModelling.java:112-131 | a robot's left part is its left neighbour's right part, and its right part is its right neighbour's left part |
| Modelling.NewChargerParts | src/com/cyxoud/robots/RobotChargeModelling.java:67-76 | six new, distinct, free parts |
| Modelling.RobotChargeModelling.RobotValid | src/com/cyxoud/robots/entities/Robot.java:29-32 | in a valid ring every robot satisfies its own invariant: flags agree with owners, and the charge is a level |
| Modelling.RobotChargeModelling.BuiltRobotsFormARing | src/com/cyxoud/robots/RobotChargeModelling.java:78-103 | robots built as initRobots builds them, over six distinct free parts, are six distinct robots over six distinct parts, wired as a ring. Each satisfies its invariant |
| Modelling.RobotChargeModelling.InitRobots | src/com/cyxoud/robots/RobotChargeModelling.java:66-106 | builds six new robots over six new parts. Robot i has left part i, right part i - 1 mod 6, the strategy its selector picks, charge 50, and no part or neighbour |
| Modelling.RobotChargeModelling.SetGentlemanRobotNeighbours | src/com/cyxoud/robots/RobotChargeModelling.java:112-131 | every gentlemanly robot i gets neighbours i + 1 and i - 1 mod 6. Every other robot keeps none |
| Modelling.RobotChargeModelling.InitialRingValid | src/com/cyxoud/robots/RobotChargeModelling.java:51-53 | the freshly wired ring, with every charge at 50 and no part owned, satisfies the ring invariant |
| Modelling.RobotChargeModelling.IsAllRobotsDischarged | src/com/cyxoud/robots/RobotChargeModelling.java:155-160 | true exactly when no robot is active |
| Modelling.RobotChargeModelling.IsAllAliveRobotsFullCharged | src/com/cyxoud/robots/RobotChargeModelling.java:166-173 | true exactly when every active robot is full |
| Modelling.RobotChargeModelling.IsModellingFinished | src/com/cyxoud/robots/RobotChargeModelling.java:57 | the monitoring loop exits exactly when every robot's charge is 0 or 100 |
| Modelling.RobotChargeModelling.NeighboursNeverShareAPart | src/com/cyxoud/robots/entities/ChargerPart.java:27-34 | in a valid ring, a robot and its left neighbour never both hold the part between them, so they are never charging at the same time |
| Modelling.RobotChargeModelling.OtherPartsAgree | src/com/cyxoud/robots/entities/Robot.java:97-155 | a step that touched only robot i and its two parts leaves every other part and every other robot in agreement |
| Modelling.RobotChargeModelling.TouchedPartsAgree | src/com/cyxoud/robots/entities/Robot.java:97-155 | after a step in which robot i kept its invariant and moved its parts' owners only between nobody and itself, both of its parts still agree with both of their robots |
| Modelling.RobotChargeModelling.StepKeepsRing | src/com/cyxoud/robots/entities/Robot.java:54-155 | any such step of one robot keeps the whole ring valid |
| Modelling.RobotChargeModelling.TakeStep | src/com/cyxoud/robots/entities/Robot.java:97-127 | robot i's take of its left or right part keeps the ring valid. It succeeds exactly when the robot is active and the part is free, and then the robot owns the part. The other part's owner and the robot's charge are unchanged |
| Modelling.RobotChargeModelling.FreeStep | src/com/cyxoud/robots/entities/Robot.java:133-155 | robot i's free of its left or right part keeps the ring valid. It succeeds exactly when the robot owned the part, which then becomes free. The other part's owner and the robot's charge are unchanged |
| Modelling.RobotChargeModelling.ChargeStep | src/com/cyxoud/robots/entities/Robot.java:54-61 | a charge tick of robot i keeps the ring valid and moves its charge by one charge tick |
| Modelling.RobotChargeModelling.DischargeStep | src/com/cyxoud/robots/entities/Robot.java:217-228 | a tick of robot i's discharge thread keeps the ring valid and moves its charge by one discharge tick. Above 0 its flags and both owners are unchanged; at 0 both flags are cleared and each part it owned is freed |
| Modelling.RobotChargeModelling.GiveWayStep | src/com/cyxoud/robots/entities/GentlemanlyRobot.java:25-42 | a wired gentlemanly robot's yield keeps the ring valid and leaves its charge unchanged. It yields exactly when YieldDecision, applied to the charges of its ring neighbours i + 1 and i - 1, picks a part, and exactly that part becomes free; the other keeps its owner |
| Modelling.NewRobotChargeModelling | src/com/cyxoud/robots/RobotChargeModelling.java:18-21 | bad input is refused before anything is built, with the first fault checkInput reports. Good input yields a valid ring of robots at charge 50, built from the selectors |
| Scenarios.HandOver | src/com/cyxoud/robots/entities/ChargerPart.java:27-48 | a second robot cannot take a part until its owner frees it, and then can |
| Scenarios.TakeThenFree | src/com/cyxoud/robots/entities/ChargerPart.java:27-55 | taking and then freeing a part by the same robot leaves it free |
| Scenarios.TakeTwice | src/com/cyxoud/robots/entities/ChargerPart.java:27-34 | a second take by the owner is refused and the owner stays |
| Scenarios.DefaultCharge | tests/RobotTest.java:22-25 | a new robot has charge 50 |
| Scenarios.GentlemanWithoutNeighbours | tests/RobotTest.java:27-31 | the yield of a gentlemanly robot without neighbours fails with NeighbourIsNotSet |
| Scenarios.CannotChargeAbove100 | tests/RobotTest.java:32-41 | six charge ticks from 50 while holding both parts give exactly 100 |
| Scenarios.DisconnectedWhenDischargedTo0 | tests/RobotTest.java:43-52 | five discharge ticks from 50 leave the robot inactive, and it can then take neither part |
| Scenarios.NeedsTwoParts | tests/RobotTest.java:54-70 | with one part the charge stays 50. Once the other robot frees the second part, the robot holds both and charges to 60 |
| Scenarios.FreesPartsBeforeExiting | tests/RobotTest.java:72-84 | a robot discharged until inactive has already freed the part it held |
| Scenarios.GentlemanInTheMiddle | tests/RobotTest.java:88-102 | the yield scenario's set-up: the gentlemanly robot in the middle holds both its parts |
| Scenarios.GentlemanGivesWay | tests/RobotTest.java:86-111 | after its left neighbour drops to 40, the gentlemanly robot gives up its left part only. The left neighbour can then take it, and the right neighbour still cannot take the other part |
| Scenarios.TooFewArguments | tests/RobotChargeTest.java:18-21 | five arguments are refused for their count |
| Scenarios.NonIntegerArgument | tests/RobotChargeTest.java:22-25 | "ok" in fourth place is refused at position 4 as not an integer |
| Scenarios.OutOfRangeArgument | tests/RobotChargeTest.java:27-30 | "4" in sixth place is refused at position 6 as out of range |
| Scenarios.ValidSelectorsBuildARing | tests/RobotChargeTest.java:32-38 | the selectors 1 2 3 3 2 1 build a valid ring with every robot at charge 50 |

## Left out

- The robots' threads are not modelled as threads:
  - the discharge thread's loop, with its sleeps and interrupts;
  - the strategy loops of the greedy, random and gentlemanly robots;
  - `initThreads` and `stopThreads`;
  - the busy-wait on the termination predicate.
  Only their atomic steps are modelled, as the `…Step` methods of the ring, which preserve the ring invariant in any interleaving. No liveness is claimed, such as the claim that the run ends with every charge at 0 or 100.
- Locking and the unsynchronised reads of the holding flags. Each method is one atomic step. `tryTakeLeftChargerPart`, `tryTakeRightChargerPart` and the two `tryFree` methods (src/com/cyxoud/robots/entities/Robot.java:97-155) are not `synchronized`: `isActive()` and `tryBeTaken` run under different locks, and the holding flag is written under neither. In the threaded program the discharge thread can therefore bring the charge to 0 between the activity check and the take, and the robot then owns a part at charge 0 until its strategy thread's `finally` frees it. `Entities.Robot.Valid`'s clause that a robot at charge 0 holds no part is a property of the atomic-step model only.
- The random delays of the random strategy: they have no behaviour to state. The trivial conjunction `checkChargePartsAvailability` belongs to that loop and is left out with it.
- Logging, `toString` and the global robot counter. Ids are plain constructor arguments.
- The declaration order of the `Strategy` enumeration: its source file is not part of this model. The order is a parameter (`strategyValues`), and selector v picks its v-th value.
- `main` and the exception classes. Exceptions become error values (`InputError`, `RobotError`).
- Modelling.ParseInt: accepts ASCII decimal digits only. Java's `Integer.parseInt` also accepts digits of other Unicode scripts.
- Entities.ChargerPart.TryBeTaken: takes a non-null robot. The Java method accepts null, which would leave the part looking free.
- Entities.ChargerPart.TryBeFreed: takes a non-null robot. The Java method accepts null, which on a free part would report success; every caller passes the robot itself.
- Entities.Robot.constructor: requires the two parts to be distinct. Otherwise a robot's two flags could not both agree with the owner of its one shared part; every caller passes distinct parts.
- Modelling.NewRobotChargeModelling: covers the constructor up to wiring the neighbours. It stops before the threads are started.
- Modelling.RobotChargeModelling.GiveWayStep: requires a gentlemanly robot. Only gentlemanly robots have the yield method in the source.
