/**
 The learning agent of the box-push environment: the fixed-size observation it
 hands to the policy, its reward bookkeeping for one decision, the failure
 penalty, and the episode reset.

 Positions and velocities are exact real 3-vectors; the reward is a real.
 */
module Agent {
  import opened Manager

  datatype Vec3 = Vec3(x: real, y: real, z: real)
  {
    function Minus(other: Vec3): Vec3
    {
      Vec3(x - other.x, y - other.y, z - other.z)
    }
  }

  const Zero := Vec3(0.0, 0.0, 0.0)

  /** A box: where it is, how it moves, and whether its game object is active. */
  datatype BoxBody = BoxBody(position: Vec3, velocity: Vec3, active: bool)

  /** A goal marker: where it is and whether its game object is active. */
  datatype GoalMarker = GoalMarker(position: Vec3, active: bool)

  /** A recorded (box, goal) match, as indices into the agent's box and goal lists. */
  datatype MatchedPair = MatchedPair(box: nat, goal: nat)

  /** The inspector defaults for the number of observed box and goal slots. */
  const DefaultMaxBoxes: int := 4
  const DefaultMaxGoals: int := 4

  const StepPenalty: real := -0.001
  const CompletionBonus: real := 2.0
  const FailureReward: real := -1.0

  /** Ranges of the random spawn draws: x and z are drawn in these closed intervals, y is fixed per kind. */
  const SpawnMinX: real := -8.3
  const SpawnMaxX: real := 5.0
  const SpawnMinZ: real := -11.65
  const SpawnMaxZ: real := 1.35
  const AgentSpawnY: real := 7.8
  const BoxSpawnY: real := 7.5
  const GoalSpawnY: real := 6.77

  predicate SpawnPoint(p: Vec3, height: real)
  {
    SpawnMinX <= p.x <= SpawnMaxX && p.y == height && SpawnMinZ <= p.z <= SpawnMaxZ
  }

  function Min(a: int, b: int): int
  {
    if a <= b then a else b
  }

  /** A `for (i = 0; i < n; i++)` loop runs `Slots(n)` times; a negative bound runs it never. */
  function Slots(n: int): nat
  {
    if n < 0 then 0 else n
  }

  // ---------------------------------------------------------------------------
  // Observation layout

  /** The three vectors observed for box slot `i`: position, offset from the agent, velocity; zeros when no such box. */
  function BoxSlot(agentPos: Vec3, boxes: seq<BoxBody>, i: nat): seq<Vec3>
  {
    if i < |boxes| then [boxes[i].position, boxes[i].position.Minus(agentPos), boxes[i].velocity]
    else [Zero, Zero, Zero]
  }

  /** The two vectors observed for goal slot `i`: position, offset from the agent; zeros when no such goal. */
  function GoalSlot(agentPos: Vec3, goals: seq<GoalMarker>, i: nat): seq<Vec3>
  {
    if i < |goals| then [goals[i].position, goals[i].position.Minus(agentPos)]
    else [Zero, Zero]
  }

  /** The observations of box slots 0 to n - 1, in slot order. */
  function BoxBlock(agentPos: Vec3, boxes: seq<BoxBody>, n: nat): (r: seq<Vec3>)
    ensures |r| == 3 * n
  {
    if n == 0 then [] else BoxBlock(agentPos, boxes, n - 1) + BoxSlot(agentPos, boxes, n - 1)
  }

  /** The observations of goal slots 0 to n - 1, in slot order. */
  function GoalBlock(agentPos: Vec3, goals: seq<GoalMarker>, n: nat): (r: seq<Vec3>)
    ensures |r| == 2 * n
  {
    if n == 0 then [] else GoalBlock(agentPos, goals, n - 1) + GoalSlot(agentPos, goals, n - 1)
  }

  /** The whole observation: agent position and velocity, then every box slot, then every goal slot. */
  function Observation(agentPos: Vec3, agentVel: Vec3, boxes: seq<BoxBody>, goals: seq<GoalMarker>,
                       maxBoxes: int, maxGoals: int): seq<Vec3>
  {
    [agentPos, agentVel] + BoxBlock(agentPos, boxes, Slots(maxBoxes)) + GoalBlock(agentPos, goals, Slots(maxGoals))
  }

  lemma {:induction false} BoxBlockAt(agentPos: Vec3, boxes: seq<BoxBody>, n: nat, i: nat, k: nat)
    requires i < n && k < 3
    ensures BoxBlock(agentPos, boxes, n)[3 * i + k] == BoxSlot(agentPos, boxes, i)[k]
  {
    if i < n - 1 {
      BoxBlockAt(agentPos, boxes, n - 1, i, k);
    }
  }

  lemma {:induction false} GoalBlockAt(agentPos: Vec3, goals: seq<GoalMarker>, n: nat, i: nat, k: nat)
    requires i < n && k < 2
    ensures GoalBlock(agentPos, goals, n)[2 * i + k] == GoalSlot(agentPos, goals, i)[k]
  {
    if i < n - 1 {
      GoalBlockAt(agentPos, goals, n - 1, i, k);
    }
  }

  /** The observation has the same length whatever the numbers of boxes and goals, and starts with the agent. */
  lemma ObservationShape(agentPos: Vec3, agentVel: Vec3, boxes: seq<BoxBody>, goals: seq<GoalMarker>,
                         maxBoxes: int, maxGoals: int)
    ensures var obs := Observation(agentPos, agentVel, boxes, goals, maxBoxes, maxGoals);
      && |obs| == 2 + 3 * Slots(maxBoxes) + 2 * Slots(maxGoals)
      && obs[0] == agentPos && obs[1] == agentVel
  {
  }

  /**
   Box slot `i` holds the box's position, its offset from the agent and its
   velocity when there is an i-th box, and three zero vectors otherwise.
   */
  lemma BoxObservation(agentPos: Vec3, agentVel: Vec3, boxes: seq<BoxBody>, goals: seq<GoalMarker>,
                       maxBoxes: int, maxGoals: int, i: nat)
    requires i < Slots(maxBoxes)
    ensures var obs := Observation(agentPos, agentVel, boxes, goals, maxBoxes, maxGoals);
      var at := 2 + 3 * i;
      && at + 2 < |obs|
      && (i < |boxes| ==>
            obs[at] == boxes[i].position && obs[at + 1] == boxes[i].position.Minus(agentPos)
            && obs[at + 2] == boxes[i].velocity)
      && (i >= |boxes| ==> obs[at] == Zero && obs[at + 1] == Zero && obs[at + 2] == Zero)
  {
    var n := Slots(maxBoxes);
    BoxBlockAt(agentPos, boxes, n, i, 0);
    BoxBlockAt(agentPos, boxes, n, i, 1);
    BoxBlockAt(agentPos, boxes, n, i, 2);
  }

  /**
   Goal slot `i` holds the goal's position and its offset from the agent when
   there is an i-th goal, and two zero vectors otherwise.
   */
  lemma GoalObservation(agentPos: Vec3, agentVel: Vec3, boxes: seq<BoxBody>, goals: seq<GoalMarker>,
                        maxBoxes: int, maxGoals: int, i: nat)
    requires i < Slots(maxGoals)
    ensures var obs := Observation(agentPos, agentVel, boxes, goals, maxBoxes, maxGoals);
      var at := 2 + 3 * Slots(maxBoxes) + 2 * i;
      && at + 1 < |obs|
      && (i < |goals| ==> obs[at] == goals[i].position && obs[at + 1] == goals[i].position.Minus(agentPos))
      && (i >= |goals| ==> obs[at] == Zero && obs[at + 1] == Zero)
  {
    var n := Slots(maxGoals);
    GoalBlockAt(agentPos, goals, n, i, 0);
    GoalBlockAt(agentPos, goals, n, i, 1);
  }

  /** The first `n` elements of a list, or all of it when it is shorter. */
  function Take<T>(s: seq<T>, n: nat): (r: seq<T>)
    ensures |r| == Min(|s|, n) && r == s[..|r|]
  {
    if |s| <= n then s else s[..n]
  }

  lemma {:induction false} BoxBlockTake(agentPos: Vec3, boxes: seq<BoxBody>, n: nat, m: nat)
    requires n <= m
    ensures BoxBlock(agentPos, boxes, n) == BoxBlock(agentPos, Take(boxes, m), n)
  {
    if n > 0 {
      BoxBlockTake(agentPos, boxes, n - 1, m);
    }
  }

  lemma {:induction false} GoalBlockTake(agentPos: Vec3, goals: seq<GoalMarker>, n: nat, m: nat)
    requires n <= m
    ensures GoalBlock(agentPos, goals, n) == GoalBlock(agentPos, Take(goals, m), n)
  {
    if n > 0 {
      GoalBlockTake(agentPos, goals, n - 1, m);
    }
  }

  /** Boxes past the last box slot and goals past the last goal slot are never observed. */
  lemma NothingBeyondTheSlots(agentPos: Vec3, agentVel: Vec3, boxes: seq<BoxBody>, goals: seq<GoalMarker>,
                              maxBoxes: int, maxGoals: int)
    ensures Observation(agentPos, agentVel, boxes, goals, maxBoxes, maxGoals)
         == Observation(agentPos, agentVel, Take(boxes, Slots(maxBoxes)), Take(goals, Slots(maxGoals)), maxBoxes, maxGoals)
  {
    BoxBlockTake(agentPos, boxes, Slots(maxBoxes), Slots(maxBoxes));
    GoalBlockTake(agentPos, goals, Slots(maxGoals), Slots(maxGoals));
  }

  // ---------------------------------------------------------------------------
  // Matching and completion

  predicate BoxMatched(pairs: seq<MatchedPair>, box: nat)
  {
    exists k :: 0 <= k < |pairs| && pairs[k].box == box
  }

  predicate GoalMatched(pairs: seq<MatchedPair>, goal: nat)
  {
    exists k :: 0 <= k < |pairs| && pairs[k].goal == goal
  }

  /** The episode is won when as many pairs are matched as the smaller of the two lists allows. */
  predicate CompletionDue(matched: nat, boxCount: nat, goalCount: nat)
  {
    matched == Min(boxCount, goalCount)
  }

  /** With no pair ever matched, the completion test passes exactly when one of the lists is empty. */
  lemma CompletionWithoutMatches(boxCount: nat, goalCount: nat)
    ensures CompletionDue(0, boxCount, goalCount) <==> boxCount == 0 || goalCount == 0
  {
  }

  // ---------------------------------------------------------------------------
  // The agent

  class PuzzleAgent {
    const manager: PuzzleManager
    const maxBoxes: int
    const maxGoals: int
    var position: Vec3
    var velocity: Vec3
    var boxes: seq<BoxBody>
    var goals: seq<GoalMarker>
    var matchedPairs: seq<MatchedPair>
    /** Reward collected since the last decision was reported. */
    var reward: real
    /** How many times the agent has ended an episode. */
    var episodesEnded: nat

    /** Nothing ever appends to `matchedPairs`, so it stays empty; the manager keeps its own invariant. */
    ghost predicate Valid()
      reads this, manager
    {
      matchedPairs == [] && manager.Valid()
    }

    constructor (manager: PuzzleManager, maxBoxes: int, maxGoals: int,
                 position: Vec3, velocity: Vec3, boxes: seq<BoxBody>, goals: seq<GoalMarker>)
      requires manager.Valid()
      ensures Valid()
      ensures this.manager == manager && this.maxBoxes == maxBoxes && this.maxGoals == maxGoals
      ensures this.position == position && this.velocity == velocity
      ensures this.boxes == boxes && this.goals == goals
      ensures reward == 0.0 && episodesEnded == 0
    {
      this.manager := manager;
      this.maxBoxes, this.maxGoals := maxBoxes, maxGoals;
      this.position, this.velocity := position, velocity;
      this.boxes, this.goals := boxes, goals;
      matchedPairs := [];
      reward, episodesEnded := 0.0, 0;
    }

    /** Builds the observation vector by appending slot after slot, padding missing boxes and goals with zeros. */
    method CollectObservations() returns (sensor: seq<Vec3>)
      ensures sensor == Observation(position, velocity, boxes, goals, maxBoxes, maxGoals)
    {
      sensor := [position, velocity];
      var boxCount := |boxes|;
      var i := 0;
      while i < maxBoxes
        invariant 0 <= i <= Slots(maxBoxes)
        invariant sensor == [position, velocity] + BoxBlock(position, boxes, i)
      {
        ghost var before := sensor;
        if i < boxCount {
          var box := boxes[i];
          sensor := sensor + [box.position];
          sensor := sensor + [box.position.Minus(position)];
          sensor := sensor + [box.velocity];
        } else {
          sensor := sensor + [Zero];
          sensor := sensor + [Zero];
          sensor := sensor + [Zero];
        }
        assert sensor == before + BoxSlot(position, boxes, i);
        i := i + 1;
      }
      ghost var boxPart := sensor;
      var goalCount := |goals|;
      var j := 0;
      while j < maxGoals
        invariant 0 <= j <= Slots(maxGoals)
        invariant sensor == boxPart + GoalBlock(position, goals, j)
      {
        ghost var before := sensor;
        if j < goalCount {
          var goal := goals[j];
          sensor := sensor + [goal.position];
          sensor := sensor + [goal.position.Minus(position)];
        } else {
          sensor := sensor + [Zero];
          sensor := sensor + [Zero];
        }
        assert sensor == before + GoalSlot(position, goals, j);
        j := j + 1;
      }
    }

    /**
     One decision step. `shaping` is the sum of the two distance-based terms
     (progress towards the goals and proximity to the nearest box), computed
     outside this model. The match scan only reads `matchedPairs`, so the
     completion test compares an empty list with the smaller list length.
     */
    method OnActionReceived(shaping: real)
      requires Valid()
      modifies this
      ensures Valid()
      ensures matchedPairs == old(matchedPairs) && boxes == old(boxes) && goals == old(goals)
      ensures position == old(position) && velocity == old(velocity)
      ensures var done := CompletionDue(|matchedPairs|, |boxes|, |goals|);
        && reward == old(reward) + StepPenalty + shaping + (if done then CompletionBonus else 0.0)
        && episodesEnded == old(episodesEnded) + (if done then 1 else 0)
      ensures episodesEnded == old(episodesEnded) + 1 <==> |boxes| == 0 || |goals| == 0
    {
      reward := reward + StepPenalty;
      reward := reward + shaping;

      var i := 0;
      while i < |boxes|
        invariant 0 <= i <= |boxes|
      {
        var box := boxes[i];
        var alreadyMatched := BoxMatched(matchedPairs, i);
        if !alreadyMatched {
          var j := 0;
          while j < |goals|
            invariant 0 <= j <= |goals|
          {
            var goal := goals[j];
            var goalAlreadyMatched := GoalMatched(matchedPairs, j);
            if !goalAlreadyMatched {
              var boxPos2D := (box.position.x, box.position.z);
              var goalPos2D := (goal.position.x, goal.position.z);
            }
            j := j + 1;
          }
        }
        i := i + 1;
      }

      if |matchedPairs| == Min(|boxes|, |goals|) {
        reward := reward + CompletionBonus;
        episodesEnded := episodesEnded + 1;
      }
      CompletionWithoutMatches(|boxes|, |goals|);
    }

    /** Failure overwrites whatever reward was collected with the fixed penalty, and ends the episode. */
    method OnFailure()
      requires Valid()
      modifies this
      ensures Valid()
      ensures reward == FailureReward
      ensures episodesEnded == old(episodesEnded) + 1
      ensures matchedPairs == old(matchedPairs) && boxes == old(boxes) && goals == old(goals)
      ensures position == old(position) && velocity == old(velocity)
    {
      reward := FailureReward;
      episodesEnded := episodesEnded + 1;
    }

    /**
     Episode reset. The random spawn draws are passed in: `agentSpawn`, one
     point per box and one per goal, each inside the spawn ranges.
     */
    method OnEpisodeBegin(agentSpawn: Vec3, boxSpawns: seq<Vec3>, goalSpawns: seq<Vec3>)
      requires Valid()
      requires |boxSpawns| == |boxes| && |goalSpawns| == |goals|
      requires SpawnPoint(agentSpawn, AgentSpawnY)
      requires forall k :: 0 <= k < |boxSpawns| ==> SpawnPoint(boxSpawns[k], BoxSpawnY)
      requires forall k :: 0 <= k < |goalSpawns| ==> SpawnPoint(goalSpawns[k], GoalSpawnY)
      modifies this, manager
      ensures Valid()
      ensures matchedPairs == []
      ensures position == agentSpawn && velocity == Zero
      ensures |boxes| == |old(boxes)| && |goals| == |old(goals)|
      ensures forall k :: 0 <= k < |boxes| ==> boxes[k] == BoxBody(boxSpawns[k], Zero, true)
      ensures forall k :: 0 <= k < |goals| ==> goals[k] == GoalMarker(goalSpawns[k], true)
      ensures manager.Current() == Cleared && manager.Calls() == old(manager.Calls())
      ensures reward == old(reward) && episodesEnded == old(episodesEnded)
    {
      var i := 0;
      while i < |boxes|
        modifies this
        invariant 0 <= i <= |boxes| == |old(boxes)|
        invariant forall k :: 0 <= k < i ==> boxes[k] == old(boxes[k]).(active := true)
        invariant forall k :: i <= k < |boxes| ==> boxes[k] == old(boxes[k])
        invariant goals == old(goals) && matchedPairs == old(matchedPairs)
        invariant position == old(position) && velocity == old(velocity)
        invariant reward == old(reward) && episodesEnded == old(episodesEnded)
      {
        boxes := boxes[i := boxes[i].(active := true)];
        i := i + 1;
      }
      i := 0;
      while i < |goals|
        modifies this
        invariant 0 <= i <= |goals| == |old(goals)|
        invariant forall k :: 0 <= k < i ==> goals[k] == old(goals[k]).(active := true)
        invariant forall k :: i <= k < |goals| ==> goals[k] == old(goals[k])
        invariant |boxes| == |old(boxes)| && forall k :: 0 <= k < |boxes| ==> boxes[k].active
        invariant matchedPairs == old(matchedPairs)
        invariant reward == old(reward) && episodesEnded == old(episodesEnded)
      {
        goals := goals[i := goals[i].(active := true)];
        i := i + 1;
      }

      matchedPairs := [];

      position := agentSpawn;
      velocity := Zero;

      i := 0;
      while i < |boxes|
        modifies this
        invariant 0 <= i <= |boxes| == |boxSpawns|
        invariant forall k :: 0 <= k < i ==> boxes[k] == BoxBody(boxSpawns[k], Zero, true)
        invariant forall k :: i <= k < |boxes| ==> boxes[k].active
        invariant |goals| == |goalSpawns| && forall k :: 0 <= k < |goals| ==> goals[k].active
        invariant matchedPairs == [] && position == agentSpawn && velocity == Zero
        invariant reward == old(reward) && episodesEnded == old(episodesEnded)
      {
        boxes := boxes[i := boxes[i].(position := boxSpawns[i], velocity := Zero)];
        i := i + 1;
      }
      i := 0;
      while i < |goals|
        modifies this
        invariant 0 <= i <= |goals| == |goalSpawns|
        invariant forall k :: 0 <= k < i ==> goals[k] == GoalMarker(goalSpawns[k], true)
        invariant forall k :: i <= k < |goals| ==> goals[k].active
        invariant |boxes| == |boxSpawns| && forall k :: 0 <= k < |boxes| ==> boxes[k] == BoxBody(boxSpawns[k], Zero, true)
        invariant matchedPairs == [] && position == agentSpawn && velocity == Zero
        invariant reward == old(reward) && episodesEnded == old(episodesEnded)
      {
        goals := goals[i := goals[i].(position := goalSpawns[i])];
        i := i + 1;
      }

      manager.Reset();
    }
  }
}
