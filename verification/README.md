# Box-push puzzle: goal occupancy, stuck boxes and agent bookkeeping

A Dafny model of the bookkeeping core of a Unity ML-Agents box-push puzzle. It covers three pieces.

- **Puzzle manager** (`puzzle_manager.dfy`, module `Manager`). The manager tracks which boxes sit inside a goal trigger and keeps a one-shot "puzzle complete" latch.
  - Each newly counted box calls the agent's per-box hook.
  - The completion hook is called once, when the count reaches `totalBoxesNeeded`.
  - The bookkeeping is stated as pure transition functions (`Enter`, `Exit`, `Run`), and the lemmas are proved about those functions.
  - The class `PuzzleManager` updates its fields in place. Its methods are proved to follow those functions, and it keeps the invariant that the completion hook has fired at most once since the last reset.
  - The same file holds the stuck-box rule. It probes in four directions, in the order forward, back, left, right. Each probe outcome is abstracted as a miss or a hit on a collider tagged `Wall`, `Box`, `Floor` or something else.
- **Goal trigger** (`goal_trigger.dfy`, module `Trigger`). It forwards enter and exit events to the manager, but only for colliders tagged `Box`.
- **Agent** (`puzzle_agent.dfy`, module `Agent`). This covers:
  - the fixed-length, zero-padded observation;
  - the reward and episode-end bookkeeping of one decision step;
  - the failure penalty;
  - the episode reset.

  Vectors are exact real triples and the reward is a real.

Some of this code differs from the design description of the same system. The model follows the code:

- A probe that hits a collider with none of the three known tags is neither skipped as blocked nor treated as open. It falls through both tag tests, and the loop moves on. Such a hit therefore counts as blocked, in the same way as a wall or a box.
- The match scan in `OnActionReceived` visits every unmatched box and goal. However, its body only builds two planar vectors. No pair is ever recorded, nothing is snapped into place and no match bonus is granted. As a result, `matchedPairs` is always empty. The completion bonus is therefore paid, and the episode ended, exactly when the box list or the goal list is empty. With one box and one goal, the puzzle never completes through this path.

## Model

| member | source | states |
|---|---|---|
| `Manager.Enter` | Assets/Scripts/PuzzleManager.cs:13-33 | entering adds exactly that box; an already counted box changes nothing and calls no hook; a new box calls the per-box hook once; the completion hook is called (at most once) iff the box is new, the latch was open and the count after insertion is at least the number needed; the latch is then closed |
| `Manager.Exit` | Assets/Scripts/PuzzleManager.cs:35-42 | leaving removes the box if it was counted, is a no-op otherwise, and never touches the latch |
| `Manager.EnterIdempotent` | Assets/Scripts/PuzzleManager.cs:15-20 | entering the same box twice is the same as entering it once; the second entry calls no hook |
| `Manager.ExitThenReenter` | Assets/Scripts/PuzzleManager.cs:15-42 | a counted box that leaves and re-enters is counted again and calls the per-box hook again, and with the latch closed it cannot call the completion hook again |
| `Manager.CompletionFiresAtMostOnce` | Assets/Scripts/PuzzleManager.cs:25-30 | over any run of enter/exit events with no reset, a closed latch stays closed, and the completion hook is called once if the latch went from open to closed and never otherwise, so at most once between resets |
| `Manager.NewArrivalsCounted` | Assets/Scripts/PuzzleManager.cs:15-20 | boxes that arrive new one after another all end up counted, the count grows by their number, and the per-box hook is called once for each |
| `Manager.NewArrivalsComplete` | Assets/Scripts/PuzzleManager.cs:25-30 | when new boxes arrive one after another, the completion hook is called exactly once if the latch was open and the count reaches the number needed, and never otherwise |
| `Manager.ThreeBoxesCompleteOnce` | Assets/Scripts/PuzzleManager.cs:8-31 | with the default of three boxes needed, after a reset two arrivals do not complete the puzzle and a third distinct arrival completes it, with three per-box calls and one completion call |
| `Manager.PuzzleManager.constructor` | Assets/Scripts/PuzzleManager.cs:8-11 | a new manager has no box in a goal, an open latch and no hook calls |
| `Manager.PuzzleManager.BoxEnteredGoal` | Assets/Scripts/PuzzleManager.cs:13-33 | the new set, latch and hook call counts are those given by `Enter` from the old state, and at most one completion call since the last reset is preserved |
| `Manager.PuzzleManager.BoxExitedGoal` | Assets/Scripts/PuzzleManager.cs:35-42 | the new set and latch are those given by `Exit`, and no hook is called |
| `Manager.PuzzleManager.Reset` | Assets/Scripts/PuzzleManager.cs:44-48 | afterwards the set is empty and the latch is open, and no hook is called |
| `Manager.Scan` | Assets/Scripts/PuzzleManager.cs:60-82 | the probe loop reports stuck iff every probe hits something not tagged floor; when stuck it casts every probe, and otherwise it stops at the first miss or floor hit after casting exactly the probes up to it, all earlier ones blocked |
| `Manager.IsBoxStuck` | Assets/Scripts/PuzzleManager.cs:50-83 | a box is stuck iff the forward, back, left and right probes all hit something not tagged floor; wall, box and untagged hits all count as blocked |
| `Manager.FirstOpenDecides` | Assets/Scripts/PuzzleManager.cs:64-79 | once a probe misses or hits floor, no later probe is cast and the outcomes of later probes cannot change the verdict |
| `Trigger.GoalTrigger.OnTriggerEnter` | Assets/Scripts/GoalTrigger.cs:7-13 | a collider tagged `Box` is passed to the manager as an entry, and any other collider leaves the manager unchanged |
| `Trigger.GoalTrigger.OnTriggerExit` | Assets/Scripts/GoalTrigger.cs:15-21 | a collider tagged `Box` is passed to the manager as an exit, and any other collider leaves the manager unchanged |
| `Agent.BoxBlock` | Assets/Scripts/PuzzleAgent.cs:45-63 | the box slots always take three vectors per slot, whatever the number of boxes |
| `Agent.GoalBlock` | Assets/Scripts/PuzzleAgent.cs:68-82 | the goal slots always take two vectors per slot, whatever the number of goals |
| `Agent.ObservationShape` | Assets/Scripts/PuzzleAgent.cs:34-83 | the observation always has 2 + 3·maxBoxes + 2·maxGoals vectors (a negative maximum counts as 0) and starts with the agent's position and velocity |
| `Agent.BoxObservation` | Assets/Scripts/PuzzleAgent.cs:45-63 | box slot i holds the box's position, its position minus the agent's, and its velocity when there is an i-th box, and three zero vectors otherwise |
| `Agent.GoalObservation` | Assets/Scripts/PuzzleAgent.cs:68-82 | goal slot i holds the goal's position and its position minus the agent's when there is an i-th goal, and two zero vectors otherwise |
| `Agent.NothingBeyondTheSlots` | Assets/Scripts/PuzzleAgent.cs:43-70 | cutting the box list to maxBoxes and the goal list to maxGoals leaves the observation unchanged, so later boxes and goals are never observed |
| `Agent.CompletionWithoutMatches` | Assets/Scripts/PuzzleAgent.cs:162-167 | with no pair matched, the completion test holds iff the box list or the goal list is empty |
| `Agent.PuzzleAgent.constructor` | Assets/Scripts/PuzzleAgent.cs:10-32 | a new agent has an empty `matchedPairs`, no reward and no ended episode |
| `Agent.PuzzleAgent.CollectObservations` | Assets/Scripts/PuzzleAgent.cs:34-83 | the vectors appended to the sensor are exactly the slot-by-slot observation layout above |
| `Agent.PuzzleAgent.OnActionReceived` | Assets/Scripts/PuzzleAgent.cs:86-168 | the step adds the step penalty and the shaping terms. The match scan leaves `matchedPairs` unchanged. The completion bonus of 2 is added, and the episode ended, exactly when the matched count equals the smaller list length. Because `matchedPairs` stays empty, that happens exactly when a list is empty |
| `Agent.PuzzleAgent.OnFailure` | Assets/Scripts/PuzzleAgent.cs:171-175 | the reward is overwritten with −1 rather than added to, and the episode is ended |
| `Agent.PuzzleAgent.OnEpisodeBegin` | Assets/Scripts/PuzzleAgent.cs:188-254 | every box and goal is active again, `matchedPairs` is empty, the agent and the boxes are placed at the drawn spawn points with zero velocity, the goals are placed at theirs, and the manager is reset |

## Left out

- Physics: `Physics.Raycast` is replaced by the four probe outcomes passed to `IsBoxStuck`, and `Rigidbody.MovePosition` (the movement command of `OnActionReceived`) is not modelled. Neither is `Time.deltaTime`, `moveSpeed` or the unused `pushForce`.
- Agent hooks: `OnBoxInGoal` and `OnPuzzleComplete` are not defined in the agent script, so the model only counts how often the manager calls each of them.
- Distance shaping: the total nearest-goal distance, `lastTotalDistance` and its progress reward, and the `Mathf.Clamp01` proximity reward are not modelled. They need `Vector3.Distance`, a square root over floats. `OnActionReceived` takes the sum of these two terms as its `shaping` parameter. `OnEpisodeBegin` does not re-seed `lastTotalDistance`.
- Agent.PuzzleAgent.OnActionReceived: the reward is exact real arithmetic, not single-precision floats.
- Randomised placement: the values drawn by `Random.Range` are passed to `OnEpisodeBegin` as parameters, required to lie in the drawn ranges. The model treats local positions as world positions, so the parent transform is assumed to be the identity.
- `reward` is the reward collected since the last decision. The training harness's own reset of that value, and what the engine does after `EndEpisode` (it starts a new episode), are not modelled; `EndEpisode` is counted in `episodesEnded`.
- `Initialize` (a `GetComponent` lookup), `Heuristic` (human input), `OnDrawGizmos`, the `Debug.Log` and `Debug.DrawRay` calls, and the unused `CheckIfFallen` are not modelled.
- Observations are modelled as a list of 3-vectors. The sensor's flattening into floats is not modelled.
