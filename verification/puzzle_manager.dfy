/**
 The puzzle manager of the box-push environment: which boxes currently sit
 inside a goal trigger, the one-shot "puzzle complete" latch, the two agent
 hooks those events fire, and the four-probe rule that classifies a box as stuck.

 The occupancy bookkeeping is given twice: as pure transition functions over
 an abstract `State` (Enter, Exit, Run), about which the lemmas are proved, and
 as the class `PuzzleManager`, whose methods update their fields in place and
 are proved to follow those functions.
 */
module Manager {

  /** Identity of a box game object. */
  type BoxId = nat

  /** The value the inspector field `totalBoxesNeeded` starts with. */
  const DefaultBoxesNeeded: int := 3

  /** Boxes currently inside some goal, and the completion latch. */
  datatype State = State(inGoals: set<BoxId>, complete: bool)

  /** The state after construction and after every reset. */
  const Cleared := State({}, false)

  /** How many times each agent hook was called: `OnBoxInGoal` and `OnPuzzleComplete`. */
  datatype Hooks = Hooks(boxInGoal: nat, puzzleComplete: nat)
  {
    function Plus(other: Hooks): Hooks
    {
      Hooks(boxInGoal + other.boxInGoal, puzzleComplete + other.puzzleComplete)
    }
  }

  const NoHooks := Hooks(0, 0)

  /** A box entering or leaving a goal trigger. */
  datatype Event = Entered(box: BoxId) | Exited(box: BoxId)

  /**
   A box enters a goal. Only a box not yet counted is added; each such entry
   calls the per-box hook once, and the completion hook is called when the count
   after insertion reaches `needed` while the latch is still open.
   */
  function Enter(needed: int, s: State, box: BoxId): (r: (State, Hooks))
    ensures r.0.inGoals == s.inGoals + {box}
    ensures box in s.inGoals ==> r == (s, NoHooks)
    ensures box !in s.inGoals ==> r.1.boxInGoal == 1 && |r.0.inGoals| == |s.inGoals| + 1
    ensures r.1.puzzleComplete <= 1
    ensures r.1.puzzleComplete == 1 <==> box !in s.inGoals && !s.complete && |s.inGoals| + 1 >= needed
    ensures r.0.complete <==> s.complete || r.1.puzzleComplete == 1
  {
    if box in s.inGoals then (s, NoHooks)
    else
      var inGoals := s.inGoals + {box};
      if |inGoals| >= needed && !s.complete then (State(inGoals, true), Hooks(1, 1))
      else (State(inGoals, s.complete), Hooks(1, 0))
  }

  /** A box leaves a goal: it is forgotten if it was counted; the latch is never touched. */
  function Exit(s: State, box: BoxId): (r: State)
    ensures r.inGoals == s.inGoals - {box}
    ensures r.complete == s.complete
    ensures box !in s.inGoals ==> r == s
  {
    if box in s.inGoals then State(s.inGoals - {box}, s.complete) else s
  }

  function Step(needed: int, s: State, e: Event): (State, Hooks)
  {
    match e
    case Entered(b) => Enter(needed, s, b)
    case Exited(b) => (Exit(s, b), NoHooks)
  }

  /** The state and the hook calls after a run of goal events with no reset in between. */
  function Run(needed: int, s: State, events: seq<Event>): (State, Hooks)
    decreases |events|
  {
    if events == [] then (s, NoHooks)
    else
      var (s1, h1) := Step(needed, s, events[0]);
      var (s2, h2) := Run(needed, s1, events[1..]);
      (s2, h1.Plus(h2))
  }

  /** Entering twice is entering once: the second entry changes nothing and calls no hook. */
  lemma EnterIdempotent(needed: int, s: State, box: BoxId)
    ensures var (s1, _) := Enter(needed, s, box); Enter(needed, s1, box) == (s1, NoHooks)
  {
  }

  /**
   A counted box that leaves and comes back is counted again and calls the per-box
   hook again, but cannot call the completion hook a second time.
   */
  lemma ExitThenReenter(needed: int, s: State, box: BoxId)
    requires box in s.inGoals
    ensures var (s2, h) := Enter(needed, Exit(s, box), box);
      s2.inGoals == s.inGoals && h.boxInGoal == 1 && (s.complete ==> h.puzzleComplete == 0 && s2 == s)
  {
    assert Exit(s, box).inGoals + {box} == s.inGoals;
  }

  /**
   Between two resets the completion hook is called at most once, whatever the
   boxes do: it is called exactly when the latch goes from open to closed, and a
   closed latch stays closed.
   */
  lemma {:induction false} CompletionFiresAtMostOnce(needed: int, s: State, events: seq<Event>)
    ensures var (s', h) := Run(needed, s, events);
      && (s.complete ==> s'.complete)
      && h.puzzleComplete == (if s'.complete && !s.complete then 1 else 0)
    decreases |events|
  {
    if events != [] {
      var (s1, h1) := Step(needed, s, events[0]);
      CompletionFiresAtMostOnce(needed, s1, events[1..]);
      assert h1.puzzleComplete == (if s1.complete && !s.complete then 1 else 0) by {
        match events[0]
        case Entered(b) =>
        case Exited(b) =>
      }
    }
  }

  /** The events of boxes entering goals in the given order. */
  function Arrivals(boxes: seq<BoxId>): (events: seq<Event>)
    ensures |events| == |boxes|
    ensures forall i :: 0 <= i < |boxes| ==> events[i] == Entered(boxes[i])
  {
    if boxes == [] then [] else [Entered(boxes[0])] + Arrivals(boxes[1..])
  }

  /** Each box, when it arrives, is in no goal yet: the boxes are distinct and none is already counted. */
  predicate AllNew(boxes: seq<BoxId>, inGoals: set<BoxId>)
    decreases |boxes|
  {
    boxes == [] || (boxes[0] !in inGoals && AllNew(boxes[1..], inGoals + {boxes[0]}))
  }

  /** The boxes of a sequence, as a set. */
  function Members(boxes: seq<BoxId>): (m: set<BoxId>)
    ensures forall b :: b in m <==> b in boxes
    decreases |boxes|
  {
    if boxes == [] then {} else {boxes[0]} + Members(boxes[1..])
  }

  /** New boxes arriving one after another are all counted, and each calls the per-box hook once. */
  lemma {:induction false} NewArrivalsCounted(needed: int, s: State, boxes: seq<BoxId>)
    requires AllNew(boxes, s.inGoals)
    ensures Run(needed, s, Arrivals(boxes)).0.inGoals == s.inGoals + Members(boxes)
    ensures |Run(needed, s, Arrivals(boxes)).0.inGoals| == |s.inGoals| + |boxes|
    ensures Run(needed, s, Arrivals(boxes)).1.boxInGoal == |boxes|
    decreases |boxes|
  {
    if boxes != [] {
      var rest := boxes[1..];
      var first := Enter(needed, s, boxes[0]);
      var later := Run(needed, first.0, Arrivals(rest));
      assert Arrivals(boxes)[1..] == Arrivals(rest);
      assert Run(needed, s, Arrivals(boxes)) == (later.0, first.1.Plus(later.1));
      assert first.0.inGoals == s.inGoals + {boxes[0]};
      assert AllNew(rest, first.0.inGoals);
      NewArrivalsCounted(needed, first.0, rest);
    }
  }

  /**
   When new boxes arrive one after another, the completion hook is called once
   exactly when the latch was open and the count reaches `needed` on one of
   these arrivals, and never otherwise.
   */
  lemma {:induction false} NewArrivalsComplete(needed: int, s: State, boxes: seq<BoxId>)
    requires AllNew(boxes, s.inGoals)
    ensures Run(needed, s, Arrivals(boxes)).1.puzzleComplete
      == if !s.complete && |boxes| > 0 && |s.inGoals| + |boxes| >= needed then 1 else 0
    decreases |boxes|
  {
    if boxes != [] {
      var rest := boxes[1..];
      var first := Enter(needed, s, boxes[0]);
      var later := Run(needed, first.0, Arrivals(rest));
      assert Arrivals(boxes)[1..] == Arrivals(rest);
      assert Run(needed, s, Arrivals(boxes)).1.puzzleComplete == first.1.puzzleComplete + later.1.puzzleComplete;
      assert |first.0.inGoals| == |s.inGoals| + 1;
      assert AllNew(rest, first.0.inGoals);
      NewArrivalsComplete(needed, first.0, rest);
      if s.complete {
        assert first.1.puzzleComplete == 0 && first.0.complete;
      } else if |s.inGoals| + 1 >= needed {
        assert first.1.puzzleComplete == 1 && first.0.complete;
      } else {
        assert first.1.puzzleComplete == 0 && !first.0.complete;
      }
    }
  }

  /** With three boxes needed, three distinct boxes arriving after a reset complete the puzzle once, on the third. */
  lemma ThreeBoxesCompleteOnce(a: BoxId, b: BoxId, c: BoxId)
    requires a != b && b != c && a != c
    ensures var (s2, h2) := Run(DefaultBoxesNeeded, Cleared, Arrivals([a, b]));
      !s2.complete && h2.puzzleComplete == 0
    ensures var (s3, h3) := Run(DefaultBoxesNeeded, Cleared, Arrivals([a, b, c]));
      s3.complete && s3.inGoals == {a, b, c} && h3 == Hooks(3, 1)
  {
    assert Members([a, b, c]) == {a, b, c};
    assert AllNew([a, b, c], {}) by {
      assert [a, b, c][1..] == [b, c] && [b, c][1..] == [c] && [c][1..] == [];
      assert AllNew([c], {a, b});
      assert {a} + {b} == {a, b} && {} + {a} == {a};
      assert AllNew([b, c], {a});
    }
    assert AllNew([a, b], {}) by {
      assert [a, b][1..] == [b] && [b][1..] == [];
      assert {} + {a} == {a};
      assert AllNew([b], {a});
    }
    NewArrivalsCounted(DefaultBoxesNeeded, Cleared, [a, b, c]);
    NewArrivalsComplete(DefaultBoxesNeeded, Cleared, [a, b]);
    NewArrivalsComplete(DefaultBoxesNeeded, Cleared, [a, b, c]);
    CompletionFiresAtMostOnce(DefaultBoxesNeeded, Cleared, Arrivals([a, b]));
    CompletionFiresAtMostOnce(DefaultBoxesNeeded, Cleared, Arrivals([a, b, c]));
  }

  /**
   The scene object that owns the occupancy state. The two agent hooks are
   abstract events; the class counts how often it has called each.
   */
  class PuzzleManager {
    const totalBoxesNeeded: int
    var boxesInGoals: set<BoxId>
    var puzzleComplete: bool
    var boxInGoalCalls: nat
    var puzzleCompleteCalls: nat
    /** The value of `puzzleCompleteCalls` at the last reset. */
    ghost var completeCallsAtReset: nat

    /** Since the last reset the completion hook was called once if the latch is closed, never if it is open. */
    ghost predicate Valid()
      reads this
    {
      puzzleCompleteCalls == completeCallsAtReset + (if puzzleComplete then 1 else 0)
    }

    function Current(): State
      reads this
    {
      State(boxesInGoals, puzzleComplete)
    }

    function Calls(): Hooks
      reads this
    {
      Hooks(boxInGoalCalls, puzzleCompleteCalls)
    }

    constructor (totalBoxesNeeded: int)
      ensures Valid()
      ensures this.totalBoxesNeeded == totalBoxesNeeded
      ensures Current() == Cleared && Calls() == NoHooks
    {
      this.totalBoxesNeeded := totalBoxesNeeded;
      boxesInGoals := {};
      puzzleComplete := false;
      boxInGoalCalls, puzzleCompleteCalls := 0, 0;
      completeCallsAtReset := 0;
    }

    method BoxEnteredGoal(box: BoxId)
      requires Valid()
      modifies this
      ensures Valid()
      ensures Current() == Enter(totalBoxesNeeded, old(Current()), box).0
      ensures Calls() == old(Calls()).Plus(Enter(totalBoxesNeeded, old(Current()), box).1)
      ensures completeCallsAtReset == old(completeCallsAtReset)
    {
      if box !in boxesInGoals {
        boxesInGoals := boxesInGoals + {box};
        boxInGoalCalls := boxInGoalCalls + 1;
        if |boxesInGoals| >= totalBoxesNeeded && !puzzleComplete {
          puzzleComplete := true;
          puzzleCompleteCalls := puzzleCompleteCalls + 1;
        }
      }
    }

    method BoxExitedGoal(box: BoxId)
      requires Valid()
      modifies this
      ensures Valid()
      ensures Current() == Exit(old(Current()), box)
      ensures Calls() == old(Calls())
      ensures completeCallsAtReset == old(completeCallsAtReset)
    {
      if box in boxesInGoals {
        boxesInGoals := boxesInGoals - {box};
      }
    }

    method Reset()
      requires Valid()
      modifies this
      ensures Valid()
      ensures Current() == Cleared
      ensures Calls() == old(Calls())
      ensures completeCallsAtReset == puzzleCompleteCalls
    {
      puzzleComplete := false;
      boxesInGoals := {};
      completeCallsAtReset := puzzleCompleteCalls;
    }
  }

  // ---------------------------------------------------------------------------
  // Stuck-box detection

  /** The tag of the collider a probe hits; `Untagged` is any tag other than the three named ones. */
  datatype Tag = Wall | Box | Floor | Untagged

  /** The outcome of one probe of length 1 from the box centre. */
  datatype Probe = Miss | Hit(tag: Tag)

  /** The four probe outcomes around a box. */
  datatype Surroundings = Surroundings(forward: Probe, back: Probe, left: Probe, right: Probe)
  {
    /** The order in which the probes are cast. */
    function InOrder(): seq<Probe>
    {
      [forward, back, left, right]
    }
  }

  /** A direction is blocked when its probe hits something that is not floor. */
  predicate Blocked(p: Probe)
  {
    p.Hit? && p.tag != Floor
  }

  /** The verdict of a scan, with the number of probes actually cast before it returned. */
  datatype ScanResult = ScanResult(stuck: bool, raysCast: nat)

  /**
   The probe loop: a wall or box hit moves on to the next direction, a miss or a
   floor hit returns "not stuck" at once, and a hit with any other tag falls
   through both tests and moves on as well.
   */
  function Scan(probes: seq<Probe>): (r: ScanResult)
    ensures r.raysCast <= |probes|
    ensures r.stuck <==> forall i :: 0 <= i < |probes| ==> Blocked(probes[i])
    ensures r.stuck ==> r.raysCast == |probes|
    ensures !r.stuck ==> 0 < r.raysCast && !Blocked(probes[r.raysCast - 1])
    ensures !r.stuck ==> forall i :: 0 <= i < r.raysCast - 1 ==> Blocked(probes[i])
    decreases |probes|
  {
    if probes == [] then ScanResult(true, 0)
    else
      match probes[0]
      case Miss => ScanResult(false, 1)
      case Hit(tag) =>
        if tag == Wall || tag == Box then
          var rest := Scan(probes[1..]);
          ScanResult(rest.stuck, rest.raysCast + 1)
        else if tag == Floor then ScanResult(false, 1)
        else
          var rest := Scan(probes[1..]);
          ScanResult(rest.stuck, rest.raysCast + 1)
  }

  /** A box is stuck exactly when all four probes hit something other than floor. */
  function IsBoxStuck(s: Surroundings): (stuck: bool)
    ensures stuck <==> Blocked(s.forward) && Blocked(s.back) && Blocked(s.left) && Blocked(s.right)
  {
    var probes := s.InOrder();
    assert forall i :: 0 <= i < 4 ==> probes[i] in {s.forward, s.back, s.left, s.right};
    Scan(probes).stuck
  }

  /**
   The first open direction decides: once a probe misses or hits floor, no later
   probe is cast and the later outcomes cannot change the verdict.
   */
  lemma {:induction false} FirstOpenDecides(probes: seq<Probe>, others: seq<Probe>, k: nat)
    requires k < |probes| && k < |others|
    requires probes[..k + 1] == others[..k + 1]
    requires !Blocked(probes[k])
    ensures Scan(probes) == Scan(others)
    ensures Scan(probes).raysCast <= k + 1
  {
    var r, q := Scan(probes), Scan(others);
    assert !r.stuck && !q.stuck by {
      assert others[k] == others[..k + 1][k] == probes[..k + 1][k] == probes[k];
    }
    assert forall i :: 0 <= i <= k ==> probes[i] == others[i] by {
      forall i | 0 <= i <= k ensures probes[i] == others[i] {
        assert probes[i] == probes[..k + 1][i];
        assert others[i] == others[..k + 1][i];
      }
    }
  }
}
