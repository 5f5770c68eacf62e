/** The box-breathing exercise (src/BreathingExercise.jsx): four phases of four
    ticks each, in a fixed cycle, with a countdown shown for the current phase.
    A tick is one firing of the one-second interval timer. */
module Breathing {
  import opened Wrappers

  const BreatheIn := "breathe in"
  const Hold := "hold"
  const BreatheOut := "breathe out"
  const HoldOut := "hold out"

  /** The named phases in the order the exercise goes through them. */
  const Cycle: seq<string> := [BreatheIn, Hold, BreatheOut, HoldOut]

  /** Every phase lasts this many ticks. */
  const PhaseDuration: nat := 4

  /** What `runExercise` decides for the phase it starts: the phase that
      follows it and the length of its countdown. */
  datatype PhasePlan = PhasePlan(next: string, duration: nat)

  /** The if-chain of `runExercise`. Any phase other than the first three,
      "hold out" and unknown names alike, is followed by "breathe in". */
  function PlanFor(current: string): (plan: PhasePlan)
    ensures plan.next in Cycle
    ensures plan.duration == PhaseDuration
    ensures current != BreatheIn && current != Hold && current != BreatheOut ==> plan.next == BreatheIn
  {
    if current == BreatheIn then PhasePlan(Hold, 4)
    else if current == Hold then PhasePlan(BreatheOut, 4)
    else if current == BreatheOut then PhasePlan(HoldOut, 4)
    else PhasePlan(BreatheIn, 4)
  }

  /** The phase that follows `current`: always a named phase, never the
      same one. */
  function NextPhase(current: string): (next: string)
    ensures next in Cycle
    ensures next != current
  {
    PlanFor(current).next
  }

  /** Each named phase is followed by the next one of the cycle, the last by
      the first. */
  lemma NextPhaseFollowsCycle(i: nat)
    requires i < |Cycle|
    ensures NextPhase(Cycle[i]) == Cycle[(i + 1) % |Cycle|]
  {
  }

  /** Four successors lead from a named phase back to itself. */
  lemma FourPhasesReturn(p: string)
    requires p in Cycle
    ensures NextPhase(NextPhase(NextPhase(NextPhase(p)))) == p
  {
  }

  // ---------------------------------------------------------------------------
  // The exercise state and its ticks

  /** The two pieces of React state: the phase shown and its countdown. */
  datatype BreathState = BreathState(phase: string, count: int)

  /** The state the exercise starts in. */
  const Start := BreathState(BreatheIn, PhaseDuration)

  /** A state the exercise can be in: a named phase and a count of 1 to 4. */
  predicate ValidState(s: BreathState) {
    s.phase in Cycle && 1 <= s.count <= PhaseDuration
  }

  /** One tick of the interval timer: the countdown goes down by one, except
      that at 1 the next phase starts with a fresh countdown. Ticks keep the
      state valid. */
  function Step(s: BreathState): (t: BreathState)
    ensures ValidState(s) ==> ValidState(t)
    ensures t.phase != s.phase ==> s.count == 1 && t.count == PhaseDuration
  {
    if s.count == 1 then
      var plan := PlanFor(NextPhase(s.phase));
      BreathState(NextPhase(s.phase), plan.duration)
    else
      s.(count := s.count - 1)
  }

  /** The state after `n` ticks. */
  function Run(s: BreathState, n: nat): BreathState
    decreases n
  {
    if n == 0 then s else Run(Step(s), n - 1)
  }

  /** Running `a` then `b` ticks is running `a + b` ticks. */
  lemma {:induction false} RunAdditive(s: BreathState, a: nat, b: nat)
    ensures Run(s, a + b) == Run(Run(s, a), b)
    decreases a
  {
    if a > 0 {
      RunAdditive(Step(s), a - 1, b);
    }
  }

  /** Every state reached from a valid state, such as `Start`, is valid; in
      particular the count stays between 1 and 4. */
  lemma {:induction false} ReachableStatesValid(s: BreathState, n: nat)
    requires ValidState(s)
    ensures ValidState(Run(s, n))
    decreases n
  {
    if n > 0 {
      ReachableStatesValid(Step(s), n - 1);
    }
  }

  /** A phase started with a full countdown is shown for four ticks and then
      gives way to the next phase with a full countdown. */
  lemma PhaseLastsFourTicks(p: string)
    ensures Run(BreathState(p, PhaseDuration), 1) == BreathState(p, 3)
    ensures Run(BreathState(p, PhaseDuration), 2) == BreathState(p, 2)
    ensures Run(BreathState(p, PhaseDuration), 3) == BreathState(p, 1)
    ensures Run(BreathState(p, PhaseDuration), 4) == BreathState(NextPhase(p), PhaseDuration)
  {
  }

  /** After sixteen ticks a named phase with a full countdown comes back
      exactly: one whole box. */
  lemma FullBox(p: string)
    requires p in Cycle
    ensures Run(BreathState(p, PhaseDuration), 16) == BreathState(p, PhaseDuration)
  {
    var q1 := NextPhase(p);
    var q2 := NextPhase(q1);
    var q3 := NextPhase(q2);
    PhaseLastsFourTicks(p);
    PhaseLastsFourTicks(q1);
    PhaseLastsFourTicks(q2);
    PhaseLastsFourTicks(q3);
    RunAdditive(BreathState(p, PhaseDuration), 4, 12);
    RunAdditive(BreathState(q1, PhaseDuration), 4, 8);
    RunAdditive(BreathState(q2, PhaseDuration), 4, 4);
    FourPhasesReturn(p);
  }

  // ---------------------------------------------------------------------------
  // Display

  /** `phaseText`: the label shown for each named phase. */
  const PhaseText: map<string, string> := map[
    BreatheIn := "Breathe In...",
    Hold := "Hold",
    BreatheOut := "Breathe Out...",
    HoldOut := "Hold Out"
  ]

  /** `phaseText[phase]`: absent (undefined) for a phase without a label. */
  function PhaseLabel(phase: string): (text: Option<string>)
    ensures text.Some? <==> phase in Cycle
  {
    if phase in PhaseText then Some(PhaseText[phase]) else None
  }

  // ---------------------------------------------------------------------------
  // The component

  /** The running exercise: the `phase` and `count` state of the component,
      updated by the timer. */
  class BreathingExercise {
    var phase: string
    var count: int

    ghost function State(): BreathState
      reads this
    {
      BreathState(phase, count)
    }

    ghost predicate Valid()
      reads this
    {
      ValidState(State())
    }

    /** Mounting: `runExercise('breathe in')` shows "breathe in" with a full
        countdown. */
    constructor ()
      ensures State() == Start && Valid()
    {
      var plan := PlanFor(BreatheIn);
      phase := BreatheIn;
      count := plan.duration;
    }

    /** One firing of the interval timer. */
    method Tick()
      modifies this
      ensures State() == Step(old(State()))
      ensures old(Valid()) ==> Valid()
    {
      if count == 1 {
        var nextPhase := PlanFor(phase).next;
        phase := nextPhase;
        count := PlanFor(nextPhase).duration;
      } else {
        count := count - 1;
      }
    }

    /** The label rendered for the current phase. */
    function Label(): (text: string)
      reads this
      requires Valid()
      ensures PhaseLabel(phase) == Some(text)
    {
      PhaseText[phase]
    }
  }
}
