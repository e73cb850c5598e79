/** The planning loop: one plan per interpretation of the utterance. The
    plan ignores the interpretation: it walks the arm to a chosen non-empty
    stack, picks up its top, visits the rightmost stack, comes back and puts
    the object down again. */
module Planner {

  import opened Wrappers
  import opened World
  import opened Transitions
  import opened Successors

  /** One relational constraint between objects, as the interpreter gives it. */
  datatype Literal = Literal(rel: string, args: seq<string>)

  /** One reading of the utterance: a disjunction of conjunctions of literals. */
  datatype Interpretation = Interpretation(intp: seq<seq<Literal>>)

  /** An interpretation together with the plan made for it. */
  datatype PlanResult = PlanResult(interpretation: Interpretation, plan: seq<string>)

  /** The error the planner throws; its name is always "Planner.Error". */
  datatype PlannerError = PlannerError(message: string)

  /** `k` copies of the action `a`. */
  function Repeat(a: string, k: nat): (r: seq<string>)
    ensures |r| == k && forall i | 0 <= i < k :: r[i] == a
  {
    if k == 0 then [] else Repeat(a, k - 1) + [a]
  }

  /** The stacks the planner may choose: the non-empty ones, whose top
      object has a definition (the plan's narration reads its form). */
  predicate ValidPick(state: WorldState, pickstack: int) {
    0 <= pickstack < |state.stacks| && |state.stacks[pickstack]| > 0
    && Top(state.stacks[pickstack]) in state.objects
  }

  /** Shifts from `arm` to `pickstack`. */
  function Approach(arm: int, pickstack: int): seq<string> {
    if pickstack < arm then Repeat("l", arm - pickstack)
    else if pickstack > arm then Repeat("r", pickstack - arm)
    else []
  }

  /** Shifts from `pickstack` to the rightmost of `count` stacks and back. */
  function Excursion(count: int, pickstack: int): seq<string> {
    if pickstack < count - 1 then Repeat("r", count - 1 - pickstack) + Repeat("l", count - 1 - pickstack)
    else []
  }

  /** The plan made for any interpretation when the chosen stack is `pickstack`. */
  function DummyPlan(state: WorldState, pickstack: int): seq<string> {
    Approach(state.arm, pickstack) + ["p"] + Excursion(|state.stacks|, pickstack) + ["d"]
  }

  /** The arm's position after one action: "r" and "l" shift it, the other
      actions leave it. */
  function Shift(arm: int, a: string): int {
    if a == "r" then arm + 1 else if a == "l" then arm - 1 else arm
  }

  /** The arm's position after the actions of `plan`, starting from `arm`. */
  function ArmAfter(arm: int, plan: seq<string>): int
    decreases |plan|
  {
    if |plan| == 0 then arm else ArmAfter(Shift(arm, plan[0]), plan[1..])
  }

  lemma {:induction false} ArmAfterAppend(arm: int, a: seq<string>, b: seq<string>)
    ensures ArmAfter(arm, a + b) == ArmAfter(ArmAfter(arm, a), b)
    decreases |a|
  {
    if |a| > 0 {
      assert (a + b)[1..] == a[1..] + b;
      ArmAfterAppend(Shift(arm, a[0]), a[1..], b);
    } else {
      assert a + b == b;
    }
  }

  /** `k` right shifts move the arm `k` places right, `k` left shifts `k`
      places left. */
  lemma {:induction false} ArmAfterRepeat(arm: int, a: string, k: nat)
    requires a == "r" || a == "l"
    ensures ArmAfter(arm, Repeat(a, k)) == if a == "r" then arm + k else arm - k
  {
    if k > 0 {
      ArmAfterRepeat(arm, a, k - 1);
      ArmAfterAppend(arm, Repeat(a, k - 1), [a]);
      assert ArmAfter(Shift(ArmAfter(arm, Repeat(a, k - 1)), a), []) == Shift(ArmAfter(arm, Repeat(a, k - 1)), a);
    }
  }

  /** The arm after a prefix of `a + b`. */
  lemma ArmAfterPrefix(arm: int, a: seq<string>, b: seq<string>, k: int)
    requires |a| <= k <= |a| + |b|
    ensures ArmAfter(arm, (a + b)[..k]) == ArmAfter(ArmAfter(arm, a), b[..k - |a|])
  {
    assert (a + b)[..k] == a + b[..k - |a|];
    ArmAfterAppend(arm, a, b[..k - |a|]);
  }

  /** Along the approach the arm moves monotonically from `arm` to `pickstack`. */
  lemma {:induction false} ApproachStaysBetween(arm: int, pickstack: int, k: int)
    requires 0 <= k <= |Approach(arm, pickstack)|
    ensures var at := ArmAfter(arm, Approach(arm, pickstack)[..k]);
            (arm <= at <= pickstack) || (pickstack <= at <= arm)
    ensures k == |Approach(arm, pickstack)| ==> ArmAfter(arm, Approach(arm, pickstack)[..k]) == pickstack
  {
    var ap := Approach(arm, pickstack);
    if pickstack < arm {
      assert ap[..k] == Repeat("l", k);
      ArmAfterRepeat(arm, "l", k);
    } else if pickstack > arm {
      assert ap[..k] == Repeat("r", k);
      ArmAfterRepeat(arm, "r", k);
    } else {
      assert ap[..k] == [];
    }
  }

  /** Along the excursion the arm stays between `pickstack` and the
      rightmost stack and ends at `pickstack`. */
  lemma {:induction false} ExcursionStaysBetween(count: int, pickstack: int, k: int)
    requires 0 <= pickstack < count
    requires 0 <= k <= |Excursion(count, pickstack)|
    ensures pickstack <= ArmAfter(pickstack, Excursion(count, pickstack)[..k]) < count
    ensures k == |Excursion(count, pickstack)| ==>
              ArmAfter(pickstack, Excursion(count, pickstack)[..k]) == pickstack
  {
    var m := count - 1 - pickstack;
    if pickstack < count - 1 {
      var ex := Excursion(count, pickstack);
      if k <= m {
        assert ex[..k] == Repeat("r", k);
        ArmAfterRepeat(pickstack, "r", k);
      } else {
        ArmAfterPrefix(pickstack, Repeat("r", m), Repeat("l", m), k);
        ArmAfterRepeat(pickstack, "r", m);
        assert Repeat("l", m)[..k - m] == Repeat("l", k - m);
        ArmAfterRepeat(count - 1, "l", k - m);
      }
    } else {
      assert Excursion(count, pickstack)[..k] == [];
    }
  }

  /** The plan holds exactly one pick-up and one put-down, and ends with
      the put-down. */
  lemma {:induction false} DummyPlanActions(state: WorldState, pickstack: int)
    requires ValidPick(state, pickstack)
    ensures var plan := DummyPlan(state, pickstack);
            multiset(plan)["p"] == 1 && multiset(plan)["d"] == 1 && plan[|plan| - 1] == "d"
  {
    var ap, ex := Approach(state.arm, pickstack), Excursion(|state.stacks|, pickstack);
    assert OnlyShifts(ap) && OnlyShifts(ex);
    NoPickOrDropIn(ap);
    NoPickOrDropIn(ex);
    var plan := DummyPlan(state, pickstack);
    assert plan == ap + ["p"] + ex + ["d"];
    assert multiset(plan) == multiset(ap) + multiset{"p"} + multiset(ex) + multiset{"d"};
  }

  /** Every action of `s` is a shift. */
  predicate OnlyShifts(s: seq<string>) {
    forall i | 0 <= i < |s| :: s[i] == "l" || s[i] == "r"
  }

  lemma NoPickOrDropIn(s: seq<string>)
    requires OnlyShifts(s)
    ensures multiset(s)["p"] == 0 && multiset(s)["d"] == 0
  {
  }

  /** Replayed on the arm's position, the plan reaches `pickstack` for the
      pick-up and is back over `pickstack` for the put-down. */
  lemma {:induction false} DummyPlanPicksAndDropsAtPickstack(state: WorldState, pickstack: int)
    requires ValidPick(state, pickstack)
    ensures var plan := DummyPlan(state, pickstack);
            (forall k | 0 <= k < |plan| && plan[k] == "p" :: ArmAfter(state.arm, plan[..k]) == pickstack)
            && ArmAfter(state.arm, plan[..|plan| - 1]) == pickstack
  {
    var arm, n := state.arm, |state.stacks|;
    var ap, ex := Approach(arm, pickstack), Excursion(n, pickstack);
    var plan := DummyPlan(state, pickstack);
    ApproachStaysBetween(arm, pickstack, |ap|);
    assert ap[..|ap|] == ap;
    assert ArmAfter(pickstack, ["p"]) == pickstack;
    ArmAfterAppend(arm, ap, ["p"]);
    forall k | 0 <= k < |plan| && plan[k] == "p"
      ensures ArmAfter(arm, plan[..k]) == pickstack
    {
      assert forall i | 0 <= i < |ap| :: ap[i] == "l" || ap[i] == "r";
      assert forall i | 0 <= i < |ex| :: ex[i] == "l" || ex[i] == "r";
      assert k == |ap|;
      assert plan[..k] == ap;
    }
    ExcursionStaysBetween(n, pickstack, |ex|);
    assert ex[..|ex|] == ex;
    assert plan[..|plan| - 1] == (ap + ["p"]) + ex;
    ArmAfterAppend(arm, ap + ["p"], ex);
  }

  /** Replayed from a position over the row, the plan never takes the arm
      off the row. */
  lemma {:induction false} DummyPlanStaysOnRow(state: WorldState, pickstack: int)
    requires ValidPick(state, pickstack) && ArmInRange(state)
    ensures var plan := DummyPlan(state, pickstack);
            forall k | 0 <= k <= |plan| :: 0 <= ArmAfter(state.arm, plan[..k]) < |state.stacks|
  {
    var arm, n := state.arm, |state.stacks|;
    var ap, ex := Approach(arm, pickstack), Excursion(n, pickstack);
    var plan := DummyPlan(state, pickstack);
    forall k | 0 <= k <= |plan|
      ensures 0 <= ArmAfter(arm, plan[..k]) < n
    {
      if k <= |ap| {
        ApproachStaysBetween(arm, pickstack, k);
        assert plan[..k] == ap[..k];
      } else if k <= |ap| + 1 + |ex| {
        ApproachStaysBetween(arm, pickstack, |ap|);
        assert ap[..|ap|] == ap;
        ArmAfterAppend(arm, ap, ["p"]);
        assert ArmAfter(pickstack, ["p"]) == pickstack;
        ArmAfterPrefix(arm, ap + ["p"], ex + ["d"], k);
        assert plan == (ap + ["p"]) + (ex + ["d"]);
        assert (ex + ["d"])[..k - |ap| - 1] == ex[..k - |ap| - 1];
        ExcursionStaysBetween(n, pickstack, k - |ap| - 1);
      } else {
        DummyPlanPicksAndDropsAtPickstack(state, pickstack);
        assert plan[..k] == plan[..|plan| - 1] + ["d"];
        ArmAfterAppend(arm, plan[..|plan| - 1], ["d"]);
        assert ArmAfter(pickstack, ["d"]) == pickstack;
      }
    }
  }

  /** Builds the plan for one interpretation, with the random choice of a
      non-empty stack given as `pickstack`. */
  method PlanInterpretation(intprt: seq<seq<Literal>>, state: WorldState, pickstack: int)
    returns (plan: seq<string>)
    requires Expandable(state) && ValidPick(state, pickstack)
    ensures plan == DummyPlan(state, pickstack)
  {
    // the source logs the successors of the current state
    var successors := WorldIteration(state);
    plan := [];

    // First move the arm to the chosen stack
    if pickstack < state.arm {
      var i := state.arm;
      while i > pickstack
        invariant pickstack <= i <= state.arm
        invariant plan == Repeat("l", state.arm - i)
      {
        assert Repeat("l", state.arm - i) + ["l"] == Repeat("l", state.arm - i + 1);
        plan := plan + ["l"];
        i := i - 1;
      }
    } else if pickstack > state.arm {
      var i := state.arm;
      while i < pickstack
        invariant state.arm <= i <= pickstack
        invariant plan == Repeat("r", i - state.arm)
      {
        assert Repeat("r", i - state.arm) + ["r"] == Repeat("r", i + 1 - state.arm);
        plan := plan + ["r"];
        i := i + 1;
      }
    }
    assert plan == Approach(state.arm, pickstack);

    // Then pick up the object
    plan := plan + ["p"];
    ghost var picked := plan;
    assert picked == Approach(state.arm, pickstack) + ["p"];

    var last := |state.stacks| - 1;
    if pickstack < last {
      // Then move to the rightmost stack
      var i := pickstack;
      while i < last
        invariant pickstack <= i <= last
        invariant plan == picked + Repeat("r", i - pickstack)
      {
        assert picked + Repeat("r", i - pickstack) + ["r"] == picked + Repeat("r", i + 1 - pickstack);
        plan := plan + ["r"];
        i := i + 1;
      }
      ghost var right := plan;

      // Then move back
      i := last;
      while i > pickstack
        invariant pickstack <= i <= last
        invariant plan == right + Repeat("l", last - i)
      {
        assert right + Repeat("l", last - i) + ["l"] == right + Repeat("l", last - i + 1);
        plan := plan + ["l"];
        i := i - 1;
      }
      assert plan == picked + Excursion(|state.stacks|, pickstack);
    }
    assert plan == picked + Excursion(|state.stacks|, pickstack);
    assert plan + ["d"] == DummyPlan(state, pickstack);

    // Finally put it down again
    plan := plan + ["d"];
  }

  /** Plans every interpretation in order, with `pickstacks[i]` the stack
      chosen for the `i`-th; fails when there is nothing to plan. */
  method Plan(interpretations: seq<Interpretation>, currentState: WorldState, pickstacks: seq<int>)
    returns (r: Result<seq<PlanResult>, PlannerError>)
    requires |pickstacks| == |interpretations|
    requires |interpretations| > 0 ==> Expandable(currentState)
    requires forall i | 0 <= i < |pickstacks| :: ValidPick(currentState, pickstacks[i])
    ensures r.Failure? <==> |interpretations| == 0
    ensures r.Failure? ==> r.error == PlannerError("Found no plans")
    ensures r.Success? ==>
              |r.value| == |interpretations|
              && forall i | 0 <= i < |interpretations| ::
                   r.value[i] == PlanResult(interpretations[i], DummyPlan(currentState, pickstacks[i]))
  {
    var plans: seq<PlanResult> := [];
    for i := 0 to |interpretations|
      invariant |plans| == i
      invariant forall k | 0 <= k < i ::
                  plans[k] == PlanResult(interpretations[k], DummyPlan(currentState, pickstacks[k]))
    {
      var plan := PlanInterpretation(interpretations[i].intp, currentState, pickstacks[i]);
      plans := plans + [PlanResult(interpretations[i], plan)];
    }
    if |plans| > 0 {
      r := Success(plans);
    } else {
      r := Failure(PlannerError("Found no plans"));
    }
  }
}
