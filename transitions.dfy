/** The four moves of the arm. Each takes a world and returns either a new
    world with the move's one-letter label or nothing; none changes the
    world it is given. */
module Transitions {

  import opened Wrappers
  import opened World
  import opened Rules

  /** A successor world together with the label of the move that made it. */
  datatype Transition = Transition(world: WorldState, action: string)

  /** `v` differs from `w` at most in the arm's position. */
  predicate OnlyArmMoved(w: WorldState, v: WorldState) {
    v.stacks == w.stacks && v.holding == w.holding
    && v.objects == w.objects && v.examples == w.examples
  }

  /** `v` has the stacks of `w` except perhaps the one under the arm, and the
      same arm, objects and examples. */
  predicate OnlyArmStackChanged(w: WorldState, v: WorldState) {
    v.arm == w.arm && v.objects == w.objects && v.examples == w.examples
    && |v.stacks| == |w.stacks|
    && forall k | 0 <= k < |w.stacks| && k != w.arm :: v.stacks[k] == w.stacks[k]
  }

  /** Shift right: allowed only from the leftmost position. */
  function MoveRight(w: WorldState): (r: Option<Transition>)
    ensures r.Some? <==> w.arm == 0
    ensures r.Some? ==>
              r.value.action == "r" && r.value.world.arm == w.arm + 1 && OnlyArmMoved(w, r.value.world)
  {
    if w.arm == 0 then Some(Transition(w.(arm := w.arm + 1), "r")) else None
  }

  /** Shift left: allowed only from the rightmost position. */
  function MoveLeft(w: WorldState): (r: Option<Transition>)
    ensures r.Some? <==> w.arm == |w.stacks| - 1
    ensures r.Some? ==>
              r.value.action == "l" && r.value.world.arm == w.arm - 1 && OnlyArmMoved(w, r.value.world)
  {
    if w.arm == |w.stacks| - 1 then Some(Transition(w.(arm := w.arm - 1), "l")) else None
  }

  /** The stack after JavaScript's `pop`: an empty stack stays empty. */
  function Popped(s: seq<string>): seq<string> {
    if |s| == 0 then [] else s[..|s| - 1]
  }

  /** What `pop` returns: the top, or `undefined` on an empty stack. */
  function PoppedValue(s: seq<string>): Holding {
    if |s| == 0 then Null else Id(Top(s))
  }

  /** The outcome of a pick-up: refused while the hand holds anything
      (even the empty identifier); otherwise the stack under the arm loses
      its top, which goes into the hand. On an empty stack the world is
      unchanged, the hand stays empty, and the move still succeeds. */
  function PickupOutcome(w: WorldState): (r: Option<Transition>)
    requires w.holding.Null? ==> ArmInRange(w)
    ensures r.Some? <==> w.holding.Null?
    ensures r.Some? ==>
              r.value.action == "p" && OnlyArmStackChanged(w, r.value.world)
              && (|w.stacks[w.arm]| == 0 ==> r.value.world == w)
              && (|w.stacks[w.arm]| > 0 ==>
                    r.value.world.stacks[w.arm] + [Top(w.stacks[w.arm])] == w.stacks[w.arm]
                    && r.value.world.holding == Id(Top(w.stacks[w.arm])))
  {
    if w.holding.Null? then
      var s := w.stacks[w.arm];
      Some(Transition(w.(stacks := w.stacks[w.arm := Popped(s)], holding := PoppedValue(s)), "p"))
    else
      None
  }

  /** The outcome of a put-down: refused when the hand is empty or the
      rules forbid it; otherwise the held identifier goes on top of the stack
      under the arm and the hand is left holding the empty identifier. */
  function PutdownOutcome(w: WorldState): (r: Option<Transition>)
    requires w.holding.Id? ==> RulesDefined(w)
    ensures r.Some? <==> w.holding.Id? && PutdownRules(w)
    ensures r.Some? ==>
              r.value.action == "d" && OnlyArmStackChanged(w, r.value.world)
              && r.value.world.stacks[w.arm] == w.stacks[w.arm] + [w.holding.name]
              && r.value.world.holding == Id("")
  {
    if w.holding.Id? && PutdownRules(w) then
      var s := w.stacks[w.arm];
      Some(Transition(w.(stacks := w.stacks[w.arm := s + [w.holding.name]], holding := Id("")), "d"))
    else
      None
  }

  /** A fresh array holding a copy of every stack. */
  method CloneStacks(stacks: seq<seq<string>>) returns (arr: array<seq<string>>)
    ensures fresh(arr) && arr[..] == stacks
  {
    arr := new seq<string>[|stacks|];
    for i := 0 to |stacks|
      invariant forall k | 0 <= k < i :: arr[k] == stacks[k]
    {
      arr[i] := stacks[i];
    }
  }

  /** Pick-up: copies the stacks, then pops the copy under the arm. */
  method Pickup(w: WorldState) returns (r: Option<Transition>)
    requires w.holding.Null? ==> ArmInRange(w)
    ensures r == PickupOutcome(w)
  {
    if w.holding.Null? {
      var arr := CloneStacks(w.stacks);
      var s := arr[w.arm];
      var hold := if |s| == 0 then Null else Id(s[|s| - 1]);
      if |s| > 0 {
        arr[w.arm] := s[..|s| - 1];
      }
      return Some(Transition(w.(stacks := arr[..], holding := hold), "p"));
    }
    return None;
  }

  /** Put-down: checks the rules, copies the stacks, then pushes the held
      identifier onto the copy under the arm. */
  method Putdown(w: WorldState) returns (r: Option<Transition>)
    requires w.holding.Id? ==> RulesDefined(w)
    ensures r == PutdownOutcome(w)
  {
    if w.holding.Id? {
      if PutdownRules(w) {
        var arr := CloneStacks(w.stacks);
        arr[w.arm] := arr[w.arm] + [w.holding.name];
        return Some(Transition(w.(stacks := arr[..], holding := Id("")), "d"));
      }
      return None;
    }
    return None;
  }

  /** A shift right is undone by a shift left exactly when there are two
      stacks; with more, the left shift is refused from the new position. */
  lemma ShiftRightThenLeft(w: WorldState)
    requires MoveRight(w).Some?
    ensures MoveLeft(MoveRight(w).value.world).Some? <==> |w.stacks| == 2
    ensures MoveLeft(MoveRight(w).value.world).Some? ==>
              MoveLeft(MoveRight(w).value.world).value.world == w
  {
  }

  /** A shift left is undone by a shift right exactly when it lands on the
      leftmost position. */
  lemma ShiftLeftThenRight(w: WorldState)
    requires MoveLeft(w).Some?
    ensures MoveRight(MoveLeft(w).value.world).Some? <==> w.arm == 1
    ensures MoveRight(MoveLeft(w).value.world).Some? ==>
              MoveRight(MoveLeft(w).value.world).value.world == w
  {
  }

  /** From a position strictly between the two ends the arm cannot shift. */
  lemma ShiftsRefusedInMiddle(w: WorldState)
    requires 0 < w.arm < |w.stacks| - 1
    ensures MoveRight(w).None? && MoveLeft(w).None?
  {
  }

  /** With a single stack each shift takes the arm off the row. */
  lemma SingleStackShiftsLeaveRow(w: WorldState)
    requires |w.stacks| == 1 && w.arm == 0
    ensures MoveRight(w).Some? && !ArmInRange(MoveRight(w).value.world)
    ensures MoveLeft(w).Some? && !ArmInRange(MoveLeft(w).value.world)
  {
  }

  /** With two or more stacks a shift keeps the arm over the row. */
  lemma ShiftsKeepArmInRange(w: WorldState)
    requires ArmInRange(w) && |w.stacks| >= 2
    ensures MoveRight(w).Some? ==> ArmInRange(MoveRight(w).value.world)
    ensures MoveLeft(w).Some? ==> ArmInRange(MoveLeft(w).value.world)
  {
  }

  /** Picking up the top of a well-stacked, non-empty stack and putting it
      straight back is allowed and restores every stack; the hand is then
      left with the empty identifier rather than empty. */
  lemma {:induction false} PickupThenPutdown(w: WorldState)
    requires w.holding.Null? && ArmInRange(w) && |w.stacks[w.arm]| > 0
    requires WellStacked(w)
    ensures RulesDefined(PickupOutcome(w).value.world)
    ensures PutdownOutcome(PickupOutcome(w).value.world)
            == Some(Transition(w.(holding := Id("")), "d"))
  {
    var s := w.stacks[w.arm];
    var v := PickupOutcome(w).value.world;
    var n := |s| - 1;
    assert v.stacks[w.arm] == s[..n];
    assert v.holding == Id(s[n]);
    if n > 0 {
      assert WellStackedColumn(w.objects, s);
      assert RestsAt(w.objects, s, n);
    }
    assert PutdownRules(v);
    assert s[..n] + [s[n]] == s;
    assert v.stacks[w.arm := s] == w.stacks;
  }

  /** A pick-up keeps the inventory of the world:
      the top moves from the stack into the hand. */
  lemma {:induction false} PickupConserves(w: WorldState)
    requires w.holding.Null? && ArmInRange(w)
    ensures Inventory(PickupOutcome(w).value.world) == Inventory(w)
  {
    var s := w.stacks[w.arm];
    var v := PickupOutcome(w).value.world;
    FlattenUpdate(w.stacks, w.arm, Popped(s));
    var before, after := multiset(Flatten(w.stacks)), multiset(Flatten(v.stacks));
    assert after + multiset(s) == before + multiset(Popped(s));
    if |s| > 0 {
      assert s == Popped(s) + [Top(s)];
      forall e
        ensures Inventory(v)[e] == Inventory(w)[e]
      {
        assert (after + multiset(s))[e] == (before + multiset(Popped(s)))[e];
      }
    }
  }

  /** A put-down moves the held identifier onto the stack and leaves the
      empty identifier in the hand, so it adds one `""` to the world. */
  lemma {:induction false} PutdownAddsEmptyIdentifier(w: WorldState)
    requires w.holding.Id? && RulesDefined(w) && PutdownRules(w)
    ensures Inventory(PutdownOutcome(w).value.world) == Inventory(w) + multiset{""}
  {
    var s := w.stacks[w.arm];
    var v := PutdownOutcome(w).value.world;
    FlattenUpdate(w.stacks, w.arm, s + [w.holding.name]);
    var before, after := multiset(Flatten(w.stacks)), multiset(Flatten(v.stacks));
    assert after + multiset(s) == before + multiset(s + [w.holding.name]);
    assert multiset(s + [w.holding.name]) == multiset(s) + multiset{w.holding.name};
    forall e
      ensures Inventory(v)[e] == (Inventory(w) + multiset{""})[e]
    {
      assert (after + multiset(s))[e] == (before + multiset(s + [w.holding.name]))[e];
    }
  }

  /** A pick-up keeps the world well stacked: it only removes a top. */
  lemma {:induction false} PickupKeepsWellStacked(w: WorldState)
    requires w.holding.Null? && ArmInRange(w) && WellStacked(w)
    ensures WellStacked(PickupOutcome(w).value.world)
  {
    var v := PickupOutcome(w).value.world;
    forall i | 0 <= i < |v.stacks|
      ensures WellStackedColumn(v.objects, v.stacks[i])
    {
      assert WellStackedColumn(w.objects, w.stacks[i]);
      if i == w.arm {
        var s := w.stacks[i];
        forall j | 0 < j < |v.stacks[i]|
          ensures RestsAt(v.objects, v.stacks[i], j)
        {
          assert RestsAt(w.objects, s, j);
        }
      }
    }
  }

  /** A put-down keeps the world well stacked: the rules admit the new top. */
  lemma {:induction false} PutdownKeepsWellStacked(w: WorldState)
    requires w.holding.Id? && RulesDefined(w) && PutdownRules(w) && WellStacked(w)
    ensures WellStacked(PutdownOutcome(w).value.world)
  {
    var v := PutdownOutcome(w).value.world;
    forall i | 0 <= i < |v.stacks|
      ensures WellStackedColumn(v.objects, v.stacks[i])
    {
      assert WellStackedColumn(w.objects, w.stacks[i]);
      if i == w.arm {
        var s := w.stacks[i];
        forall j | 0 < j < |v.stacks[i]|
          ensures RestsAt(v.objects, v.stacks[i], j)
        {
          if j < |s| {
            assert RestsAt(w.objects, s, j);
          }
        }
      }
    }
  }

  /** Once the hand holds anything, a put-down leaves it holding the empty
      identifier, after which a pick-up is always refused. */
  lemma PutdownBlocksPickup(w: WorldState)
    requires w.holding.Id? && RulesDefined(w) && PutdownRules(w)
    ensures PutdownOutcome(w).value.world.holding == Id("")
    ensures PickupOutcome(PutdownOutcome(w).value.world).None?
  {
  }

  /** Two stacks, a large box on the left one and the arm over it: pick-up,
      shift right and put-down move the box to the right stack, with the
      actions "p", "r", "d", and leave the empty identifier in the hand. */
  lemma PickShiftDropScenario()
    ensures var w := WorldState([["b"], []], Null, 0, map["b" := ObjectDefinition(Box, Large, "red")], []);
            var p := PickupOutcome(w);
            p.Some? && p.value.world.stacks == [[], []] && p.value.world.holding == Id("b")
            && var r := MoveRight(p.value.world);
               r.Some? && r.value.world.arm == 1
               && var d := PutdownOutcome(r.value.world);
                  d.Some? && d.value.world.stacks == [[], ["b"]] && d.value.world.holding == Id("")
                  && [p.value.action, r.value.action, d.value.action] == ["p", "r", "d"]
  {
  }
}
