/** Successor enumeration: the four moves tried in the order right, left,
    pick-up, put-down, keeping those that succeed. */
module Successors {

  import opened Wrappers
  import opened World
  import opened Rules
  import opened Transitions

  /** The value of an option as a sequence of length at most one. */
  function Present<T>(o: Option<T>): seq<T> {
    if o.Some? then [o.value] else []
  }

  /** The values of the options that are present, in their order. */
  function Kept<T>(xs: seq<Option<T>>): seq<T> {
    if |xs| == 0 then [] else Kept(xs[..|xs| - 1]) + Present(xs[|xs| - 1])
  }

  /** How many options are present. */
  function CountPresent<T>(xs: seq<Option<T>>): nat {
    if |xs| == 0 then 0 else CountPresent(xs[1..]) + (if xs[0].Some? then 1 else 0)
  }

  /** The lookups that trying all four moves makes succeed: the arm stands
      over a stack, and a put-down that reaches the rules finds both
      definitions it reads. */
  predicate Expandable(w: WorldState) {
    ArmInRange(w)
    && (w.holding.Id? && |w.stacks[w.arm]| > 0 ==>
          Top(w.stacks[w.arm]) in w.objects && w.holding.name in w.objects)
  }

  /** The four attempted moves, in the order they are tried. */
  function Attempts(w: WorldState): seq<Option<Transition>>
    requires Expandable(w)
  {
    [MoveRight(w), MoveLeft(w), PickupOutcome(w), PutdownOutcome(w)]
  }

  /** The moves of `w` that succeed. */
  function Successors(w: WorldState): seq<Transition>
    requires Expandable(w)
  {
    Kept(Attempts(w))
  }

  /** Tries the four moves and collects those that succeed. */
  method WorldIteration(w: WorldState) returns (res: seq<Transition>)
    requires Expandable(w)
    ensures res == Successors(w)
  {
    res := [];
    var p := Pickup(w);
    var d := Putdown(w);
    var test := [MoveRight(w), MoveLeft(w), p, d];
    for v := 0 to |test|
      invariant res == Kept(test[..v])
    {
      assert test[..v + 1][..v] == test[..v];
      if test[v].Some? {
        res := res + [test[v].value];
      }
    }
    assert test[..|test|] == test;
  }

  /** Keeping distributes over concatenation. */
  lemma {:induction false} KeptAppend<T>(xs: seq<Option<T>>, ys: seq<Option<T>>)
    ensures Kept(xs + ys) == Kept(xs) + Kept(ys)
  {
    if |ys| > 0 {
      var n := |ys| - 1;
      assert (xs + ys)[..|xs + ys| - 1] == xs + ys[..n];
      KeptAppend(xs, ys[..n]);
    } else {
      assert xs + ys == xs;
    }
  }

  /** As many values are kept as options are present, so never more than
      there were options. */
  lemma {:induction false} KeptCount<T>(xs: seq<Option<T>>)
    ensures |Kept(xs)| == CountPresent(xs) <= |xs|
  {
    if |xs| > 0 {
      KeptAppend([xs[0]], xs[1..]);
      assert [xs[0]] + xs[1..] == xs;
      assert [xs[0]][..0] == [];
      KeptCount(xs[1..]);
    }
  }

  /** A value is kept exactly when it is present in some option. */
  lemma {:induction false} KeptMembers<T>(xs: seq<Option<T>>, t: T)
    ensures t in Kept(xs) <==> Some(t) in xs
  {
    if |xs| > 0 {
      var n := |xs| - 1;
      KeptMembers(xs[..n], t);
      assert xs == xs[..n] + [xs[n]];
    }
  }

  /** The successors are the successful moves among right, left, pick-up
      and put-down, in that order. */
  lemma {:induction false} SuccessorsInOrder(w: WorldState)
    requires Expandable(w)
    ensures Successors(w)
            == Present(MoveRight(w)) + Present(MoveLeft(w))
               + Present(PickupOutcome(w)) + Present(PutdownOutcome(w))
  {
    var a := Attempts(w);
    assert a == [a[0]] + [a[1]] + [a[2]] + [a[3]];
    KeptAppend([a[0]] + [a[1]] + [a[2]], [a[3]]);
    KeptAppend([a[0]] + [a[1]], [a[2]]);
    KeptAppend([a[0]], [a[1]]);
    assert forall o: Option<Transition> :: Kept([o]) == Present(o) by {
      forall o: Option<Transition> ensures Kept([o]) == Present(o) {
        assert [o][..0] == [];
      }
    }
  }

  /** There are at most four successors, one per move that succeeds, and a
      move succeeds exactly when its result is among them. */
  lemma {:induction false} SuccessorsAreTheSuccessfulMoves(w: WorldState)
    requires Expandable(w)
    ensures |Successors(w)| == CountPresent(Attempts(w)) <= 4
    ensures forall t :: t in Successors(w) <==> Some(t) in Attempts(w)
  {
    KeptCount(Attempts(w));
    forall t ensures t in Successors(w) <==> Some(t) in Attempts(w) {
      KeptMembers(Attempts(w), t);
    }
  }

  /** Every successor keeps the objects, the examples and the number of
      stacks, and a well-stacked world has only well-stacked successors. */
  lemma {:induction false} SuccessorsKeepPhysics(w: WorldState)
    requires Expandable(w)
    ensures forall t | t in Successors(w) ::
              t.world.objects == w.objects && t.world.examples == w.examples
              && |t.world.stacks| == |w.stacks|
    ensures WellStacked(w) ==> forall t | t in Successors(w) :: WellStacked(t.world)
  {
    SuccessorsAreTheSuccessfulMoves(w);
    if WellStacked(w) {
      if w.holding.Null? {
        PickupKeepsWellStacked(w);
      } else if PutdownRules(w) {
        PutdownKeepsWellStacked(w);
      }
    }
  }

  /** With two or more stacks, every successor keeps the arm over the row. */
  lemma {:induction false} SuccessorsKeepArmInRange(w: WorldState)
    requires Expandable(w) && |w.stacks| >= 2
    ensures forall t | t in Successors(w) :: ArmInRange(t.world)
  {
    SuccessorsAreTheSuccessfulMoves(w);
    ShiftsKeepArmInRange(w);
  }

  /** Once the hand holds anything, every successor's hand holds something
      too, and no successor is a pick-up. */
  lemma {:induction false} HandNeverEmptiesAgain(w: WorldState)
    requires Expandable(w) && w.holding.Id?
    ensures forall t | t in Successors(w) :: t.world.holding.Id? && t.action != "p"
  {
    SuccessorsAreTheSuccessfulMoves(w);
  }
}
