/** The world snapshot the planner works on: a row of stacks (each listed
    bottom to top), the arm's position, what the arm holds and the
    definitions of the objects. */
module World {

  datatype Form = Brick | Plank | Ball | Pyramid | Box | Table

  datatype Size = Small | Large

  datatype ObjectDefinition = ObjectDefinition(form: Form, size: Size, color: string)

  /** What the arm holds. `Null` stands for JavaScript's `null` and
      `undefined` alike (the source compares with `==`); `Id("")` is the
      empty identifier that a put-down leaves in the hand. */
  datatype Holding = Null | Id(name: string)

  datatype WorldState = WorldState(
    stacks: seq<seq<string>>,
    holding: Holding,
    arm: int,
    objects: map<string, ObjectDefinition>,
    examples: seq<string>)

  /** The arm stands over one of the stacks. */
  predicate ArmInRange(w: WorldState) {
    0 <= w.arm < |w.stacks|
  }

  /** The last (topmost) element of a non-empty stack. */
  function Top(s: seq<string>): string
    requires |s| > 0
  {
    s[|s| - 1]
  }

  /** Every stacked identifier, stack by stack, bottom to top. */
  function Flatten(stacks: seq<seq<string>>): seq<string> {
    if |stacks| == 0 then [] else Flatten(stacks[..|stacks| - 1]) + stacks[|stacks| - 1]
  }

  /** Every identifier the world places somewhere: in a stack or in the hand. */
  function Inventory(w: WorldState): multiset<string> {
    multiset(Flatten(w.stacks)) + (if w.holding.Id? then multiset{w.holding.name} else multiset{})
  }

  /** Replacing one stack replaces its identifiers in the flattened row and
      leaves every other identifier where it was. */
  lemma {:induction false} FlattenUpdate(stacks: seq<seq<string>>, i: int, s: seq<string>)
    requires 0 <= i < |stacks|
    ensures multiset(Flatten(stacks[i := s])) + multiset(stacks[i])
         == multiset(Flatten(stacks)) + multiset(s)
  {
    var n := |stacks| - 1;
    var t := stacks[i := s];
    assert Flatten(stacks) == Flatten(stacks[..n]) + stacks[n];
    if i == n {
      assert t[..n] == stacks[..n];
      assert Flatten(t) == Flatten(stacks[..n]) + s;
    } else {
      assert t[..n] == stacks[..n][i := s];
      assert Flatten(t) == Flatten(stacks[..n][i := s]) + stacks[n];
      FlattenUpdate(stacks[..n], i, s);
      assert stacks[..n][i] == stacks[i];
      calc {
        multiset(Flatten(t)) + multiset(stacks[i]);
        multiset(Flatten(stacks[..n][i := s])) + multiset(stacks[n]) + multiset(stacks[i]);
        (multiset(Flatten(stacks[..n][i := s])) + multiset(stacks[i])) + multiset(stacks[n]);
        (multiset(Flatten(stacks[..n])) + multiset(s)) + multiset(stacks[n]);
        (multiset(Flatten(stacks[..n])) + multiset(stacks[n])) + multiset(s);
        multiset(Flatten(stacks)) + multiset(s);
      }
    }
  }
}
