# Blocks-world planner: transition engine and planning loop

This project models the planner of a Shrdlite blocks world. A world is a
row of stacks of object identifiers (each stack bottom to top), the arm's
position, what the arm holds, and a definition (form, size, colour) for
each identifier. The planner knows four moves. Shift right (`"r"`) and
shift left (`"l"`) change only the arm's position. Pick-up (`"p"`) takes
the top of the stack under the arm into the hand. Put-down (`"d"`) puts the
held object on that stack, if the stacking rules allow it. Each move either
returns a new world with its label or returns nothing. The old world is
never changed. The successor enumeration tries the four moves in the order
r, l, p, d and keeps those that succeed. The planning loop makes one plan per
interpretation and throws when there are none. Each plan walks the arm to a
chosen non-empty stack, picks up its top object, goes to the rightmost stack
and back, and puts the object down again.

Modules, one per component: `Wrappers` (option and result values),
`World` (the world snapshot), `Rules` (the put-down rules, plus the stacking
physics stated rule by rule), `Transitions` (the four moves), `Successors`
(the successor enumeration) and `Planner` (the planning loop).

The model follows the code as written, including these behaviours:

- Shift right is allowed only when the arm is at position 0, and shift left
  only when it is at the last position. So the arm can never shift from a
  middle position. With a single stack, both shifts take the arm off the
  row. With two or more stacks, the arm stays over the row.
- Pick-up never checks for an empty stack. On an empty stack, JavaScript's
  `pop` yields `undefined`, so the move succeeds with the world unchanged,
  an empty hand and the label `"p"`.
- Put-down leaves the empty identifier `""` in the hand, not `null`
  (`Holding.Id("")`). After that, pick-up is refused for good, put-down is
  tried again, and every put-down adds one `""` to the world.
- `Pickup` and `Putdown` copy every stack into a fresh array and then pop or
  push on the copy under the arm. The world they are given stays as it was.
- The lookups that would throw a `TypeError` in the source are preconditions:
  a stack under the arm, and definitions for the top object and the held
  object when the rules read them. The planning loop also needs these,
  because it computes the successors of the current state for its log. It
  also needs a definition for the top object of the chosen stack, because its
  narration reads that object's form.

The model keeps these behaviours even where the blocks-world rules and the
code's own comments suggest something else. A row of stacks suggests that
the arm may shift right from any position but the last and left from any
position but the first. An empty hand after a put-down, and a pick-up that
is refused on an empty stack, would match the physical world. The comment
on the planning function calls its plan a dummy. The plan does no search
toward the interpretation's goal, and the planner fails only when it is
given no interpretations.

## Model

| member | source | states |
|---|---|---|
| `Rules.PutdownRules` | Planner.ts:96-147 | always true on an empty stack; otherwise true exactly when none of the six stacking rules forbids the held object on the top object (a ball only in a box; nothing on a ball; nothing large on something small; no same-size box, pyramid or plank in a box; no small box on a small brick or pyramid; no large box on a large pyramid) |
| `Rules.LegalityExamples` | Planner.ts:106-143 | concrete entries: a small ball on a small pyramid is refused, in a small box allowed; a large box on a large pyramid or in a large box is refused; a small box in a large box is allowed |
| `Transitions.MoveRight` | Planner.ts:45-52 | succeeds exactly when the arm is at 0; then the arm is one further right, the label is "r", and stacks, hand, objects and examples are unchanged |
| `Transitions.MoveLeft` | Planner.ts:53-60 | succeeds exactly when the arm is at the last position; then the arm is one further left, the label is "l", and everything else is unchanged |
| `Transitions.PickupOutcome` | Planner.ts:61-75 | refused exactly when the hand is not null; otherwise label "p", every stack but the one under the arm unchanged, that stack loses its top into the hand, and an empty stack gives back the same world |
| `Transitions.PutdownOutcome` | Planner.ts:76-94 | succeeds exactly when the hand holds an identifier and the rules allow it; then label "d", every other stack and the arm unchanged, the held identifier pushed on the stack under the arm, and the hand holding "" |
| `Transitions.Pickup` | Planner.ts:61-75 | copying the stacks and popping the copy gives exactly the pick-up outcome |
| `Transitions.Putdown` | Planner.ts:76-94 | checking the rules, copying the stacks and pushing on the copy gives exactly the put-down outcome |
| `Transitions.ShiftRightThenLeft` | Planner.ts:45-60 | after a right shift, a left shift is possible exactly when there are two stacks, and then it restores the original world |
| `Transitions.ShiftLeftThenRight` | Planner.ts:45-60 | after a left shift, a right shift is possible exactly when the arm came from position 1, and then it restores the original world |
| `Transitions.ShiftsRefusedInMiddle` | Planner.ts:47-55 | from a position strictly between the ends, both shifts are refused |
| `Transitions.SingleStackShiftsLeaveRow` | Planner.ts:45-60 | with one stack, both shifts succeed and leave the arm off the row |
| `Transitions.ShiftsKeepArmInRange` | Planner.ts:45-60 | with two or more stacks, a successful shift keeps the arm over the row |
| `Transitions.PickupThenPutdown` | Planner.ts:61-94 | picking up the top of a well-stacked, non-empty stack and putting it straight back is allowed and restores the world, except that the hand then holds ""; a lone object needs no definition |
| `Transitions.PickupConserves` | Planner.ts:61-75 | a pick-up keeps the multiset of identifiers in the stacks and the hand |
| `Transitions.PutdownAddsEmptyIdentifier` | Planner.ts:76-94 | a put-down adds exactly one "" to the multiset of identifiers in the stacks and the hand |
| `Transitions.PickupKeepsWellStacked` | Planner.ts:61-75 | a pick-up keeps every stack legally stacked |
| `Transitions.PutdownKeepsWellStacked` | Planner.ts:76-147 | a put-down allowed by the rules keeps every stack legally stacked |
| `Transitions.PutdownBlocksPickup` | Planner.ts:61-94 | after a put-down the hand holds "" and a pick-up is refused |
| `Transitions.PickShiftDropScenario` | Planner.ts:45-94 | on [[large box], []] with the arm at 0: pick-up, shift right and put-down give [[], [box]], the actions p, r, d, and "" in the hand |
| `Successors.WorldIteration` | Planner.ts:149-160 | trying the four moves and keeping the non-null ones gives exactly the successors |
| `Successors.SuccessorsInOrder` | Planner.ts:149-160 | the successors are the successful moves among right, left, pick-up and put-down, in that order |
| `Successors.SuccessorsAreTheSuccessfulMoves` | Planner.ts:149-160 | there are as many successors as successful moves, at most four, and a transition is a successor exactly when one of the four moves returns it |
| `Successors.KeptCount` | Planner.ts:153-157 | keeping the non-null entries keeps as many values as there are non-null entries, never more than the entries |
| `Successors.KeptMembers` | Planner.ts:153-157 | a value is kept exactly when some entry holds it |
| `Successors.SuccessorsKeepPhysics` | Planner.ts:149-160 | every successor keeps the objects, the examples and the number of stacks, and a well-stacked world has only well-stacked successors |
| `Successors.SuccessorsKeepArmInRange` | Planner.ts:149-160 | with two or more stacks, every successor keeps the arm over the row |
| `Successors.HandNeverEmptiesAgain` | Planner.ts:149-160 | once the hand holds anything, every successor's hand holds something and no successor is a pick-up |
| `Planner.ApproachStaysBetween` | Planner.ts:241-252 | while walking to the chosen stack, the arm stays between its start and that stack, and it ends over that stack |
| `Planner.ExcursionStaysBetween` | Planner.ts:259-271 | on the trip to the rightmost stack and back, the arm stays between the chosen stack and the last stack, and it ends over the chosen stack |
| `Planner.DummyPlanActions` | Planner.ts:254-275 | the plan holds exactly one "p" and one "d", and "d" is last |
| `Planner.DummyPlanPicksAndDropsAtPickstack` | Planner.ts:241-275 | replaying the shifts from the start position, the arm is over the chosen stack at the "p" and again at the final "d" |
| `Planner.DummyPlanStaysOnRow` | Planner.ts:241-275 | from a start over the row, no prefix of the plan takes the arm off the row |
| `Planner.PlanInterpretation` | Planner.ts:229-278 | for a chosen non-empty stack whose top object has a definition, the loops push exactly the dummy plan: the shifts to it, "p", the trip right and back, then "d" |
| `Planner.Plan` | Planner.ts:10-22 | fails with "Found no plans" exactly when there are no interpretations; otherwise returns one result per interpretation, in input order, each with its plan |

## Left out

- The goal test (`goalFunction`, Planner.ts:186-227) is not modelled. It matches regular expressions against a world string built by code in World.ts, and it is never called.
- `w2N` (Planner.ts:162-171) is not modelled. It needs `WorldFunc.world2String` and `AStar.Node`, which are defined in World.ts and AStar.ts. World.ts, AStar.ts and Interpreter.ts are not part of this model, and neither is the A* search.
- `convertToMap` (Planner.ts:173-184) is not modelled. It is unused, and it depends on the key order of JavaScript objects.
- The random choice of a stack (Planner.ts:236-238, 281-283) is a parameter `pickstack`, one per interpretation in `Plan`. It must name a non-empty stack. The source's retry loop would spin forever when every stack is empty.
- `Planner.PlanInterpretation`: leaves out the narration lines ("Moving left", "Picking up the …" and the rest) and the `console.log`. The plan holds only the action labels, and the logged successors are computed but not used.
- `Planner.Plan`: returns new result records. The source writes the `plan` field into the caller's interpretation objects (aliasing).
- `planToString` and the error's `toString` (Planner.ts:28-37) are formatting and are not modelled. The error keeps only its message; its name is always "Planner.Error".
- Forms and sizes are enumerations, so a form or size string outside brick, plank, ball, pyramid, box, table and small, large is not modelled. `null` and `undefined` in the hand are one value, `Null`.
- The command-line driver (shrdlite-offline.ts) is not modelled. It is process input/output and printing.
