/** The put-down legality check of the planner and, beside it, the stacking
    physics stated rule by rule. */
module Rules {

  import opened World

  // Each predicate below names one way of lowering `held` onto `top` that
  // the physics forbids. They are independent of one another.

  /** Balls must be in boxes or on the floor, otherwise they roll away. */
  predicate BallOutsideBox(held: ObjectDefinition, top: ObjectDefinition) {
    held.form == Ball && top.form != Box
  }

  /** Balls cannot support anything. */
  predicate OnBall(top: ObjectDefinition) {
    top.form == Ball
  }

  /** Small objects cannot support large objects. */
  predicate LargeOnSmall(held: ObjectDefinition, top: ObjectDefinition) {
    held.size == Large && top.size != Large
  }

  /** Boxes cannot contain pyramids, planks or boxes of their own size. */
  predicate SameSizeInBox(held: ObjectDefinition, top: ObjectDefinition) {
    top.form == Box && held.form in {Box, Pyramid, Plank} && top.size == held.size
  }

  /** Small boxes cannot be supported by small bricks or small pyramids. */
  predicate SmallBoxOnSmallBrickOrPyramid(held: ObjectDefinition, top: ObjectDefinition) {
    held.form == Box && held.size == Small && top.size == Small && top.form in {Brick, Pyramid}
  }

  /** Large boxes cannot be supported by large pyramids. */
  predicate LargeBoxOnLargePyramid(held: ObjectDefinition, top: ObjectDefinition) {
    held.form == Box && held.size == Large && top.size == Large && top.form == Pyramid
  }

  /** `held` may rest on `top` when no rule is broken. */
  predicate CanRestOn(held: ObjectDefinition, top: ObjectDefinition) {
    !BallOutsideBox(held, top) && !OnBall(top) && !LargeOnSmall(held, top)
    && !SameSizeInBox(held, top) && !SmallBoxOnSmallBrickOrPyramid(held, top)
    && !LargeBoxOnLargePyramid(held, top)
  }

  /** The lookups `putdownRules` makes succeed: the arm stands over a stack
      and, when that stack has a top, the top and the held identifier both
      have a definition. */
  predicate RulesDefined(w: WorldState) {
    ArmInRange(w)
    && (|w.stacks[w.arm]| > 0 ==>
          w.holding.Id? && Top(w.stacks[w.arm]) in w.objects && w.holding.name in w.objects)
  }

  /** Whether the held object may be lowered onto the stack under the arm:
      always on an empty stack, otherwise exactly when the held object may
      rest on the top object. */
  function PutdownRules(w: WorldState): (r: bool)
    requires RulesDefined(w)
    ensures |w.stacks[w.arm]| == 0 ==> r
    ensures |w.stacks[w.arm]| > 0 ==>
              (r <==> CanRestOn(w.objects[w.holding.name], w.objects[Top(w.stacks[w.arm])]))
  {
    if |w.stacks[w.arm]| != 0 then
      var topObjDef := w.objects[Top(w.stacks[w.arm])];
      var holdingDef := w.objects[w.holding.name];
      if holdingDef.form == Ball && topObjDef.form != Box then false
      else if topObjDef.form == Ball then false
      else if holdingDef.size == Large && topObjDef.size != Large then false
      else if topObjDef.form == Box
              && (holdingDef.form == Box || holdingDef.form == Pyramid || holdingDef.form == Plank)
              && topObjDef.size == holdingDef.size then false
      else if holdingDef.form == Box && holdingDef.size == Small
              && topObjDef.size == Small && (topObjDef.form == Brick || topObjDef.form == Pyramid) then false
      else if holdingDef.form == Box && holdingDef.size == Large
              && topObjDef.size == Large && topObjDef.form == Pyramid then false
      else true
    else true
  }

  /** The object at position `j` of `s` may rest on the one directly below it. */
  predicate RestsAt(objects: map<string, ObjectDefinition>, s: seq<string>, j: int)
    requires 0 < j < |s|
  {
    s[j - 1] in objects && s[j] in objects && CanRestOn(objects[s[j]], objects[s[j - 1]])
  }

  /** Every object of the stack, above the bottom one, rests legally. */
  predicate WellStackedColumn(objects: map<string, ObjectDefinition>, s: seq<string>) {
    forall j | 0 < j < |s| :: RestsAt(objects, s, j)
  }

  /** Every stack of the world is well stacked. */
  predicate WellStacked(w: WorldState) {
    forall i | 0 <= i < |w.stacks| :: WellStackedColumn(w.objects, w.stacks[i])
  }

  /** Concrete entries of the legality table. */
  lemma LegalityExamples()
    ensures !CanRestOn(ObjectDefinition(Ball, Small, "white"), ObjectDefinition(Pyramid, Small, "red"))
    ensures CanRestOn(ObjectDefinition(Ball, Small, "white"), ObjectDefinition(Box, Small, "blue"))
    ensures !CanRestOn(ObjectDefinition(Box, Large, "yellow"), ObjectDefinition(Pyramid, Large, "red"))
    ensures !CanRestOn(ObjectDefinition(Box, Large, "yellow"), ObjectDefinition(Box, Large, "blue"))
    ensures CanRestOn(ObjectDefinition(Box, Small, "yellow"), ObjectDefinition(Box, Large, "blue"))
  {
  }
}
