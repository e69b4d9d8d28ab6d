/**
 * The physics-body categories of GameElements.swift, the masks each body of the
 * scene is given, and the classification of a contact that didBegin performs.
 */
module Collision {

  // One bit per category (a body may carry up to 32 categories in a UInt32).
  const BirdCategory: bv32 := 1 << 0
  const PillarCategory: bv32 := 1 << 1
  const FlowerCategory: bv32 := 1 << 2
  const GroundCategory: bv32 := 1 << 3

  const Categories: set<bv32> := {BirdCategory, PillarCategory, FlowerCategory, GroundCategory}

  predicate IsSingleBit(x: bv32) {
    x != 0 && x & (x - 1) == 0
  }

  /** The four categories are the bits 1, 2, 4 and 8, so no two of them share a bit. */
  lemma CategoriesAreDistinctBits()
    ensures BirdCategory == 1 && PillarCategory == 2 && FlowerCategory == 4 && GroundCategory == 8
    ensures |Categories| == 4
    ensures forall c | c in Categories :: IsSingleBit(c)
    ensures forall c, d | c in Categories && d in Categories && c != d :: c & d == 0
  {
  }

  /** The three masks SpriteKit keeps on a physics body. */
  datatype Masks = Masks(category: bv32, collision: bv32, contactTest: bv32)

  const BirdMasks := Masks(BirdCategory, 0, PillarCategory | FlowerCategory | GroundCategory)
  const FlowerMasks := Masks(FlowerCategory, 0, BirdCategory)
  const TopWallMasks := Masks(PillarCategory, 0, BirdCategory)
  const BottomWallMasks := Masks(PillarCategory, 0, BirdCategory)
  /** The edge loop around the whole scene, built by createScene. */
  const EdgeLoopMasks := Masks(GroundCategory, 0, BirdCategory)

  const SceneBodies: set<Masks> := {BirdMasks, FlowerMasks, TopWallMasks, BottomWallMasks, EdgeLoopMasks}

  /**
   * SpriteKit calls didBegin for two touching bodies when the category of one
   * meets the contact-test mask of the other.
   */
  predicate Reported(a: Masks, b: Masks) {
    a.category & b.contactTest != 0 || b.category & a.contactTest != 0
  }

  /** The bird tests for contact with exactly the pillar, flower and ground categories. */
  lemma BirdContactMask()
    ensures BirdMasks.category == BirdCategory
    ensures BirdMasks.contactTest == PillarCategory | FlowerCategory | GroundCategory
    ensures forall c | c in Categories :: (c & BirdMasks.contactTest != 0 <==> c != BirdCategory)
  {
  }

  /** The flower and both pillars test for contact with the bird only. */
  lemma ObstacleMasks()
    ensures FlowerMasks.category == FlowerCategory && FlowerMasks.contactTest == BirdCategory
    ensures TopWallMasks.category == PillarCategory && TopWallMasks.contactTest == BirdCategory
    ensures BottomWallMasks.category == PillarCategory && BottomWallMasks.contactTest == BirdCategory
  {
  }

  /**
   * Every body is given collision mask 0, so nothing pushes anything else and
   * the reset of both collision masks on death changes nothing.
   */
  lemma NoBodyCollides()
    ensures forall m | m in SceneBodies :: m.collision == 0
  {
  }

  /**
   * Of the bodies in the scene, only pairs that include the bird are ever
   * reported, and the bird is reported against each of the three others.
   */
  lemma OnlyBirdContactsReported()
    ensures forall a, b | a in SceneBodies && b in SceneBodies && Reported(a, b) ::
      a == BirdMasks || b == BirdMasks
    ensures Reported(BirdMasks, TopWallMasks) && Reported(BirdMasks, BottomWallMasks)
    ensures Reported(BirdMasks, FlowerMasks) && Reported(BirdMasks, EdgeLoopMasks)
    ensures !Reported(BirdMasks, BirdMasks)
  {
  }

  /**
   * What didBegin does with a contact: end the game, score (removing the
   * flower, which is the first body or the second), or nothing.
   */
  datatype Outcome = Lethal | Scored(flowerFirst: bool) | Ignored

  /**
   * The branch didBegin takes for a contact whose first body has category a
   * and second body category b. Categories are compared for equality.
   */
  function Classify(a: bv32, b: bv32): (o: Outcome)
    ensures o == Lethal <==> {a, b} == {BirdCategory, PillarCategory}
    ensures o == Scored(false) <==> a == BirdCategory && b == FlowerCategory
    ensures o == Scored(true) <==> a == FlowerCategory && b == BirdCategory
    ensures o != Ignored ==> BirdCategory in {a, b}
  {
    if (a == BirdCategory && b == PillarCategory) || (a == PillarCategory && b == BirdCategory) then
      Lethal
    else if a == BirdCategory && b == FlowerCategory then
      Scored(false)
    else if a == FlowerCategory && b == BirdCategory then
      Scored(true)
    else
      Ignored
  }

  function Swapped(o: Outcome): Outcome {
    match o
    case Scored(flowerFirst) => Scored(!flowerFirst)
    case _ => o
  }

  /** The order of the two bodies only decides which of them is the flower. */
  lemma ClassifySymmetric(a: bv32, b: bv32)
    ensures Classify(b, a) == Swapped(Classify(a, b))
  {
  }

  /**
   * The bird touching the ground is reported by SpriteKit, yet didBegin has no
   * branch for it: it is not lethal. A pillar touching a flower is ignored too.
   */
  lemma GroundIsHarmless()
    ensures Reported(BirdMasks, EdgeLoopMasks)
    ensures Classify(BirdCategory, GroundCategory) == Ignored
    ensures Classify(GroundCategory, BirdCategory) == Ignored
    ensures Classify(PillarCategory, FlowerCategory) == Ignored
    ensures Classify(FlowerCategory, PillarCategory) == Ignored
  {
  }
}
