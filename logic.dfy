/** The numeric engine that the reducer of src/App.tsx composes: the
    experience-curve conversions and the potion pipeline of `./logic`.
    The bodies of these conversions are not part of this model. An `Engine`
    value carries them as functions, so every property proved about the
    reducer holds for whichever engine is plugged in; what the engine itself
    is expected to satisfy is stated as predicates on `Engine` that lemmas
    take as hypotheses. */
module Logic {

  /** The closed set of potion kinds. */
  datatype PotionID = Potion0 | Potion1 | Potion2 | Potion3 | Potion4 | Potion5

  /** How many of each potion kind to apply. */
  type PotionCount = map<PotionID, int>

  /** Every potion kind has an entry (the count may be zero). */
  predicate IsPotionCount(potions: PotionCount) {
    forall id: PotionID :: id in potions
  }

  /** A fully populated count whose quantities are all non-negative. */
  predicate ValidCounts(potions: PotionCount) {
    forall id: PotionID :: id in potions && potions[id] >= 0
  }

  /** The count with every potion kind at zero. */
  function ZeroCounts(): (potions: PotionCount)
    ensures ValidCounts(potions)
    ensures forall id: PotionID :: potions[id] == 0
  {
    var potions := map[Potion0 := 0, Potion1 := 0, Potion2 := 0, Potion3 := 0, Potion4 := 0, Potion5 := 0];
    assert forall id: PotionID :: id in potions by {
      forall id: PotionID ensures id in potions {
        assert id.Potion0? || id.Potion1? || id.Potion2? || id.Potion3? || id.Potion4? || id.Potion5?;
      }
    }
    potions
  }

  /** The six conversions that the reducer calls: level and within-level
      experience to total experience and back, potions applied to or removed
      from a total, and within-level experience to percentage and back. */
  datatype Engine = Engine(
    levelToExp: (int, int) -> int,
    expToLevel: int -> (int, int),
    applyPotions: (int, PotionCount) -> int,
    unapplyPotions: (int, PotionCount) -> int,
    toPercentage: (int, int) -> real,
    fromPercentage: (int, real) -> int)
  {
    /** The (level, experience) pair reached from a starting pair by
        drinking the potions. */
    function Forward(level: int, experience: int, potions: PotionCount): (int, int) {
      expToLevel(applyPotions(levelToExp(level, experience), potions))
    }

    /** The (level, experience) pair that the potions were drunk from to
        reach a given pair. */
    function Backward(level: int, experience: int, potions: PotionCount): (int, int) {
      expToLevel(unapplyPotions(levelToExp(level, experience), potions))
    }

    /** The pair is in normal form: splitting its total again gives back
        the pair (its experience lies within its level). */
    predicate Normalised(level: int, experience: int) {
      expToLevel(levelToExp(level, experience)) == (level, experience)
    }

    /** Splitting this total into a pair and joining the pair again gives
        back the total. */
    predicate JoinsBack(total: int) {
      levelToExp(expToLevel(total).0, expToLevel(total).1) == total
    }

    /** Removing the potions after drinking them from this total gives back
        the total. */
    predicate UndoesApply(total: int, potions: PotionCount) {
      unapplyPotions(applyPotions(total, potions), potions) == total
    }

    /** Drinking the potions after removing them from this total gives back
        the total. */
    predicate RedoesUnapply(total: int, potions: PotionCount) {
      applyPotions(unapplyPotions(total, potions), potions) == total
    }

    /** The engine is exact on the forward path from this before pair: the
        pair is normal, removing the potions undoes drinking them, and the
        total reached splits and joins back exactly. */
    predicate ForwardExactAt(level: int, experience: int, potions: PotionCount) {
      var totalBefore := levelToExp(level, experience);
      Normalised(level, experience)
      && UndoesApply(totalBefore, potions)
      && JoinsBack(applyPotions(totalBefore, potions))
    }

    /** The engine is exact on the backward path from this after pair. */
    predicate BackwardExactAt(level: int, experience: int, potions: PotionCount) {
      var totalAfter := levelToExp(level, experience);
      Normalised(level, experience)
      && RedoesUnapply(totalAfter, potions)
      && JoinsBack(unapplyPotions(totalAfter, potions))
    }

    /** Every total of the experience table, from 0 up to its largest total
        `maxTotal`, splits into a pair and joins back exactly. */
    ghost predicate LevelCodecExact(maxTotal: int) {
      forall total: int :: 0 <= total <= maxTotal ==> JoinsBack(total)
    }

    /** Drinking valid potions from a valid total that stays within the table
        never lowers it, and removing them afterwards gives it back. */
    ghost predicate PotionsInvertible(maxTotal: int) {
      forall total: int, potions: PotionCount ::
        0 <= total && ValidCounts(potions) && applyPotions(total, potions) <= maxTotal ==>
          total <= applyPotions(total, potions) && UndoesApply(total, potions)
    }

    /** Removing valid potions from a total within the table, when the result
        stays valid, and drinking them again gives that total back. */
    ghost predicate PotionsRestorable(maxTotal: int) {
      forall total: int, potions: PotionCount ::
        total <= maxTotal && ValidCounts(potions) && 0 <= unapplyPotions(total, potions) ==>
          RedoesUnapply(total, potions)
    }
  }

  /** An engine whose table is exact up to `maxTotal` is exact on the
      forward path from any normal before pair whose potions stay within
      the table. */
  lemma ForwardExactWithin(e: Engine, level: int, experience: int, potions: PotionCount, maxTotal: int)
    requires e.LevelCodecExact(maxTotal) && e.PotionsInvertible(maxTotal)
    requires ValidCounts(potions) && e.Normalised(level, experience)
    requires 0 <= e.levelToExp(level, experience)
    requires e.applyPotions(e.levelToExp(level, experience), potions) <= maxTotal
    ensures e.ForwardExactAt(level, experience, potions)
  {
  }

  /** An engine whose table is exact up to `maxTotal` is exact on the
      backward path from any normal after pair within the table whose
      potions do not take it below the table. */
  lemma BackwardExactWithin(e: Engine, level: int, experience: int, potions: PotionCount, maxTotal: int)
    requires e.LevelCodecExact(maxTotal) && e.PotionsRestorable(maxTotal)
    requires ValidCounts(potions) && e.Normalised(level, experience)
    requires 0 <= e.unapplyPotions(e.levelToExp(level, experience), potions) <= maxTotal
    requires e.levelToExp(level, experience) <= maxTotal
    ensures e.BackwardExactAt(level, experience, potions)
  {
  }
}
