/** What the reducer of src/App.tsx promises: which fields each edit writes
    and which it reads, the potion edit, the default state, and that
    recomputing one side from the other is undone by recomputing back,
    whenever the engine's conversions are exact. */
module AppProperties {
  import opened Logic
  import opened App

  /** An edit of the before triple stores the typed value, keeps the rest of
      the before pair (a typed percentage is turned into experience at the
      old before level), and derives the whole after triple from the new
      before pair; the before percentage is the engine's unless it was the
      field typed. */
  lemma BeforeEdit(e: Engine, s: State, a: Action)
    requires a.IsBeforeEdit()
    ensures var r := Reducer(e, s, a);
      && r.change == a.EditedField()
      && r.potions == s.potions
      && r.sides.levelBefore == (if a.SetLevelBefore? then a.value else s.sides.levelBefore)
      && r.sides.experienceBefore ==
           (if a.SetLevelBefore? then s.sides.experienceBefore
            else if a.SetExperienceBefore? then a.value
            else e.fromPercentage(s.sides.levelBefore, a.percentage))
      && r.sides.percentageBefore ==
           (if a.SetPercentageBefore? then a.percentage
            else e.toPercentage(r.sides.levelBefore, r.sides.experienceBefore))
      && AfterDerived(e, r.sides, r.potions)
  {
  }

  /** The mirror of `BeforeEdit` for the after triple. */
  lemma AfterEdit(e: Engine, s: State, a: Action)
    requires a.IsAfterEdit()
    ensures var r := Reducer(e, s, a);
      && r.change == a.EditedField()
      && r.potions == s.potions
      && r.sides.levelAfter == (if a.SetLevelAfter? then a.value else s.sides.levelAfter)
      && r.sides.experienceAfter ==
           (if a.SetLevelAfter? then s.sides.experienceAfter
            else if a.SetExperienceAfter? then a.value
            else e.fromPercentage(s.sides.levelAfter, a.percentage))
      && r.sides.percentageAfter ==
           (if a.SetPercentageAfter? then a.percentage
            else e.toPercentage(r.sides.levelAfter, r.sides.experienceAfter))
      && BeforeDerived(e, r.sides, r.potions)
  {
  }

  /** An edit of the before triple reads only the before level and
      experience and the potions: two states that agree on those give the
      same new state, whatever their after triples, before percentages and
      tags. */
  lemma BeforeEditIgnoresAfterSide(e: Engine, s1: State, s2: State, a: Action)
    requires a.IsBeforeEdit()
    requires s1.sides.levelBefore == s2.sides.levelBefore
    requires s1.sides.experienceBefore == s2.sides.experienceBefore
    requires s1.potions == s2.potions
    ensures Reducer(e, s1, a) == Reducer(e, s2, a)
  {
  }

  /** The mirror of `BeforeEditIgnoresAfterSide`. */
  lemma AfterEditIgnoresBeforeSide(e: Engine, s1: State, s2: State, a: Action)
    requires a.IsAfterEdit()
    requires s1.sides.levelAfter == s2.sides.levelAfter
    requires s1.sides.experienceAfter == s2.sides.experienceAfter
    requires s1.potions == s2.potions
    ensures Reducer(e, s1, a) == Reducer(e, s2, a)
  {
  }

  /** A potion edit sets that one count and no other, keeps the tag, keeps
      the pair of the side edited last and re-derives the other side from it
      with the new counts. */
  lemma PotionEdit(e: Engine, s: State, id: PotionID, value: int)
    ensures var r := Reducer(e, s, SetPotion(id, value));
      && id in r.potions && r.potions[id] == value
      && r.potions.Keys == s.potions.Keys + {id}
      && (forall other :: other in s.potions && other != id ==> r.potions[other] == s.potions[other])
      && r.change == s.change
      && (IsPotionCount(s.potions) ==> IsPotionCount(r.potions))
      && (s.change.IsBefore() ==>
            && r.sides.levelBefore == s.sides.levelBefore
            && r.sides.experienceBefore == s.sides.experienceBefore
            && BeforePercentageDerived(e, r.sides)
            && AfterDerived(e, r.sides, r.potions))
      && (!s.change.IsBefore() ==>
            && r.sides.levelAfter == s.sides.levelAfter
            && r.sides.experienceAfter == s.sides.experienceAfter
            && AfterPercentageDerived(e, r.sides)
            && BeforeDerived(e, r.sides, r.potions))
  {
  }

  /** On a state synced forwards, recomputing backwards from the stored
      after pair gives back the stored before pair; when the before
      percentage was not typed, it gives back the whole state's triples.
      The engine need only be exact on this one forward path. */
  lemma ForwardRoundTrip(e: Engine, s: State)
    requires Synced(e, s) && s.change.IsBefore()
    requires e.ForwardExactAt(s.sides.levelBefore, s.sides.experienceBefore, s.potions)
    ensures var t := Unapply(e, s.sides.levelAfter, s.sides.experienceAfter, s.potions);
      && t.levelBefore == s.sides.levelBefore
      && t.experienceBefore == s.sides.experienceBefore
      && (s.change != PercentageBefore ==> t == s.sides)
  {
  }

  /** On a state synced backwards, recomputing forwards from the stored
      before pair gives back the stored after pair; when the after
      percentage was not typed, it gives back the whole state's triples.
      The engine need only be exact on this one backward path. */
  lemma BackwardRoundTrip(e: Engine, s: State)
    requires Synced(e, s) && !s.change.IsBefore()
    requires e.BackwardExactAt(s.sides.levelAfter, s.sides.experienceAfter, s.potions)
    ensures var t := Apply(e, s.sides.levelBefore, s.sides.experienceBefore, s.potions);
      && t.levelAfter == s.sides.levelAfter
      && t.experienceAfter == s.sides.experienceAfter
      && (s.change != PercentageAfter ==> t == s.sides)
  {
  }

  /** `ForwardRoundTrip` for an engine whose table is exact up to its
      largest total, on a state whose potions stay within the table. */
  lemma ForwardRoundTripWithin(e: Engine, s: State, maxTotal: int)
    requires e.LevelCodecExact(maxTotal) && e.PotionsInvertible(maxTotal)
    requires ValidCounts(s.potions)
    requires Synced(e, s) && s.change.IsBefore()
    requires e.Normalised(s.sides.levelBefore, s.sides.experienceBefore)
    requires 0 <= e.levelToExp(s.sides.levelBefore, s.sides.experienceBefore)
    requires e.applyPotions(e.levelToExp(s.sides.levelBefore, s.sides.experienceBefore), s.potions) <= maxTotal
    ensures Unapply(e, s.sides.levelAfter, s.sides.experienceAfter, s.potions).levelBefore == s.sides.levelBefore
    ensures Unapply(e, s.sides.levelAfter, s.sides.experienceAfter, s.potions).experienceBefore == s.sides.experienceBefore
  {
    ForwardExactWithin(e, s.sides.levelBefore, s.sides.experienceBefore, s.potions, maxTotal);
    ForwardRoundTrip(e, s);
  }

  /** `BackwardRoundTrip` for an engine whose table is exact up to its
      largest total, on a state whose potions keep the before total valid. */
  lemma BackwardRoundTripWithin(e: Engine, s: State, maxTotal: int)
    requires e.LevelCodecExact(maxTotal) && e.PotionsRestorable(maxTotal)
    requires ValidCounts(s.potions)
    requires Synced(e, s) && !s.change.IsBefore()
    requires e.Normalised(s.sides.levelAfter, s.sides.experienceAfter)
    requires e.levelToExp(s.sides.levelAfter, s.sides.experienceAfter) <= maxTotal
    requires 0 <= e.unapplyPotions(e.levelToExp(s.sides.levelAfter, s.sides.experienceAfter), s.potions) <= maxTotal
    ensures Apply(e, s.sides.levelBefore, s.sides.experienceBefore, s.potions).levelAfter == s.sides.levelAfter
    ensures Apply(e, s.sides.levelBefore, s.sides.experienceBefore, s.potions).experienceAfter == s.sides.experienceAfter
  {
    BackwardExactWithin(e, s.sides.levelAfter, s.sides.experienceAfter, s.potions, maxTotal);
    BackwardRoundTrip(e, s);
  }

  /** After an edit of the before level or experience, typing the after
      level that is shown changes no number on the form: it only turns the
      direction of recomputation around. */
  lemma RetypeAfterLevel(e: Engine, s: State)
    requires Synced(e, s) && (s.change == LevelBefore || s.change == ExperienceBefore)
    requires e.ForwardExactAt(s.sides.levelBefore, s.sides.experienceBefore, s.potions)
    ensures Reducer(e, s, SetLevelAfter(s.sides.levelAfter)) == s.(change := LevelAfter)
  {
  }

  /** After an edit of the after level or experience, typing the before
      level that is shown changes no number on the form. */
  lemma RetypeBeforeLevel(e: Engine, s: State)
    requires Synced(e, s) && (s.change == LevelAfter || s.change == ExperienceAfter)
    requires e.BackwardExactAt(s.sides.levelAfter, s.sides.experienceAfter, s.potions)
    ensures Reducer(e, s, SetLevelBefore(s.sides.levelBefore)) == s.(change := LevelBefore)
  {
  }

  /** The default state holds every potion kind at zero and is consistent
      exactly when the engine maps level 200 with no experience and no
      potions to itself, at 0 percent. */
  lemma DefaultStateSynced(e: Engine)
    ensures ValidCounts(DefaultState.potions)
    ensures forall id: PotionID :: DefaultState.potions[id] == 0
    ensures Synced(e, DefaultState) <==>
              e.Forward(200, 0, ZeroCounts()) == (200, 0) && e.toPercentage(200, 0) == 0.0
  {
  }

  /** Setting any potion count to zero on the default state leaves it as
      it is exactly when the default state is consistent. */
  lemma DefaultStateFixedPoint(e: Engine, id: PotionID)
    ensures Reducer(e, DefaultState, SetPotion(id, 0)) == DefaultState <==> Synced(e, DefaultState)
  {
    assert DefaultState.potions[id := 0] == DefaultState.potions;
  }
}
