/** The state machine behind the calculator's form (src/App.tsx): a "before"
    triple and an "after" triple of level, experience and percentage, the
    potion counts, and a tag naming the field edited last. Editing a field of
    one side recomputes the other side through the engine, forwards (drinking
    the potions) or backwards (removing them). */
module App {
  import opened Logic

  /** The six editable fields of the form. */
  datatype Field =
    | LevelBefore | ExperienceBefore | PercentageBefore
    | LevelAfter | ExperienceAfter | PercentageAfter
  {
    /** The field belongs to the "before" triple. */
    predicate IsBefore() {
      LevelBefore? || ExperienceBefore? || PercentageBefore?
    }
  }

  /** The two mirrored triples: the part of the state that `apply` and
      `unapply` produce. */
  datatype Sides = Sides(
    levelBefore: int, experienceBefore: int, percentageBefore: real,
    levelAfter: int, experienceAfter: int, percentageAfter: real)

  datatype State = State(sides: Sides, potions: PotionCount, change: Field)

  /** One edit of the form: a new value for one of the six fields, or a new
      count for one potion kind. */
  datatype Action =
    | SetLevelBefore(value: int)
    | SetExperienceBefore(value: int)
    | SetPercentageBefore(percentage: real)
    | SetLevelAfter(value: int)
    | SetExperienceAfter(value: int)
    | SetPercentageAfter(percentage: real)
    | SetPotion(potionId: PotionID, value: int)
  {
    /** The action edits a field of the "before" triple. */
    predicate IsBeforeEdit() {
      SetLevelBefore? || SetExperienceBefore? || SetPercentageBefore?
    }

    /** The action edits a field of the "after" triple. */
    predicate IsAfterEdit() {
      SetLevelAfter? || SetExperienceAfter? || SetPercentageAfter?
    }

    /** The field a field edit names. */
    function EditedField(): (f: Field)
      requires !SetPotion?
      ensures f.IsBefore() <==> IsBeforeEdit()
    {
      match this
      case SetLevelBefore(_) => LevelBefore
      case SetExperienceBefore(_) => ExperienceBefore
      case SetPercentageBefore(_) => PercentageBefore
      case SetLevelAfter(_) => LevelAfter
      case SetExperienceAfter(_) => ExperienceAfter
      case SetPercentageAfter(_) => PercentageAfter
    }
  }

  /** The after triple is what the engine derives from the before pair and
      the potions. */
  predicate AfterDerived(e: Engine, t: Sides, potions: PotionCount) {
    (t.levelAfter, t.experienceAfter) == e.Forward(t.levelBefore, t.experienceBefore, potions)
    && t.percentageAfter == e.toPercentage(t.levelAfter, t.experienceAfter)
  }

  /** The before triple is what the engine derives from the after pair and
      the potions. */
  predicate BeforeDerived(e: Engine, t: Sides, potions: PotionCount) {
    (t.levelBefore, t.experienceBefore) == e.Backward(t.levelAfter, t.experienceAfter, potions)
    && t.percentageBefore == e.toPercentage(t.levelBefore, t.experienceBefore)
  }

  /** The stored percentage of the before pair is the engine's. */
  predicate BeforePercentageDerived(e: Engine, t: Sides) {
    t.percentageBefore == e.toPercentage(t.levelBefore, t.experienceBefore)
  }

  /** The stored percentage of the after pair is the engine's. */
  predicate AfterPercentageDerived(e: Engine, t: Sides) {
    t.percentageAfter == e.toPercentage(t.levelAfter, t.experienceAfter)
  }

  /** The state is consistent in the direction its tag records: after an
      edit of the before side the after triple is derived from it, after an
      edit of the after side the before triple is derived from that; only a
      typed percentage may differ from the engine's. */
  predicate Synced(e: Engine, s: State) {
    if s.change.IsBefore() then
      AfterDerived(e, s.sides, s.potions)
      && (s.change != PercentageBefore ==> BeforePercentageDerived(e, s.sides))
    else
      BeforeDerived(e, s.sides, s.potions)
      && (s.change != PercentageAfter ==> AfterPercentageDerived(e, s.sides))
  }

  /** `apply`: keep the before pair, derive its percentage and the whole
      after triple. */
  function Apply(e: Engine, levelBefore: int, experienceBefore: int, potions: PotionCount): (r: Sides)
    ensures r.levelBefore == levelBefore && r.experienceBefore == experienceBefore
    ensures BeforePercentageDerived(e, r)
    ensures AfterDerived(e, r, potions)
  {
    var percentageBefore := e.toPercentage(levelBefore, experienceBefore);
    var totalBefore := e.levelToExp(levelBefore, experienceBefore);
    var totalAfter := e.applyPotions(totalBefore, potions);
    var (levelAfter, experienceAfter) := e.expToLevel(totalAfter);
    var percentageAfter := e.toPercentage(levelAfter, experienceAfter);
    Sides(levelBefore, experienceBefore, percentageBefore, levelAfter, experienceAfter, percentageAfter)
  }

  /** `unapply`: keep the after pair, derive its percentage and the whole
      before triple. */
  function Unapply(e: Engine, levelAfter: int, experienceAfter: int, potions: PotionCount): (r: Sides)
    ensures r.levelAfter == levelAfter && r.experienceAfter == experienceAfter
    ensures AfterPercentageDerived(e, r)
    ensures BeforeDerived(e, r, potions)
  {
    var percentageAfter := e.toPercentage(levelAfter, experienceAfter);
    var totalAfter := e.levelToExp(levelAfter, experienceAfter);
    var totalBefore := e.unapplyPotions(totalAfter, potions);
    var (levelBefore, experienceBefore) := e.expToLevel(totalBefore);
    var percentageBefore := e.toPercentage(levelBefore, experienceBefore);
    Sides(levelBefore, experienceBefore, percentageBefore, levelAfter, experienceAfter, percentageAfter)
  }

  /** `reducer`: the state after one edit. A field edit records its field
      and recomputes the other side; a potion edit changes one count and
      recomputes in the direction the last field edit recorded. Whatever
      the old state, the new one is consistent in its recorded direction. */
  function Reducer(e: Engine, state: State, action: Action): (r: State)
    ensures Synced(e, r)
    ensures !action.SetPotion? ==> r.change == action.EditedField() && r.potions == state.potions
    ensures action.SetPotion? ==>
              r.change == state.change && r.potions == state.potions[action.potionId := action.value]
  {
    match action
    case SetLevelBefore(value) =>
      state.(sides := Apply(e, value, state.sides.experienceBefore, state.potions),
             change := LevelBefore)
    case SetExperienceBefore(value) =>
      state.(sides := Apply(e, state.sides.levelBefore, value, state.potions),
             change := ExperienceBefore)
    case SetPercentageBefore(percentageBefore) =>
      var experience := e.fromPercentage(state.sides.levelBefore, percentageBefore);
      state.(sides := Apply(e, state.sides.levelBefore, experience, state.potions)
                        .(percentageBefore := percentageBefore),
             change := PercentageBefore)
    case SetLevelAfter(value) =>
      state.(sides := Unapply(e, value, state.sides.experienceAfter, state.potions),
             change := LevelAfter)
    case SetExperienceAfter(value) =>
      state.(sides := Unapply(e, state.sides.levelAfter, value, state.potions),
             change := ExperienceAfter)
    case SetPercentageAfter(percentageAfter) =>
      var experience := e.fromPercentage(state.sides.levelAfter, percentageAfter);
      state.(sides := Unapply(e, state.sides.levelAfter, experience, state.potions)
                        .(percentageAfter := percentageAfter),
             change := PercentageAfter)
    case SetPotion(potionId, value) =>
      var potions := state.potions[potionId := value];
      match state.change
      case LevelBefore | ExperienceBefore | PercentageBefore =>
        state.(sides := Apply(e, state.sides.levelBefore, state.sides.experienceBefore, potions),
               potions := potions)
      case LevelAfter | ExperienceAfter | PercentageAfter =>
        state.(sides := Unapply(e, state.sides.levelAfter, state.sides.experienceAfter, potions),
               potions := potions)
  }

  /** `defaultState`: level 200 with no experience on both sides, no
      potions, the before level recorded as edited last. */
  const DefaultState: State :=
    State(Sides(200, 0, 0.0, 200, 0, 0.0), ZeroCounts(), LevelBefore)
}
