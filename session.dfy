/** A session of the form: every edit is dispatched to the reducer in turn,
    each one applied to the state the previous one left. */
module Session {
  import opened Logic
  import opened App
  import AppProperties

  /** Every potion edit in the session types a non-negative count. */
  predicate NonNegativePotionEdits(actions: seq<Action>) {
    forall i :: 0 <= i < |actions| && actions[i].SetPotion? ==> actions[i].value >= 0
  }

  /** The state after dispatching the actions in order. After at least one
      edit the state is consistent in its recorded direction; a fully
      populated count stays fully populated, and stays non-negative when
      every potion edit types a non-negative count. */
  function Run(e: Engine, s: State, actions: seq<Action>): (r: State)
    ensures |actions| > 0 ==> Synced(e, r)
    ensures IsPotionCount(s.potions) ==> IsPotionCount(r.potions)
    ensures ValidCounts(s.potions) && NonNegativePotionEdits(actions) ==> ValidCounts(r.potions)
    decreases |actions|
  {
    if actions == [] then s
    else Run(e, Reducer(e, s, actions[0]), actions[1..])
  }

  /** The field edited last in the session, or `initial` when the session
      edits potion counts only: read from the end of the session. */
  function LastEdited(initial: Field, actions: seq<Action>): Field
    decreases |actions|
  {
    if actions == [] then initial
    else if actions[|actions| - 1].SetPotion? then LastEdited(initial, actions[..|actions| - 1])
    else actions[|actions| - 1].EditedField()
  }

  /** Reading the last edit from the end agrees with reading the session
      from its first action. */
  lemma {:induction false} LastEditedCons(initial: Field, a: Action, rest: seq<Action>)
    ensures LastEdited(initial, [a] + rest) ==
              LastEdited(if a.SetPotion? then initial else a.EditedField(), rest)
    decreases |rest|
  {
    if rest == [] {
      assert [a] + rest == [a];
      assert [a][..0] == [];
    } else {
      var n := |rest|;
      assert ([a] + rest)[..n] == [a] + rest[..n - 1];
      assert ([a] + rest)[n] == rest[n - 1];
      LastEditedCons(initial, a, rest[..n - 1]);
    }
  }

  /** The tag after a session names the field edited last, whatever potion
      edits followed it; so the direction a later potion edit recomputes in
      is decided by the last field edit. */
  lemma {:induction false} RunRecordsLastEdit(e: Engine, s: State, actions: seq<Action>)
    ensures Run(e, s, actions).change == LastEdited(s.change, actions)
    decreases |actions|
  {
    if actions != [] {
      var a := actions[0];
      var rest := actions[1..];
      assert actions == [a] + rest;
      RunRecordsLastEdit(e, Reducer(e, s, a), rest);
      LastEditedCons(s.change, a, rest);
    }
  }

  /** After any session whose last field edit was the before level or
      experience, recomputing backwards from the shown after pair gives back
      every number shown, whenever the engine is exact on that forward path. */
  lemma SessionRoundTrip(e: Engine, s: State, actions: seq<Action>)
    requires |actions| > 0
    requires LastEdited(s.change, actions) == LevelBefore || LastEdited(s.change, actions) == ExperienceBefore
    requires var r := Run(e, s, actions);
      e.ForwardExactAt(r.sides.levelBefore, r.sides.experienceBefore, r.potions)
    ensures var r := Run(e, s, actions);
      Unapply(e, r.sides.levelAfter, r.sides.experienceAfter, r.potions) == r.sides
  {
    RunRecordsLastEdit(e, s, actions);
    AppProperties.ForwardRoundTrip(e, Run(e, s, actions));
  }
}
