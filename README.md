# Potion calculator: the form's state machine

This project models the core of a calculator for a levelling game. A player
enters a character's level and experience "before" drinking experience
potions, and the number of each potion kind. The calculator shows the level
and experience "after". The player may also enter the "after" side, and then
the calculator works backwards to the "before" side. Each side is a triple of
level, within-level experience and percentage of the level completed.

The modelled core is the reducer of `src/App.tsx`:

- `Field`, `State`, `Action`: the six form fields, the state and the seven
  kinds of edit (`App.Field`, `App.State`, `App.Action`). The state's six
  numbers are grouped in `App.Sides`, which is the record type that `apply`
  and `unapply` return in the source (`Omit<State, "potions" | "change">`).
  Spreading that record over the state is `state.(sides := …)`.
- `apply` and `unapply` (`App.Apply`, `App.Unapply`) keep one pair as given
  and derive the other triple through the engine.
- `reducer` (`App.Reducer`) routes each edit. An edit of a before field
  recomputes forwards. An edit of an after field recomputes backwards. A
  potion edit recomputes in the direction of the field edited last, which
  the `change` tag records.
- `defaultState` (`App.DefaultState`).

The numeric engine (`./logic`: `levelToExp`, `expToLevel`, `applyPotions`,
`unapplyPotions`, `toPercentage`, `fromPercentage`) is not part of this
model. A `Logic.Engine` value carries these six conversions as functions.
The reducer takes an engine as a parameter, so every property proved here
holds for any engine. The round-trip lemmas need the engine to be exact only
on the path they follow. They take that as hypotheses, which are predicates
on `Engine` stated at the totals involved:

- `Normalised`: splitting a pair's total gives back the pair, meaning its
  experience lies within its level.
- `JoinsBack`: joining the pair that `expToLevel` splits off a total gives
  back that total.
- `UndoesApply`: unapplying potions after applying them to a total gives
  back that total. The test at `src/logic.spec.ts:17` checks this exactness
  for the single-potion functions, at one total per potion kind
  (`levelToExp(potion.max)`, line 16; the level loop variable of line 13 is
  not used). The form for a whole potion count is an assumption.
- `RedoesUnapply`: applying potions after unapplying them from a total gives
  back that total. This is an assumption.
- `ForwardExactAt` and `BackwardExactAt` bundle these for the forward path
  from a before pair and the backward path from an after pair.

For an experience table that ends at a largest total `maxTotal`,
`LevelCodecExact`, `PotionsInvertible` and `PotionsRestorable` state the
same laws for every total up to `maxTotal`. `PotionsInvertible` also says
that applying potions never lowers a total; that monotonicity is an
assumption too. The lemmas `Logic.ForwardExactWithin` and
`Logic.BackwardExactWithin` derive the per-path hypotheses from these
bounded laws for any path that stays within the table.

`Session.Run` dispatches a sequence of edits through the reducer, one after
another. It shows that the properties of one edit carry over to a whole
session.

Levels, experience, totals and potion counts are `int`. Percentages are
`real`; in the source they are JavaScript numbers.

The `change` tag records which of the six fields was edited last
(`src/App.tsx:36`, `94-141`), not only a direction, and the model keeps all
six.

## Model

| member | source | states |
|---|---|---|
| `Logic.ZeroCounts` | src/App.tsx:182-189 | the default potion map has an entry for every potion kind, and every count is 0 |
| `App.Action.EditedField` | src/App.tsx:39-46 | a field edit names one of the six fields, and that field is on the before side exactly when the edit is |
| `App.Apply` | src/App.tsx:48-66 | `apply` keeps the before pair as given; the before percentage comes from the engine; the whole after triple is the engine's forward image of the before pair under the potions |
| `App.Unapply` | src/App.tsx:68-86 | `unapply` keeps the after pair as given; the after percentage comes from the engine; the whole before triple is the engine's backward image of the after pair under the potions |
| `App.Reducer` | src/App.tsx:88-173 | every new state is consistent in the direction its tag records (`Synced`); a field edit sets the tag to its own field and keeps the potions; a potion edit keeps the tag and changes only that potion's count |
| `AppProperties.BeforeEdit` | src/App.tsx:90-115 | a before edit stores the typed value and keeps the rest of the before pair; a typed percentage is stored as typed, and its experience is `fromPercentage` at the old before level; the after triple is derived from the new before pair |
| `AppProperties.AfterEdit` | src/App.tsx:117-142 | the mirror for after edits: the before triple is derived backwards from the new after pair |
| `AppProperties.BeforeEditIgnoresAfterSide` | src/App.tsx:90-115 | a before edit reads only the before level, the before experience and the potions: two states that agree on these give the same result |
| `AppProperties.AfterEditIgnoresBeforeSide` | src/App.tsx:117-142 | an after edit reads only the after level, the after experience and the potions |
| `AppProperties.PotionEdit` | src/App.tsx:144-171 | a potion edit sets that one count, leaves every other count and the tag alone, keeps a fully populated map fully populated, keeps the pair of the side edited last, and re-derives the other side from that pair with the new counts |
| `AppProperties.ForwardRoundTrip` | src/App.tsx:48-86 | if the engine is exact on the forward path from the stored before pair and the state is synced forwards, unapplying from the stored after pair gives back the stored before pair; unless the before percentage was typed, it gives back all six numbers |
| `AppProperties.BackwardRoundTrip` | src/App.tsx:48-86 | the mirror: if the engine is exact on the backward path from the stored after pair and the state is synced backwards, applying from the stored before pair gives back the stored after pair |
| `AppProperties.ForwardRoundTripWithin` | src/App.tsx:48-86 | the forward round trip for an engine whose table is exact up to its largest total, when the potions keep the total within the table |
| `AppProperties.BackwardRoundTripWithin` | src/App.tsx:48-86 | the backward round trip for an engine whose table is exact up to its largest total, when the potions keep the before total valid |
| `Logic.ForwardExactWithin` | src/logic.spec.ts:16-17 | an engine that is exact and monotone up to its largest total is exact on the forward path from any normal pair whose potions stay within the table |
| `Logic.BackwardExactWithin` | src/logic.spec.ts:16-17 | an engine that is exact up to its largest total is exact on the backward path from any normal pair whose unapplied total stays within the table |
| `AppProperties.RetypeAfterLevel` | src/App.tsx:117-122 | after an edit of the before level or experience, entering the after level already shown changes no number; only the tag changes, to `LevelAfter` |
| `AppProperties.RetypeBeforeLevel` | src/App.tsx:90-95 | after an edit of the after level or experience, entering the before level already shown changes no number |
| `AppProperties.DefaultStateSynced` | src/App.tsx:175-191 | the default state holds every potion kind at 0; it is consistent exactly when the engine maps level 200 with 0 experience and no potions to itself, at 0 percent |
| `AppProperties.DefaultStateFixedPoint` | src/App.tsx:144-191 | setting any potion count to 0 on the default state leaves the state unchanged exactly when the default state is consistent |
| `Session.Run` | src/useReducer.ts:7-14 | after at least one edit in a session, the state is consistent in its recorded direction; a fully populated potion map stays fully populated, and stays non-negative when every potion edit enters a non-negative count |
| `Session.RunRecordsLastEdit` | src/App.tsx:88-173 | after a session, the tag names the field edited last, whatever potion edits came after it; if there were no field edits, the tag is unchanged |
| `Session.SessionRoundTrip` | src/App.tsx:68-86 | after any session whose last field edit was the before level or experience, unapplying from the after pair shown gives back every number shown, provided the engine is exact on that forward path |

## Left out

- The engine in `./logic`, including `POTION_DATA` and the experience table, is not part of this model. Its six functions are parameters. Its exactness is stated only as hypotheses of the round-trip lemmas.
- Engine failures and non-integer results are not modelled. The engine functions are total, and levels, experience and totals are whole numbers (`int`); `fromPercentage` is assumed to return a whole experience value. In the source every `State` field is a JavaScript `number` (`src/App.tsx:28-37`). An engine call that throws would leave `reducer` before `setState` runs (`src/useReducer.ts:12`), so the edit would be dropped and the state would stay as it was. An engine result of `NaN` or a fraction would be stored as it is, and `NaN` is not equal to itself. The model covers neither case.
- The float arithmetic of `toPercentage` and `fromPercentage`, and the `toFixed(3)` display rounding: these are floating point.
- The `App` component (`src/App.tsx:204-427`) is left out. This covers the input widgets, focus tracking, parsing with `parseInt`/`parseFloat`, and dropping input that parses to NaN. The model's actions carry values that are already parsed.
- `saveState`/`loadState` (`src/App.tsx:193-202`): `localStorage` and JSON I/O.
- `Session.Run`: treats dispatch as a fold of the reducer. `src/useReducer.ts:12` passes the initial object each time, and that is correct only because Solid's store updates that object in place; that library behaviour is not modelled.
- The `default: return state` branch of the reducer has no counterpart: `Action` and `Field` are closed datatypes, so the match is exhaustive.
- `src/components/Input.tsx` is a presentational wrapper and is not modelled.
