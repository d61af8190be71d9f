# Roll-with-Effort dialog — a Dafny model

This project models the Effort calculator of the Numenera system for a
virtual-tabletop host: the "Roll with Effort" dialog of
`module/apps/EffortDialog.js`. A player picks a stat pool (Might, Speed or
Intellect), optionally a skill, a number of assets, a level of Effort and a
task level. The dialog shows the final task level, the modifiers that
explain it, the Effort cost, the pool's current and remaining points, and a
warning when the roll is not possible. Submitting it requests a roll and,
when the Effort costs something, writes the reduced pool back to the actor.

The dialog's mutable form object becomes the immutable `RollConfig`
datatype. Each getter, the render data and the two handlers become pure
functions:

| file | module | contents |
|---|---|---|
| `wrappers.dfy` | `Wrappers` | `Option` (absent or falsy values) and `Result` (returned or thrown) |
| `numerals.dfy` | `Numerals` | how an integer is written into a label, and how it is read back |
| `effort_dialog.dfy` | `EffortDialog` | the datatypes, the constructor, `FinalLevel`, `TaskModifiers`, `Warning`, `View`, `Submit`, `ApplyEdit` |
| `effort_properties.dfy` | `EffortDialogProperties` | lemmas that relate these operations to one another |
| `effort_as_written.dfy` | `EffortDialogAsWritten` | the three defects under "Findings", modelled as the code is written |

The host actor is reduced to the values the dialog reads from it. It is a
datatype holding the actor id, the maximum Effort, `poolValue: Stat -> int`
and `effortCost: (Stat, int) -> int`. The last two stay uninterpreted. The
actor's skill lookup (`getOwnedItem`) is a parameter
`lookup: SkillId -> Option<Skill>` of `ApplyEdit`. The calls that roll the
dice and persist the pool are not made. Instead, `Submit` returns the
`RollRequest` and the optional `PoolDeduction` that would be passed to them.

`_updateObject` (lines 224-226) adopts a newly chosen stat even while a
skill stays attached. If the same edit also empties the skill field, the
skill is not detached. The model states both
(`ApplyEdit`, `StatEditLeavesSkillAttached`, `DeselectionKeepsStat`).

The rows of `taskModifiers` carry a `kind` tag that exists only in the
model. In the code the rows differ only in their title text.

## Model

| member | source | states |
|---|---|---|
| `EffortDialog.NewDialog` | module/apps/EffortDialog.js:31-44 | a new dialog starts with no assets, no Effort and task level 1, and keeps the initiating skill; a stat that is given is kept, and with none given the stat is taken from the skill |
| `EffortDialog.FinalLevel` | module/apps/EffortDialog.js:65-74 | the final level is never negative; it is at least the task level minus Effort, assets and the skill's ease (tier minus one for an inability); when positive it equals that difference |
| `EffortDialog.TaskModifiers` | module/apps/EffortDialog.js:76-116 | rows come in the fixed order tier, inability, assets, Effort, at most one of each slot and at most 4 in all; a training row exists iff the skill's tier is 1, a specialization row iff it is 2, an inability row iff the skill has an inability, an asset row iff assets is non-zero, an Effort row iff Effort is non-zero; a training or specialization row is the skill's name followed by " training" or " specialization", with minus the tier as value; an inability row is the skill's name followed by " inability", with value "+ 1"; asset and Effort rows carry their own counts |
| `EffortDialog.Warning` | module/apps/EffortDialog.js:46-63 | three outcomes: missing stat iff no stat is set; insufficient pool iff a stat is set and the cost for the Effort level exceeds that pool's value; no warning iff a stat is set and the cost is within the pool |
| `EffortDialog.View` | module/apps/EffortDialog.js:135-163 | the warning text is the message of the current warning, if any, and the flag is set iff there is one; stat, skill and maximum Effort are copied; with no stat the cost is 0 and current and remaining are absent; with a stat, current is the pool value and remaining is current minus cost, which may be negative |
| `EffortDialog.Submit` | module/apps/EffortDialog.js:174-208 | fails with missing stat when no stat is set, and with insufficient pool when the cost exceeds the pool; it succeeds exactly otherwise; the request carries the Effort level and the final level and targets the skill if one is attached, else the stat; a deduction is emitted iff the cost is positive, for this actor and stat, with new value pool minus cost, which lies in [0, pool) |
| `EffortDialog.ApplyEdit` | module/apps/EffortDialog.js:210-230 | assets, Effort and task level are always copied; a newly named skill replaces the attached one with the lookup result and, if found, imposes its stat; otherwise a newly named stat is adopted and the skill stays; only when neither changed and the skill field is empty is the skill detached, with the stat kept |
| `EffortDialogProperties.ModifiersExplainLevel` | module/apps/EffortDialog.js:65-116 | for skill tiers 0-2, the final level is the task level plus the signed values shown in the modifier rows, floored at zero |
| `EffortDialogProperties.ModifierLabelsReadBack` | module/apps/EffortDialog.js:101-113 | the number in the asset row's label reads back as the asset count, and in the Effort row's label as the Effort level |
| `EffortDialogProperties.FinalLevelAntitone` | module/apps/EffortDialog.js:65-74 | spending more Effort or bringing more assets never raises the final level |
| `EffortDialogProperties.NewDialogCountsSkill` | module/apps/EffortDialog.js:31-74 | the level of a freshly opened dialog with a skill is 1 minus the tier, plus one for an inability, floored at zero |
| `EffortDialogProperties.WorkedExamples` | module/apps/EffortDialog.js:65-73 | task 5, Effort 2, 1 asset, no skill gives 2; task 3, Effort 1, no assets, a specialized skill with an inability gives 1 |
| `EffortDialogProperties.SubmitAgreesWithWarning` | module/apps/EffortDialog.js:174-185 | submission is refused exactly when the warning is shown, and for the reason that warning names |
| `EffortDialogProperties.ErrorMessagesDistinct` | module/apps/EffortDialog.js:49-59 | the two refusals have different messages |
| `EffortDialogProperties.SubmitMessageMatchesWarning` | module/apps/EffortDialog.js:178-185 | a refused submission reports the message the warning shows |
| `EffortDialogProperties.ShortfallShownIffRemainingNegative` | module/apps/EffortDialog.js:154-163 | the displayed remaining pool is negative exactly when the insufficient-pool warning is shown |
| `EffortDialogProperties.DeductionWritesDisplayedRemaining` | module/apps/EffortDialog.js:198-204 | the deduction writes exactly the remaining pool the dialog displayed |
| `EffortDialogProperties.RollUsesDisplayedLevel` | module/apps/EffortDialog.js:187-189 | the roll request asks for the displayed final level and Effort level |
| `EffortDialogProperties.UnchangedFormIsNoOp` | module/apps/EffortDialog.js:210-230 | resubmitting the form a configuration renders leaves it unchanged |
| `EffortDialogProperties.SkillAdoptionAlignsStat` | module/apps/EffortDialog.js:215-223 | adopting a found skill makes the stat equal to the skill's stat, whatever stat the form named |
| `EffortDialogProperties.StatEditLeavesSkillAttached` | module/apps/EffortDialog.js:224-226 | changing the stat while a skill is attached keeps that skill, so the stat no longer matches the skill's stat |
| `EffortDialogProperties.DeselectionKeepsStat` | module/apps/EffortDialog.js:224-230 | with the skill field empty, the skill is detached iff the stat was not changed (or no skill was attached); when the stat was not changed it keeps its last value |
| `Numerals.ParseIntInverse` | module/apps/EffortDialog.js:103-111 | reading back an integer written into a label gives that integer |
| `Numerals.IntToStringInjective` | module/apps/EffortDialog.js:103-111 | different integers are never written as the same label text |
| `Numerals.NatToString` | module/apps/EffortDialog.js:103-111 | a written natural number is a non-empty string of decimal digits with no leading zero |
| `EffortDialogAsWritten.NewDialogAsWritten` | module/apps/EffortDialog.js:31-44 | as written, the constructor stores the skill's id, not the skill, in the form object; assets and Effort start at 0 and the task level at 1; the stat is the same as in the corrected constructor |
| `EffortDialogAsWritten.FinalLevelAsWritten` | module/apps/EffortDialog.js:65-74 | as written, the getter fails exactly when the skill field holds a bare id, and otherwise yields a non-negative level |
| `EffortDialogAsWritten.FirstRenderFailsWithSkill` | module/apps/EffortDialog.js:38-70 | a dialog opened from a skill cannot compute its final level as written, while the corrected constructor keeps the skill |
| `EffortDialogAsWritten.AsWrittenLevelAgreesOnceLoaded` | module/apps/EffortDialog.js:65-74 | apart from the bare-id case, the getter as written agrees with `FinalLevel` |
| `EffortDialogAsWritten.EffortRowAsWrittenMislabels` | module/apps/EffortDialog.js:108-113 | as written, the Effort row's label states the asset count, so it is wrong whenever assets and Effort differ |
| `EffortDialogAsWritten.ShortfallReportedAsMissingStat` | module/apps/EffortDialog.js:184-185 | as written, a roll refused for lack of pool points is reported with a message that differs from the warning shown for it |

## Findings

| source | as written | input that shows it | evidently intended | confidence | as-written member | corrected member |
|---|---|---|---|---|---|---|
| module/apps/EffortDialog.js:38 | the constructor stores `skill._id`, yet `finalLevel` (:69) and `taskModifiers` (:80) read `skill.data.data` from that field | opening the dialog with any skill: reading `.data.data` of a string throws on the first render | store the skill item, as `_updateObject` does at :218 | medium; not executed | `EffortDialogAsWritten.FirstRenderFailsWithSkill` | `EffortDialog.NewDialog` |
| module/apps/EffortDialog.js:110 | the Effort row's title is the asset count followed by " Effort" | assets 0, Effort 2: the row is titled "0 Effort" but has value "- 2" | the Effort level followed by " Effort" | high; not executed | `EffortDialogAsWritten.EffortRowAsWrittenMislabels` | `EffortDialogProperties.ModifierLabelsReadBack` |
| module/apps/EffortDialog.js:185 | a roll refused for lack of pool points throws the missing-stat message | stat set, cost 7, pool 5: the thrown message asks for a stat | the insufficient-points message that the warning (:59) shows | high; not executed | `EffortDialogAsWritten.ShortfallReportedAsMissingStat` | `EffortDialogProperties.SubmitMessageMatchesWarning` |

## Left out

- Host plumbing is not modelled. This covers `defaultOptions` (:11-23), `activateListeners` (:168-172), the `render` call (:233) and the template path. It is interface glue to the host runtime.
- The skill choice list (:125-132) and `data.stats` (:124) are not modelled. They only copy host collections into the render data.
- The Effort cost table (`getEffortCostFromStat`) is not modelled. It belongs to the actor class, which is not part of this model, so it stays an uninterpreted function.
- Stat-name normalisation (`getShortStat`) is not modelled. It is in a file that is not part of this model, so stats are taken as already normalised. For the same reason, the model does not cover `getShortStat(null)` at :176, which runs before the missing-stat check.
- The dice roll and the pool write (`rollSkill`, `rollAttribute`, `actor.update`) are host calls and are not made. `Submit` returns the values that would be passed to them. The order of the calls and the fact that the update is not awaited are not modelled.
- The `cost: 0` field of the form object (:41) is not modelled. Nothing ever reads it, because the render data computes the cost afresh.
- Only integral numbers are modelled. Form fields are JavaScript numbers, which the model takes as unbounded integers. Fractional values, `NaN` and the exponent form that `toString` uses for very large values are outside the model.
- Truthiness is modelled as follows. An unselected or empty skill or stat field becomes `None`, and a skill id is never empty. A zero count counts as false, which is why rows are tested with `!= 0`, so negative counts still produce rows.
- EffortDialog.FormOf: assumes the template renders the skill field with the attached skill's id and the stat field with the current stat. The template is not part of this model. `UnchangedFormIsNoOp` and `EditReachesFixedPoint` hold only under this assumption.
- Edits on the object the constructor builds are not modelled. Such an object has a bare skill id, and its first render already fails (see "Findings"). If `_updateObject` did run on it, `this.object.skill._id` would be undefined, so the skill branch would fire and replace the id with the looked-up item. Edits are modelled only on the corrected configuration.
- `EffortDialogProperties.ModifiersExplainLevel`: this lemma assumes skill tiers 0 to 2. The code subtracts any tier from the level, but a tier outside 0 to 2 appears in no row.
- module/item/StrangeRecursionItem.js is not modelled. It only fills in default item fields inside the host's data-preparation lifecycle. Those defaults include an icon path and a localised name.
