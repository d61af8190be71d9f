/** Properties that relate the dialog's operations to one another: the
    modifier rows against the final level, the warning against submission
    and the displayed pool figures, and form edits against the form that a
    configuration renders. */
module EffortDialogProperties {
  import opened Wrappers
  import opened Numerals
  import opened EffortDialog

  // ---------------------------------------------------------------------
  // Reading the modifier rows back
  // ---------------------------------------------------------------------

  /** The signed amount a displayed modifier value stands for: "- N" and
      "+ N" as written by the asset, Effort and inability rows, or a bare
      signed numeral as written by the skill-tier row. */
  function ModifierDelta(value: string): int {
    if |value| >= 2 && value[..2] == "- " then -ParseInt(value[2..])
    else if |value| >= 2 && value[..2] == "+ " then ParseInt(value[2..])
    else ParseInt(value)
  }

  function SumDeltas(rows: seq<ModifierRow>): int
    decreases |rows|
  {
    if |rows| == 0 then 0 else ModifierDelta(rows[0].value) + SumDeltas(rows[1..])
  }

  lemma {:induction false} SumDeltasJoin(a: seq<ModifierRow>, b: seq<ModifierRow>)
    ensures SumDeltas(a + b) == SumDeltas(a) + SumDeltas(b)
    decreases |a|
  {
    if |a| > 0 {
      assert (a + b)[0] == a[0];
      assert (a + b)[1..] == a[1..] + b;
      SumDeltasJoin(a[1..], b);
    } else {
      assert a + b == b;
    }
  }

  /** "- N" reads back as minus N. */
  lemma MinusValueDelta(n: int)
    ensures ModifierDelta("- " + IntToString(n)) == -n
  {
    var v := "- " + IntToString(n);
    assert v[..2] == "- ";
    assert v[2..] == IntToString(n);
    ParseIntInverse(n);
  }

  /** The tier row's value for a trained or specialized skill reads back as
      minus its tier. */
  lemma TierValueDelta(level: int)
    requires level == 1 || level == 2
    ensures ModifierDelta(IntToString(-level)) == -level
  {
    var v := IntToString(-level);
    assert v == "-" + NatToString(level);
    assert v[1] == DigitChar(level);
    ParseIntInverse(-level);
  }

  /** The skill-tier row reads back as minus the tier. */
  lemma TierRowsDelta(c: RollConfig)
    requires c.skill.Some? ==> 0 <= c.skill.value.skillLevel <= 2
    ensures SumDeltas(TierRows(c)) == -(if c.skill.Some? then c.skill.value.skillLevel else 0)
  {
    if c.skill.Some? && (c.skill.value.skillLevel == 1 || c.skill.value.skillLevel == 2) {
      TierValueDelta(c.skill.value.skillLevel);
    }
  }

  /** The inability row reads back as plus one. */
  lemma InabilityRowsDelta(c: RollConfig)
    ensures SumDeltas(InabilityRows(c)) == (if c.skill.Some? && c.skill.value.inability then 1 else 0)
  {
    if c.skill.Some? && c.skill.value.inability {
      assert "+ 1"[..2] == "+ " && "+ 1"[2..] == IntToString(1);
      ParseIntInverse(1);
    }
  }

  /** The asset and Effort rows read back as minus their counts. */
  lemma CountRowsDelta(c: RollConfig)
    ensures SumDeltas(AssetsRows(c)) == -c.assets
    ensures SumDeltas(EffortRows(c)) == -c.currentEffort
  {
    MinusValueDelta(c.assets);
    MinusValueDelta(c.currentEffort);
  }

  /** The rows displayed by the dialog add up to the adjustment applied to
      the task level: the final level is the task level plus the signed
      values of the rows, floored at zero. Holds for every skill whose tier
      is 0, 1 or 2 (a tier outside that range is subtracted but shown in no
      row). */
  lemma ModifiersExplainLevel(c: RollConfig)
    requires c.skill.Some? ==> 0 <= c.skill.value.skillLevel <= 2
    ensures FinalLevel(c) == Max0(c.taskLevel + SumDeltas(TaskModifiers(c)))
  {
    BlocksDelta(c);
    assert TaskModifiers(c) == TierRows(c) + InabilityRows(c) + AssetsRows(c) + EffortRows(c);
  }

  /** The four blocks of rows add up to minus the skill's ease, the assets
      and the Effort. */
  lemma BlocksDelta(c: RollConfig)
    requires c.skill.Some? ==> 0 <= c.skill.value.skillLevel <= 2
    ensures SumDeltas(TierRows(c) + InabilityRows(c) + AssetsRows(c) + EffortRows(c))
            == -SkillEase(c) - c.assets - c.currentEffort
  {
    var t, n, a, e := TierRows(c), InabilityRows(c), AssetsRows(c), EffortRows(c);
    SumDeltasJoin(t, n);
    SumDeltasJoin(t + n, a);
    SumDeltasJoin(t + n + a, e);
    TierRowsDelta(c);
    InabilityRowsDelta(c);
    CountRowsDelta(c);
  }

  function Max0(x: int): int {
    if x > 0 then x else 0
  }

  /** The count at the head of a label "N<suffix>", when the label has that suffix. */
  function CountInLabel(title: string, suffix: string): Option<int> {
    if |suffix| <= |title| && title[|title| - |suffix|..] == suffix then
      Some(ParseInt(title[..|title| - |suffix|]))
    else None
  }

  lemma CountInLabelOf(n: int, suffix: string)
    ensures CountInLabel(IntToString(n) + suffix, suffix) == Some(n)
  {
    var title := IntToString(n) + suffix;
    assert title[|title| - |suffix|..] == suffix;
    assert title[..|title| - |suffix|] == IntToString(n);
    ParseIntInverse(n);
  }

  /** The asset row is labelled with the asset count and the Effort row with
      the Effort level. */
  lemma ModifierLabelsReadBack(c: RollConfig)
    ensures CountInLabel(AssetsRow(c).title, " Asset(s)") == Some(c.assets)
    ensures CountInLabel(EffortRow(c).title, " Effort") == Some(c.currentEffort)
  {
    CountInLabelOf(c.assets, " Asset(s)");
    CountInLabelOf(c.currentEffort, " Effort");
  }

  // ---------------------------------------------------------------------
  // Final level
  // ---------------------------------------------------------------------

  /** Spending more Effort or bringing more assets never makes the task harder. */
  lemma FinalLevelAntitone(c: RollConfig, moreEffort: nat, moreAssets: nat)
    ensures FinalLevel(c.(currentEffort := c.currentEffort + moreEffort, assets := c.assets + moreAssets))
            <= FinalLevel(c)
  {
  }

  /** A freshly opened dialog already counts its initiating skill. */
  lemma NewDialogCountsSkill(stat: Option<Stat>, sk: Skill)
    ensures FinalLevel(NewDialog(stat, Some(sk))) == Max0(1 - sk.skillLevel + (if sk.inability then 1 else 0))
  {
  }

  lemma WorkedExamples(might: Stat)
    ensures FinalLevel(RollConfig(None, None, 1, 2, 5)) == 2
    ensures FinalLevel(RollConfig(None, Some(Skill("s", "Climbing", 2, true, Some(might))), 0, 1, 3)) == 1
  {
  }

  // ---------------------------------------------------------------------
  // Warning, display and submission
  // ---------------------------------------------------------------------

  /** Submission is refused exactly when the dialog shows a warning, and
      for the reason the warning names. */
  lemma SubmitAgreesWithWarning(c: RollConfig, actor: Actor)
    ensures Submit(c, actor).Err? <==> Warning(c, actor).Some?
    ensures Submit(c, actor).Err? ==> Warning(c, actor) == Some(Submit(c, actor).error)
  {
  }

  /** The two errors carry different messages. */
  lemma ErrorMessagesDistinct(e1: DialogError, e2: DialogError)
    ensures ErrorMessage(e1) == ErrorMessage(e2) ==> e1 == e2
  {
  }

  /** A refused submission reports the same message the dialog's warning shows. */
  lemma SubmitMessageMatchesWarning(c: RollConfig, actor: Actor)
    requires Submit(c, actor).Err?
    ensures WarningText(c, actor) == Some(ErrorMessage(Submit(c, actor).error))
  {
  }

  /** The pool-shortfall warning is shown exactly when the displayed
      remaining pool is negative. */
  lemma ShortfallShownIffRemainingNegative(c: RollConfig, actor: Actor)
    ensures (View(c, actor).remaining.Some? && View(c, actor).remaining.value < 0)
            <==> Warning(c, actor) == Some(InsufficientPool)
  {
  }

  /** A deduction writes exactly the remaining pool that the dialog displayed. */
  lemma DeductionWritesDisplayedRemaining(c: RollConfig, actor: Actor)
    requires Submit(c, actor).Ok? && Submit(c, actor).value.deduction.Some?
    ensures View(c, actor).remaining == Some(Submit(c, actor).value.deduction.value.newValue)
  {
  }

  /** The roll request asks for the final level the dialog displayed. */
  lemma RollUsesDisplayedLevel(c: RollConfig, actor: Actor)
    requires Submit(c, actor).Ok?
    ensures Submit(c, actor).value.roll.taskLevel == View(c, actor).finalLevel
    ensures Submit(c, actor).value.roll.effortLevel == View(c, actor).currentEffort
  {
  }

  // ---------------------------------------------------------------------
  // Form edits
  // ---------------------------------------------------------------------

  /** The stat agrees with the attached skill's stat. */
  predicate StatFollowsSkill(c: RollConfig) {
    c.skill.Some? ==> c.stat == c.skill.value.stat
  }

  /** Resubmitting the form a configuration renders changes nothing. */
  lemma UnchangedFormIsNoOp(c: RollConfig, lookup: SkillId -> Option<Skill>)
    ensures ApplyEdit(c, FormOf(c), lookup) == c
  {
  }

  /** After any edit, the re-rendered form resubmitted changes nothing more. */
  lemma EditReachesFixedPoint(c: RollConfig, f: FormData, lookup: SkillId -> Option<Skill>)
    ensures var r := ApplyEdit(c, f, lookup); ApplyEdit(r, FormOf(r), lookup) == r
  {
    UnchangedFormIsNoOp(ApplyEdit(c, f, lookup), lookup);
  }

  /** Adopting a found skill makes the stat follow it, whatever stat the form named. */
  lemma SkillAdoptionAlignsStat(c: RollConfig, f: FormData, lookup: SkillId -> Option<Skill>)
    requires SkillChanged(c, f) && lookup(f.skill.value).Some?
    ensures StatFollowsSkill(ApplyEdit(c, f, lookup))
    ensures ApplyEdit(c, f, lookup).skill == lookup(f.skill.value)
  {
  }

  /** A stat change with the skill still attached, or with the skill field
      emptied in the same edit, keeps the skill and so parts the stat from it. */
  lemma StatEditLeavesSkillAttached(c: RollConfig, f: FormData, lookup: SkillId -> Option<Skill>)
    requires c.skill.Some? && StatFollowsSkill(c)
    requires !SkillChanged(c, f) && StatChanged(c, f)
    ensures ApplyEdit(c, f, lookup).skill == c.skill
    ensures !StatFollowsSkill(ApplyEdit(c, f, lookup))
  {
  }

  /** Emptying the skill field detaches the skill only when the stat was left
      as it was, and the stat then keeps its last value. */
  lemma DeselectionKeepsStat(c: RollConfig, f: FormData, lookup: SkillId -> Option<Skill>)
    requires f.skill.None?
    ensures ApplyEdit(c, f, lookup).skill.None? <==> !StatChanged(c, f) || c.skill.None?
    ensures !StatChanged(c, f) ==> ApplyEdit(c, f, lookup).stat == c.stat
  {
  }
}
