/** Three places where the dialog's code does something other than what it
    evidently means, each modelled as written and set against the corrected
    behaviour that the rest of the model uses. */
module EffortDialogAsWritten {
  import opened Wrappers
  import opened Numerals
  import opened EffortDialog
  import opened EffortDialogProperties

  // ---------------------------------------------------------------------
  // The constructor keeps only the initiating skill's id
  // ---------------------------------------------------------------------

  /** What the form object's `skill` field holds: nothing, the bare id the
      constructor stores, or the skill item a form edit looks up. */
  datatype SkillSlot = NoSkill | SkillIdOnly(id: SkillId) | SkillObject(skill: Skill)

  /** The host fault raised by reading a property of `undefined`. */
  datatype HostFault = TypeError

  datatype FormObjectAsWritten = FormObjectAsWritten(
    stat: Option<Stat>,
    slot: SkillSlot,
    assets: int,
    currentEffort: int,
    taskLevel: int)

  /** The constructor as written: the stat defaults to the skill's stat, but
      the skill itself is replaced by its id. */
  function NewDialogAsWritten(stat: Option<Stat>, skill: Option<Skill>): (o: FormObjectAsWritten)
    ensures skill.Some? ==> o.slot == SkillIdOnly(skill.value.id)
    ensures o.assets == 0 && o.currentEffort == 0 && o.taskLevel == 1
    ensures skill.None? ==> o.slot == NoSkill
    ensures o.stat == NewDialog(stat, skill).stat
  {
    var s := if stat.None? && skill.Some? then skill.value.stat else stat;
    FormObjectAsWritten(s, if skill.Some? then SkillIdOnly(skill.value.id) else NoSkill, 0, 0, 1)
  }

  /** The final-level getter as written: it reads the skill's tier through
      the `skill` field, which fails when that field holds a bare id. */
  function FinalLevelAsWritten(o: FormObjectAsWritten): (r: Result<int, HostFault>)
    ensures r.Err? <==> o.slot.SkillIdOnly?
    ensures r.Ok? ==> r.value >= 0
  {
    var raw := o.taskLevel - o.currentEffort - o.assets;
    match o.slot
    case NoSkill => Ok(Max0(raw))
    case SkillIdOnly(_) => Err(TypeError)
    case SkillObject(sk) => Ok(Max0(raw - sk.skillLevel + (if sk.inability then 1 else 0)))
  }

  /** The configuration a form object stands for once its skill is an item. */
  function Loaded(o: FormObjectAsWritten): RollConfig
    requires !o.slot.SkillIdOnly?
  {
    RollConfig(o.stat, if o.slot.SkillObject? then Some(o.slot.skill) else None,
               o.assets, o.currentEffort, o.taskLevel)
  }

  /** Opening the dialog from a skill leaves a form object whose final level
      cannot be computed, so the first render fails; the corrected
      constructor keeps the skill and its level is defined and counts it. */
  lemma FirstRenderFailsWithSkill(stat: Option<Stat>, sk: Skill)
    ensures FinalLevelAsWritten(NewDialogAsWritten(stat, Some(sk))) == Err(TypeError)
    ensures NewDialog(stat, Some(sk)).skill == Some(sk)
    ensures NewDialog(stat, Some(sk)).stat == NewDialogAsWritten(stat, Some(sk)).stat
  {
  }

  /** Apart from the bare-id case, the getter as written computes the same
      level as the model's final level. */
  lemma AsWrittenLevelAgreesOnceLoaded(o: FormObjectAsWritten)
    requires !o.slot.SkillIdOnly?
    ensures FinalLevelAsWritten(o) == Ok(FinalLevel(Loaded(o)))
  {
  }

  // ---------------------------------------------------------------------
  // The Effort row is labelled with the asset count
  // ---------------------------------------------------------------------

  function EffortRowAsWritten(c: RollConfig): ModifierRow {
    ModifierRow(Effort, IntToString(c.assets) + " Effort", "- " + IntToString(c.currentEffort))
  }

  /** As written, the Effort row's label names the asset count, so whenever
      the two counts differ the label does not state the Effort level. */
  lemma EffortRowAsWrittenMislabels(c: RollConfig)
    requires c.assets != c.currentEffort
    ensures CountInLabel(EffortRowAsWritten(c).title, " Effort") == Some(c.assets)
    ensures CountInLabel(EffortRowAsWritten(c).title, " Effort") != Some(c.currentEffort)
    ensures CountInLabel(EffortRow(c).title, " Effort") == Some(c.currentEffort)
  {
    CountInLabelOf(c.assets, " Effort");
    ModifierLabelsReadBack(c);
  }

  // ---------------------------------------------------------------------
  // Submission reports a shortfall as a missing stat
  // ---------------------------------------------------------------------

  /** The message submission throws, as written: the missing-stat text for
      both refusals. */
  function SubmitMessageAsWritten(e: DialogError): string {
    ErrorMessage(MissingStat)
  }

  /** As written, a refused roll for lack of pool points is reported with a
      message that differs from the warning the dialog shows for it. */
  lemma ShortfallReportedAsMissingStat(c: RollConfig, actor: Actor)
    requires Submit(c, actor) == Err(InsufficientPool)
    ensures WarningText(c, actor) == Some(ErrorMessage(InsufficientPool))
    ensures SubmitMessageAsWritten(Submit(c, actor).error) != WarningText(c, actor).value
  {
  }
}
