/** The Roll-with-Effort dialog: a roll configuration (stat, optional skill,
    assets, Effort level, task level), the figures derived from it for display
    (final task level, modifier rows, cost and remaining pool, warning), the
    submission that turns it into a roll request plus an optional pool
    deduction, and the transition a form edit applies to it.

    The host's actor is reduced to the values the dialog reads from it: its
    id, its maximum Effort, the current value of each stat pool and its
    Effort cost table, the last two left uninterpreted. */
module EffortDialog {
  import opened Wrappers
  import opened Numerals

  /** Stat identifiers, already in the short form the actor's pools are keyed by. */
  datatype Stat = Might | Speed | Intellect

  /** A skill item's id. An empty id is falsy in JavaScript and stands for
      no skill, so it is `None` rather than a `SkillId`. */
  type SkillId = s: string | s != "" witness "a"

  /** An owned skill item: its training tier (0 untrained, 1 trained,
      2 specialized), whether it carries an inability, and its stat. */
  datatype Skill = Skill(id: SkillId, name: string, skillLevel: int, inability: bool, stat: Option<Stat>)

  datatype Actor = Actor(
    id: string,
    maxEffort: int,
    poolValue: Stat -> int,
    effortCost: (Stat, int) -> int)

  /** The dialog's form object. */
  datatype RollConfig = RollConfig(
    stat: Option<Stat>,
    skill: Option<Skill>,
    assets: int,
    currentEffort: int,
    taskLevel: int)

  /** The two reasons a configuration cannot be rolled. */
  datatype DialogError = MissingStat | InsufficientPool

  /** User-facing text of each error (one message per error). */
  function ErrorMessage(e: DialogError): string {
    match e
    case MissingStat => "You must provide a stat before using Effort"
    case InsufficientPool => "Insufficient points in this pool for this level of Effort"
  }

  // ---------------------------------------------------------------------
  // Opening the dialog
  // ---------------------------------------------------------------------

  /** The configuration a freshly opened dialog starts from: no assets, no
      Effort, task level 1, the initiating skill kept as a skill, and the
      stat taken from that skill when none was given. */
  function NewDialog(stat: Option<Stat>, skill: Option<Skill>): (c: RollConfig)
    ensures c.assets == 0 && c.currentEffort == 0 && c.taskLevel == 1
    ensures c.skill == skill
    ensures stat.Some? ==> c.stat == stat
    ensures stat.None? && skill.Some? ==> c.stat == skill.value.stat
    ensures stat.None? && skill.None? ==> c.stat.None?
  {
    var s := if stat.None? && skill.Some? then skill.value.stat else stat;
    RollConfig(s, skill, 0, 0, 1)
  }

  // ---------------------------------------------------------------------
  // Final task level
  // ---------------------------------------------------------------------

  /** How much the attached skill lowers the task: its training tier, less
      one for an inability. Zero without a skill. */
  function SkillEase(c: RollConfig): int {
    match c.skill
    case None => 0
    case Some(sk) => sk.skillLevel - (if sk.inability then 1 else 0)
  }

  /** The task level after Effort, assets and the skill, floored at zero. */
  function FinalLevel(c: RollConfig): (level: int)
    ensures level >= 0
    ensures level >= c.taskLevel - c.currentEffort - c.assets - SkillEase(c)
    ensures level > 0 ==> level == c.taskLevel - c.currentEffort - c.assets - SkillEase(c)
  {
    var raw := c.taskLevel - c.currentEffort - c.assets;
    var adjusted := if c.skill.Some? then
                      raw - c.skill.value.skillLevel + (if c.skill.value.inability then 1 else 0)
                    else raw;
    if adjusted > 0 then adjusted else 0
  }

  // ---------------------------------------------------------------------
  // Modifier rows
  // ---------------------------------------------------------------------

  /** Which modifier a display row stands for. The dialog's rows carry no
      such tag and differ only in their title text; the tag exists so that
      order and presence can be stated. */
  datatype ModifierKind = Training | Specialization | Inability | Assets | Effort

  datatype ModifierRow = ModifierRow(kind: ModifierKind, title: string, value: string)

  /** Position class of each kind in the list: training and specialization
      share the first slot. */
  function Rank(k: ModifierKind): nat {
    match k
    case Training => 0
    case Specialization => 0
    case Inability => 1
    case Assets => 2
    case Effort => 3
  }

  predicate HasKind(rows: seq<ModifierRow>, k: ModifierKind) {
    exists i :: 0 <= i < |rows| && rows[i].kind == k
  }

  predicate AllOfRank(rows: seq<ModifierRow>, n: nat) {
    forall i :: 0 <= i < |rows| ==> Rank(rows[i].kind) == n
  }

  predicate StrictlyRanked(rows: seq<ModifierRow>) {
    forall i, j :: 0 <= i < j < |rows| ==> Rank(rows[i].kind) < Rank(rows[j].kind)
  }

  function AssetsRow(c: RollConfig): ModifierRow {
    ModifierRow(Assets, IntToString(c.assets) + " Asset(s)", "- " + IntToString(c.assets))
  }

  /** The Effort row, labelled with the Effort level it subtracts. */
  function EffortRow(c: RollConfig): ModifierRow {
    ModifierRow(Effort, IntToString(c.currentEffort) + " Effort", "- " + IntToString(c.currentEffort))
  }

  /** The tier row of a trained skill: its name with " training", and minus its tier. */
  function TrainingRow(sk: Skill): ModifierRow {
    ModifierRow(Training, sk.name + " training", IntToString(-sk.skillLevel))
  }

  /** The tier row of a specialized skill: its name with " specialization", and minus its tier. */
  function SpecializationRow(sk: Skill): ModifierRow {
    ModifierRow(Specialization, sk.name + " specialization", IntToString(-sk.skillLevel))
  }

  /** The inability row: the skill's name with " inability", and plus one. */
  function InabilityRow(sk: Skill): ModifierRow {
    ModifierRow(Inability, sk.name + " inability", "+ 1")
  }

  /** The skill-tier row: present only for a trained (1) or specialized (2) skill. */
  function TierRows(c: RollConfig): (rows: seq<ModifierRow>)
    ensures |rows| <= 1 && AllOfRank(rows, 0)
    ensures |rows| == 1 <==> c.skill.Some? && (c.skill.value.skillLevel == 1 || c.skill.value.skillLevel == 2)
    ensures |rows| == 1 ==> rows[0].kind == (if c.skill.value.skillLevel == 1 then Training else Specialization)
    ensures forall row :: row in rows ==> Rank(row.kind) == 0
    ensures forall row :: row in rows ==>
              c.skill.Some? && row == (if row.kind == Training then TrainingRow(c.skill.value)
                                       else SpecializationRow(c.skill.value))
  {
    match c.skill
    case None => []
    case Some(sk) =>
      if sk.skillLevel == 1 then [TrainingRow(sk)]
      else if sk.skillLevel == 2 then [SpecializationRow(sk)]
      else []
  }

  function InabilityRows(c: RollConfig): (rows: seq<ModifierRow>)
    ensures |rows| <= 1 && AllOfRank(rows, 1)
    ensures |rows| == 1 <==> c.skill.Some? && c.skill.value.inability
    ensures forall row :: row in rows ==> row.kind == Inability
    ensures forall row :: row in rows ==> c.skill.Some? && row == InabilityRow(c.skill.value)
  {
    if c.skill.Some? && c.skill.value.inability then [InabilityRow(c.skill.value)]
    else []
  }

  function AssetsRows(c: RollConfig): (rows: seq<ModifierRow>)
    ensures |rows| <= 1 && AllOfRank(rows, 2)
    ensures |rows| == 1 <==> c.assets != 0
    ensures forall row :: row in rows ==> row == AssetsRow(c)
  {
    if c.assets != 0 then [AssetsRow(c)] else []
  }

  function EffortRows(c: RollConfig): (rows: seq<ModifierRow>)
    ensures |rows| <= 1 && AllOfRank(rows, 3)
    ensures |rows| == 1 <==> c.currentEffort != 0
    ensures forall row :: row in rows ==> row == EffortRow(c)
  {
    if c.currentEffort != 0 then [EffortRow(c)] else []
  }

  /** Whether a block of at most one row holds a row of kind `k`. */
  lemma HasKindSmall(block: seq<ModifierRow>, k: ModifierKind)
    requires |block| <= 1
    ensures HasKind(block, k) <==> |block| == 1 && block[0].kind == k
  {
  }

  /** A block of one rank joins in order after rows of lower rank. */
  lemma RankedJoin(a: seq<ModifierRow>, b: seq<ModifierRow>, n: nat)
    requires StrictlyRanked(a) && AllOfRank(b, n) && |b| <= 1
    requires forall i :: 0 <= i < |a| ==> Rank(a[i].kind) < n
    ensures StrictlyRanked(a + b)
  {
  }

  /** A kind occurs in a joined list exactly when it occurs in one part. */
  lemma HasKindJoin(a: seq<ModifierRow>, b: seq<ModifierRow>, k: ModifierKind)
    ensures HasKind(a + b, k) <==> HasKind(a, k) || HasKind(b, k)
  {
    if HasKind(a + b, k) {
      var i :| 0 <= i < |a + b| && (a + b)[i].kind == k;
      if i < |a| { assert a[i].kind == k; } else { assert b[i - |a|].kind == k; }
    }
    if HasKind(a, k) {
      var i :| 0 <= i < |a| && a[i].kind == k;
      assert (a + b)[i].kind == k;
    }
    if HasKind(b, k) {
      var i :| 0 <= i < |b| && b[i].kind == k;
      assert (a + b)[|a| + i].kind == k;
    }
  }

  /** Four blocks of ranks 0, 1, 2 and 3, each of at most one row, join into
      a strictly ranked list in which a kind occurs iff some block holds it. */
  lemma JoinFourBlocks(t: seq<ModifierRow>, n: seq<ModifierRow>, a: seq<ModifierRow>, e: seq<ModifierRow>, k: ModifierKind)
    requires |t| <= 1 && |n| <= 1 && |a| <= 1 && |e| <= 1
    requires AllOfRank(t, 0) && AllOfRank(n, 1) && AllOfRank(a, 2) && AllOfRank(e, 3)
    ensures StrictlyRanked(t + n + a + e)
    ensures HasKind(t + n + a + e, k) <==>
              (|t| == 1 && t[0].kind == k) || (|n| == 1 && n[0].kind == k) ||
              (|a| == 1 && a[0].kind == k) || (|e| == 1 && e[0].kind == k)
  {
    RankedJoin(t, n, 1);
    RankedJoin(t + n, a, 2);
    RankedJoin(t + n + a, e, 3);
    HasKindJoin(t, n, k);
    HasKindJoin(t + n, a, k);
    HasKindJoin(t + n + a, e, k);
    HasKindSmall(t, k);
    HasKindSmall(n, k);
    HasKindSmall(a, k);
    HasKindSmall(e, k);
  }

  /** Which kinds occur in the joined blocks of a configuration. */
  lemma BlockKinds(c: RollConfig)
    ensures var rows := TierRows(c) + InabilityRows(c) + AssetsRows(c) + EffortRows(c);
      && StrictlyRanked(rows)
      && (HasKind(rows, Training) <==> c.skill.Some? && c.skill.value.skillLevel == 1)
      && (HasKind(rows, Specialization) <==> c.skill.Some? && c.skill.value.skillLevel == 2)
      && (HasKind(rows, Inability) <==> c.skill.Some? && c.skill.value.inability)
      && (HasKind(rows, Assets) <==> c.assets != 0)
      && (HasKind(rows, Effort) <==> c.currentEffort != 0)
  {
    var t, n, a, e := TierRows(c), InabilityRows(c), AssetsRows(c), EffortRows(c);
    JoinFourBlocks(t, n, a, e, Training);
    JoinFourBlocks(t, n, a, e, Specialization);
    JoinFourBlocks(t, n, a, e, Inability);
    JoinFourBlocks(t, n, a, e, Assets);
    JoinFourBlocks(t, n, a, e, Effort);
  }

  /** The only tier and inability rows in the joined blocks are the ones
      built from the attached skill. */
  lemma SkillBlockContents(c: RollConfig)
    ensures var rows := TierRows(c) + InabilityRows(c) + AssetsRows(c) + EffortRows(c);
      && (forall row :: row in rows && row.kind == Training ==> c.skill.Some? && row == TrainingRow(c.skill.value))
      && (forall row :: row in rows && row.kind == Specialization ==>
            c.skill.Some? && row == SpecializationRow(c.skill.value))
      && (forall row :: row in rows && row.kind == Inability ==> c.skill.Some? && row == InabilityRow(c.skill.value))
  {
    var t, n, a, e := TierRows(c), InabilityRows(c), AssetsRows(c), EffortRows(c);
    forall row: ModifierRow | row in t + n + a + e && Rank(row.kind) < 2
      ensures row in t || row in n
    {
    }
  }

  /** The only asset and Effort rows in the joined blocks are the ones built
      from the configuration's own counts. */
  lemma BlockContents(c: RollConfig)
    ensures var rows := TierRows(c) + InabilityRows(c) + AssetsRows(c) + EffortRows(c);
      && (forall row :: row in rows && row.kind == Assets ==> row == AssetsRow(c))
      && (forall row :: row in rows && row.kind == Effort ==> row == EffortRow(c))
  {
  }

  /** The rows explaining the final task level, in display order: skill
      tier, inability, assets, Effort. */
  function TaskModifiers(c: RollConfig): (rows: seq<ModifierRow>)
    ensures StrictlyRanked(rows)
    ensures |rows| <= 4
    ensures HasKind(rows, Training) <==> c.skill.Some? && c.skill.value.skillLevel == 1
    ensures HasKind(rows, Specialization) <==> c.skill.Some? && c.skill.value.skillLevel == 2
    ensures HasKind(rows, Inability) <==> c.skill.Some? && c.skill.value.inability
    ensures HasKind(rows, Assets) <==> c.assets != 0
    ensures HasKind(rows, Effort) <==> c.currentEffort != 0
    ensures forall row :: row in rows && row.kind == Training ==> c.skill.Some? && row == TrainingRow(c.skill.value)
    ensures forall row :: row in rows && row.kind == Specialization ==>
              c.skill.Some? && row == SpecializationRow(c.skill.value)
    ensures forall row :: row in rows && row.kind == Inability ==> c.skill.Some? && row == InabilityRow(c.skill.value)
    ensures forall row :: row in rows && row.kind == Assets ==> row == AssetsRow(c)
    ensures forall row :: row in rows && row.kind == Effort ==> row == EffortRow(c)
  {
    BlockKinds(c);
    SkillBlockContents(c);
    BlockContents(c);
    TierRows(c) + InabilityRows(c) + AssetsRows(c) + EffortRows(c)
  }

  // ---------------------------------------------------------------------
  // Affordability, display and submission
  // ---------------------------------------------------------------------

  /** Effort cost of the configuration: the actor's table entry for the
      stat and Effort level, or zero when no stat is chosen. */
  function Cost(c: RollConfig, actor: Actor): int {
    match c.stat
    case None => 0
    case Some(s) => actor.effortCost(s, c.currentEffort)
  }

  /** The warning shown while editing. */
  function Warning(c: RollConfig, actor: Actor): (w: Option<DialogError>)
    ensures w == Some(MissingStat) <==> c.stat.None?
    ensures w == Some(InsufficientPool) <==>
              c.stat.Some? && actor.effortCost(c.stat.value, c.currentEffort) > actor.poolValue(c.stat.value)
    ensures w.None? <==>
              c.stat.Some? && actor.effortCost(c.stat.value, c.currentEffort) <= actor.poolValue(c.stat.value)
  {
    match c.stat
    case None => Some(MissingStat)
    case Some(s) =>
      if actor.effortCost(s, c.currentEffort) > actor.poolValue(s) then Some(InsufficientPool) else None
  }

  /** The figures the dialog renders. */
  datatype DialogView = DialogView(
    stat: Option<Stat>,
    skill: Option<Skill>,
    warning: Option<string>,
    displayWarning: bool,
    assets: int,
    currentEffort: int,
    maxEffortLevel: int,
    taskLevel: int,
    finalLevel: int,
    taskModifiers: seq<ModifierRow>,
    cost: int,
    current: Option<int>,
    remaining: Option<int>)

  function WarningText(c: RollConfig, actor: Actor): Option<string> {
    match Warning(c, actor)
    case None => None
    case Some(e) => Some(ErrorMessage(e))
  }

  /** The render data of the dialog (the owned-skill choice list aside). */
  function View(c: RollConfig, actor: Actor): (v: DialogView)
    ensures v.warning == WarningText(c, actor)
    ensures v.displayWarning <==> Warning(c, actor).Some?
    ensures v.stat == c.stat && v.skill == c.skill && v.maxEffortLevel == actor.maxEffort
    ensures v.finalLevel == FinalLevel(c) && v.taskModifiers == TaskModifiers(c)
    ensures v.assets == c.assets && v.currentEffort == c.currentEffort && v.taskLevel == c.taskLevel
    ensures c.stat.None? ==> v.cost == 0 && v.current.None? && v.remaining.None?
    ensures c.stat.Some? ==>
              && v.current == Some(actor.poolValue(c.stat.value))
              && v.cost == actor.effortCost(c.stat.value, c.currentEffort)
              && v.remaining == Some(v.current.value - v.cost)
  {
    var w := WarningText(c, actor);
    var current := if c.stat.Some? then Some(actor.poolValue(c.stat.value)) else None;
    var remaining := if c.stat.Some? then Some(actor.poolValue(c.stat.value) - Cost(c, actor)) else None;
    DialogView(c.stat, c.skill, w, w.Some?, c.assets, c.currentEffort, actor.maxEffort,
               c.taskLevel, FinalLevel(c), TaskModifiers(c), Cost(c, actor), current, remaining)
  }

  /** What the roll is made against: the skill when one is attached,
      otherwise the bare stat. */
  datatype RollTarget = SkillRoll(skill: Skill) | AttributeRoll(stat: Stat)

  datatype RollRequest = RollRequest(target: RollTarget, effortLevel: int, taskLevel: int)

  /** The pool write the actor store is asked to perform. */
  datatype PoolDeduction = PoolDeduction(actorId: string, stat: Stat, newValue: int)

  datatype Submission = Submission(roll: RollRequest, deduction: Option<PoolDeduction>)

  /** Rolling with Effort: re-checks the stat and the pool, then requests the
      roll and, for a positive cost only, the pool deduction. */
  function Submit(c: RollConfig, actor: Actor): (r: Result<Submission, DialogError>)
    ensures c.stat.None? ==> r == Err(MissingStat)
    ensures c.stat.Some? && Cost(c, actor) > actor.poolValue(c.stat.value) ==> r == Err(InsufficientPool)
    ensures r.Ok? <==> c.stat.Some? && Cost(c, actor) <= actor.poolValue(c.stat.value)
    ensures r.Ok? ==>
              && r.value.roll.effortLevel == c.currentEffort
              && r.value.roll.taskLevel == FinalLevel(c)
              && r.value.roll.taskLevel >= 0
    ensures r.Ok? && c.skill.Some? ==> r.value.roll.target == SkillRoll(c.skill.value)
    ensures r.Ok? && c.skill.None? ==> r.value.roll.target == AttributeRoll(c.stat.value)
    ensures r.Ok? ==> (r.value.deduction.Some? <==> Cost(c, actor) > 0)
    ensures r.Ok? && r.value.deduction.Some? ==>
              && r.value.deduction.value.actorId == actor.id
              && r.value.deduction.value.stat == c.stat.value
              && r.value.deduction.value.newValue == actor.poolValue(c.stat.value) - Cost(c, actor)
              && 0 <= r.value.deduction.value.newValue < actor.poolValue(c.stat.value)
  {
    match c.stat
    case None => Err(MissingStat)
    case Some(s) =>
      var pool := actor.poolValue(s);
      var cost := actor.effortCost(s, c.currentEffort);
      if cost > pool then Err(InsufficientPool)
      else
        var target := if c.skill.Some? then SkillRoll(c.skill.value) else AttributeRoll(s);
        var roll := RollRequest(target, c.currentEffort, FinalLevel(c));
        var deduction := if cost <= 0 then None else Some(PoolDeduction(actor.id, s, pool - cost));
        Ok(Submission(roll, deduction))
  }

  // ---------------------------------------------------------------------
  // Form edits
  // ---------------------------------------------------------------------

  /** The values a form edit submits; an unselected skill or stat is None. */
  datatype FormData = FormData(
    assets: int,
    currentEffort: int,
    taskLevel: int,
    skill: Option<SkillId>,
    stat: Option<Stat>)

  /** The form names a skill other than the attached one. */
  predicate SkillChanged(c: RollConfig, f: FormData) {
    f.skill.Some? && (c.skill.None? || f.skill.value != c.skill.value.id)
  }

  /** The form names a stat other than the current one. */
  predicate StatChanged(c: RollConfig, f: FormData) {
    f.stat.Some? && f.stat != c.stat
  }

  /** A form edit. The numeric fields are always copied; then, first match
      wins: a newly named skill is looked up among the actor's items and, if
      found, imposes its stat; else a newly named stat is adopted, whatever
      skill stays attached; else an empty skill field detaches the skill. */
  function ApplyEdit(c: RollConfig, f: FormData, lookup: SkillId -> Option<Skill>): (r: RollConfig)
    ensures r.assets == f.assets && r.currentEffort == f.currentEffort && r.taskLevel == f.taskLevel
    ensures SkillChanged(c, f) ==>
              && r.skill == lookup(f.skill.value)
              && r.stat == (if r.skill.Some? then r.skill.value.stat else c.stat)
    ensures !SkillChanged(c, f) && StatChanged(c, f) ==> r.stat == f.stat && r.skill == c.skill
    ensures !SkillChanged(c, f) && !StatChanged(c, f) ==> r.stat == c.stat
    ensures !SkillChanged(c, f) && !StatChanged(c, f) && f.skill.None? ==> r.skill.None?
    ensures !SkillChanged(c, f) && f.skill.Some? ==> r.skill == c.skill
  {
    var numeric := c.(assets := f.assets, currentEffort := f.currentEffort, taskLevel := f.taskLevel);
    if SkillChanged(c, f) then
      var found := lookup(f.skill.value);
      if found.Some? then numeric.(skill := found, stat := found.value.stat)
      else numeric.(skill := None)
    else if StatChanged(c, f) then
      numeric.(stat := f.stat)
    else if f.skill.None? then
      numeric.(skill := None)
    else
      numeric
  }

  /** The form as rendered from a configuration. */
  function FormOf(c: RollConfig): FormData {
    FormData(c.assets, c.currentEffort, c.taskLevel,
             if c.skill.Some? then Some(c.skill.value.id) else None,
             c.stat)
  }
}
