/**
 * Record factories, activity validation and the competency progression
 * rules: evidence-completion percentage, per-level requirements and
 * level-up eligibility against the next level.
 *
 * Identifier generation and "today" are not computed here: the factories
 * take the fresh id and the current date as parameters.
 */
module Pdr {
  import opened Records
  import opened Counting

  // ---------------------------------------------------------------------
  // Record factory
  // ---------------------------------------------------------------------

  /** `createActivity`: defaults first, then every field the caller supplied. */
  function CreateActivity(freshId: string, today: string, data: ActivityPatch): (r: Activity)
    ensures data.id.None? ==> r.id == freshId
    ensures data.activityType.None? ==> r.activityType == Training
    ensures data.title.None? ==> r.title == ""
    ensures data.description.None? ==> r.description == ""
    ensures data.dateCompleted.None? ==> r.dateCompleted == today
    ensures data.provider.None? ==> r.provider == ""
    ensures data.documentation.None? ==> r.documentation == []
    ensures data.status.None? ==> r.status == Pending
    ensures data.competencies.None? ==> r.competencies == []
    ensures data.reflection.None? ==> r.reflection.None?
    // every supplied field, the id included, already wins over its default
    ensures MergeActivity(r, data) == r
  {
    MergeActivity(Activity(freshId, Training, "", "", today, "", [], Pending, [], None), data)
  }

  /** `createCompetency`: a beginner, in-progress competency with no evidence unless supplied. */
  function CreateCompetency(freshId: string, data: CompetencyPatch): (r: Competency)
    ensures data.id.None? ==> r.id == freshId
    ensures data.name.None? ==> r.name == ""
    ensures data.description.None? ==> r.description == ""
    ensures data.level.None? ==> r.level == Beginner
    ensures data.status.None? ==> r.status == InProgress
    ensures data.evidence.None? ==> r.evidence == []
    ensures MergeCompetency(r, data) == r
  {
    MergeCompetency(Competency(freshId, "", "", Beginner, InProgress, []), data)
  }

  /** `createProfile`: empty identity fields and lists, joined today, unless supplied. */
  function CreateProfile(freshId: string, today: string, data: ProfilePatch): (r: UserProfile)
    ensures data.id.None? ==> r.id == freshId
    ensures data.name.None? ==> r.name == ""
    ensures data.role.None? ==> r.role == ""
    ensures data.department.None? ==> r.department == ""
    ensures data.joinedDate.None? ==> r.joinedDate == today
    ensures data.supervisor.None? ==> r.supervisor == ""
    ensures data.currentGoals.None? ==> r.currentGoals == []
    ensures data.competencies.None? ==> r.competencies == []
    ensures data.certifications.None? ==> r.certifications == []
    ensures MergeProfile(r, data) == r
  {
    MergeProfile(UserProfile(freshId, "", "", "", today, "", [], [], []), data)
  }

  // ---------------------------------------------------------------------
  // Validator
  // ---------------------------------------------------------------------

  /** `validateActivity`: the four required text fields are all non-empty. */
  predicate ValidateActivity(a: Activity) {
    a.title != "" && a.description != "" && a.dateCompleted != "" && a.provider != ""
  }

  /**
   * A freshly created activity is valid exactly when the caller supplied a
   * non-empty title, description and provider, and the completion date
   * (supplied, or today) is non-empty. In particular the defaults alone never
   * make a valid activity.
   */
  lemma CreatedActivityValidity(freshId: string, today: string, data: ActivityPatch)
    ensures ValidateActivity(CreateActivity(freshId, today, data)) <==>
      && data.title.Some? && data.title.value != ""
      && data.description.Some? && data.description.value != ""
      && data.provider.Some? && data.provider.value != ""
      && GetOr(data.dateCompleted, today) != ""
    ensures data.title.None? || data.description.None? || data.provider.None? ==>
      !ValidateActivity(CreateActivity(freshId, today, data))
  {
  }

  /**
   * Validity under the store's update spread: a patch that leaves all four
   * required fields absent (a status change, say) never changes validity,
   * and a patch that supplies all four non-empty always yields a valid record.
   */
  lemma ValidityUnderMerge(a: Activity, p: ActivityPatch)
    ensures p.title.None? && p.description.None? && p.dateCompleted.None? && p.provider.None? ==>
      ValidateActivity(MergeActivity(a, p)) == ValidateActivity(a)
    ensures (&& p.title.Some? && p.title.value != ""
             && p.description.Some? && p.description.value != ""
             && p.dateCompleted.Some? && p.dateCompleted.value != ""
             && p.provider.Some? && p.provider.value != "") ==>
      ValidateActivity(MergeActivity(a, p))
    ensures p.title == Some("") || p.description == Some("") || p.dateCompleted == Some("") || p.provider == Some("") ==>
      !ValidateActivity(MergeActivity(a, p))
  {
  }

  // ---------------------------------------------------------------------
  // Progression engine
  // ---------------------------------------------------------------------

  predicate IsVerifiedActivity(a: Activity) {
    a.status == ActivityStatus.Verified
  }

  /** Number of evidence items whose own status is `verified`. */
  function VerifiedCount(evidence: seq<Activity>): nat {
    Count(evidence, IsVerifiedActivity)
  }

  /**
   * `p` is `100 * verified / total` rounded half up to an integer:
   * p - 1/2 <= 100 * verified / total < p + 1/2.
   */
  predicate IsRoundedPercent(verified: nat, total: nat, p: int) {
    2 * total * p <= 200 * verified + total < 2 * total * p + 2 * total
  }

  /** Multiplying by a positive factor keeps a non-strict order. */
  lemma MulMonotone(d: int, a: int, b: int)
    requires 0 < d && a <= b
    ensures d * a <= d * b
  {
  }

  /** Cancelling a positive factor from a strict product inequality. */
  lemma MulCancelLt(d: int, a: int, b: int)
    requires 0 < d && d * a < d * b
    ensures a < b
  {
    if b <= a {
      MulMonotone(d, b, a);
    }
  }

  /** Euclidean division bounds the dividend. */
  lemma DivBounds(x: nat, d: nat)
    requires 0 < d
    ensures d * (x / d) <= x < d * (x / d) + d
  {
  }

  /** Integer half-up rounding of `100 * v / n`, with its defining bounds. */
  lemma HalfUpBounds(v: nat, n: nat)
    requires 0 < n && v <= n
    ensures IsRoundedPercent(v, n, (200 * v + n) / (2 * n))
    ensures 0 <= (200 * v + n) / (2 * n) <= 100
  {
    var d, x := 2 * n, 200 * v + n;
    var p := x / d;
    DivBounds(x, d);
    assert x < d * 101;
    MulCancelLt(d, p, 101);
  }

  /** `calculateCompetencyProgress`. */
  function CompetencyProgress(c: Competency): (p: nat)
    ensures p <= 100
    ensures |c.evidence| == 0 ==> p == 0
    ensures |c.evidence| > 0 ==> IsRoundedPercent(VerifiedCount(c.evidence), |c.evidence|, p)
  {
    var n := |c.evidence|;
    if n == 0 then 0
    else
      var v := VerifiedCount(c.evidence);
      HalfUpBounds(v, n);
      (200 * v + n) / (2 * n)
  }

  /** Half-up rounding of a percentage is a function of its inputs. */
  lemma RoundedPercentUnique(v: nat, n: nat, p: int, q: int)
    requires 0 < n
    requires IsRoundedPercent(v, n, p) && IsRoundedPercent(v, n, q)
    ensures p == q
  {
    MulCancelLt(2 * n, p, q + 1);
    MulCancelLt(2 * n, q, p + 1);
  }

  /** Progress grows with the verified count when the evidence length is fixed. */
  lemma RoundedPercentMonotone(v1: nat, v2: nat, n: nat, p1: int, p2: int)
    requires 0 < n && v1 <= v2
    requires IsRoundedPercent(v1, n, p1) && IsRoundedPercent(v2, n, p2)
    ensures p1 <= p2
  {
    MulCancelLt(2 * n, p1, p2 + 1);
  }

  /**
   * With the evidence length fixed, turning more evidence items `verified`
   * never lowers the progress.
   */
  lemma ProgressMonotone(c1: Competency, c2: Competency)
    requires |c1.evidence| == |c2.evidence|
    requires forall i :: 0 <= i < |c1.evidence| && c1.evidence[i].status == ActivityStatus.Verified
                      ==> c2.evidence[i].status == ActivityStatus.Verified
    ensures CompetencyProgress(c1) <= CompetencyProgress(c2)
  {
    var n := |c1.evidence|;
    if n > 0 {
      CountMonotone(c1.evidence, c2.evidence, IsVerifiedActivity, IsVerifiedActivity);
      RoundedPercentMonotone(VerifiedCount(c1.evidence), VerifiedCount(c2.evidence), n,
        CompetencyProgress(c1), CompetencyProgress(c2));
    }
  }

  /**
   * Fully verified evidence gives 100. Below 200 items, 100 is reached only
   * when every item is verified; from 200 items on, half-up rounding lets a
   * single unverified item through (see ProgressRoundsUpToFull).
   */
  lemma ProgressFull(c: Competency)
    requires |c.evidence| > 0
    ensures (forall i :: 0 <= i < |c.evidence| ==> c.evidence[i].status == ActivityStatus.Verified)
            ==> CompetencyProgress(c) == 100
    ensures |c.evidence| < 200 ==>
      (CompetencyProgress(c) == 100 <==>
       forall i :: 0 <= i < |c.evidence| ==> c.evidence[i].status == ActivityStatus.Verified)
  {
    var n, v := |c.evidence|, VerifiedCount(c.evidence);
    CountFull(c.evidence, IsVerifiedActivity);
    if v == n {
      assert IsRoundedPercent(v, n, 100);
      RoundedPercentUnique(v, n, 100, CompetencyProgress(c));
    } else if n < 200 {
      assert 200 * v + n < 2 * n * 100;
      MulCancelLt(2 * n, CompetencyProgress(c), 100);
    }
  }

  /** 199 verified out of 200 already rounds to 100 percent. */
  lemma ProgressRoundsUpToFull(c: Competency)
    requires |c.evidence| == 200 && VerifiedCount(c.evidence) == 199
    ensures CompetencyProgress(c) == 100
    ensures exists i :: 0 <= i < |c.evidence| && c.evidence[i].status != ActivityStatus.Verified
  {
    assert IsRoundedPercent(199, 200, 100);
    RoundedPercentUnique(199, 200, 100, CompetencyProgress(c));
    CountFull(c.evidence, IsVerifiedActivity);
  }

  /** Evidence thresholds for reaching a level. */
  datatype LevelRequirement = LevelRequirement(minEvidence: nat, minVerified: nat)

  /** `getLevelRequirements`. */
  function LevelRequirements(level: Level): (r: LevelRequirement)
    ensures 1 <= r.minVerified <= r.minEvidence
  {
    match level
    case Beginner => LevelRequirement(1, 1)
    case Intermediate => LevelRequirement(3, 2)
    case Advanced => LevelRequirement(5, 4)
    case Expert => LevelRequirement(8, 6)
  }

  /** Both thresholds are non-decreasing along the level order. */
  lemma RequirementsMonotone(l1: Level, l2: Level)
    requires LevelRank(l1) <= LevelRank(l2)
    ensures LevelRequirements(l1).minEvidence <= LevelRequirements(l2).minEvidence
    ensures LevelRequirements(l1).minVerified <= LevelRequirements(l2).minVerified
  {
  }

  /** The `nextLevel` table of `canLevelUp`: one step up, expert being its own successor. */
  function NextLevel(level: Level): (next: Level)
    ensures LevelRank(next) == if level == Expert then LevelRank(level) else LevelRank(level) + 1
  {
    match level
    case Beginner => Intermediate
    case Intermediate => Advanced
    case Advanced => Expert
    case Expert => Expert
  }

  /** `canLevelUp`: the next level's thresholds are met and progress is at least 75. */
  predicate CanLevelUp(c: Competency): (eligible: bool)
    // intermediate's thresholds are the lowest any next level has
    ensures eligible ==> |c.evidence| >= 3 && VerifiedCount(c.evidence) >= 2
    ensures eligible ==> CompetencyProgress(c) >= 75
  {
    RequirementsMonotone(Intermediate, NextLevel(c.level));
    var progress := CompetencyProgress(c);
    var verifiedCount := VerifiedCount(c.evidence);
    var requirements := LevelRequirements(NextLevel(c.level));
    && verifiedCount >= requirements.minVerified
    && |c.evidence| >= requirements.minEvidence
    && progress >= 75
  }

  /** The easiest next level is intermediate, so fewer than 3 items or 2 verified never suffice. */
  lemma CanLevelUpNeedsThreeItems(c: Competency)
    ensures |c.evidence| < 3 ==> !CanLevelUp(c)
    ensures VerifiedCount(c.evidence) < 2 ==> !CanLevelUp(c)
  {
    RequirementsMonotone(Intermediate, NextLevel(c.level));
  }

  /** Eligibility for the next level implies the current level's own thresholds are met. */
  lemma CanLevelUpMeetsCurrentLevel(c: Competency)
    requires CanLevelUp(c)
    ensures VerifiedCount(c.evidence) >= LevelRequirements(c.level).minVerified
    ensures |c.evidence| >= LevelRequirements(c.level).minEvidence
  {
    RequirementsMonotone(c.level, NextLevel(c.level));
  }

  /** Fully verified evidence reaching the next level's evidence count is always eligible. */
  lemma CanLevelUpWhenAllVerified(c: Competency)
    requires forall i :: 0 <= i < |c.evidence| ==> c.evidence[i].status == ActivityStatus.Verified
    requires |c.evidence| >= LevelRequirements(NextLevel(c.level)).minEvidence
    ensures CanLevelUp(c)
  {
    ProgressFull(c);
    CountFull(c.evidence, IsVerifiedActivity);
  }

  /** At expert, eligibility is judged against expert's own thresholds (the fixed point). */
  lemma ExpertIsFixedPoint(c: Competency)
    requires c.level == Expert
    ensures CanLevelUp(c) <==>
      VerifiedCount(c.evidence) >= 6 && |c.evidence| >= 8 && CompetencyProgress(c) >= 75
  {
  }

  /**
   * Four evidence items, three verified, at intermediate: progress is 75 but
   * advanced needs five items, so the competency is not eligible.
   */
  lemma IntermediateWithFourItems(c: Competency)
    requires c.level == Intermediate && |c.evidence| == 4 && VerifiedCount(c.evidence) == 3
    ensures CompetencyProgress(c) == 75
    ensures !CanLevelUp(c)
  {
    assert IsRoundedPercent(3, 4, 75);
    RoundedPercentUnique(3, 4, 75, CompetencyProgress(c));
  }

  /**
   * One verified item at beginner: progress is 100 yet intermediate needs three
   * items, so a high percentage never stands in for the absolute counts.
   */
  lemma BeginnerWithOneVerifiedItem(c: Competency)
    requires c.level == Beginner && |c.evidence| == 1 && VerifiedCount(c.evidence) == 1
    ensures CompetencyProgress(c) == 100
    ensures !CanLevelUp(c)
  {
    assert IsRoundedPercent(1, 1, 100);
    RoundedPercentUnique(1, 1, 100, CompetencyProgress(c));
  }

  /** A competency created without evidence starts at 0 percent and is not eligible. */
  lemma CreatedCompetencyStartsEmpty(freshId: string, data: CompetencyPatch)
    requires data.evidence.None?
    ensures CompetencyProgress(CreateCompetency(freshId, data)) == 0
    ensures !CanLevelUp(CreateCompetency(freshId, data))
  {
    CanLevelUpNeedsThreeItems(CreateCompetency(freshId, data));
  }
}
