/**
 * Statistics over record collections (counts by status and type, rates with
 * a zero-total guard), the verified-evidence threshold check, and the two
 * colour lookup tables the dashboards use.
 *
 * Rates are exact rationals (`real`); the TypeScript code computes them in
 * floating point.
 */
module PdrUtils {
  import opened Records
  import opened Counting
  import opened Pdr

  // ---------------------------------------------------------------------
  // Rates
  // ---------------------------------------------------------------------

  /** `total ? (part / total) * 100 : 0`. */
  function Rate(part: nat, total: nat): (r: real)
    ensures total == 0 ==> r == 0.0
    ensures total > 0 ==> r * (total as real) == (part as real) * 100.0
    ensures part <= total ==> 0.0 <= r <= 100.0
    ensures total > 0 ==> (r == 100.0 <==> part == total)
  {
    if total == 0 then 0.0 else ((part as real) / (total as real)) * 100.0
  }

  // ---------------------------------------------------------------------
  // Competency statistics
  // ---------------------------------------------------------------------

  datatype CompetencyStats = CompetencyStats(
    total: nat,
    achieved: nat,
    inProgress: nat,
    achievementRate: real)

  predicate IsAchieved(c: Competency) {
    c.status == CompetencyStatus.Verified
  }

  predicate IsInProgress(c: Competency) {
    c.status == InProgress
  }

  /** `calculateCompetencyStats`. */
  function CalculateCompetencyStats(competencies: seq<Competency>): (s: CompetencyStats)
    ensures s.total == |competencies|
    ensures s.achieved == Count(competencies, IsAchieved)
    ensures s.inProgress == Count(competencies, IsInProgress)
    // the two statuses partition the list
    ensures s.achieved + s.inProgress == s.total
    ensures |competencies| == 0 ==> s == CompetencyStats(0, 0, 0, 0.0)
    // the rate is achieved / total * 100, guarded against an empty list
    ensures s.achievementRate == Rate(s.achieved, s.total)
    ensures 0.0 <= s.achievementRate <= 100.0
    ensures s.achievementRate == 100.0 <==>
      |competencies| > 0 && forall i :: 0 <= i < |competencies| ==> IsAchieved(competencies[i])
  {
    var total := |competencies|;
    var achieved := Count(competencies, IsAchieved);
    var inProgress := Count(competencies, IsInProgress);
    CountComplement(competencies, IsAchieved, IsInProgress);
    CountFull(competencies, IsAchieved);
    CompetencyStats(total, achieved, inProgress, Rate(achieved, total))
  }

  /** The competency statistics do not depend on the order of the list. */
  lemma CompetencyStatsPermutation(a: seq<Competency>, b: seq<Competency>)
    requires multiset(a) == multiset(b)
    ensures CalculateCompetencyStats(a) == CalculateCompetencyStats(b)
  {
    assert |a| == |multiset(a)| == |multiset(b)| == |b|;
    CountPermutation(a, b, IsAchieved);
    CountPermutation(a, b, IsInProgress);
  }

  // ---------------------------------------------------------------------
  // Activity statistics
  // ---------------------------------------------------------------------

  datatype ActivityStats = ActivityStats(
    total: nat,
    verified: nat,
    pending: nat,
    byType: map<ActivityType, nat>,
    verificationRate: real)

  const AllTypes: set<ActivityType> := {Training, Certification, Project, Education}

  function HasStatus(st: ActivityStatus): Activity -> bool {
    (a: Activity) => a.status == st
  }

  function OfType(t: ActivityType): Activity -> bool {
    (a: Activity) => a.activityType == t
  }

  /** Reference definition of `byType`: each type that occurs, with its number of activities. */
  function TypeCounts(activities: seq<Activity>): (byType: map<ActivityType, nat>)
    ensures forall t :: t in byType ==> 0 < byType[t] <= |activities|
    ensures |activities| == 0 ==> byType == map[]
  {
    map t | t in AllTypes && Count(activities, OfType(t)) > 0 :: Count(activities, OfType(t))
  }

  /** A type is a key exactly when some activity has it; its entry is positive. */
  lemma TypeCountsKeys(activities: seq<Activity>, t: ActivityType)
    ensures t in TypeCounts(activities) <==>
      exists i :: 0 <= i < |activities| && activities[i].activityType == t
    ensures t in TypeCounts(activities) ==> TypeCounts(activities)[t] > 0
  {
    CountZero(activities, OfType(t));
    if !(t in TypeCounts(activities)) {
      assert Count(activities, OfType(t)) == 0;
    } else {
      assert Count(activities, OfType(t)) > 0;
    }
  }

  /** Reference definition of the whole `calculateActivityStats` result. */
  function ActivityStatsOf(activities: seq<Activity>): (s: ActivityStats)
    ensures s.total == |activities|
    ensures s.verified == VerifiedCount(activities)
    ensures s.pending == Count(activities, HasStatus(Pending))
    // what verified and pending leave over are the rejected records
    ensures s.total - s.verified - s.pending == Count(activities, HasStatus(Rejected))
    ensures forall t :: t in s.byType ==> s.byType[t] > 0
    ensures |activities| == 0 ==> s == ActivityStats(0, 0, 0, map[], 0.0)
    // the rate is verified / total * 100, guarded against an empty list
    ensures s.verificationRate == Rate(s.verified, s.total)
    ensures 0.0 <= s.verificationRate <= 100.0
  {
    var total := |activities|;
    var verified := VerifiedCount(activities);
    var pending := Count(activities, HasStatus(Pending));
    CountsByStatus(activities);
    ActivityStats(total, verified, pending, TypeCounts(activities), Rate(verified, total))
  }

  /** The three statuses partition the activities. */
  lemma {:induction false} CountsByStatus(activities: seq<Activity>)
    ensures VerifiedCount(activities) + Count(activities, HasStatus(Pending))
            + Count(activities, HasStatus(Rejected)) == |activities|
    decreases |activities|
  {
    if |activities| > 0 {
      CountsByStatus(activities[1..]);
    }
  }

  /** One more activity of type `t` adds one to `t`'s entry and touches no other. */
  lemma TypeCountsStep(activities: seq<Activity>, i: nat)
    requires i < |activities|
    ensures var acc, t := TypeCounts(activities[..i]), activities[i].activityType;
      TypeCounts(activities[..i + 1]) == acc[t := (if t in acc then acc[t] else 0) + 1]
  {
    var prefix, x := activities[..i], activities[i];
    var t := x.activityType;
    var acc := TypeCounts(prefix);
    var expected := acc[t := (if t in acc then acc[t] else 0) + 1];
    assert activities[..i + 1] == prefix + [x];
    var next := TypeCounts(prefix + [x]);
    forall u | u in AllTypes
      ensures Count(prefix + [x], OfType(u)) == Count(prefix, OfType(u)) + (if u == t then 1 else 0)
    {
      CountSnoc(prefix, x, OfType(u));
    }
    assert next.Keys == expected.Keys;
    forall u | u in next ensures next[u] == expected[u] {
    }
  }

  /**
   * `calculateActivityStats`: counts by status, and `byType` built by a
   * reduce that bumps `acc[activity_type]` once per activity.
   */
  method CalculateActivityStats(activities: seq<Activity>) returns (s: ActivityStats)
    ensures s == ActivityStatsOf(activities)
  {
    var byType: map<ActivityType, nat> := map[];
    var i := 0;
    while i < |activities|
      invariant i <= |activities|
      invariant byType == TypeCounts(activities[..i])
    {
      var t := activities[i].activityType;
      byType := byType[t := (if t in byType then byType[t] else 0) + 1];
      TypeCountsStep(activities, i);
      i := i + 1;
    }
    assert activities[..i] == activities;
    var total := |activities|;
    var verified := VerifiedCount(activities);
    var pending := Count(activities, HasStatus(Pending));
    s := ActivityStats(total, verified, pending, byType, Rate(verified, total));
  }

  /** Sum of the entries of a type-count map (absent types contribute 0). */
  function TypeTotal(m: map<ActivityType, nat>): nat {
    (if Training in m then m[Training] else 0)
    + (if Certification in m then m[Certification] else 0)
    + (if Project in m then m[Project] else 0)
    + (if Education in m then m[Education] else 0)
  }

  lemma {:induction false} CountsByType(activities: seq<Activity>)
    ensures Count(activities, OfType(Training)) + Count(activities, OfType(Certification))
            + Count(activities, OfType(Project)) + Count(activities, OfType(Education))
            == |activities|
    decreases |activities|
  {
    if |activities| > 0 {
      CountsByType(activities[1..]);
    }
  }

  /** The `byType` entries add up to the number of activities. */
  lemma ByTypeSumsToTotal(activities: seq<Activity>)
    ensures TypeTotal(ActivityStatsOf(activities).byType) == ActivityStatsOf(activities).total
  {
    CountsByType(activities);
  }

  /** Two verified activities and one pending one: a verification rate of 200/3 percent. */
  lemma TwoVerifiedOnePending(activities: seq<Activity>)
    requires |activities| == 3
    requires activities[0].status == ActivityStatus.Verified
    requires activities[1].status == ActivityStatus.Verified
    requires activities[2].status == Pending
    ensures var s := ActivityStatsOf(activities);
      s.total == 3 && s.verified == 2 && s.pending == 1 && s.verificationRate == 200.0 / 3.0
  {
    var a := activities;
    assert a[1..][1..] == a[2..] && a[2..][1..] == [];
    assert VerifiedCount(a[2..]) == 0 && Count(a[2..], HasStatus(Pending)) == 1;
    assert VerifiedCount(a[1..]) == 1 && Count(a[1..], HasStatus(Pending)) == 1;
  }

  /** The activity statistics do not depend on the order of the list. */
  lemma ActivityStatsPermutation(a: seq<Activity>, b: seq<Activity>)
    requires multiset(a) == multiset(b)
    ensures ActivityStatsOf(a) == ActivityStatsOf(b)
  {
    assert |a| == |multiset(a)| == |multiset(b)| == |b|;
    CountPermutation(a, b, IsVerifiedActivity);
    CountPermutation(a, b, HasStatus(Pending));
    forall t ensures Count(a, OfType(t)) == Count(b, OfType(t)) {
      CountPermutation(a, b, OfType(t));
    }
    assert TypeCounts(a) == TypeCounts(b);
  }

  // ---------------------------------------------------------------------
  // Evidence threshold
  // ---------------------------------------------------------------------

  /** `validateCompetencyLevel`: at least `requiredEvidence` evidence items are verified. */
  predicate ValidateCompetencyLevel(c: Competency, requiredEvidence: int): (ok: bool)
    // more verified items than evidence items cannot exist
    ensures ok ==> requiredEvidence <= |c.evidence|
    ensures requiredEvidence <= 0 ==> ok
    ensures requiredEvidence > 0 && ok ==> exists i :: 0 <= i < |c.evidence| && IsVerifiedActivity(c.evidence[i])
  {
    CountZero(c.evidence, IsVerifiedActivity);
    VerifiedCount(c.evidence) >= requiredEvidence
  }

  /**
   * The check is downward closed in the threshold, survives appending evidence,
   * and is implied by level-up eligibility for the next level's verified count.
   */
  lemma ValidateCompetencyLevelStable(c: Competency, r: int, r': int, a: Activity)
    requires ValidateCompetencyLevel(c, r)
    ensures r' <= r ==> ValidateCompetencyLevel(c, r')
    ensures ValidateCompetencyLevel(c.(evidence := c.evidence + [a]), r)
    ensures CanLevelUp(c) ==>
      ValidateCompetencyLevel(c, LevelRequirements(NextLevel(c.level)).minVerified)
  {
    CountSnoc(c.evidence, a, IsVerifiedActivity);
  }

  // ---------------------------------------------------------------------
  // Colour lookups
  // ---------------------------------------------------------------------

  const DefaultColor := "bg-gray-500"

  const StatusColors: map<string, string> := map[
    "verified" := "bg-green-500",
    "pending" := "bg-yellow-500",
    "rejected" := "bg-red-500",
    "in_progress" := "bg-blue-500",
    "achieved" := "bg-purple-500"]

  const LevelColors: map<string, string> := map[
    "beginner" := "bg-blue-500",
    "intermediate" := "bg-yellow-500",
    "advanced" := "bg-green-500",
    "expert" := "bg-purple-500"]

  /** `getStatusColor`: the table entry, or grey for any unlisted string. */
  function StatusColor(status: string): (color: string)
    ensures status in StatusColors ==> color == StatusColors[status]
    ensures color == DefaultColor <==> status !in StatusColors
  {
    if status in StatusColors then StatusColors[status] else DefaultColor
  }

  /** `getLevelColor`: the table entry, or grey for any unlisted string. */
  function LevelColor(level: string): (color: string)
    ensures level in LevelColors ==> color == LevelColors[level]
    ensures color == DefaultColor <==> level !in LevelColors
  {
    if level in LevelColors then LevelColors[level] else DefaultColor
  }

  /**
   * Every status a record can carry has its own listed colour, and the four
   * levels get four different colours, none of them the grey default.
   */
  lemma ColorsForRecordValues(st: ActivityStatus, cst: CompetencyStatus, l1: Level, l2: Level)
    ensures StatusColor(ActivityStatusName(st)) != DefaultColor
    ensures StatusColor(CompetencyStatusName(cst)) != DefaultColor
    ensures LevelColor(LevelName(l1)) != DefaultColor
    ensures l1 != l2 ==> LevelColor(LevelName(l1)) != LevelColor(LevelName(l2))
  {
  }
}
