/**
 * The records of the professional-development engine: activities (`PDRRecord`
 * of `lib/types.ts`), competency areas and user profiles, the closed enums
 * their string-typed fields range over, and the partial "patch" records that
 * the factories and the store spread over a full record.
 */
module Records {

  datatype Option<+T> = None | Some(value: T)

  /** The value in `o` if present, otherwise `default` (the `{...d, ...o}` rule for one field). */
  function GetOr<T>(o: Option<T>, default: T): T {
    match o
    case Some(v) => v
    case None => default
  }

  datatype ActivityType = Training | Certification | Project | Education

  datatype ActivityStatus = Pending | Verified | Rejected

  /** Proficiency levels, in their fixed order. */
  datatype Level = Beginner | Intermediate | Advanced | Expert

  datatype CompetencyStatus = InProgress | Verified

  /** The string each enum value has in the stored records. */
  function ActivityStatusName(st: ActivityStatus): string {
    match st
    case Pending => "pending"
    case Verified => "verified"
    case Rejected => "rejected"
  }

  function LevelName(l: Level): string {
    match l
    case Beginner => "beginner"
    case Intermediate => "intermediate"
    case Advanced => "advanced"
    case Expert => "expert"
  }

  function CompetencyStatusName(st: CompetencyStatus): string {
    match st
    case InProgress => "in_progress"
    case Verified => "verified"
  }

  /** Position of a level in the order beginner < intermediate < advanced < expert. */
  function LevelRank(l: Level): nat {
    match l
    case Beginner => 0
    case Intermediate => 1
    case Advanced => 2
    case Expert => 3
  }

  /** An activity record. `reflection` is the optional free-text field the mock data carries. */
  datatype Activity = Activity(
    id: string,
    activityType: ActivityType,
    title: string,
    description: string,
    dateCompleted: string,
    provider: string,
    documentation: seq<string>,
    status: ActivityStatus,
    competencies: seq<string>,
    reflection: Option<string>)

  /**
   * A competency area; `evidence` holds activity records. The code shares the
   * record objects, but no action changes a record in place, so values model them.
   */
  datatype Competency = Competency(
    id: string,
    name: string,
    description: string,
    level: Level,
    status: CompetencyStatus,
    evidence: seq<Activity>)

  datatype UserProfile = UserProfile(
    id: string,
    name: string,
    role: string,
    department: string,
    joinedDate: string,
    supervisor: string,
    currentGoals: seq<string>,
    competencies: seq<string>,
    certifications: seq<string>)

  /** A `Partial<PDRRecord>`: a field is overwritten only when it is present. */
  datatype ActivityPatch = ActivityPatch(
    id: Option<string>,
    activityType: Option<ActivityType>,
    title: Option<string>,
    description: Option<string>,
    dateCompleted: Option<string>,
    provider: Option<string>,
    documentation: Option<seq<string>>,
    status: Option<ActivityStatus>,
    competencies: Option<seq<string>>,
    reflection: Option<string>)

  /** A `Partial<CompetencyArea>`. */
  datatype CompetencyPatch = CompetencyPatch(
    id: Option<string>,
    name: Option<string>,
    description: Option<string>,
    level: Option<Level>,
    status: Option<CompetencyStatus>,
    evidence: Option<seq<Activity>>)

  /** A `Partial<UserProfile>`. */
  datatype ProfilePatch = ProfilePatch(
    id: Option<string>,
    name: Option<string>,
    role: Option<string>,
    department: Option<string>,
    joinedDate: Option<string>,
    supervisor: Option<string>,
    currentGoals: Option<seq<string>>,
    competencies: Option<seq<string>>,
    certifications: Option<seq<string>>)

  const NoActivityFields := ActivityPatch(None, None, None, None, None, None, None, None, None, None)
  const NoCompetencyFields := CompetencyPatch(None, None, None, None, None, None)
  const NoProfileFields := ProfilePatch(None, None, None, None, None, None, None, None, None)

  /**
   * `{ ...a, ...p }` for activities: every field present in the patch
   * overwrites the record's, every absent one is kept.
   */
  function MergeActivity(a: Activity, p: ActivityPatch): (r: Activity)
    ensures p.id.None? ==> r.id == a.id
    ensures p.id.Some? ==> r.id == p.id.value
    ensures p.activityType.None? ==> r.activityType == a.activityType
    ensures p.activityType.Some? ==> r.activityType == p.activityType.value
    ensures p.title.None? ==> r.title == a.title
    ensures p.title.Some? ==> r.title == p.title.value
    ensures p.description.None? ==> r.description == a.description
    ensures p.description.Some? ==> r.description == p.description.value
    ensures p.dateCompleted.None? ==> r.dateCompleted == a.dateCompleted
    ensures p.dateCompleted.Some? ==> r.dateCompleted == p.dateCompleted.value
    ensures p.provider.None? ==> r.provider == a.provider
    ensures p.provider.Some? ==> r.provider == p.provider.value
    ensures p.documentation.None? ==> r.documentation == a.documentation
    ensures p.documentation.Some? ==> r.documentation == p.documentation.value
    ensures p.status.None? ==> r.status == a.status
    ensures p.status.Some? ==> r.status == p.status.value
    ensures p.competencies.None? ==> r.competencies == a.competencies
    ensures p.competencies.Some? ==> r.competencies == p.competencies.value
    ensures p.reflection.None? ==> r.reflection == a.reflection
    ensures p.reflection.Some? ==> r.reflection == p.reflection
  {
    Activity(
      GetOr(p.id, a.id),
      GetOr(p.activityType, a.activityType),
      GetOr(p.title, a.title),
      GetOr(p.description, a.description),
      GetOr(p.dateCompleted, a.dateCompleted),
      GetOr(p.provider, a.provider),
      GetOr(p.documentation, a.documentation),
      GetOr(p.status, a.status),
      GetOr(p.competencies, a.competencies),
      if p.reflection.Some? then p.reflection else a.reflection)
  }

  /** `{ ...c, ...p }` for competencies. */
  function MergeCompetency(c: Competency, p: CompetencyPatch): (r: Competency)
    ensures p.id.None? ==> r.id == c.id
    ensures p.id.Some? ==> r.id == p.id.value
    ensures p.name.None? ==> r.name == c.name
    ensures p.name.Some? ==> r.name == p.name.value
    ensures p.description.None? ==> r.description == c.description
    ensures p.description.Some? ==> r.description == p.description.value
    ensures p.level.None? ==> r.level == c.level
    ensures p.level.Some? ==> r.level == p.level.value
    ensures p.status.None? ==> r.status == c.status
    ensures p.status.Some? ==> r.status == p.status.value
    ensures p.evidence.None? ==> r.evidence == c.evidence
    ensures p.evidence.Some? ==> r.evidence == p.evidence.value
  {
    Competency(
      GetOr(p.id, c.id),
      GetOr(p.name, c.name),
      GetOr(p.description, c.description),
      GetOr(p.level, c.level),
      GetOr(p.status, c.status),
      GetOr(p.evidence, c.evidence))
  }

  /** `{ ...u, ...p }` for profiles. */
  function MergeProfile(u: UserProfile, p: ProfilePatch): (r: UserProfile)
    ensures p.id.None? ==> r.id == u.id
    ensures p.id.Some? ==> r.id == p.id.value
    ensures p.name.None? ==> r.name == u.name
    ensures p.name.Some? ==> r.name == p.name.value
    ensures p.role.None? ==> r.role == u.role
    ensures p.role.Some? ==> r.role == p.role.value
    ensures p.department.None? ==> r.department == u.department
    ensures p.department.Some? ==> r.department == p.department.value
    ensures p.joinedDate.None? ==> r.joinedDate == u.joinedDate
    ensures p.joinedDate.Some? ==> r.joinedDate == p.joinedDate.value
    ensures p.supervisor.None? ==> r.supervisor == u.supervisor
    ensures p.supervisor.Some? ==> r.supervisor == p.supervisor.value
    ensures p.currentGoals.None? ==> r.currentGoals == u.currentGoals
    ensures p.currentGoals.Some? ==> r.currentGoals == p.currentGoals.value
    ensures p.competencies.None? ==> r.competencies == u.competencies
    ensures p.competencies.Some? ==> r.competencies == p.competencies.value
    ensures p.certifications.None? ==> r.certifications == u.certifications
    ensures p.certifications.Some? ==> r.certifications == p.certifications.value
  {
    UserProfile(
      GetOr(p.id, u.id),
      GetOr(p.name, u.name),
      GetOr(p.role, u.role),
      GetOr(p.department, u.department),
      GetOr(p.joinedDate, u.joinedDate),
      GetOr(p.supervisor, u.supervisor),
      GetOr(p.currentGoals, u.currentGoals),
      GetOr(p.competencies, u.competencies),
      GetOr(p.certifications, u.certifications))
  }

  /**
   * Spreading the empty patch changes nothing, and spreading the same patch
   * twice is the same as spreading it once.
   */
  lemma MergeActivityLaws(a: Activity, p: ActivityPatch)
    ensures MergeActivity(a, NoActivityFields) == a
    ensures MergeActivity(MergeActivity(a, p), p) == MergeActivity(a, p)
  {
  }

  /** The same two laws for competencies. */
  lemma MergeCompetencyLaws(c: Competency, p: CompetencyPatch)
    ensures MergeCompetency(c, NoCompetencyFields) == c
    ensures MergeCompetency(MergeCompetency(c, p), p) == MergeCompetency(c, p)
  {
  }

  /** The same two laws for profiles. */
  lemma MergeProfileLaws(u: UserProfile, p: ProfilePatch)
    ensures MergeProfile(u, NoProfileFields) == u
    ensures MergeProfile(MergeProfile(u, p), p) == MergeProfile(u, p)
  {
  }
}
