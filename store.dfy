/**
 * The professional-development half of the application store: the current
 * activities and competencies, a loading flag, and the actions that replace,
 * append, merge-update and delete records. Each action is one atomic state
 * transition; the collection rebuilds (`map`/`filter` over the old
 * collection) are the pure functions below.
 */
module Store {
  import opened Records
  import opened Counting
  import opened Pdr
  import opened PdrUtils

  // ---------------------------------------------------------------------
  // Fixed development data returned by the fetch actions
  // ---------------------------------------------------------------------

  const MockActivities: seq<Activity> := [
    Activity(
      "act-1", Training, "Advanced TypeScript Workshop",
      "3-day intensive workshop on TypeScript and advanced patterns",
      "2025-05-15", "TypeScript Academy", ["certificate.pdf"], ActivityStatus.Verified,
      ["typescript", "software_architecture"],
      Some("Learned key concepts about generics and decorators")),
    Activity(
      "act-2", Certification, "AWS Solutions Architect Associate",
      "Cloud architecture certification from Amazon Web Services",
      "2025-04-20", "Amazon Web Services", ["aws-cert.pdf"], ActivityStatus.Verified,
      ["cloud", "architecture"], None)
  ]

  const MockCompetencies: seq<Competency> := [
    Competency(
      "comp-1", "TypeScript Development", "Advanced TypeScript programming and best practices",
      Intermediate, InProgress, []),
    Competency(
      "comp-2", "Cloud Architecture", "Designing and implementing cloud solutions",
      Beginner, InProgress, [])
  ]

  /** The mock activities are complete, verified and distinctly identified; the mock competencies have no evidence yet. */
  lemma MockDataFacts()
    ensures forall i :: 0 <= i < |MockActivities| ==> ValidateActivity(MockActivities[i])
    ensures ActivityStatsOf(MockActivities).verified == 2
    ensures ActivityStatsOf(MockActivities).verificationRate == 100.0
    ensures MockActivities[0].id != MockActivities[1].id
    ensures forall i :: 0 <= i < |MockCompetencies| ==>
      CompetencyProgress(MockCompetencies[i]) == 0 && !CanLevelUp(MockCompetencies[i])
  {
    assert VerifiedCount(MockActivities) == 2 by {
      CountFull(MockActivities, IsVerifiedActivity);
    }
    forall i | 0 <= i < |MockCompetencies|
      ensures CompetencyProgress(MockCompetencies[i]) == 0 && !CanLevelUp(MockCompetencies[i])
    {
      CanLevelUpNeedsThreeItems(MockCompetencies[i]);
    }
  }

  // ---------------------------------------------------------------------
  // Collection rebuilds
  // ---------------------------------------------------------------------

  function HasId(id: string): Activity -> bool {
    (a: Activity) => a.id == id
  }

  /** `activities.map(act => act.id === id ? { ...act, ...updates } : act)`. */
  function UpdateActivities(activities: seq<Activity>, id: string, updates: ActivityPatch): (r: seq<Activity>)
    ensures |r| == |activities|
    ensures forall i :: 0 <= i < |r| && activities[i].id == id ==> r[i] == MergeActivity(activities[i], updates)
    ensures forall i :: 0 <= i < |r| && activities[i].id != id ==> r[i] == activities[i]
  {
    if |activities| == 0 then []
    else
      [if activities[0].id == id then MergeActivity(activities[0], updates) else activities[0]]
      + UpdateActivities(activities[1..], id, updates)
  }

  /** An unknown id leaves the activities as they were. */
  lemma UpdateActivitiesUnknownId(activities: seq<Activity>, id: string, updates: ActivityPatch)
    requires forall i :: 0 <= i < |activities| ==> activities[i].id != id
    ensures UpdateActivities(activities, id, updates) == activities
  {
  }

  /** Applying the same update twice is the same as applying it once. */
  lemma UpdateActivitiesIdempotent(activities: seq<Activity>, id: string, updates: ActivityPatch)
    ensures UpdateActivities(UpdateActivities(activities, id, updates), id, updates)
            == UpdateActivities(activities, id, updates)
  {
    var once := UpdateActivities(activities, id, updates);
    var twice := UpdateActivities(once, id, updates);
    forall i | 0 <= i < |activities| ensures twice[i] == once[i] {
      MergeActivityLaws(activities[i], updates);
    }
  }

  /** `activities.filter(act => act.id !== id)`. */
  function RemoveActivity(activities: seq<Activity>, id: string): (r: seq<Activity>)
    ensures forall b :: b in r ==> b.id != id
    ensures |r| == |activities| - Count(activities, HasId(id))
  {
    if |activities| == 0 then []
    else
      var x, rest := activities[0], RemoveActivity(activities[1..], id);
      if x.id == id then rest else [x] + rest
  }

  /** Every record with another id survives deletion, as often as it occurred. */
  lemma {:induction false} RemoveActivityKeepsOthers(activities: seq<Activity>, id: string, a: Activity)
    requires a.id != id
    ensures multiset(RemoveActivity(activities, id))[a] == multiset(activities)[a]
    decreases |activities|
  {
    if |activities| > 0 {
      var x, tail := activities[0], activities[1..];
      RemoveActivityKeepsOthers(tail, id, a);
      assert activities == [x] + tail;
      assert multiset(activities) == multiset([x]) + multiset(tail);
      if x.id != id {
        assert multiset(RemoveActivity(activities, id)) == multiset([x]) + multiset(RemoveActivity(tail, id));
      }
    }
  }

  /** Deletion works element by element, so it keeps the survivors in their original order. */
  lemma {:induction false} RemoveActivityConcat(a: seq<Activity>, b: seq<Activity>, id: string)
    ensures RemoveActivity(a + b, id) == RemoveActivity(a, id) + RemoveActivity(b, id)
    decreases |a|
  {
    if |a| == 0 {
      assert a + b == b;
    } else {
      var x := a[0];
      assert (a + b)[0] == x && (a + b)[1..] == a[1..] + b;
      RemoveActivityConcat(a[1..], b, id);
      if x.id != id {
        var left, right := RemoveActivity(a[1..], id), RemoveActivity(b, id);
        assert [x] + (left + right) == ([x] + left) + right;
      }
    }
  }

  /** Deleting an absent id changes nothing, and deleting twice is deleting once. */
  lemma {:induction false} RemoveActivityIdempotent(activities: seq<Activity>, id: string)
    ensures RemoveActivity(RemoveActivity(activities, id), id) == RemoveActivity(activities, id)
    ensures (forall i :: 0 <= i < |activities| ==> activities[i].id != id) ==>
      RemoveActivity(activities, id) == activities
    decreases |activities|
  {
    if |activities| > 0 {
      var head := if activities[0].id == id then [] else [activities[0]];
      RemoveActivityIdempotent(activities[1..], id);
      RemoveActivityConcat(head, RemoveActivity(activities[1..], id), id);
      assert RemoveActivity(head, id) == head;
      if forall i :: 0 <= i < |activities| ==> activities[i].id != id {
        assert forall i :: 0 <= i < |activities[1..]| ==> activities[1..][i].id != id by {
          forall i | 0 <= i < |activities[1..]| ensures activities[1..][i].id != id {
            assert activities[1..][i] == activities[i + 1];
          }
        }
        assert activities == [activities[0]] + activities[1..];
      }
    }
  }

  /** `competencies.map(comp => comp.id === id ? { ...comp, ...updates } : comp)`. */
  function UpdateCompetencies(competencies: seq<Competency>, id: string, updates: CompetencyPatch): (r: seq<Competency>)
    ensures |r| == |competencies|
    ensures forall i :: 0 <= i < |r| && competencies[i].id == id ==> r[i] == MergeCompetency(competencies[i], updates)
    ensures forall i :: 0 <= i < |r| && competencies[i].id != id ==> r[i] == competencies[i]
  {
    if |competencies| == 0 then []
    else
      [if competencies[0].id == id then MergeCompetency(competencies[0], updates) else competencies[0]]
      + UpdateCompetencies(competencies[1..], id, updates)
  }

  /** An unknown id leaves the competencies as they were; an update without `evidence` keeps every evidence list. */
  lemma UpdateCompetenciesEffect(competencies: seq<Competency>, id: string, updates: CompetencyPatch)
    ensures (forall i :: 0 <= i < |competencies| ==> competencies[i].id != id) ==>
      UpdateCompetencies(competencies, id, updates) == competencies
    ensures updates.evidence.None? ==> forall i :: 0 <= i < |competencies| ==>
      UpdateCompetencies(competencies, id, updates)[i].evidence == competencies[i].evidence
  {
    forall i | 0 <= i < |competencies| {
      MergeCompetencyLaws(competencies[i], updates);
    }
  }

  /** `competencies.map(comp => comp.id === cid ? { ...comp, evidence: [...comp.evidence, activity] } : comp)`. */
  function AppendEvidence(competencies: seq<Competency>, competencyId: string, activity: Activity): (r: seq<Competency>)
    ensures |r| == |competencies|
    ensures forall i :: 0 <= i < |r| && competencies[i].id == competencyId ==>
      r[i] == competencies[i].(evidence := competencies[i].evidence + [activity])
    ensures forall i :: 0 <= i < |r| && competencies[i].id != competencyId ==> r[i] == competencies[i]
  {
    if |competencies| == 0 then []
    else
      var c := competencies[0];
      [if c.id == competencyId then c.(evidence := c.evidence + [activity]) else c]
      + AppendEvidence(competencies[1..], competencyId, activity)
  }

  /**
   * A matching competency gains exactly one evidence item, `activity`, after
   * its old evidence; its other fields stay; an unknown id changes nothing.
   */
  lemma AppendEvidenceEffect(competencies: seq<Competency>, competencyId: string, activity: Activity, i: nat)
    requires i < |competencies| && competencies[i].id == competencyId
    ensures var c, c' := competencies[i], AppendEvidence(competencies, competencyId, activity)[i];
      && |c'.evidence| == |c.evidence| + 1
      && c'.evidence[..|c.evidence|] == c.evidence
      && c'.evidence[|c.evidence|] == activity
      && c'.id == c.id && c'.name == c.name && c'.description == c.description
      && c'.level == c.level && c'.status == c.status
      && VerifiedCount(c'.evidence) == VerifiedCount(c.evidence) + (if IsVerifiedActivity(activity) then 1 else 0)
  {
    var c := competencies[i];
    CountSnoc(c.evidence, activity, IsVerifiedActivity);
  }

  lemma AppendEvidenceUnknownId(competencies: seq<Competency>, competencyId: string, activity: Activity)
    requires forall i :: 0 <= i < |competencies| ==> competencies[i].id != competencyId
    ensures AppendEvidence(competencies, competencyId, activity) == competencies
  {
  }

  // ---------------------------------------------------------------------
  // The store
  // ---------------------------------------------------------------------

  class PdrStore {
    var activities: seq<Activity>
    var competencies: seq<Competency>
    var isLoading: bool

    /** The initial state: no records, not loading. */
    constructor ()
      ensures activities == [] && competencies == [] && !isLoading
    {
      activities := [];
      competencies := [];
      isLoading := false;
    }

    /** Loads the mock activities, whatever `userId` is. */
    method FetchActivities(userId: string)
      modifies this
      ensures activities == MockActivities
      ensures competencies == old(competencies)
      ensures !isLoading
    {
      isLoading := true;
      activities := MockActivities;
      isLoading := false;
    }

    /** Loads the mock competencies, whatever `userId` is. */
    method FetchCompetencies(userId: string)
      modifies this
      ensures competencies == MockCompetencies
      ensures activities == old(activities)
      ensures !isLoading
    {
      isLoading := true;
      competencies := MockCompetencies;
      isLoading := false;
    }

    /** Appends the record as given: no validation, no id check. */
    method AddActivity(activity: Activity)
      modifies this
      ensures activities == old(activities) + [activity]
      ensures competencies == old(competencies)
      ensures !isLoading
    {
      isLoading := true;
      activities := activities + [activity];
      isLoading := false;
    }

    /** Merges `updates` into every activity with this id; an unknown id changes nothing. */
    method UpdateActivity(id: string, updates: ActivityPatch)
      modifies this
      ensures activities == UpdateActivities(old(activities), id, updates)
      ensures competencies == old(competencies)
      ensures !isLoading
    {
      isLoading := true;
      activities := UpdateActivities(activities, id, updates);
      isLoading := false;
    }

    /** Removes every activity with this id; an absent id is not an error. */
    method DeleteActivity(id: string)
      modifies this
      ensures activities == RemoveActivity(old(activities), id)
      ensures competencies == old(competencies)
      ensures !isLoading
    {
      isLoading := true;
      activities := RemoveActivity(activities, id);
      isLoading := false;
    }

    /** Merges `updates` into every competency with this id; an unknown id changes nothing. */
    method UpdateCompetency(id: string, updates: CompetencyPatch)
      modifies this
      ensures competencies == UpdateCompetencies(old(competencies), id, updates)
      ensures activities == old(activities)
      ensures !isLoading
    {
      isLoading := true;
      competencies := UpdateCompetencies(competencies, id, updates);
      isLoading := false;
    }

    /** Appends `activity` to the evidence of every competency with this id. */
    method AddEvidence(competencyId: string, activity: Activity)
      modifies this
      ensures competencies == AppendEvidence(old(competencies), competencyId, activity)
      ensures activities == old(activities)
      ensures !isLoading
    {
      isLoading := true;
      competencies := AppendEvidence(competencies, competencyId, activity);
      isLoading := false;
    }
  }
}
