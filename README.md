# Professional-development record engine

A Dafny model of the record engine behind the professional-development
tracker in `rwa-frontend`:

- **Record factory and progression rules** (`lib/pdr.ts`): these build
  activity, competency and profile records from defaults plus caller-supplied
  fields, and check that an activity's four required text fields are filled.
  They compute a competency's evidence-completion percentage and look up the
  per-level evidence thresholds. They also decide level-up eligibility against
  the next level in the order beginner → intermediate → advanced → expert,
  where expert is its own successor.
- **Statistics** (`lib/pdr-utils.ts`): these count competencies and
  activities by status and activity type, and compute rates with a guard for
  a zero total. They check a verified-evidence threshold and look up two
  colour tables.
- **Record store** (the PDR half of `stores/contract.ts`): a class holding
  `activities`, `competencies` and `isLoading`. Its actions fetch the fixed
  development data, append, merge-update and delete activities, merge-update
  competencies and append evidence.

Files and modules:

| file | module | contents |
|---|---|---|
| `counting.dfy` | `Counting` | `Count(s, p)`, the `filter(p).length` idiom, with append, permutation and monotonicity lemmas |
| `records.dfy` | `Records` | the records, closed enums, patch records (`Partial<…>`) and the object-spread merge |
| `pdr.dfy` | `Pdr` | factories, validation, progress, level requirements, level-up eligibility |
| `pdr_utils.dfy` | `PdrUtils` | statistics, `validateCompetencyLevel`, colour lookups |
| `store.dfy` | `Store` | mock data, collection rebuilds, the `PdrStore` class |

Modelling choices:

- The string-typed `activity_type`, `status` and `level` fields are closed
  datatypes. The colour lookups still take arbitrary strings, as in the code.
- A `Partial<…>` argument is a record of `Option` fields. A spread overwrites a
  field exactly when the patch has it present, and `id` is a field like any other.
- A fresh id and today's date are parameters of the factories.
- Progress is `Math.round(100 · verified / total)` in exact arithmetic, with
  halves rounded up: `(200·v + n) div (2·n)`. Its contract is the rounding
  bound itself, `p − ½ ≤ 100·v/n < p + ½`. One consequence: "100 % exactly
  when all evidence is verified" holds only below 200 evidence items, since
  199 of 200 already rounds up to 100 (`Pdr.ProgressRoundsUpToFull`).
- Rates are `real` (exact rationals).
- Competency status `verified` is what `calculateCompetencyStats` reports as
  `achieved`. With only `in_progress` and `verified` possible, the two counts
  add up to `total` exactly.
- The store actions do no checking of their own:
  - `addActivity` appends the record as given, without calling
    `validateActivity` (`stores/contract.ts:256-261`).
  - `updateActivity`, `updateCompetency` and `addEvidence` on an id that no
    record carries leave the collection unchanged.
  - Updates reach every record carrying the id, duplicates included.

## Model

| member | source | states |
|---|---|---|
| `Counting.Count` | rwa-frontend/lib/pdr.ts:57-59 | the `filter(…).length` idiom: never more than the length; `CountZero`, `CountFull`, `CountAppend`, `CountPermutation`, `CountMonotone` and `CountComplement` carry its laws |
| `Records.MergeActivity` | rwa-frontend/stores/contract.ts:274 | for each of the ten fields: present in the patch, the patch's value wins; absent, the record's value is kept |
| `Records.MergeCompetency` | rwa-frontend/stores/contract.ts:302 | for each of the six fields: present in the patch, the patch's value wins; absent, the record's value is kept |
| `Records.MergeProfile` | rwa-frontend/lib/pdr.ts:31-42 | for each of the nine fields: present in the patch, the patch's value wins; absent, the record's value is kept |
| `Records.MergeActivityLaws` | rwa-frontend/stores/contract.ts:273-275 | the empty patch is the identity, and spreading the same patch twice equals spreading it once (the per-field laws are `Records.MergeActivity`'s contract) |
| `Records.MergeCompetencyLaws` | rwa-frontend/stores/contract.ts:301-303 | the same identity and idempotence laws for competencies (the per-field laws are `Records.MergeCompetency`'s contract) |
| `Records.MergeProfileLaws` | rwa-frontend/lib/pdr.ts:31-42 | the same identity and idempotence laws for profiles (the per-field laws are `Records.MergeProfile`'s contract) |
| `Pdr.CreateActivity` | rwa-frontend/lib/pdr.ts:6-17 | each absent field takes its default (fresh id, training, empty texts, today, empty lists, pending, no reflection); the result already carries every supplied field, `id` included |
| `Pdr.CreateCompetency` | rwa-frontend/lib/pdr.ts:19-29 | absent fields default to the fresh id, empty name/description, beginner, in_progress, no evidence; supplied fields win |
| `Pdr.CreateProfile` | rwa-frontend/lib/pdr.ts:31-42 | absent fields default to the fresh id, empty texts, joined today, empty goal/competency/certification lists; supplied fields win |
| `Pdr.ValidityUnderMerge` | rwa-frontend/lib/pdr.ts:44-51 | `validateActivity` under the update spread: a patch leaving title, description, completion date and provider absent (a status change) keeps validity as it was; supplying all four non-empty makes the record valid; supplying any of them empty makes it invalid (validity of freshly created records is `Pdr.CreatedActivityValidity`) |
| `Pdr.CreatedActivityValidity` | rwa-frontend/lib/pdr.ts:44-51 | a created activity is valid iff title, description and provider were supplied non-empty and the date (supplied or today) is non-empty; leaving any of the three out makes it invalid |
| `Pdr.CompetencyProgress` | rwa-frontend/lib/pdr.ts:53-61 | 0 for empty evidence; otherwise 100·verified/total rounded half up (within ½ of it, ties upward); always within 0..100 |
| `Pdr.RoundedPercentUnique` | rwa-frontend/lib/pdr.ts:60 | the half-up rounding bound determines the percentage uniquely |
| `Pdr.ProgressMonotone` | rwa-frontend/lib/pdr.ts:57-60 | with the evidence length fixed, making more items verified never lowers progress |
| `Pdr.ProgressFull` | rwa-frontend/lib/pdr.ts:57-60 | all evidence verified gives 100; below 200 items, 100 holds iff every item is verified |
| `Pdr.ProgressRoundsUpToFull` | rwa-frontend/lib/pdr.ts:60 | 199 verified out of 200 rounds to 100 although one item is unverified |
| `Pdr.LevelRequirements` | rwa-frontend/lib/pdr.ts:63-76 | every level needs at least one verified item and never more verified than total items |
| `Pdr.RequirementsMonotone` | rwa-frontend/lib/pdr.ts:69-75 | both thresholds are non-decreasing along beginner < intermediate < advanced < expert |
| `Pdr.NextLevel` | rwa-frontend/lib/pdr.ts:83-88 | the successor is exactly one rank higher, except expert, which is its own successor |
| `Pdr.CanLevelUp` | rwa-frontend/lib/pdr.ts:78-97 | eligibility needs at least 3 evidence items, at least 2 verified and progress of at least 75 (the lemmas below characterise it further) |
| `Pdr.CanLevelUpNeedsThreeItems` | rwa-frontend/lib/pdr.ts:78-97 | fewer than 3 evidence items or fewer than 2 verified never allow a level-up |
| `Pdr.CanLevelUpMeetsCurrentLevel` | rwa-frontend/lib/pdr.ts:78-97 | eligibility for the next level implies the current level's thresholds are met |
| `Pdr.CanLevelUpWhenAllVerified` | rwa-frontend/lib/pdr.ts:78-97 | fully verified evidence that reaches the next level's evidence count is always eligible |
| `Pdr.ExpertIsFixedPoint` | rwa-frontend/lib/pdr.ts:83-97 | at expert, eligibility is ≥ 6 verified, ≥ 8 items and progress ≥ 75, the expert thresholds again |
| `Pdr.IntermediateWithFourItems` | rwa-frontend/lib/pdr.ts:78-97 | intermediate with 3 of 4 verified: progress 75, yet not eligible (advanced needs 5 items) |
| `Pdr.BeginnerWithOneVerifiedItem` | rwa-frontend/lib/pdr.ts:78-97 | beginner with 1 of 1 verified: progress 100, yet not eligible (intermediate needs 3 items) |
| `Pdr.CreatedCompetencyStartsEmpty` | rwa-frontend/lib/pdr.ts:19-29 | a competency created without evidence has progress 0 and cannot level up |
| `PdrUtils.Rate` | rwa-frontend/lib/pdr-utils.ts:122 | 0 for a zero total; otherwise rate·total = part·100, within 0..100 when part ≤ total, and 100 iff part = total |
| `PdrUtils.CalculateCompetencyStats` | rwa-frontend/lib/pdr-utils.ts:111-124 | total is the length; achieved and inProgress count the two statuses and add up to total; empty list gives all zeros; the rate is `Rate(achieved, total)`, i.e. achieved/total·100, within 0..100 and 100 iff the list is non-empty and all achieved |
| `PdrUtils.CompetencyStatsPermutation` | rwa-frontend/lib/pdr-utils.ts:111-124 | the competency statistics are the same for any reordering of the list |
| `PdrUtils.ActivityStatsOf` | rwa-frontend/lib/pdr-utils.ts:126-142 | total is the length; verified and pending count their statuses and leave exactly the rejected ones over; byType entries are positive; the empty list gives zeros, an empty byType and rate 0; the rate is `Rate(verified, total)`, i.e. verified/total·100, within 0..100 |
| `PdrUtils.CountsByStatus` | rwa-frontend/lib/pdr-utils.ts:127-129 | verified + pending + rejected = total |
| `PdrUtils.TypeCounts` | rwa-frontend/lib/pdr-utils.ts:130-133 | every byType entry is between 1 and the number of activities; no activities give an empty map |
| `PdrUtils.TypeCountsKeys` | rwa-frontend/lib/pdr-utils.ts:130-133 | a type is a byType key iff some activity has it, and its entry is positive |
| `PdrUtils.TypeCountsStep` | rwa-frontend/lib/pdr-utils.ts:131 | one more activity bumps its own type's count by one (from 0 when absent) and no other |
| `PdrUtils.CalculateActivityStats` | rwa-frontend/lib/pdr-utils.ts:126-142 | the reduce loop over the activities builds exactly the reference statistics `ActivityStatsOf`, byType included |
| `PdrUtils.ByTypeSumsToTotal` | rwa-frontend/lib/pdr-utils.ts:130-133 | the byType counts add up to total |
| `PdrUtils.TwoVerifiedOnePending` | rwa-frontend/lib/pdr-utils.ts:126-142 | verified, verified, pending gives total 3, verified 2, pending 1, rate 200/3 |
| `PdrUtils.ActivityStatsPermutation` | rwa-frontend/lib/pdr-utils.ts:126-142 | the activity statistics, byType included, are the same for any reordering of the list |
| `PdrUtils.ValidateCompetencyLevel` | rwa-frontend/lib/pdr-utils.ts:145-153 | passing implies the threshold is at most the number of evidence items, and, for a positive threshold, that some item is verified; a threshold of 0 or less always passes |
| `PdrUtils.ValidateCompetencyLevelStable` | rwa-frontend/lib/pdr-utils.ts:145-153 | passing for a threshold implies passing for every lower one; appending evidence never makes it fail; level-up eligibility implies passing for the next level's verified count |
| `PdrUtils.StatusColor` | rwa-frontend/lib/pdr-utils.ts:156-165 | a listed status gets its table colour; grey exactly for unlisted strings |
| `PdrUtils.LevelColor` | rwa-frontend/lib/pdr-utils.ts:167-175 | a listed level gets its table colour; grey exactly for unlisted strings |
| `PdrUtils.ColorsForRecordValues` | rwa-frontend/lib/pdr-utils.ts:156-175 | every activity and competency status gets a non-grey colour; the four levels get four distinct non-grey colours |
| `Store.MockDataFacts` | rwa-frontend/stores/contract.ts:48-91 | the mock activities are valid, both verified (rate 100) and distinctly identified; the mock competencies have progress 0 and cannot level up |
| `Store.UpdateActivities` | rwa-frontend/stores/contract.ts:273-275 | length is kept; every record with the id becomes its merge with the updates; every other record is unchanged |
| `Store.UpdateActivitiesUnknownId` | rwa-frontend/stores/contract.ts:273-275 | an id no record has leaves the activities unchanged |
| `Store.UpdateActivitiesIdempotent` | rwa-frontend/stores/contract.ts:273-275 | applying the same update twice equals applying it once |
| `Store.RemoveActivity` | rwa-frontend/stores/contract.ts:288 | no survivor has the id, and the length drops by exactly the number of records with the id |
| `Store.RemoveActivityKeepsOthers` | rwa-frontend/stores/contract.ts:288 | every record with another id survives as often as it occurred |
| `Store.RemoveActivityConcat` | rwa-frontend/stores/contract.ts:288 | deletion distributes over concatenation, so survivors keep their original order |
| `Store.RemoveActivityIdempotent` | rwa-frontend/stores/contract.ts:285-296 | deleting twice equals deleting once; deleting an absent id changes nothing |
| `Store.UpdateCompetencies` | rwa-frontend/stores/contract.ts:301-303 | length is kept; every competency with the id becomes its merge with the updates; every other one is unchanged |
| `Store.UpdateCompetenciesEffect` | rwa-frontend/stores/contract.ts:298-311 | an unknown id changes nothing; an update without `evidence` keeps every evidence list |
| `Store.AppendEvidence` | rwa-frontend/stores/contract.ts:316-320 | length is kept; a competency with the id gets the activity appended to its evidence; every other one is unchanged |
| `Store.AppendEvidenceEffect` | rwa-frontend/stores/contract.ts:313-328 | the matching competency's evidence grows by exactly one, with the old evidence as prefix and the activity last; its other fields stay; its verified count rises by one iff the activity is verified |
| `Store.AppendEvidenceUnknownId` | rwa-frontend/stores/contract.ts:316-320 | an unknown competency id leaves the competencies unchanged |
| `Store.PdrStore.constructor` | rwa-frontend/stores/contract.ts:103-107 | the store starts with no activities, no competencies and not loading |
| `Store.PdrStore.FetchActivities` | rwa-frontend/stores/contract.ts:232-242 | activities become the mock list whatever the user id; competencies unchanged; not loading afterwards |
| `Store.PdrStore.FetchCompetencies` | rwa-frontend/stores/contract.ts:244-254 | competencies become the mock list whatever the user id; activities unchanged; not loading afterwards |
| `Store.PdrStore.AddActivity` | rwa-frontend/stores/contract.ts:256-268 | the given record, unvalidated, is appended after all earlier ones; competencies unchanged; not loading afterwards |
| `Store.PdrStore.UpdateActivity` | rwa-frontend/stores/contract.ts:270-283 | activities become the merge-update rebuild; competencies and their evidence records unchanged; not loading afterwards |
| `Store.PdrStore.DeleteActivity` | rwa-frontend/stores/contract.ts:285-296 | activities become the filtered rebuild; competencies unchanged; not loading afterwards |
| `Store.PdrStore.UpdateCompetency` | rwa-frontend/stores/contract.ts:298-311 | competencies become the merge-update rebuild; activities unchanged; not loading afterwards |
| `Store.PdrStore.AddEvidence` | rwa-frontend/stores/contract.ts:313-328 | competencies become the evidence-append rebuild; activities unchanged; not loading afterwards |

## Left out

- The token and ledger half of `stores/contract.ts` (`fetchContractData`, `fetchUserData`, `refreshBalance`, `transfer`, `clearError`, `setContractId`) is not modelled. It calls a contract client in `lib/contract`, which is not part of this model.
- `lib/stellar.ts`, `lib/auto-token.ts`, the page components and `Header.tsx` are not modelled. They are network, wallet-signing and UI rendering code.
- PDF report generation and date formatting in `lib/pdr-utils.ts` and `lib/pdr.ts` (`formatDate`) are not modelled. They are calls into jsPDF, date-fns and locale formatting.
- `generateId` (uuid v4) and the "today" default read randomness and the clock. The factories take both as parameters.
- The store's `error` string and the `catch` branches are not modelled. With records of the declared shape no PDR action throws; the only throw on in-memory data comes from a field explicitly set to `undefined` (for example `addEvidence` after `updateCompetency(id, {evidence: undefined})` fails at `stores/contract.ts:318` and rethrows after setting `error`), which the model cannot express (see the merge lines below). Each action is one atomic step, so the `isLoading = true` interval inside an action is not observable.
- `Pdr.CompetencyProgress`: does not model floating-point representation error. `Math.round` of the float quotient may differ from exact half-up rounding when `100·v/n` lies within rounding error of a half.
- `PdrUtils.Rate`: does not model floating-point representation error; the rates are exact rationals.
- `Records.MergeActivity`: does not model a patch that carries a field explicitly set to `undefined`. In JavaScript such a field overwrites the record's value with `undefined`; here an absent field never clears.
- `Records.MergeCompetency`: the same gap; a competency whose `evidence` was set to `undefined` makes later progress, level-up and evidence code throw, which the model cannot reach.
- `Records.MergeProfile`: the same gap for profiles.
- `Pdr.CreateActivity`: the same gap through `...data` (`lib/pdr.ts:16`); a field passed as `undefined` replaces the default instead of keeping it.
- `Pdr.CreateCompetency`: the same gap through `...data` (`lib/pdr.ts:28`); for example `evidence: undefined` yields a competency whose progress computation throws, where the model gives 0.
- `Pdr.CreateProfile`: the same gap through `...data` (`lib/pdr.ts:41`).
- `PdrUtils.ValidateCompetencyLevel`: the threshold is an integer; the TypeScript parameter is any `number`, so fractional thresholds (which behave like their ceiling) and `NaN` (which always fails) are not modelled.
- `PdrUtils.StatusColor`: does not model lookups of inherited object keys (such as `"constructor"`). In JavaScript these return a prototype member instead of the grey default. `PdrUtils.LevelColor` has the same gap.
- `lib/types.ts` is not part of this model. The element types of a profile's `competencies` and `certifications` lists are modelled as opaque strings.
