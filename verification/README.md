# kayaclock-utils data model in Dafny

This project models the data model of the kayaclock slalom timing system:
- the domain enumerations: penalisations, miss reasons, boat, age and gender categories, and performance ratings;
- the validated value objects: run identifier, gate result and registration numbers;
- the persisted records of a racer's run and of a racer.

Each record is modelled twice:
- as a raw input record, where every field may be absent;
- as the validated value.

A validator maps the first to the second. It either succeeds or reports the set of errors found. Each error is a location (a path of field names, list positions and map keys) paired with an error kind.

The derived quantities are modelled as functions:
- the clean time of a run, from start to finish;
- the total penalty seconds;
- the full time, which is clean time plus penalties;
- the racer's final time, the best full time of the two regular runs.

Times are integer microseconds. An aware timestamp is a wall-clock value plus its offset from UTC.

Modules follow the source files:

- `Wrappers`: `Option`.
- `Enums` (`kayaclock_utils/data/enums.py`): the enumerations, their codes, and parsers from a code back to a member.
- `Validation`: the shape of validation errors and how field checks are combined over records, tuples, lists and maps. It models how the validation library reports errors, not code of the repository.
- `BasicTypes` (`kayaclock_utils/data/basic_types.py`): positive identifiers, registration numbers, `RunID`, `GateResult`.
- `Validators` (`kayaclock_utils/data/validators.py`): aware timestamps, the check that an input timestamp carries an offset, and the timestamp field check, as written and corrected.
- `DbModels` (`kayaclock_utils/data/db_models.py`): `RacerRun` and `Racer`, their derived times, and their validation.
- `TestData` (`test_data.py`): the repository's unit-test scenarios as lemmas about the model.

The number of gates is a configuration constant of the repository. Here it is the parameter `gateCount` (a positive integer).

Validation follows the rules of the validation library (pydantic, version 1) as kayaclock-utils uses them:
- A field's type check runs first. An ordinary custom validator on a field runs after it, and only when the field passed.
- A validator declared `pre=True` runs before the type check, on any value given, null included. The timestamp validator of `validators.py:14-15` is one, which is why an explicit null on a timestamp raises (see "## Findings").
- A custom validator sees only the earlier fields that passed.
- A whole-record check sees a failed field as absent. So `RunID` with `assigned_number` 0 reports two errors: the literal check, and the exclusivity check at `__root__`.
- A bounded list with the wrong length is rejected before its items are looked at.
- Nested errors carry their full path, for example `runs, 0, penalisations, 3, miss_reason`.
- A field left out of an input record is not validated, unless its validator is declared `always=True`. The `miss_reason` validator (`basic_types.py:61`) is one, so a gate result with penalisation 50 and no `miss_reason` fails its pairing check.

## Model

| member | source | states |
|---|---|---|
| `Enums.PenalisationFromValue` | kayaclock_utils/data/enums.py:64-67 | exactly the integers 0, 2 and 50 name a penalisation, and the member read has that value as its severity |
| `Enums.PenalisationValueRoundTrip` | kayaclock_utils/data/enums.py:64-67 | reading back a penalisation's integer value yields the same member |
| `Enums.MissIsUniqueMaximum` | kayaclock_utils/data/enums.py:64-67 | every severity lies in 0..50, and MISS is the only penalisation with the maximum 50 |
| `Enums.BoatCategoryFromCode` | kayaclock_utils/data/enums.py:40-48 | a code names a boat category exactly when it is one of K1, C1, C2, OTHER; the member read carries that code, and no member carries a rejected code |
| `Enums.BoatCategoryCodeRoundTrip` | kayaclock_utils/data/enums.py:40-48 | reading back a boat category's code yields the same member |
| `Enums.OnlyC2SeatsTwo` | kayaclock_utils/data/db_models.py:76 | the expected number of registration numbers is 1 or 2, and it is 2 exactly for C2 |
| `Enums.MissReasonFromCode` | kayaclock_utils/data/enums.py:71-83 | a code names a miss reason exactly when it is one of A to F, and the member read carries that code |
| `Enums.MissReasonCodeRoundTrip` | kayaclock_utils/data/enums.py:71-83 | reading back a miss reason's code yields the same member |
| `Enums.AgeCategoryFromCode` | kayaclock_utils/data/enums.py:5-25 | a code names an age category exactly when it is one of the ten codes, and the member read carries that code |
| `Enums.AgeCategoryCodeRoundTrip` | kayaclock_utils/data/enums.py:5-25 | reading back an age category's code yields the same member |
| `Enums.GenderCategoryFromCode` | kayaclock_utils/data/enums.py:28-36 | a code names a gender category exactly when it is M, Z, X or OTHER, and the member read carries that code |
| `Enums.GenderCategoryCodeRoundTrip` | kayaclock_utils/data/enums.py:28-36 | reading back a gender category's code yields the same member |
| `Enums.PerformanceRatingFromCode` | kayaclock_utils/data/enums.py:52-60 | a code names a performance rating exactly when it is one of M, 1, 2+, 2, 3+, 3, -, and the member read carries that code |
| `Enums.PerformanceRatingCodeRoundTrip` | kayaclock_utils/data/enums.py:52-60 | reading back a performance rating's code yields the same member |
| `BasicTypes.ParsePositiveInt` | kayaclock_utils/data/basic_types.py:18-22 | an identifier is accepted exactly when it is positive, and is kept unchanged |
| `BasicTypes.RegNumbersFromSeq` | kayaclock_utils/data/basic_types.py:26-28 | registration numbers are accepted exactly when there are one or two, and they are kept in order |
| `BasicTypes.RegNumbersRoundTrip` | kayaclock_utils/data/basic_types.py:26-28 | every registration-number tuple has one or two entries and reads back as itself |
| `BasicTypes.ParseSlot` | kayaclock_utils/data/basic_types.py:43 | an assigned run number is accepted exactly when it is 1 or 2 |
| `BasicTypes.ValidateRunID` | kayaclock_utils/data/basic_types.py:31-51 | a run identifier is valid exactly when it holds a number in {1, 2} or an other-id, but not both; a valid identifier writes back to its input; a bad number is a const error at `assigned_number`; the root assertion fails exactly when a valid number and an other-id are both present or both absent; no other error is reported |
| `BasicTypes.RunIDRoundTrip` | kayaclock_utils/data/basic_types.py:31-51 | writing a run identifier out and validating it again gives it back |
| `BasicTypes.ValidateGateResult` | kayaclock_utils/data/basic_types.py:54-69 | a gate result is valid exactly when its penalisation is one of 0, 2 and 50, any miss reason is one of A to F, and a miss reason is present exactly for a miss; valid results are well formed and write back to their input; each of the four possible errors is reported exactly in its case; the pairing check is skipped when either field failed its own check |
| `BasicTypes.GateResultRoundTrip` | kayaclock_utils/data/basic_types.py:54-69 | writing a well-formed gate result out and validating it again gives it back |
| `Validators.ValidateTime` | kayaclock_utils/data/validators.py:7-11 | a timestamp is accepted exactly when it carries a UTC offset, and is kept unchanged |
| `Validators.TimeRoundTrip` | kayaclock_utils/data/validators.py:7-11 | every aware timestamp is accepted as itself |
| `Validators.TimeField` | kayaclock_utils/data/validators.py:7-15 | corrected timestamp field: a field left out or null is no timestamp; a given timestamp is valid exactly when it carries an offset, is kept unchanged, and otherwise reports exactly one assertion error at the field |
| `Validators.TimeFieldAsWritten` | kayaclock_utils/data/validators.py:7-15 | as written, the timestamp field check raises instead of reporting exactly when the field is an explicit null, and otherwise agrees with the corrected check |
| `Validators.TimeFieldRoundTrip` | kayaclock_utils/data/validators.py:7-15 | every optional timestamp, written out with absence as null, reads back as itself under the corrected check |
| `Validators.AbsentTimeRoundTripCrashes` | kayaclock_utils/data/validators.py:7-11 | as written, an absent timestamp written out as null cannot be read back |
| `Validators.Elapsed` | kayaclock_utils/data/db_models.py:39 | the difference of two aware timestamps takes the start instant to the finish instant; with a shared offset it is the wall-clock difference |
| `Validators.ElapsedIgnoresZone` | kayaclock_utils/data/db_models.py:39 | re-expressing either endpoint in another zone does not change the elapsed time |
| `DbModels.DefaultPenalisations` | kayaclock_utils/data/db_models.py:26-28 | the default penalisation list has one slot per gate and every slot is unjudged |
| `DbModels.DefaultRun` | kayaclock_utils/data/db_models.py:23-29 | the default run has neither timestamp nor comment, has the default all-unjudged penalisation list, and fits the course |
| `DbModels.SumSeverities` | kayaclock_utils/data/db_models.py:41-47 | the total penalty never exceeds 50 seconds per gate |
| `DbModels.TotalPenalisations` | kayaclock_utils/data/db_models.py:41-47 | the slot-by-slot loop computes the sum of the severities of the recorded results |
| `DbModels.SumByCounts` | kayaclock_utils/data/db_models.py:41-47 | the total penalty is 2 seconds per touch plus 50 per miss |
| `DbModels.UnjudgedRunHasNoPenalty` | kayaclock_utils/data/db_models.py:41-47 | a run with no recorded results has no penalty |
| `DbModels.SumAfterUpdate` | kayaclock_utils/data/db_models.py:41-47 | replacing one gate's result changes the total by exactly the difference of the severities |
| `DbModels.RecordingNeverLowersTotal` | kayaclock_utils/data/db_models.py:41-47 | recording a result at an unjudged gate adds exactly its severity and never lowers the total |
| `DbModels.CleanTime` | kayaclock_utils/data/db_models.py:35-39 | the clean time is absent exactly when an endpoint is missing; otherwise it takes the start instant to the finish instant, and it may be negative |
| `DbModels.FullTime` | kayaclock_utils/data/db_models.py:49-54 | the full time is known exactly when the clean time is |
| `DbModels.FullTimeByCounts` | kayaclock_utils/data/db_models.py:49-54 | the full time is the clean time plus 2 seconds per touch and 50 per miss |
| `DbModels.FullTimeBounds` | kayaclock_utils/data/db_models.py:49-54 | on a well-formed run, the full time lies between the clean time and the clean time plus 50 seconds per gate, and it differs from the clean time by whole seconds |
| `DbModels.ScanMin` | kayaclock_utils/data/db_models.py:81-88 | the scan yields nothing exactly when nothing is defined; otherwise it yields one of the candidates, and that value is at most every defined candidate |
| `DbModels.FinalTime` | kayaclock_utils/data/db_models.py:81-88 | the final time is absent exactly when neither regular run has a full time; otherwise it is one of the two full times and at most each defined one |
| `DbModels.FinalTimeIgnoresOtherRuns` | kayaclock_utils/data/db_models.py:81-88 | extra runs never change the final time |
| `DbModels.ValidateSlot` | kayaclock_utils/data/db_models.py:27 | an unjudged slot is valid; a present slot is valid exactly when its gate result is, and reports exactly that result's errors |
| `DbModels.ValidateSlots` | kayaclock_utils/data/db_models.py:26-27 | a list of slots is valid exactly when every slot is, and keeps length and values; its errors are exactly the slots' errors, each under `penalisations` and the slot's position |
| `DbModels.ValidSlotsWellFormed` | kayaclock_utils/data/db_models.py:26-27 | validated slots hold only well-formed gate results |
| `DbModels.ValidatePenalisations` | kayaclock_utils/data/db_models.py:26-28 | an absent list is all slots unjudged; a shorter list is exactly one min-items error and a longer one exactly one max-items error; a list of the right length is checked slot by slot; valid lists fit the course |
| `DbModels.ValidateRun` | kayaclock_utils/data/db_models.py:23-33 | a run is valid exactly when every given timestamp carries an offset and its penalisation list is valid; a valid run fits the course, holds the given timestamps (none for a field left out or null), the validated penalisation list and the comment; timestamps go through the corrected check, where the code as written raises on an explicit null (see "## Findings") |
| `DbModels.RunErrors` | kayaclock_utils/data/db_models.py:23-33 | a run's errors are exactly an offset error on each timestamp lacking one, plus the errors of its penalisation list |
| `DbModels.RunRoundTrip` | kayaclock_utils/data/db_models.py:23-33 | writing a well-formed run out, with every field and an absent timestamp as null, and validating it again with the corrected timestamp check gives it back |
| `DbModels.EmptyRunIsDefault` | kayaclock_utils/data/db_models.py:23-29 | a run record with no fields validates to the untimed, unjudged run |
| `DbModels.UntimedRunReadCrashes` | kayaclock_utils/data/db_models.py:23-33 | as written, reading back a written-out run raises exactly when the run lacks a start or a finish time; the default run is such a run |
| `DbModels.ValidateRegNumbers` | kayaclock_utils/data/db_models.py:69-79 | registration numbers are valid exactly when there are one or two of them and, when the boat category is known, as many as its crew; the only errors are one missing error or one tuple-length error at `reg_numbers` |
| `DbModels.ValidateRunPair` | kayaclock_utils/data/db_models.py:64-66 | absent runs default to two empty runs; a list other than two runs is one tuple-length error; otherwise the pair is valid exactly when both runs are, holds the two validated runs, and its errors are exactly each run's errors under `runs` and the run's position; valid runs fit the course |
| `DbModels.ValidateOtherRuns` | kayaclock_utils/data/db_models.py:67 | absent extra runs are none; the map is valid exactly when every run is, keeps its keys and holds each validated run; its errors are exactly the runs' errors, each under `other_runs` and the run's name |
| `DbModels.RacerFieldChecks` | kayaclock_utils/data/db_models.py:57-79 | the identifier check passes exactly when an id is given and positive, else reports one missing or not-greater-than error at `id`; each category check passes exactly when a code is given and names a member, else reports one missing or enum error at its field; the registration numbers are checked against the boat category only when that check passed |
| `DbModels.CheckRacerFields` | kayaclock_utils/data/db_models.py:57-79 | each field check reports only at its own field, and passed checks agree: registration numbers match the crew of a passed boat category, and every passed run fits the course |
| `DbModels.ValidateRacer` | kayaclock_utils/data/db_models.py:57-79 | a racer is valid exactly when no field check reports an error, and its errors are the union of the field checks' errors; a valid racer is well formed, its identifier, categories and registration numbers are exactly the given ones, and its runs and extra runs are the validated ones; runs go through the corrected timestamp check, where the code as written raises on an explicit null (see "## Findings") |
| `DbModels.RacerErrorsLocated` | kayaclock_utils/data/db_models.py:57-67 | every racer error is located under one of the racer's fields |
| `DbModels.RegNumbersErrors` | kayaclock_utils/data/db_models.py:69-79 | a racer has a missing error at `reg_numbers` exactly when the numbers are absent, and a tuple-length error exactly when the count is not 1 or 2, or the boat category is valid and the count differs from its crew |
| `DbModels.RunPairRoundTrip` | kayaclock_utils/data/db_models.py:64-66 | writing two well-formed runs out and validating them again gives them back |
| `DbModels.OtherRunsRoundTrip` | kayaclock_utils/data/db_models.py:67 | writing well-formed extra runs out and validating them again gives them back |
| `DbModels.RacerRoundTrip` | kayaclock_utils/data/db_models.py:57-67 | writing a well-formed racer out, with every field and absent timestamps as null, and validating it again with the corrected timestamp check gives it back |
| `TestData.AssignedNumbersAccepted` | test_data.py:39-41 | run numbers 1 and 2 are valid identifiers |
| `TestData.AssignedNumberZeroRejected` | test_data.py:43-46 | run number 0 reports exactly a const error at `assigned_number` and an assertion error at `__root__` |
| `TestData.OtherIdAccepted` | test_data.py:48-49 | an identifier with only an other-id is valid |
| `TestData.GateResultsAccepted` | test_data.py:53-63 | a miss with reason A, a touch and a clean pass are valid, with the expected members |
| `TestData.MissReasonPairingRejected` | test_data.py:65-71 | a miss without a reason, and a touch with one, each report exactly one assertion error at `miss_reason` |
| `TestData.PenalisationRequired` | test_data.py:73-75 | an empty gate result reports exactly one missing error at `penalisation` |
| `TestData.TimestampNeedsOffset` | test_data.py:142-152 | a timestamp with an offset is accepted and one without is rejected |
| `TestData.FastRunFullTime` | test_data.py:88-94 | the first test run is valid, and its full time is 102.168496 s plus 52 s of penalties |
| `TestData.TenYearRunFullTime` | test_data.py:95-98 | a run timed from 2000 to 2010 with no penalisations is valid, and its full time is its clean time |
| `TestData.K1RacerValid` | test_data.py:80-101 | the K1 racer of the tests validates, with the expected field values, whenever its two runs do |
| `TestData.FinalTimeOfTwoRuns` | test_data.py:79-102 | the racer with both runs timed is valid, and its final time is 154.168496 s |
| `TestData.FinalTimeOfOneRun` | test_data.py:104-122 | the racer with only the first run timed is valid, and its final time is 3600 s |
| `TestData.RegNumbersCountDecides` | test_data.py:124-139 | with every other field valid, a racer is valid exactly when the count of registration numbers equals the boat's crew; any other count reports exactly one tuple-length error at `reg_numbers` |

## Left out

- Pydantic machinery is not modelled: type coercion (for example the string "50" accepted as a penalisation), model configuration, immutability, and the exact error messages. Each error is modelled by its location and kind only.
- Explicit `null` values are modelled on timestamp fields only (see "## Findings"). On other fields an explicit null is treated like a field left out. That matches the library only on an `Optional` field. On a required field the library reports a none-not-allowed error instead of a missing error. On `penalisations`, `runs` and `other_runs`, which have a default but are not `Optional`, it reports `type_error.none.not_allowed` where the model takes the default.
- ISO 8601 parsing in `validators.py:7-11` is not modelled. A timestamp is given already split into wall-clock microseconds and an optional offset, and only the "must carry an offset" rule is modelled. Malformed strings are not modelled.
- Times are integer microseconds, not floating-point seconds. So `clean_time`, `full_time` and `final_time` are exact here, while the code uses `float` seconds and rounds.
- The `gate_count` configuration module is not part of this model. The gate count is the parameter `gateCount`.
- `Person` (`db_models.py:14-20`) is left out because it has no behaviour beyond field types.
- `transport_structures.py` and `race_config.py` are left out. They are transport and configuration records around this core. Only their timestamp rule is covered, through `ValidateTime`.
- The enumeration members `GenderCategory.M/Z/X` and `PerformanceRating.MISTR/ONE/…/NONE` are renamed (`Man`, `Woman`, `Mixed`, `Mistr`, `One`, …, `Unrated`). Their codes are unchanged.
- Registration numbers are not checked for content: `RegistrationNumber` is a plain `str` (kayaclock_utils/data/basic_types.py:24) and only the count is checked, so the model accepts an empty string.
- Validators.Elapsed: only fixed-offset timestamps are modelled. Python subtracts two datetimes that share one `tzinfo` object by wall clock, so a run with a zone-aware time zone that spans a daylight-saving change would differ from the model.
- `DbModels.CleanTime`: a finish before the start gives a negative clean time. It is not rejected, as in the code.

## Findings

| source | as written | input that shows it | evidently intended | confidence | as-written member | corrected member |
|---|---|---|---|---|---|---|
| kayaclock_utils/data/validators.py:7-11 | the timestamp pre-validator reads `dt.tzinfo` of any value it gets; an explicit `None` on the optional `start_time` / `finish_time` raises `AttributeError`, which the validation library does not turn into a validation error | `RacerRun.parse_obj(RacerRun().dict())`: `.dict()` writes `start_time: None`, so the default run cannot be read back from its own dump | an explicit null on an optional timestamp reads as no timestamp, so that every run reads back from its dump | medium, not executed | `Validators.TimeFieldAsWritten`, `DbModels.UntimedRunReadCrashes` | `Validators.TimeField`, `DbModels.RunRoundTrip` |
