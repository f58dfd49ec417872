/** The persistent records of the timing data model
    (kayaclock_utils/data/db_models.py): one run of a racer with its derived
    clean, penalty and full times, and the racer with its registration numbers
    and derived final time. All times are integer microseconds. */
module DbModels {
  import opened Wrappers
  import opened Enums
  import opened Validation
  import opened BasicTypes
  import opened Validators

  /** Number of gates on the course: the length of every penalisation sequence. */
  type GateCount = n: int | n > 0 witness 1

  // ===========================================================================
  // Racer run
  // ===========================================================================

  /** One slot per gate; an absent slot means no result is recorded there. */
  type Slots = seq<Option<GateResult>>

  predicate SlotsWellFormed(slots: Slots)
  {
    forall i :: 0 <= i < |slots| && slots[i].Some? ==> slots[i].value.WellFormed()
  }

  datatype RacerRun = RacerRun(
    startTime: Option<AwareTime>,
    finishTime: Option<AwareTime>,
    penalisations: Slots,
    comment: Option<string>)
  {
    predicate WellFormed(gateCount: GateCount)
    {
      |penalisations| == gateCount && SlotsWellFormed(penalisations)
    }
  }

  /** The penalisations of a run nobody has judged yet. */
  function DefaultPenalisations(gateCount: GateCount): (slots: Slots)
    ensures |slots| == gateCount
    ensures forall i :: 0 <= i < |slots| ==> slots[i].None?
  {
    seq(gateCount, _ => None)
  }

  /** The run a racer starts with: untimed, unjudged at every gate, no comment. */
  function DefaultRun(gateCount: GateCount): (run: RacerRun)
    ensures run.WellFormed(gateCount)
    ensures run.startTime.None? && run.finishTime.None? && run.comment.None?
    ensures run.penalisations == DefaultPenalisations(gateCount)
  {
    RacerRun(None, None, DefaultPenalisations(gateCount), None)
  }

  // ---------------------------------------------------------------------------
  // Penalty seconds
  // ---------------------------------------------------------------------------

  /** Penalty seconds of one slot; an absent slot adds nothing. */
  function SlotSeverity(slot: Option<GateResult>): nat
  {
    if slot.None? then 0 else slot.value.penalisation.Severity()
  }

  /** Reference definition of the total penalty: the severities of the
      recorded results, summed. Each slot adds at most MaxSeverity. */
  function SumSeverities(slots: Slots): (t: nat)
    ensures t <= MaxSeverity * |slots|
  {
    if |slots| == 0 then 0
    else SumSeverities(slots[..|slots| - 1]) + SlotSeverity(slots[|slots| - 1])
  }

  /** The penalty seconds of a run, summed slot by slot as the record does. */
  method TotalPenalisations(run: RacerRun) returns (t: nat)
    ensures t == SumSeverities(run.penalisations)
  {
    var slots := run.penalisations;
    t := 0;
    for i := 0 to |slots|
      invariant t == SumSeverities(slots[..i])
    {
      assert slots[..i + 1][..i] == slots[..i];
      if slots[i].Some? {
        t := t + slots[i].value.penalisation.Severity();
      }
    }
    assert slots[..|slots|] == slots;
  }

  /** Number of slots holding a result with penalisation `p`. */
  function CountOf(slots: Slots, p: Penalisation): (n: nat)
    ensures n <= |slots|
  {
    if |slots| == 0 then 0
    else CountOf(slots[..|slots| - 1], p) + (if slots[|slots| - 1].Some? && slots[|slots| - 1].value.penalisation == p then 1 else 0)
  }

  /** The total penalty is two seconds per touch and fifty per miss; clean
      passes and absent slots add nothing. */
  lemma {:induction false} SumByCounts(slots: Slots)
    ensures SumSeverities(slots) == 2 * CountOf(slots, TOUCH) + 50 * CountOf(slots, MISS)
  {
    if |slots| > 0 {
      SumByCounts(slots[..|slots| - 1]);
    }
  }

  /** A run nobody has judged carries no penalty. */
  lemma {:induction false} UnjudgedRunHasNoPenalty(slots: Slots)
    requires forall i :: 0 <= i < |slots| ==> slots[i].None?
    ensures SumSeverities(slots) == 0
  {
    if |slots| > 0 {
      UnjudgedRunHasNoPenalty(slots[..|slots| - 1]);
    }
  }

  /** Replacing the result of one gate changes the total by exactly the
      difference of the two severities. */
  lemma {:induction false} SumAfterUpdate(slots: Slots, i: int, x: Option<GateResult>)
    requires 0 <= i < |slots|
    ensures SumSeverities(slots[i := x]) == SumSeverities(slots) - SlotSeverity(slots[i]) + SlotSeverity(x)
  {
    var n := |slots|;
    if i == n - 1 {
      assert slots[i := x][..n - 1] == slots[..n - 1];
    } else {
      assert slots[i := x][..n - 1] == slots[..n - 1][i := x];
      SumAfterUpdate(slots[..n - 1], i, x);
    }
  }

  /** Recording a result at an unjudged gate never lowers the total, since no
      severity is negative. */
  lemma RecordingNeverLowersTotal(slots: Slots, i: int, g: GateResult)
    requires 0 <= i < |slots| && slots[i].None?
    ensures SumSeverities(slots[i := Some(g)]) == SumSeverities(slots) + g.penalisation.Severity()
    ensures SumSeverities(slots[i := Some(g)]) >= SumSeverities(slots)
  {
    SumAfterUpdate(slots, i, Some(g));
  }

  // ---------------------------------------------------------------------------
  // Clean and full time
  // ---------------------------------------------------------------------------

  /** Time from start to finish, known once both are recorded; a finish
      before the start gives a negative time and is not rejected. */
  function CleanTime(run: RacerRun): (r: Option<int>)
    ensures r.None? <==> run.startTime.None? || run.finishTime.None?
    ensures r.Some? ==> run.startTime.value.Instant() + r.value == run.finishTime.value.Instant()
  {
    if run.startTime.None? || run.finishTime.None? then None
    else Some(Elapsed(run.startTime.value, run.finishTime.value))
  }

  /** Clean time plus the penalty seconds, known exactly when the clean time is. */
  function FullTime(run: RacerRun): (r: Option<int>)
    ensures r.None? <==> CleanTime(run).None?
  {
    if CleanTime(run).None? then None
    else Some(CleanTime(run).value + SumSeverities(run.penalisations) * MicrosPerSecond)
  }

  /** The full time is the clean time plus two seconds per touch and fifty
      per miss. */
  lemma FullTimeByCounts(run: RacerRun)
    requires CleanTime(run).Some?
    ensures FullTime(run).value ==
              CleanTime(run).value + (2 * CountOf(run.penalisations, TOUCH) + 50 * CountOf(run.penalisations, MISS)) * MicrosPerSecond
  {
    SumByCounts(run.penalisations);
  }

  /** The full time lies between the clean time and the clean time plus a miss
      at every gate, and exceeds the clean time by whole penalty seconds. */
  lemma FullTimeBounds(gateCount: GateCount, run: RacerRun)
    requires run.WellFormed(gateCount)
    requires CleanTime(run).Some?
    ensures CleanTime(run).value <= FullTime(run).value <= CleanTime(run).value + MaxSeverity * gateCount * MicrosPerSecond
    ensures (FullTime(run).value - CleanTime(run).value) % MicrosPerSecond == 0
  {
    var t := SumSeverities(run.penalisations);
    assert t * MicrosPerSecond <= MaxSeverity * gateCount * MicrosPerSecond;
  }

  // ===========================================================================
  // Racer
  // ===========================================================================

  datatype Racer = Racer(
    id: RacerID,
    perfClass: PerformanceRating,
    genderCategory: GenderCategory,
    boatCategory: BoatCategory,
    ageCategory: AgeCategory,
    regNumbers: RegNumbers,
    runs: (RacerRun, RacerRun),
    otherRuns: map<string, RacerRun>)
  {
    predicate WellFormed(gateCount: GateCount)
    {
      && |regNumbers.Numbers()| == boatCategory.Crew()
      && runs.0.WellFormed(gateCount)
      && runs.1.WellFormed(gateCount)
      && forall k :: k in otherRuns ==> otherRuns[k].WellFormed(gateCount)
    }
  }

  // ---------------------------------------------------------------------------
  // Final time
  // ---------------------------------------------------------------------------

  /** One step of the scan: a defined time replaces the best so far only when
      it is strictly smaller, so the first of equal times is kept. */
  function Better(best: Option<int>, t: Option<int>): Option<int>
  {
    if t.Some? && (best.None? || t.value < best.value) then t else best
  }

  /** Scans `times` from the left starting from `best`; the result is the
      least defined value among `best` and `times`, absent when none is. */
  function ScanMin(best: Option<int>, times: seq<Option<int>>): (r: Option<int>)
    ensures r.None? <==> best.None? && forall i :: 0 <= i < |times| ==> times[i].None?
    ensures r.Some? ==> r == best || r in times
    ensures r.Some? && best.Some? ==> r.value <= best.value
    ensures r.Some? ==> forall i :: 0 <= i < |times| && times[i].Some? ==> r.value <= times[i].value
    decreases |times|
  {
    if |times| == 0 then best
    else ScanMin(Better(best, times[0]), times[1..])
  }

  /** The best full time over the two regular runs; extra runs do not count. */
  function FinalTime(racer: Racer): (r: Option<int>)
    ensures r.None? <==> FullTime(racer.runs.0).None? && FullTime(racer.runs.1).None?
    ensures r.Some? ==> r == FullTime(racer.runs.0) || r == FullTime(racer.runs.1)
    ensures r.Some? && FullTime(racer.runs.0).Some? ==> r.value <= FullTime(racer.runs.0).value
    ensures r.Some? && FullTime(racer.runs.1).Some? ==> r.value <= FullTime(racer.runs.1).value
  {
    var first := FullTime(racer.runs.0);
    var second := FullTime(racer.runs.1);
    var times := [first, second];
    assert forall t :: t in times ==> t == first || t == second;
    var best := ScanMin(None, times);
    assert best.None? <==> times[0].None? && times[1].None?;
    assert best.Some? && first.Some? ==> best.value <= times[0].value;
    assert best.Some? && second.Some? ==> best.value <= times[1].value;
    best
  }

  /** Extra runs never influence the final time. */
  lemma FinalTimeIgnoresOtherRuns(racer: Racer, others: map<string, RacerRun>)
    ensures FinalTime(racer.(otherRuns := others)) == FinalTime(racer)
  {
  }

  // ===========================================================================
  // Validation of input records
  // ===========================================================================

  /** A run as it arrives; an absent penalisation list means "all unjudged". */
  datatype RawRun = RawRun(
    startTime: RawTimeField,
    finishTime: RawTimeField,
    penalisations: Option<seq<Option<RawGateResult>>>,
    comment: Option<string>)

  const StartTimeField := Field(StartTimeName)
  const FinishTimeField := Field(FinishTimeName)
  const PenalisationsField := Field(PenalisationsName)

  /** One gate slot: absent stays absent, a present result is validated. */
  function ValidateSlot(raw: Option<RawGateResult>): (r: Checked<Option<GateResult>>)
    ensures r.Valid? <==> raw.None? || ValidateGateResult(raw.value).Valid?
    ensures r.Valid? ==> r.value == (if raw.None? then None else Some(ValidateGateResult(raw.value).value))
    ensures r.ErrorSet() == (if raw.None? then {} else ValidateGateResult(raw.value).ErrorSet())
  {
    match raw
    case None => Valid(None)
    case Some(g) =>
      match ValidateGateResult(g)
      case Valid(v) => Valid(Some(v))
      case Invalid(es) => Invalid(es)
  }

  /** The slots of a penalisation list of the right length, each validated
      under its position in the list. */
  function ValidateSlots(items: seq<Option<RawGateResult>>): (r: Checked<Slots>)
    ensures r.Valid? <==> forall i :: 0 <= i < |items| ==> ValidateSlot(items[i]).Valid?
    ensures r.Valid? ==> |r.value| == |items|
    ensures r.Valid? ==> forall i :: 0 <= i < |items| ==> r.value[i] == ValidateSlot(items[i]).value
    ensures forall i, e :: 0 <= i < |items| && e in ValidateSlot(items[i]).ErrorSet() ==>
              Error([PenalisationsField, Index(i)] + e.loc, e.kind) in r.ErrorSet()
    ensures forall e :: e in r.ErrorSet() ==>
              && |e.loc| >= 2 && e.loc[0] == PenalisationsField && e.loc[1].Index? && e.loc[1].i < |items|
              && Error(e.loc[2..], e.kind) in ValidateSlot(items[e.loc[1].i]).ErrorSet()
  {
    CheckListField(PenalisationsField, items, ValidateSlot)
  }

  /** Validated slots hold only well-formed gate results. */
  lemma ValidSlotsWellFormed(items: seq<Option<RawGateResult>>)
    requires ValidateSlots(items).Valid?
    ensures SlotsWellFormed(ValidateSlots(items).value)
  {
    var slots := ValidateSlots(items).value;
    forall i | 0 <= i < |slots| && slots[i].Some?
      ensures slots[i].value.WellFormed()
    {
      assert slots[i] == ValidateSlot(items[i]).value;
    }
  }

  /** The penalisation list has exactly one slot per gate: a list of the wrong
      length is rejected before its items are looked at; an absent list
      defaults to all slots unjudged. */
  function ValidatePenalisations(gateCount: GateCount, raw: Option<seq<Option<RawGateResult>>>): (r: Checked<Slots>)
    ensures raw.None? ==> r == Valid(DefaultPenalisations(gateCount))
    ensures r.Valid? ==> |r.value| == gateCount && SlotsWellFormed(r.value)
    ensures raw.Some? ==> (r.Valid? <==> |raw.value| == gateCount && ValidateSlots(raw.value).Valid?)
    ensures raw.Some? && |raw.value| < gateCount ==> r.ErrorSet() == {Error([PenalisationsField], ListMinItems)}
    ensures raw.Some? && |raw.value| > gateCount ==> r.ErrorSet() == {Error([PenalisationsField], ListMaxItems)}
    ensures raw.Some? && |raw.value| == gateCount ==> r == ValidateSlots(raw.value)
    ensures forall e :: e in r.ErrorSet() ==> |e.loc| > 0 && e.loc[0] == PenalisationsField
  {
    match raw
    case None => Valid(DefaultPenalisations(gateCount))
    case Some(items) =>
      if |items| < gateCount then Invalid(At(PenalisationsField, ListMinItems))
      else if |items| > gateCount then Invalid(At(PenalisationsField, ListMaxItems))
      else
        var r := ValidateSlots(items);
        if r.Valid? then ValidSlotsWellFormed(items); r else r
  }

  /** Field checks of a run: timestamps must carry an offset, the penalisation
      list must fit the course, the comment is free text. */
  function ValidateRun(gateCount: GateCount, raw: RawRun): (r: Checked<RacerRun>)
    ensures r.Valid? <==>
              && (raw.startTime.GivenTime? ==> raw.startTime.time.offset.Some?)
              && (raw.finishTime.GivenTime? ==> raw.finishTime.time.offset.Some?)
              && ValidatePenalisations(gateCount, raw.penalisations).Valid?
    ensures r.Valid? ==> r.value.WellFormed(gateCount)
    ensures r.Valid? ==>
              r.value.startTime == (if raw.startTime.GivenTime? then ValidateTime(raw.startTime.time) else None)
    ensures r.Valid? ==>
              r.value.finishTime == (if raw.finishTime.GivenTime? then ValidateTime(raw.finishTime.time) else None)
    ensures r.Valid? ==> r.value.penalisations == ValidatePenalisations(gateCount, raw.penalisations).value
    ensures r.Valid? ==> r.value.comment == raw.comment
  {
    var start := TimeField(StartTimeField, raw.startTime);
    var finish := TimeField(FinishTimeField, raw.finishTime);
    var slots := ValidatePenalisations(gateCount, raw.penalisations);
    var errors := start.ErrorSet() + finish.ErrorSet() + slots.ErrorSet();
    if errors == {} then Valid(RacerRun(start.value, finish.value, slots.value, raw.comment))
    else Invalid(errors)
  }

  /** The errors of a run are exactly: a missing offset on either
      timestamp, and the errors of its penalisation list. */
  lemma RunErrors(gateCount: GateCount, raw: RawRun)
    ensures Error([StartTimeField], Assertion) in ValidateRun(gateCount, raw).ErrorSet() <==>
              raw.startTime.GivenTime? && raw.startTime.time.offset.None?
    ensures Error([FinishTimeField], Assertion) in ValidateRun(gateCount, raw).ErrorSet() <==>
              raw.finishTime.GivenTime? && raw.finishTime.time.offset.None?
    ensures ValidatePenalisations(gateCount, raw.penalisations).ErrorSet() <= ValidateRun(gateCount, raw).ErrorSet()
    ensures forall e :: e in ValidateRun(gateCount, raw).ErrorSet() ==>
              || e == Error([StartTimeField], Assertion)
              || e == Error([FinishTimeField], Assertion)
              || e in ValidatePenalisations(gateCount, raw.penalisations).ErrorSet()
  {
  }

  function EncodeSlot(slot: Option<GateResult>): Option<RawGateResult>
  {
    if slot.None? then None else Some(EncodeGateResult(slot.value))
  }

  /** The input record a run is written as: every field is written, an
      absent timestamp as an explicit null. */
  function EncodeRun(run: RacerRun): RawRun
  {
    RawRun(
      EncodeTimeField(run.startTime),
      EncodeTimeField(run.finishTime),
      Some(seq(|run.penalisations|, i requires 0 <= i < |run.penalisations| => EncodeSlot(run.penalisations[i]))),
      run.comment)
  }

  lemma RunRoundTrip(gateCount: GateCount, run: RacerRun)
    requires run.WellFormed(gateCount)
    ensures ValidateRun(gateCount, EncodeRun(run)) == Valid(run)
  {
    var items := EncodeRun(run).penalisations.value;
    forall i | 0 <= i < |items|
      ensures ValidateSlot(items[i]) == Valid(run.penalisations[i])
    {
      if run.penalisations[i].Some? {
        GateResultRoundTrip(run.penalisations[i].value);
      }
    }
    var slots := ValidatePenalisations(gateCount, Some(items));
    assert slots.value == run.penalisations;
    TimeFieldRoundTrip(StartTimeField, run.startTime);
    TimeFieldRoundTrip(FinishTimeField, run.finishTime);
  }

  /** A run record given with no fields is the unjudged, untimed run. */
  lemma EmptyRunIsDefault(gateCount: GateCount)
    ensures ValidateRun(gateCount, RawRun(NoTime, NoTime, None, None)) == Valid(DefaultRun(gateCount))
  {
  }

  /** Whether reading a run record ends in an exception rather than a
      validation outcome, as the code is written: a timestamp check that
      raises ends the whole construction, whatever the other fields hold. */
  predicate RunReadCrashesAsWritten(raw: RawRun)
  {
    TimeFieldAsWritten(StartTimeField, raw.startTime).Crashed?
    || TimeFieldAsWritten(FinishTimeField, raw.finishTime).Crashed?
  }

  /** As written, the record of a run lacking either timestamp cannot be
      read back, and the record of a run with both can: in particular the
      default run does not survive a round trip. */
  lemma UntimedRunReadCrashes(run: RacerRun)
    ensures RunReadCrashesAsWritten(EncodeRun(run)) <==> run.startTime.None? || run.finishTime.None?
  {
    if run.startTime.None? {
      AbsentTimeRoundTripCrashes(StartTimeField);
    } else if run.finishTime.None? {
      AbsentTimeRoundTripCrashes(FinishTimeField);
    }
  }

  // ---------------------------------------------------------------------------
  // Racer
  // ---------------------------------------------------------------------------

  /** A racer as it arrives; `runs` and `otherRuns` may be left out. */
  datatype RawRacer = RawRacer(
    id: Option<int>,
    perfClass: Option<string>,
    genderCategory: Option<string>,
    boatCategory: Option<string>,
    ageCategory: Option<string>,
    regNumbers: Option<seq<string>>,
    runs: Option<seq<RawRun>>,
    otherRuns: Option<map<string, RawRun>>)

  const IdField := Field(IdName)
  const PerfClassField := Field(PerfClassName)
  const GenderCategoryField := Field(GenderCategoryName)
  const BoatCategoryField := Field(BoatCategoryName)
  const AgeCategoryField := Field(AgeCategoryName)
  const RegNumbersField := Field(RegNumbersName)
  const RunsField := Field(RunsName)
  const OtherRunsField := Field(OtherRunsName)

  /** Registration numbers: a tuple of one or two, then, only when the boat
      category passed its own check (`boat`), exactly as many as the boat has
      paddlers. Either failure is reported as a tuple-length error. */
  function ValidateRegNumbers(raw: Option<seq<string>>, boat: Option<BoatCategory>): (r: Checked<RegNumbers>)
    ensures r.Valid? <==>
              raw.Some? && 1 <= |raw.value| <= 2 && (boat.Some? ==> |raw.value| == boat.value.Crew())
    ensures r.Valid? ==> r.value.Numbers() == raw.value
    ensures r.Invalid? ==> r.errors == {Error([RegNumbersField], if raw.None? then Missing else TupleLength)}
    ensures forall e :: e in r.ErrorSet() ==> e.loc == [RegNumbersField]
  {
    match raw
    case None => Invalid(At(RegNumbersField, Missing))
    case Some(s) =>
      match RegNumbersFromSeq(s)
      case None => Invalid(At(RegNumbersField, TupleLength))
      case Some(numbers) =>
        if boat.Some? && |s| != boat.value.Crew() then Invalid(At(RegNumbersField, TupleLength))
        else Valid(numbers)
  }

  /** The two regular runs: a pair, each validated under its position; both
      default to the empty run. */
  function ValidateRunPair(gateCount: GateCount, raw: Option<seq<RawRun>>): (r: Checked<(RacerRun, RacerRun)>)
    ensures raw.None? ==> r == Valid((DefaultRun(gateCount), DefaultRun(gateCount)))
    ensures raw.Some? ==>
              (r.Valid? <==> |raw.value| == 2 && ValidateRun(gateCount, raw.value[0]).Valid? && ValidateRun(gateCount, raw.value[1]).Valid?)
    ensures raw.Some? && r.Valid? ==>
              r.value == (ValidateRun(gateCount, raw.value[0]).value, ValidateRun(gateCount, raw.value[1]).value)
    ensures raw.Some? && |raw.value| != 2 ==> r.ErrorSet() == {Error([RunsField], TupleLength)}
    ensures raw.Some? && |raw.value| == 2 ==>
              r.ErrorSet() == Nested([RunsField, Index(0)], ValidateRun(gateCount, raw.value[0]).ErrorSet())
                            + Nested([RunsField, Index(1)], ValidateRun(gateCount, raw.value[1]).ErrorSet())
    ensures r.Valid? ==> r.value.0.WellFormed(gateCount) && r.value.1.WellFormed(gateCount)
    ensures forall e :: e in r.ErrorSet() ==> |e.loc| > 0 && e.loc[0] == RunsField
  {
    match raw
    case None => Valid((DefaultRun(gateCount), DefaultRun(gateCount)))
    case Some(items) =>
      if |items| != 2 then Invalid(At(RunsField, TupleLength))
      else
        CheckPair(RunsField, ValidateRun(gateCount, items[0]), ValidateRun(gateCount, items[1]))
  }

  /** Run validation for a course of `gateCount` gates, as a value. */
  function RunCheck(gateCount: GateCount): RawRun -> Checked<RacerRun>
  {
    (x: RawRun) => ValidateRun(gateCount, x)
  }

  /** Extra runs by name, each validated under its name; absent means none. */
  function ValidateOtherRuns(gateCount: GateCount, raw: Option<map<string, RawRun>>): (r: Checked<map<string, RacerRun>>)
    ensures raw.None? ==> r == Valid(map[])
    ensures raw.Some? ==> (r.Valid? <==> forall k :: k in raw.value ==> ValidateRun(gateCount, raw.value[k]).Valid?)
    ensures raw.Some? && r.Valid? ==> r.value.Keys == raw.value.Keys
    ensures raw.Some? && r.Valid? ==> forall k :: k in raw.value ==> r.value[k] == ValidateRun(gateCount, raw.value[k]).value
    ensures r.Valid? ==> forall k :: k in r.value ==> r.value[k].WellFormed(gateCount)
    ensures raw.Some? ==> forall k, e :: k in raw.value && e in ValidateRun(gateCount, raw.value[k]).ErrorSet() ==>
              Error([OtherRunsField, Key(k)] + e.loc, e.kind) in r.ErrorSet()
    ensures forall e :: e in r.ErrorSet() ==>
              && raw.Some? && |e.loc| >= 2 && e.loc[0] == OtherRunsField && e.loc[1].Key? && e.loc[1].key in raw.value
              && Error(e.loc[2..], e.kind) in ValidateRun(gateCount, raw.value[e.loc[1].key]).ErrorSet()
  {
    match raw
    case None => Valid(map[])
    case Some(m) => CheckMapField(OtherRunsField, m, RunCheck(gateCount))
  }

  /** The outcome of each field check of a racer. */
  datatype RacerChecks = RacerChecks(
    id: Checked<RacerID>,
    perfClass: Checked<PerformanceRating>,
    genderCategory: Checked<GenderCategory>,
    boatCategory: Checked<BoatCategory>,
    ageCategory: Checked<AgeCategory>,
    regNumbers: Checked<RegNumbers>,
    runs: Checked<(RacerRun, RacerRun)>,
    otherRuns: Checked<map<string, RacerRun>>)
  {
    predicate AllValid()
    {
      && id.Valid? && perfClass.Valid? && genderCategory.Valid? && boatCategory.Valid?
      && ageCategory.Valid? && regNumbers.Valid? && runs.Valid? && otherRuns.Valid?
    }

    /** Every error of every check; none exactly when all checks passed. */
    function Errors(): (es: set<Error>)
      ensures es == {} <==> AllValid()
    {
      id.ErrorSet() + perfClass.ErrorSet() + genderCategory.ErrorSet() + boatCategory.ErrorSet()
      + ageCategory.ErrorSet() + regNumbers.ErrorSet() + runs.ErrorSet() + otherRuns.ErrorSet()
    }

    /** What passed checks guarantee about each other: the registration
        numbers fit the boat and every run fits the course. */
    predicate Consistent(gateCount: GateCount)
    {
      && (boatCategory.Valid? && regNumbers.Valid? ==> |regNumbers.value.Numbers()| == boatCategory.value.Crew())
      && (runs.Valid? ==> runs.value.0.WellFormed(gateCount) && runs.value.1.WellFormed(gateCount))
      && (otherRuns.Valid? ==> forall k :: k in otherRuns.value ==> otherRuns.value[k].WellFormed(gateCount))
    }

    /** The racer made of the checked fields, or every error found. */
    function Combine(gateCount: GateCount): (r: Checked<Racer>)
      requires Consistent(gateCount)
      ensures r.Valid? <==> AllValid()
      ensures r.Valid? ==> r.value.WellFormed(gateCount)
      ensures r.Valid? ==> r.value == Racer(id.value, perfClass.value, genderCategory.value, boatCategory.value,
                                            ageCategory.value, regNumbers.value, runs.value, otherRuns.value)
      ensures r.ErrorSet() == Errors()
    {
      if AllValid() then
        Valid(Racer(id.value, perfClass.value, genderCategory.value, boatCategory.value,
                    ageCategory.value, regNumbers.value, runs.value, otherRuns.value))
      else
        Invalid(Errors())
    }

    /** Each check reports its errors under its own field. */
    predicate Located()
    {
      && (forall e :: e in id.ErrorSet() ==> e.loc == [IdField])
      && (forall e :: e in perfClass.ErrorSet() ==> e.loc == [PerfClassField])
      && (forall e :: e in genderCategory.ErrorSet() ==> e.loc == [GenderCategoryField])
      && (forall e :: e in boatCategory.ErrorSet() ==> e.loc == [BoatCategoryField])
      && (forall e :: e in ageCategory.ErrorSet() ==> e.loc == [AgeCategoryField])
      && (forall e :: e in regNumbers.ErrorSet() ==> e.loc == [RegNumbersField])
      && (forall e :: e in runs.ErrorSet() ==> |e.loc| > 0 && e.loc[0] == RunsField)
      && (forall e :: e in otherRuns.ErrorSet() ==> |e.loc| > 0 && e.loc[0] == OtherRunsField)
    }
  }

  /** Field checks of a racer, in declaration order; the registration-number
      check sees the boat category only when it passed. */
  function CheckRacerFields(gateCount: GateCount, raw: RawRacer): (c: RacerChecks)
    ensures c.Located()
    ensures c.Consistent(gateCount)
    ensures c.id.Valid? ==> raw.id == Some(c.id.value as int)
    ensures c.perfClass.Valid? ==> raw.perfClass == Some(c.perfClass.value.Code())
    ensures c.genderCategory.Valid? ==> raw.genderCategory == Some(c.genderCategory.value.Code())
    ensures c.boatCategory.Valid? ==> raw.boatCategory == Some(c.boatCategory.value.Code())
    ensures c.ageCategory.Valid? ==> raw.ageCategory == Some(c.ageCategory.value.Code())
    ensures c.regNumbers.Valid? ==> raw.regNumbers == Some(c.regNumbers.value.Numbers())
    ensures c.runs == ValidateRunPair(gateCount, raw.runs)
    ensures c.otherRuns == ValidateOtherRuns(gateCount, raw.otherRuns)
  {
    var boat := RequiredField(BoatCategoryField, raw.boatCategory, BoatCategoryFromCode, EnumMember);
    RacerChecks(
      RequiredField(IdField, raw.id, ParsePositiveInt, NotGreaterThan),
      RequiredField(PerfClassField, raw.perfClass, PerformanceRatingFromCode, EnumMember),
      RequiredField(GenderCategoryField, raw.genderCategory, GenderCategoryFromCode, EnumMember),
      boat,
      RequiredField(AgeCategoryField, raw.ageCategory, AgeCategoryFromCode, EnumMember),
      ValidateRegNumbers(raw.regNumbers, if boat.Valid? then Some(boat.value) else None),
      ValidateRunPair(gateCount, raw.runs),
      ValidateOtherRuns(gateCount, raw.otherRuns))
  }

  /** What each field check of a racer decides, in terms of the raw record:
      the identifier must be present and positive, each category code must
      be present and name a member, and the registration numbers are checked
      against the boat category only when that passed. */
  lemma RacerFieldChecks(gateCount: GateCount, raw: RawRacer)
    ensures var c := CheckRacerFields(gateCount, raw);
      && (c.id.Valid? <==> raw.id.Some? && raw.id.value > 0)
      && (c.id.Invalid? ==> c.id.errors == {Error([IdField], if raw.id.None? then Missing else NotGreaterThan)})
    ensures var c := CheckRacerFields(gateCount, raw);
      && (c.perfClass.Valid? <==> raw.perfClass.Some? && PerformanceRatingFromCode(raw.perfClass.value).Some?)
      && (c.perfClass.Invalid? ==>
            c.perfClass.errors == {Error([PerfClassField], if raw.perfClass.None? then Missing else EnumMember)})
    ensures var c := CheckRacerFields(gateCount, raw);
      && (c.genderCategory.Valid? <==> raw.genderCategory.Some? && GenderCategoryFromCode(raw.genderCategory.value).Some?)
      && (c.genderCategory.Invalid? ==>
            c.genderCategory.errors == {Error([GenderCategoryField], if raw.genderCategory.None? then Missing else EnumMember)})
    ensures var c := CheckRacerFields(gateCount, raw);
      && (c.boatCategory.Valid? <==> raw.boatCategory.Some? && BoatCategoryFromCode(raw.boatCategory.value).Some?)
      && (c.boatCategory.Invalid? ==>
            c.boatCategory.errors == {Error([BoatCategoryField], if raw.boatCategory.None? then Missing else EnumMember)})
    ensures var c := CheckRacerFields(gateCount, raw);
      && (c.ageCategory.Valid? <==> raw.ageCategory.Some? && AgeCategoryFromCode(raw.ageCategory.value).Some?)
      && (c.ageCategory.Invalid? ==>
            c.ageCategory.errors == {Error([AgeCategoryField], if raw.ageCategory.None? then Missing else EnumMember)})
    ensures var c := CheckRacerFields(gateCount, raw);
      c.regNumbers == ValidateRegNumbers(raw.regNumbers, if c.boatCategory.Valid? then Some(c.boatCategory.value) else None)
  {
  }

  /** A racer is valid when every field check passes; the registration
      numbers then match the boat and every run fits the course. */
  function ValidateRacer(gateCount: GateCount, raw: RawRacer): (r: Checked<Racer>)
    ensures r.Valid? ==> r.value.WellFormed(gateCount)
    ensures r.Valid? ==>
              && raw.id == Some(r.value.id as int)
              && raw.perfClass == Some(r.value.perfClass.Code())
              && raw.genderCategory == Some(r.value.genderCategory.Code())
              && raw.boatCategory == Some(r.value.boatCategory.Code())
              && raw.ageCategory == Some(r.value.ageCategory.Code())
              && raw.regNumbers == Some(r.value.regNumbers.Numbers())
    ensures r.Valid? ==> ValidateRunPair(gateCount, raw.runs) == Valid(r.value.runs)
    ensures r.Valid? ==> ValidateOtherRuns(gateCount, raw.otherRuns) == Valid(r.value.otherRuns)
    ensures r.ErrorSet() == CheckRacerFields(gateCount, raw).Errors()
  {
    var c := CheckRacerFields(gateCount, raw);
    c.Combine(gateCount)
  }

  predicate IsRacerField(l: Loc)
  {
    l in {IdField, PerfClassField, GenderCategoryField, BoatCategoryField,
          AgeCategoryField, RegNumbersField, RunsField, OtherRunsField}
  }

  /** Every error of a racer is located at one of its fields. */
  lemma RacerErrorsLocated(gateCount: GateCount, raw: RawRacer)
    ensures forall e :: e in ValidateRacer(gateCount, raw).ErrorSet() ==> |e.loc| > 0 && IsRacerField(e.loc[0])
  {
    LocatedChecksAtFields(CheckRacerFields(gateCount, raw));
  }

  lemma LocatedChecksAtFields(c: RacerChecks)
    requires c.Located()
    ensures forall e :: e in c.Errors() ==> |e.loc| > 0 && IsRacerField(e.loc[0])
  {
  }

  /** Among located checks, only the registration-number check reports
      errors located exactly at `reg_numbers`. */
  lemma OnlyOwnCheckAtRegNumbers(c: RacerChecks, k: ErrorKind)
    requires c.Located()
    ensures Error([RegNumbersField], k) in c.Errors() <==> Error([RegNumbersField], k) in c.regNumbers.ErrorSet()
  {
  }

  /** The registration-number errors of a racer: missing when absent; a
      length error when the count is not one or two, or, provided the boat
      category passed its own check, differs from the boat's crew. */
  lemma RegNumbersErrors(gateCount: GateCount, raw: RawRacer)
    ensures Error([RegNumbersField], Missing) in ValidateRacer(gateCount, raw).ErrorSet() <==> raw.regNumbers.None?
    ensures Error([RegNumbersField], TupleLength) in ValidateRacer(gateCount, raw).ErrorSet() <==>
              && raw.regNumbers.Some?
              && (|| |raw.regNumbers.value| !in {1, 2}
                  || (&& raw.boatCategory.Some?
                      && BoatCategoryFromCode(raw.boatCategory.value).Some?
                      && |raw.regNumbers.value| != BoatCategoryFromCode(raw.boatCategory.value).value.Crew()))
  {
    var c := CheckRacerFields(gateCount, raw);
    OnlyOwnCheckAtRegNumbers(c, Missing);
    OnlyOwnCheckAtRegNumbers(c, TupleLength);
  }

  // ---------------------------------------------------------------------------
  // Round trip
  // ---------------------------------------------------------------------------

  /** The input record a racer is written as. */
  function EncodeRacer(racer: Racer): RawRacer
  {
    RawRacer(
      Some(racer.id as int),
      Some(racer.perfClass.Code()),
      Some(racer.genderCategory.Code()),
      Some(racer.boatCategory.Code()),
      Some(racer.ageCategory.Code()),
      Some(racer.regNumbers.Numbers()),
      Some([EncodeRun(racer.runs.0), EncodeRun(racer.runs.1)]),
      Some(map k | k in racer.otherRuns :: EncodeRun(racer.otherRuns[k])))
  }

  lemma RunPairRoundTrip(gateCount: GateCount, runs: (RacerRun, RacerRun))
    requires runs.0.WellFormed(gateCount) && runs.1.WellFormed(gateCount)
    ensures ValidateRunPair(gateCount, Some([EncodeRun(runs.0), EncodeRun(runs.1)])) == Valid(runs)
  {
    RunRoundTrip(gateCount, runs.0);
    RunRoundTrip(gateCount, runs.1);
  }

  lemma OtherRunsRoundTrip(gateCount: GateCount, others: map<string, RacerRun>)
    requires forall k :: k in others ==> others[k].WellFormed(gateCount)
    ensures ValidateOtherRuns(gateCount, Some(map k | k in others :: EncodeRun(others[k]))) == Valid(others)
  {
    var raw := map k | k in others :: EncodeRun(others[k]);
    forall k | k in raw
      ensures RunCheck(gateCount)(raw[k]) == Valid(others[k])
    {
      RunRoundTrip(gateCount, others[k]);
    }
    CheckMapFieldAllValid(OtherRunsField, raw, RunCheck(gateCount), others);
  }

  /** Writing a well-formed racer out and validating it again gives back the
      same racer: nothing is lost through validation. */
  lemma RacerRoundTrip(gateCount: GateCount, racer: Racer)
    requires racer.WellFormed(gateCount)
    ensures ValidateRacer(gateCount, EncodeRacer(racer)) == Valid(racer)
  {
    var raw := EncodeRacer(racer);
    var c := CheckRacerFields(gateCount, raw);
    PerformanceRatingCodeRoundTrip(racer.perfClass);
    GenderCategoryCodeRoundTrip(racer.genderCategory);
    BoatCategoryCodeRoundTrip(racer.boatCategory);
    AgeCategoryCodeRoundTrip(racer.ageCategory);
    assert c.id == Valid(racer.id);
    assert c.perfClass == Valid(racer.perfClass);
    assert c.genderCategory == Valid(racer.genderCategory);
    assert c.boatCategory == Valid(racer.boatCategory);
    assert c.ageCategory == Valid(racer.ageCategory);
    RegNumbersRoundTrip(racer.regNumbers);
    assert c.regNumbers == Valid(racer.regNumbers);
    RunPairRoundTrip(gateCount, racer.runs);
    assert c.runs == Valid(racer.runs);
    OtherRunsRoundTrip(gateCount, racer.otherRuns);
    assert c.otherRuns == Valid(racer.otherRuns);
    assert c.Errors() == {};
  }
}
