/** The scenarios of the repository's unit tests (test_data.py), stated as
    lemmas about the model: which raw records validate, to what, and with
    exactly which errors otherwise. */
module TestData {
  import opened Wrappers
  import opened Enums
  import opened Validation
  import opened BasicTypes
  import opened Validators
  import opened DbModels

  // ---------------------------------------------------------------------------
  // Run identifiers
  // ---------------------------------------------------------------------------

  lemma AssignedNumbersAccepted()
    ensures ValidateRunID(RawRunID(Some(1), None)) == Valid(Assigned(1))
    ensures ValidateRunID(RawRunID(Some(2), None)) == Valid(Assigned(2))
  {
  }

  /** Slot 0 fails its own check and, being then treated as absent, also
      fails the exclusivity check. */
  lemma AssignedNumberZeroRejected()
    ensures ValidateRunID(RawRunID(Some(0), None)).ErrorSet() ==
              {Error([AssignedNumberField], Const), Error([Root], Assertion)}
  {
  }

  lemma OtherIdAccepted()
    ensures ValidateRunID(RawRunID(None, Some("uniqfoobar"))) == Valid(OtherId("uniqfoobar"))
  {
  }

  // ---------------------------------------------------------------------------
  // Gate results
  // ---------------------------------------------------------------------------

  lemma GateResultsAccepted()
    ensures ValidateGateResult(RawGateResult(Some(50), Some("A"))) == Valid(GateResult(MISS, Some(A)))
    ensures ValidateGateResult(RawGateResult(Some(2), None)) == Valid(GateResult(TOUCH, None))
    ensures ValidateGateResult(RawGateResult(Some(0), None)) == Valid(GateResult(GOOD, None))
  {
  }

  lemma MissReasonPairingRejected()
    ensures ValidateGateResult(RawGateResult(Some(50), None)).ErrorSet() == {Error([MissReasonField], Assertion)}
    ensures ValidateGateResult(RawGateResult(Some(2), Some("A"))).ErrorSet() == {Error([MissReasonField], Assertion)}
  {
  }

  /** With no penalisation only the missing field is reported: the pairing
      check is skipped. */
  lemma PenalisationRequired()
    ensures ValidateGateResult(RawGateResult(None, None)).ErrorSet() == {Error([PenalisationField], Missing)}
  {
  }

  // ---------------------------------------------------------------------------
  // Timestamps
  // ---------------------------------------------------------------------------

  lemma TimestampNeedsOffset()
    ensures ValidateTime(RawTime(0, Some(0))) == Some(AwareTime(0, 0))
    ensures ValidateTime(RawTime(0, None)).None?
  {
  }

  // ---------------------------------------------------------------------------
  // Racers
  // ---------------------------------------------------------------------------

  /** 2000-01-01T00:00:00+00:00 in microseconds since the epoch. */
  const Jan2000: int := 946_684_800 * MicrosPerSecond

  /** Ten years later, 2010-01-01T00:00:00+00:00: 3653 days, three of the
      years being leap years. */
  const Jan2010: int := Jan2000 + 3653 * 86_400 * MicrosPerSecond

  function Utc(wall: int): RawTime
  {
    RawTime(wall, Some(0))
  }

  /** A K1 racer with one registration number and the given runs. */
  function RawK1Racer(runs: Option<seq<RawRun>>): RawRacer
  {
    RawRacer(Some(1), Some("M"), Some("M"), Some("K1"), Some("DM"), Some(["foo"]), runs, None)
  }

  /** An unjudged run timed from `start` to `finish`, both in UTC. */
  function TimedRun(start: int, finish: int): RawRun
  {
    RawRun(GivenTime(Utc(start)), GivenTime(Utc(finish)), None, None)
  }

  /** First run of the full scenario: 1 min 42.168496 s, a miss at gate one
      and a touch at gate two. */
  function FastRun(gateCount: GateCount): RawRun
    requires gateCount >= 2
  {
    RawRun(
      GivenTime(Utc(Jan2000)),
      GivenTime(Utc(Jan2000 + 102_168_496)),
      Some([Some(RawGateResult(Some(50), Some("C"))), Some(RawGateResult(Some(2), None))] + seq(gateCount - 2, _ => None)),
      None)
  }

  lemma FastRunFullTime(gateCount: GateCount)
    requires gateCount >= 2
    ensures ValidateRun(gateCount, FastRun(gateCount)).Valid?
    ensures FullTime(ValidateRun(gateCount, FastRun(gateCount)).value) == Some(154_168_496)
  {
    var items := FastRun(gateCount).penalisations.value;
    forall i | 0 <= i < |items|
      ensures ValidateSlot(items[i]).Valid?
    {
    }
    var run := ValidateRun(gateCount, FastRun(gateCount)).value;
    var expected := DefaultPenalisations(gateCount)[0 := Some(GateResult(MISS, Some(C)))][1 := Some(GateResult(TOUCH, None))];
    assert run.penalisations == expected;
    UnjudgedRunHasNoPenalty(DefaultPenalisations(gateCount));
    RecordingNeverLowersTotal(DefaultPenalisations(gateCount), 0, GateResult(MISS, Some(C)));
    RecordingNeverLowersTotal(DefaultPenalisations(gateCount)[0 := Some(GateResult(MISS, Some(C)))], 1, GateResult(TOUCH, None));
    assert SumSeverities(run.penalisations) == 52;
  }

  lemma TenYearRunFullTime(gateCount: GateCount)
    ensures var r := ValidateRun(gateCount, TimedRun(Jan2000, Jan2010));
            r.Valid? && FullTime(r.value) == Some(Jan2010 - Jan2000)
  {
    UnjudgedRunHasNoPenalty(DefaultPenalisations(gateCount));
  }

  /** The K1 racer validates as soon as its two runs do. */
  lemma K1RacerValid(gateCount: GateCount, runs: seq<RawRun>, pair: (RacerRun, RacerRun))
    requires ValidateRunPair(gateCount, Some(runs)) == Valid(pair)
    ensures ValidateRacer(gateCount, RawK1Racer(Some(runs))) ==
              Valid(Racer(1, Mistr, Man, K1, DM, Single("foo"), pair, map[]))
  {
    var c := CheckRacerFields(gateCount, RawK1Racer(Some(runs)));
    assert c.AllValid();
  }

  /** The two runs of the full scenario: the fast run, then a ten-year one. */
  function TwoTimedRuns(gateCount: GateCount): seq<RawRun>
    requires gateCount >= 2
  {
    [FastRun(gateCount), TimedRun(Jan2000, Jan2010)]
  }

  /** Both runs timed: the final time is the faster full time,
      60 + 42.168496 + 2 + 50 seconds. */
  lemma FinalTimeOfTwoRuns(gateCount: GateCount)
    requires gateCount >= 2
    ensures var r := ValidateRacer(gateCount, RawK1Racer(Some(TwoTimedRuns(gateCount))));
            r.Valid? && FinalTime(r.value) == Some(154_168_496)
  {
    FastRunFullTime(gateCount);
    TenYearRunFullTime(gateCount);
    var runs := TwoTimedRuns(gateCount);
    var pair := ValidateRunPair(gateCount, Some(runs)).value;
    K1RacerValid(gateCount, runs, pair);
  }

  /** A one-hour run, then a run given with no fields. */
  function OneTimedRun(): seq<RawRun>
  {
    [TimedRun(Jan2000, Jan2000 + 3600 * MicrosPerSecond), RawRun(NoTime, NoTime, None, None)]
  }

  /** Only the first run timed (one hour, no penalties): the final time is
      its full time. */
  lemma FinalTimeOfOneRun(gateCount: GateCount)
    ensures var r := ValidateRacer(gateCount, RawK1Racer(Some(OneTimedRun())));
            r.Valid? && FinalTime(r.value) == Some(3600 * MicrosPerSecond)
  {
    UnjudgedRunHasNoPenalty(DefaultPenalisations(gateCount));
    EmptyRunIsDefault(gateCount);
    var timed := RacerRun(Some(AwareTime(Jan2000, 0)), Some(AwareTime(Jan2000 + 3600 * MicrosPerSecond, 0)), DefaultPenalisations(gateCount), None);
    var runs := OneTimedRun();
    assert ValidateRun(gateCount, runs[0]) == Valid(timed);
    K1RacerValid(gateCount, runs, (timed, DefaultRun(gateCount)));
  }

  /** A racer whose every field is valid except, possibly, the number of
      registration numbers. */
  function RawRacerWithRegNumbers(boat: BoatCategory, count: nat): RawRacer
  {
    RawRacer(Some(1), Some("M"), Some("M"), Some(boat.Code()), Some("DM"), Some(seq(count, _ => "foo")), None, None)
  }

  /** The registration-number count decides validity on its own: exactly the
      boat's crew is accepted, and any other count is reported as one
      tuple-length error at `reg_numbers`. */
  lemma RegNumbersCountDecides(gateCount: GateCount, boat: BoatCategory, count: nat)
    ensures ValidateRacer(gateCount, RawRacerWithRegNumbers(boat, count)).Valid? <==> count == boat.Crew()
    ensures count != boat.Crew() ==>
              ValidateRacer(gateCount, RawRacerWithRegNumbers(boat, count)).ErrorSet() == {Error([RegNumbersField], TupleLength)}
  {
    BoatCategoryCodeRoundTrip(boat);
    var c := CheckRacerFields(gateCount, RawRacerWithRegNumbers(boat, count));
    assert c.Errors() == c.regNumbers.ErrorSet();
  }
}
