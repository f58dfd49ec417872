/** Identifier domains and the two small validated value objects of the
    timing data model (kayaclock_utils/data/basic_types.py): the identifier of
    a run and the result recorded at one gate. */
module BasicTypes {
  import opened Wrappers
  import opened Enums
  import opened Validation

  // ---------------------------------------------------------------------------
  // Identifiers
  // ---------------------------------------------------------------------------

  type PositiveInt = n: int | n > 0 witness 1

  type RacerID = PositiveInt

  type RefereePostID = PositiveInt

  type GateID = PositiveInt

  /** Reads an identifier: exactly the positive integers are accepted, unchanged. */
  function ParsePositiveInt(v: int): (r: Option<PositiveInt>)
    ensures r.Some? <==> v > 0
    ensures r.Some? ==> r.value == v
  {
    if v > 0 then Some(v) else None
  }

  // ---------------------------------------------------------------------------
  // Registration numbers: one per paddler, so one or two per boat
  // ---------------------------------------------------------------------------

  type RegistrationNumber = string

  datatype RegNumbers = Single(first: RegistrationNumber) | Pair(first: RegistrationNumber, second: RegistrationNumber) {

    /** The registration numbers in input order. */
    function Numbers(): seq<RegistrationNumber>
    {
      match this
      case Single(a) => [a]
      case Pair(a, b) => [a, b]
    }
  }

  /** Reads the registration numbers of a boat: a tuple of one or two. */
  function RegNumbersFromSeq(s: seq<RegistrationNumber>): (r: Option<RegNumbers>)
    ensures r.Some? <==> 1 <= |s| <= 2
    ensures r.Some? ==> r.value.Numbers() == s
  {
    if |s| == 1 then Some(Single(s[0]))
    else if |s| == 2 then Some(Pair(s[0], s[1]))
    else None
  }

  lemma RegNumbersRoundTrip(n: RegNumbers)
    ensures 1 <= |n.Numbers()| <= 2
    ensures RegNumbersFromSeq(n.Numbers()) == Some(n)
  {
  }

  // ---------------------------------------------------------------------------
  // Run identifier: slot 1 or 2, or a free-form name, never both and never neither
  // ---------------------------------------------------------------------------

  type Slot = n: int | 1 <= n <= 2 witness 1

  datatype RunID = Assigned(number: Slot) | OtherId(id: string)

  /** A run identifier as it arrives: two optional fields. */
  datatype RawRunID = RawRunID(assignedNumber: Option<int>, otherId: Option<string>)

  const AssignedNumberField := Field(AssignedNumberName)

  function ParseSlot(v: int): (r: Option<Slot>)
    ensures r.Some? <==> v in {1, 2}
    ensures r.Some? ==> r.value == v
  {
    if 1 <= v <= 2 then Some(v) else None
  }

  /** Field check of `assigned_number`, then the whole-record exclusivity
      check, which sees a field that failed its own check as absent. */
  function ValidateRunID(raw: RawRunID): (r: Checked<RunID>)
    ensures r.Valid? <==>
              || (raw.assignedNumber.Some? && raw.assignedNumber.value in {1, 2} && raw.otherId.None?)
              || (raw.assignedNumber.None? && raw.otherId.Some?)
    ensures r.Valid? ==> EncodeRunID(r.value) == raw
    ensures Error([AssignedNumberField], Const) in r.ErrorSet() <==>
              raw.assignedNumber.Some? && raw.assignedNumber.value !in {1, 2}
    ensures Error([Root], Assertion) in r.ErrorSet() <==>
              (raw.assignedNumber.Some? && raw.assignedNumber.value in {1, 2}) == raw.otherId.Some?
    ensures r.ErrorSet() <= {Error([AssignedNumberField], Const), Error([Root], Assertion)}
  {
    var number := OptionalField(AssignedNumberField, raw.assignedNumber, ParseSlot, Const);
    var seen := if number.Valid? then number.value else None;
    var exclusivity: set<Error> := if seen.None? == raw.otherId.None? then At(Root, Assertion) else {};
    var errors := number.ErrorSet() + exclusivity;
    if errors != {} then Invalid(errors)
    else if seen.Some? then Valid(Assigned(seen.value))
    else Valid(OtherId(raw.otherId.value))
  }

  /** The input record a run identifier is written as. */
  function EncodeRunID(id: RunID): RawRunID
  {
    match id
    case Assigned(n) => RawRunID(Some(n), None)
    case OtherId(s) => RawRunID(None, Some(s))
  }

  lemma RunIDRoundTrip(id: RunID)
    ensures ValidateRunID(EncodeRunID(id)) == Valid(id)
  {
  }

  // ---------------------------------------------------------------------------
  // Gate result: a penalisation, with a miss reason exactly when it is a miss
  // ---------------------------------------------------------------------------

  datatype GateResult = GateResult(penalisation: Penalisation, missReason: Option<MissReason>) {

    predicate WellFormed()
    {
      missReason.Some? <==> penalisation == MISS
    }
  }

  /** A gate result as it arrives: the integer penalisation value and the
      miss-reason code, each possibly absent. */
  datatype RawGateResult = RawGateResult(penalisation: Option<int>, missReason: Option<string>)

  const PenalisationField := Field(PenalisationName)

  const MissReasonField := Field(MissReasonName)

  /** Field checks of both fields, then the pairing check attached to
      `miss_reason`; the pairing check runs only when `miss_reason` passed its
      own check and is skipped when `penalisation` failed. */
  function ValidateGateResult(raw: RawGateResult): (r: Checked<GateResult>)
    ensures r.Valid? <==>
              && raw.penalisation.Some? && raw.penalisation.value in {0, 2, 50}
              && (raw.missReason.Some? ==> raw.missReason.value in {"A", "B", "C", "D", "E", "F"})
              && (raw.missReason.Some? <==> raw.penalisation.value == 50)
    ensures r.Valid? ==> r.value.WellFormed() && EncodeGateResult(r.value) == raw
    ensures Error([PenalisationField], Missing) in r.ErrorSet() <==> raw.penalisation.None?
    ensures Error([PenalisationField], EnumMember) in r.ErrorSet() <==>
              raw.penalisation.Some? && raw.penalisation.value !in {0, 2, 50}
    ensures Error([MissReasonField], EnumMember) in r.ErrorSet() <==>
              raw.missReason.Some? && raw.missReason.value !in {"A", "B", "C", "D", "E", "F"}
    ensures Error([MissReasonField], Assertion) in r.ErrorSet() <==>
              && raw.penalisation.Some? && raw.penalisation.value in {0, 2, 50}
              && (raw.missReason.Some? ==> raw.missReason.value in {"A", "B", "C", "D", "E", "F"})
              && (raw.missReason.Some? <==> raw.penalisation.value != 50)
    ensures r.ErrorSet() <= {Error([PenalisationField], Missing), Error([PenalisationField], EnumMember),
                             Error([MissReasonField], EnumMember), Error([MissReasonField], Assertion)}
  {
    var penalisation := RequiredField(PenalisationField, raw.penalisation, PenalisationFromValue, EnumMember);
    var reason := OptionalField(MissReasonField, raw.missReason, MissReasonFromCode, EnumMember);
    var pairing: set<Error> :=
      if penalisation.Valid? && reason.Valid? && reason.value.Some? != (penalisation.value == MISS)
      then At(MissReasonField, Assertion)
      else {};
    var errors := penalisation.ErrorSet() + reason.ErrorSet() + pairing;
    if errors == {} then Valid(GateResult(penalisation.value, reason.value)) else Invalid(errors)
  }

  /** The input record a gate result is written as. */
  function EncodeGateResult(g: GateResult): RawGateResult
  {
    RawGateResult(Some(g.penalisation.Severity()), if g.missReason.Some? then Some(g.missReason.value.Code()) else None)
  }

  lemma GateResultRoundTrip(g: GateResult)
    requires g.WellFormed()
    ensures ValidateGateResult(EncodeGateResult(g)) == Valid(g)
  {
  }
}
