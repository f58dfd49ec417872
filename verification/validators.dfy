/** Timestamps of the timing data model and the shared rule every timestamp
    field applies on input (kayaclock_utils/data/validators.py): the value must
    carry a UTC offset. Times are integer microseconds, the resolution of the
    timestamps the system records. */
module Validators {
  import opened Wrappers
  import opened Validation

  const MicrosPerSecond: int := 1_000_000

  /** A timestamp as it arrives: wall-clock microseconds and, possibly, the
      offset from UTC in microseconds. */
  datatype RawTime = RawTime(wall: int, offset: Option<int>)

  /** A timezone-aware timestamp. */
  datatype AwareTime = AwareTime(wall: int, offset: int) {

    /** Microseconds since the epoch, in UTC. */
    function Instant(): int
    {
      wall - offset
    }
  }

  /** Accepts a timestamp exactly when it carries a UTC offset. */
  function ValidateTime(raw: RawTime): (r: Option<AwareTime>)
    ensures r.Some? <==> raw.offset.Some?
    ensures r.Some? ==> EncodeTime(r.value) == raw
  {
    match raw.offset
    case Some(o) => Some(AwareTime(raw.wall, o))
    case None => None
  }

  function EncodeTime(t: AwareTime): RawTime
  {
    RawTime(t.wall, Some(t.offset))
  }

  lemma TimeRoundTrip(t: AwareTime)
    ensures ValidateTime(EncodeTime(t)) == Some(t)
  {
  }

  /** A timestamp field as it arrives in an input record: left out, given
      as an explicit null, or given. */
  datatype RawTimeField = NoTime | NullTime | GivenTime(time: RawTime)

  /** The corrected timestamp field check: a field left out or given as null
      is no timestamp, and a given timestamp must carry an offset. */
  function TimeField(loc: Loc, raw: RawTimeField): (r: Checked<Option<AwareTime>>)
    ensures r.Valid? <==> raw.GivenTime? ==> raw.time.offset.Some?
    ensures r.Valid? ==> r.value == (if raw.GivenTime? then ValidateTime(raw.time) else None)
    ensures r.Invalid? ==> r.errors == {Error([loc], Assertion)}
  {
    match raw
    case GivenTime(t) => OptionalField(loc, Some(t), ValidateTime, Assertion)
    case _ => Valid(None)
  }

  /** How a timestamp field check ends as the code is written: with a
      validation outcome, or with an exception the validation library does
      not turn into a validation error. */
  datatype TimeFieldOutcome = Reported(result: Checked<Option<AwareTime>>) | Crashed

  /** The timestamp field check as written. A field left out is not looked
      at; any value given, null included, reaches the check, which reads
      its time zone; a null has none to read, and the attribute error this
      raises escapes validation. */
  function TimeFieldAsWritten(loc: Loc, raw: RawTimeField): (r: TimeFieldOutcome)
    ensures r.Crashed? <==> raw.NullTime?
    ensures r.Reported? ==> r.result == TimeField(loc, raw)
  {
    match raw
    case NoTime => Reported(Valid(None))
    case NullTime => Crashed
    case GivenTime(t) => Reported(OptionalField(loc, Some(t), ValidateTime, Assertion))
  }

  /** A timestamp field as a record is written out: an absent timestamp is
      written as an explicit null. */
  function EncodeTimeField(t: Option<AwareTime>): RawTimeField
  {
    if t.None? then NullTime else GivenTime(EncodeTime(t.value))
  }

  lemma TimeFieldRoundTrip(loc: Loc, t: Option<AwareTime>)
    ensures TimeField(loc, EncodeTimeField(t)) == Valid(t)
  {
  }

  /** As written, a record whose timestamp is absent cannot be read back
      from its own written form. */
  lemma AbsentTimeRoundTripCrashes(loc: Loc)
    ensures TimeFieldAsWritten(loc, EncodeTimeField(None)).Crashed?
  {
  }

  /** Signed duration from `from` to `to`; offsets are taken into account, and
      when both share one offset it is the wall-clock difference. */
  function Elapsed(from: AwareTime, to: AwareTime): (d: int)
    ensures from.Instant() + d == to.Instant()
    ensures from.offset == to.offset ==> d == to.wall - from.wall
  {
    to.Instant() - from.Instant()
  }

  /** Writing either endpoint in another zone (same instant) leaves the
      duration unchanged. */
  lemma ElapsedIgnoresZone(from: AwareTime, to: AwareTime, shift: int)
    ensures Elapsed(AwareTime(from.wall + shift, from.offset + shift), to) == Elapsed(from, to)
    ensures Elapsed(from, AwareTime(to.wall + shift, to.offset + shift)) == Elapsed(from, to)
  {
  }
}
