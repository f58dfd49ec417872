/** The error model of record validation: a failed construction reports a
    non-empty set of (location, kind) pairs, where a location is the path of
    field names, sequence positions and mapping keys leading to the offending
    value. Field-level checks and the ways they are combined into records,
    sequences and mappings live here, so that every record validator in the
    model reports errors in the same shape. */
module Validation {
  import opened Wrappers

  /** The fields of the model's records that errors can be reported at,
      each named after its input field (`MissReasonName` is `miss_reason`);
      `RootName` is the `__root__` location of whole-record checks. */
  datatype FieldName =
    | RootName  // a whole-record check
    | AssignedNumberName | OtherIdName
    | PenalisationName | MissReasonName
    | StartTimeName | FinishTimeName | PenalisationsName | CommentName
    | IdName | PerfClassName | GenderCategoryName | BoatCategoryName | AgeCategoryName
    | RegNumbersName | RunsName | OtherRunsName

  /** One step of an error location. */
  datatype Loc = Field(name: FieldName) | Index(i: nat) | Key(key: string)

  /** Location of errors raised by a whole-record check. */
  const Root := Field(RootName)

  /** The kinds of error the model reports, after the validation library's
      error codes (given in the comments). */
  datatype ErrorKind =
    | Missing         // value_error.missing: a required field is absent
    | NotGreaterThan  // value_error.number.not_gt: a positive integer is not positive
    | EnumMember      // type_error.enum: no enumeration member has this value
    | Const           // value_error.const: a literal-typed field has another value
    | TupleLength     // value_error.tuple.length: a fixed-size tuple has the wrong length
    | ListMinItems    // value_error.list.min_items: a bounded list is too short
    | ListMaxItems    // value_error.list.max_items: a bounded list is too long
    | Assertion       // assertion_error: a custom check failed

  datatype Error = Error(loc: seq<Loc>, kind: ErrorKind)

  /** A failed validation always reports at least one error. */
  type Errors = s: set<Error> | s != {} witness {Error([], Missing)}

  /** Outcome of validating a raw value into a `T`. */
  datatype Checked<+T> = Valid(value: T) | Invalid(errors: Errors) {

    /** The errors reported; empty exactly when validation succeeded. */
    function ErrorSet(): (es: set<Error>)
      ensures es == {} <==> Valid?
    {
      if Valid? then {} else errors
    }
  }

  /** The errors of a single field at location `loc`. */
  function At(loc: Loc, kind: ErrorKind): (es: Errors)
    ensures es == {Error([loc], kind)}
  {
    {Error([loc], kind)}
  }

  /** Re-roots the errors of a nested value under `prefix`. */
  function Nested(prefix: seq<Loc>, es: set<Error>): (r: set<Error>)
    ensures forall e :: e in es ==> Error(prefix + e.loc, e.kind) in r
    ensures forall e :: e in r ==> prefix <= e.loc
    ensures r == {} <==> es == {}
  {
    set e | e in es :: Error(prefix + e.loc, e.kind)
  }

  /** A required field: absent is `Missing`, a value `parse` rejects is `kind`. */
  function RequiredField<R, T>(loc: Loc, raw: Option<R>, parse: R -> Option<T>, kind: ErrorKind): (r: Checked<T>)
    ensures r.Valid? <==> raw.Some? && parse(raw.value).Some?
    ensures r.Valid? ==> Some(r.value) == parse(raw.value)
    ensures r.Invalid? ==> r.errors == {Error([loc], if raw.None? then Missing else kind)}
    ensures forall e :: e in r.ErrorSet() ==> e.loc == [loc]
  {
    match raw
    case None => Invalid(At(loc, Missing))
    case Some(v) =>
      match parse(v)
      case Some(t) => Valid(t)
      case None => Invalid(At(loc, kind))
  }

  /** An optional field: absent is valid and stays absent. */
  function OptionalField<R, T>(loc: Loc, raw: Option<R>, parse: R -> Option<T>, kind: ErrorKind): (r: Checked<Option<T>>)
    ensures r.Valid? <==> raw.None? || parse(raw.value).Some?
    ensures r.Valid? ==> r.value == (if raw.None? then None else parse(raw.value))
    ensures r.Invalid? ==> r.errors == {Error([loc], kind)}
  {
    match raw
    case None => Valid(None)
    case Some(v) =>
      match parse(v)
      case Some(t) => Valid(Some(t))
      case None => Invalid(At(loc, kind))
  }

  /** A two-element tuple field: each element's errors are reported under
      the field and the element's position; the pair is valid when both
      elements are. */
  function CheckPair<A, B>(field: Loc, first: Checked<A>, second: Checked<B>): (r: Checked<(A, B)>)
    ensures r.Valid? <==> first.Valid? && second.Valid?
    ensures r.Valid? ==> r.value == (first.value, second.value)
    ensures r.ErrorSet() == Nested([field, Index(0)], first.ErrorSet()) + Nested([field, Index(1)], second.ErrorSet())
    ensures forall e :: e in r.ErrorSet() ==> |e.loc| > 0 && e.loc[0] == field
  {
    var errors := Nested([field, Index(0)], first.ErrorSet()) + Nested([field, Index(1)], second.ErrorSet());
    assert forall e :: e in errors ==> [field, Index(0)] <= e.loc || [field, Index(1)] <= e.loc;
    if errors == {} then
      Valid((first.value, second.value))
    else
      Invalid(errors)
  }

  /** A list field: every item is validated, and an item's errors are
      reported under the field and the item's position; the list is valid
      when every item is. The reported errors are exactly the items' errors
      so re-rooted, in both directions. */
  function CheckListField<R, T>(field: Loc, items: seq<R>, check: R -> Checked<T>): (r: Checked<seq<T>>)
    ensures r.Valid? <==> forall i :: 0 <= i < |items| ==> check(items[i]).Valid?
    ensures r.Valid? ==> |r.value| == |items|
    ensures r.Valid? ==> forall i :: 0 <= i < |items| ==> r.value[i] == check(items[i]).value
    ensures forall i, e :: 0 <= i < |items| && e in check(items[i]).ErrorSet() ==>
              Error([field, Index(i)] + e.loc, e.kind) in r.ErrorSet()
    ensures forall e :: e in r.ErrorSet() ==>
              && |e.loc| >= 2 && e.loc[0] == field && e.loc[1].Index? && e.loc[1].i < |items|
              && Error(e.loc[2..], e.kind) in check(items[e.loc[1].i]).ErrorSet()
  {
    var es := set i, e | 0 <= i < |items| && e in check(items[i]).ErrorSet() :: Error([field, Index(i)] + e.loc, e.kind);
    forall i | 0 <= i < |items| && check(items[i]).Invalid? ensures es != {} {
      var e :| e in check(items[i]).errors;
      assert Error([field, Index(i)] + e.loc, e.kind) in es;
    }
    forall x | x in es
      ensures && |x.loc| >= 2 && x.loc[0] == field && x.loc[1].Index? && x.loc[1].i < |items|
              && Error(x.loc[2..], x.kind) in check(items[x.loc[1].i]).ErrorSet()
    {
      var i, e :| 0 <= i < |items| && e in check(items[i]).ErrorSet() && x == Error([field, Index(i)] + e.loc, e.kind);
      assert x.loc[2..] == e.loc;
    }
    if es == {} then
      Valid(seq(|items|, i requires 0 <= i < |items| => check(items[i]).value))
    else
      Invalid(es)
  }

  /** A mapping field: every value is validated, and a value's errors are
      reported under the field and the value's key; the mapping is valid
      when every value is. The reported errors are exactly the values'
      errors so re-rooted, in both directions. */
  function CheckMapField<R, T>(field: Loc, m: map<string, R>, check: R -> Checked<T>): (r: Checked<map<string, T>>)
    ensures r.Valid? <==> forall k :: k in m ==> check(m[k]).Valid?
    ensures r.Valid? ==> r.value.Keys == m.Keys
    ensures r.Valid? ==> forall k :: k in m ==> r.value[k] == check(m[k]).value
    ensures forall k, e :: k in m && e in check(m[k]).ErrorSet() ==>
              Error([field, Key(k)] + e.loc, e.kind) in r.ErrorSet()
    ensures forall e :: e in r.ErrorSet() ==>
              && |e.loc| >= 2 && e.loc[0] == field && e.loc[1].Key? && e.loc[1].key in m
              && Error(e.loc[2..], e.kind) in check(m[e.loc[1].key]).ErrorSet()
  {
    var es := set k, e | k in m && e in check(m[k]).ErrorSet() :: Error([field, Key(k)] + e.loc, e.kind);
    forall k | k in m && check(m[k]).Invalid? ensures es != {} {
      var e :| e in check(m[k]).errors;
      assert Error([field, Key(k)] + e.loc, e.kind) in es;
    }
    forall x | x in es
      ensures && |x.loc| >= 2 && x.loc[0] == field && x.loc[1].Key? && x.loc[1].key in m
              && Error(x.loc[2..], x.kind) in check(m[x.loc[1].key]).ErrorSet()
    {
      var k, e :| k in m && e in check(m[k]).ErrorSet() && x == Error([field, Key(k)] + e.loc, e.kind);
      assert x.loc[2..] == e.loc;
    }
    if es == {} then
      Valid(map k | k in m :: check(m[k]).value)
    else
      Invalid(es)
  }

  /** A mapping whose every value checks to the matching value of `expected`
      validates to `expected`. */
  lemma CheckMapFieldAllValid<R, T>(field: Loc, m: map<string, R>, check: R -> Checked<T>, expected: map<string, T>)
    requires m.Keys == expected.Keys
    requires forall k :: k in m ==> check(m[k]) == Valid(expected[k])
    ensures CheckMapField(field, m, check) == Valid(expected)
  {
    var r := CheckMapField(field, m, check);
    assert r.Valid?;
    assert r.value == expected;
  }
}
