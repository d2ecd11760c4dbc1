/** Shared vocabulary of the validation layer: optional values, supplied-or-not
    inputs, located validation issues and the result of validating a record. */
module Validation {

  /** A value that may be `None` (Python's `None`). */
  datatype Option<+T> = None | Some(value: T)

  /** Whether the caller supplied a field at all. A record's supplied fields are
      exactly those that are `Present` (pydantic's `model_fields_set`). */
  datatype Input<+T> = Absent | Present(value: T)

  /** An instant, ordered by `<` (datetime parsing is not modelled). */
  type Moment = int

  /** One step of the path from the validated value down to an offending part. */
  datatype Loc = Key(name: string) | Index(i: nat)

  /** The reasons a value is rejected. */
  datatype Kind =
    | Missing                    // a required field was not supplied
    | NotAString                 // TypeError raised by CUID.validate
    | NotCuid                    // ValueError raised by CUID.validate
    | BelowMinimum               // a `ge=` bound failed
    | AboveMaximum               // a `le=` bound failed
    | NotAllowed                 // a value outside a `Literal[...]`
    | BadColor                   // Option.validate_color
    | BadEmoji                   // Reaction.validate_emoji
    | CreatedAfterClose          // Market.validate_creation_date
    | CreatedAfterUpdate         // Position.validate_update_date
    | StartAfterEnd              // *GraphTick.validate_dates
    | ResolvedWithoutResolution  // FullMarket.validate_resolution (earlier draft)
    | UserIdMismatch             // CommentReactionView.validate_user

  datatype Issue = Issue(loc: seq<Loc>, kind: Kind)

  /** The outcome of validating a value: the validated value, or every issue found. */
  datatype Result<+T> = Ok(value: T) | Err(issues: seq<Issue>)

  /** The issues a result carries (none when it is `Ok`). */
  function Issues<T>(r: Result<T>): seq<Issue> {
    if r.Ok? then [] else r.issues
  }

  /** An issue located relative to a part, relocated relative to the whole. */
  function Relocate(loc: Loc, issue: Issue): Issue {
    Issue([loc] + issue.loc, issue.kind)
  }

  /** Every issue of `issues`, relocated below `loc`. */
  function Within(loc: Loc, issues: seq<Issue>): (r: seq<Issue>)
    ensures |r| == |issues|
    ensures forall k :: 0 <= k < |r| ==> r[k] == Relocate(loc, issues[k])
  {
    if issues == [] then [] else [Relocate(loc, issues[0])] + Within(loc, issues[1..])
  }

  /** A single issue at the record's own level (a model validator's error). */
  function Fail<T>(kind: Kind): Result<T> {
    Err([Issue([], kind)])
  }

  /** The value of a field that has a default when it was not supplied. */
  function Or<T>(v: Input<T>, default: T): T {
    if v.Present? then v.value else default
  }

  /** The value of an optional field whose default is `None`. */
  function OrNone<T>(v: Input<Option<T>>): Option<T> {
    if v.Present? then v.value else None
  }
}
