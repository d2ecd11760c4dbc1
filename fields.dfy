/** How a declared field turns a supplied (or missing) input into a validated
    value: presence and defaults, the CUID type, `ge=`/`le=` bounds, literal
    enumerations, nested records and element-wise lists. */
module Fields {
  import opened Validation
  import opened BaseTypes

  /** `int` with `Field(ge=0, le=100)`. */
  type Percent = p: int | 0 <= p <= 100

  /** `float` with `Field(ge=0)`. */
  type NonNegReal = x: real | x >= 0.0

  /** `float` with `Field(ge=0, le=1)`. */
  type UnitReal = x: real | 0.0 <= x <= 1.0

  /** The error of a required field that was not supplied. */
  function MissingField<T>(name: string): Result<T> {
    Err([Issue([Key(name)], Missing)])
  }

  /** A field's result, its issues relocated below the field's name. */
  function At<T>(name: string, r: Result<T>): Result<T> {
    if r.Ok? then r else Err(Within(Key(name), r.issues))
  }

  /** A field without a default (its type may still admit `None`). */
  function Required<T>(name: string, v: Input<T>): (r: Result<T>)
    ensures r.Ok? <==> v.Present?
    ensures r.Ok? ==> r.value == v.value
  {
    if v.Present? then Ok(v.value) else MissingField(name)
  }

  /** A `CUID` field without a default. */
  function RequiredCuid(name: string, v: Input<string>): (r: Result<Cuid>)
    ensures r.Ok? <==> CuidGiven(v)
    ensures r.Ok? ==> r.value == v.value
  {
    if v.Absent? then MissingField(name) else At(name, ValidateCuid(RawStr(v.value)))
  }

  /** A `CUID | None` value. */
  function CuidOrNone(name: string, v: Option<string>): (r: Result<Option<Cuid>>)
    ensures r.Ok? <==> v.None? || IsCuid(v.value)
    ensures r.Ok? ==> r.value == v
  {
    if v.None? then Ok(None)
    else
      var c := At(name, ValidateCuid(RawStr(v.value)));
      if c.Ok? then Ok(Some(c.value)) else Err(c.issues)
  }

  /** A `CUID | None` field without a default. */
  function NullableCuid(name: string, v: Input<Option<string>>): (r: Result<Option<Cuid>>)
    ensures r.Ok? <==> NullableCuidGiven(v)
    ensures r.Ok? ==> r.value == v.value
  {
    if v.Absent? then MissingField(name) else CuidOrNone(name, v.value)
  }

  /** A `CUID | None = None` field. */
  function OptionalCuid(name: string, v: Input<Option<string>>): (r: Result<Option<Cuid>>)
    ensures r.Ok? <==> CuidIfGiven(v)
    ensures r.Ok? ==> r.value == OrNone(v)
  {
    CuidOrNone(name, OrNone(v))
  }

  /** An `int = Field(ge=0)` value. */
  function NonNegative(name: string, n: int): Result<nat> {
    if n < 0 then Err([Issue([Key(name)], BelowMinimum)]) else Ok(n)
  }

  /** An `int = Field(ge=0)` field without a default. */
  function RequiredNat(name: string, v: Input<int>): (r: Result<nat>)
    ensures r.Ok? <==> NatGiven(v)
    ensures r.Ok? ==> r.value == v.value
  {
    if v.Absent? then MissingField(name) else NonNegative(name, v.value)
  }

  /** An `int | None = Field(ge=0, default=None)` field. */
  function OptionalNat(name: string, v: Input<Option<int>>): (r: Result<Option<nat>>)
    ensures r.Ok? <==> NatIfGiven(v)
    ensures r.Ok? ==> r.value == OrNone(v)
  {
    var n := OrNone(v);
    if n.None? then Ok(None)
    else
      var c := NonNegative(name, n.value);
      if c.Ok? then Ok(Some(c.value)) else Err(c.issues)
  }

  /** An `int = Field(ge=0, le=100)` value. */
  function InPercent(name: string, n: int): Result<Percent> {
    if n < 0 then Err([Issue([Key(name)], BelowMinimum)])
    else if n > 100 then Err([Issue([Key(name)], AboveMaximum)])
    else Ok(n)
  }

  /** An `int = Field(ge=0, le=100)` field without a default. */
  function RequiredPercent(name: string, v: Input<int>): (r: Result<Percent>)
    ensures r.Ok? <==> v.Present? && 0 <= v.value <= 100
    ensures r.Ok? ==> r.value == v.value
  {
    if v.Absent? then MissingField(name) else InPercent(name, v.value)
  }

  /** An `int | None = Field(ge=0, le=100, default=None)` field. */
  function OptionalPercent(name: string, v: Input<Option<int>>): (r: Result<Option<Percent>>)
    ensures r.Ok? <==> OrNone(v).None? || 0 <= OrNone(v).value <= 100
    ensures r.Ok? ==> r.value == OrNone(v)
  {
    var n := OrNone(v);
    if n.None? then Ok(None)
    else
      var c := InPercent(name, n.value);
      if c.Ok? then Ok(Some(c.value)) else Err(c.issues)
  }

  /** A `float = Field(ge=0)` field without a default. */
  function RequiredNonNegReal(name: string, v: Input<real>): (r: Result<NonNegReal>)
    ensures r.Ok? <==> v.Present? && v.value >= 0.0
    ensures r.Ok? ==> r.value == v.value
  {
    if v.Absent? then MissingField(name)
    else if v.value < 0.0 then Err([Issue([Key(name)], BelowMinimum)])
    else Ok(v.value)
  }

  /** A `float = Field(ge=0, le=1)` field without a default. */
  function RequiredUnitReal(name: string, v: Input<real>): (r: Result<UnitReal>)
    ensures r.Ok? <==> v.Present? && 0.0 <= v.value <= 1.0
    ensures r.Ok? ==> r.value == v.value
  {
    if v.Absent? then MissingField(name)
    else if v.value < 0.0 then Err([Issue([Key(name)], BelowMinimum)])
    else if v.value > 1.0 then Err([Issue([Key(name)], AboveMaximum)])
    else Ok(v.value)
  }

  /** A `Literal[...]` field without a default; `parse` recognises the literals. */
  function RequiredChoice<E>(name: string, v: Input<string>, parse: string -> Option<E>): (r: Result<E>)
    ensures r.Ok? <==> v.Present? && parse(v.value).Some?
    ensures r.Ok? ==> Some(r.value) == parse(v.value)
  {
    if v.Absent? then MissingField(name)
    else if parse(v.value).None? then Err([Issue([Key(name)], NotAllowed)])
    else Ok(parse(v.value).value)
  }

  /** A nested record field without a default. */
  function RequiredModel<X, T>(name: string, v: Input<X>, validate: X -> Result<T>): (r: Result<T>)
    ensures r.Ok? <==> v.Present? && validate(v.value).Ok?
    ensures r.Ok? ==> r == validate(v.value)
  {
    if v.Absent? then MissingField(name) else At(name, validate(v.value))
  }

  /** A nested `Record | None = None` field. */
  function OptionalModel<X, T>(name: string, v: Input<Option<X>>, validate: X -> Result<T>): (r: Result<Option<T>>)
    ensures r.Ok? <==> OrNone(v).None? || validate(OrNone(v).value).Ok?
    ensures r.Ok? ==> (r.value.Some? <==> OrNone(v).Some?)
    ensures r.Ok? && r.value.Some? ==> validate(OrNone(v).value) == Ok(r.value.value)
  {
    var x := OrNone(v);
    if x.None? then Ok(None)
    else
      var c := At(name, validate(x.value));
      if c.Ok? then Ok(Some(c.value)) else Err(c.issues)
  }

  /** The issue `issue` of a list's validation points at an element that did
      not validate, and is one of that element's own issues. */
  ghost predicate PointsAtFailure<X, T>(issue: Issue, xs: seq<X>, validate: X -> Result<T>) {
    && |issue.loc| > 0
    && issue.loc[0].Index?
    && issue.loc[0].i < |xs|
    && Issue(issue.loc[1..], issue.kind) in Issues(validate(xs[issue.loc[0].i]))
  }

  /** Element-wise validation of `xs[start..]` (a `list[...]` field, and the
      module-level `TypeAdapter(list[...])` objects): the list validates iff
      every element does, keeps its length and order, and each issue is
      located at the index of the element it comes from. */
  function EachFrom<X, T>(xs: seq<X>, validate: X -> Result<T>, start: nat): (r: Result<seq<T>>)
    requires start <= |xs|
    ensures r.Ok? <==> forall i :: start <= i < |xs| ==> validate(xs[i]).Ok?
    ensures r.Ok? ==> |r.value| == |xs| - start
    ensures r.Ok? ==> forall i :: start <= i < |xs| ==> r.value[i - start] == validate(xs[i]).value
    ensures r.Err? ==> forall k :: 0 <= k < |r.issues| ==> PointsAtFailure(r.issues[k], xs, validate)
    decreases |xs| - start
  {
    if start == |xs| then Ok([])
    else
      var head := validate(xs[start]);
      var tail := EachFrom(xs, validate, start + 1);
      if head.Ok? && tail.Ok? then Ok([head.value] + tail.value)
      else
        var here := Within(Index(start), Issues(head));
        assert forall k :: 0 <= k < |here| ==> PointsAtFailure(here[k], xs, validate) by {
          forall k | 0 <= k < |here| ensures PointsAtFailure(here[k], xs, validate) {
            assert here[k].loc[1..] == Issues(head)[k].loc;
          }
        }
        Err(here + Issues(tail))
  }

  /** A whole list validated element by element. */
  function Each<X, T>(xs: seq<X>, validate: X -> Result<T>): (r: Result<seq<T>>)
    ensures r.Ok? <==> forall i :: 0 <= i < |xs| ==> validate(xs[i]).Ok?
    ensures r.Ok? ==> |r.value| == |xs| && forall i :: 0 <= i < |xs| ==> r.value[i] == validate(xs[i]).value
    ensures r.Err? ==> forall k :: 0 <= k < |r.issues| ==> PointsAtFailure(r.issues[k], xs, validate)
  {
    EachFrom(xs, validate, 0)
  }

  /** A `list[Record]` field without a default. */
  function RequiredList<X, T>(name: string, v: Input<seq<X>>, validate: X -> Result<T>): (r: Result<seq<T>>)
    ensures r.Ok? <==> v.Present? && Each(v.value, validate).Ok?
    ensures r.Ok? ==> r == Each(v.value, validate)
  {
    if v.Absent? then MissingField(name) else At(name, Each(v.value, validate))
  }

  /** A `list[Record] = []` field. */
  function ListOrEmpty<X, T>(name: string, v: Input<seq<X>>, validate: X -> Result<T>): (r: Result<seq<T>>)
    ensures r.Ok? <==> Each(Or(v, []), validate).Ok?
    ensures r.Ok? ==> r == Each(Or(v, []), validate)
  {
    At(name, Each(Or(v, []), validate))
  }

  /** A `mode='after'` model validator that rejects a record whose `earlier`
      instant comes after its `later` one, with the error `kind`, and otherwise
      returns the record itself. */
  function NotAfter<T>(m: T, earlier: Moment, later: Moment, kind: Kind): (r: Result<T>)
    ensures r.Ok? <==> earlier <= later
    ensures r.Ok? ==> r.value == m
    ensures r.Err? ==> r == Fail(kind)
  {
    if earlier > later then Fail(kind) else Ok(m)
  }

  // ---------------------------------------------------------------------------
  // What each kind of field accepts, stated on the input
  // ---------------------------------------------------------------------------

  /** A required `CUID` field was supplied and is a CUID. */
  predicate CuidGiven(v: Input<string>) {
    v.Present? && IsCuid(v.value)
  }

  /** A required `CUID | None` field was supplied, as `None` or a CUID. */
  predicate NullableCuidGiven(v: Input<Option<string>>) {
    v.Present? && (v.value.None? || IsCuid(v.value.value))
  }

  /** An optional `CUID | None = None` field is absent, `None` or a CUID. */
  predicate CuidIfGiven(v: Input<Option<string>>) {
    OrNone(v).None? || IsCuid(OrNone(v).value)
  }

  /** A required `Field(ge=0)` integer was supplied and is not negative. */
  predicate NatGiven(v: Input<int>) {
    v.Present? && v.value >= 0
  }

  /** An optional `int | None` with `ge=0` is absent, `None` or not negative. */
  predicate NatIfGiven(v: Input<Option<int>>) {
    OrNone(v).None? || OrNone(v).value >= 0
  }
}
