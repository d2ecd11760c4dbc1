/** Markets, their options and resolutions, full markets and market lists. */
module MarketSchema {
  import opened Validation
  import opened BaseTypes
  import opened Fields
  import opened UserSchema

  // ---------------------------------------------------------------------------
  // Market
  // ---------------------------------------------------------------------------

  datatype MarketInput = MarketInput(
    id: Input<string>,
    question: Input<string>,
    description: Input<string>,
    slug: Input<string>,
    tags: Input<seq<string>>,
    createdAt: Input<Moment>,
    closeDate: Input<Moment>,
    resolvedAt: Input<Option<Moment>>,
    canceledAt: Input<Option<Moment>>,
    updatedAt: Input<Option<Moment>>,
    createdBy: Input<string>,
    ammAccountId: Input<string>,
    clearingAccountId: Input<string>,
    canceledById: Input<Option<string>>,
    commentCount: Input<int>,
    uniqueTradersCount: Input<int>,
    uniquePromotersCount: Input<int>,
    liquidityCount: Input<Option<int>>,
    parentListId: Input<Option<string>>)

  datatype Market = Market(
    id: Cuid,
    question: string,
    description: string,
    slug: string,
    tags: seq<string>,
    createdAt: Moment,
    closeDate: Moment,
    resolvedAt: Option<Moment>,
    canceledAt: Option<Moment>,
    updatedAt: Option<Moment>,
    createdBy: Cuid,
    ammAccountId: Cuid,
    clearingAccountId: Cuid,
    canceledById: Option<Cuid>,
    commentCount: nat,
    uniqueTradersCount: nat,
    uniquePromotersCount: nat,
    liquidityCount: Option<nat>,
    parentListId: Option<Cuid>)

  /** The field declarations of `Market`, before its model validator. */
  ghost predicate MarketFieldsAccepted(x: MarketInput) {
    && CuidGiven(x.id)
    && x.question.Present? && x.description.Present? && x.slug.Present?
    && x.createdAt.Present? && x.closeDate.Present?
    && CuidGiven(x.createdBy) && CuidGiven(x.ammAccountId) && CuidGiven(x.clearingAccountId)
    && CuidIfGiven(x.canceledById)
    && NatGiven(x.commentCount) && NatGiven(x.uniqueTradersCount) && NatGiven(x.uniquePromotersCount)
    && NatIfGiven(x.liquidityCount)
    && CuidIfGiven(x.parentListId)
  }

  /** The validated record agrees with what was supplied, and every field
      that was not supplied holds its default. */
  ghost predicate MarketFrom(x: MarketInput, m: Market)
    requires MarketFieldsAccepted(x)
  {
    && m.id == x.id.value && m.question == x.question.value && m.description == x.description.value
    && m.slug == x.slug.value && m.tags == Or(x.tags, [])
    && m.createdAt == x.createdAt.value && m.closeDate == x.closeDate.value
    && m.resolvedAt == OrNone(x.resolvedAt) && m.canceledAt == OrNone(x.canceledAt)
    && m.updatedAt == OrNone(x.updatedAt)
    && m.createdBy == x.createdBy.value && m.ammAccountId == x.ammAccountId.value
    && m.clearingAccountId == x.clearingAccountId.value && m.canceledById == OrNone(x.canceledById)
    && m.commentCount == x.commentCount.value
    && m.uniqueTradersCount == x.uniqueTradersCount.value
    && m.uniquePromotersCount == x.uniquePromotersCount.value
    && m.liquidityCount == OrNone(x.liquidityCount)
    && m.parentListId == OrNone(x.parentListId)
  }

  /** Field validation of a `Market` (shared with `FullMarket`, which inherits
      these fields). */
  function MarketFields(x: MarketInput): (r: Result<Market>)
    ensures r.Ok? <==> MarketFieldsAccepted(x)
    ensures r.Ok? ==> MarketFrom(x, r.value)
  {
    var id := RequiredCuid("id", x.id);
    var question := Required("question", x.question);
    var description := Required("description", x.description);
    var slug := Required("slug", x.slug);
    var createdAt := Required("createdAt", x.createdAt);
    var closeDate := Required("closeDate", x.closeDate);
    var createdBy := RequiredCuid("createdBy", x.createdBy);
    var ammAccountId := RequiredCuid("ammAccountId", x.ammAccountId);
    var clearingAccountId := RequiredCuid("clearingAccountId", x.clearingAccountId);
    var canceledById := OptionalCuid("canceledById", x.canceledById);
    var commentCount := RequiredNat("commentCount", x.commentCount);
    var uniqueTradersCount := RequiredNat("uniqueTradersCount", x.uniqueTradersCount);
    var uniquePromotersCount := RequiredNat("uniquePromotersCount", x.uniquePromotersCount);
    var liquidityCount := OptionalNat("liquidityCount", x.liquidityCount);
    var parentListId := OptionalCuid("parentListId", x.parentListId);
    if && id.Ok? && question.Ok? && description.Ok? && slug.Ok? && createdAt.Ok? && closeDate.Ok?
       && createdBy.Ok? && ammAccountId.Ok? && clearingAccountId.Ok? && canceledById.Ok?
       && commentCount.Ok? && uniqueTradersCount.Ok? && uniquePromotersCount.Ok?
       && liquidityCount.Ok? && parentListId.Ok?
    then
      Ok(Market(id.value, question.value, description.value, slug.value, Or(x.tags, []),
                createdAt.value, closeDate.value,
                OrNone(x.resolvedAt), OrNone(x.canceledAt), OrNone(x.updatedAt),
                createdBy.value, ammAccountId.value, clearingAccountId.value, canceledById.value,
                commentCount.value, uniqueTradersCount.value, uniquePromotersCount.value,
                liquidityCount.value, parentListId.value))
    else
      Err(Issues(id) + Issues(question) + Issues(description) + Issues(slug) + Issues(createdAt)
          + Issues(closeDate) + Issues(createdBy) + Issues(ammAccountId)
          + Issues(clearingAccountId) + Issues(canceledById) + Issues(commentCount)
          + Issues(uniqueTradersCount) + Issues(uniquePromotersCount) + Issues(liquidityCount)
          + Issues(parentListId))
  }

  /** `Market.validate_creation_date`, run once every field has validated. */
  function CheckCreationDate(m: Market): (r: Result<Market>)
    ensures r.Ok? <==> m.createdAt <= m.closeDate
    ensures r.Ok? ==> r.value == m
    ensures r.Err? ==> r == Fail(CreatedAfterClose)
  {
    NotAfter(m, m.createdAt, m.closeDate, CreatedAfterClose)
  }

  /** Validating a `Market`: accepted iff every field is as declared and the
      market is not created after it closes (equal dates are accepted); when
      only the dates are at fault, the model validator's error is the only one. */
  function ValidateMarket(x: MarketInput): (r: Result<Market>)
    ensures r.Ok? <==> MarketFieldsAccepted(x) && x.createdAt.value <= x.closeDate.value
    ensures r.Ok? ==> MarketFrom(x, r.value) && r.value.createdAt <= r.value.closeDate
    ensures MarketFieldsAccepted(x) && x.createdAt.value > x.closeDate.value ==> r == Fail(CreatedAfterClose)
  {
    var fields := MarketFields(x);
    if fields.Err? then fields else CheckCreationDate(fields.value)
  }

  // ---------------------------------------------------------------------------
  // LiteOption and Option
  // ---------------------------------------------------------------------------

  datatype LiteOptionInput = LiteOptionInput(id: Input<string>, probability: Input<Option<int>>)

  datatype LiteOption = LiteOption(id: Cuid, probability: Option<Percent>)

  /** A probability percentage is absent, `None`, or within 0..100 inclusive. */
  predicate ProbabilityIfGiven(v: Input<Option<int>>) {
    OrNone(v).None? || 0 <= OrNone(v).value <= 100
  }

  /** Validating a `LiteOption`: the probability may be left out (for older
      servers), and when given lies in 0..100, a value outside being reported
      against the bound it breaks. */
  function ValidateLiteOption(x: LiteOptionInput): (r: Result<LiteOption>)
    ensures r.Ok? <==> CuidGiven(x.id) && ProbabilityIfGiven(x.probability)
    ensures r.Ok? ==> r.value.id == x.id.value && r.value.probability == OrNone(x.probability)
    ensures CuidGiven(x.id) && OrNone(x.probability).Some? && OrNone(x.probability).value > 100 ==>
              r == Err([Issue([Key("probability")], AboveMaximum)])
    ensures CuidGiven(x.id) && OrNone(x.probability).Some? && OrNone(x.probability).value < 0 ==>
              r == Err([Issue([Key("probability")], BelowMinimum)])
  {
    var id := RequiredCuid("id", x.id);
    var probability := OptionalPercent("probability", x.probability);
    if id.Ok? && probability.Ok? then Ok(LiteOption(id.value, probability.value))
    else Err(Issues(id) + Issues(probability))
  }

  /** `Option.validate_color`: a `#` followed by six more characters; the value
      is returned unchanged. */
  function ValidateColor(value: string): (r: Result<string>)
    ensures r.Ok? <==> |value| == 7 && value[0] == '#'
    ensures r.Ok? ==> r.value == value
    ensures r.Err? ==> r == Fail(BadColor)
  {
    if |value| == 0 || value[0] != '#' || |value| != 7 then Fail(BadColor) else Ok(value)
  }

  predicate IsHexDigit(ch: char) {
    ('0' <= ch <= '9') || ('a' <= ch <= 'f') || ('A' <= ch <= 'F')
  }

  /** A colour written as a hex code, `#RRGGBB`. */
  predicate IsHexColor(s: string) {
    |s| == 7 && s[0] == '#' && forall k :: 1 <= k < 7 ==> IsHexDigit(s[k])
  }

  /** Every hex colour code is accepted, but so is any other seven-character
      string starting with `#`: the digits are not checked. */
  lemma ColorCheckIsShapeOnly(s: string)
    ensures IsHexColor(s) ==> ValidateColor(s) == Ok(s)
    ensures ValidateColor("#GGGGGG").Ok? && !IsHexColor("#GGGGGG")
    ensures ValidateColor("#FFFFF").Err? && ValidateColor("FFFFFFF").Err?
  {
    assert !IsHexDigit("#GGGGGG"[1]);
  }

  datatype MarketOptionInput = MarketOptionInput(
    id: Input<string>,
    probability: Input<Option<int>>,
    name: Input<string>,
    marketId: Input<string>,
    color: Input<string>,
    liquidityProbability: Input<real>,
    createdAt: Input<Moment>,
    updatedAt: Input<Moment>)

  /** The `Option` schema (an extension of `LiteOption`). */
  datatype MarketOption = MarketOption(
    id: Cuid,
    probability: Option<Percent>,
    name: string,
    marketId: Cuid,
    color: string,
    liquidityProbability: UnitReal,
    createdAt: Moment,
    updatedAt: Moment)

  ghost predicate MarketOptionAccepted(x: MarketOptionInput) {
    && CuidGiven(x.id) && ProbabilityIfGiven(x.probability)
    && x.name.Present? && CuidGiven(x.marketId)
    && x.color.Present? && |x.color.value| == 7 && x.color.value[0] == '#'
    && x.liquidityProbability.Present? && 0.0 <= x.liquidityProbability.value <= 1.0
    && x.createdAt.Present? && x.updatedAt.Present?
  }

  /** Validating an `Option`: the inherited `LiteOption` rules, a colour of the
      checked shape, kept verbatim, and a liquidity probability within 0..1. */
  function ValidateMarketOption(x: MarketOptionInput): (r: Result<MarketOption>)
    ensures r.Ok? <==> MarketOptionAccepted(x)
    ensures r.Ok? ==> ValidateLiteOption(LiteOptionInput(x.id, x.probability)) == Ok(LiteOption(r.value.id, r.value.probability))
    ensures r.Ok? ==> r.value.id == x.id.value && r.value.probability == OrNone(x.probability)
    ensures r.Ok? ==> r.value.name == x.name.value && r.value.liquidityProbability == x.liquidityProbability.value
    ensures r.Ok? ==> r.value.color == x.color.value && r.value.marketId == x.marketId.value
    ensures r.Ok? ==> r.value.createdAt == x.createdAt.value && r.value.updatedAt == x.updatedAt.value
  {
    var id := RequiredCuid("id", x.id);
    var probability := OptionalPercent("probability", x.probability);
    var name := Required("name", x.name);
    var marketId := RequiredCuid("marketId", x.marketId);
    var color := if x.color.Absent? then MissingField("color") else At("color", ValidateColor(x.color.value));
    var liquidityProbability := RequiredUnitReal("liquidityProbability", x.liquidityProbability);
    var createdAt := Required("createdAt", x.createdAt);
    var updatedAt := Required("updatedAt", x.updatedAt);
    if && id.Ok? && probability.Ok? && name.Ok? && marketId.Ok? && color.Ok?
       && liquidityProbability.Ok? && createdAt.Ok? && updatedAt.Ok?
    then
      Ok(MarketOption(id.value, probability.value, name.value, marketId.value, color.value,
                      liquidityProbability.value, createdAt.value, updatedAt.value))
    else
      Err(Issues(id) + Issues(probability) + Issues(name) + Issues(marketId) + Issues(color)
          + Issues(liquidityProbability) + Issues(createdAt) + Issues(updatedAt))
  }

  // ---------------------------------------------------------------------------
  // MarketResolution
  // ---------------------------------------------------------------------------

  datatype MarketResolutionInput = MarketResolutionInput(
    id: Input<string>,
    marketId: Input<string>,
    resolvedById: Input<string>,
    resolutionId: Input<string>,
    supportingLink: Input<Option<string>>,
    createdAt: Input<Moment>,
    updatedAt: Input<Moment>,
    resolution: Input<MarketOptionInput>,
    resolvedBy: Input<UserInput>,
    market: Input<MarketInput>)

  datatype MarketResolution = MarketResolution(
    id: Cuid,
    marketId: Cuid,
    resolvedById: Cuid,
    resolutionId: Cuid,
    supportingLink: Option<string>,
    createdAt: Moment,
    updatedAt: Moment,
    resolution: MarketOption,
    resolvedBy: User,
    market: Market)

  ghost predicate MarketResolutionAccepted(x: MarketResolutionInput) {
    && CuidGiven(x.id) && CuidGiven(x.marketId) && CuidGiven(x.resolvedById) && CuidGiven(x.resolutionId)
    && x.createdAt.Present? && x.updatedAt.Present?
    && x.resolution.Present? && ValidateMarketOption(x.resolution.value).Ok?
    && x.resolvedBy.Present? && ValidateUser(x.resolvedBy.value).Ok?
    && x.market.Present? && ValidateMarket(x.market.value).Ok?
  }

  /** Validating a `MarketResolution`: its identifiers are CUIDs and the
      resolving option, the resolving user and the market each validate on
      their own terms, which the record then carries. */
  function ValidateMarketResolution(x: MarketResolutionInput): (r: Result<MarketResolution>)
    ensures r.Ok? <==> MarketResolutionAccepted(x)
    ensures r.Ok? ==> ValidateMarketOption(x.resolution.value) == Ok(r.value.resolution)
    ensures r.Ok? ==> ValidateUser(x.resolvedBy.value) == Ok(r.value.resolvedBy)
    ensures r.Ok? ==> ValidateMarket(x.market.value) == Ok(r.value.market)
    ensures r.Ok? ==> r.value.supportingLink == OrNone(x.supportingLink)
    ensures r.Ok? ==> r.value.id == x.id.value && r.value.marketId == x.marketId.value
                      && r.value.resolvedById == x.resolvedById.value && r.value.resolutionId == x.resolutionId.value
    ensures r.Ok? ==> r.value.createdAt == x.createdAt.value && r.value.updatedAt == x.updatedAt.value
  {
    var id := RequiredCuid("id", x.id);
    var marketId := RequiredCuid("marketId", x.marketId);
    var resolvedById := RequiredCuid("resolvedById", x.resolvedById);
    var resolutionId := RequiredCuid("resolutionId", x.resolutionId);
    var createdAt := Required("createdAt", x.createdAt);
    var updatedAt := Required("updatedAt", x.updatedAt);
    var resolution := RequiredModel("resolution", x.resolution, ValidateMarketOption);
    var resolvedBy := RequiredModel("resolvedBy", x.resolvedBy, ValidateUser);
    var market := RequiredModel("market", x.market, ValidateMarket);
    if && id.Ok? && marketId.Ok? && resolvedById.Ok? && resolutionId.Ok? && createdAt.Ok?
       && updatedAt.Ok? && resolution.Ok? && resolvedBy.Ok? && market.Ok?
    then
      Ok(MarketResolution(id.value, marketId.value, resolvedById.value, resolutionId.value,
                          OrNone(x.supportingLink), createdAt.value, updatedAt.value,
                          resolution.value, resolvedBy.value, market.value))
    else
      Err(Issues(id) + Issues(marketId) + Issues(resolvedById) + Issues(resolutionId)
          + Issues(createdAt) + Issues(updatedAt) + Issues(resolution) + Issues(resolvedBy)
          + Issues(market))
  }

  // ---------------------------------------------------------------------------
  // FullMarket
  // ---------------------------------------------------------------------------

  /** The fields of a `FullMarket`: those it inherits from `Market` and its own. */
  datatype FullMarketInput = FullMarketInput(
    base: MarketInput,
    user: Input<UserInput>,
    options: Input<seq<MarketOptionInput>>,
    marketResolution: Input<Option<MarketResolutionInput>>,
    resolvedBy: Input<Option<UserInput>>,
    parentList: Input<Option<string>>,
    sharedTagsCount: Input<int>)

  datatype FullMarket = FullMarket(
    base: Market,
    user: User,
    options: seq<MarketOption>,
    marketResolution: Option<MarketResolution>,
    resolvedBy: Option<User>,
    parentList: Option<string>,
    sharedTagsCount: Option<int>)   // declared `int = Field(default=None)`

  ghost predicate FullMarketFieldsAccepted(x: FullMarketInput) {
    && MarketFieldsAccepted(x.base)
    && x.user.Present? && ValidateUser(x.user.value).Ok?
    && (forall i :: 0 <= i < |Or(x.options, [])| ==> ValidateMarketOption(Or(x.options, [])[i]).Ok?)
    && (OrNone(x.marketResolution).None? || ValidateMarketResolution(OrNone(x.marketResolution).value).Ok?)
    && (OrNone(x.resolvedBy).None? || ValidateUser(OrNone(x.resolvedBy).value).Ok?)
  }

  /** Validating a `FullMarket` (before the instance dictionary is pruned): the
      inherited part is exactly a validated `Market`, including its date
      check; the options validate one by one, in order; the optional parts
      default to `None` and the option list to `[]`. */
  function ValidateFullMarket(x: FullMarketInput): (r: Result<FullMarket>)
    ensures r.Ok? <==> FullMarketFieldsAccepted(x) && x.base.createdAt.value <= x.base.closeDate.value
    ensures r.Ok? ==> ValidateMarket(x.base) == Ok(r.value.base)
    ensures r.Ok? ==> ValidateUser(x.user.value) == Ok(r.value.user)
    ensures r.Ok? ==> |r.value.options| == |Or(x.options, [])|
    ensures r.Ok? ==> forall i :: 0 <= i < |r.value.options| ==>
              ValidateMarketOption(Or(x.options, [])[i]) == Ok(r.value.options[i])
    ensures r.Ok? ==> (r.value.marketResolution.Some? <==> OrNone(x.marketResolution).Some?)
    ensures r.Ok? && r.value.marketResolution.Some? ==>
              ValidateMarketResolution(OrNone(x.marketResolution).value) == Ok(r.value.marketResolution.value)
    ensures r.Ok? ==> (r.value.resolvedBy.Some? <==> OrNone(x.resolvedBy).Some?)
    ensures r.Ok? && r.value.resolvedBy.Some? ==> ValidateUser(OrNone(x.resolvedBy).value) == Ok(r.value.resolvedBy.value)
    ensures r.Ok? ==> r.value.parentList == OrNone(x.parentList)
    ensures r.Ok? ==> r.value.sharedTagsCount == (if x.sharedTagsCount.Present? then Some(x.sharedTagsCount.value) else None)
    ensures FullMarketFieldsAccepted(x) && x.base.createdAt.value > x.base.closeDate.value ==> r == Fail(CreatedAfterClose)
  {
    var base := MarketFields(x.base);
    var user := RequiredModel("user", x.user, ValidateUser);
    var options := ListOrEmpty("options", x.options, ValidateMarketOption);
    var marketResolution := OptionalModel("marketResolution", x.marketResolution, ValidateMarketResolution);
    var resolvedBy := OptionalModel("resolvedBy", x.resolvedBy, ValidateUser);
    if base.Ok? && user.Ok? && options.Ok? && marketResolution.Ok? && resolvedBy.Ok? then
      var checked := CheckCreationDate(base.value);
      if checked.Err? then Err(checked.issues)
      else
        Ok(FullMarket(base.value, user.value, options.value, marketResolution.value, resolvedBy.value,
                      OrNone(x.parentList),
                      if x.sharedTagsCount.Present? then Some(x.sharedTagsCount.value) else None))
    else
      Err(Issues(base) + Issues(user) + Issues(options) + Issues(marketResolution) + Issues(resolvedBy))
  }

  /** A value held in an instance's attribute dictionary. */
  datatype FieldValue =
    | NoneValue
    | Text(s: string)
    | Texts(items: seq<string>)
    | Number(n: int)
    | Instant(t: Moment)
    | UserValue(user: User)
    | OptionsValue(options: seq<MarketOption>)
    | ResolutionValue(resolution: MarketResolution)

  function TextOrNone(v: Option<string>): FieldValue {
    if v.Some? then Text(v.value) else NoneValue
  }

  function CuidOrNoneValue(v: Option<Cuid>): FieldValue {
    if v.Some? then Text(v.value) else NoneValue
  }

  function NumberOrNone(v: Option<int>): FieldValue {
    if v.Some? then Number(v.value) else NoneValue
  }

  function NatOrNone(v: Option<nat>): FieldValue {
    if v.Some? then Number(v.value) else NoneValue
  }

  function InstantOrNone(v: Option<Moment>): FieldValue {
    if v.Some? then Instant(v.value) else NoneValue
  }

  /** `FullMarket.model_fields`, in declaration order: the inherited fields of
      `Market`, then those of `FullMarket`. */
  const FullMarketFields: seq<string> := [
    "id", "question", "description", "slug", "tags",
    "createdAt", "closeDate", "resolvedAt", "canceledAt", "updatedAt",
    "createdBy", "ammAccountId", "clearingAccountId", "canceledById",
    "commentCount", "uniqueTradersCount", "uniquePromotersCount", "liquidityCount", "parentListId",
    "user", "options", "marketResolution", "resolvedBy", "parentList", "sharedTagsCount"]

  /** The fields that construction removes when they were not supplied. */
  const Prunable: set<string> := {"resolvedBy", "parentList", "sharedTagsCount", "options", "marketResolution"}

  /** The instance dictionary right after validation: every declared field,
      holding its validated or default value. */
  function Attributes(m: FullMarket): (d: map<string, FieldValue>)
    ensures d.Keys == set f | f in FullMarketFields
  {
    var b := m.base;
    map[
      "id" := Text(b.id), "question" := Text(b.question), "description" := Text(b.description),
      "slug" := Text(b.slug), "tags" := Texts(b.tags),
      "createdAt" := Instant(b.createdAt), "closeDate" := Instant(b.closeDate),
      "resolvedAt" := InstantOrNone(b.resolvedAt), "canceledAt" := InstantOrNone(b.canceledAt),
      "updatedAt" := InstantOrNone(b.updatedAt),
      "createdBy" := Text(b.createdBy), "ammAccountId" := Text(b.ammAccountId),
      "clearingAccountId" := Text(b.clearingAccountId), "canceledById" := CuidOrNoneValue(b.canceledById),
      "commentCount" := Number(b.commentCount), "uniqueTradersCount" := Number(b.uniqueTradersCount),
      "uniquePromotersCount" := Number(b.uniquePromotersCount),
      "liquidityCount" := NatOrNone(b.liquidityCount), "parentListId" := CuidOrNoneValue(b.parentListId),
      "user" := UserValue(m.user), "options" := OptionsValue(m.options),
      "marketResolution" := if m.marketResolution.Some? then ResolutionValue(m.marketResolution.value) else NoneValue,
      "resolvedBy" := if m.resolvedBy.Some? then UserValue(m.resolvedBy.value) else NoneValue,
      "parentList" := TextOrNone(m.parentList), "sharedTagsCount" := NumberOrNone(m.sharedTagsCount)]
  }

  /** Whether the caller supplied the declared field named `f`. */
  predicate Given(x: FullMarketInput, f: string) {
    var b := x.base;
    match f
    case "id" => b.id.Present?
    case "question" => b.question.Present?
    case "description" => b.description.Present?
    case "slug" => b.slug.Present?
    case "tags" => b.tags.Present?
    case "createdAt" => b.createdAt.Present?
    case "closeDate" => b.closeDate.Present?
    case "resolvedAt" => b.resolvedAt.Present?
    case "canceledAt" => b.canceledAt.Present?
    case "updatedAt" => b.updatedAt.Present?
    case "createdBy" => b.createdBy.Present?
    case "ammAccountId" => b.ammAccountId.Present?
    case "clearingAccountId" => b.clearingAccountId.Present?
    case "canceledById" => b.canceledById.Present?
    case "commentCount" => b.commentCount.Present?
    case "uniqueTradersCount" => b.uniqueTradersCount.Present?
    case "uniquePromotersCount" => b.uniquePromotersCount.Present?
    case "liquidityCount" => b.liquidityCount.Present?
    case "parentListId" => b.parentListId.Present?
    case "user" => x.user.Present?
    case "options" => x.options.Present?
    case "marketResolution" => x.marketResolution.Present?
    case "resolvedBy" => x.resolvedBy.Present?
    case "parentList" => x.parentList.Present?
    case "sharedTagsCount" => x.sharedTagsCount.Present?
    case _ => false
  }

  /** `model_fields_set`: the names of the fields the caller supplied. */
  function Supplied(x: FullMarketInput): set<string> {
    set f | f in FullMarketFields && Given(x, f)
  }

  /** The dictionary once the unsupplied prunable fields are gone. */
  function Pruned(d: map<string, FieldValue>, supplied: set<string>): (r: map<string, FieldValue>)
    ensures forall f :: f in r <==> f in d && (f !in Prunable || f in supplied)
    ensures forall f :: f in r ==> r[f] == d[f]
  {
    d - (Prunable - supplied)
  }

  /** The prunable fields among `fields` that were not supplied. */
  function PrunedAmong(fields: seq<string>, supplied: set<string>): set<string> {
    set f | f in fields && f !in supplied && f in Prunable
  }

  /** A validated full market together with its attribute dictionary. */
  class FullMarketObject {
    var attributes: map<string, FieldValue>   // the instance's `__dict__`
    const fieldsSet: set<string>              // `model_fields_set`

    /** The state `super().__init__(**data)` leaves behind. */
    constructor (validated: FullMarket, supplied: set<string>)
      ensures attributes == Attributes(validated) && fieldsSet == supplied
    {
      attributes := Attributes(validated);
      fieldsSet := supplied;
    }

    /** The loop of `FullMarket.__init__`: each declared field that was not
        supplied and is prunable is popped from the dictionary. */
    method PruneUnsupplied()
      modifies this
      ensures attributes == Pruned(old(attributes), fieldsSet)
    {
      var i := 0;
      while i < |FullMarketFields|
        invariant 0 <= i <= |FullMarketFields|
        invariant attributes == old(attributes) - PrunedAmong(FullMarketFields[..i], fieldsSet)
      {
        var field := FullMarketFields[i];
        assert FullMarketFields[..i + 1] == FullMarketFields[..i] + [field];
        if field !in fieldsSet && field in Prunable {
          attributes := attributes - {field};
        }
        assert PrunedAmong(FullMarketFields[..i + 1], fieldsSet)
            == PrunedAmong(FullMarketFields[..i], fieldsSet) + (if field !in fieldsSet && field in Prunable then {field} else {});
        i := i + 1;
      }
      assert FullMarketFields[..i] == FullMarketFields;
      assert PrunedAmong(FullMarketFields, fieldsSet) == Prunable - fieldsSet;
    }
  }

  /** `FullMarket(**data)`: validation, then pruning. Invalid data raises
      before any object exists. */
  method NewFullMarket(x: FullMarketInput) returns (r: Result<FullMarketObject>)
    ensures r.Ok? <==> ValidateFullMarket(x).Ok?
    ensures r.Err? ==> r.issues == ValidateFullMarket(x).issues
    ensures r.Ok? ==> fresh(r.value) && r.value.fieldsSet == Supplied(x)
    ensures r.Ok? ==> r.value.attributes == Pruned(Attributes(ValidateFullMarket(x).value), Supplied(x))
  {
    var validated := ValidateFullMarket(x);
    if validated.Err? {
      return Err(validated.issues);
    }
    var o := new FullMarketObject(validated.value, Supplied(x));
    o.PruneUnsupplied();
    return Ok(o);
  }

  /** After construction, a declared field is present iff it is not prunable
      or was supplied, and every present field holds its validated value. */
  lemma PruningKeepsExactly(x: FullMarketInput, f: string)
    requires ValidateFullMarket(x).Ok?
    requires f in FullMarketFields
    ensures var m := ValidateFullMarket(x).value;
            && (f in Pruned(Attributes(m), Supplied(x)) <==> f !in Prunable || f in Supplied(x))
            && (f in Pruned(Attributes(m), Supplied(x)) ==> Pruned(Attributes(m), Supplied(x))[f] == Attributes(m)[f])
  {
  }

  /** A prunable field supplied with its default value stays: `options=[]`
      keeps an empty option list. */
  lemma ExplicitDefaultKept(x: FullMarketInput)
    requires ValidateFullMarket(x).Ok?
    requires x.options == Present([])
    ensures var d := Pruned(Attributes(ValidateFullMarket(x).value), Supplied(x));
            "options" in d && d["options"] == OptionsValue([])
  {
    var m := ValidateFullMarket(x).value;
    assert "options" in Supplied(x);
    assert Attributes(m)["options"] == OptionsValue(m.options);
  }

  /** Leaving a prunable field out removes it, so the attribute is missing
      rather than holding its default. */
  lemma UnsuppliedPrunableRemoved(x: FullMarketInput, f: string)
    requires ValidateFullMarket(x).Ok?
    requires f in Prunable && !Given(x, f)
    ensures f !in Pruned(Attributes(ValidateFullMarket(x).value), Supplied(x))
  {
    assert f !in Supplied(x);
  }

  // ---------------------------------------------------------------------------
  // MarketList
  // ---------------------------------------------------------------------------

  /** `ContributionPolicyType`. */
  datatype ContributionPolicy = Public | Disabled | OwnersOnly | FriendsOnly

  const ContributionPolicyLiterals: seq<string> := ["PUBLIC", "DISABLED", "OWNERS_ONLY", "FRIENDS_ONLY"]

  function ContributionPolicyName(p: ContributionPolicy): (s: string)
    ensures s in ContributionPolicyLiterals
  {
    match p
    case Public => "PUBLIC"
    case Disabled => "DISABLED"
    case OwnersOnly => "OWNERS_ONLY"
    case FriendsOnly => "FRIENDS_ONLY"
  }

  function ParseContributionPolicy(s: string): (r: Option<ContributionPolicy>)
    ensures r.Some? <==> s in ContributionPolicyLiterals
    ensures r.Some? ==> ContributionPolicyName(r.value) == s
  {
    if s == "PUBLIC" then Some(Public)
    else if s == "DISABLED" then Some(Disabled)
    else if s == "OWNERS_ONLY" then Some(OwnersOnly)
    else if s == "FRIENDS_ONLY" then Some(FriendsOnly)
    else None
  }

  lemma ContributionPolicyRoundTrip(p: ContributionPolicy)
    ensures ParseContributionPolicy(ContributionPolicyName(p)) == Some(p)
  {
  }

  datatype MarketListInput = MarketListInput(
    id: Input<string>,
    title: Input<string>,
    slug: Input<string>,
    description: Input<string>,
    ownerId: Input<string>,
    contributionPolicy: Input<string>,
    contributionReview: Input<bool>,
    tags: Input<seq<string>>,
    createdAt: Input<Moment>,
    updatedAt: Input<Moment>)

  datatype MarketList = MarketList(
    id: Cuid,
    title: string,
    slug: string,
    description: string,
    ownerId: Cuid,
    contributionPolicy: ContributionPolicy,
    contributionReview: bool,
    tags: seq<string>,
    createdAt: Moment,
    updatedAt: Moment)

  ghost predicate MarketListAccepted(x: MarketListInput) {
    && CuidGiven(x.id) && x.title.Present? && x.slug.Present? && x.description.Present?
    && CuidGiven(x.ownerId)
    && x.contributionPolicy.Present? && x.contributionPolicy.value in ContributionPolicyLiterals
    && x.contributionReview.Present? && x.tags.Present?
    && x.createdAt.Present? && x.updatedAt.Present?
  }

  /** Validating a `MarketList`: every field is required, the identifiers are
      CUIDs and the contribution policy is one of the four literals. */
  function ValidateMarketList(x: MarketListInput): (r: Result<MarketList>)
    ensures r.Ok? <==> MarketListAccepted(x)
    ensures r.Ok? ==> ContributionPolicyName(r.value.contributionPolicy) == x.contributionPolicy.value
    ensures r.Ok? ==> r.value.id == x.id.value && r.value.ownerId == x.ownerId.value && r.value.tags == x.tags.value
    ensures r.Ok? ==> r.value.title == x.title.value && r.value.slug == x.slug.value
                      && r.value.description == x.description.value
                      && r.value.contributionReview == x.contributionReview.value
    ensures r.Ok? ==> r.value.createdAt == x.createdAt.value && r.value.updatedAt == x.updatedAt.value
    ensures x.contributionPolicy.Present? && x.contributionPolicy.value !in ContributionPolicyLiterals ==>
              r.Err? && Issue([Key("contributionPolicy")], NotAllowed) in r.issues
  {
    var id := RequiredCuid("id", x.id);
    var title := Required("title", x.title);
    var slug := Required("slug", x.slug);
    var description := Required("description", x.description);
    var ownerId := RequiredCuid("ownerId", x.ownerId);
    var contributionPolicy := RequiredChoice("contributionPolicy", x.contributionPolicy, ParseContributionPolicy);
    var contributionReview := Required("contributionReview", x.contributionReview);
    var tags := Required("tags", x.tags);
    var createdAt := Required("createdAt", x.createdAt);
    var updatedAt := Required("updatedAt", x.updatedAt);
    if && id.Ok? && title.Ok? && slug.Ok? && description.Ok? && ownerId.Ok? && contributionPolicy.Ok?
       && contributionReview.Ok? && tags.Ok? && createdAt.Ok? && updatedAt.Ok?
    then
      Ok(MarketList(id.value, title.value, slug.value, description.value, ownerId.value,
                    contributionPolicy.value, contributionReview.value, tags.value,
                    createdAt.value, updatedAt.value))
    else
      Err(Issues(id) + Issues(title) + Issues(slug) + Issues(description) + Issues(ownerId)
          + Issues(contributionPolicy) + Issues(contributionReview) + Issues(tags)
          + Issues(createdAt) + Issues(updatedAt))
  }
}
