/** The earlier single-file version of the schemas. Identifiers there are plain
    strings rather than CUIDs, several fields have other defaults, and two
    model validators differ: a full market must carry a resolution once
    resolved, and a graph tick has no date check. */
module DraftSchemas {
  import opened Validation
  import opened Fields
  import UserSchema
  import MarketSchema
  import CommentSchema

  // ---------------------------------------------------------------------------
  // Market and its URL
  // ---------------------------------------------------------------------------

  const UrlPrefix: string := "https://playmoney.dev/questions/"

  /** `Market.url`. */
  function MarketUrl(id: string, slug: string): (u: string)
    ensures |u| == |UrlPrefix| + |id| + 1 + |slug|
    ensures u[..|UrlPrefix|] == UrlPrefix
    ensures u[|UrlPrefix| + |id|] == '/'
  {
    UrlPrefix + id + "/" + slug
  }

  /** The position of the first `c` in `s`, if any. */
  function FirstIndexOf(s: string, c: char): (r: Option<nat>)
    ensures r.None? <==> c !in s
    ensures r.Some? ==> r.value < |s| && s[r.value] == c && c !in s[..r.value]
  {
    if s == [] then None
    else if s[0] == c then Some(0)
    else
      var rest := FirstIndexOf(s[1..], c);
      if rest.None? then (assert forall k :: 0 < k < |s| ==> s[k] == s[1..][k - 1]; None)
      else
        assert s[..rest.value + 1] == [s[0]] + s[1..][..rest.value];
        Some(rest.value + 1)
  }

  /** Recovers the id and slug from a market URL: the id runs up to the first
      `/` after the prefix. */
  function SplitMarketUrl(u: string): Option<(string, string)> {
    if |u| < |UrlPrefix| || u[..|UrlPrefix|] != UrlPrefix then None
    else
      var rest := u[|UrlPrefix|..];
      var k := FirstIndexOf(rest, '/');
      if k.None? then None else Some((rest[..k.value], rest[k.value + 1..]))
  }

  /** The first `c` after a prefix free of `c` is the one that ends the prefix. */
  lemma {:induction false} FirstIndexAfterFree(a: string, c: char, b: string)
    requires c !in a
    ensures FirstIndexOf(a + [c] + b, c) == Some(|a|)
  {
    if a != [] {
      assert (a + [c] + b)[1..] == a[1..] + [c] + b;
      assert c !in a[1..] by {
        forall ch | ch in a[1..] ensures ch in a { }
      }
      FirstIndexAfterFree(a[1..], c, b);
    }
  }

  /** A URL built from an id without `/` gives back that id and slug. */
  lemma MarketUrlRoundTrip(id: string, slug: string)
    requires '/' !in id
    ensures SplitMarketUrl(MarketUrl(id, slug)) == Some((id, slug))
  {
    var u := MarketUrl(id, slug);
    var rest := u[|UrlPrefix|..];
    assert rest == id + ['/'] + slug;
    FirstIndexAfterFree(id, '/', slug);
    assert rest[..|id|] == id;
    assert rest[|id| + 1..] == slug;
  }

  /** Whatever splits is the URL of what it splits into, with an id free of `/`. */
  lemma SplitMarketUrlSound(u: string)
    requires SplitMarketUrl(u).Some?
    ensures '/' !in SplitMarketUrl(u).value.0
    ensures MarketUrl(SplitMarketUrl(u).value.0, SplitMarketUrl(u).value.1) == u
  {
    var rest := u[|UrlPrefix|..];
    var k := FirstIndexOf(rest, '/').value;
    assert rest == rest[..k] + "/" + rest[k + 1..];
    assert u == u[..|UrlPrefix|] + rest;
  }

  /** With a `/` in the id two markets can share a URL. */
  lemma MarketUrlAmbiguousWithSlash()
    ensures MarketUrl("a/b", "c") == MarketUrl("a", "b/c")
  {
  }

  datatype MarketInput = MarketInput(
    id: Input<string>,
    question: Input<string>,
    description: Input<string>,
    slug: Input<string>,
    tags: Input<seq<string>>,
    createdAt: Input<Moment>,
    closeDate: Input<Moment>,
    resolvedAt: Input<Option<Moment>>,
    canceledAt: Input<Option<Moment>>,
    updatedAt: Input<Option<Moment>>,
    createdBy: Input<string>,
    ammAccountId: Input<string>,
    clearingAccountId: Input<string>,
    canceledById: Input<Option<string>>,
    commentCount: Input<int>,
    uniqueTradersCount: Input<int>,
    uniquePromotersCount: Input<int>,
    liquidityCount: Input<int>,
    parentListId: Input<Option<string>>)

  datatype Market = Market(
    id: string,
    question: string,
    description: string,
    slug: string,
    tags: seq<string>,
    createdAt: Moment,
    closeDate: Moment,
    resolvedAt: Option<Moment>,
    canceledAt: Option<Moment>,
    updatedAt: Option<Moment>,
    createdBy: string,
    ammAccountId: string,
    clearingAccountId: string,
    canceledById: Option<string>,
    commentCount: nat,
    uniqueTradersCount: nat,
    uniquePromotersCount: nat,
    liquidityCount: nat,
    parentListId: Option<string>)

  /** The field declarations of the draft `Market`; all four counts are
      required and non-negative. */
  ghost predicate MarketFieldsAccepted(x: MarketInput) {
    && x.id.Present? && x.question.Present? && x.description.Present? && x.slug.Present?
    && x.createdAt.Present? && x.closeDate.Present?
    && x.createdBy.Present? && x.ammAccountId.Present? && x.clearingAccountId.Present?
    && NatGiven(x.commentCount) && NatGiven(x.uniqueTradersCount)
    && NatGiven(x.uniquePromotersCount) && NatGiven(x.liquidityCount)
  }

  ghost predicate MarketFrom(x: MarketInput, m: Market)
    requires MarketFieldsAccepted(x)
  {
    && m.id == x.id.value && m.question == x.question.value && m.description == x.description.value
    && m.slug == x.slug.value && m.tags == Or(x.tags, [])
    && m.createdAt == x.createdAt.value && m.closeDate == x.closeDate.value
    && m.createdBy == x.createdBy.value && m.ammAccountId == x.ammAccountId.value
    && m.clearingAccountId == x.clearingAccountId.value
    && m.resolvedAt == OrNone(x.resolvedAt) && m.canceledAt == OrNone(x.canceledAt)
    && m.updatedAt == OrNone(x.updatedAt) && m.canceledById == OrNone(x.canceledById)
    && m.commentCount == x.commentCount.value && m.uniqueTradersCount == x.uniqueTradersCount.value
    && m.uniquePromotersCount == x.uniquePromotersCount.value && m.liquidityCount == x.liquidityCount.value
    && m.parentListId == OrNone(x.parentListId)
  }

  function MarketFields(x: MarketInput): (r: Result<Market>)
    ensures r.Ok? <==> MarketFieldsAccepted(x)
    ensures r.Ok? ==> MarketFrom(x, r.value)
  {
    var id := Required("id", x.id);
    var question := Required("question", x.question);
    var description := Required("description", x.description);
    var slug := Required("slug", x.slug);
    var createdAt := Required("createdAt", x.createdAt);
    var closeDate := Required("closeDate", x.closeDate);
    var createdBy := Required("createdBy", x.createdBy);
    var ammAccountId := Required("ammAccountId", x.ammAccountId);
    var clearingAccountId := Required("clearingAccountId", x.clearingAccountId);
    var commentCount := RequiredNat("commentCount", x.commentCount);
    var uniqueTradersCount := RequiredNat("uniqueTradersCount", x.uniqueTradersCount);
    var uniquePromotersCount := RequiredNat("uniquePromotersCount", x.uniquePromotersCount);
    var liquidityCount := RequiredNat("liquidityCount", x.liquidityCount);
    if && id.Ok? && question.Ok? && description.Ok? && slug.Ok? && createdAt.Ok? && closeDate.Ok?
       && createdBy.Ok? && ammAccountId.Ok? && clearingAccountId.Ok?
       && commentCount.Ok? && uniqueTradersCount.Ok? && uniquePromotersCount.Ok? && liquidityCount.Ok?
    then
      Ok(Market(id.value, question.value, description.value, slug.value, Or(x.tags, []),
                createdAt.value, closeDate.value,
                OrNone(x.resolvedAt), OrNone(x.canceledAt), OrNone(x.updatedAt),
                createdBy.value, ammAccountId.value, clearingAccountId.value, OrNone(x.canceledById),
                commentCount.value, uniqueTradersCount.value, uniquePromotersCount.value,
                liquidityCount.value, OrNone(x.parentListId)))
    else
      Err(Issues(id) + Issues(question) + Issues(description) + Issues(slug) + Issues(createdAt)
          + Issues(closeDate) + Issues(createdBy) + Issues(ammAccountId) + Issues(clearingAccountId)
          + Issues(commentCount) + Issues(uniqueTradersCount) + Issues(uniquePromotersCount)
          + Issues(liquidityCount))
  }

  /** `Market.validate_creation_date`. */
  function CheckCreationDate(m: Market): (r: Result<Market>)
    ensures r.Ok? <==> m.createdAt <= m.closeDate
    ensures r.Ok? ==> r.value == m
    ensures r.Err? ==> r == Fail(CreatedAfterClose)
  {
    NotAfter(m, m.createdAt, m.closeDate, CreatedAfterClose)
  }

  /** Validating a draft `Market`: accepted iff the fields are as declared and
      it is not created after it closes; its URL is then built from the
      validated id and slug. */
  function ValidateMarket(x: MarketInput): (r: Result<Market>)
    ensures r.Ok? <==> MarketFieldsAccepted(x) && x.createdAt.value <= x.closeDate.value
    ensures r.Ok? ==> MarketFrom(x, r.value) && r.value.createdAt <= r.value.closeDate
    ensures r.Ok? ==> MarketUrl(r.value.id, r.value.slug) == MarketUrl(x.id.value, x.slug.value)
    ensures MarketFieldsAccepted(x) && x.createdAt.value > x.closeDate.value ==> r == Fail(CreatedAfterClose)
  {
    var fields := MarketFields(x);
    if fields.Err? then fields else CheckCreationDate(fields.value)
  }

  // ---------------------------------------------------------------------------
  // LiteOption, MarketOption and MarketResolution
  // ---------------------------------------------------------------------------

  datatype LiteOptionInput = LiteOptionInput(id: Input<string>, probability: Input<int>)

  /** Here the probability is required. */
  datatype LiteOption = LiteOption(id: string, probability: Percent)

  /** Validating a draft `LiteOption`: the probability must be supplied and lie
      in 0..100 inclusive. */
  function ValidateLiteOption(x: LiteOptionInput): (r: Result<LiteOption>)
    ensures r.Ok? <==> x.id.Present? && x.probability.Present? && 0 <= x.probability.value <= 100
    ensures r.Ok? ==> r.value.id == x.id.value && r.value.probability == x.probability.value
    ensures x.id.Present? && x.probability.Absent? ==> r == Err([Issue([Key("probability")], Missing)])
  {
    var id := Required("id", x.id);
    var probability := RequiredPercent("probability", x.probability);
    if id.Ok? && probability.Ok? then Ok(LiteOption(id.value, probability.value))
    else Err(Issues(id) + Issues(probability))
  }

  datatype MarketOptionInput = MarketOptionInput(
    id: Input<string>,
    probability: Input<int>,
    name: Input<string>,
    marketId: Input<string>,
    color: Input<string>,
    liquidityProbability: Input<real>,
    createdAt: Input<Moment>,
    updatedAt: Input<Moment>)

  datatype MarketOption = MarketOption(
    id: string,
    probability: Percent,
    name: string,
    marketId: string,
    color: string,
    liquidityProbability: UnitReal,
    createdAt: Moment,
    updatedAt: Moment)

  ghost predicate MarketOptionAccepted(x: MarketOptionInput) {
    && x.id.Present? && x.probability.Present? && 0 <= x.probability.value <= 100
    && x.name.Present? && x.marketId.Present?
    && x.color.Present? && |x.color.value| == 7 && x.color.value[0] == '#'
    && x.liquidityProbability.Present? && 0.0 <= x.liquidityProbability.value <= 1.0
    && x.createdAt.Present? && x.updatedAt.Present?
  }

  /** Validating a draft `MarketOption`: the `LiteOption` rules, and the same colour
      check as the later schema. */
  function ValidateMarketOption(x: MarketOptionInput): (r: Result<MarketOption>)
    ensures r.Ok? <==> MarketOptionAccepted(x)
    ensures r.Ok? ==> ValidateLiteOption(LiteOptionInput(x.id, x.probability)) == Ok(LiteOption(r.value.id, r.value.probability))
    ensures r.Ok? ==> r.value.color == x.color.value && r.value.name == x.name.value
                      && r.value.marketId == x.marketId.value
                      && r.value.liquidityProbability == x.liquidityProbability.value
    ensures r.Ok? ==> r.value.createdAt == x.createdAt.value && r.value.updatedAt == x.updatedAt.value
    ensures x.color.Present? && MarketSchema.ValidateColor(x.color.value).Err? ==>
              r.Err? && Issue([Key("color")], BadColor) in r.issues
  {
    var id := Required("id", x.id);
    var probability := RequiredPercent("probability", x.probability);
    var name := Required("name", x.name);
    var marketId := Required("marketId", x.marketId);
    var color := RequiredModel("color", x.color, MarketSchema.ValidateColor);
    var liquidityProbability := RequiredUnitReal("liquidityProbability", x.liquidityProbability);
    var createdAt := Required("createdAt", x.createdAt);
    var updatedAt := Required("updatedAt", x.updatedAt);
    if && id.Ok? && probability.Ok? && name.Ok? && marketId.Ok? && color.Ok?
       && liquidityProbability.Ok? && createdAt.Ok? && updatedAt.Ok?
    then
      Ok(MarketOption(id.value, probability.value, name.value, marketId.value, color.value,
                liquidityProbability.value, createdAt.value, updatedAt.value))
    else
      assert x.color.Present? && color.Err? ==> Issues(color) == [Issue([Key("color")], BadColor)] by {
        if x.color.Present? && color.Err? {
          assert Within(Key("color"), [Issue([], BadColor)])[0] == Issue([Key("color")], BadColor);
        }
      }
      Err(Issues(id) + Issues(probability) + Issues(name) + Issues(marketId) + Issues(color)
          + Issues(liquidityProbability) + Issues(createdAt) + Issues(updatedAt))
  }

  datatype MarketResolutionInput = MarketResolutionInput(
    id: Input<string>,
    marketId: Input<string>,
    resolvedById: Input<string>,
    resolutionId: Input<string>,
    supportingLink: Input<Option<string>>,
    createdAt: Input<Moment>,
    updatedAt: Input<Moment>,
    resolution: Input<MarketOptionInput>)

  datatype MarketResolution = MarketResolution(
    id: string,
    marketId: string,
    resolvedById: string,
    resolutionId: string,
    supportingLink: Option<string>,
    createdAt: Moment,
    updatedAt: Moment,
    resolution: MarketOption)

  ghost predicate MarketResolutionAccepted(x: MarketResolutionInput) {
    && x.id.Present? && x.marketId.Present? && x.resolvedById.Present? && x.resolutionId.Present?
    && x.createdAt.Present? && x.updatedAt.Present?
    && x.resolution.Present? && ValidateMarketOption(x.resolution.value).Ok?
  }

  /** Validating a draft `MarketResolution`: `supportingLink` is any string or
      `None`, by default `None`, and the resolving option validates. */
  function ValidateMarketResolution(x: MarketResolutionInput): (r: Result<MarketResolution>)
    ensures r.Ok? <==> MarketResolutionAccepted(x)
    ensures r.Ok? ==> r.value.supportingLink == OrNone(x.supportingLink)
    ensures r.Ok? ==> ValidateMarketOption(x.resolution.value) == Ok(r.value.resolution)
    ensures r.Ok? ==> r.value.id == x.id.value && r.value.marketId == x.marketId.value
                      && r.value.resolvedById == x.resolvedById.value && r.value.resolutionId == x.resolutionId.value
    ensures r.Ok? ==> r.value.createdAt == x.createdAt.value && r.value.updatedAt == x.updatedAt.value
  {
    var id := Required("id", x.id);
    var marketId := Required("marketId", x.marketId);
    var resolvedById := Required("resolvedById", x.resolvedById);
    var resolutionId := Required("resolutionId", x.resolutionId);
    var createdAt := Required("createdAt", x.createdAt);
    var updatedAt := Required("updatedAt", x.updatedAt);
    var resolution := RequiredModel("resolution", x.resolution, ValidateMarketOption);
    if && id.Ok? && marketId.Ok? && resolvedById.Ok? && resolutionId.Ok? && createdAt.Ok?
       && updatedAt.Ok? && resolution.Ok?
    then
      Ok(MarketResolution(id.value, marketId.value, resolvedById.value, resolutionId.value,
                          OrNone(x.supportingLink), createdAt.value, updatedAt.value, resolution.value))
    else
      Err(Issues(id) + Issues(marketId) + Issues(resolvedById) + Issues(resolutionId)
          + Issues(createdAt) + Issues(updatedAt) + Issues(resolution))
  }

  // ---------------------------------------------------------------------------
  // User and Account
  // ---------------------------------------------------------------------------

  /** The `HttpUrl | None` fields are taken as given strings. */
  datatype UserInput = UserInput(
    id: Input<string>,
    username: Input<string>,
    displayName: Input<string>,
    avatarUrl: Input<Option<string>>,
    twitterHandle: Input<Option<string>>,
    discordHandle: Input<Option<string>>,
    website: Input<Option<string>>,
    bio: Input<Option<string>>,
    timezone: Input<string>,
    primaryAccountId: Input<string>,
    role: Input<string>,
    referralCode: Input<Option<string>>,
    referredBy: Input<Option<string>>,
    createdAt: Input<Moment>,
    updatedAt: Input<Moment>)

  datatype User = User(
    id: string,
    username: string,
    displayName: string,
    avatarUrl: Option<string>,
    twitterHandle: Option<string>,
    discordHandle: Option<string>,
    website: Option<string>,
    bio: Option<string>,
    timezone: string,
    primaryAccountId: string,
    role: UserSchema.Role,
    referralCode: Option<string>,
    referredBy: Option<string>,
    createdAt: Moment,
    updatedAt: Moment)

  ghost predicate UserAccepted(x: UserInput) {
    && x.id.Present? && x.username.Present? && x.displayName.Present? && x.timezone.Present?
    && x.primaryAccountId.Present?
    && x.role.Present? && x.role.value in UserSchema.RoleLiterals
    && x.createdAt.Present? && x.updatedAt.Present?
  }

  /** Validating a draft `User`: the link, `bio`, `referralCode` and
      `referredBy` fields default to `None`, while `updatedAt` is required. */
  function ValidateUser(x: UserInput): (r: Result<User>)
    ensures r.Ok? <==> UserAccepted(x)
    ensures r.Ok? ==> UserSchema.RoleName(r.value.role) == x.role.value
    ensures r.Ok? ==> r.value.avatarUrl == OrNone(x.avatarUrl) && r.value.website == OrNone(x.website)
                      && r.value.twitterHandle == OrNone(x.twitterHandle)
                      && r.value.discordHandle == OrNone(x.discordHandle)
                      && r.value.bio == OrNone(x.bio) && r.value.referralCode == OrNone(x.referralCode)
                      && r.value.referredBy == OrNone(x.referredBy)
    ensures r.Ok? ==> r.value.id == x.id.value && r.value.updatedAt == x.updatedAt.value
    ensures r.Ok? ==> r.value.username == x.username.value && r.value.displayName == x.displayName.value
                      && r.value.timezone == x.timezone.value && r.value.primaryAccountId == x.primaryAccountId.value
                      && r.value.createdAt == x.createdAt.value
    ensures x.updatedAt.Absent? ==> r.Err? && Issue([Key("updatedAt")], Missing) in r.issues
  {
    var id := Required("id", x.id);
    var username := Required("username", x.username);
    var displayName := Required("displayName", x.displayName);
    var timezone := Required("timezone", x.timezone);
    var primaryAccountId := Required("primaryAccountId", x.primaryAccountId);
    var role := RequiredChoice("role", x.role, UserSchema.ParseRole);
    var createdAt := Required("createdAt", x.createdAt);
    var updatedAt := Required("updatedAt", x.updatedAt);
    if && id.Ok? && username.Ok? && displayName.Ok? && timezone.Ok? && primaryAccountId.Ok?
       && role.Ok? && createdAt.Ok? && updatedAt.Ok?
    then
      Ok(User(id.value, username.value, displayName.value, OrNone(x.avatarUrl), OrNone(x.twitterHandle),
              OrNone(x.discordHandle), OrNone(x.website), OrNone(x.bio), timezone.value,
              primaryAccountId.value, role.value, OrNone(x.referralCode), OrNone(x.referredBy),
              createdAt.value, updatedAt.value))
    else
      Err(Issues(id) + Issues(username) + Issues(displayName) + Issues(timezone)
          + Issues(primaryAccountId) + Issues(role) + Issues(createdAt) + Issues(updatedAt))
  }

  /** A one-value `Literal[lit]`: only `lit` itself is recognised. */
  function ParseLiteral(lit: string, s: string): (r: Option<string>)
    ensures r.Some? <==> s == lit
    ensures r.Some? ==> r.value == s
  {
    if s == lit then Some(s) else None
  }

  datatype AccountInput = AccountInput(
    id: Input<string>,
    accountType: Input<string>,
    internalType: Input<Option<string>>,
    userId: Input<string>,
    createdAt: Input<Moment>,
    updatedAt: Input<Moment>,
    user: Input<UserInput>)

  datatype Account = Account(
    id: string,
    accountType: string,
    internalType: Option<string>,
    userId: string,
    createdAt: Moment,
    updatedAt: Moment,
    user: User)

  ghost predicate AccountAccepted(x: AccountInput) {
    && x.id.Present? && x.accountType.Present? && x.accountType.value == "USER"
    && x.userId.Present? && x.createdAt.Present? && x.updatedAt.Present?
    && x.user.Present? && ValidateUser(x.user.value).Ok?
  }

  /** Validating a draft `Account`: only user accounts are accepted, and the
      embedded user must validate. */
  function ValidateAccount(x: AccountInput): (r: Result<Account>)
    ensures r.Ok? <==> AccountAccepted(x)
    ensures r.Ok? ==> r.value.accountType == "USER" && r.value.internalType == OrNone(x.internalType)
    ensures r.Ok? ==> ValidateUser(x.user.value) == Ok(r.value.user)
    ensures r.Ok? ==> r.value.id == x.id.value && r.value.userId == x.userId.value
                      && r.value.createdAt == x.createdAt.value && r.value.updatedAt == x.updatedAt.value
  {
    var id := Required("id", x.id);
    var accountType := RequiredChoice("type", x.accountType, s => ParseLiteral("USER", s));
    var userId := Required("userId", x.userId);
    var createdAt := Required("createdAt", x.createdAt);
    var updatedAt := Required("updatedAt", x.updatedAt);
    var user := RequiredModel("user", x.user, ValidateUser);
    if id.Ok? && accountType.Ok? && userId.Ok? && createdAt.Ok? && updatedAt.Ok? && user.Ok? then
      Ok(Account(id.value, accountType.value, OrNone(x.internalType), userId.value,
                 createdAt.value, updatedAt.value, user.value))
    else
      Err(Issues(id) + Issues(accountType) + Issues(userId) + Issues(createdAt) + Issues(updatedAt)
          + Issues(user))
  }

  // ---------------------------------------------------------------------------
  // FullMarket
  // ---------------------------------------------------------------------------

  datatype FullMarketInput = FullMarketInput(
    base: MarketInput,
    user: Input<UserInput>,
    options: Input<seq<MarketOptionInput>>,
    marketResolution: Input<Option<MarketResolutionInput>>,
    resolvedBy: Input<Option<UserInput>>,
    parentList: Input<Option<string>>)

  datatype FullMarket = FullMarket(
    base: Market,
    user: User,
    options: seq<MarketOption>,
    marketResolution: Option<MarketResolution>,
    resolvedBy: Option<User>,
    parentList: Option<string>)

  ghost predicate FullMarketFieldsAccepted(x: FullMarketInput) {
    && MarketFieldsAccepted(x.base)
    && x.user.Present? && ValidateUser(x.user.value).Ok?
    && (forall i :: 0 <= i < |Or(x.options, [])| ==> ValidateMarketOption(Or(x.options, [])[i]).Ok?)
    && (OrNone(x.marketResolution).None? || ValidateMarketResolution(OrNone(x.marketResolution).value).Ok?)
    && (OrNone(x.resolvedBy).None? || ValidateUser(OrNone(x.resolvedBy).value).Ok?)
  }

  /** A resolved market carries its resolution. */
  predicate ResolutionPresent(m: FullMarket) {
    m.base.resolvedAt.Some? ==> m.marketResolution.Some?
  }

  /** `FullMarket.validate_resolution`. */
  function CheckResolution(m: FullMarket): (r: Result<FullMarket>)
    ensures r.Ok? <==> ResolutionPresent(m)
    ensures r.Ok? ==> r.value == m
    ensures r.Err? ==> r == Fail(ResolvedWithoutResolution)
  {
    if m.marketResolution.None? && m.base.resolvedAt.Some? then Fail(ResolvedWithoutResolution) else Ok(m)
  }

  /** Validating a draft `FullMarket`: after the fields, the inherited creation
      date check runs, then the resolution check; a market that is resolved
      (`resolvedAt` given) without a `marketResolution` is rejected. */
  function ValidateFullMarket(x: FullMarketInput): (r: Result<FullMarket>)
    ensures r.Ok? <==> && FullMarketFieldsAccepted(x)
                       && x.base.createdAt.value <= x.base.closeDate.value
                       && (OrNone(x.base.resolvedAt).Some? ==> OrNone(x.marketResolution).Some?)
    ensures r.Ok? ==> ValidateMarket(x.base) == Ok(r.value.base) && ResolutionPresent(r.value)
    ensures r.Ok? ==> |r.value.options| == |Or(x.options, [])|
    ensures r.Ok? ==> forall i :: 0 <= i < |r.value.options| ==>
              ValidateMarketOption(Or(x.options, [])[i]) == Ok(r.value.options[i])
    ensures r.Ok? ==> ValidateUser(x.user.value) == Ok(r.value.user)
    ensures r.Ok? ==> (r.value.marketResolution.Some? <==> OrNone(x.marketResolution).Some?)
    ensures r.Ok? && r.value.marketResolution.Some? ==>
              ValidateMarketResolution(OrNone(x.marketResolution).value) == Ok(r.value.marketResolution.value)
    ensures r.Ok? ==> (r.value.resolvedBy.Some? <==> OrNone(x.resolvedBy).Some?)
    ensures r.Ok? && r.value.resolvedBy.Some? ==> ValidateUser(OrNone(x.resolvedBy).value) == Ok(r.value.resolvedBy.value)
    ensures r.Ok? ==> r.value.parentList == OrNone(x.parentList)
    ensures FullMarketFieldsAccepted(x) && x.base.createdAt.value > x.base.closeDate.value ==>
              r == Fail(CreatedAfterClose)
    ensures && FullMarketFieldsAccepted(x) && x.base.createdAt.value <= x.base.closeDate.value
            && OrNone(x.base.resolvedAt).Some? && OrNone(x.marketResolution).None? ==>
              r == Fail(ResolvedWithoutResolution)
  {
    var base := MarketFields(x.base);
    var user := RequiredModel("user", x.user, ValidateUser);
    var options := ListOrEmpty("options", x.options, ValidateMarketOption);
    var marketResolution := OptionalModel("marketResolution", x.marketResolution, ValidateMarketResolution);
    var resolvedBy := OptionalModel("resolvedBy", x.resolvedBy, ValidateUser);
    if base.Ok? && user.Ok? && options.Ok? && marketResolution.Ok? && resolvedBy.Ok? then
      var created := CheckCreationDate(base.value);
      if created.Err? then Err(created.issues)
      else
        CheckResolution(FullMarket(base.value, user.value, options.value, marketResolution.value,
                                   resolvedBy.value, OrNone(x.parentList)))
    else
      Err(Issues(base) + Issues(user) + Issues(options) + Issues(marketResolution) + Issues(resolvedBy))
  }

  /** An unresolved market is accepted whether or not a resolution is attached. */
  lemma UnresolvedNeedsNoResolution(x: FullMarketInput)
    requires FullMarketFieldsAccepted(x) && x.base.createdAt.value <= x.base.closeDate.value
    requires OrNone(x.base.resolvedAt).None?
    ensures ValidateFullMarket(x).Ok?
    ensures ValidateFullMarket(x.(marketResolution := Absent)).Ok?
  {
    assert FullMarketFieldsAccepted(x.(marketResolution := Absent));
  }

  // ---------------------------------------------------------------------------
  // Reaction and Comment
  // ---------------------------------------------------------------------------

  datatype ReactionInput = ReactionInput(
    id: Input<string>,
    emoji: Input<string>,
    commentId: Input<string>,
    user: Input<UserInput>)

  /** As in the later schema, the draft's emoji validator has no `return`,
      so a validated reaction stores `None` as its emoji. */
  datatype Reaction = Reaction(id: string, emoji: Option<string>, commentId: string, user: User)

  ghost predicate ReactionAccepted(x: ReactionInput) {
    && x.id.Present? && x.emoji.Present? && CommentSchema.EmojiShaped(x.emoji.value)
    && x.commentId.Present? && x.user.Present? && ValidateUser(x.user.value).Ok?
  }

  /** Validating a draft `Reaction`: the emoji's shape is checked, and the
      accepted emoji is stored as `None`. */
  function ValidateReaction(x: ReactionInput): (r: Result<Reaction>)
    ensures r.Ok? <==> ReactionAccepted(x)
    ensures r.Ok? ==> r.value.emoji == None
    ensures r.Ok? ==> r.value.id == x.id.value && r.value.commentId == x.commentId.value
    ensures r.Ok? ==> ValidateUser(x.user.value) == Ok(r.value.user)
  {
    var id := Required("id", x.id);
    var emoji := RequiredModel("emoji", x.emoji, CommentSchema.ValidateEmojiAsWritten);
    var commentId := Required("commentId", x.commentId);
    var user := RequiredModel("user", x.user, ValidateUser);
    if id.Ok? && emoji.Ok? && commentId.Ok? && user.Ok? then
      Ok(Reaction(id.value, emoji.value, commentId.value, user.value))
    else
      Err(Issues(id) + Issues(emoji) + Issues(commentId) + Issues(user))
  }


  datatype CommentInput = CommentInput(
    id: Input<string>,
    content: Input<string>,
    createdAt: Input<Moment>,
    updatedAt: Input<Moment>,
    edited: Input<bool>,
    authorId: Input<string>,
    parentId: Input<Option<string>>,
    hidden: Input<bool>,
    entityId: Input<string>,
    entityType: Input<string>,
    author: Input<UserInput>,
    reactions: Input<seq<ReactionInput>>)

  datatype Comment = Comment(
    id: string,
    content: string,
    createdAt: Moment,
    updatedAt: Moment,
    edited: bool,
    authorId: string,
    parentId: Option<string>,
    hidden: bool,
    entityId: string,
    entityType: string,
    author: User,
    reactions: seq<Reaction>)

  ghost predicate CommentAccepted(x: CommentInput) {
    && x.id.Present? && x.content.Present? && x.createdAt.Present? && x.updatedAt.Present?
    && x.edited.Present? && x.authorId.Present? && x.hidden.Present? && x.entityId.Present?
    && x.entityType.Present? && x.entityType.value == "MARKET"
    && x.author.Present? && ValidateUser(x.author.value).Ok?
    && forall i :: 0 <= i < |Or(x.reactions, [])| ==> ValidateReaction(Or(x.reactions, [])[i]).Ok?
  }

  /** Validating a draft `Comment`: only `MARKET` entities, `parentId`
      defaulting to `None` and reactions to `[]`, each reaction validated. */
  function ValidateComment(x: CommentInput): (r: Result<Comment>)
    ensures r.Ok? <==> CommentAccepted(x)
    ensures r.Ok? ==> r.value.entityType == "MARKET" && r.value.parentId == OrNone(x.parentId)
    ensures r.Ok? ==> |r.value.reactions| == |Or(x.reactions, [])|
    ensures r.Ok? ==> forall i :: 0 <= i < |r.value.reactions| ==>
              ValidateReaction(Or(x.reactions, [])[i]) == Ok(r.value.reactions[i])
    ensures r.Ok? ==> forall i :: 0 <= i < |r.value.reactions| ==> r.value.reactions[i].emoji == None
    ensures r.Ok? ==> r.value.id == x.id.value && r.value.content == x.content.value
                      && r.value.authorId == x.authorId.value && r.value.entityId == x.entityId.value
    ensures r.Ok? ==> r.value.createdAt == x.createdAt.value && r.value.updatedAt == x.updatedAt.value
                      && r.value.edited == x.edited.value && r.value.hidden == x.hidden.value
    ensures r.Ok? ==> ValidateUser(x.author.value) == Ok(r.value.author)
  {
    var id := Required("id", x.id);
    var content := Required("content", x.content);
    var createdAt := Required("createdAt", x.createdAt);
    var updatedAt := Required("updatedAt", x.updatedAt);
    var edited := Required("edited", x.edited);
    var authorId := Required("authorId", x.authorId);
    var hidden := Required("hidden", x.hidden);
    var entityId := Required("entityId", x.entityId);
    var entityType := RequiredChoice("entityType", x.entityType, s => ParseLiteral("MARKET", s));  // only market comments exist in the draft
    var author := RequiredModel("author", x.author, ValidateUser);
    var reactions := ListOrEmpty("reactions", x.reactions, ValidateReaction);
    if && id.Ok? && content.Ok? && createdAt.Ok? && updatedAt.Ok? && edited.Ok? && authorId.Ok?
       && hidden.Ok? && entityId.Ok? && entityType.Ok? && author.Ok? && reactions.Ok?
    then
      Ok(Comment(id.value, content.value, createdAt.value, updatedAt.value, edited.value,
                 authorId.value, OrNone(x.parentId), hidden.value, entityId.value, entityType.value,
                 author.value, reactions.value))
    else
      Err(Issues(id) + Issues(content) + Issues(createdAt) + Issues(updatedAt) + Issues(edited)
          + Issues(authorId) + Issues(hidden) + Issues(entityId) + Issues(entityType)
          + Issues(author) + Issues(reactions))
  }

  // ---------------------------------------------------------------------------
  // GraphTick and Position
  // ---------------------------------------------------------------------------

  datatype GraphTickInput = GraphTickInput(
    startAt: Input<Moment>,
    endAt: Input<Moment>,
    options: Input<seq<LiteOptionInput>>)

  datatype GraphTick = GraphTick(startAt: Moment, endAt: Moment, options: seq<LiteOption>)

  /** Validating a draft `GraphTick`: the options validate one by one; there is
      no check on the order of the two instants. */
  function ValidateGraphTick(x: GraphTickInput): (r: Result<GraphTick>)
    ensures r.Ok? <==> && x.startAt.Present? && x.endAt.Present? && x.options.Present?
                       && forall i :: 0 <= i < |x.options.value| ==> ValidateLiteOption(x.options.value[i]).Ok?
    ensures r.Ok? ==> r.value.startAt == x.startAt.value && r.value.endAt == x.endAt.value
    ensures r.Ok? ==> |r.value.options| == |x.options.value|
    ensures r.Ok? ==> forall i :: 0 <= i < |r.value.options| ==>
              ValidateLiteOption(x.options.value[i]) == Ok(r.value.options[i])
  {
    var startAt := Required("startAt", x.startAt);
    var endAt := Required("endAt", x.endAt);
    var options := RequiredList("options", x.options, ValidateLiteOption);
    if startAt.Ok? && endAt.Ok? && options.Ok? then Ok(GraphTick(startAt.value, endAt.value, options.value))
    else Err(Issues(startAt) + Issues(endAt) + Issues(options))
  }

  /** A draft tick may end before it starts. */
  lemma TickMayEndBeforeStart(s: Moment, e: Moment)
    requires s > e
    ensures ValidateGraphTick(GraphTickInput(Present(s), Present(e), Present([]))) == Ok(GraphTick(s, e, []))
  {
  }

  datatype PositionInput = PositionInput(
    id: Input<string>,
    accountId: Input<string>,
    marketId: Input<string>,
    optionId: Input<string>,
    cost: Input<real>,
    quantity: Input<real>,
    value: Input<real>,
    createdAt: Input<Moment>,
    updatedAt: Input<Moment>,
    account: Input<AccountInput>,
    market: Input<MarketInput>,
    option: Input<MarketOptionInput>)

  datatype Position = Position(
    id: string,
    accountId: string,
    marketId: string,
    optionId: string,
    cost: real,
    quantity: real,
    value: NonNegReal,
    createdAt: Moment,
    updatedAt: Moment,
    account: Account,
    market: Market,
    option: MarketOption)

  ghost predicate PositionFieldsAccepted(x: PositionInput) {
    && x.id.Present? && x.accountId.Present? && x.marketId.Present? && x.optionId.Present?
    && x.cost.Present? && x.quantity.Present? && x.value.Present? && x.value.value >= 0.0
    && x.createdAt.Present? && x.updatedAt.Present?
    && x.account.Present? && ValidateAccount(x.account.value).Ok?
    && x.market.Present? && ValidateMarket(x.market.value).Ok?
    && x.option.Present? && ValidateMarketOption(x.option.value).Ok?
  }

  /** Validating a draft `Position`: the nested account, market and option
      validate, `value` is not negative, and the position is rejected iff it
      was created after its last update. */
  function ValidatePosition(x: PositionInput): (r: Result<Position>)
    ensures r.Ok? <==> PositionFieldsAccepted(x) && x.createdAt.value <= x.updatedAt.value
    ensures r.Ok? ==> r.value.createdAt <= r.value.updatedAt && r.value.value == x.value.value
    ensures r.Ok? ==> ValidateMarket(x.market.value) == Ok(r.value.market)
                      && ValidateMarketOption(x.option.value) == Ok(r.value.option)
                      && ValidateAccount(x.account.value) == Ok(r.value.account)
    ensures r.Ok? ==> r.value.id == x.id.value && r.value.accountId == x.accountId.value
                      && r.value.marketId == x.marketId.value && r.value.optionId == x.optionId.value
    ensures r.Ok? ==> r.value.cost == x.cost.value && r.value.quantity == x.quantity.value
                      && r.value.createdAt == x.createdAt.value && r.value.updatedAt == x.updatedAt.value
    ensures PositionFieldsAccepted(x) && x.createdAt.value > x.updatedAt.value ==> r == Fail(CreatedAfterUpdate)
  {
    var id := Required("id", x.id);
    var accountId := Required("accountId", x.accountId);
    var marketId := Required("marketId", x.marketId);
    var optionId := Required("optionId", x.optionId);
    var cost := Required("cost", x.cost);
    var quantity := Required("quantity", x.quantity);
    var value := RequiredNonNegReal("value", x.value);
    var createdAt := Required("createdAt", x.createdAt);
    var updatedAt := Required("updatedAt", x.updatedAt);
    var account := RequiredModel("account", x.account, ValidateAccount);
    var market := RequiredModel("market", x.market, ValidateMarket);
    var option := RequiredModel("option", x.option, ValidateMarketOption);
    if && id.Ok? && accountId.Ok? && marketId.Ok? && optionId.Ok? && cost.Ok? && quantity.Ok?
       && value.Ok? && createdAt.Ok? && updatedAt.Ok? && account.Ok? && market.Ok? && option.Ok?
    then
      NotAfter(Position(id.value, accountId.value, marketId.value, optionId.value, cost.value,
                        quantity.value, value.value, createdAt.value, updatedAt.value,
                        account.value, market.value, option.value),
               createdAt.value, updatedAt.value, CreatedAfterUpdate)
    else
      Err(Issues(id) + Issues(accountId) + Issues(marketId) + Issues(optionId) + Issues(cost)
          + Issues(quantity) + Issues(value) + Issues(createdAt) + Issues(updatedAt)
          + Issues(account) + Issues(market) + Issues(option))
  }
}
