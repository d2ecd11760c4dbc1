/** User profiles and accounts (the `User` and `Account` schemas). */
module UserSchema {
  import opened Validation
  import opened BaseTypes
  import opened Fields

  // ---------------------------------------------------------------------------
  // Enumerations
  // ---------------------------------------------------------------------------

  /** `UserRoleType`. */
  datatype Role = UserRole | AdminRole

  const RoleLiterals: seq<string> := ["USER", "ADMIN"]

  function RoleName(role: Role): (s: string)
    ensures s in RoleLiterals
  {
    match role
    case UserRole => "USER"
    case AdminRole => "ADMIN"
  }

  /** A role is accepted exactly when the string is one of the literals. */
  function ParseRole(s: string): (r: Option<Role>)
    ensures r.Some? <==> s in RoleLiterals
    ensures r.Some? ==> RoleName(r.value) == s
  {
    if s == "USER" then Some(UserRole)
    else if s == "ADMIN" then Some(AdminRole)
    else None
  }

  /** Every role is recognised from its own literal. */
  lemma RoleRoundTrip(role: Role)
    ensures ParseRole(RoleName(role)) == Some(role)
  {
  }

  /** `AccountType`. */
  datatype AccountType = UserAccount | MarketAmm | MarketClearing | House

  const AccountTypeLiterals: seq<string> := ["USER", "MARKET_AMM", "MARKET_CLEARING", "HOUSE"]

  function AccountTypeName(t: AccountType): (s: string)
    ensures s in AccountTypeLiterals
  {
    match t
    case UserAccount => "USER"
    case MarketAmm => "MARKET_AMM"
    case MarketClearing => "MARKET_CLEARING"
    case House => "HOUSE"
  }

  function ParseAccountType(s: string): (r: Option<AccountType>)
    ensures r.Some? <==> s in AccountTypeLiterals
    ensures r.Some? ==> AccountTypeName(r.value) == s
  {
    if s == "USER" then Some(UserAccount)
    else if s == "MARKET_AMM" then Some(MarketAmm)
    else if s == "MARKET_CLEARING" then Some(MarketClearing)
    else if s == "HOUSE" then Some(House)
    else None
  }

  /** Every account type is recognised from its own literal. */
  lemma AccountTypeRoundTrip(t: AccountType)
    ensures ParseAccountType(AccountTypeName(t)) == Some(t)
  {
  }

  // ---------------------------------------------------------------------------
  // User
  // ---------------------------------------------------------------------------

  /** The fields of a `User` as supplied. The `str | None` fields have no
      default, so they must be supplied, possibly as `None`. */
  datatype UserInput = UserInput(
    role: Input<string>,
    id: Input<string>,
    username: Input<string>,
    displayName: Input<string>,
    avatarUrl: Input<Option<string>>,
    twitterHandle: Input<Option<string>>,
    discordHandle: Input<Option<string>>,
    website: Input<Option<string>>,
    bio: Input<Option<string>>,
    timezone: Input<string>,
    primaryAccountId: Input<string>,
    referralCode: Input<Option<string>>,
    referredBy: Input<Option<string>>,
    createdAt: Input<Moment>,
    updatedAt: Input<Option<Moment>>)

  datatype User = User(
    role: Role,
    id: Cuid,
    username: string,
    displayName: string,
    avatarUrl: Option<string>,
    twitterHandle: Option<string>,
    discordHandle: Option<string>,
    website: Option<string>,
    bio: Option<string>,
    timezone: string,
    primaryAccountId: Cuid,
    referralCode: Option<string>,
    referredBy: Option<Cuid>,
    createdAt: Moment,
    updatedAt: Option<Moment>)

  /** The declared constraints of `User`. */
  ghost predicate UserAccepted(x: UserInput) {
    && x.role.Present? && x.role.value in RoleLiterals
    && CuidGiven(x.id)
    && x.username.Present? && x.displayName.Present?
    && x.avatarUrl.Present? && x.twitterHandle.Present? && x.discordHandle.Present?
    && x.website.Present? && x.bio.Present?
    && x.timezone.Present?
    && CuidGiven(x.primaryAccountId)
    && x.referralCode.Present?
    && NullableCuidGiven(x.referredBy)
    && x.createdAt.Present?
  }

  /** Validating a `User`: accepted exactly under the declared constraints;
      identifiers, nullable fields and dates are kept as supplied and the one
      defaulted field, `updated_at`, is `None` unless supplied. */
  function ValidateUser(x: UserInput): (r: Result<User>)
    ensures r.Ok? <==> UserAccepted(x)
    ensures r.Ok? ==> RoleName(r.value.role) == x.role.value
    ensures r.Ok? ==> r.value.id == x.id.value && r.value.primaryAccountId == x.primaryAccountId.value
    ensures r.Ok? ==> r.value.referredBy == x.referredBy.value && r.value.referralCode == x.referralCode.value
    ensures r.Ok? ==> r.value.username == x.username.value && r.value.displayName == x.displayName.value
                      && r.value.timezone == x.timezone.value
    ensures r.Ok? ==> r.value.avatarUrl == x.avatarUrl.value && r.value.bio == x.bio.value
                      && r.value.twitterHandle == x.twitterHandle.value
                      && r.value.discordHandle == x.discordHandle.value && r.value.website == x.website.value
    ensures r.Ok? ==> r.value.createdAt == x.createdAt.value && r.value.updatedAt == OrNone(x.updatedAt)
    ensures x.createdAt.Absent? ==> r.Err? && Issue([Key("created_at")], Missing) in r.issues
  {
    var role := RequiredChoice("role", x.role, ParseRole);
    var id := RequiredCuid("id", x.id);
    var username := Required("username", x.username);
    var displayName := Required("display_name", x.displayName);
    var avatarUrl := Required("avatar_url", x.avatarUrl);
    var twitterHandle := Required("twitter_handle", x.twitterHandle);
    var discordHandle := Required("discord_handle", x.discordHandle);
    var website := Required("website", x.website);
    var bio := Required("bio", x.bio);
    var timezone := Required("timezone", x.timezone);
    var primaryAccountId := RequiredCuid("primary_account_id", x.primaryAccountId);
    var referralCode := Required("referral_code", x.referralCode);
    var referredBy := NullableCuid("referred_by", x.referredBy);
    var createdAt := Required("created_at", x.createdAt);
    if && role.Ok? && id.Ok? && username.Ok? && displayName.Ok? && avatarUrl.Ok?
       && twitterHandle.Ok? && discordHandle.Ok? && website.Ok? && bio.Ok? && timezone.Ok?
       && primaryAccountId.Ok? && referralCode.Ok? && referredBy.Ok? && createdAt.Ok?
    then
      Ok(User(role.value, id.value, username.value, displayName.value, avatarUrl.value,
              twitterHandle.value, discordHandle.value, website.value, bio.value, timezone.value,
              primaryAccountId.value, referralCode.value, referredBy.value, createdAt.value,
              OrNone(x.updatedAt)))
    else
      Err(Issues(role) + Issues(id) + Issues(username) + Issues(displayName) + Issues(avatarUrl)
          + Issues(twitterHandle) + Issues(discordHandle) + Issues(website) + Issues(bio)
          + Issues(timezone) + Issues(primaryAccountId) + Issues(referralCode)
          + Issues(referredBy) + Issues(createdAt))
  }

  // ---------------------------------------------------------------------------
  // Account
  // ---------------------------------------------------------------------------

  datatype AccountInput = AccountInput(
    accountType: Input<string>,
    id: Input<string>,
    internalType: Input<Option<string>>,
    userId: Input<Option<string>>,
    marketId: Input<Option<string>>,
    createdAt: Input<Moment>,
    updatedAt: Input<Option<Moment>>)

  datatype Account = Account(
    accountType: AccountType,
    id: Cuid,
    internalType: Option<string>,
    userId: Option<Cuid>,
    marketId: Option<Cuid>,
    createdAt: Moment,
    updatedAt: Option<Moment>)

  /** The declared constraints of `Account`. */
  ghost predicate AccountAccepted(x: AccountInput) {
    && x.accountType.Present? && x.accountType.value in AccountTypeLiterals
    && CuidGiven(x.id)
    && CuidIfGiven(x.userId)
    && CuidIfGiven(x.marketId)
    && x.createdAt.Present?
  }

  /** Validating an `Account`: accepted exactly under the declared constraints;
      `internal_type`, `user_id`, `market_id` and `updated_at` are `None`
      unless supplied. */
  function ValidateAccount(x: AccountInput): (r: Result<Account>)
    ensures r.Ok? <==> AccountAccepted(x)
    ensures r.Ok? ==> AccountTypeName(r.value.accountType) == x.accountType.value
    ensures r.Ok? ==> r.value.id == x.id.value && r.value.createdAt == x.createdAt.value
    ensures r.Ok? ==> r.value.internalType == OrNone(x.internalType) && r.value.userId == OrNone(x.userId)
    ensures r.Ok? ==> r.value.marketId == OrNone(x.marketId) && r.value.updatedAt == OrNone(x.updatedAt)
  {
    var accountType := RequiredChoice("type", x.accountType, ParseAccountType);
    var id := RequiredCuid("id", x.id);
    var userId := OptionalCuid("user_id", x.userId);
    var marketId := OptionalCuid("market_id", x.marketId);
    var createdAt := Required("created_at", x.createdAt);
    if accountType.Ok? && id.Ok? && userId.Ok? && marketId.Ok? && createdAt.Ok? then
      Ok(Account(accountType.value, id.value, OrNone(x.internalType), userId.value, marketId.value,
                 createdAt.value, OrNone(x.updatedAt)))
    else
      Err(Issues(accountType) + Issues(id) + Issues(userId) + Issues(marketId) + Issues(createdAt))
  }
}
