/** Leaderboard records. */
module LeaderboardSchema {
  import opened Validation
  import opened BaseTypes
  import opened Fields

  // ---------------------------------------------------------------------------
  // LeaderboardEntry
  // ---------------------------------------------------------------------------

  datatype LeaderboardEntryInput = LeaderboardEntryInput(
    userId: Input<string>,
    displayName: Input<string>,
    username: Input<string>,
    avatarUrl: Input<Option<string>>,
    total: Input<int>,
    rank: Input<int>)

  /** `total` is any integer; `rank` is not negative. */
  datatype LeaderboardEntry = LeaderboardEntry(
    userId: Cuid,
    displayName: string,
    username: string,
    avatarUrl: Option<string>,
    total: int,
    rank: nat)

  ghost predicate LeaderboardEntryAccepted(x: LeaderboardEntryInput) {
    && CuidGiven(x.userId) && x.displayName.Present? && x.username.Present?
    && x.avatarUrl.Present? && x.total.Present? && NatGiven(x.rank)
  }

  /** Validating a `LeaderboardEntry`: `avatar_url` must be supplied but may be
      `None`, `total` may be negative, and `rank` may not. */
  function ValidateLeaderboardEntry(x: LeaderboardEntryInput): (r: Result<LeaderboardEntry>)
    ensures r.Ok? <==> LeaderboardEntryAccepted(x)
    ensures r.Ok? ==> r.value == LeaderboardEntry(x.userId.value, x.displayName.value, x.username.value,
                                                  x.avatarUrl.value, x.total.value, x.rank.value)
    ensures x.rank.Present? && x.rank.value < 0 ==> r.Err? && Issue([Key("rank")], BelowMinimum) in r.issues
  {
    var userId := RequiredCuid("user_id", x.userId);
    var displayName := Required("display_name", x.displayName);
    var username := Required("username", x.username);
    var avatarUrl := Required("avatar_url", x.avatarUrl);
    var total := Required("total", x.total);
    var rank := RequiredNat("rank", x.rank);
    if userId.Ok? && displayName.Ok? && username.Ok? && avatarUrl.Ok? && total.Ok? && rank.Ok? then
      Ok(LeaderboardEntry(userId.value, displayName.value, username.value, avatarUrl.value,
                          total.value, rank.value))
    else
      Err(Issues(userId) + Issues(displayName) + Issues(username) + Issues(avatarUrl)
          + Issues(total) + Issues(rank))
  }

  /** A negative total with a `None` avatar is an ordinary entry. */
  lemma NegativeTotalAccepted(id: Cuid, total: int, rank: nat)
    requires total < 0
    ensures ValidateLeaderboardEntry(LeaderboardEntryInput(Present(id), Present("d"), Present("u"),
              Present(None), Present(total), Present(rank))).Ok?
  {
  }

  // ---------------------------------------------------------------------------
  // UserRanking and Leaderboard
  // ---------------------------------------------------------------------------

  datatype UserRankingInput = UserRankingInput(
    trader: Input<LeaderboardEntryInput>,
    creator: Input<LeaderboardEntryInput>,
    promoter: Input<LeaderboardEntryInput>,
    quester: Input<LeaderboardEntryInput>,
    referrer: Input<LeaderboardEntryInput>)

  datatype UserRanking = UserRanking(
    trader: LeaderboardEntry,
    creator: LeaderboardEntry,
    promoter: LeaderboardEntry,
    quester: LeaderboardEntry,
    referrer: LeaderboardEntry)

  /** A required nested entry was supplied and validates. */
  ghost predicate EntryGiven(v: Input<LeaderboardEntryInput>) {
    v.Present? && ValidateLeaderboardEntry(v.value).Ok?
  }

  /** Validating a `UserRanking`: all five entries are required, each kept as
      validated. */
  function ValidateUserRanking(x: UserRankingInput): (r: Result<UserRanking>)
    ensures r.Ok? <==> EntryGiven(x.trader) && EntryGiven(x.creator) && EntryGiven(x.promoter)
                       && EntryGiven(x.quester) && EntryGiven(x.referrer)
    ensures r.Ok? ==> && Ok(r.value.trader) == ValidateLeaderboardEntry(x.trader.value)
                      && Ok(r.value.creator) == ValidateLeaderboardEntry(x.creator.value)
                      && Ok(r.value.promoter) == ValidateLeaderboardEntry(x.promoter.value)
                      && Ok(r.value.quester) == ValidateLeaderboardEntry(x.quester.value)
                      && Ok(r.value.referrer) == ValidateLeaderboardEntry(x.referrer.value)
  {
    var trader := RequiredModel("trader", x.trader, ValidateLeaderboardEntry);
    var creator := RequiredModel("creator", x.creator, ValidateLeaderboardEntry);
    var promoter := RequiredModel("promoter", x.promoter, ValidateLeaderboardEntry);
    var quester := RequiredModel("quester", x.quester, ValidateLeaderboardEntry);
    var referrer := RequiredModel("referrer", x.referrer, ValidateLeaderboardEntry);
    if trader.Ok? && creator.Ok? && promoter.Ok? && quester.Ok? && referrer.Ok? then
      Ok(UserRanking(trader.value, creator.value, promoter.value, quester.value, referrer.value))
    else
      Err(Issues(trader) + Issues(creator) + Issues(promoter) + Issues(quester) + Issues(referrer))
  }

  datatype LeaderboardInput = LeaderboardInput(
    topTraders: Input<seq<LeaderboardEntryInput>>,
    topCreators: Input<seq<LeaderboardEntryInput>>,
    topPromoters: Input<seq<LeaderboardEntryInput>>,
    topQuesters: Input<seq<LeaderboardEntryInput>>,
    topReferrers: Input<seq<LeaderboardEntryInput>>,
    userRankings: Input<Option<UserRankingInput>>)

  datatype Leaderboard = Leaderboard(
    topTraders: seq<LeaderboardEntry>,
    topCreators: seq<LeaderboardEntry>,
    topPromoters: seq<LeaderboardEntry>,
    topQuesters: seq<LeaderboardEntry>,
    topReferrers: seq<LeaderboardEntry>,
    userRankings: Option<UserRanking>)

  /** A required list of entries was supplied and every entry validates. */
  ghost predicate EntriesGiven(v: Input<seq<LeaderboardEntryInput>>) {
    v.Present? && forall i :: 0 <= i < |v.value| ==> ValidateLeaderboardEntry(v.value[i]).Ok?
  }

  /** The validated entries of a list, in order. */
  ghost predicate EntriesFrom(xs: seq<LeaderboardEntryInput>, ys: seq<LeaderboardEntry>) {
    |ys| == |xs| && forall i :: 0 <= i < |xs| ==> ValidateLeaderboardEntry(xs[i]) == Ok(ys[i])
  }

  /** Validating a `Leaderboard`: each top-* list is required and validates iff
      all its entries do, and `user_rankings` defaults to `None`. */
  function ValidateLeaderboard(x: LeaderboardInput): (r: Result<Leaderboard>)
    ensures r.Ok? <==> && EntriesGiven(x.topTraders) && EntriesGiven(x.topCreators)
                       && EntriesGiven(x.topPromoters) && EntriesGiven(x.topQuesters)
                       && EntriesGiven(x.topReferrers)
                       && (OrNone(x.userRankings).None? || ValidateUserRanking(OrNone(x.userRankings).value).Ok?)
    ensures r.Ok? ==> && EntriesFrom(x.topTraders.value, r.value.topTraders)
                      && EntriesFrom(x.topCreators.value, r.value.topCreators)
                      && EntriesFrom(x.topPromoters.value, r.value.topPromoters)
                      && EntriesFrom(x.topQuesters.value, r.value.topQuesters)
                      && EntriesFrom(x.topReferrers.value, r.value.topReferrers)
    ensures r.Ok? ==> (r.value.userRankings.None? <==> OrNone(x.userRankings).None?)
    ensures r.Ok? && r.value.userRankings.Some? ==>
              ValidateUserRanking(OrNone(x.userRankings).value) == Ok(r.value.userRankings.value)
  {
    var topTraders := RequiredList("top_traders", x.topTraders, ValidateLeaderboardEntry);
    var topCreators := RequiredList("top_creators", x.topCreators, ValidateLeaderboardEntry);
    var topPromoters := RequiredList("top_promoters", x.topPromoters, ValidateLeaderboardEntry);
    var topQuesters := RequiredList("top_questers", x.topQuesters, ValidateLeaderboardEntry);
    var topReferrers := RequiredList("top_referrers", x.topReferrers, ValidateLeaderboardEntry);
    var userRankings := OptionalModel("user_rankings", x.userRankings, ValidateUserRanking);
    if && topTraders.Ok? && topCreators.Ok? && topPromoters.Ok? && topQuesters.Ok?
       && topReferrers.Ok? && userRankings.Ok?
    then
      Ok(Leaderboard(topTraders.value, topCreators.value, topPromoters.value, topQuesters.value,
                     topReferrers.value, userRankings.value))
    else
      Err(Issues(topTraders) + Issues(topCreators) + Issues(topPromoters) + Issues(topQuesters)
          + Issues(topReferrers) + Issues(userRankings))
  }

  /** Each entry of `xs` was given a non-negative rank, which its validated
      counterpart in `ys` holds. */
  ghost predicate RanksKept(xs: seq<LeaderboardEntryInput>, ys: seq<LeaderboardEntry>) {
    && |ys| == |xs|
    && forall i :: 0 <= i < |xs| ==> xs[i].rank.Present? && xs[i].rank.value >= 0 && ys[i].rank == xs[i].rank.value
  }

  /** Entry-wise validation keeps every rank, and every rank it keeps is
      non-negative. */
  lemma EntriesKeepRanks(xs: seq<LeaderboardEntryInput>, ys: seq<LeaderboardEntry>)
    requires EntriesFrom(xs, ys)
    ensures RanksKept(xs, ys)
  {
    forall i | 0 <= i < |xs|
      ensures xs[i].rank.Present? && xs[i].rank.value >= 0 && ys[i].rank == xs[i].rank.value
    {
      assert ValidateLeaderboardEntry(xs[i]) == Ok(ys[i]);
    }
  }

  /** Every rank on each of an accepted leaderboard's five lists was supplied,
      is a non-negative integer and is kept, while a total may be anything. */
  lemma LeaderboardRanksNonNegative(x: LeaderboardInput)
    requires ValidateLeaderboard(x).Ok?
    ensures var l := ValidateLeaderboard(x).value;
            && RanksKept(x.topTraders.value, l.topTraders)
            && RanksKept(x.topCreators.value, l.topCreators)
            && RanksKept(x.topPromoters.value, l.topPromoters)
            && RanksKept(x.topQuesters.value, l.topQuesters)
            && RanksKept(x.topReferrers.value, l.topReferrers)
  {
    var l := ValidateLeaderboard(x).value;
    EntriesKeepRanks(x.topTraders.value, l.topTraders);
    EntriesKeepRanks(x.topCreators.value, l.topCreators);
    EntriesKeepRanks(x.topPromoters.value, l.topPromoters);
    EntriesKeepRanks(x.topQuesters.value, l.topQuesters);
    EntriesKeepRanks(x.topReferrers.value, l.topReferrers);
  }
}
