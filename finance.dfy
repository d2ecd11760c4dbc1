/** Positions, ledger entries and transactions. */
module FinanceSchema {
  import opened Validation
  import opened BaseTypes
  import opened Fields
  import opened UserSchema

  // ---------------------------------------------------------------------------
  // Enumerations
  // ---------------------------------------------------------------------------

  /** `AssetType`. */
  datatype AssetType = MarketOptionAsset | CurrencyAsset

  const AssetTypeLiterals: seq<string> := ["MARKET_OPTION", "CURRENCY"]

  function AssetTypeName(t: AssetType): (s: string)
    ensures s in AssetTypeLiterals
  {
    match t
    case MarketOptionAsset => "MARKET_OPTION"
    case CurrencyAsset => "CURRENCY"
  }

  function ParseAssetType(s: string): (r: Option<AssetType>)
    ensures r.Some? <==> s in AssetTypeLiterals
    ensures r.Some? ==> AssetTypeName(r.value) == s
  {
    if s == "MARKET_OPTION" then Some(MarketOptionAsset)
    else if s == "CURRENCY" then Some(CurrencyAsset)
    else None
  }

  /** `TransactionType`. */
  datatype TransactionType =
    | TradeBuy | TradeSell | TradeWin | CreatorTraderBonus
    | LiquidityInitialize | LiquidityDeposit | LiquidityWithdrawal | LiquidityReturned
    | LiquidityVolumeBonus
    | DailyTradeBonus | DailyMarketBonus | DailyCommentBonus | DailyLiquidityBonus
    | HouseGift | HouseSignupBonus | ReferrerBonus | ReferreeBonus

  /** The literals as listed, `TRADE_SELL` twice. */
  const TransactionTypeLiterals: seq<string> := [
    "TRADE_BUY", "TRADE_SELL", "TRADE_WIN", "TRADE_SELL", "CREATOR_TRADER_BONUS",
    "LIQUIDITY_INITIALIZE", "LIQUIDITY_DEPOSIT", "LIQUIDITY_WITHDRAWAL", "LIQUIDITY_RETURNED",
    "LIQUIDITY_VOLUME_BONUS", "DAILY_TRADE_BONUS", "DAILY_MARKET_BONUS", "DAILY_COMMENT_BONUS",
    "DAILY_LIQUIDITY_BONUS", "HOUSE_GIFT", "HOUSE_SIGNUP_BONUS", "REFERRER_BONUS", "REFERREE_BONUS"]

  function TransactionTypeName(t: TransactionType): (s: string)
    ensures s in TransactionTypeLiterals
  {
    match t
    case TradeBuy => "TRADE_BUY"
    case TradeSell => "TRADE_SELL"
    case TradeWin => "TRADE_WIN"
    case CreatorTraderBonus => "CREATOR_TRADER_BONUS"
    case LiquidityInitialize => "LIQUIDITY_INITIALIZE"
    case LiquidityDeposit => "LIQUIDITY_DEPOSIT"
    case LiquidityWithdrawal => "LIQUIDITY_WITHDRAWAL"
    case LiquidityReturned => "LIQUIDITY_RETURNED"
    case LiquidityVolumeBonus => "LIQUIDITY_VOLUME_BONUS"
    case DailyTradeBonus => "DAILY_TRADE_BONUS"
    case DailyMarketBonus => "DAILY_MARKET_BONUS"
    case DailyCommentBonus => "DAILY_COMMENT_BONUS"
    case DailyLiquidityBonus => "DAILY_LIQUIDITY_BONUS"
    case HouseGift => "HOUSE_GIFT"
    case HouseSignupBonus => "HOUSE_SIGNUP_BONUS"
    case ReferrerBonus => "REFERRER_BONUS"
    case ReferreeBonus => "REFERREE_BONUS"
  }

  function ParseTransactionType(s: string): (r: Option<TransactionType>)
    ensures r.Some? <==> s in TransactionTypeLiterals
    ensures r.Some? ==> TransactionTypeName(r.value) == s
  {
    match s
    case "TRADE_BUY" => Some(TradeBuy)
    case "TRADE_SELL" => Some(TradeSell)
    case "TRADE_WIN" => Some(TradeWin)
    case "CREATOR_TRADER_BONUS" => Some(CreatorTraderBonus)
    case "LIQUIDITY_INITIALIZE" => Some(LiquidityInitialize)
    case "LIQUIDITY_DEPOSIT" => Some(LiquidityDeposit)
    case "LIQUIDITY_WITHDRAWAL" => Some(LiquidityWithdrawal)
    case "LIQUIDITY_RETURNED" => Some(LiquidityReturned)
    case "LIQUIDITY_VOLUME_BONUS" => Some(LiquidityVolumeBonus)
    case "DAILY_TRADE_BONUS" => Some(DailyTradeBonus)
    case "DAILY_MARKET_BONUS" => Some(DailyMarketBonus)
    case "DAILY_COMMENT_BONUS" => Some(DailyCommentBonus)
    case "DAILY_LIQUIDITY_BONUS" => Some(DailyLiquidityBonus)
    case "HOUSE_GIFT" => Some(HouseGift)
    case "HOUSE_SIGNUP_BONUS" => Some(HouseSignupBonus)
    case "REFERRER_BONUS" => Some(ReferrerBonus)
    case "REFERREE_BONUS" => Some(ReferreeBonus)
    case _ => None
  }

  /** The repeated `TRADE_SELL` adds nothing: dropping the second occurrence
      leaves the accepted strings as they are. */
  lemma DuplicateTradeSellHarmless(s: string)
    ensures TransactionTypeLiterals[1] == TransactionTypeLiterals[3] == "TRADE_SELL"
    ensures s in TransactionTypeLiterals <==> s in TransactionTypeLiterals[..3] + TransactionTypeLiterals[4..]
  {
    var rest := TransactionTypeLiterals[..3] + TransactionTypeLiterals[4..];
    if s in TransactionTypeLiterals {
      var k :| 0 <= k < |TransactionTypeLiterals| && TransactionTypeLiterals[k] == s;
      if k < 3 {
        assert rest[k] == s;
      } else if k == 3 {
        assert rest[1] == s;
      } else {
        assert rest[k - 1] == s;
      }
    }
  }

  // ---------------------------------------------------------------------------
  // Position
  // ---------------------------------------------------------------------------

  datatype PositionInput = PositionInput(
    id: Input<string>,
    accountId: Input<string>,
    marketId: Input<string>,
    optionId: Input<string>,
    cost: Input<real>,
    quantity: Input<real>,
    value: Input<real>,
    createdAt: Input<Moment>,
    updatedAt: Input<Moment>)

  datatype Position = Position(
    id: Cuid,
    accountId: Cuid,
    marketId: Cuid,
    optionId: Cuid,
    cost: real,
    quantity: real,
    value: NonNegReal,
    createdAt: Moment,
    updatedAt: Moment)

  ghost predicate PositionFieldsAccepted(x: PositionInput) {
    && CuidGiven(x.id) && CuidGiven(x.accountId) && CuidGiven(x.marketId) && CuidGiven(x.optionId)
    && x.cost.Present? && x.quantity.Present?
    && x.value.Present? && x.value.value >= 0.0
    && x.createdAt.Present? && x.updatedAt.Present?
  }

  /** Validating a `Position`: `value` may not be negative while `cost` and
      `quantity` are unbounded, and once the fields validate the position is
      rejected iff it was created after its last update (equal instants are
      accepted). */
  function ValidatePosition(x: PositionInput): (r: Result<Position>)
    ensures r.Ok? <==> PositionFieldsAccepted(x) && x.createdAt.value <= x.updatedAt.value
    ensures r.Ok? ==> r.value.createdAt <= r.value.updatedAt
    ensures r.Ok? ==> r.value.cost == x.cost.value && r.value.quantity == x.quantity.value && r.value.value == x.value.value
    ensures r.Ok? ==> r.value.id == x.id.value && r.value.optionId == x.optionId.value
                      && r.value.accountId == x.accountId.value && r.value.marketId == x.marketId.value
    ensures r.Ok? ==> r.value.createdAt == x.createdAt.value && r.value.updatedAt == x.updatedAt.value
    ensures PositionFieldsAccepted(x) && x.createdAt.value > x.updatedAt.value ==> r == Fail(CreatedAfterUpdate)
  {
    var id := RequiredCuid("id", x.id);
    var accountId := RequiredCuid("accountId", x.accountId);
    var marketId := RequiredCuid("marketId", x.marketId);
    var optionId := RequiredCuid("optionId", x.optionId);
    var cost := Required("cost", x.cost);
    var quantity := Required("quantity", x.quantity);
    var value := RequiredNonNegReal("value", x.value);
    var createdAt := Required("createdAt", x.createdAt);
    var updatedAt := Required("updatedAt", x.updatedAt);
    if && id.Ok? && accountId.Ok? && marketId.Ok? && optionId.Ok? && cost.Ok? && quantity.Ok?
       && value.Ok? && createdAt.Ok? && updatedAt.Ok?
    then
      NotAfter(Position(id.value, accountId.value, marketId.value, optionId.value, cost.value,
                        quantity.value, value.value, createdAt.value, updatedAt.value),
               createdAt.value, updatedAt.value, CreatedAfterUpdate)
    else
      Err(Issues(id) + Issues(accountId) + Issues(marketId) + Issues(optionId) + Issues(cost)
          + Issues(quantity) + Issues(value) + Issues(createdAt) + Issues(updatedAt))
  }

  // ---------------------------------------------------------------------------
  // TransactionEntry
  // ---------------------------------------------------------------------------

  /** `Literal["PRIMARY"] | CUID`. */
  datatype AssetId = Primary | AssetCuid(id: Cuid)

  /** The asset of an entry is the literal `PRIMARY` or a CUID; a value that is
      neither is reported against both members of the union. */
  function ValidateAssetId(s: string): (r: Result<AssetId>)
    ensures r.Ok? <==> s == "PRIMARY" || IsCuid(s)
    ensures r == Ok(Primary) <==> s == "PRIMARY"
    ensures r.Ok? && r.value.AssetCuid? ==> r.value.id == s
    ensures r.Err? ==> r.issues == [Issue([], NotAllowed), Issue([], NotCuid)]
  {
    if s == "PRIMARY" then Ok(Primary)
    else
      var c := ValidateCuid(RawStr(s));
      if c.Ok? then Ok(AssetCuid(c.value)) else Err([Issue([], NotAllowed), Issue([], NotCuid)])
  }

  datatype TransactionEntryInput = TransactionEntryInput(
    id: Input<string>,
    amount: Input<real>,
    assetType: Input<string>,
    assetId: Input<string>,
    fromAccountId: Input<string>,
    toAccountId: Input<string>,
    transactionId: Input<string>,
    createdAt: Input<Moment>)

  datatype TransactionEntry = TransactionEntry(
    id: Cuid,
    amount: real,
    assetType: AssetType,
    assetId: AssetId,
    fromAccountId: Cuid,
    toAccountId: Cuid,
    transactionId: Cuid,
    createdAt: Moment)

  ghost predicate TransactionEntryAccepted(x: TransactionEntryInput) {
    && CuidGiven(x.id) && x.amount.Present?
    && x.assetType.Present? && x.assetType.value in AssetTypeLiterals
    && x.assetId.Present? && (x.assetId.value == "PRIMARY" || IsCuid(x.assetId.value))
    && CuidGiven(x.fromAccountId) && CuidGiven(x.toAccountId) && CuidGiven(x.transactionId)
    && x.createdAt.Present?
  }

  /** Validating a `TransactionEntry`. */
  function ValidateTransactionEntry(x: TransactionEntryInput): (r: Result<TransactionEntry>)
    ensures r.Ok? <==> TransactionEntryAccepted(x)
    ensures r.Ok? ==> AssetTypeName(r.value.assetType) == x.assetType.value
    ensures r.Ok? ==> (r.value.assetId == Primary <==> x.assetId.value == "PRIMARY")
    ensures r.Ok? ==> ValidateAssetId(x.assetId.value) == Ok(r.value.assetId)
    ensures r.Ok? ==> r.value.amount == x.amount.value && r.value.transactionId == x.transactionId.value
    ensures r.Ok? ==> r.value.id == x.id.value && r.value.fromAccountId == x.fromAccountId.value
                      && r.value.toAccountId == x.toAccountId.value && r.value.createdAt == x.createdAt.value
  {
    var id := RequiredCuid("id", x.id);
    var amount := Required("amount", x.amount);
    var assetType := RequiredChoice("assetType", x.assetType, ParseAssetType);
    var assetId := RequiredModel("assetId", x.assetId, ValidateAssetId);
    var fromAccountId := RequiredCuid("fromAccountId", x.fromAccountId);
    var toAccountId := RequiredCuid("toAccountId", x.toAccountId);
    var transactionId := RequiredCuid("transactionId", x.transactionId);
    var createdAt := Required("createdAt", x.createdAt);
    if && id.Ok? && amount.Ok? && assetType.Ok? && assetId.Ok? && fromAccountId.Ok?
       && toAccountId.Ok? && transactionId.Ok? && createdAt.Ok?
    then
      Ok(TransactionEntry(id.value, amount.value, assetType.value, assetId.value,
                          fromAccountId.value, toAccountId.value, transactionId.value, createdAt.value))
    else
      Err(Issues(id) + Issues(amount) + Issues(assetType) + Issues(assetId) + Issues(fromAccountId)
          + Issues(toAccountId) + Issues(transactionId) + Issues(createdAt))
  }

  // ---------------------------------------------------------------------------
  // Transaction
  // ---------------------------------------------------------------------------

  datatype TransactionInput = TransactionInput(
    id: Input<string>,
    transactionType: Input<string>,
    initiatorId: Input<string>,
    isReverse: Input<Option<bool>>,
    reverseOfId: Input<Option<string>>,
    createdAt: Input<Moment>,
    updatedAt: Input<Moment>,
    batchId: Input<Option<string>>,
    marketId: Input<string>,
    entries: Input<seq<TransactionEntryInput>>,
    initiator: Input<UserInput>)

  datatype Transaction = Transaction(
    id: Cuid,
    transactionType: TransactionType,
    initiatorId: Cuid,
    isReverse: Option<bool>,
    reverseOfId: Option<Cuid>,
    createdAt: Moment,
    updatedAt: Moment,
    batchId: Option<Cuid>,
    marketId: Cuid,
    entries: seq<TransactionEntry>,
    initiator: User)

  ghost predicate TransactionAccepted(x: TransactionInput) {
    && CuidGiven(x.id)
    && x.transactionType.Present? && x.transactionType.value in TransactionTypeLiterals
    && CuidGiven(x.initiatorId)
    && CuidIfGiven(x.reverseOfId)
    && x.createdAt.Present? && x.updatedAt.Present?
    && CuidIfGiven(x.batchId)
    && CuidGiven(x.marketId)
    && x.entries.Present?
    && (forall i :: 0 <= i < |x.entries.value| ==> ValidateTransactionEntry(x.entries.value[i]).Ok?)
    && x.initiator.Present? && ValidateUser(x.initiator.value).Ok?
  }

  /** Validating a `Transaction`: the reversal and batch fields default to
      `None`, the market and initiator identifiers are required CUIDs, and the
      transaction validates only if every ledger entry does, the entries being
      kept in order. */
  function ValidateTransaction(x: TransactionInput): (r: Result<Transaction>)
    ensures r.Ok? <==> TransactionAccepted(x)
    ensures r.Ok? ==> TransactionTypeName(r.value.transactionType) == x.transactionType.value
    ensures r.Ok? ==> r.value.isReverse == OrNone(x.isReverse) && r.value.reverseOfId == OrNone(x.reverseOfId)
                      && r.value.batchId == OrNone(x.batchId)
    ensures r.Ok? ==> r.value.marketId == x.marketId.value && r.value.initiatorId == x.initiatorId.value
    ensures r.Ok? ==> r.value.id == x.id.value && r.value.createdAt == x.createdAt.value
                      && r.value.updatedAt == x.updatedAt.value
    ensures r.Ok? ==> ValidateUser(x.initiator.value) == Ok(r.value.initiator)
    ensures r.Ok? ==> |r.value.entries| == |x.entries.value|
    ensures r.Ok? ==> forall i :: 0 <= i < |r.value.entries| ==>
              ValidateTransactionEntry(x.entries.value[i]) == Ok(r.value.entries[i])
  {
    var id := RequiredCuid("id", x.id);
    var transactionType := RequiredChoice("type", x.transactionType, ParseTransactionType);
    var initiatorId := RequiredCuid("initiatorId", x.initiatorId);
    var reverseOfId := OptionalCuid("reverseOfId", x.reverseOfId);
    var createdAt := Required("createdAt", x.createdAt);
    var updatedAt := Required("updatedAt", x.updatedAt);
    var batchId := OptionalCuid("batchId", x.batchId);
    var marketId := RequiredCuid("marketId", x.marketId);
    var entries := RequiredList("entries", x.entries, ValidateTransactionEntry);
    var initiator := RequiredModel("initiator", x.initiator, ValidateUser);
    if && id.Ok? && transactionType.Ok? && initiatorId.Ok? && reverseOfId.Ok? && createdAt.Ok?
       && updatedAt.Ok? && batchId.Ok? && marketId.Ok? && entries.Ok? && initiator.Ok?
    then
      Ok(Transaction(id.value, transactionType.value, initiatorId.value, OrNone(x.isReverse),
                     reverseOfId.value, createdAt.value, updatedAt.value, batchId.value,
                     marketId.value, entries.value, initiator.value))
    else
      Err(Issues(id) + Issues(transactionType) + Issues(initiatorId) + Issues(reverseOfId)
          + Issues(createdAt) + Issues(updatedAt) + Issues(batchId) + Issues(marketId)
          + Issues(entries) + Issues(initiator))
  }
}
