/** Market and user price-history ticks, and the list adapters over them. */
module GraphSchema {
  import opened Validation
  import opened BaseTypes
  import opened Fields

  // ---------------------------------------------------------------------------
  // GraphTickOption
  // ---------------------------------------------------------------------------

  datatype GraphTickOptionInput = GraphTickOptionInput(id: Input<string>, probability: Input<int>)

  /** The probability of a tick option is a plain `int`, with no bound. */
  datatype GraphTickOption = GraphTickOption(id: Cuid, probability: int)

  /** Validating a `GraphTickOption`: a CUID and any integer. */
  function ValidateGraphTickOption(x: GraphTickOptionInput): (r: Result<GraphTickOption>)
    ensures r.Ok? <==> CuidGiven(x.id) && x.probability.Present?
    ensures r.Ok? ==> r.value == GraphTickOption(x.id.value, x.probability.value)
  {
    var id := RequiredCuid("id", x.id);
    var probability := Required("probability", x.probability);
    if id.Ok? && probability.Ok? then Ok(GraphTickOption(id.value, probability.value))
    else Err(Issues(id) + Issues(probability))
  }

  /** Unlike a market option's percentage, a tick probability outside 0..100
      is accepted. */
  lemma TickProbabilityUnbounded(id: Cuid, p: int)
    ensures ValidateGraphTickOption(GraphTickOptionInput(Present(id), Present(p))) == Ok(GraphTickOption(id, p))
  {
  }

  // ---------------------------------------------------------------------------
  // MarketGraphTick
  // ---------------------------------------------------------------------------

  datatype MarketGraphTickInput = MarketGraphTickInput(
    startAt: Input<Moment>,
    endAt: Input<Moment>,
    options: Input<seq<GraphTickOptionInput>>)

  datatype MarketGraphTick = MarketGraphTick(startAt: Moment, endAt: Moment, options: seq<GraphTickOption>)

  ghost predicate MarketGraphTickFieldsAccepted(x: MarketGraphTickInput) {
    && x.startAt.Present? && x.endAt.Present? && x.options.Present?
    && forall i :: 0 <= i < |x.options.value| ==> ValidateGraphTickOption(x.options.value[i]).Ok?
  }

  /** The model validator of both tick kinds: the start may not be after the end. */
  function CheckTickDates(startAt: Moment, endAt: Moment): (r: Result<()>)
    ensures r.Ok? <==> startAt <= endAt
    ensures r.Err? ==> r == Fail(StartAfterEnd)
  {
    if startAt > endAt then Fail(StartAfterEnd) else Ok(())
  }

  /** Validating a `MarketGraphTick`: once the fields validate, the tick is
      rejected iff it starts after it ends; equal instants are accepted. */
  function ValidateMarketGraphTick(x: MarketGraphTickInput): (r: Result<MarketGraphTick>)
    ensures r.Ok? <==> MarketGraphTickFieldsAccepted(x) && x.startAt.value <= x.endAt.value
    ensures r.Ok? ==> r.value.startAt == x.startAt.value && r.value.endAt == x.endAt.value
    ensures r.Ok? ==> r.value.startAt <= r.value.endAt
    ensures r.Ok? ==> |r.value.options| == |x.options.value|
    ensures r.Ok? ==> forall i :: 0 <= i < |r.value.options| ==>
              ValidateGraphTickOption(x.options.value[i]) == Ok(r.value.options[i])
    ensures MarketGraphTickFieldsAccepted(x) && x.startAt.value > x.endAt.value ==> r == Fail(StartAfterEnd)
  {
    var startAt := Required("start_at", x.startAt);
    var endAt := Required("end_at", x.endAt);
    var options := RequiredList("options", x.options, ValidateGraphTickOption);
    if startAt.Ok? && endAt.Ok? && options.Ok? then
      var dates := CheckTickDates(startAt.value, endAt.value);
      if dates.Err? then Err(dates.issues)
      else Ok(MarketGraphTick(startAt.value, endAt.value, options.value))
    else
      Err(Issues(startAt) + Issues(endAt) + Issues(options))
  }

  // ---------------------------------------------------------------------------
  // UserGraphTick
  // ---------------------------------------------------------------------------

  datatype UserGraphTickInput = UserGraphTickInput(
    startAt: Input<Moment>,
    endAt: Input<Moment>,
    balance: Input<real>,
    liquidity: Input<real>,
    markets: Input<real>)

  datatype UserGraphTick = UserGraphTick(startAt: Moment, endAt: Moment, balance: real, liquidity: real, markets: real)

  ghost predicate UserGraphTickFieldsAccepted(x: UserGraphTickInput) {
    x.startAt.Present? && x.endAt.Present? && x.balance.Present? && x.liquidity.Present? && x.markets.Present?
  }

  /** Validating a `UserGraphTick`: the amounts are unbounded, and once the
      fields are present the tick is rejected iff it starts after it ends. */
  function ValidateUserGraphTick(x: UserGraphTickInput): (r: Result<UserGraphTick>)
    ensures r.Ok? <==> UserGraphTickFieldsAccepted(x) && x.startAt.value <= x.endAt.value
    ensures r.Ok? ==> r.value == UserGraphTick(x.startAt.value, x.endAt.value, x.balance.value,
                                               x.liquidity.value, x.markets.value)
    ensures UserGraphTickFieldsAccepted(x) && x.startAt.value > x.endAt.value ==> r == Fail(StartAfterEnd)
  {
    var startAt := Required("start_at", x.startAt);
    var endAt := Required("end_at", x.endAt);
    var balance := Required("balance", x.balance);
    var liquidity := Required("liquidity", x.liquidity);
    var markets := Required("markets", x.markets);
    if startAt.Ok? && endAt.Ok? && balance.Ok? && liquidity.Ok? && markets.Ok? then
      var dates := CheckTickDates(startAt.value, endAt.value);
      if dates.Err? then Err(dates.issues)
      else Ok(UserGraphTick(startAt.value, endAt.value, balance.value, liquidity.value, markets.value))
    else
      Err(Issues(startAt) + Issues(endAt) + Issues(balance) + Issues(liquidity) + Issues(markets))
  }

  // ---------------------------------------------------------------------------
  // List adapters
  // ---------------------------------------------------------------------------

  /** `market_graph_tick_list_adapter`: the list validates iff every tick does,
      keeping length and order; every issue is located at a failing tick. */
  function ValidateMarketGraphTicks(xs: seq<MarketGraphTickInput>): (r: Result<seq<MarketGraphTick>>)
    ensures r.Ok? <==> forall i :: 0 <= i < |xs| ==> ValidateMarketGraphTick(xs[i]).Ok?
    ensures r.Ok? ==> |r.value| == |xs|
    ensures r.Ok? ==> forall i :: 0 <= i < |xs| ==> Ok(r.value[i]) == ValidateMarketGraphTick(xs[i])
    ensures r.Err? ==> forall k :: 0 <= k < |r.issues| ==> PointsAtFailure(r.issues[k], xs, ValidateMarketGraphTick)
  {
    Each(xs, ValidateMarketGraphTick)
  }

  /** `user_graph_tick_list_adapter`, likewise. */
  function ValidateUserGraphTicks(xs: seq<UserGraphTickInput>): (r: Result<seq<UserGraphTick>>)
    ensures r.Ok? <==> forall i :: 0 <= i < |xs| ==> ValidateUserGraphTick(xs[i]).Ok?
    ensures r.Ok? ==> |r.value| == |xs|
    ensures r.Ok? ==> forall i :: 0 <= i < |xs| ==> Ok(r.value[i]) == ValidateUserGraphTick(xs[i])
    ensures r.Err? ==> forall k :: 0 <= k < |r.issues| ==> PointsAtFailure(r.issues[k], xs, ValidateUserGraphTick)
  {
    Each(xs, ValidateUserGraphTick)
  }

  /** A list of user ticks is accepted iff it is accepted after splitting it
      anywhere: validation is element-wise. */
  lemma UserTicksSplit(xs: seq<UserGraphTickInput>, ys: seq<UserGraphTickInput>)
    ensures ValidateUserGraphTicks(xs + ys).Ok? <==> ValidateUserGraphTicks(xs).Ok? && ValidateUserGraphTicks(ys).Ok?
    ensures ValidateUserGraphTicks(xs + ys).Ok? ==>
              ValidateUserGraphTicks(xs + ys).value == ValidateUserGraphTicks(xs).value + ValidateUserGraphTicks(ys).value
  {
    var zs := xs + ys;
    if ValidateUserGraphTicks(xs).Ok? && ValidateUserGraphTicks(ys).Ok? {
      forall i | 0 <= i < |zs| ensures ValidateUserGraphTick(zs[i]).Ok? {
        if i >= |xs| { assert zs[i] == ys[i - |xs|]; }
      }
    }
    if ValidateUserGraphTicks(zs).Ok? {
      forall i | 0 <= i < |xs| ensures ValidateUserGraphTick(xs[i]).Ok? {
        assert zs[i] == xs[i];
      }
      forall i | 0 <= i < |ys| ensures ValidateUserGraphTick(ys[i]).Ok? {
        assert zs[|xs| + i] == ys[i];
      }
    }
  }
}
