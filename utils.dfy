/** The pagination cursor returned alongside list results. */
module UtilsSchema {
  import opened Validation
  import opened Fields

  datatype PageInfoInput = PageInfoInput(
    hasNextPage: Input<bool>,
    endCursor: Input<Option<string>>,
    total: Input<int>)

  datatype PageInfo = PageInfo(hasNextPage: bool, endCursor: Option<string>, total: nat)

  /** Validating a `PageInfo`: `total` is required and may not be negative;
      `has_next_page` defaults to false and `end_cursor` to `None`. */
  function ValidatePageInfo(x: PageInfoInput): (r: Result<PageInfo>)
    ensures r.Ok? <==> NatGiven(x.total)
    ensures r.Ok? ==> r.value == PageInfo(Or(x.hasNextPage, false), OrNone(x.endCursor), x.total.value)
    ensures x.total.Absent? ==> r == Err([Issue([Key("total")], Missing)])
    ensures x.total.Present? && x.total.value < 0 ==> r == Err([Issue([Key("total")], BelowMinimum)])
  {
    var total := RequiredNat("total", x.total);
    if total.Ok? then Ok(PageInfo(Or(x.hasNextPage, false), OrNone(x.endCursor), total.value))
    else Err(Issues(total))
  }

  /** A page with only `total = 0` supplied is the empty last page. */
  lemma EmptyPage()
    ensures ValidatePageInfo(PageInfoInput(Absent, Absent, Present(0))) == Ok(PageInfo(false, None, 0))
  {
  }
}
