# py-play-money schema validation, in Dafny

This project models the validation layer of the `py_play_money` client for the
Play Money prediction-market API. That layer is the set of pydantic records
under `src/py_play_money/schemas/`, plus the earlier single-file
`src/py_play_money/schemas.py`. It holds the rules a decoded API record must
meet before it is accepted:

- the `CUID` identifier format;
- the `Z` rewrite done before an ISO datetime is parsed;
- per-field bounds, literal enumerations, defaults and nested records;
- the cross-field model validators;
- the pruning of unsupplied optional fields that `FullMarket.__init__` does to
  its instance dictionary.

## How records are modelled

- Each record is a pair of datatypes:
  - An `…Input` datatype holds what the caller supplied. Every field is an
    `Input<T>`, either `Absent` or `Present(v)`. The `Present` fields are
    exactly pydantic's `model_fields_set`.
  - The validated record holds the typed values. CUID fields have the subset
    type `Cuid`, `ge=0` integers are `nat`, and `ge=0, le=100` integers are
    `Percent`.
- A record's `Validate…` function returns `Ok(record)` or `Err(issues)`:
  - An issue is a location plus a `Kind`. The location is a path of field names
    and list indices.
  - As pydantic does, every field is validated and every field issue is
    collected, in declaration order. Nested issues are prefixed with the
    field's name or the element's index.
  - `mode='after'` model validators run only once every field is valid. Their
    error is then the only issue.
- Every `Validate…` function states three things:
  - when it accepts, as an if-and-only-if against a declarative "accepted"
    predicate over the input;
  - what the record then holds: supplied values or their defaults;
  - which error a model validator produces.
- Instants are integers ordered by `<`, and float fields are reals.
- Module layout:
  - `Validation` holds the shared vocabulary.
  - `BaseTypes` holds the two custom types.
  - `Fields` holds the field kinds: required, defaulted, bounded, literal,
    nested and list fields.
  - There is one module per schema file: `UserSchema`, `MarketSchema`,
    `FinanceSchema`, `GraphSchema`, `CommentSchema`, `ViewSchema`,
    `LeaderboardSchema` and `UtilsSchema`.
  - `DraftSchemas` holds the earlier single-file version.

### CUID

- `CUID.validate` does an `re.match` of `^c[^\s-]{8,}$`.
  - The model runs the regex as the engine does: a greedy run of class
    characters, backtracking over the repetition count, and Python's `$` (the
    end of the string, or just before a final newline).
  - It proves this equal to the declarative `IsCuid`: `c`, then at least eight
    characters that are neither whitespace (`str.isspace`) nor `-`, optionally
    followed by one `\n`.
- A string ending in a single newline is therefore a valid CUID. The newline is
  kept in the value.
- A non-string is a type error, modelled as the issue `NotAString` (see
  "Left out"). A string that does not match is a value error (`NotCuid`).

### Pruning in `FullMarket`

`MarketSchema.FullMarketObject` holds the instance dictionary
(`attributes: map<string, FieldValue>`) and `model_fields_set`.
`PruneUnsupplied` is the `for field in self.model_fields` loop of
`FullMarket.__init__`. Its loop invariant says which keys have been popped so
far. Its postcondition is the whole new state: the dictionary minus the
prunable fields that were not supplied. The lemmas beside it show two things:

- every other field keeps its validated value;
- an explicitly supplied default such as `options=[]` survives.

## Model

| member | source | states |
|---|---|---|
| `BaseTypes.PatternMatchesIsCuid` | src/py_play_money/schemas/base_types.py:29 | the regex `^c[^\s-]{8,}$` under `re.match` (greedy run, backtracking, `$` before a final newline) accepts exactly the strings described by `IsCuid` |
| `BaseTypes.BacktrackFinds` | src/py_play_money/schemas/base_types.py:29 | backtracking over the `{8,}` repetition succeeds iff some count between the minimum and the greedy run lets `$` match |
| `BaseTypes.RunLengthIs` | src/py_play_money/schemas/base_types.py:29 | the greedy run of `[^\s-]` stops exactly at the first non-class character or the end |
| `BaseTypes.ValidateCuid` | src/py_play_money/schemas/base_types.py:37-46 | accepted iff a string matching the pattern; a non-string is a type error, a bad string a value error; the accepted value is the input's own characters |
| `BaseTypes.CuidShape` | src/py_play_money/schemas/base_types.py:29 | every accepted CUID has length at least 9 and starts with `c` |
| `BaseTypes.CuidTrailingNewline` | src/py_play_money/schemas/base_types.py:41 | a valid CUID with one `\n` appended is still accepted, with two it is not |
| `BaseTypes.CuidExamples` | src/py_play_money/schemas/base_types.py:29-45 | eight body characters suffice and seven do not; a dash, a space or a capital `C` is refused |
| `BaseTypes.ValidateIsoDatetime` | src/py_play_money/schemas/base_types.py:19-23 | a string goes to the parser as `ReplaceZ` of it (every `Z` replaced by `+00:00`), so with no `Z` left, five characters longer per `Z`, and unchanged if it had no `Z`; any other value is returned as it is |
| `BaseTypes.ReplaceZRemovesZ` | src/py_play_money/schemas/base_types.py:22 | no `Z` survives `replace("Z", "+00:00")` |
| `BaseTypes.ReplaceZFixesZFree` | src/py_play_money/schemas/base_types.py:22 | a string without `Z` is unchanged by the rewrite |
| `BaseTypes.ReplaceZLength` | src/py_play_money/schemas/base_types.py:22 | the rewrite adds five characters per `Z` |
| `BaseTypes.ReplaceZAppend` | src/py_play_money/schemas/base_types.py:22 | the rewrite distributes over concatenation |
| `BaseTypes.ReplaceZIdempotent` | src/py_play_money/schemas/base_types.py:22 | rewriting twice equals rewriting once |
| `Fields.Required` | src/py_play_money/schemas/market.py:26 | a field without a default is accepted iff supplied, and holds the supplied value |
| `Fields.RequiredCuid` | src/py_play_money/schemas/market.py:25 | a required CUID field is accepted iff supplied and a CUID, with the supplied value |
| `Fields.CuidOrNone` | src/py_play_money/schemas/market.py:44 | a `CUID \| None` value is accepted iff `None` or a CUID, and is kept |
| `Fields.NullableCuid` | src/py_play_money/schemas/user.py:30 | a `CUID \| None` field without a default must be supplied, as `None` or a CUID |
| `Fields.OptionalCuid` | src/py_play_money/schemas/market.py:51 | a `CUID \| None = None` field is accepted iff absent, `None` or a CUID, and defaults to `None` |
| `Fields.RequiredNat` | src/py_play_money/schemas/market.py:47-49 | a required `ge=0` count is accepted iff supplied and not negative |
| `Fields.OptionalNat` | src/py_play_money/schemas/market.py:50 | an optional `ge=0` count may be absent or `None`, and is not negative when given |
| `Fields.RequiredPercent` | src/py_play_money/schemas.py:91 | a required `ge=0, le=100` integer is accepted iff supplied and within 0..100 inclusive |
| `Fields.OptionalPercent` | src/py_play_money/schemas/market.py:66-71 | an optional percentage defaults to `None` and lies within 0..100 when given |
| `Fields.RequiredNonNegReal` | src/py_play_money/schemas/finance.py:45 | a `float` with `ge=0` is accepted iff supplied and not negative |
| `Fields.RequiredUnitReal` | src/py_play_money/schemas/market.py:80 | a `float` with `ge=0, le=1` is accepted iff supplied and within 0..1 |
| `Fields.RequiredChoice` | src/py_play_money/schemas/market.py:135 | a literal field is accepted iff supplied and recognised, holding the recognised value |
| `Fields.RequiredModel` | src/py_play_money/schemas/market.py:103 | a nested record field is accepted iff supplied and valid on its own, holding that validation's result |
| `Fields.OptionalModel` | src/py_play_money/schemas/market.py:121 | a nested `Record \| None = None` field defaults to `None` and, when given, holds the nested record's own validation result |
| `Fields.EachFrom` | src/py_play_money/schemas/graphs.py:48-49 | element-wise list validation: accepted iff every element is, length and order kept, every issue located at a failing element's index |
| `Fields.Each` | src/py_play_money/schemas/graphs.py:48-49 | the same for a whole list |
| `Fields.RequiredList` | src/py_play_money/schemas/finance.py:83 | a required list field is accepted iff supplied and every element validates |
| `Fields.ListOrEmpty` | src/py_play_money/schemas/comments.py:46 | a `list = []` field defaults to the empty list and validates element-wise |
| `UserSchema.RoleName` | src/py_play_money/schemas/user.py:12 | every role is named by one of the literals `USER`, `ADMIN` |
| `UserSchema.ParseRole` | src/py_play_money/schemas/user.py:12 | a role string is accepted iff it is one of the literals, and names the role it yields |
| `UserSchema.RoleRoundTrip` | src/py_play_money/schemas/user.py:12 | every role is recognised from its own literal |
| `UserSchema.AccountTypeName` | src/py_play_money/schemas/user.py:10 | every account type is named by one of the four literals |
| `UserSchema.ParseAccountType` | src/py_play_money/schemas/user.py:10 | an account type is accepted iff it is one of `USER`, `MARKET_AMM`, `MARKET_CLEARING`, `HOUSE` |
| `UserSchema.AccountTypeRoundTrip` | src/py_play_money/schemas/user.py:10 | every account type is recognised from its own literal |
| `UserSchema.ValidateUser` | src/py_play_money/schemas/user.py:15-32 | accepted iff the role is a literal, `id` and `primary_account_id` are CUIDs, `referred_by` is supplied as `None` or a CUID, and every field without a default is supplied; `updated_at` defaults to `None`; a missing `created_at` is reported |
| `UserSchema.ValidateAccount` | src/py_play_money/schemas/user.py:35-44 | accepted iff the type is one of the four literals, `id` is a CUID and `user_id`/`market_id` are absent, `None` or CUIDs; `internal_type`, `user_id`, `market_id`, `updated_at` default to `None` |
| `MarketSchema.MarketFields` | src/py_play_money/schemas/market.py:21-51 | the field rules of `Market`: CUID identifiers, required non-negative counts, an optional non-negative `liquidityCount`; every field of the record is the supplied value, and `tags`, `resolvedAt`, `canceledAt`, `updatedAt`, `canceledById`, `liquidityCount`, `parentListId` take their defaults when absent |
| `Fields.NotAfter` | src/py_play_money/schemas/market.py:54-59 | an after-validator comparing two instants accepts iff the first is not after the second, returns the record itself, and otherwise fails with the given error alone |
| `MarketSchema.CheckCreationDate` | src/py_play_money/schemas/market.py:54-59 | the model validator accepts iff `createdAt <= closeDate`, returning the market itself |
| `MarketSchema.ValidateMarket` | src/py_play_money/schemas/market.py:21-59 | a market is accepted iff its fields are and it is not created after it closes (equal dates accepted); with valid fields and bad dates the only issue is the model validator's |
| `MarketSchema.ValidateLiteOption` | src/py_play_money/schemas/market.py:62-71 | the id is a CUID and the probability may be left out but lies in 0..100 when given; a value above or below is reported against that bound |
| `MarketSchema.ValidateColor` | src/py_play_money/schemas/market.py:84-90 | a colour is accepted iff it starts with `#` and has length exactly 7, and is returned unchanged |
| `MarketSchema.ColorCheckIsShapeOnly` | src/py_play_money/schemas/market.py:88 | every `#RRGGBB` hex code is accepted, but so is `#GGGGGG`: the digits are not checked |
| `MarketSchema.ValidateMarketOption` | src/py_play_money/schemas/market.py:74-90 | an option satisfies the `LiteOption` rules, a colour of the checked shape kept verbatim, a CUID `marketId` and a liquidity probability in 0..1 |
| `MarketSchema.ValidateMarketResolution` | src/py_play_money/schemas/market.py:93-105 | CUID identifiers, and a resolving option, resolving user and market that each validate on their own and are carried as validated; `supportingLink` defaults to `None` |
| `MarketSchema.ValidateFullMarket` | src/py_play_money/schemas/market.py:108-124 | the inherited part is exactly a validated `Market` (including its date check); the user and the options validate in order; `marketResolution` and `resolvedBy` are `None` exactly when not given and otherwise hold the nested validation's result; `parentList` and `sharedTagsCount` default to `None` and the options to `[]` |
| `MarketSchema.Attributes` | src/py_play_money/schemas/market.py:113 | the dictionary after validation has exactly the 25 declared fields as keys |
| `MarketSchema.Pruned` | src/py_play_money/schemas/market.py:116-117 | a key survives iff it was present and is not prunable or was supplied; surviving values are unchanged |
| `MarketSchema.FullMarketObject.constructor` | src/py_play_money/schemas/market.py:113 | after `super().__init__` the dictionary holds every validated field and the supplied-field set is recorded |
| `MarketSchema.FullMarketObject.PruneUnsupplied` | src/py_play_money/schemas/market.py:114-117 | the loop over `model_fields` leaves exactly the pruned dictionary |
| `MarketSchema.NewFullMarket` | src/py_play_money/schemas/market.py:111-117 | construction fails with validation's issues, or yields a fresh object whose dictionary is the validated one with unsupplied prunable fields removed |
| `MarketSchema.PruningKeepsExactly` | src/py_play_money/schemas/market.py:114-117 | after construction a declared field is present iff it is not prunable or was supplied, and holds its validated value |
| `MarketSchema.ExplicitDefaultKept` | src/py_play_money/schemas/market.py:115 | `options=[]` supplied explicitly stays in the dictionary as the empty list |
| `MarketSchema.UnsuppliedPrunableRemoved` | src/py_play_money/schemas/market.py:116-117 | a prunable field that was not supplied is absent after construction |
| `MarketSchema.ContributionPolicyName` | src/py_play_money/schemas/market.py:13-18 | every policy is named by one of the four literals |
| `MarketSchema.ParseContributionPolicy` | src/py_play_money/schemas/market.py:13-18 | a policy is accepted iff it is `PUBLIC`, `DISABLED`, `OWNERS_ONLY` or `FRIENDS_ONLY` |
| `MarketSchema.ContributionPolicyRoundTrip` | src/py_play_money/schemas/market.py:13-18 | every policy is recognised from its own literal |
| `MarketSchema.ValidateMarketList` | src/py_play_money/schemas/market.py:127-139 | every field required and kept, CUID identifiers, and any policy outside the four literals reported at `contributionPolicy`, whatever the other fields hold |
| `FinanceSchema.AssetTypeName` | src/py_play_money/schemas/finance.py:13 | every asset type is named by `MARKET_OPTION` or `CURRENCY` |
| `FinanceSchema.ParseAssetType` | src/py_play_money/schemas/finance.py:13 | an asset type is accepted iff it is one of the two literals |
| `FinanceSchema.TransactionTypeName` | src/py_play_money/schemas/finance.py:15-34 | every transaction type is named by a listed literal |
| `FinanceSchema.ParseTransactionType` | src/py_play_money/schemas/finance.py:15-34 | a transaction type is accepted iff it is among the listed literals, and names the type it yields |
| `FinanceSchema.DuplicateTradeSellHarmless` | src/py_play_money/schemas/finance.py:17-19 | `TRADE_SELL` is listed twice, and dropping the repetition accepts the same strings |
| `FinanceSchema.ValidatePosition` | src/py_play_money/schemas/finance.py:36-54 | CUID ids, unbounded `cost` and `quantity`, non-negative `value`; rejected iff created after its last update (equal instants accepted), that being the only issue when the fields are valid |
| `FinanceSchema.ValidateAssetId` | src/py_play_money/schemas/finance.py:64 | the asset is the literal `PRIMARY` or a CUID; anything else is reported against both members of the union |
| `FinanceSchema.ValidateTransactionEntry` | src/py_play_money/schemas/finance.py:58-68 | CUID ids, an asset type among the literals and an asset id `PRIMARY` or a CUID, every field kept as supplied |
| `FinanceSchema.ValidateTransaction` | src/py_play_money/schemas/finance.py:71-84 | a listed type, required CUID `initiatorId`/`marketId`, `isReverse`/`reverseOfId`/`batchId` defaulting to `None`, and accepted only if every entry and the initiator validate, entries kept in order |
| `GraphSchema.ValidateGraphTickOption` | src/py_play_money/schemas/graphs.py:11-15 | a CUID id and any integer probability |
| `GraphSchema.TickProbabilityUnbounded` | src/py_play_money/schemas/graphs.py:15 | a tick probability outside 0..100 is accepted |
| `GraphSchema.CheckTickDates` | src/py_play_money/schemas/graphs.py:24-29 | the tick date check accepts iff the start is not after the end |
| `GraphSchema.ValidateMarketGraphTick` | src/py_play_money/schemas/graphs.py:17-29 | accepted iff the fields are and `start_at <= end_at`; options validated in order; bad dates alone give the one model-validator issue |
| `GraphSchema.ValidateUserGraphTick` | src/py_play_money/schemas/graphs.py:31-45 | accepted iff every field is supplied and `start_at <= end_at`; the amounts are unbounded |
| `GraphSchema.ValidateMarketGraphTicks` | src/py_play_money/schemas/graphs.py:48 | the list adapter accepts iff every tick validates, keeping length and order |
| `GraphSchema.ValidateUserGraphTicks` | src/py_play_money/schemas/graphs.py:49 | the list adapter accepts iff every tick validates, keeping length and order |
| `GraphSchema.UserTicksSplit` | src/py_play_money/schemas/graphs.py:49 | validating a concatenation is validating both parts and concatenating the results |
| `CommentSchema.ValidateEmojiAsWritten` | src/py_play_money/schemas/comments.py:24-29 | as written: accepted iff it starts and ends with `:`, and the accepted value is `None` |
| `CommentSchema.ValidateEmoji` | src/py_play_money/schemas/comments.py:24-29 | as intended: accepted iff it starts and ends with `:`, and the value is kept |
| `CommentSchema.EmojiLostAsWritten` | src/py_play_money/schemas/comments.py:24-29 | every accepted emoji is lost as written and kept by the corrected check |
| `CommentSchema.EmojiExamples` | src/py_play_money/schemas/comments.py:28 | `:` and `::` pass, the empty string and one-sided forms fail |
| `CommentSchema.ValidateReactionWith` | src/py_play_money/schemas/comments.py:15-29 | for an emoji check that accepts exactly the well-shaped emoji: CUID ids, a valid user, the emoji field holding the check's result; a badly shaped emoji is reported at `emoji` |
| `CommentSchema.ValidateReaction` | src/py_play_money/schemas/comments.py:15-29 | as the program builds it: accepted iff the ids are CUIDs, the emoji is well shaped and the user validates, and the stored emoji is then `None`; a badly shaped emoji is reported at `emoji` |
| `CommentSchema.ValidateReactionIntended` | src/py_play_money/schemas/comments.py:15-29 | with the intended emoji check: the same acceptance, and the emoji is stored as supplied |
| `CommentSchema.ReactionEmojiLost` | src/py_play_money/schemas/comments.py:24-29 | the program's reaction is the intended one with its emoji replaced by `None` |
| `CommentSchema.EntityTypeName` | src/py_play_money/schemas/comments.py:13 | every entity type is named by `MARKET` or `COMMENT` |
| `CommentSchema.ParseEntityType` | src/py_play_money/schemas/comments.py:13 | an entity type is accepted iff it is one of the two literals |
| `CommentSchema.EntityTypeRoundTrip` | src/py_play_money/schemas/comments.py:13 | every entity type is recognised from its own literal |
| `CommentSchema.ValidateCommentWith` | src/py_play_money/schemas/comments.py:32-46 | CUID ids, `parentId` defaulting to `None`, an entity type among the literals, a valid author, and reactions defaulting to `[]`, each validated, in order |
| `CommentSchema.ValidateComment` | src/py_play_money/schemas/comments.py:32-46 | a comment with `Reaction` reactions as the program builds them, accepted only if every reaction is; every stored reaction's emoji is `None`; ids, content, flags, dates and entity type kept as supplied, `parentId` defaulting to `None`, the author as validated |
| `CommentSchema.BadReactionRejectsComment` | src/py_play_money/schemas/comments.py:46 | one badly shaped emoji in any reaction rejects the whole comment |
| `ViewSchema.CheckReactionUser` | src/py_play_money/schemas/views.py:17-26 | the user is accepted, unchanged, iff its id equals the already validated `user_id` |
| `ViewSchema.MissingUserIdMismatches` | src/py_play_money/schemas/views.py:21-22 | a missing `user_id` is compared as `None` and never matches |
| `ViewSchema.ValidateReactionView` | src/py_play_money/schemas/views.py:12-26 | accepted iff `user_id` is supplied, the user validates and has that id; without `user_id` the mismatch is reported at `user` |
| `ViewSchema.ValidateCommentView` | src/py_play_money/schemas/views.py:29-33 | a comment whose reactions default to `[]` and are each validated as reaction views, whose users all match their `user_id`; the other fields kept as supplied or defaulted, the author as validated |
| `ViewSchema.ValidateCommentViews` | src/py_play_money/schemas/views.py:36 | the list adapter accepts iff every comment view validates, keeping length and order |
| `ViewSchema.AcceptedViewsMatchUsers` | src/py_play_money/schemas/views.py:36 | in an accepted list every reaction's user is the one its `user_id` names |
| `LeaderboardSchema.ValidateLeaderboardEntry` | src/py_play_money/schemas/leaderboard.py:10-18 | a CUID `user_id`, a required but nullable `avatar_url`, any `total`, and a `rank` that is reported when negative |
| `LeaderboardSchema.NegativeTotalAccepted` | src/py_play_money/schemas/leaderboard.py:17 | a negative total with a `None` avatar is accepted |
| `LeaderboardSchema.ValidateUserRanking` | src/py_play_money/schemas/leaderboard.py:20-27 | all five entries required, each valid on its own and held as validated |
| `LeaderboardSchema.ValidateLeaderboard` | src/py_play_money/schemas/leaderboard.py:29-37 | each top-* list is required and validates iff all its entries do, in order; `user_rankings` defaults to `None` |
| `LeaderboardSchema.EntriesKeepRanks` | src/py_play_money/schemas/leaderboard.py:18 | validating a list of entries keeps each entry's rank, which was supplied and is not negative |
| `LeaderboardSchema.LeaderboardRanksNonNegative` | src/py_play_money/schemas/leaderboard.py:18 | on an accepted leaderboard every rank on each of the five lists is supplied, not negative and kept |
| `UtilsSchema.ValidatePageInfo` | src/py_play_money/schemas/utils.py:9-14 | `total` is required and rejected when negative; `has_next_page` defaults to false and `end_cursor` to `None` |
| `UtilsSchema.EmptyPage` | src/py_play_money/schemas/utils.py:12-14 | `total = 0` alone gives the empty last page |
| `DraftSchemas.MarketUrl` | src/py_play_money/schemas.py:40-43 | the URL starts with `https://playmoney.dev/questions/`, has a `/` right after the id and is as long as prefix, id, `/` and slug together |
| `DraftSchemas.FirstIndexOf` | src/py_play_money/schemas.py:43 | finds the first occurrence of a character, or reports that there is none |
| `DraftSchemas.FirstIndexAfterFree` | src/py_play_money/schemas.py:43 | in id + `/` + slug with a `/`-free id, the first `/` ends the id |
| `DraftSchemas.MarketUrlRoundTrip` | src/py_play_money/schemas.py:40-43 | an id without `/` and its slug are recovered from the URL |
| `DraftSchemas.SplitMarketUrlSound` | src/py_play_money/schemas.py:40-43 | whatever splits is the URL of its parts, with a `/`-free id |
| `DraftSchemas.MarketUrlAmbiguousWithSlash` | src/py_play_money/schemas.py:43 | with a `/` in the id two different markets share a URL |
| `DraftSchemas.MarketFields` | src/py_play_money/schemas.py:27-76 | plain string ids, all four counts (including `liquidityCount`) required and non-negative, defaults for the rest |
| `DraftSchemas.CheckCreationDate` | src/py_play_money/schemas.py:79-84 | the draft model validator accepts iff `createdAt <= closeDate` |
| `DraftSchemas.ValidateMarket` | src/py_play_money/schemas.py:27-84 | a draft market is accepted iff its fields are and it is not created after it closes |
| `DraftSchemas.ValidateLiteOption` | src/py_play_money/schemas.py:87-91 | the probability is required and lies in 0..100 inclusive |
| `DraftSchemas.ValidateMarketOption` | src/py_play_money/schemas.py:94-110 | the draft `LiteOption` rules and the colour shape check, with a bad colour reported at `color` |
| `DraftSchemas.ValidateMarketResolution` | src/py_play_money/schemas.py:113-124 | string ids, `supportingLink` defaulting to `None`, a valid resolving option |
| `DraftSchemas.ValidateUser` | src/py_play_money/schemas.py:127-144 | the four link fields, `bio`, `referralCode` and `referredBy` default to `None`; `updatedAt` is required; the role is a literal; the other fields are kept as supplied |
| `DraftSchemas.ParseLiteral` | src/py_play_money/schemas.py:150 | a one-value literal, such as the draft account type `USER` or entity type `MARKET`, accepts that value alone |
| `DraftSchemas.ValidateAccount` | src/py_play_money/schemas.py:146-155 | only user accounts, with a valid embedded user |
| `DraftSchemas.CheckResolution` | src/py_play_money/schemas.py:166-171 | rejected iff `resolvedAt` is set and there is no market resolution |
| `DraftSchemas.ValidateFullMarket` | src/py_play_money/schemas.py:157-171 | accepted iff the fields are, the creation date check passes and a resolved market carries a resolution; each check's error alone when it is the only fault |
| `DraftSchemas.UnresolvedNeedsNoResolution` | src/py_play_money/schemas.py:169 | an unresolved market is accepted with or without a resolution |
| `DraftSchemas.ValidateReaction` | src/py_play_money/schemas.py:173-186 | accepted iff the emoji is well shaped and the user validates; the stored emoji is `None`, as the validator returns nothing |
| `DraftSchemas.ValidateComment` | src/py_play_money/schemas.py:189-203 | only `MARKET` comments; `parentId` defaults to `None` and reactions to `[]`, each validated in order, and each stores `None` as its emoji |
| `DraftSchemas.ValidateGraphTick` | src/py_play_money/schemas.py:206-211 | options validated one by one and held as validated; no date check |
| `DraftSchemas.TickMayEndBeforeStart` | src/py_play_money/schemas.py:206-211 | a draft tick that ends before it starts is accepted |
| `DraftSchemas.ValidatePosition` | src/py_play_money/schemas.py:222-243 | nested account, market and option valid, `value` non-negative, and rejected iff created after its last update |

## Left out

- ValidateCuid: `NotAString` stands for the `TypeError` that `CUID.validate` raises for a non-string. Pydantic does not turn a `TypeError` into a validation error: it escapes the whole record, and the other fields' issues are never collected. No record in the model passes a non-string, because leaf values are already typed.
- `src/py_play_money/api.py` is not part of this model: the HTTP client, the resource wrappers, request composition and logging are network I/O.
- Datetime parsing: `datetime.fromisoformat` is a library call. The model stops at the text handed to it (`DatetimeStep.ParseIso`). Instants are integers, so a parse failure and naive-versus-aware comparison errors are not modelled.
- Floating point: float fields are reals. Only their bounds are checked, and NaN and infinities are not modelled.
- Type coercion: records take already-typed leaf values. Only `CUID.validate` and `IsoDatetime.validate` see an untyped `Raw` value. A wrongly typed leaf, such as a string where an `int` is declared, is not modelled.
- HttpUrl: the four `HttpUrl | None` fields of the draft `User` are unvalidated strings, because `HttpUrl` lives inside pydantic.
- Aliasing: issue locations use the Python field names; pydantic's camelCase aliases are not modelled. The `CamelCaseModel`, `DateModel` and `CommentReaction` base classes are not part of the shown files. Only the fields and validators the schema files declare are modelled, so rules those bases may add are not.
- ViewSchema.ValidateReactionView: it models only the two fields its validator reads, `user_id` and `user`. The other fields it inherits from `CommentReaction` are not known. `user_id` is taken as an unvalidated string, required with no default, because its declaration on `CommentReaction` is not shown; an absent `user_id` is therefore reported as `Missing` at `user_id`, in addition to the mismatch at `user`.
- Validator order: a `mode='after'` model validator runs only when all fields are valid, and it produces the single issue. In the draft `FullMarket`, the inherited creation-date check is taken to run before `validate_resolution`, following pydantic's parent-first order. Pydantic's exact error messages and error types are not modelled, nor are the member-tagged locations of union errors: a bad `assetId` (`FinanceSchema.ValidateAssetId`) reports both members' issues at `assetId` itself, where pydantic adds a location step named after each member.
- The draft `IsoDatetime.validate` (`src/py_play_money/schemas.py:12-24`) does the same as the later one and is modelled once, by `BaseTypes.ValidateIsoDatetime`. The draft `PageInfo` (`src/py_play_money/schemas.py:214-219`) has the same rules as `UtilsSchema.ValidatePageInfo` and is not repeated.
- `src/py_play_money/schemas/activity.py`, `src/py_play_money/adapters.py` and the package `__init__` files are not part of this model. They hold re-exports, enumerations and annotations naming types that are not defined.
- The tests under `tests/` depend on recorded HTTP responses and are not part of this model.

## Findings

| source | as written | input that shows it | evidently intended | confidence | as-written member | corrected member |
|---|---|---|---|---|---|---|
| src/py_play_money/schemas/comments.py:24-29 | `validate_emoji` checks the shape but has no `return`, so the field is set to `None` for every accepted emoji (the draft, `src/py_play_money/schemas.py:181-186`, has the same omission) | `emoji=":thumbsup:"` is accepted and stored as `None` | the checked emoji is returned and stored | high (not executed) | `CommentSchema.ValidateEmojiAsWritten` | `CommentSchema.ValidateEmoji` |

The reaction and comment records follow the program: `CommentSchema.ValidateReaction`, `CommentSchema.ValidateComment`, `DraftSchemas.ValidateReaction` and `DraftSchemas.ValidateComment` store `None` as the emoji. `CommentSchema.ValidateReactionIntended` is the reaction with the corrected check, and `CommentSchema.ReactionEmojiLost` relates the two.
