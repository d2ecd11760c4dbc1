/** Compound views: a comment whose reactions carry their user, checked
    against the reaction's own `user_id`. */
module ViewSchema {
  import opened Validation
  import opened BaseTypes
  import opened Fields
  import opened UserSchema
  import opened CommentSchema

  /** The fields of a reaction view that its validation reads: `user_id`, as
      declared on the reaction base record and validated before `user`, and the
      embedded user. */
  datatype ReactionViewInput = ReactionViewInput(userId: Input<string>, user: Input<UserInput>)

  datatype ReactionView = ReactionView(userId: string, user: User)

  /** `CommentReactionView.validate_user`: `prior` is `user_id` as found among
      the already validated fields (`None` when it is not there). The user is
      accepted, and returned as it is, only when its id equals that value. */
  function CheckReactionUser(prior: Option<string>, user: User): (r: Result<User>)
    ensures r.Ok? <==> prior == Some(user.id)
    ensures r.Ok? ==> r.value == user
    ensures r.Err? ==> r == Fail(UserIdMismatch)
  {
    if prior != Some(user.id) then Fail(UserIdMismatch) else Ok(user)
  }

  /** A missing `user_id` is compared as `None` and therefore never matches. */
  lemma MissingUserIdMismatches(user: User)
    ensures CheckReactionUser(None, user) == Fail(UserIdMismatch)
  {
  }

  ghost predicate ReactionViewAccepted(x: ReactionViewInput) {
    && x.userId.Present?
    && x.user.Present? && ValidateUser(x.user.value).Ok?
    && ValidateUser(x.user.value).value.id == x.userId.value
  }

  /** Validating a reaction view: accepted iff `user_id` was supplied, the
      user validates and its id is that `user_id`; the user is kept as
      validated. */
  function ValidateReactionView(x: ReactionViewInput): (r: Result<ReactionView>)
    ensures r.Ok? <==> ReactionViewAccepted(x)
    ensures r.Ok? ==> r.value.userId == x.userId.value && r.value.user.id == r.value.userId
    ensures r.Ok? ==> Ok(r.value.user) == ValidateUser(x.user.value)
    ensures x.userId.Absent? && x.user.Present? && ValidateUser(x.user.value).Ok? ==>
              r.Err? && Issue([Key("user")], UserIdMismatch) in r.issues
  {
    var userId := Required("user_id", x.userId);
    var validated := RequiredModel("user", x.user, ValidateUser);
    var prior := if userId.Ok? then Some(userId.value) else None;
    var user := if validated.Ok? then At("user", CheckReactionUser(prior, validated.value)) else validated;
    if userId.Ok? && user.Ok? then
      Ok(ReactionView(userId.value, user.value))
    else
      assert x.userId.Absent? && validated.Ok? ==> Issues(user) == [Issue([Key("user")], UserIdMismatch)] by {
        if x.userId.Absent? && validated.Ok? {
          assert Within(Key("user"), [Issue([], UserIdMismatch)])[0] == Issue([Key("user")], UserIdMismatch);
        }
      }
      Err(Issues(userId) + Issues(user))
  }

  /** `CommentView`: a comment whose reactions default to the empty list and
      are each validated as reaction views. */
  function ValidateCommentView(x: CommentInput<ReactionViewInput>): (r: Result<Comment<ReactionView>>)
    ensures r.Ok? <==> CommentAccepted(x, ValidateReactionView)
    ensures r.Ok? ==> |r.value.reactions| == |Or(x.reactions, [])|
    ensures r.Ok? ==> forall i :: 0 <= i < |r.value.reactions| ==>
              ValidateReactionView(Or(x.reactions, [])[i]) == Ok(r.value.reactions[i])
    ensures r.Ok? ==> forall i :: 0 <= i < |r.value.reactions| ==>
              r.value.reactions[i].user.id == r.value.reactions[i].userId
    ensures r.Ok? && x.reactions.Absent? ==> r.value.reactions == []
    ensures r.Ok? ==> r.value.parentId == OrNone(x.parentId)
    ensures r.Ok? ==> r.value.id == x.id.value && r.value.authorId == x.authorId.value
                      && r.value.entityId == x.entityId.value
                      && EntityTypeName(r.value.entityType) == x.entityType.value
    ensures r.Ok? ==> r.value.content == x.content.value && r.value.edited == x.edited.value
                      && r.value.hidden == x.hidden.value
    ensures r.Ok? ==> r.value.createdAt == x.createdAt.value && r.value.updatedAt == x.updatedAt.value
    ensures r.Ok? ==> Ok(r.value.author) == ValidateUser(x.author.value)
  {
    ValidateCommentWith(x, ValidateReactionView)
  }

  /** `comment_list_adapter`: a list of comment views validates iff every
      comment view does, keeping length and order. */
  function ValidateCommentViews(xs: seq<CommentInput<ReactionViewInput>>): (r: Result<seq<Comment<ReactionView>>>)
    ensures r.Ok? <==> forall i :: 0 <= i < |xs| ==> ValidateCommentView(xs[i]).Ok?
    ensures r.Ok? ==> |r.value| == |xs|
    ensures r.Ok? ==> forall i :: 0 <= i < |xs| ==> Ok(r.value[i]) == ValidateCommentView(xs[i])
    ensures r.Err? ==> forall k :: 0 <= k < |r.issues| ==> PointsAtFailure(r.issues[k], xs, ValidateCommentView)
  {
    Each(xs, ValidateCommentView)
  }

  /** In an accepted list of comment views, every reaction's user is the user
      its `user_id` names. */
  lemma AcceptedViewsMatchUsers(xs: seq<CommentInput<ReactionViewInput>>, i: nat, j: nat)
    requires ValidateCommentViews(xs).Ok?
    requires i < |xs| && j < |ValidateCommentViews(xs).value[i].reactions|
    ensures ValidateCommentViews(xs).value[i].reactions[j].user.id == ValidateCommentViews(xs).value[i].reactions[j].userId
  {
    assert Ok(ValidateCommentViews(xs).value[i]) == ValidateCommentView(xs[i]);
  }
}
