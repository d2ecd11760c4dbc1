/** Comments and their emoji reactions. */
module CommentSchema {
  import opened Validation
  import opened BaseTypes
  import opened Fields
  import opened UserSchema

  // ---------------------------------------------------------------------------
  // Emoji
  // ---------------------------------------------------------------------------

  /** `value.startswith(":") and value.endswith(":")`; a lone `:` is both. */
  predicate EmojiShaped(s: string) {
    |s| >= 1 && s[0] == ':' && s[|s| - 1] == ':'
  }

  /** `Reaction.validate_emoji` as written: the shape is checked, but the
      validator has no `return`, so an accepted emoji is replaced by `None`. */
  function ValidateEmojiAsWritten(value: string): (r: Result<Option<string>>)
    ensures r.Ok? <==> EmojiShaped(value)
    ensures r.Ok? ==> r.value == None
    ensures r.Err? ==> r == Fail(BadEmoji)
  {
    if !EmojiShaped(value) then Fail(BadEmoji) else Ok(None)
  }

  /** The emoji check as intended: a well-shaped emoji is kept. */
  function ValidateEmoji(value: string): (r: Result<string>)
    ensures r.Ok? <==> EmojiShaped(value)
    ensures r.Ok? ==> r.value == value
    ensures r.Err? ==> r == Fail(BadEmoji)
  {
    if !EmojiShaped(value) then Fail(BadEmoji) else Ok(value)
  }

  /** Every emoji the validator accepts is lost as written, while the intended
      check keeps it. */
  lemma EmojiLostAsWritten(value: string)
    requires EmojiShaped(value)
    ensures ValidateEmojiAsWritten(value) == Ok(None)
    ensures ValidateEmoji(value) == Ok(value)
    ensures ValidateEmojiAsWritten(value) != Ok(Some(value))
  {
  }

  /** Concrete cases of the shape check. */
  lemma EmojiExamples()
    ensures ValidateEmoji(":thumbsup:") == Ok(":thumbsup:")
    ensures ValidateEmoji(":") == Ok(":") && ValidateEmoji("::") == Ok("::")
    ensures ValidateEmoji("").Err? && ValidateEmoji("thumbsup").Err?
    ensures ValidateEmoji(":thumbsup").Err? && ValidateEmoji("thumbsup:").Err?
    ensures ValidateEmojiAsWritten(":thumbsup:") == Ok(None)
  {
  }

  // ---------------------------------------------------------------------------
  // Reaction
  // ---------------------------------------------------------------------------

  datatype ReactionInput = ReactionInput(
    id: Input<string>,
    emoji: Input<string>,
    userId: Input<string>,
    commentId: Input<string>,
    user: Input<UserInput>)

  /** A validated reaction; `E` is what the emoji validator stores. */
  datatype Reaction<E> = Reaction(id: Cuid, emoji: E, userId: Cuid, commentId: Cuid, user: User)

  ghost predicate ReactionAccepted(x: ReactionInput) {
    && CuidGiven(x.id)
    && x.emoji.Present? && EmojiShaped(x.emoji.value)
    && CuidGiven(x.userId) && CuidGiven(x.commentId)
    && x.user.Present? && ValidateUser(x.user.value).Ok?
  }

  /** Validating a `Reaction` whose `emoji` field is checked by `emoji`, which
      accepts exactly the well-shaped emoji. The embedded user is not compared
      with `userId` here. */
  function ValidateReactionWith<E>(x: ReactionInput, emoji: string -> Result<E>): (r: Result<Reaction<E>>)
    requires forall s :: emoji(s).Ok? <==> EmojiShaped(s)
    requires forall s :: emoji(s).Err? ==> emoji(s) == Fail(BadEmoji)
    ensures r.Ok? <==> ReactionAccepted(x)
    ensures r.Ok? ==> Ok(r.value.emoji) == emoji(x.emoji.value)
    ensures r.Ok? ==> r.value.id == x.id.value && r.value.userId == x.userId.value
                      && r.value.commentId == x.commentId.value
    ensures r.Ok? ==> Ok(r.value.user) == ValidateUser(x.user.value)
    ensures x.emoji.Present? && !EmojiShaped(x.emoji.value) ==> r.Err? && Issue([Key("emoji")], BadEmoji) in r.issues
  {
    var id := RequiredCuid("id", x.id);
    var checked := RequiredModel("emoji", x.emoji, emoji);
    var userId := RequiredCuid("userId", x.userId);
    var commentId := RequiredCuid("commentId", x.commentId);
    var user := RequiredModel("user", x.user, ValidateUser);
    if id.Ok? && checked.Ok? && userId.Ok? && commentId.Ok? && user.Ok? then
      Ok(Reaction(id.value, checked.value, userId.value, commentId.value, user.value))
    else
      assert x.emoji.Present? && checked.Err? ==> Issues(checked) == [Issue([Key("emoji")], BadEmoji)] by {
        if x.emoji.Present? && checked.Err? {
          assert emoji(x.emoji.value) == Fail(BadEmoji);
          assert Within(Key("emoji"), [Issue([], BadEmoji)])[0] == Issue([Key("emoji")], BadEmoji);
        }
      }
      Err(Issues(id) + Issues(checked) + Issues(userId) + Issues(commentId) + Issues(user))
  }

  /** Validating a `Reaction` as the program does: the emoji's shape is
      checked, and every accepted reaction stores `None` as its emoji. */
  function ValidateReaction(x: ReactionInput): (r: Result<Reaction<Option<string>>>)
    ensures r.Ok? <==> ReactionAccepted(x)
    ensures r.Ok? ==> r.value.emoji == None
    ensures r.Ok? ==> r.value.id == x.id.value && r.value.userId == x.userId.value
                      && r.value.commentId == x.commentId.value
    ensures r.Ok? ==> Ok(r.value.user) == ValidateUser(x.user.value)
    ensures x.emoji.Present? && !EmojiShaped(x.emoji.value) ==> r.Err? && Issue([Key("emoji")], BadEmoji) in r.issues
  {
    ValidateReactionWith(x, ValidateEmojiAsWritten)
  }

  /** Validating a `Reaction` with the intended emoji check: the emoji is kept. */
  function ValidateReactionIntended(x: ReactionInput): (r: Result<Reaction<string>>)
    ensures r.Ok? <==> ReactionAccepted(x)
    ensures r.Ok? ==> r.value.emoji == x.emoji.value
    ensures r.Ok? ==> r.value.id == x.id.value && r.value.userId == x.userId.value
                      && r.value.commentId == x.commentId.value
    ensures r.Ok? ==> Ok(r.value.user) == ValidateUser(x.user.value)
    ensures x.emoji.Present? && !EmojiShaped(x.emoji.value) ==> r.Err? && Issue([Key("emoji")], BadEmoji) in r.issues
  {
    ValidateReactionWith(x, ValidateEmoji)
  }

  /** The two reaction validators accept the same inputs and build the same
      record, except that the program's stores `None` where the intended one
      keeps the emoji. */
  lemma ReactionEmojiLost(x: ReactionInput)
    requires ReactionAccepted(x)
    ensures ValidateReaction(x).Ok? && ValidateReactionIntended(x).Ok?
    ensures var (a, b) := (ValidateReaction(x).value, ValidateReactionIntended(x).value);
            a == Reaction(b.id, None, b.userId, b.commentId, b.user) && b.emoji == x.emoji.value
  {
  }

  // ---------------------------------------------------------------------------
  // Comment
  // ---------------------------------------------------------------------------

  /** `CommentEntityType`. */
  datatype EntityType = MarketEntity | CommentEntity

  const EntityTypeLiterals: seq<string> := ["MARKET", "COMMENT"]

  function EntityTypeName(t: EntityType): (s: string)
    ensures s in EntityTypeLiterals
  {
    match t
    case MarketEntity => "MARKET"
    case CommentEntity => "COMMENT"
  }

  function ParseEntityType(s: string): (r: Option<EntityType>)
    ensures r.Some? <==> s in EntityTypeLiterals
    ensures r.Some? ==> EntityTypeName(r.value) == s
  {
    if s == "MARKET" then Some(MarketEntity)
    else if s == "COMMENT" then Some(CommentEntity)
    else None
  }

  /** Every entity type is recognised from its own literal. */
  lemma EntityTypeRoundTrip(t: EntityType)
    ensures ParseEntityType(EntityTypeName(t)) == Some(t)
  {
  }

  /** The fields of a comment; the record type of its reactions is a parameter
      so that the comment view, which validates them differently, shares it. */
  datatype CommentInput<R> = CommentInput(
    id: Input<string>,
    content: Input<string>,
    createdAt: Input<Moment>,
    updatedAt: Input<Moment>,
    edited: Input<bool>,
    authorId: Input<string>,
    parentId: Input<Option<string>>,
    hidden: Input<bool>,
    entityId: Input<string>,
    entityType: Input<string>,
    author: Input<UserInput>,
    reactions: Input<seq<R>>)

  datatype Comment<T> = Comment(
    id: Cuid,
    content: string,
    createdAt: Moment,
    updatedAt: Moment,
    edited: bool,
    authorId: Cuid,
    parentId: Option<Cuid>,
    hidden: bool,
    entityId: Cuid,
    entityType: EntityType,
    author: User,
    reactions: seq<T>)

  ghost predicate CommentAccepted<R, T>(x: CommentInput<R>, reaction: R -> Result<T>) {
    && CuidGiven(x.id) && x.content.Present?
    && x.createdAt.Present? && x.updatedAt.Present? && x.edited.Present?
    && CuidGiven(x.authorId)
    && CuidIfGiven(x.parentId)
    && x.hidden.Present?
    && CuidGiven(x.entityId)
    && x.entityType.Present? && x.entityType.value in EntityTypeLiterals
    && x.author.Present? && ValidateUser(x.author.value).Ok?
    && forall i :: 0 <= i < |Or(x.reactions, [])| ==> reaction(Or(x.reactions, [])[i]).Ok?
  }

  /** Validating a comment whose reactions are validated by `reaction`:
      `parentId` defaults to `None`, the reactions default to the empty list,
      and the comment validates only if every reaction does, the reactions
      being kept in order. */
  function ValidateCommentWith<R, T>(x: CommentInput<R>, reaction: R -> Result<T>): (r: Result<Comment<T>>)
    ensures r.Ok? <==> CommentAccepted(x, reaction)
    ensures r.Ok? ==> EntityTypeName(r.value.entityType) == x.entityType.value
    ensures r.Ok? ==> r.value.parentId == OrNone(x.parentId)
    ensures r.Ok? ==> r.value.id == x.id.value && r.value.authorId == x.authorId.value
                      && r.value.entityId == x.entityId.value
    ensures r.Ok? ==> r.value.content == x.content.value && r.value.edited == x.edited.value
                      && r.value.hidden == x.hidden.value
    ensures r.Ok? ==> r.value.createdAt == x.createdAt.value && r.value.updatedAt == x.updatedAt.value
    ensures r.Ok? ==> Ok(r.value.author) == ValidateUser(x.author.value)
    ensures r.Ok? ==> |r.value.reactions| == |Or(x.reactions, [])|
    ensures r.Ok? ==> forall i :: 0 <= i < |r.value.reactions| ==>
              reaction(Or(x.reactions, [])[i]) == Ok(r.value.reactions[i])
    ensures r.Ok? && x.reactions.Absent? ==> r.value.reactions == []
  {
    var id := RequiredCuid("id", x.id);
    var content := Required("content", x.content);
    var createdAt := Required("createdAt", x.createdAt);
    var updatedAt := Required("updatedAt", x.updatedAt);
    var edited := Required("edited", x.edited);
    var authorId := RequiredCuid("authorId", x.authorId);
    var parentId := OptionalCuid("parentId", x.parentId);
    var hidden := Required("hidden", x.hidden);
    var entityId := RequiredCuid("entityId", x.entityId);
    var entityType := RequiredChoice("entityType", x.entityType, ParseEntityType);
    var author := RequiredModel("author", x.author, ValidateUser);
    var reactions := ListOrEmpty("reactions", x.reactions, reaction);
    if && id.Ok? && content.Ok? && createdAt.Ok? && updatedAt.Ok? && edited.Ok? && authorId.Ok?
       && parentId.Ok? && hidden.Ok? && entityId.Ok? && entityType.Ok? && author.Ok? && reactions.Ok?
    then
      Ok(Comment(id.value, content.value, createdAt.value, updatedAt.value, edited.value,
                 authorId.value, parentId.value, hidden.value, entityId.value, entityType.value,
                 author.value, reactions.value))
    else
      Err(Issues(id) + Issues(content) + Issues(createdAt) + Issues(updatedAt) + Issues(edited)
          + Issues(authorId) + Issues(parentId) + Issues(hidden) + Issues(entityId)
          + Issues(entityType) + Issues(author) + Issues(reactions))
  }

  /** Validating a `Comment`, its reactions being `Reaction`s as the program
      builds them. */
  function ValidateComment(x: CommentInput<ReactionInput>): (r: Result<Comment<Reaction<Option<string>>>>)
    ensures r.Ok? <==> CommentAccepted(x, ValidateReaction)
    ensures r.Ok? ==> |r.value.reactions| == |Or(x.reactions, [])|
    ensures r.Ok? ==> forall i :: 0 <= i < |r.value.reactions| ==>
              ValidateReaction(Or(x.reactions, [])[i]) == Ok(r.value.reactions[i])
    ensures r.Ok? ==> forall i :: 0 <= i < |r.value.reactions| ==> r.value.reactions[i].emoji == None
    ensures r.Ok? ==> r.value.parentId == OrNone(x.parentId)
    ensures r.Ok? ==> r.value.id == x.id.value && r.value.authorId == x.authorId.value
                      && r.value.entityId == x.entityId.value
                      && EntityTypeName(r.value.entityType) == x.entityType.value
    ensures r.Ok? ==> r.value.content == x.content.value && r.value.edited == x.edited.value
                      && r.value.hidden == x.hidden.value
    ensures r.Ok? ==> r.value.createdAt == x.createdAt.value && r.value.updatedAt == x.updatedAt.value
    ensures r.Ok? ==> Ok(r.value.author) == ValidateUser(x.author.value)
  {
    ValidateCommentWith(x, ValidateReaction)
  }

  /** One badly shaped emoji in any reaction rejects the whole comment. */
  lemma BadReactionRejectsComment(x: CommentInput<ReactionInput>, i: nat)
    requires x.reactions.Present? && i < |x.reactions.value|
    requires x.reactions.value[i].emoji.Present? && !EmojiShaped(x.reactions.value[i].emoji.value)
    ensures ValidateComment(x).Err?
  {
    assert ValidateReaction(Or(x.reactions, [])[i]).Err?;
  }
}
