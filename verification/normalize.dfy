/** The row mappers of lib/supabase/utils.ts: each takes a database row
    (snake_case columns) or nothing and returns the application's camelCase
    record, or `null` for a missing row. Timestamps are milliseconds both as
    stored and as `Date` values, so `new Date(column)` keeps the value. */
module Normalize {
  import opened Common
  import opened Db
  import opened ChatDb
  import opened SubscriptionRoute

  datatype NormalChat = NormalChat(id: string, userId: string, title: string, visibility: Visibility, createdAt: int)

  /** `normalizeChat`. */
  function NormalizeChat(chat: Option<Chat>): (r: Option<NormalChat>)
    ensures r.None? <==> chat.None?
    ensures r.Some? ==>
      && r.value.id == chat.value.id && r.value.userId == chat.value.userId
      && r.value.title == chat.value.title && r.value.visibility == chat.value.visibility
      && r.value.createdAt == chat.value.createdAt
  {
    match chat
    case None => None
    case Some(c) => Some(NormalChat(c.id, c.userId, c.title, c.visibility, c.createdAt))
  }

  datatype NormalMessage = NormalMessage(id: string, chatId: string, role: string, content: string, createdAt: int)

  /** `normalizeMessage`. */
  function NormalizeMessage(message: Option<Message>): (r: Option<NormalMessage>)
    ensures r.None? <==> message.None?
    ensures r.Some? ==>
      && r.value.id == message.value.id && r.value.chatId == message.value.chatId
      && r.value.role == message.value.role && r.value.content == message.value.content
      && r.value.createdAt == message.value.createdAt
  {
    match message
    case None => None
    case Some(m) => Some(NormalMessage(m.id, m.chatId, m.role, m.content, m.createdAt))
  }

  /** A vote as the client sees it: no voter, only whether it is an upvote. */
  datatype NormalVote = NormalVote(chatId: string, messageId: string, isUpvoted: bool)

  /** `normalizeVote`: the voter is dropped; `isUpvoted` is `vote > 0`. */
  function NormalizeVote(vote: Option<Vote>): (r: Option<NormalVote>)
    ensures r.None? <==> vote.None?
    ensures r.Some? ==> r.value.chatId == vote.value.chatId && r.value.messageId == vote.value.messageId
    ensures r.Some? ==> (r.value.isUpvoted <==> vote.value.vote > 0)
  {
    match vote
    case None => None
    case Some(v) => Some(NormalVote(v.chatId, v.messageId, v.vote > 0))
  }

  /** Votes of different users on the same message with the same sign look
      the same once normalized; a zero vote is not an upvote. */
  lemma NormalizeVoteForgetsVoter(v: Vote, w: Vote)
    requires v.chatId == w.chatId && v.messageId == w.messageId && (v.vote > 0 <==> w.vote > 0)
    ensures NormalizeVote(Some(v)) == NormalizeVote(Some(w))
    ensures NormalizeVote(Some(v.(vote := 0))).value.isUpvoted == false
  {
  }

  /** The vote `voteMessage` stores reads back as an upvote exactly when the
      user voted 'up'. */
  lemma VoteReadsBack(votes: VoteTable, chatId: string, messageId: string, userId: string, kind: string)
    ensures var r := VoteMessage(votes, chatId, messageId, userId, kind, false, false);
            && (messageId, userId) in r.value
            && NormalizeVote(Some(r.value[(messageId, userId)])).value.isUpvoted == (kind == "up")
  {
  }

  datatype NormalDocument = NormalDocument(id: string, createdAt: int, title: string, content: string, kind: string, userId: string)

  /** `normalizeDocument`. */
  function NormalizeDocument(document: Option<Document>): (r: Option<NormalDocument>)
    ensures r.None? <==> document.None?
    ensures r.Some? ==>
      && r.value.id == document.value.id && r.value.createdAt == document.value.createdAt
      && r.value.title == document.value.title && r.value.content == document.value.content
      && r.value.kind == document.value.kind && r.value.userId == document.value.userId
  {
    match document
    case None => None
    case Some(d) => Some(NormalDocument(d.id, d.createdAt, d.title, d.content, d.kind, d.userId))
  }

  /** A row of the `suggestions` table. */
  datatype Suggestion = Suggestion(
    id: string,
    documentId: string,
    documentCreatedAt: int,
    originalText: string,
    suggestedText: string,
    description: Option<string>,
    isResolved: bool,
    userId: string,
    createdAt: int)

  datatype NormalSuggestion = NormalSuggestion(
    id: string,
    documentId: string,
    documentCreatedAt: int,
    originalText: string,
    suggestedText: string,
    description: Option<string>,
    isResolved: bool,
    userId: string,
    createdAt: int)

  /** `normalizeSuggestion`: each column under its camelCase key, the two
      timestamps as the same instants. */
  function NormalizeSuggestion(suggestion: Option<Suggestion>): (r: Option<NormalSuggestion>)
    ensures r.None? <==> suggestion.None?
    ensures r.Some? ==>
      && r.value.id == suggestion.value.id
      && r.value.documentId == suggestion.value.documentId
      && r.value.documentCreatedAt == suggestion.value.documentCreatedAt
      && r.value.originalText == suggestion.value.originalText
      && r.value.suggestedText == suggestion.value.suggestedText
      && r.value.description == suggestion.value.description
      && r.value.isResolved == suggestion.value.isResolved
      && r.value.userId == suggestion.value.userId
      && r.value.createdAt == suggestion.value.createdAt
  {
    match suggestion
    case None => None
    case Some(s) => Some(NormalSuggestion(s.id, s.documentId, s.documentCreatedAt, s.originalText, s.suggestedText,
                                          s.description, s.isResolved, s.userId, s.createdAt))
  }

  datatype NormalSubscription = NormalSubscription(
    id: string,
    userId: UserId,
    status: Option<string>,
    stripeCustomerId: string,
    stripeSubscriptionId: Option<string>,
    stripePriceId: Option<string>,
    stripeCurrentPeriodEnd: Option<int>,
    createdAt: int,
    updatedAt: int)

  /** `normalizeSubscription`: a missing period end becomes `null`, a present
      one a date at the same instant. */
  function NormalizeSubscription(subscription: Option<Row>): (r: Option<NormalSubscription>)
    ensures r.None? <==> subscription.None?
    ensures r.Some? ==>
      var row := subscription.value;
      && r.value.id == row.id && r.value.userId == row.userId && r.value.status == row.status
      && r.value.stripeCustomerId == row.stripeCustomerId && r.value.stripeSubscriptionId == row.stripeSubscriptionId
      && r.value.stripePriceId == row.stripePriceId
      && r.value.createdAt == row.createdAt && r.value.updatedAt == row.updatedAt
    ensures r.Some? ==> (r.value.stripeCurrentPeriodEnd.None? <==> subscription.value.stripeCurrentPeriodEnd.None?)
    ensures r.Some? && r.value.stripeCurrentPeriodEnd.Some? ==>
      r.value.stripeCurrentPeriodEnd.value == subscription.value.stripeCurrentPeriodEnd.value
  {
    match subscription
    case None => None
    case Some(row) =>
      var periodEnd := match row.stripeCurrentPeriodEnd
        case None => None
        case Some(ms) => Some(ms);
      Some(NormalSubscription(row.id, row.userId, row.status, row.stripeCustomerId, row.stripeSubscriptionId,
                              row.stripePriceId, periodEnd, row.createdAt, row.updatedAt))
  }

  /** The mapper and the read endpoint's transform agree on every field, so a
      row reaches a client in the same shape by either route. */
  lemma NormalizeAgreesWithEndpoint(row: Row)
    ensures var n := NormalizeSubscription(Some(row)).value;
            var c := ToClient(row);
            && n.id == c.id && n.userId == c.userId && n.status == c.status
            && n.stripeCustomerId == c.stripeCustomerId && n.stripeSubscriptionId == c.stripeSubscriptionId
            && n.stripePriceId == c.stripePriceId && n.stripeCurrentPeriodEnd == c.stripeCurrentPeriodEnd
            && n.createdAt == c.createdAt && n.updatedAt == c.updatedAt
  {
  }
}
