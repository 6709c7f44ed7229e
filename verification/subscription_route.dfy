/** The read endpoint app/api/subscription/route.ts: the signed-in user's
    row in client (camelCase) form, or `null`, always with status 200 and a
    Cache-Control that is long for an answer about a known user and short
    otherwise. */
module SubscriptionRoute {
  import opened Common
  import opened Db

  /** Cache-Control of an answer about an authenticated user. */
  const LongCache := "private, max-age=300"

  /** Cache-Control of an anonymous or failed answer. */
  const ShortCache := "private, max-age=5"

  /** The row under its camelCase keys, every column value copied as stored
      (the period end included, without conversion). */
  datatype ClientSubscription = ClientSubscription(
    id: string,
    userId: UserId,
    stripeCustomerId: string,
    stripeSubscriptionId: Option<string>,
    stripePriceId: Option<string>,
    stripeCurrentPeriodEnd: Option<int>,
    status: Option<string>,
    createdAt: int,
    updatedAt: int)

  /** The transform of a stored row to its client form. */
  function ToClient(row: Row): (c: ClientSubscription)
    ensures c.id == row.id && c.userId == row.userId && c.stripeCustomerId == row.stripeCustomerId
    ensures c.stripeSubscriptionId == row.stripeSubscriptionId && c.stripePriceId == row.stripePriceId
    ensures c.stripeCurrentPeriodEnd == row.stripeCurrentPeriodEnd && c.status == row.status
    ensures c.createdAt == row.createdAt && c.updatedAt == row.updatedAt
  {
    ClientSubscription(row.id, row.userId, row.stripeCustomerId, row.stripeSubscriptionId, row.stripePriceId,
                       row.stripeCurrentPeriodEnd, row.status, row.createdAt, row.updatedAt)
  }

  /** The client form read back as a row: the inverse of `ToClient`. */
  function FromClient(c: ClientSubscription): Row {
    Row(c.id, c.userId, c.stripeCustomerId, c.stripeSubscriptionId, c.stripePriceId,
        c.stripeCurrentPeriodEnd, c.status, c.createdAt, c.updatedAt)
  }

  /** The transform loses nothing and invents nothing. */
  lemma ClientRoundTrip(row: Row, c: ClientSubscription)
    ensures FromClient(ToClient(row)) == row
    ensures ToClient(FromClient(c)) == c
  {
  }

  /** What `getUser` yields: whether it reported an error and the user id it
      carried, or that it threw (as does a failing client construction). */
  datatype AuthReply = AuthAnswer(error: bool, userId: Option<string>) | AuthThrew

  /** An authenticated caller: no error and a non-empty user id. */
  predicate Authenticated(auth: AuthReply) {
    auth.AuthAnswer? && !auth.error && Truthy(auth.userId)
  }

  datatype ReadResponse = ReadResponse(status: int, body: Option<ClientSubscription>, cacheControl: string)

  /** `GET`: anonymous or failing callers get `null` with the short cache;
      an authenticated caller gets the client form of the row keyed by the
      user id, or `null` when there is none (a failed read, whose error is
      ignored, also yields `null`), with the long cache. */
  function SubscriptionGet(t: SubTable, auth: AuthReply, fault: Fault): (r: ReadResponse)
    ensures r.status == 200
    ensures !Authenticated(auth) ==> r == ReadResponse(200, None, ShortCache)
    ensures Authenticated(auth) ==> r.cacheControl == LongCache
    ensures Authenticated(auth) ==> (r.body.Some? <==> fault != LookupFails && auth.userId.value in t)
    ensures r.body.Some? ==> Authenticated(auth) && FromClient(r.body.value) == t[auth.userId.value]
  {
    if !Authenticated(auth) then ReadResponse(200, None, ShortCache)
    else
      var stored := if fault == LookupFails then None else Lookup(t, auth.userId.value);
      match stored
      case None => ReadResponse(200, None, LongCache)
      case Some(row) => ReadResponse(200, Some(ToClient(row)), LongCache)
  }

  /** The client form an authenticated caller receives carries the caller's
      own id whenever the table keeps every row under its owner. */
  lemma ReadOwnRow(t: SubTable, auth: AuthReply, fault: Fault)
    requires WellKeyed(t)
    ensures var r := SubscriptionGet(t, auth, fault);
            r.body.Some? ==> r.body.value.userId == auth.userId.value
  {
  }
}
