/** The post-checkout updater of
    app/api/stripe/update-subscription/route.ts: a ladder of guards, then
    one upsert of the session user's row from the customer's first active
    subscription. The upsert and the read-back go through a query module
    that is not part of this model, so the handler's writes are recorded as
    the argument objects it passes, and the module's behaviour is an input. */
module UpdateSubscription {
  import opened Common
  import opened Db
  import opened Processor
  import opened Session

  /** The parsed JSON body; `None` when the body is not valid JSON. */
  datatype UpdateBody = UpdateBody(stripeCustomerId: Option<string>)

  /** How the query module answers: whether the upsert throws and whether
      the read-back of the user's subscription throws. */
  datatype Queries = Queries(upsertThrows: bool, readThrows: bool)

  /** The status and the upsert calls the handler made, in order. */
  datatype UpdateResponse = UpdateResponse(status: int, writes: seq<UpsertArgs>)

  /** `POST`: 401 without a full session user, 400 without a customer id,
      404 when the processor lists no active subscription; otherwise the
      session user's row is upserted from the first listed subscription.
      Every thrown error (bad JSON, a processor error, a subscription
      without items, a failing query) is 500. */
  function UpdatePost(session: Option<SessionUser>, body: Option<UpdateBody>,
                      listed: Reply<seq<StripeSubscription>>, queries: Queries): (r: UpdateResponse)
    ensures !ValidSession(session) ==> r == UpdateResponse(401, [])
    ensures r.status == 400 <==> ValidSession(session) && body.Some? && !Truthy(body.value.stripeCustomerId)
    ensures r.status == 404 <==>
      ValidSession(session) && body.Some? && Truthy(body.value.stripeCustomerId) && listed == Returned([])
    ensures r.status == 200 || r.status == 400 || r.status == 401 || r.status == 404 || r.status == 500
    ensures r.status != 200 && r.status != 500 ==> r.writes == []
    // at most one write, and only once every guard has passed
    ensures |r.writes| <= 1
    ensures r.writes != [] ==>
      && ValidSession(session) && body.Some? && Truthy(body.value.stripeCustomerId)
      && listed.Returned? && listed.value != [] && listed.value[0].priceIds != []
    // the write is keyed by the session user and copies the first subscription
    ensures r.writes != [] ==>
      var s := listed.value[0];
      && r.writes[0].userId == session.value.id.value
      && r.writes[0].stripeCustomerId == body.value.stripeCustomerId.value
      && r.writes[0].stripeSubscriptionId == Some(s.id)
      && r.writes[0].stripePriceId == Some(s.priceIds[0])
      && r.writes[0].stripeCurrentPeriodEnd == Some(s.currentPeriodEnd * 1000)
      && r.writes[0].status == Some(s.status)
    ensures r.status == 200 <==> r.writes != [] && !queries.upsertThrows && !queries.readThrows
  {
    if !ValidSession(session) then UpdateResponse(401, [])
    else
      match body
      case None => UpdateResponse(500, [])
      case Some(b) =>
        if !Truthy(b.stripeCustomerId) then UpdateResponse(400, [])
        else
          match listed
          case Threw => UpdateResponse(500, [])
          case Returned(subs) =>
            if subs == [] then UpdateResponse(404, [])
            else
              match SubscriptionArgs(session.value.id.value, b.stripeCustomerId.value, subs[0], subs[0].status)
              case None => UpdateResponse(500, [])
              case Some(a) =>
                var status := if queries.upsertThrows || queries.readThrows then 500 else 200;
                UpdateResponse(status, [a])
  }

  /** Whatever the processor lists after the first subscription plays no
      part: the outcome depends on the first entry only. */
  lemma OnlyFirstListedMatters(session: Option<SessionUser>, body: Option<UpdateBody>,
                               s: StripeSubscription, rest1: seq<StripeSubscription>, rest2: seq<StripeSubscription>,
                               queries: Queries)
    ensures UpdatePost(session, body, Returned([s] + rest1), queries)
         == UpdatePost(session, body, Returned([s] + rest2), queries)
  {
  }

  /** With a complete subscription listed first and a working query module,
      the update succeeds with exactly the upsert built from that
      subscription for the session user. */
  lemma UpdateSucceeds(session: Option<SessionUser>, customerId: string, subs: seq<StripeSubscription>)
    requires ValidSession(session) && customerId != ""
    requires subs != [] && Complete(subs[0])
    ensures UpdatePost(session, Some(UpdateBody(Some(customerId))), Returned(subs), Queries(false, false))
         == UpdateResponse(200, [SubscriptionArgs(session.value.id.value, customerId, subs[0], subs[0].status).value])
  {
  }
}
