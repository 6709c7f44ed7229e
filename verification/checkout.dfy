/** Starting a subscription checkout, app/api/stripe/checkout/route.ts:
    find or create the processor customer for the signed-in user, then open
    a hosted checkout session in subscription mode. Every request the
    handler sends out is recorded in order; the answers are inputs. */
module Checkout {
  import opened Common
  import opened Db
  import opened Processor
  import opened Session

  /** The checkout session requested from the processor. */
  datatype SessionRequest = SessionRequest(
    mode: string,
    customer: string,
    priceId: Option<string>,
    quantity: int,
    metadataUserId: string,
    subscriptionMetadataUserId: string)

  /** A request the handler sends: to the processor, or an upsert through
      the query module (which is not part of this model). */
  datatype Call =
    | ListCustomers(email: string)
    | UpdateCustomer(customerId: string, metadataUserId: string)
    | CreateCustomer(email: string, metadataUserId: string)
    | Upsert(args: UpsertArgs)
    | CreateSession(request: SessionRequest)

  /** The answers the handler receives, one per kind of request. */
  datatype Answers = Answers(
    listCustomers: Reply<seq<StripeCustomer>>,
    updateCustomer: Reply<()>,
    createCustomer: Reply<string>,
    upsert: Reply<()>,
    createSession: Reply<string>)

  /** The customer id found or created (or the error), and the requests sent. */
  datatype CustomerOutcome = CustomerOutcome(customer: Option<string>, calls: seq<Call>)

  datatype CheckoutResponse = CheckoutResponse(status: int, sessionId: Option<string>, calls: seq<Call>)

  /** The upsert of a customer-only row: no subscription fields at all. */
  function CustomerOnly(userId: UserId, customerId: string): (a: UpsertArgs)
    ensures a.userId == userId && a.stripeCustomerId == customerId
    ensures a.stripeSubscriptionId.None? && a.stripePriceId.None? && a.stripeCurrentPeriodEnd.None? && a.status.None?
  {
    UpsertArgs(userId, customerId, None, None, None, None)
  }

  predicate IsUpsert(c: Call) { c.Upsert? }

  /** Whether the requests include an upsert. */
  predicate WritesRow(calls: seq<Call>) {
    exists i :: 0 <= i < |calls| && IsUpsert(calls[i])
  }

  /** `createOrRetrieveCustomer`: the first processor customer with the
      email is reused and only has its metadata pointed at the user; without
      one, a customer is created and a customer-only row recorded for the
      user. */
  function CreateOrRetrieveCustomer(userId: UserId, email: string, answers: Answers): (r: CustomerOutcome)
    ensures |r.calls| >= 1 && r.calls[0] == ListCustomers(email)
    // an existing customer: metadata update only, never a local row
    ensures answers.listCustomers.Returned? && answers.listCustomers.value != [] ==>
      var existing := answers.listCustomers.value[0].id;
      && r.calls == [ListCustomers(email), UpdateCustomer(existing, userId)]
      && r.customer == (if answers.updateCustomer.Returned? then Some(existing) else None)
    // no customer: create one, then write the customer-only row
    ensures answers.listCustomers == Returned([]) ==>
      && |r.calls| >= 2 && r.calls[1] == CreateCustomer(email, userId)
      && (answers.createCustomer.Returned? ==>
           && r.calls == [ListCustomers(email), CreateCustomer(email, userId),
                          Upsert(CustomerOnly(userId, answers.createCustomer.value))]
           && r.customer == (if answers.upsert.Returned? then Some(answers.createCustomer.value) else None))
      && (answers.createCustomer.Threw? ==> r == CustomerOutcome(None, [ListCustomers(email), CreateCustomer(email, userId)]))
    ensures answers.listCustomers.Threw? ==> r == CustomerOutcome(None, [ListCustomers(email)])
  {
    var listed := [ListCustomers(email)];
    match answers.listCustomers
    case Threw => CustomerOutcome(None, listed)
    case Returned(customers) =>
      if customers != [] then
        var existing := customers[0].id;
        var calls := listed + [UpdateCustomer(existing, userId)];
        match answers.updateCustomer
        case Threw => CustomerOutcome(None, calls)
        case Returned(_) => CustomerOutcome(Some(existing), calls)
      else
        var created := listed + [CreateCustomer(email, userId)];
        match answers.createCustomer
        case Threw => CustomerOutcome(None, created)
        case Returned(id) =>
          var calls := created + [Upsert(CustomerOnly(userId, id))];
          match answers.upsert
          case Threw => CustomerOutcome(None, calls)
          case Returned(_) => CustomerOutcome(Some(id), calls)
  }

  /** The parsed JSON body; `None` when the body is not valid JSON. */
  datatype CheckoutBody = CheckoutBody(priceId: Option<string>)

  /** `POST`: the body is parsed before the session is consulted, so
      malformed JSON is 500 even for an anonymous caller; then 401 without a
      full session user; then the customer, then the session request. Any
      thrown error is 500. */
  function CheckoutPost(session: Option<SessionUser>, body: Option<CheckoutBody>, answers: Answers): (r: CheckoutResponse)
    ensures body.None? ==> r == CheckoutResponse(500, None, [])
    ensures body.Some? && !ValidSession(session) ==> r == CheckoutResponse(401, None, [])
    ensures r.status == 200 || r.status == 401 || r.status == 500
    ensures r.status == 200 <==> r.sessionId.Some?
    // the session is opened for the found or created customer, in
    // subscription mode, with the user in both metadata objects
    ensures r.status == 200 ==>
      && ValidSession(session) && body.Some?
      && answers.createSession.Returned? && r.sessionId == Some(answers.createSession.value)
      && |r.calls| >= 2
      && var last := r.calls[|r.calls| - 1];
         && last.CreateSession?
         && last.request.mode == "subscription"
         && last.request.priceId == body.value.priceId && last.request.quantity == 1
         && last.request.metadataUserId == session.value.id.value
         && last.request.subscriptionMetadataUserId == session.value.id.value
    // a signed-in caller gets 200 exactly when the customer step and the
    // session request both succeed; any throw on the way is 500
    ensures body.Some? && ValidSession(session) ==>
      var c := CreateOrRetrieveCustomer(session.value.id.value, session.value.email.value, answers);
      && (r.status == 200 <==> c.customer.Some? && answers.createSession.Returned?)
      && (r.status != 200 ==> r.status == 500 && r.sessionId.None?)
      && r.calls == c.calls + (if c.customer.Some? then
                                 [CreateSession(SessionRequest("subscription", c.customer.value, body.value.priceId, 1,
                                                               session.value.id.value, session.value.id.value))]
                               else [])
    // a local row is written only for a newly created customer
    ensures WritesRow(r.calls) ==>
      answers.listCustomers == Returned([]) && answers.createCustomer.Returned?
  {
    match body
    case None => CheckoutResponse(500, None, [])
    case Some(b) =>
      if !ValidSession(session) then CheckoutResponse(401, None, [])
      else
        var userId := session.value.id.value;
        var c := CreateOrRetrieveCustomer(userId, session.value.email.value, answers);
        match c.customer
        case None => CheckoutResponse(500, None, c.calls)
        case Some(customer) =>
          var request := SessionRequest("subscription", customer, b.priceId, 1, userId, userId);
          var calls := c.calls + [CreateSession(request)];
          assert !IsUpsert(CreateSession(request));
          assert WritesRow(calls) ==> WritesRow(c.calls);
          match answers.createSession
          case Threw => CheckoutResponse(500, None, calls)
          case Returned(id) => CheckoutResponse(200, Some(id), calls)
  }

  /** A successful checkout names, as the session's customer, the first
      processor customer with the user's email when there is one and the
      newly created customer otherwise. */
  lemma CheckoutCustomer(session: Option<SessionUser>, body: Option<CheckoutBody>, answers: Answers)
    requires CheckoutPost(session, body, answers).status == 200
    ensures var r := CheckoutPost(session, body, answers);
            var customer := r.calls[|r.calls| - 1].request.customer;
            answers.listCustomers.Returned? &&
            if answers.listCustomers.value != [] then customer == answers.listCustomers.value[0].id
            else customer == answers.createCustomer.value
  {
  }

  /** With a full session user and every request answered, the checkout
      succeeds with the processor's session id. */
  lemma CheckoutSucceeds(session: Option<SessionUser>, b: CheckoutBody, answers: Answers)
    requires ValidSession(session)
    requires answers.listCustomers.Returned? && answers.updateCustomer.Returned? && answers.createCustomer.Returned?
    requires answers.upsert.Returned? && answers.createSession.Returned?
    ensures var r := CheckoutPost(session, Some(b), answers);
            r.status == 200 && r.sessionId == Some(answers.createSession.value)
  {
  }
}
