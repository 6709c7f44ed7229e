/** The payment-processor webhook (`POST` of app/api/stripe/webhook/route.ts)
    as a function from the request, the processor's replies, the clock and
    the database's health to a response status and the new subscriptions
    table. Signature verification is an oracle: the request carries the
    event that verification yields, or nothing when it throws. */
module Webhook {
  import opened Common
  import opened Db
  import opened Processor

  datatype CheckoutSession = CheckoutSession(
    mode: Option<string>, subscription: Option<string>, customer: Option<string>, metadataUserId: Option<string>)

  datatype Invoice = Invoice(
    id: string, subscription: Option<string>, customer: Option<string>, billingReason: Option<string>)

  /** A verified event, by type. `OtherEvent` stands for every type the
      dispatcher has no case for. */
  datatype Event =
    | CheckoutSessionCompleted(session: CheckoutSession)
    | SubscriptionCreated(subscription: StripeSubscription)
    | SubscriptionUpdated(subscription: StripeSubscription)
    | SubscriptionDeleted(subscription: StripeSubscription)
    | SubscriptionPaused(subscription: StripeSubscription)
    | SubscriptionResumed(subscription: StripeSubscription)
    | InvoicePaymentSucceeded(invoice: Invoice)
    | InvoicePaymentFailed(invoice: Invoice)
    | OtherEvent(eventType: string)
  {
    /** The event's `type` string. */
    function Type(): string {
      match this
      case CheckoutSessionCompleted(_) => "checkout.session.completed"
      case SubscriptionCreated(_) => "customer.subscription.created"
      case SubscriptionUpdated(_) => "customer.subscription.updated"
      case SubscriptionDeleted(_) => "customer.subscription.deleted"
      case SubscriptionPaused(_) => "customer.subscription.paused"
      case SubscriptionResumed(_) => "customer.subscription.resumed"
      case InvoicePaymentSucceeded(_) => "invoice.payment_succeeded"
      case InvoicePaymentFailed(_) => "invoice.payment_failed"
      case OtherEvent(t) => t
    }
  }

  /** The eight event types the handler processes. */
  const RelevantEvents: set<string> := {
    "checkout.session.completed",
    "customer.subscription.created",
    "customer.subscription.updated",
    "customer.subscription.deleted",
    "customer.subscription.paused",
    "customer.subscription.resumed",
    "invoice.payment_succeeded",
    "invoice.payment_failed"
  }

  /** The `Stripe-Signature` header, the configured secret, and the event
      that signature verification yields (`None` when it throws). */
  datatype WebhookRequest = WebhookRequest(signature: Option<string>, secret: Option<string>, verified: Option<Event>)

  /** How the processing of one event ends: normally with the new table, by
      an early 400 return, or by a thrown error. */
  datatype Handled = Done(table: SubTable) | Rejected | Crashed

  datatype WebhookResponse = WebhookResponse(status: int, table: SubTable)

  /** The upsert of a handler: building its arguments may throw (no item on
      the subscription), and so may the query. */
  function Upsert(t: SubTable, args: Option<UpsertArgs>, clock: Clock, fault: Fault): (h: Handled)
    ensures h.Done? <==> args.Some? && fault == Healthy
    ensures h.Done? ==> OnlyRowOf(args.value.userId, t, h.table) && args.value.userId in h.table
    ensures h.Done? && WellKeyed(t) ==> WellKeyed(h.table)
    ensures !h.Rejected?
  {
    match args
    case None => Crashed
    case Some(a) =>
      match CreateOrUpdateSubscription(t, a, clock, fault)
      case Success(t') => Done(t')
      case Failure(_) => Crashed
  }

  /** A status-only update; an unknown subscription id throws. */
  function SetStatus(t: SubTable, subId: string, status: string, clock: Clock, fault: Fault): (h: Handled)
    ensures h.Done? <==> UpdateSubscriptionStatus(t, subId, status, clock, fault).Success?
    ensures !h.Rejected?
    ensures h.Done? ==> h.table.Keys == t.Keys
    ensures h.Done? ==> forall u :: u in t ==>
      h.table[u] == (if u in Holders(t, subId) then t[u].(status := Some(status), updatedAt := clock.now) else t[u])
    ensures h.Done? && WellKeyed(t) ==> WellKeyed(h.table)
  {
    match UpdateSubscriptionStatus(t, subId, status, clock, fault)
    case Success(t') => Done(t')
    case Failure(_) => Crashed
  }

  /** The guard of the `checkout.session.completed` case. */
  predicate IsSubscriptionCheckout(cs: CheckoutSession) {
    cs.mode == Some("subscription") && Truthy(cs.subscription) && Truthy(cs.customer)
  }

  /** `checkout.session.completed`: only a subscription-mode session with a
      subscription and a customer is processed; the subscription is fetched
      first, then a missing `metadata.userId` rejects the event. */
  function HandleCheckoutCompleted(t: SubTable, cs: CheckoutSession, vendor: Vendor, clock: Clock, fault: Fault): (h: Handled)
    ensures !IsSubscriptionCheckout(cs) ==> h == Done(t)
    ensures IsSubscriptionCheckout(cs) && vendor.retrieveSubscription.Threw? ==> h == Crashed
    ensures IsSubscriptionCheckout(cs) && vendor.retrieveSubscription.Returned? && !Truthy(cs.metadataUserId) ==> h == Rejected
    ensures h.Rejected? ==> !Truthy(cs.metadataUserId)
    ensures IsSubscriptionCheckout(cs) && h.Done? ==>
      && vendor.retrieveSubscription.Returned?
      && Truthy(cs.metadataUserId)
      && OnlyRowOf(cs.metadataUserId.value, t, h.table)
      && var s := vendor.retrieveSubscription.value;
         Complete(s) ==> cs.metadataUserId.value in h.table && Reflects(h.table[cs.metadataUserId.value], cs.customer.value, s, s.status)
    ensures h.Done? && WellKeyed(t) ==> WellKeyed(h.table)
  {
    if !IsSubscriptionCheckout(cs) then Done(t)
    else
      match vendor.retrieveSubscription
      case Threw => Crashed
      case Returned(s) =>
        if !Truthy(cs.metadataUserId) then Rejected
        else Upsert(t, SubscriptionArgs(cs.metadataUserId.value, cs.customer.value, s, s.status), clock, fault)
  }

  /** `customer.subscription.created` / `.updated`: the user comes from the
      customer's `metadata.userId`, else from the row that already carries
      the subscription id; with neither the event is rejected. */
  function HandleSubscriptionChange(t: SubTable, s: StripeSubscription, vendor: Vendor, clock: Clock, fault: Fault): (h: Handled)
    ensures vendor.retrieveCustomer.Threw? ==> h == Crashed
    ensures h.Rejected? <==>
      && vendor.retrieveCustomer.Returned?
      && !Truthy(vendor.retrieveCustomer.value.metadataUserId)
      && fault != LookupFails
      && Holders(t, s.id) == {}
    ensures h.Done? && Truthy(vendor.retrieveCustomer.value.metadataUserId) ==>
      var u := vendor.retrieveCustomer.value.metadataUserId.value;
      OnlyRowOf(u, t, h.table) && (Complete(s) ==> u in h.table && Reflects(h.table[u], s.customer, s, s.status))
    ensures h.Done? && !Truthy(vendor.retrieveCustomer.value.metadataUserId) ==>
      exists u :: u in t && Holders(t, s.id) == {u} && OnlyRowOf(t[u].userId, t, h.table) &&
        (Complete(s) ==> t[u].userId in h.table && Reflects(h.table[t[u].userId], s.customer, s, s.status))
    ensures h.Done? && WellKeyed(t) ==> WellKeyed(h.table)
  {
    match vendor.retrieveCustomer
    case Threw => Crashed
    case Returned(c) =>
      if Truthy(c.metadataUserId) then
        Upsert(t, SubscriptionArgs(c.metadataUserId.value, s.customer, s, s.status), clock, fault)
      else
        match GetSubscriptionByStripeSubscriptionId(t, s.id, fault)
        case Failure(_) => Crashed
        case Success(None) => Rejected
        case Success(Some(row)) => Upsert(t, SubscriptionArgs(row.userId, s.customer, s, s.status), clock, fault)
  }

  /** The guard of the renewal write in `invoice.payment_succeeded`. */
  predicate IsRenewal(inv: Invoice) {
    Truthy(inv.subscription) && Truthy(inv.customer) && inv.billingReason == Some("subscription_cycle")
  }

  /** `invoice.payment_succeeded`: only a renewal writes. The write passes
      the empty string as the user id, and upserts are keyed by user id, so
      it lands on the row keyed by `""`. */
  function HandlePaymentSucceeded(t: SubTable, inv: Invoice, vendor: Vendor, clock: Clock, fault: Fault): (h: Handled)
    ensures !IsRenewal(inv) ==> h == Done(t)
    ensures IsRenewal(inv) && vendor.retrieveSubscription.Threw? ==> h == Crashed
    ensures !h.Rejected?
    ensures IsRenewal(inv) && h.Done? ==>
      && OnlyRowOf("", t, h.table)
      && "" in h.table
      && h.table[""].stripeCustomerId == inv.customer.value
      && h.table[""].stripeSubscriptionId == inv.subscription
      && h.table[""].status == Some("active")
    ensures h.Done? && WellKeyed(t) ==> WellKeyed(h.table)
  {
    if !IsRenewal(inv) then Done(t)
    else
      match vendor.retrieveSubscription
      case Threw => Crashed
      case Returned(s) =>
        var args := if s.priceIds == [] then None
                    else Some(UpsertArgs("", inv.customer.value, inv.subscription, Some(s.priceIds[0]),
                                         Some(PeriodEndMillis(s.currentPeriodEnd)), Some("active")));
        Upsert(t, args, clock, fault)
  }

  /** The per-type switch. */
  function Dispatch(t: SubTable, e: Event, vendor: Vendor, clock: Clock, fault: Fault): (h: Handled)
    ensures h.Rejected? ==> e.CheckoutSessionCompleted? || e.SubscriptionCreated? || e.SubscriptionUpdated?
    // a thrown error has a cause: a failing query, a failing processor call,
    // a subscription without items, or no single row holding the subscription
    ensures h.Crashed? ==>
      || fault != Healthy
      || ((e.CheckoutSessionCompleted? || e.InvoicePaymentSucceeded?) &&
          (vendor.retrieveSubscription.Threw? || vendor.retrieveSubscription.value.priceIds == []))
      || ((e.SubscriptionCreated? || e.SubscriptionUpdated?) &&
          (vendor.retrieveCustomer.Threw? || e.subscription.priceIds == [] || !AtMostOne(Holders(t, e.subscription.id))))
      || ((e.SubscriptionDeleted? || e.SubscriptionPaused? || e.SubscriptionResumed?) &&
          (Holders(t, e.subscription.id) == {} || !AtMostOne(Holders(t, e.subscription.id))))
      || (e.InvoicePaymentFailed? && Truthy(e.invoice.subscription) &&
          (Holders(t, e.invoice.subscription.value) == {} || !AtMostOne(Holders(t, e.invoice.subscription.value))))
    // and each of these causes does throw once the event gets that far
    ensures e.CheckoutSessionCompleted? && IsSubscriptionCheckout(e.session) && vendor.retrieveSubscription.Threw? ==> h.Crashed?
    ensures e.InvoicePaymentSucceeded? && IsRenewal(e.invoice) && vendor.retrieveSubscription.Threw? ==> h.Crashed?
    ensures (e.SubscriptionCreated? || e.SubscriptionUpdated?) && vendor.retrieveCustomer.Threw? ==> h.Crashed?
    ensures (e.SubscriptionDeleted? || e.SubscriptionPaused? || e.SubscriptionResumed?) ==>
      (h.Crashed? <==> fault != Healthy || Holders(t, e.subscription.id) == {} || !AtMostOne(Holders(t, e.subscription.id)))
    // a failing query never leaves a partial write
    ensures h.Done? && fault != Healthy ==> h.table == t
    ensures h.Done? && WellKeyed(t) ==> WellKeyed(h.table)
  {
    match e
    case CheckoutSessionCompleted(cs) => HandleCheckoutCompleted(t, cs, vendor, clock, fault)
    case SubscriptionCreated(s) => HandleSubscriptionChange(t, s, vendor, clock, fault)
    case SubscriptionUpdated(s) => HandleSubscriptionChange(t, s, vendor, clock, fault)
    case SubscriptionDeleted(s) => SetStatus(t, s.id, "canceled", clock, fault)
    case SubscriptionPaused(s) => SetStatus(t, s.id, "paused", clock, fault)
    case SubscriptionResumed(s) => SetStatus(t, s.id, "active", clock, fault)
    case InvoicePaymentSucceeded(inv) => HandlePaymentSucceeded(t, inv, vendor, clock, fault)
    case InvoicePaymentFailed(inv) =>
      if Truthy(inv.subscription) then SetStatus(t, inv.subscription.value, "past_due", clock, fault)
      else Done(t)
    case OtherEvent(_) => Done(t)
  }

  /** `POST`: a missing signature or secret, or a failed verification, is
      400; an event type outside the allow-list is acknowledged with 200;
      otherwise the dispatcher's early rejection is 400, a thrown error 500
      and normal completion 200. A request that is not answered with 200
      leaves the table as it was. */
  function HandleWebhook(t: SubTable, req: WebhookRequest, vendor: Vendor, clock: Clock, fault: Fault): (r: WebhookResponse)
    ensures !Truthy(req.signature) || !Truthy(req.secret) ==> r == WebhookResponse(400, t)
    ensures req.verified.None? ==> r == WebhookResponse(400, t)
    ensures Truthy(req.signature) && Truthy(req.secret) && req.verified.Some? && req.verified.value.Type() !in RelevantEvents ==>
      r == WebhookResponse(200, t)
    ensures Truthy(req.signature) && Truthy(req.secret) && req.verified.Some? && req.verified.value.Type() in RelevantEvents ==>
      var h := Dispatch(t, req.verified.value, vendor, clock, fault);
      && (h.Done? ==> r == WebhookResponse(200, h.table))
      && (h.Rejected? ==> r == WebhookResponse(400, t))
      && (h.Crashed? ==> r == WebhookResponse(500, t))
    ensures r.status == 200 || r.status == 400 || r.status == 500
    ensures r.status != 200 ==> r.table == t
    ensures WellKeyed(t) ==> WellKeyed(r.table)
  {
    if !Truthy(req.signature) || !Truthy(req.secret) then WebhookResponse(400, t)
    else
      match req.verified
      case None => WebhookResponse(400, t)
      case Some(e) =>
        if e.Type() !in RelevantEvents then WebhookResponse(200, t)
        else
          match Dispatch(t, e, vendor, clock, fault)
          case Done(t') => WebhookResponse(200, t')
          case Rejected => WebhookResponse(400, t)
          case Crashed => WebhookResponse(500, t)
  }

  /** A request that passes signature verification with event `e`. */
  function Signed(e: Event): WebhookRequest {
    WebhookRequest(Some("t=1,v1=sig"), Some("whsec"), Some(e))
  }

  /** `deleted`, `paused`, `resumed` and a failed payment set the status to
      `canceled`, `paused`, `active` and `past_due`, and change nothing else
      than the status and update time of the row holding the subscription. */
  lemma StatusEventsSetOnlyStatus(t: SubTable, e: Event, vendor: Vendor, clock: Clock)
    requires e.SubscriptionDeleted? || e.SubscriptionPaused? || e.SubscriptionResumed?
    requires HandleWebhook(t, Signed(e), vendor, clock, Healthy).status == 200
    ensures var r := HandleWebhook(t, Signed(e), vendor, clock, Healthy);
            var status := if e.SubscriptionDeleted? then "canceled" else if e.SubscriptionPaused? then "paused" else "active";
            && r.table.Keys == t.Keys
            && (exists u :: Holders(t, e.subscription.id) == {u})
            && (forall u :: u in t ==>
                 r.table[u] == (if u in Holders(t, e.subscription.id) then t[u].(status := Some(status), updatedAt := clock.now) else t[u]))
  {
    var s := e.subscription;
    var status := if e.SubscriptionDeleted? then "canceled" else if e.SubscriptionPaused? then "paused" else "active";
    assert Dispatch(t, e, vendor, clock, Healthy) == SetStatus(t, s.id, status, clock, Healthy);
    var u := TheOne(Holders(t, s.id));
  }

  /** A failed payment on a subscription marks the one row holding it
      `past_due` and changes nothing else than that row's status and update
      time. */
  lemma PaymentFailedMarksPastDue(t: SubTable, inv: Invoice, vendor: Vendor, clock: Clock)
    requires Truthy(inv.subscription)
    requires HandleWebhook(t, Signed(InvoicePaymentFailed(inv)), vendor, clock, Healthy).status == 200
    ensures var r := HandleWebhook(t, Signed(InvoicePaymentFailed(inv)), vendor, clock, Healthy);
            var id := inv.subscription.value;
            && r.table.Keys == t.Keys
            && (exists u :: Holders(t, id) == {u})
            && (forall u :: u in t ==>
                 r.table[u] == (if u in Holders(t, id) then t[u].(status := Some("past_due"), updatedAt := clock.now) else t[u]))
  {
    var id := inv.subscription.value;
    assert Dispatch(t, InvoicePaymentFailed(inv), vendor, clock, Healthy) == SetStatus(t, id, "past_due", clock, Healthy);
    var u := TheOne(Holders(t, id));
  }

  /** A status event for a subscription id that no row carries throws, and
      the response is 500 with nothing written. */
  lemma UnknownSubscriptionIs500(t: SubTable, e: Event, vendor: Vendor, clock: Clock)
    requires e.SubscriptionDeleted? || e.SubscriptionPaused? || e.SubscriptionResumed?
    requires Holders(t, e.subscription.id) == {}
    ensures HandleWebhook(t, Signed(e), vendor, clock, Healthy) == WebhookResponse(500, t)
  {
  }

  /** A renewal is written under the empty user id with status `active`. */
  lemma RenewalWritesEmptyUserRow(t: SubTable, inv: Invoice, s: StripeSubscription, vendor: Vendor, clock: Clock)
    requires IsRenewal(inv) && vendor.retrieveSubscription == Returned(s) && s.priceIds != []
    ensures var r := HandleWebhook(t, Signed(InvoicePaymentSucceeded(inv)), vendor, clock, Healthy);
            && r.status == 200
            && "" in r.table
            && r.table[""].userId == ""
            && r.table[""].status == Some("active")
            && (s.priceIds[0] != "" ==> r.table[""].stripePriceId == Some(s.priceIds[0]))
            && r.table[""].stripeCurrentPeriodEnd == Some(s.currentPeriodEnd * 1000)
            && forall u :: u in t && u != "" ==> r.table[u] == t[u]
  {
  }

  /** Processing the same event twice, at any two times, converges to the
      state after processing it once, except for the update time. */
  lemma {:induction false} WebhookIdempotent(t: SubTable, req: WebhookRequest, vendor: Vendor, c1: Clock, c2: Clock)
    requires WellKeyed(t)
    ensures var once := HandleWebhook(t, req, vendor, c1, Healthy).table;
            SameButUpdatedAt(HandleWebhook(once, req, vendor, c2, Healthy).table, once)
  {
    var once := HandleWebhook(t, req, vendor, c1, Healthy).table;
    var twice := HandleWebhook(once, req, vendor, c2, Healthy).table;
    if !Truthy(req.signature) || !Truthy(req.secret) || req.verified.None? {
      assert twice == once;
    } else {
      var e := req.verified.value;
      if e.Type() !in RelevantEvents {
        assert twice == once;
      } else {
        DispatchIdempotent(t, e, vendor, c1, c2);
      }
    }
  }

  /** The dispatcher's part of idempotence: a repeated event either fails
      the same way again, or repeats the same upsert or status write. */
  lemma DispatchIdempotent(t: SubTable, e: Event, vendor: Vendor, c1: Clock, c2: Clock)
    requires WellKeyed(t) && e.Type() in RelevantEvents
    ensures var h1 := Dispatch(t, e, vendor, c1, Healthy);
            var once := if h1.Done? then h1.table else t;
            var h2 := Dispatch(once, e, vendor, c2, Healthy);
            && (h1.Done? <==> h2.Done?)
            && (h2.Done? ==> SameButUpdatedAt(h2.table, once))
  {
    var h1 := Dispatch(t, e, vendor, c1, Healthy);
    var once := if h1.Done? then h1.table else t;
    match e
    case CheckoutSessionCompleted(cs) =>
      if IsSubscriptionCheckout(cs) && vendor.retrieveSubscription.Returned? && Truthy(cs.metadataUserId) {
        var s := vendor.retrieveSubscription.value;
        var args := SubscriptionArgs(cs.metadataUserId.value, cs.customer.value, s, s.status);
        if args.Some? { UpsertIdempotent(t, args.value, c1, c2); }
      }
    case SubscriptionCreated(s) => SubscriptionChangeIdempotent(t, s, vendor, c1, c2);
    case SubscriptionUpdated(s) => SubscriptionChangeIdempotent(t, s, vendor, c1, c2);
    case SubscriptionDeleted(s) => StatusIdempotent(t, s.id, "canceled", c1, c2);
    case SubscriptionPaused(s) => StatusIdempotent(t, s.id, "paused", c1, c2);
    case SubscriptionResumed(s) => StatusIdempotent(t, s.id, "active", c1, c2);
    case InvoicePaymentSucceeded(inv) =>
      if IsRenewal(inv) && vendor.retrieveSubscription.Returned? && vendor.retrieveSubscription.value.priceIds != [] {
        var s := vendor.retrieveSubscription.value;
        var args := UpsertArgs("", inv.customer.value, inv.subscription, Some(s.priceIds[0]),
                               Some(PeriodEndMillis(s.currentPeriodEnd)), Some("active"));
        UpsertIdempotent(t, args, c1, c2);
      }
    case InvoicePaymentFailed(inv) =>
      if Truthy(inv.subscription) { StatusIdempotent(t, inv.subscription.value, "past_due", c1, c2); }
    case OtherEvent(_) =>
  }

  lemma StatusIdempotent(t: SubTable, subId: string, status: string, c1: Clock, c2: Clock)
    ensures var h1 := SetStatus(t, subId, status, c1, Healthy);
            var once := if h1.Done? then h1.table else t;
            var h2 := SetStatus(once, subId, status, c2, Healthy);
            && (h1.Done? <==> h2.Done?)
            && (h2.Done? ==> SameButUpdatedAt(h2.table, once))
  {
    if UpdateSubscriptionStatus(t, subId, status, c1, Healthy).Success? {
      UpdateStatusIdempotent(t, subId, status, c1, c2);
    }
  }

  lemma SubscriptionChangeIdempotent(t: SubTable, s: StripeSubscription, vendor: Vendor, c1: Clock, c2: Clock)
    requires WellKeyed(t)
    ensures var h1 := HandleSubscriptionChange(t, s, vendor, c1, Healthy);
            var once := if h1.Done? then h1.table else t;
            var h2 := HandleSubscriptionChange(once, s, vendor, c2, Healthy);
            && (h1.Done? <==> h2.Done?)
            && (h2.Done? ==> SameButUpdatedAt(h2.table, once))
  {
    if vendor.retrieveCustomer.Returned? {
      var c := vendor.retrieveCustomer.value;
      if Truthy(c.metadataUserId) {
        var args := SubscriptionArgs(c.metadataUserId.value, s.customer, s, s.status);
        if args.Some? { UpsertIdempotent(t, args.value, c1, c2); }
      } else if Holders(t, s.id) != {} && AtMostOne(Holders(t, s.id)) {
        var u := TheOne(Holders(t, s.id));
        var args := SubscriptionArgs(t[u].userId, s.customer, s, s.status);
        if args.Some? {
          var once := CreateOrUpdateSubscription(t, args.value, c1, Healthy).value;
          HoldersAfterUpsert(t, args.value, c1, s.id, u);
          assert Holders(once, s.id) == Holders(t, s.id);
          assert TheOne(Holders(once, s.id)) == u;
          UpsertIdempotent(t, args.value, c1, c2);
        }
      }
    }
  }

  /** Upserting a holder's own row with the subscription id it already
      holds (or with a falsy one) keeps the set of holders. */
  lemma HoldersAfterUpsert(t: SubTable, a: UpsertArgs, clock: Clock, subId: string, u: UserId)
    requires u in t && Holders(t, subId) == {u} && a.userId == u
    requires a.stripeSubscriptionId == Some(subId) || !Truthy(a.stripeSubscriptionId)
    ensures Holders(CreateOrUpdateSubscription(t, a, clock, Healthy).value, subId) == {u}
  {
  }

  /** A `deleted` event followed by an `updated` event reporting status
      `active` for the same subscription leaves that subscription's row
      active: the later event wins. */
  lemma UpdateAfterDeleteWins(t: SubTable, deleted: StripeSubscription, updated: StripeSubscription,
                              v1: Vendor, v2: Vendor, c1: Clock, c2: Clock)
    requires WellKeyed(t)
    requires updated.id == deleted.id && updated.status == "active" && Complete(updated)
    requires HandleWebhook(t, Signed(SubscriptionDeleted(deleted)), v1, c1, Healthy).status == 200
    requires HandleWebhook(HandleWebhook(t, Signed(SubscriptionDeleted(deleted)), v1, c1, Healthy).table,
                           Signed(SubscriptionUpdated(updated)), v2, c2, Healthy).status == 200
    ensures var t1 := HandleWebhook(t, Signed(SubscriptionDeleted(deleted)), v1, c1, Healthy).table;
            var t2 := HandleWebhook(t1, Signed(SubscriptionUpdated(updated)), v2, c2, Healthy).table;
            exists u :: u in t2 && t2[u].stripeSubscriptionId == Some(deleted.id) && t2[u].status == Some("active")
  {
    var t1 := HandleWebhook(t, Signed(SubscriptionDeleted(deleted)), v1, c1, Healthy).table;
    var h := HandleSubscriptionChange(t1, updated, v2, c2, Healthy);
    assert h.Done?;
    var c := v2.retrieveCustomer.value;
    if Truthy(c.metadataUserId) {
      var u := c.metadataUserId.value;
      assert u in h.table && Reflects(h.table[u], updated.customer, updated, updated.status);
    } else {
      var w :| w in t1 && Holders(t1, updated.id) == {w} && OnlyRowOf(t1[w].userId, t1, h.table) &&
        (Complete(updated) ==> t1[w].userId in h.table && Reflects(h.table[t1[w].userId], updated.customer, updated, updated.status));
      var u := t1[w].userId;
      assert u in h.table && Reflects(h.table[u], updated.customer, updated, updated.status);
    }
  }
}
