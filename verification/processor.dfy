/** The payment processor as seen by the handlers: the objects its API
    returns, the replies a request receives, and the mapping from a
    processor subscription to the upsert arguments every writer builds. */
module Processor {
  import opened Common
  import opened Db

  /** A processor subscription. `priceIds` lists the price of each item in
      order; `currentPeriodEnd` is in seconds since the epoch. */
  datatype StripeSubscription = StripeSubscription(
    id: string,
    customer: string,
    priceIds: seq<string>,
    currentPeriodEnd: int,
    status: string)

  datatype StripeCustomer = StripeCustomer(id: string, email: Option<string>, metadataUserId: Option<string>)

  /** The processor's answer to each kind of call one request makes (a
      request makes each kind of call at most once). */
  datatype Vendor = Vendor(
    retrieveSubscription: Reply<StripeSubscription>,
    retrieveCustomer: Reply<StripeCustomer>,
    listCustomers: Reply<seq<StripeCustomer>>,
    listSubscriptions: Reply<seq<StripeSubscription>>)

  /** `new Date(seconds * 1000)`: the stored period end in milliseconds. */
  function PeriodEndMillis(seconds: int): (ms: int)
    ensures ms / 1000 == seconds && ms % 1000 == 0
  {
    seconds * 1000
  }

  /** The upsert every writer builds from a processor subscription. Reading
      `items.data[0].price.id` throws when the subscription has no item,
      which the `None` result stands for. */
  function SubscriptionArgs(userId: UserId, customerId: string, s: StripeSubscription, status: string): (r: Option<UpsertArgs>)
    ensures r.None? <==> s.priceIds == []
    ensures r.Some? ==> r.value.userId == userId && r.value.stripeCustomerId == customerId
    ensures r.Some? ==> r.value.stripeSubscriptionId == Some(s.id) && r.value.stripePriceId == Some(s.priceIds[0])
    ensures r.Some? ==> r.value.stripeCurrentPeriodEnd == Some(s.currentPeriodEnd * 1000) && r.value.status == Some(status)
  {
    if s.priceIds == [] then None
    else Some(UpsertArgs(userId, customerId, Some(s.id), Some(s.priceIds[0]),
                         Some(PeriodEndMillis(s.currentPeriodEnd)), Some(status)))
  }

  /** What the processor always delivers: non-empty ids and status and at
      least one priced item. */
  predicate Complete(s: StripeSubscription) {
    s.id != "" && s.priceIds != [] && s.priceIds[0] != "" && s.status != ""
  }

  /** The row carries customer `customerId` and the subscription, price,
      period end of `s`, with status `status`. */
  predicate Reflects(row: Row, customerId: string, s: StripeSubscription, status: string)
    requires s.priceIds != []
  {
    && row.stripeCustomerId == customerId
    && row.stripeSubscriptionId == Some(s.id)
    && row.stripePriceId == Some(s.priceIds[0])
    && row.stripeCurrentPeriodEnd == Some(s.currentPeriodEnd * 1000)
    && row.status == Some(status)
  }

  /** Upserting the arguments built from a complete subscription leaves a
      row that reflects it, whatever the row held before. */
  lemma UpsertReflects(t: SubTable, userId: UserId, customerId: string, s: StripeSubscription, status: string, clock: Clock)
    requires Complete(s) && status != ""
    ensures SubscriptionArgs(userId, customerId, s, status).Some?
    ensures var r := CreateOrUpdateSubscription(t, SubscriptionArgs(userId, customerId, s, status).value, clock, Healthy);
            r.Success? && userId in r.value && Reflects(r.value[userId], customerId, s, status)
  {
  }
}
