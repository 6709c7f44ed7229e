/** The `subscriptions` table of lib/supabase/db.ts as a pure state
    transformer. The table is a map from the owning user's id to that user's
    row; every query that the query module sends to the database becomes a
    function of the map, an abstract clock and an injected fault. */
module Db {
  import opened Common

  type UserId = string

  /** One row of the `subscriptions` table. Optional columns are `None` when
      the database holds `null`; the period end is a time in milliseconds. */
  datatype Row = Row(
    id: string,
    userId: UserId,
    stripeCustomerId: string,
    stripeSubscriptionId: Option<string>,
    stripePriceId: Option<string>,
    stripeCurrentPeriodEnd: Option<int>,
    status: Option<string>,
    createdAt: int,
    updatedAt: int)

  type SubTable = map<UserId, Row>

  /** Every row is stored under the user id it carries. */
  predicate WellKeyed(t: SubTable) {
    forall u :: u in t ==> t[u].userId == u
  }

  /** A row of the `users` table. The table is a map from each user's `id`
      to the rest of the row, so a key is the user's id. */
  datatype UserRecord = UserRecord(email: string, role: Option<string>)

  /** Only `user`'s row may differ between the tables. */
  predicate OnlyRowOf(user: UserId, before: SubTable, after: SubTable) {
    && after.Keys <= before.Keys + {user}
    && before.Keys <= after.Keys
    && forall u :: u in before && u != user ==> after[u] == before[u]
  }

  /** The argument object of `createOrUpdateSubscription`; `None` is an
      omitted (undefined) field. A `Date` object is always truthy, so a
      present period end is always written. */
  datatype UpsertArgs = UpsertArgs(
    userId: UserId,
    stripeCustomerId: string,
    stripeSubscriptionId: Option<string>,
    stripePriceId: Option<string>,
    stripeCurrentPeriodEnd: Option<int>,
    status: Option<string>)

  /** `new Date()` at the time of the call, and the id the database assigns
      to a newly inserted row. */
  datatype Clock = Clock(now: int, freshId: string)

  /** Which queries of one request the database answers with an error. */
  datatype Fault = Healthy | LookupFails | WriteFails

  datatype DbError = QueryFailed | SubscriptionNotFound(subscriptionId: string) | NotSingle

  function Lookup(t: SubTable, u: UserId): Option<Row> {
    if u in t then Some(t[u]) else None
  }

  /** A conditionally spread string field: written only when truthy. */
  function Pick(given: Option<string>, stored: Option<string>): Option<string> {
    if Truthy(given) then given else stored
  }

  /** A conditionally spread date field: written whenever present. */
  function PickDate(given: Option<int>, stored: Option<int>): Option<int> {
    if given.Some? then given else stored
  }

  /** The row that the update (or the insert, when `prev` is `None`) leaves. */
  function Upserted(prev: Option<Row>, a: UpsertArgs, clock: Clock): Row {
    var base := prev.GetOr(Row(clock.freshId, a.userId, a.stripeCustomerId, None, None, None, None, clock.now, clock.now));
    Row(base.id, a.userId, a.stripeCustomerId,
        Pick(a.stripeSubscriptionId, base.stripeSubscriptionId),
        Pick(a.stripePriceId, base.stripePriceId),
        PickDate(a.stripeCurrentPeriodEnd, base.stripeCurrentPeriodEnd),
        Pick(a.status, base.status),
        base.createdAt, clock.now)
  }

  /** `createOrUpdateSubscription`: look the row up by user id (an error
      throws before anything is written), then update it in place or insert
      a new one. The customer id is always written; the four optional fields
      only when truthy. */
  function CreateOrUpdateSubscription(t: SubTable, a: UpsertArgs, clock: Clock, fault: Fault): (r: Result<SubTable, DbError>)
    ensures r.Success? <==> fault == Healthy
    ensures r.Failure? ==> r.error == QueryFailed
    ensures r.Success? ==> r.value.Keys == t.Keys + {a.userId}
    ensures r.Success? ==> forall u :: u in t && u != a.userId ==> r.value[u] == t[u]
    ensures r.Success? ==> r.value[a.userId].userId == a.userId
    ensures r.Success? ==> r.value[a.userId].stripeCustomerId == a.stripeCustomerId
    ensures r.Success? ==> r.value[a.userId].updatedAt == clock.now
    // an update keeps the row's identity and creation time; only an insert sets them
    ensures r.Success? && a.userId in t ==>
      r.value[a.userId].id == t[a.userId].id && r.value[a.userId].createdAt == t[a.userId].createdAt
    ensures r.Success? && a.userId !in t ==>
      r.value[a.userId].id == clock.freshId && r.value[a.userId].createdAt == clock.now
    // a truthy optional field overwrites the stored value
    ensures r.Success? && Truthy(a.stripeSubscriptionId) ==> r.value[a.userId].stripeSubscriptionId == a.stripeSubscriptionId
    ensures r.Success? && Truthy(a.stripePriceId) ==> r.value[a.userId].stripePriceId == a.stripePriceId
    ensures r.Success? && a.stripeCurrentPeriodEnd.Some? ==> r.value[a.userId].stripeCurrentPeriodEnd == a.stripeCurrentPeriodEnd
    ensures r.Success? && Truthy(a.status) ==> r.value[a.userId].status == a.status
    // a falsy one leaves the stored value (nothing, on an insert)
    ensures r.Success? && !Truthy(a.stripeSubscriptionId) ==>
      r.value[a.userId].stripeSubscriptionId == (if a.userId in t then t[a.userId].stripeSubscriptionId else None)
    ensures r.Success? && !Truthy(a.stripePriceId) ==>
      r.value[a.userId].stripePriceId == (if a.userId in t then t[a.userId].stripePriceId else None)
    ensures r.Success? && a.stripeCurrentPeriodEnd.None? ==>
      r.value[a.userId].stripeCurrentPeriodEnd == (if a.userId in t then t[a.userId].stripeCurrentPeriodEnd else None)
    ensures r.Success? && !Truthy(a.status) ==>
      r.value[a.userId].status == (if a.userId in t then t[a.userId].status else None)
    ensures r.Success? && WellKeyed(t) ==> WellKeyed(r.value)
  {
    match fault
    case LookupFails => Failure(QueryFailed)
    case WriteFails => Failure(QueryFailed)
    case Healthy => Success(t[a.userId := Upserted(Lookup(t, a.userId), a, clock)])
  }

  /** The users whose row carries subscription id `subId`. */
  function Holders(t: SubTable, subId: string): set<UserId> {
    set u | u in t && t[u].stripeSubscriptionId == Some(subId)
  }

  predicate AtMostOne<K>(s: set<K>) {
    forall a, b :: a in s && b in s ==> a == b
  }

  /** The element of a singleton set. */
  function TheOne<K>(s: set<K>): (k: K)
    requires s != {} && AtMostOne(s)
    ensures s == {k}
  {
    var k :| k in s; k
  }

  /** `getSubscriptionByStripeSubscriptionId`: a `maybeSingle` query, so no
      match gives `null` and more than one match is an error. */
  function GetSubscriptionByStripeSubscriptionId(t: SubTable, subId: string, fault: Fault): (r: Result<Option<Row>, DbError>)
    ensures fault == LookupFails ==> r == Failure(QueryFailed)
    ensures fault != LookupFails ==>
      (r == Success(None) <==> Holders(t, subId) == {})
    ensures fault != LookupFails ==>
      (r == Failure(NotSingle) <==> exists u, v :: u in Holders(t, subId) && v in Holders(t, subId) && u != v)
    ensures r.Success? && r.value.Some? ==>
      exists u :: u in t && Holders(t, subId) == {u} && t[u] == r.value.value
  {
    if fault == LookupFails then Failure(QueryFailed)
    else
      var holders := Holders(t, subId);
      if holders == {} then Success(None)
      else if AtMostOne(holders) then Success(Some(t[TheOne(holders)]))
      else Failure(NotSingle)
  }

  /** The status write of `updateSubscriptionStatus`: every row carrying the
      subscription id gets the new status and update time. */
  function SetStatusWhere(t: SubTable, subId: string, status: string, now: int): SubTable {
    map u | u in t :: if t[u].stripeSubscriptionId == Some(subId) then t[u].(status := Some(status), updatedAt := now) else t[u]
  }

  /** `updateSubscriptionStatus`: throws when no row (or more than one row)
      carries the subscription id, otherwise changes only `status` and
      `updated_at` of the matching row. */
  function UpdateSubscriptionStatus(t: SubTable, subId: string, status: string, clock: Clock, fault: Fault): (r: Result<SubTable, DbError>)
    ensures fault == Healthy && Holders(t, subId) == {} ==> r == Failure(SubscriptionNotFound(subId))
    ensures r.Success? <==> fault == Healthy && Holders(t, subId) != {} && AtMostOne(Holders(t, subId))
    ensures r.Success? ==> r.value.Keys == t.Keys
    ensures r.Success? ==> forall u :: u in t && u !in Holders(t, subId) ==> r.value[u] == t[u]
    ensures r.Success? ==> forall u :: u in Holders(t, subId) ==>
      r.value[u] == t[u].(status := Some(status), updatedAt := clock.now)
    ensures r.Success? && WellKeyed(t) ==> WellKeyed(r.value)
  {
    match GetSubscriptionByStripeSubscriptionId(t, subId, fault)
    case Failure(e) => Failure(e)
    case Success(None) => Failure(SubscriptionNotFound(subId))
    case Success(Some(_)) =>
      if fault == WriteFails then Failure(QueryFailed)
      else Success(SetStatusWhere(t, subId, status, clock.now))
  }

  /** Two tables that agree on everything except the update time. */
  predicate SameButUpdatedAt(a: SubTable, b: SubTable) {
    && a.Keys == b.Keys
    && forall u :: u in a ==> a[u].(updatedAt := 0) == b[u].(updatedAt := 0)
  }

  /** Repeating an upsert with the same arguments, at any later time,
      changes nothing but the update time. */
  lemma UpsertIdempotent(t: SubTable, a: UpsertArgs, c1: Clock, c2: Clock)
    ensures var once := CreateOrUpdateSubscription(t, a, c1, Healthy).value;
            && CreateOrUpdateSubscription(once, a, c2, Healthy).Success?
            && SameButUpdatedAt(CreateOrUpdateSubscription(once, a, c2, Healthy).value, once)
  {
  }

  /** Setting the same status twice is the same as setting it once, up to
      the update time. */
  lemma UpdateStatusIdempotent(t: SubTable, subId: string, status: string, c1: Clock, c2: Clock)
    requires UpdateSubscriptionStatus(t, subId, status, c1, Healthy).Success?
    ensures var once := UpdateSubscriptionStatus(t, subId, status, c1, Healthy).value;
            && UpdateSubscriptionStatus(once, subId, status, c2, Healthy).Success?
            && SameButUpdatedAt(UpdateSubscriptionStatus(once, subId, status, c2, Healthy).value, once)
  {
    var once := UpdateSubscriptionStatus(t, subId, status, c1, Healthy).value;
    assert Holders(once, subId) == Holders(t, subId);
  }
}
