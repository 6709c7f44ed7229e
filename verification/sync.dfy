/** The manual and administrative subscription sync of
    app/api/stripe/sync-subscription/route.ts: `POST` for a signed-in user
    (or an admin acting for another user) and `GET` guarded by an API key.
    Both pull subscriptions from the payment processor and upsert them into
    the target user's row. */
module Sync {
  import opened Common
  import opened Db
  import opened Processor
  import opened Session

  /** The parsed JSON body of `POST`. */
  datatype SyncBody = SyncBody(userId: Option<string>, stripeSubscriptionId: Option<string>)

  /** Status, table afterwards, and the target's row read back for a 200
      that synced something. */
  datatype SyncResponse = SyncResponse(status: int, table: SubTable, synced: Option<Row>)

  /** A fold that may throw part-way: the table as the writes done so far
      left it, and whether every write succeeded. */
  datatype Partial = Partial(table: SubTable, ok: bool)

  /** Whether every listed subscription has a priced item. */
  predicate AllPriced(subs: seq<StripeSubscription>) {
    forall i :: 0 <= i < |subs| ==> subs[i].priceIds != []
  }

  /** The loop `for (const subscription of subscriptions.data)`: one upsert
      of the same user's row per listed subscription, in list order. A
      throwing iteration stops the loop with the earlier writes in place. */
  function UpsertAll(t: SubTable, userId: UserId, customerId: string, subs: seq<StripeSubscription>,
                     clock: Clock, fault: Fault): (r: Partial)
    ensures r.ok <==> AllPriced(subs) && (subs == [] || fault == Healthy)
    ensures OnlyRowOf(userId, t, r.table)
    ensures subs != [] && r.ok ==> userId in r.table && r.table[userId].stripeCustomerId == customerId
    ensures WellKeyed(t) ==> WellKeyed(r.table)
    decreases |subs|
  {
    if subs == [] then Partial(t, true)
    else
      match SubscriptionArgs(userId, customerId, subs[0], subs[0].status)
      case None => Partial(t, false)
      case Some(a) =>
        match CreateOrUpdateSubscription(t, a, clock, fault)
        case Failure(_) => Partial(t, false)
        case Success(t') =>
          var r := UpsertAll(t', userId, customerId, subs[1..], clock, fault);
          assert AllPriced(subs) <==> AllPriced(subs[1..]) by {
            assert forall i :: 1 <= i < |subs| ==> subs[i] == subs[1..][i - 1];
          }
          r
  }

  /** Syncing a list upserts the same row once per entry, so the row ends up
      reflecting the last listed subscription. */
  lemma {:induction false} UpsertAllLastWins(t: SubTable, userId: UserId, customerId: string,
                                             subs: seq<StripeSubscription>, clock: Clock)
    requires subs != []
    requires forall i :: 0 <= i < |subs| ==> Complete(subs[i])
    ensures var r := UpsertAll(t, userId, customerId, subs, clock, Healthy);
            var last := subs[|subs| - 1];
            r.ok && userId in r.table && Reflects(r.table[userId], customerId, last, last.status)
    decreases |subs|
  {
    var a := SubscriptionArgs(userId, customerId, subs[0], subs[0].status).value;
    var t' := CreateOrUpdateSubscription(t, a, clock, Healthy).value;
    if |subs| == 1 {
      UpsertReflects(t, userId, customerId, subs[0], subs[0].status, clock);
      assert subs[1..] == [];
    } else {
      assert forall i :: 0 <= i < |subs[1..]| ==> subs[1..][i] == subs[i + 1];
      UpsertAllLastWins(t', userId, customerId, subs[1..], clock);
      assert subs[1..][|subs[1..]| - 1] == subs[|subs| - 1];
    }
  }

  /** The caller is an admin: the `users` row of the session user says so.
      A failed lookup reads as no row. */
  predicate IsAdmin(users: map<UserId, UserRecord>, me: UserId, fault: Fault) {
    fault != LookupFails && me in users && users[me].role == Some("admin")
  }

  /** `userId || session.user.id`. */
  function SyncTarget(me: UserId, body: SyncBody): UserId {
    if Truthy(body.userId) then body.userId.value else me
  }

  /** The target's stored row, read with `maybeSingle` whose error the
      handler ignores. */
  function StoredRow(t: SubTable, user: UserId, fault: Fault): Option<Row> {
    if fault == LookupFails then None else Lookup(t, user)
  }

  /** The closing read of `POST`: the row as stored after the writes. */
  function ReadBack(t: SubTable, user: UserId, fault: Fault): SyncResponse {
    SyncResponse(200, t, StoredRow(t, user, fault))
  }

  /** `POST`: 401 without a full session user; 403 when the body names
      another user and the caller is not an admin; then either the one
      named subscription or every subscription listed for the stored
      customer is upserted into the target's row. */
  function SyncPost(users: map<UserId, UserRecord>, t: SubTable, session: Option<SessionUser>, body: Option<SyncBody>,
                    vendor: Vendor, clock: Clock, fault: Fault): (r: SyncResponse)
    ensures !ValidSession(session) ==> r == SyncResponse(401, t, None)
    ensures r.status == 403 <==>
      && ValidSession(session) && body.Some?
      && Truthy(body.value.userId) && body.value.userId.value != session.value.id.value
      && !IsAdmin(users, session.value.id.value, fault)
    ensures r.status == 403 ==> r.table == t
    ensures r.status == 404 <==>
      && ValidSession(session) && body.Some? && r.status != 403
      && !Truthy(body.value.stripeSubscriptionId)
      && var stored := StoredRow(t, SyncTarget(session.value.id.value, body.value), fault);
         stored.None? || stored.value.stripeCustomerId == ""
    ensures r.status == 404 ==> r.table == t
    ensures r.status == 200 || r.status == 401 || r.status == 403 || r.status == 404 || r.status == 500
    ensures ValidSession(session) && body.Some? ==>
      OnlyRowOf(SyncTarget(session.value.id.value, body.value), t, r.table)
    ensures WellKeyed(t) ==> WellKeyed(r.table)
  {
    if !ValidSession(session) then SyncResponse(401, t, None)
    else
      match body
      case None => SyncResponse(500, t, None)
      case Some(b) =>
        var me := session.value.id.value;
        if Truthy(b.userId) && b.userId.value != me && !IsAdmin(users, me, fault) then SyncResponse(403, t, None)
        else
          var target := SyncTarget(me, b);
          if Truthy(b.stripeSubscriptionId) then
            match vendor.retrieveSubscription
            case Threw => SyncResponse(500, t, None)
            case Returned(s) =>
              match vendor.retrieveCustomer
              case Threw => SyncResponse(500, t, None)
              case Returned(_) =>
                match SubscriptionArgs(target, s.customer, s, s.status)
                case None => SyncResponse(500, t, None)
                case Some(a) =>
                  match CreateOrUpdateSubscription(t, a, clock, fault)
                  case Failure(_) => SyncResponse(500, t, None)
                  case Success(t') => ReadBack(t', target, fault)
          else
            var stored := StoredRow(t, target, fault);
            if stored.None? || stored.value.stripeCustomerId == "" then SyncResponse(404, t, None)
            else
              var customerId := stored.value.stripeCustomerId;
              match vendor.listSubscriptions
              case Threw => SyncResponse(500, t, None)
              case Returned(subs) =>
                if subs == [] then SyncResponse(200, t, None)
                else
                  var p := UpsertAll(t, target, customerId, subs, clock, fault);
                  if p.ok then ReadBack(p.table, target, fault) else SyncResponse(500, p.table, None)
  }

  /** A sync of one named, complete subscription returns the target's row
      reflecting it, with the period end converted from seconds to
      milliseconds. */
  lemma SyncPostNamedSubscription(users: map<UserId, UserRecord>, t: SubTable, session: Option<SessionUser>, b: SyncBody,
                                  s: StripeSubscription, vendor: Vendor, clock: Clock)
    requires ValidSession(session) && Truthy(b.stripeSubscriptionId)
    requires !Truthy(b.userId) || b.userId.value == session.value.id.value || IsAdmin(users, session.value.id.value, Healthy)
    requires vendor.retrieveSubscription == Returned(s) && vendor.retrieveCustomer.Returned? && Complete(s)
    ensures var r := SyncPost(users, t, session, Some(b), vendor, clock, Healthy);
            && r.status == 200
            && r.synced.Some?
            && r.synced.value.userId == SyncTarget(session.value.id.value, b)
            && Reflects(r.synced.value, s.customer, s, s.status)
            && r.synced.value.stripeCurrentPeriodEnd == Some(s.currentPeriodEnd * 1000)
  {
    UpsertReflects(t, SyncTarget(session.value.id.value, b), s.customer, s, s.status, clock);
  }

  /** A sync of the stored customer's list returns the row reflecting the
      last listed subscription. */
  lemma SyncPostListedSubscriptions(users: map<UserId, UserRecord>, t: SubTable, session: Option<SessionUser>, b: SyncBody,
                                    subs: seq<StripeSubscription>, vendor: Vendor, clock: Clock)
    requires ValidSession(session) && !Truthy(b.stripeSubscriptionId)
    requires !Truthy(b.userId) || b.userId.value == session.value.id.value || IsAdmin(users, session.value.id.value, Healthy)
    requires SyncTarget(session.value.id.value, b) in t && t[SyncTarget(session.value.id.value, b)].stripeCustomerId != ""
    requires vendor.listSubscriptions == Returned(subs) && subs != []
    requires forall i :: 0 <= i < |subs| ==> Complete(subs[i])
    ensures var r := SyncPost(users, t, session, Some(b), vendor, clock, Healthy);
            var last := subs[|subs| - 1];
            var target := SyncTarget(session.value.id.value, b);
            && r.status == 200
            && r.synced.Some?
            && Reflects(r.synced.value, t[target].stripeCustomerId, last, last.status)
  {
    var target := SyncTarget(session.value.id.value, b);
    UpsertAllLastWins(t, target, t[target].stripeCustomerId, subs, clock);
  }

  /** The query string of `GET`. */
  datatype AdminQuery = AdminQuery(email: Option<string>, subscriptionId: Option<string>, apiKey: Option<string>)

  datatype AdminResponse = AdminResponse(status: int, table: SubTable)

  /** `apiKey !== process.env.ADMIN_API_KEY`: an absent query parameter is
      `null` and an unset variable `undefined`, so the two only match when
      both are present and equal. */
  predicate KeyMatches(apiKey: Option<string>, adminKey: Option<string>) {
    apiKey.Some? && adminKey.Some? && apiKey.value == adminKey.value
  }

  /** The ids of the users with this email. */
  function UsersWithEmail(users: map<UserId, UserRecord>, email: string): set<UserId> {
    set u | u in users && users[u].email == email
  }

  /** The user with this email, read with `single`: exactly one matching
      row, else `null` (the handler ignores the query's error). */
  function UserByEmail(users: map<UserId, UserRecord>, email: Option<string>, fault: Fault): (r: Option<UserId>)
    ensures r.Some? <==> fault != LookupFails && email.Some? && exists u :: UsersWithEmail(users, email.value) == {u}
    ensures r.Some? ==> UsersWithEmail(users, email.value) == {r.value}
  {
    if fault == LookupFails || email.None? then None
    else
      var ids := UsersWithEmail(users, email.value);
      if ids != {} && AtMostOne(ids) then Some(TheOne(ids)) else None
  }

  /** The listing-and-upsert tail shared by both email sub-branches. */
  function SyncListed(t: SubTable, user: UserId, customerId: string, vendor: Vendor, clock: Clock, fault: Fault): (r: AdminResponse)
    ensures OnlyRowOf(user, t, r.table)
    ensures vendor.listSubscriptions.Threw? ==> r == AdminResponse(500, t)
    ensures vendor.listSubscriptions == Returned([]) ==> r == AdminResponse(200, t)
    // a non-empty list is upserted entry by entry; 200 iff every write went through
    ensures vendor.listSubscriptions.Returned? && vendor.listSubscriptions.value != [] ==>
      var subs := vendor.listSubscriptions.value;
      && r.table == UpsertAll(t, user, customerId, subs, clock, fault).table
      && (r.status == 200 <==> AllPriced(subs) && fault == Healthy)
      && (r.status != 200 ==> r.status == 500)
      && (r.status == 200 ==> user in r.table && r.table[user].stripeCustomerId == customerId)
    ensures WellKeyed(t) ==> WellKeyed(r.table)
  {
    match vendor.listSubscriptions
    case Threw => AdminResponse(500, t)
    case Returned(subs) =>
      if subs == [] then AdminResponse(200, t)
      else
        var p := UpsertAll(t, user, customerId, subs, clock, fault);
        AdminResponse(if p.ok then 200 else 500, p.table)
  }

  /** A healthy sync of a list of complete subscriptions answers 200 and
      leaves the user's row reflecting the last one listed. */
  lemma SyncListedLastWins(t: SubTable, user: UserId, customerId: string, vendor: Vendor, clock: Clock)
    requires vendor.listSubscriptions.Returned? && vendor.listSubscriptions.value != []
    requires forall i :: 0 <= i < |vendor.listSubscriptions.value| ==> Complete(vendor.listSubscriptions.value[i])
    ensures var r := SyncListed(t, user, customerId, vendor, clock, Healthy);
            var subs := vendor.listSubscriptions.value;
            var last := subs[|subs| - 1];
            && r.status == 200
            && user in r.table
            && Reflects(r.table[user], customerId, last, last.status)
  {
    UpsertAllLastWins(t, user, customerId, vendor.listSubscriptions.value, clock);
  }

  /** `GET`: the API key is checked before anything else (401); a request
      naming neither email nor subscription id is 400. By email, a user
      without a stored customer id first gets a customer-only row for the
      processor's customer with that email, then every listed subscription
      is upserted. By subscription id, the processor customer's email names
      the user. */
  function SyncGet(users: map<UserId, UserRecord>, t: SubTable, q: AdminQuery, adminKey: Option<string>,
                   vendor: Vendor, clock: Clock, fault: Fault): (r: AdminResponse)
    ensures !KeyMatches(q.apiKey, adminKey) ==> r == AdminResponse(401, t)
    ensures KeyMatches(q.apiKey, adminKey) && !Truthy(q.email) && !Truthy(q.subscriptionId) ==> r == AdminResponse(400, t)
    ensures r.status == 200 || r.status == 400 || r.status == 401 || r.status == 404 || r.status == 500
    ensures r.status == 404 ==> r.table == t
    // by email: only the row of the one user with that email may change, and
    // a 200 leaves it with the stored customer, or else the processor's
    // first customer with that email
    ensures KeyMatches(q.apiKey, adminKey) && Truthy(q.email) ==>
      match UserByEmail(users, q.email, fault)
      case None => r == AdminResponse(404, t)
      case Some(user) =>
        && OnlyRowOf(user, t, r.table)
        && (r.status == 200 ==>
             && user in r.table
             && var stored := StoredRow(t, user, fault);
                if stored.Some? && stored.value.stripeCustomerId != "" then
                  r.table[user].stripeCustomerId == stored.value.stripeCustomerId
                else
                  && vendor.listCustomers.Returned? && vendor.listCustomers.value != []
                  && r.table[user].stripeCustomerId == vendor.listCustomers.value[0].id)
    // by email, the found user's listed subscriptions are synced: from the
    // stored customer, or else after a customer-only row for the
    // processor's first customer with that email
    ensures KeyMatches(q.apiKey, adminKey) && Truthy(q.email) && UserByEmail(users, q.email, fault).Some? ==>
      var user := UserByEmail(users, q.email, fault).value;
      var stored := StoredRow(t, user, fault);
      if stored.Some? && stored.value.stripeCustomerId != "" then
        r == SyncListed(t, user, stored.value.stripeCustomerId, vendor, clock, fault)
      else if vendor.listCustomers.Threw? then r == AdminResponse(500, t)
      else if vendor.listCustomers.value == [] then r == AdminResponse(404, t)
      else
        var customerId := vendor.listCustomers.value[0].id;
        var created := CreateOrUpdateSubscription(t, UpsertArgs(user, customerId, None, None, None, None), clock, fault);
        if created.Failure? then r == AdminResponse(500, t)
        else r == SyncListed(created.value, user, customerId, vendor, clock, fault)
    // by subscription id: only the row of the one user with the processor
    // customer's email may change, and a 200 writes the subscription there
    ensures KeyMatches(q.apiKey, adminKey) && !Truthy(q.email) && Truthy(q.subscriptionId) ==>
      if vendor.retrieveSubscription.Threw? || vendor.retrieveCustomer.Threw? then r == AdminResponse(500, t)
      else
        var s := vendor.retrieveSubscription.value;
        match UserByEmail(users, vendor.retrieveCustomer.value.email, fault)
        case None => r == AdminResponse(404, t)
        case Some(user) =>
          && OnlyRowOf(user, t, r.table)
          && (r.status == 200 <==> s.priceIds != [] && fault == Healthy)
          && (r.status != 200 ==> r == AdminResponse(500, t))
          && (r.status == 200 && Complete(s) ==> user in r.table && Reflects(r.table[user], s.customer, s, s.status))
    ensures r.table == t || exists u :: OnlyRowOf(u, t, r.table)
    ensures WellKeyed(t) ==> WellKeyed(r.table)
  {
    if !KeyMatches(q.apiKey, adminKey) then AdminResponse(401, t)
    else if !Truthy(q.email) && !Truthy(q.subscriptionId) then AdminResponse(400, t)
    else if Truthy(q.email) then
      match UserByEmail(users, q.email, fault)
      case None => AdminResponse(404, t)
      case Some(user) =>
        var stored := StoredRow(t, user, fault);
        if stored.None? || stored.value.stripeCustomerId == "" then
          match vendor.listCustomers
          case Threw => AdminResponse(500, t)
          case Returned(customers) =>
            if customers == [] then AdminResponse(404, t)
            else
              var customerId := customers[0].id;
              match CreateOrUpdateSubscription(t, UpsertArgs(user, customerId, None, None, None, None), clock, fault)
              case Failure(_) => AdminResponse(500, t)
              case Success(t1) =>
                var r := SyncListed(t1, user, customerId, vendor, clock, fault);
                assert OnlyRowOf(user, t, r.table);
                r
        else
          var r := SyncListed(t, user, stored.value.stripeCustomerId, vendor, clock, fault);
          assert OnlyRowOf(user, t, r.table);
          r
    else
      match vendor.retrieveSubscription
      case Threw => AdminResponse(500, t)
      case Returned(s) =>
        match vendor.retrieveCustomer
        case Threw => AdminResponse(500, t)
        case Returned(c) =>
          match UserByEmail(users, c.email, fault)
          case None => AdminResponse(404, t)
          case Some(user) =>
            match SubscriptionArgs(user, s.customer, s, s.status)
            case None => AdminResponse(500, t)
            case Some(a) =>
              match CreateOrUpdateSubscription(t, a, clock, fault)
              case Failure(_) => AdminResponse(500, t)
              case Success(t') =>
                assert OnlyRowOf(user, t, t');
                AdminResponse(200, t')
  }

  /** By subscription id, a complete subscription whose customer's email
      belongs to exactly one user is written to that user's row: 200, and
      the row reflects the subscription with the period end in
      milliseconds. */
  lemma SyncGetBySubscriptionId(users: map<UserId, UserRecord>, t: SubTable, q: AdminQuery, adminKey: Option<string>,
                                vendor: Vendor, clock: Clock, s: StripeSubscription, user: UserId)
    requires KeyMatches(q.apiKey, adminKey) && !Truthy(q.email) && Truthy(q.subscriptionId)
    requires vendor.retrieveSubscription == Returned(s) && Complete(s) && vendor.retrieveCustomer.Returned?
    requires UserByEmail(users, vendor.retrieveCustomer.value.email, Healthy) == Some(user)
    ensures var r := SyncGet(users, t, q, adminKey, vendor, clock, Healthy);
            && r.status == 200
            && user in r.table
            && Reflects(r.table[user], s.customer, s, s.status)
            && r.table[user].stripeCurrentPeriodEnd == Some(s.currentPeriodEnd * 1000)
  {
    UpsertReflects(t, user, s.customer, s, s.status, clock);
  }

  /** By email, a healthy sync of a user with a stored customer and a list
      of complete subscriptions answers 200 and leaves the user's row
      reflecting the last one listed. */
  lemma SyncGetByEmailLastWins(users: map<UserId, UserRecord>, t: SubTable, q: AdminQuery, adminKey: Option<string>,
                               vendor: Vendor, clock: Clock, user: UserId)
    requires KeyMatches(q.apiKey, adminKey) && Truthy(q.email)
    requires UserByEmail(users, q.email, Healthy) == Some(user) && user in t && t[user].stripeCustomerId != ""
    requires vendor.listSubscriptions.Returned? && vendor.listSubscriptions.value != []
    requires forall i :: 0 <= i < |vendor.listSubscriptions.value| ==> Complete(vendor.listSubscriptions.value[i])
    ensures var r := SyncGet(users, t, q, adminKey, vendor, clock, Healthy);
            var subs := vendor.listSubscriptions.value;
            var last := subs[|subs| - 1];
            && r.status == 200
            && user in r.table
            && Reflects(r.table[user], t[user].stripeCustomerId, last, last.status)
  {
    SyncListedLastWins(t, user, t[user].stripeCustomerId, vendor, clock);
  }

  /** By email, a user with no row and a processor customer found by email
      gets a customer-only row before the subscription list is consulted:
      even when the list is empty or the listing throws, the row exists and
      carries that customer and no subscription fields. */
  lemma SyncGetCreatesCustomerRow(users: map<UserId, UserRecord>, t: SubTable, q: AdminQuery, adminKey: Option<string>,
                                  vendor: Vendor, clock: Clock, user: UserId, customers: seq<StripeCustomer>)
    requires KeyMatches(q.apiKey, adminKey) && Truthy(q.email)
    requires UserByEmail(users, q.email, Healthy) == Some(user) && user !in t
    requires vendor.listCustomers == Returned(customers) && customers != []
    requires vendor.listSubscriptions.Threw? || vendor.listSubscriptions == Returned([])
    ensures var r := SyncGet(users, t, q, adminKey, vendor, clock, Healthy);
            && user in r.table
            && r.table[user].stripeCustomerId == customers[0].id
            && r.table[user].stripeSubscriptionId.None?
            && r.table[user].stripePriceId.None?
            && r.table[user].status.None?
  {
  }
}
