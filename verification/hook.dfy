/** The client subscription context of hooks/use-subscription.tsx: the
    entitlement predicate `isSubscribed`, the state change one
    `fetchSubscription` makes, and whether the provider fetches on mount.
    React state becomes an explicit record; the toast becomes a flag. */
module Hook {
  import opened Common
  import opened Db
  import opened SubscriptionRoute

  /** The provider's state. */
  datatype HookState = HookState(subscription: Option<ClientSubscription>, isLoading: bool)

  /** The first state: the subscription the page passed in, not loading. */
  function Initial(initialSubscription: Option<ClientSubscription>): (s: HookState)
    ensures s.subscription == initialSubscription && !s.isLoading
  {
    HookState(initialSubscription, false)
  }

  /** The mount effect fetches only when an initial subscription was given. */
  predicate ShouldFetchOnMount(initialSubscription: Option<ClientSubscription>) {
    initialSubscription.Some?
  }

  /** The state once the mount effect has run: fetched when an initial
      subscription was given, and left as initialized otherwise, whatever
      the endpoint would have answered. */
  function AfterMount(initialSubscription: Option<ClientSubscription>, outcome: FetchOutcome): (s: HookState)
    ensures initialSubscription.None? ==> s == HookState(None, false)
    ensures initialSubscription.Some? ==> s == FetchSubscription(Initial(initialSubscription), outcome).state
    // with an initial subscription, a readable 2xx answer replaces it and
    // any other outcome keeps it
    ensures initialSubscription.Some? ==>
      s.subscription == (if outcome.Answered? && Ok(outcome.status) && outcome.body.Parsed? then outcome.body.value
                         else initialSubscription)
    ensures !s.isLoading
  {
    if ShouldFetchOnMount(initialSubscription) then FetchSubscription(Initial(initialSubscription), outcome).state
    else Initial(initialSubscription)
  }

  /** A subscription status that grants access. */
  predicate GrantsAccess(status: Option<string>) {
    status == Some("active") || status == Some("trialing")
  }

  /** `isSubscribed`: a subscription id, a period end later than `now`, and
      an active or trialing status, all at once. */
  predicate IsSubscribed(sub: Option<ClientSubscription>, now: int) {
    && sub.Some?
    && Truthy(sub.value.stripeSubscriptionId)
    && sub.value.stripeCurrentPeriodEnd.Some?
    && sub.value.stripeCurrentPeriodEnd.value > now
    && GrantsAccess(sub.value.status)
  }

  /** No subscription, and a canceled or past-due one however long its
      period still runs, is not an entitlement. */
  lemma NotSubscribedWithoutGrant(sub: ClientSubscription, now: int)
    ensures !IsSubscribed(None, now)
    ensures sub.status == Some("canceled") || sub.status == Some("past_due") ==> !IsSubscribed(Some(sub), now)
  {
  }

  /** An entitlement lasts from any earlier moment until the period end and
      not a moment longer. */
  lemma EntitlementInterval(sub: ClientSubscription, now: int, earlier: int)
    requires IsSubscribed(Some(sub), now) && earlier <= now
    ensures IsSubscribed(Some(sub), earlier)
    ensures forall later :: later >= sub.stripeCurrentPeriodEnd.value ==> !IsSubscribed(Some(sub), later)
  {
  }

  /** The body of a response, as `response.json()` reads it. */
  datatype Body = Parsed(value: Option<ClientSubscription>) | Unparseable

  /** What the `fetch('/api/subscription')` call produced. */
  datatype FetchOutcome = Answered(status: int, body: Body) | NetworkError(message: string)

  /** The state after the fetch and whether an error toast was raised. */
  datatype Fetched = Fetched(state: HookState, toast: bool)

  predicate Ok(status: int) { 200 <= status < 300 }

  /** `fetchSubscription`: a 2xx answer with a readable body replaces the
      subscription; a 401 returns early without a toast; every other
      failure is caught and raises a toast unless its message is
      'Unauthorized'. Loading is off afterwards in every case. */
  function FetchSubscription(s: HookState, outcome: FetchOutcome): (r: Fetched)
    ensures !r.state.isLoading
    ensures r.state.subscription != s.subscription ==>
      outcome.Answered? && Ok(outcome.status) && outcome.body.Parsed? && r.state.subscription == outcome.body.value
    ensures outcome.Answered? && Ok(outcome.status) && outcome.body.Parsed? ==>
      r == Fetched(HookState(outcome.body.value, false), false)
    ensures outcome.Answered? && outcome.status == 401 ==> r == Fetched(s.(isLoading := false), false)
    ensures outcome.Answered? && !Ok(outcome.status) && outcome.status != 401 ==> r == Fetched(s.(isLoading := false), true)
    ensures outcome.Answered? && Ok(outcome.status) && outcome.body.Unparseable? ==> r == Fetched(s.(isLoading := false), true)
    ensures outcome.NetworkError? ==> r == Fetched(s.(isLoading := false), outcome.message != "Unauthorized")
  {
    var loading := s.(isLoading := true);
    var done := loading.(isLoading := false);
    match outcome
    case NetworkError(message) => Fetched(done, message != "Unauthorized")
    case Answered(status, body) =>
      if !Ok(status) then
        if status == 401 then Fetched(done, false)
        else Fetched(done, true)
      else
        match body
        case Unparseable => Fetched(done, true)
        case Parsed(v) => Fetched(done.(subscription := v), false)
  }

  /** A fetch from the read endpoint always lands: the state then holds
      exactly what the endpoint answered, and no toast is raised. */
  lemma FetchFromEndpoint(s: HookState, t: SubTable, auth: AuthReply, fault: Fault)
    ensures var answer := SubscriptionGet(t, auth, fault);
            FetchSubscription(s, Answered(answer.status, Parsed(answer.body)))
              == Fetched(HookState(answer.body, false), false)
  {
  }

  /** After a fetch from the read endpoint, the user is entitled exactly when
      they are signed in and their stored row has a subscription id, a
      period end after `now` and an active or trialing status. */
  lemma EntitledAfterFetch(s: HookState, t: SubTable, auth: AuthReply, now: int)
    ensures var answer := SubscriptionGet(t, auth, Healthy);
            var after := FetchSubscription(s, Answered(answer.status, Parsed(answer.body))).state;
            IsSubscribed(after.subscription, now) <==>
              && Authenticated(auth) && auth.userId.value in t
              && var row := t[auth.userId.value];
                 Truthy(row.stripeSubscriptionId) && row.stripeCurrentPeriodEnd.Some?
                 && row.stripeCurrentPeriodEnd.value > now && GrantsAccess(row.status)
  {
    FetchFromEndpoint(s, t, auth, Healthy);
  }
}
