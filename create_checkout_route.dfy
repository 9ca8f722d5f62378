/** app/api/stripe/create-checkout/route.ts: the `POST` guard chain (payments
    switched on, a known tier, a configured price) and the checkout session
    it asks the payment provider for. */
module CreateCheckoutRoute {
  import opened Common

  const DefaultAppUrl: string := "https://faightclub.com"

  /** The environment variables the route reads. */
  datatype Env = Env(paymentsEnabled: Option<string>, appUrl: Option<string>,
                     proPrice: Option<string>, builderPrice: Option<string>, sponsorPrice: Option<string>)

  datatype Mode = Subscription | Payment

  datatype LineItem = LineItem(price: string, quantity: nat)

  /** The parameters of `stripe.checkout.sessions.create`.
      `customerCreation` is `Some("always")` or left out, and
      `paymentIntentData` says whether `payment_intent_data` is present. */
  datatype SessionParams = SessionParams(mode: Mode, lineItems: seq<LineItem>, successUrl: string,
                                         cancelUrl: string, customerCreation: Option<string>,
                                         paymentIntentData: bool)

  /** The answers of `POST`: the session's URL, or an error with its status. */
  datatype CheckoutReply = Redirect(url: Option<string>) | Refused(status: int, error: string)

  /** `APP_URL`. */
  function AppUrl(env: Env): string
  {
    Trim(OrElse(env.appUrl, DefaultAppUrl))
  }

  predicate KnownTier(tier: string)
  {
    tier == "pro" || tier == "builder" || tier == "sponsor"
  }

  /** `PRICE_IDS[tier]`, trimmed. */
  function PriceId(env: Env, tier: string): Option<string>
    requires KnownTier(tier)
  {
    if tier == "pro" then TrimOpt(env.proPrice)
    else if tier == "builder" then TrimOpt(env.builderPrice)
    else TrimOpt(env.sponsorPrice)
  }

  /** `SUBSCRIPTION_TIERS.includes(tier)`. */
  predicate IsSubscription(tier: string)
  {
    tier == "pro" || tier == "builder"
  }

  function Session(env: Env, tier: string, priceId: string): SessionParams
  {
    var subscription := IsSubscription(tier);
    SessionParams(if subscription then Subscription else Payment,
                  [LineItem(priceId, 1)],
                  AppUrl(env) + "/thanks?session_id={CHECKOUT_SESSION_ID}",
                  AppUrl(env) + "/?canceled=1",
                  if subscription then None else Some("always"),
                  !subscription)
  }

  /** `POST`: the answer and the session requested, if one was. `body` is
      the parsed body's `tier` field or the parse error; `created` what the
      session creation would give (the session's URL) or its error. */
  function Post(env: Env, body: Result<Field>, created: Result<Option<string>>): (CheckoutReply, Option<SessionParams>)
  {
    if TrimOpt(env.paymentsEnabled) != Some("true") then (Refused(503, "Payments are not enabled"), None)
    else
      match body
      case Err(_) => (Refused(500, "Failed to create checkout session"), None)
      case Ok(tier) =>
        if !tier.Str? || !KnownTier(tier.s) then (Refused(400, "Invalid tier. Must be pro, builder, or sponsor."), None)
        else
          var priceId := PriceId(env, tier.s);
          if !Truthy(priceId) then (Refused(500, "Price ID not configured for tier: " + tier.s), None)
          else
            var params := Session(env, tier.s, priceId.value);
            match created
            case Err(_) => (Refused(500, "Failed to create checkout session"), Some(params))
            case Ok(url) => (Redirect(url), Some(params))
  }

  /** The payments switch is checked first: unless PAYMENTS_ENABLED trims
      to "true" the answer is 503 whatever the body, and nothing is asked of
      the provider. */
  lemma PaymentsSwitchFirst(env: Env, body: Result<Field>, created: Result<Option<string>>)
    ensures TrimOpt(env.paymentsEnabled) != Some("true") ==>
              Post(env, body, created) == (Refused(503, "Payments are not enabled"), None)
    ensures Post(env, body, created).0 == Refused(503, "Payments are not enabled") ==>
              TrimOpt(env.paymentsEnabled) != Some("true")
  {
  }

  /** With payments on, a tier that is missing, not a string or not one of
      pro, builder and sponsor is 400; a known tier whose trimmed price is
      missing or empty is 500; neither asks for a session. */
  lemma TierAndPriceGuards(env: Env, tier: Field, created: Result<Option<string>>)
    requires TrimOpt(env.paymentsEnabled) == Some("true")
    ensures !(tier.Str? && KnownTier(tier.s)) <==>
              Post(env, Ok(tier), created).0 == Refused(400, "Invalid tier. Must be pro, builder, or sponsor.")
    ensures tier.Str? && KnownTier(tier.s) && !Truthy(PriceId(env, tier.s)) ==>
              Post(env, Ok(tier), created).0.Refused? && Post(env, Ok(tier), created).0.status == 500 &&
              Post(env, Ok(tier), created).1.None?
    ensures Post(env, Ok(tier), created).1.Some? <==> tier.Str? && KnownTier(tier.s) && Truthy(PriceId(env, tier.s))
  {
  }

  /** The session asked for: a subscription for pro and builder and a
      one-time payment for sponsor; the provider creates a customer only
      for the payment; and there is one line item, of quantity 1, at the
      tier's trimmed price. */
  lemma SessionShape(env: Env, tier: string, created: Result<Option<string>>)
    requires TrimOpt(env.paymentsEnabled) == Some("true") && KnownTier(tier) && Truthy(PriceId(env, tier))
    ensures var p := Post(env, Ok(Str(tier)), created).1;
      p.Some? &&
      (p.value.mode == Subscription <==> tier == "pro" || tier == "builder") &&
      (p.value.mode == Payment <==> tier == "sponsor") &&
      (p.value.customerCreation == Some("always") <==> p.value.mode == Payment) &&
      (p.value.customerCreation.None? <==> p.value.mode == Subscription) &&
      (p.value.paymentIntentData <==> p.value.mode == Payment) &&
      |p.value.lineItems| == 1 && p.value.lineItems[0].quantity == 1 &&
      p.value.lineItems[0].price == PriceId(env, tier).value &&
      p.value.lineItems[0].price == Trim(if tier == "pro" then env.proPrice.value
                                         else if tier == "builder" then env.builderPrice.value
                                         else env.sponsorPrice.value)
  {
  }

  /** APP_URL is the trimmed NEXT_PUBLIC_APP_URL when that is set and
      non-empty, and "https://faightclub.com" otherwise. */
  lemma AppUrlDefault(env: Env)
    ensures Truthy(env.appUrl) ==> AppUrl(env) == Trim(env.appUrl.value)
    ensures !Truthy(env.appUrl) ==> AppUrl(env) == DefaultAppUrl
  {
    DefaultAppUrlTrimmed();
  }

  /** Both return addresses lie under APP_URL; the success page receives
      the session id placeholder and the cancel page the `canceled` flag. */
  lemma SessionUrls(env: Env, tier: string, priceId: string)
    ensures var p := Session(env, tier, priceId);
      StartsWith(p.successUrl, AppUrl(env)) && EndsWith(p.successUrl, "/thanks?session_id={CHECKOUT_SESSION_ID}") &&
      StartsWith(p.cancelUrl, AppUrl(env)) && EndsWith(p.cancelUrl, "/?canceled=1")
  {
    Affixes(AppUrl(env), "/thanks?session_id={CHECKOUT_SESSION_ID}");
    Affixes(AppUrl(env), "/?canceled=1");
  }

  lemma Affixes(a: string, b: string)
    ensures StartsWith(a + b, a) && EndsWith(a + b, b)
  {
    assert (a + b)[..|a|] == a;
    assert (a + b)[|a + b| - |b|..] == b;
  }

  lemma DefaultAppUrlTrimmed()
    ensures Trim(DefaultAppUrl) == DefaultAppUrl
  {
    assert !IsJsSpace(DefaultAppUrl[0]);
    assert TrimStart(DefaultAppUrl) == DefaultAppUrl;
    assert !IsJsSpace(DefaultAppUrl[|DefaultAppUrl| - 1]);
    assert TrimEnd(DefaultAppUrl) == DefaultAppUrl;
  }

  /** Once a session is asked for, the answer is its URL, or 500 when the
      provider fails. */
  lemma SessionOutcome(env: Env, tier: string, created: Result<Option<string>>)
    requires TrimOpt(env.paymentsEnabled) == Some("true") && KnownTier(tier) && Truthy(PriceId(env, tier))
    ensures created.Ok? ==> Post(env, Ok(Str(tier)), created).0 == Redirect(created.value)
    ensures created.Err? ==> Post(env, Ok(Str(tier)), created).0 == Refused(500, "Failed to create checkout session")
  {
  }
}
