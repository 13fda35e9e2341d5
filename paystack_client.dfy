/** The payment entry points of the web client: the support modal that picks a donation
    amount, the redirect and inline-popup donation flows that go through the payment-init
    function, and the subscription checkout that opens the provider's popup for a paid
    plan. Every entry point stops with a sign-in prompt when nobody is signed in. */
module PaystackClient {

  import opened Wrappers
  import opened Json
  import opened JsString
  import opened BearerToken
  import opened Auth
  import PaystackInit
  import PaystackWebhook
  import Subscription

  // ---------------------------------------------------------------------------------
  // `parseInt` on the custom amount field

  /** The leading run of decimal digits of `s`. */
  function LeadingDigits(s: string): (r: string)
    ensures |r| <= |s| && r == s[..|r|]
    ensures forall i :: 0 <= i < |r| ==> IsDigit(r[i])
    ensures |r| < |s| ==> !IsDigit(s[|r|])
  {
    if s == [] || !IsDigit(s[0]) then []
    else [s[0]] + LeadingDigits(s[1..])
  }

  /** `parseInt(s)`: leading white space, an optional sign, then the leading digits; with
      no digit the result is NaN (`None`). The `0x` prefix that `parseInt` reads as
      hexadecimal is not modelled; the field is an `<input type="number">`
      (paystack.mjs:196), whose value cannot carry one. */
  function ParseInt(s: string): Option<int> {
    var t := TrimStart(s);
    var signed := t != [] && (t[0] == '-' || t[0] == '+');
    var digits := LeadingDigits(if signed then t[1..] else t);
    var magnitude: int := if digits == [] then 0 else DigitsValue(digits);
    if digits == [] then None
    else if signed && t[0] == '-' then Some(-magnitude)
    else Some(magnitude)
  }

  /** The field's text for a whole number reads back as that number. */
  lemma ParseIntDecimal(n: nat)
    ensures ParseInt(Decimal(n)) == Some(n)
  {
    var d := Decimal(n);
    assert TrimStart(d) == d;
    assert LeadingDigits(d) == d by {
      var r := LeadingDigits(d);
      if |r| < |d| {
        assert false;
      }
    }
    DecimalRoundTrip(n);
  }

  /** `parseInt(value) >= 100`: the custom amount is accepted. NaN compares false. */
  predicate Accepted(value: string) {
    ParseInt(value).Some? && ParseInt(value).value >= 100
  }

  // ---------------------------------------------------------------------------------
  // The support modal

  /** The preset buttons' `data-amount`, in order; the second is active when the modal
      opens. */
  const Presets: seq<int> := [500, 1000, 2000, 5000]
  const DefaultAmount: int := 1000

  /** The amount the proceed button uses: the custom value when accepted, otherwise the
      selected amount. */
  function ProceedAmount(customValue: string, selectedAmount: int): int {
    if Accepted(customValue) then ParseInt(customValue).value else selectedAmount
  }

  /** The state of an open support modal: `selectedAmount`, the active preset button and
      the custom field's text. */
  class SupportModal {
    var selectedAmount: int
    var activePreset: Option<nat>
    var customValue: string

    /** The selected amount is at least 100 naira and an active preset is the amount. */
    predicate Valid()
      reads this
    {
      && selectedAmount >= 100
      && (activePreset.Some? ==> activePreset.value < |Presets| && selectedAmount == Presets[activePreset.value])
    }

    constructor()
      ensures Valid()
      ensures selectedAmount == DefaultAmount && activePreset == Some(1) && customValue == ""
    {
      selectedAmount := DefaultAmount;
      activePreset := Some(1);
      customValue := "";
    }

    /** A click on preset `k`: it becomes the only active preset, its amount is selected
        and the custom field is cleared. */
    method PresetClick(k: nat)
      requires Valid() && k < |Presets|
      modifies this
      ensures Valid()
      ensures selectedAmount == Presets[k] && activePreset == Some(k) && customValue == ""
    {
      activePreset := Some(k);
      selectedAmount := Presets[k];
      customValue := "";
    }

    /** Typing in the custom field: an accepted value becomes the selected amount and
        deactivates every preset; any other value leaves both alone. */
    method CustomInput(value: string)
      requires Valid()
      modifies this
      ensures Valid()
      ensures customValue == value
      ensures Accepted(value) ==> selectedAmount == ParseInt(value).value && activePreset.None?
      ensures !Accepted(value) ==> selectedAmount == old(selectedAmount) && activePreset == old(activePreset)
    {
      customValue := value;
      var parsed := ParseInt(value);
      if parsed.Some? && parsed.value >= 100 {
        selectedAmount := parsed.value;
        activePreset := None;
      }
    }

    /** The proceed button: the amount handed to the redirect flow. */
    method Proceed() returns (amount: int)
      requires Valid()
      ensures amount == ProceedAmount(customValue, selectedAmount)
      ensures amount >= 100
    {
      var custom := ParseInt(customValue);
      amount := if custom.Some? && custom.value >= 100 then custom.value else selectedAmount;
    }
  }

  /** The proceed amount never goes below the server's minimum, whatever the field holds. */
  lemma ProceedAmountIsValid(customValue: string, selectedAmount: int)
    requires selectedAmount >= 100
    ensures ProceedAmount(customValue, selectedAmount) >= 100
    ensures PaystackInit.ValidAmount(Some(Number(ProceedAmount(customValue, selectedAmount) as real)))
  {
  }

  /** After an accepted custom value `first` (which `CustomInput` makes the selected
      amount) a rejected value `second` leaves the field showing something else than what
      is paid: the proceed amount is still `first`'s (the field shows 15, the payment is
      150). */
  lemma StaleCustomAmount(first: string, second: string)
    requires Accepted(first) && !Accepted(second)
    ensures ProceedAmount(second, ParseInt(first).value) == ParseInt(first).value
    ensures ParseInt(second) != Some(ProceedAmount(second, ParseInt(first).value))
    ensures ProceedAmount("15", 150) == 150
  {
    assert Decimal(15) == "15";
    ParseIntDecimal(15);
  }

  // ---------------------------------------------------------------------------------
  // Donation flows

  /** What a flow ends in. */
  datatype Checkout =
    | SignInRequired
    | Redirect(url: Value)
    | OpenPopup(setup: PopupSetup)
    | InvalidPlan
    | Failed(message: Value)
    | UnreadableReply
    | NetworkError

  /** A `custom_fields` entry of the popup's metadata. */
  datatype CustomField = CustomField(variableName: string, value: string)

  /** The options handed to `PaystackPop.setup`; `amountKobo` is what the provider
      charges. */
  datatype PopupSetup = PopupSetup(
    email: Value,
    amountKobo: real,
    currency: Option<string>,
    reference: Option<Value>,
    customFields: seq<CustomField>)

  /** `user.email` as JSON: a missing email is `null`. */
  function EmailValue(email: Option<string>): Value {
    if email.Some? then Text(email.value) else Null
  }

  /** The request both donation flows send to the payment-init function; the redirect flow
      adds `callbackUrl` (the page's origin), the popup flow does not. */
  function DonationRequest(user: User, amount: int, token: string, origin: Option<string>): PaystackInit.InitRequest {
    PaystackInit.InitRequest("POST", Some(Prefix + token),
      PaystackInit.InitBody(Some(Number(amount as real)), Some(EmailValue(user.email)),
                            if origin.Some? then Some(Text(origin.value)) else None))
  }

  /** A reply that is not OK: `error.error || 'Payment initialization failed'`; a reply
      without a body fails to parse. */
  function ReadError(resp: PaystackInit.InitResponse): Checkout {
    match resp.reply
    case ErrorJson(e) => if Truthy(e) then Failed(e) else Failed(Text(PaystackInit.InitFailedMessage))
    case Authorized(_, _, _) => Failed(Text(PaystackInit.InitFailedMessage))
    case NoContent => UnreadableReply
  }

  predicate Ok(resp: PaystackInit.InitResponse) {
    200 <= resp.status < 300
  }

  /** `initializePayment(amount)`: the donation request, then a redirect to the
      authorization URL when the reply carries one. `server` is the round trip to the
      payment-init function (`None` when the fetch itself fails). */
  function InitializePayment(user: Option<User>, amount: int, token: string, origin: string,
                             server: PaystackInit.InitRequest -> Option<PaystackInit.InitResponse>): Checkout {
    if user.None? then SignInRequired
    else match server(DonationRequest(user.value, amount, token, Some(origin)))
      case None => NetworkError
      case Some(resp) =>
        if !Ok(resp) then ReadError(resp)
        else match resp.reply
          case Authorized(url, _, _) =>
            if Present(url) then Redirect(url.value) else Failed(Text("No authorization URL received"))
          case _ => UnreadableReply
  }

  /** `openPaystackInline(amount)`: the donation request without a callback URL, then the
      popup for `amount × 100` kobo under the reference the server returned. */
  function OpenPaystackInline(user: Option<User>, amount: int, token: string,
                              server: PaystackInit.InitRequest -> Option<PaystackInit.InitResponse>): Checkout {
    if user.None? then SignInRequired
    else match server(DonationRequest(user.value, amount, token, None))
      case None => NetworkError
      case Some(resp) =>
        if !Ok(resp) then ReadError(resp)
        else match resp.reply
          case Authorized(_, _, reference) =>
            OpenPopup(PopupSetup(EmailValue(user.value.email), (amount * 100) as real, None, reference, []))
          case _ => UnreadableReply
  }

  /** How a signed-in donor's flows read the function's reply: a failed fetch is a network
      error; a reply outside 2xx gives its `error` when truthy, else the default message;
      a body-less reply (204) cannot be read. The redirect happens exactly for a 2xx reply
      whose `authorization_url` is truthy, and the popup opens exactly for a 2xx reply
      carrying the transaction. A 2xx reply carrying an error body counts here as
      unreadable, where the page would say "No authorization URL received" or open the
      popup with an undefined reference; the function never sends one, and only a
      `server` other than its model can. */
  lemma ReplyHandling(user: User, amount: int, token: string, origin: string,
                      server: PaystackInit.InitRequest -> Option<PaystackInit.InitResponse>)
    ensures var answer := server(DonationRequest(user, amount, token, Some(origin)));
      var result := InitializePayment(Some(user), amount, token, origin, server);
      && (answer.None? ==> result == NetworkError)
      && (result.Redirect? <==> answer.Some? && Ok(answer.value) && answer.value.reply.Authorized?
                                && Present(answer.value.reply.authorizationUrl))
      && (result.Redirect? ==> result.url == answer.value.reply.authorizationUrl.value)
      && (answer.Some? && !Ok(answer.value) && answer.value.reply.ErrorJson? ==>
            result == Failed(if Truthy(answer.value.reply.error) then answer.value.reply.error
                             else Text(PaystackInit.InitFailedMessage)))
      && (answer.Some? && answer.value.reply.NoContent? ==> result == UnreadableReply)
    ensures var answer := server(DonationRequest(user, amount, token, None));
      var result := OpenPaystackInline(Some(user), amount, token, server);
      && (answer.None? ==> result == NetworkError)
      && (result.OpenPopup? <==> answer.Some? && Ok(answer.value) && answer.value.reply.Authorized?)
      && (answer.Some? && !Ok(answer.value) && answer.value.reply.ErrorJson? ==>
            result == Failed(if Truthy(answer.value.reply.error) then answer.value.reply.error
                             else Text(PaystackInit.InitFailedMessage)))
      && (answer.Some? && answer.value.reply.NoContent? ==> result == UnreadableReply)
  {
  }

  /** Signed out, no flow sends anything: the server is never consulted. */
  lemma SignedOutSendsNothing(amount: int, token: string, origin: string, planId: string, now: nat,
                              server: PaystackInit.InitRequest -> Option<PaystackInit.InitResponse>)
    ensures InitializePayment(None, amount, token, origin, server) == SignInRequired
    ensures OpenPaystackInline(None, amount, token, server) == SignInRequired
    ensures InitializeSubscriptionPayment(None, planId, now) == SignInRequired
  {
  }

  /** Against the payment-init function itself, a signed-in donor whose token verifies
      and who has an email gets exactly one provider call: the proceed amount in kobo, the
      donor's email and uid, the page's origin as callback, and the donation purpose the
      webhook credits. */
  lemma DonationReachesProvider(user: User, customValue: string, selectedAmount: int, token: string,
                                origin: string, verifyIdToken: string -> Option<Principal>, principal: Principal)
    requires selectedAmount >= 100
    requires user.email.Some? && user.email.value != "" && origin != ""
    requires !Includes(token, Prefix)
    requires verifyIdToken(token) == Some(principal)
    ensures var amount := ProceedAmount(customValue, selectedAmount);
      PaystackInit.Validate(DonationRequest(user, amount, token, Some(origin)), verifyIdToken)
      == PaystackInit.Call(PaystackInit.ProviderRequest(Text(user.email.value), amount as real * 100.0,
                                                        Text(origin), principal.uid, PaystackWebhook.SupporterDonation))
  {
    var h := Prefix + token;
    assert h[|Prefix|..] == token;
    assert StartsWith(h, Prefix);
    ExtractTokenShape(h);
  }

  /** The popup charges a hundred times the amount in naira, which the webhook converts
      back to the same naira amount. */
  lemma InlineAmountInKobo(user: User, amount: int, token: string, reference: Option<Value>,
                           server: PaystackInit.InitRequest -> Option<PaystackInit.InitResponse>)
    requires server(DonationRequest(user, amount, token, None)) == Some(PaystackInit.InitResponse(200, PaystackInit.Authorized(None, None, reference)))
    ensures OpenPaystackInline(Some(user), amount, token, server).OpenPopup?
    ensures var setup := OpenPaystackInline(Some(user), amount, token, server).setup;
      && setup.amountKobo == amount as real * 100.0
      && setup.reference == reference
      && (amount * 100) as real / 100.0 == amount as real
  {
  }

  // ---------------------------------------------------------------------------------
  // Subscription checkout

  /** `sub_<planId>_<uid>_<Date.now()>`. */
  function SubscriptionReference(planId: string, uid: string, now: nat): string {
    "sub_" + planId + "_" + uid + "_" + Decimal(now)
  }

  /** Two checkouts of the same plan by the same user at different milliseconds get
      different references. */
  lemma SubscriptionReferencesDistinct(planId: string, uid: string, t1: nat, t2: nat)
    requires t1 != t2
    ensures SubscriptionReference(planId, uid, t1) != SubscriptionReference(planId, uid, t2)
  {
    var p := "sub_" + planId + "_" + uid + "_";
    if SubscriptionReference(planId, uid, t1) == SubscriptionReference(planId, uid, t2) {
      assert (p + Decimal(t1))[|p|..] == Decimal(t1);
      assert (p + Decimal(t2))[|p|..] == Decimal(t2);
      DecimalInjective(t1, t2);
    }
  }

  /** `initializeSubscriptionPayment(planId)`: an unknown or free plan is refused; a paid
      plan opens the popup for its price, which the plan table already gives in kobo. */
  function InitializeSubscriptionPayment(user: Option<User>, planId: string, now: nat): Checkout {
    if user.None? then SignInRequired
    else
      var plan := Subscription.FindPlan(planId);
      if plan.None? || plan.value.id == "free" then InvalidPlan
      else
        var uid := user.value.uid;
        OpenPopup(PopupSetup(EmailValue(user.value.email), plan.value.price as real, Some("NGN"),
                             Some(Text(SubscriptionReference(planId, uid, now))),
                             [CustomField("plan", planId), CustomField("user_id", uid), CustomField("plan_name", plan.value.name)]))
  }

  /** A signed-in user gets a popup exactly for the three paid plans; it charges the
      plan's price, in naira 1500, 3500 or 10000, under a `sub_` reference naming plan and
      user. */
  lemma SubscriptionCheckoutRules(user: User, planId: string, now: nat)
    ensures InitializeSubscriptionPayment(Some(user), planId, now).OpenPopup?
            <==> planId == "monthly" || planId == "quarterly" || planId == "yearly"
    ensures !InitializeSubscriptionPayment(Some(user), planId, now).OpenPopup? ==>
            InitializeSubscriptionPayment(Some(user), planId, now) == InvalidPlan
    ensures InitializeSubscriptionPayment(Some(user), planId, now).OpenPopup? ==>
      var setup := InitializeSubscriptionPayment(Some(user), planId, now).setup;
      && setup.reference == Some(Text(SubscriptionReference(planId, user.uid, now)))
      && setup.currency == Some("NGN")
      && (planId == "monthly" ==> setup.amountKobo == 150000.0)
      && (planId == "quarterly" ==> setup.amountKobo == 350000.0)
      && (planId == "yearly" ==> setup.amountKobo == 1000000.0)
  {
    Subscription.PaidPlans(planId);
  }

  /** The metadata a subscription checkout attaches carries only `custom_fields`, so the
      event the provider later sends has neither `userId` nor `purpose`: the webhook
      answers 400 to every such charge and credits nothing. */
  lemma SubscriptionChargeRejectedByWebhook(reference: string, d: PaystackWebhook.ChargeData, signature: Option<string>,
                                            verify: (PaystackWebhook.Payload, Option<string>) -> bool)
    requires reference != ""
    requires d.reference == Some(reference) && d.metadata == Some(PaystackWebhook.Metadata(None, None))
    requires verify(PaystackWebhook.Payload(Some(PaystackWebhook.ChargeSuccess), d), signature)
    ensures PaystackWebhook.Guards(PaystackWebhook.Request("POST", signature, PaystackWebhook.Payload(Some(PaystackWebhook.ChargeSuccess), d)), verify)
            == PaystackWebhook.Reply(PaystackWebhook.Response(400, "Missing required fields"))
  {
  }
}
