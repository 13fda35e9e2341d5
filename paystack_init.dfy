/** Payment initialisation: an authenticated request for a donation of at least 100 naira
    becomes a transaction request to the payment provider, tagged with the user's id and
    the donation purpose that the webhook later credits. */
module PaystackInit {

  import opened Wrappers
  import opened Json
  import opened BearerToken
  import PaystackWebhook

  const MinimumNaira: real := 100.0
  const DefaultCallbackUrl: string := "https://discipleme-app.web.app"
  const InvalidAmountMessage: string := "Invalid amount. Minimum is 100 NGN."
  const EmailRequiredMessage: string := "Email required for payment."
  const InitFailedMessage: string := "Payment initialization failed"
  const ServiceUnavailableMessage: string := "Payment service temporarily unavailable"

  datatype InitBody = InitBody(amount: Option<Value>, email: Option<Value>, callbackUrl: Option<Value>)

  datatype InitRequest = InitRequest(verb: string, authorization: Option<string>, body: InitBody)

  /** The transaction request sent to the provider; `amountKobo` is naira times 100. */
  datatype ProviderRequest = ProviderRequest(
    email: Value,
    amountKobo: real,
    callbackUrl: Value,
    userId: string,
    purpose: string)

  /** The `data` object of the provider's reply. */
  datatype InitData = InitData(authorizationUrl: Option<Value>, accessCode: Option<Value>, reference: Option<Value>)

  /** The provider's reply: unreachable or not JSON, or a parsed body (`data` missing or
      null is `None`). */
  datatype ProviderReply =
    | Unreachable
    | Parsed(status: Value, message: Option<Value>, data: Option<InitData>)

  datatype InitReply =
    | NoContent
    | ErrorJson(error: Value)
    | Authorized(authorizationUrl: Option<Value>, accessCode: Option<Value>, reference: Option<Value>)

  datatype InitResponse = InitResponse(status: int, reply: InitReply)

  /** What the handler decides before contacting the provider. */
  datatype Step = Respond(response: InitResponse) | Call(request: ProviderRequest)

  /** `!amount || typeof amount !== 'number' || amount < 100` rejects. */
  predicate ValidAmount(amount: Option<Value>) {
    amount.Some? && amount.value.Number? && amount.value.n >= MinimumNaira
  }

  function ErrorResponse(status: int, message: string): InitResponse {
    InitResponse(status, ErrorJson(Text(message)))
  }

  /** The guards and the construction of the provider request. */
  function Validate(req: InitRequest, verifyIdToken: string -> Option<Principal>): Step {
    if req.verb == "OPTIONS" then Respond(InitResponse(204, NoContent))
    else if req.verb != "POST" then Respond(ErrorResponse(405, "Method not allowed"))
    else match VerifyToken(req.authorization, verifyIdToken)
      case None => Respond(ErrorResponse(401, "Unauthorized. Please sign in."))
      case Some(principal) =>
        if !ValidAmount(req.body.amount) then Respond(ErrorResponse(400, InvalidAmountMessage))
        else if !Present(req.body.email) && !PaystackWebhook.Given(principal.email) then
          Respond(ErrorResponse(400, EmailRequiredMessage))
        else
          var email := if Present(req.body.email) then req.body.email.value else Text(principal.email.value);
          var callback := if Present(req.body.callbackUrl) then req.body.callbackUrl.value else Text(DefaultCallbackUrl);
          Call(ProviderRequest(email, req.body.amount.value.n * 100.0, callback, principal.uid,
                               PaystackWebhook.SupporterDonation))
  }

  /** The response for the provider's reply. A truthy status without `data` throws while the
      reply is built, which the handler reports like an unreachable provider. */
  function Interpret(reply: ProviderReply): (r: InitResponse)
    ensures r.status == 200 <==> reply.Parsed? && Truthy(reply.status) && reply.data.Some?
    ensures r.status == 400 <==> reply.Parsed? && !Truthy(reply.status)
    ensures r.status == 500 <==> reply.Unreachable? || (Truthy(reply.status) && reply.data.None?)
    ensures r.status == 200 ==> r.reply == Authorized(reply.data.value.authorizationUrl, reply.data.value.accessCode,
                                                      reply.data.value.reference)
    ensures r.status == 500 ==> r.reply == ErrorJson(Text(ServiceUnavailableMessage))
    ensures r.status == 400 && Present(reply.message) ==> r.reply == ErrorJson(reply.message.value)
    ensures r.status == 400 && !Present(reply.message) ==> r.reply == ErrorJson(Text(InitFailedMessage))
  {
    match reply
    case Unreachable => ErrorResponse(500, ServiceUnavailableMessage)
    case Parsed(status, message, data) =>
      if Truthy(status) then
        match data
        case None => ErrorResponse(500, ServiceUnavailableMessage)
        case Some(d) => InitResponse(200, Authorized(d.authorizationUrl, d.accessCode, d.reference))
      else InitResponse(400, ErrorJson(if Present(message) then message.value else Text(InitFailedMessage)))
  }

  /** `initializePayment`. `provider` is the provider's transaction endpoint. */
  function Init(req: InitRequest, verifyIdToken: string -> Option<Principal>,
                provider: ProviderRequest -> ProviderReply): InitResponse
  {
    match Validate(req, verifyIdToken)
    case Respond(resp) => resp
    case Call(pr) => Interpret(provider(pr))
  }

  /** Preflight, wrong method and missing authentication are answered without a call. */
  lemma RejectedBeforeAmount(req: InitRequest, verifyIdToken: string -> Option<Principal>)
    ensures req.verb == "OPTIONS" ==> Validate(req, verifyIdToken) == Respond(InitResponse(204, NoContent))
    ensures req.verb != "OPTIONS" && req.verb != "POST" ==>
      Validate(req, verifyIdToken) == Respond(ErrorResponse(405, "Method not allowed"))
    ensures req.verb == "POST" && VerifyToken(req.authorization, verifyIdToken).None? ==>
      Validate(req, verifyIdToken) == Respond(ErrorResponse(401, "Unauthorized. Please sign in."))
  {
  }

  /** For an authenticated POST, the amount error is given exactly when the amount is not a
      number of at least 100 naira. */
  lemma AmountChecked(req: InitRequest, verifyIdToken: string -> Option<Principal>)
    requires req.verb == "POST" && VerifyToken(req.authorization, verifyIdToken).Some?
    ensures Validate(req, verifyIdToken) == Respond(ErrorResponse(400, InvalidAmountMessage))
        <==> !ValidAmount(req.body.amount)
  {
    if ValidAmount(req.body.amount) {
      assert EmailRequiredMessage != InvalidAmountMessage by {
        assert |EmailRequiredMessage| == 27 && |InvalidAmountMessage| == 35;
      }
    }
  }

  /** With a valid amount, the provider is called exactly when there is an email, the body's
      taking precedence over the signed-in account's, and the call carries that email, the
      amount in kobo (at least 10000), the callback (the app's address by default) and the
      metadata the webhook credits: the caller's uid and the donation purpose. */
  lemma ProviderCall(req: InitRequest, verifyIdToken: string -> Option<Principal>)
    requires req.verb == "POST" && VerifyToken(req.authorization, verifyIdToken).Some?
    requires ValidAmount(req.body.amount)
    ensures var principal := VerifyToken(req.authorization, verifyIdToken).value;
      Validate(req, verifyIdToken).Call? <==> Present(req.body.email) || PaystackWebhook.Given(principal.email)
    ensures var principal := VerifyToken(req.authorization, verifyIdToken).value;
      match Validate(req, verifyIdToken)
      case Respond(resp) => resp == ErrorResponse(400, EmailRequiredMessage)
      case Call(pr) =>
        && pr.email == (if Present(req.body.email) then req.body.email.value else Text(principal.email.value))
        && Truthy(pr.email)
        && pr.amountKobo == req.body.amount.value.n * 100.0 && pr.amountKobo >= 10000.0
        && (Present(req.body.callbackUrl) ==> pr.callbackUrl == req.body.callbackUrl.value)
        && (!Present(req.body.callbackUrl) ==> pr.callbackUrl == Text(DefaultCallbackUrl))
        && pr.userId == principal.uid
        && pr.purpose == PaystackWebhook.SupporterDonation
  {
  }

  /** The provider's charge event for a transaction this handler started, carrying back
      its metadata: the webhook's guards let it through to a credit for the caller, and the
      credited naira are the naira asked for. */
  lemma InitThenWebhookCredits(pr: ProviderRequest, naira: nat, reference: string, d: PaystackWebhook.ChargeData,
                               signature: Option<string>, verify: (PaystackWebhook.Payload, Option<string>) -> bool)
    requires pr.purpose == PaystackWebhook.SupporterDonation && pr.userId != ""
    requires pr.amountKobo == naira as real * 100.0
    requires reference != ""
    requires d.reference == Some(reference) && d.amount == naira * 100
    requires d.metadata == Some(PaystackWebhook.Metadata(Some(pr.userId), Some(pr.purpose)))
    requires verify(PaystackWebhook.Payload(Some(PaystackWebhook.ChargeSuccess), d), signature)
    ensures var req := PaystackWebhook.Request("POST", signature, PaystackWebhook.Payload(Some(PaystackWebhook.ChargeSuccess), d));
      PaystackWebhook.Guards(req, verify) == PaystackWebhook.Credit(reference, pr.userId)
    ensures PaystackWebhook.Naira(d) == naira as real
    ensures PaystackWebhook.Naira(d) * 100.0 == pr.amountKobo
  {
  }
}
