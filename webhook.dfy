/** The payment provider's webhook: a guard ladder over the request and the decoded event,
    then one transaction that credits a donation at most once per payment reference. */
module PaystackWebhook {

  import opened Wrappers
  import opened Json
  import opened Firestore

  const ChargeSuccess: string := "charge.success"
  const SupporterDonation: string := "supporter_donation"

  datatype Metadata = Metadata(userId: Option<string>, purpose: Option<string>)

  /** The `data` object of an event. `amount` is in kobo. */
  datatype ChargeData = ChargeData(
    reference: Option<string>,
    amount: int,
    metadata: Option<Metadata>,
    customerEmail: Value,
    status: Value,
    channel: Value,
    paidAt: Value)

  datatype Payload = Payload(event: Option<string>, data: ChargeData)

  /** `signature` is the `x-paystack-signature` header. */
  datatype Request = Request(verb: string, signature: Option<string>, body: Payload)

  datatype Response = Response(status: int, text: string)

  /** The store's two collections, as the transaction sees them. */
  datatype State = State(payments: map<string, Doc>, users: map<string, Doc>)

  /** What the guards before the transaction decide: a reply, or a credit to attempt. */
  datatype Gate = Reply(response: Response) | Credit(reference: string, userId: string)

  /** A string read with `!x` as the test for "missing". */
  predicate Given(s: Option<string>) {
    s.Some? && s.value != ""
  }

  function UserIdOf(d: ChargeData): Option<string> {
    if d.metadata.Some? then d.metadata.value.userId else None
  }

  function PurposeOf(d: ChargeData): Option<string> {
    if d.metadata.Some? then d.metadata.value.purpose else None
  }

  /** The guard ladder. `verify` is the signature check over the payload and header
      (an HMAC with the shared secret, not modelled). */
  function Guards(req: Request, verify: (Payload, Option<string>) -> bool): Gate {
    if req.verb != "POST" then Reply(Response(405, "Method not allowed"))
    else if !verify(req.body, req.signature) then Reply(Response(401, "Invalid signature"))
    else if req.body.event != Some(ChargeSuccess) then Reply(Response(200, "Event ignored"))
    else if !Given(req.body.data.reference) || !Given(UserIdOf(req.body.data)) then
      Reply(Response(400, "Missing required fields"))
    else if PurposeOf(req.body.data) != Some(SupporterDonation) then
      Reply(Response(200, "Not a supporter donation"))
    else Credit(req.body.data.reference.value, UserIdOf(req.body.data).value)
  }

  /** The amount in naira that `data.amount / 100` gives. */
  function Naira(d: ChargeData): real {
    d.amount as real / 100.0
  }

  /** A payment counts as processed when its stored `processed` field is truthy. */
  predicate Processed(payments: map<string, Doc>, reference: string) {
    reference in payments && Present(Field(payments[reference], "processed"))
  }

  /** The payment document written on first processing (a full replace). */
  function PaymentDoc(reference: string, userId: string, d: ChargeData, now: int): Doc {
    map[
      "reference" := Text(reference),
      "userId" := Text(userId),
      "amount" := Number(Naira(d)),
      "email" := d.customerEmail,
      "processed" := Boolean(true),
      "processedAt" := Timestamp(now),
      "paystackData" := Record(map["status" := d.status, "channel" := d.channel, "paidAt" := d.paidAt])
    ]
  }

  /** The fields merged into the user document on first processing. */
  function SupporterFields(user: Doc, d: ChargeData, now: int): Doc {
    map[
      "supporterStatus" := Boolean(true),
      "supporterSince" := Timestamp(now),
      "totalDonated" := Increment(Field(user, "totalDonated"), Naira(d))
    ]
  }

  function UserOrEmpty(users: map<string, Doc>, userId: string): Doc {
    if userId in users then users[userId] else map[]
  }

  /** The transaction body: nothing when the payment is already processed, otherwise the
      payment document and the supporter fields. */
  function CreditTx(s: State, reference: string, userId: string, d: ChargeData, now: int): State {
    if Processed(s.payments, reference) then s
    else
      var user := UserOrEmpty(s.users, userId);
      State(s.payments[reference := PaymentDoc(reference, userId, d, now)],
            s.users[userId := Merge(user, SupporterFields(user, d, now))])
  }

  /** The whole handler: the response and the store afterwards. `txFails` is a transaction
      that rejects, which leaves the store as it was. */
  function Webhook(s: State, req: Request, verify: (Payload, Option<string>) -> bool, now: int, txFails: bool): (Response, State) {
    match Guards(req, verify)
    case Reply(resp) => (resp, s)
    case Credit(reference, userId) =>
      if txFails then (Response(500, "Internal error, will retry"), s)
      else (Response(200, "Webhook processed successfully"), CreditTx(s, reference, userId, req.body.data, now))
  }

  /** The handler on the store. */
  method HandleWebhook(store: Store, req: Request, verify: (Payload, Option<string>) -> bool, now: int, txFails: bool)
      returns (resp: Response)
    modifies store
    ensures (resp, State(store.payments, store.users))
         == Webhook(State(old(store.payments), old(store.users)), req, verify, now, txFails)
  {
    if req.verb != "POST" {
      return Response(405, "Method not allowed");
    }
    if !verify(req.body, req.signature) {
      return Response(401, "Invalid signature");
    }
    var data := req.body.data;
    if req.body.event != Some(ChargeSuccess) {
      return Response(200, "Event ignored");
    }
    var reference := data.reference;
    var userId := UserIdOf(data);
    var purpose := PurposeOf(data);
    if !Given(reference) || !Given(userId) {
      return Response(400, "Missing required fields");
    }
    if purpose != Some(SupporterDonation) {
      return Response(200, "Not a supporter donation");
    }
    if txFails {
      return Response(500, "Internal error, will retry");
    }
    var ref, uid := reference.value, userId.value;
    if !Processed(store.payments, ref) {
      var user := UserOrEmpty(store.users, uid);
      store.payments := store.payments[ref := PaymentDoc(ref, uid, data, now)];
      store.users := store.users[uid := Merge(user, SupporterFields(user, data, now))];
    }
    resp := Response(200, "Webhook processed successfully");
  }

  // ---------------------------------------------------------------------------------
  // Properties of the handler

  /** A request that is not a POST gets 405 and writes nothing. */
  lemma NonPostRejected(s: State, req: Request, verify: (Payload, Option<string>) -> bool, now: int, txFails: bool)
    requires req.verb != "POST"
    ensures Webhook(s, req, verify, now, txFails) == (Response(405, "Method not allowed"), s)
  {
  }

  /** A POST whose signature does not verify gets 401 and writes nothing. */
  lemma BadSignatureRejected(s: State, req: Request, verify: (Payload, Option<string>) -> bool, now: int, txFails: bool)
    requires req.verb == "POST" && !verify(req.body, req.signature)
    ensures Webhook(s, req, verify, now, txFails) == (Response(401, "Invalid signature"), s)
  {
  }

  /** Any verified event other than `charge.success` is acknowledged and ignored, whatever
      its data says. */
  lemma OtherEventIgnored(s: State, req: Request, verify: (Payload, Option<string>) -> bool, now: int, txFails: bool)
    requires req.verb == "POST" && verify(req.body, req.signature)
    requires req.body.event != Some(ChargeSuccess)
    ensures Webhook(s, req, verify, now, txFails) == (Response(200, "Event ignored"), s)
  {
  }

  /** A verified `charge.success` without a reference or a user id gets 400 and writes
      nothing, whatever its purpose. */
  lemma MissingFieldsRejected(s: State, req: Request, verify: (Payload, Option<string>) -> bool, now: int, txFails: bool)
    requires req.verb == "POST" && verify(req.body, req.signature)
    requires req.body.event == Some(ChargeSuccess)
    requires !Given(req.body.data.reference) || !Given(UserIdOf(req.body.data))
    ensures Webhook(s, req, verify, now, txFails) == (Response(400, "Missing required fields"), s)
  {
  }

  /** A well-formed charge whose purpose is not a supporter donation is acknowledged and
      writes nothing. */
  lemma NonDonationIgnored(s: State, req: Request, verify: (Payload, Option<string>) -> bool, now: int, txFails: bool)
    requires req.verb == "POST" && verify(req.body, req.signature)
    requires req.body.event == Some(ChargeSuccess)
    requires Given(req.body.data.reference) && Given(UserIdOf(req.body.data))
    requires PurposeOf(req.body.data) != Some(SupporterDonation)
    ensures Webhook(s, req, verify, now, txFails) == (Response(200, "Not a supporter donation"), s)
  {
  }

  /** Only a request that passes every guard can change the store, and only when its
      transaction commits. */
  lemma WritesOnlyOnCredit(s: State, req: Request, verify: (Payload, Option<string>) -> bool, now: int, txFails: bool)
    requires Webhook(s, req, verify, now, txFails).1 != s
    ensures Guards(req, verify).Credit? && !txFails
    ensures !Processed(s.payments, Guards(req, verify).reference)
  {
  }

  /** A donation whose payment is already processed is acknowledged with the same 200 as a
      first delivery and writes nothing. */
  lemma DuplicateWritesNothing(s: State, req: Request, verify: (Payload, Option<string>) -> bool, now: int)
    requires Guards(req, verify).Credit?
    requires Processed(s.payments, Guards(req, verify).reference)
    ensures Webhook(s, req, verify, now, false) == (Response(200, "Webhook processed successfully"), s)
  {
  }

  /** A failing transaction answers 500 (so the provider retries) and writes nothing. */
  lemma FailedTransactionRetried(s: State, req: Request, verify: (Payload, Option<string>) -> bool, now: int)
    requires Guards(req, verify).Credit?
    ensures Webhook(s, req, verify, now, true) == (Response(500, "Internal error, will retry"), s)
  {
  }

  /** First processing of a donation (no payment document, or one whose `processed` is
      falsy): the payment document is replaced whole, the user becomes a supporter,
      `supporterSince` is the current time, `totalDonated` grows by exactly the amount in
      naira, and no other field, user or payment changes. */
  lemma FirstDeliveryCredits(s: State, req: Request, verify: (Payload, Option<string>) -> bool, now: int)
    requires Guards(req, verify).Credit?
    requires !Processed(s.payments, Guards(req, verify).reference)
    ensures var (resp, t) := Webhook(s, req, verify, now, false);
      var reference, userId, d := Guards(req, verify).reference, Guards(req, verify).userId, req.body.data;
      && resp == Response(200, "Webhook processed successfully")
      && t.payments == s.payments[reference := PaymentDoc(reference, userId, d, now)]
      && Processed(t.payments, reference)
      && t.payments[reference]["amount"] == Number(d.amount as real / 100.0)
      && t.users.Keys == s.users.Keys + {userId}
      && (forall u :: u in s.users && u != userId ==> t.users[u] == s.users[u])
      && t.users[userId]["supporterStatus"] == Boolean(true)
      && t.users[userId]["supporterSince"] == Timestamp(now)
      && t.users[userId]["totalDonated"].Number?
      && t.users[userId]["totalDonated"].n
         == NumberOr0(Field(UserOrEmpty(s.users, userId), "totalDonated")) + d.amount as real / 100.0
      && (forall f :: f in UserOrEmpty(s.users, userId) && f !in {"supporterStatus", "supporterSince", "totalDonated"}
            ==> f in t.users[userId] && t.users[userId][f] == UserOrEmpty(s.users, userId)[f])
      && t.users[userId].Keys == UserOrEmpty(s.users, userId).Keys + {"supporterStatus", "supporterSince", "totalDonated"}
  {
    var reference, userId, d := Guards(req, verify).reference, Guards(req, verify).userId, req.body.data;
    var user := UserOrEmpty(s.users, userId);
    var fields := SupporterFields(user, d, now);
    var t := CreditTx(s, reference, userId, d, now);
    assert Webhook(s, req, verify, now, false) == (Response(200, "Webhook processed successfully"), t);
    assert t.users == s.users[userId := Merge(user, fields)];
    assert fields.Keys == {"supporterStatus", "supporterSince", "totalDonated"};
  }

  /** Delivering the same event a second time, at any time, leaves the store exactly as the
      first successful delivery left it, and gets the same reply. */
  lemma Idempotent(s: State, req: Request, verify: (Payload, Option<string>) -> bool, now1: int, now2: int)
    requires Guards(req, verify).Credit?
    ensures var once := Webhook(s, req, verify, now1, false);
      Webhook(once.1, req, verify, now2, false) == once
  {
    var reference := Guards(req, verify).reference;
    var t := Webhook(s, req, verify, now1, false).1;
    assert Processed(t.payments, reference) by {
      if !Processed(s.payments, reference) {
        assert t.payments[reference]["processed"] == Boolean(true);
      }
    }
  }

  /** One delivery attempt of a redelivered event: its time and whether its transaction
      fails. */
  datatype Attempt = Attempt(now: int, fails: bool)

  /** The store after a sequence of deliveries of one event. */
  function Deliver(s: State, req: Request, verify: (Payload, Option<string>) -> bool, attempts: seq<Attempt>): State
    decreases |attempts|
  {
    if attempts == [] then s
    else Deliver(Webhook(s, req, verify, attempts[0].now, attempts[0].fails).1, req, verify, attempts[1..])
  }

  /** Index of the first attempt whose transaction commits. */
  function FirstSuccess(attempts: seq<Attempt>): (r: Option<nat>)
    ensures r.Some? ==> r.value < |attempts| && !attempts[r.value].fails
    ensures r.Some? ==> forall i :: 0 <= i < r.value ==> attempts[i].fails
    ensures r.None? ==> forall i :: 0 <= i < |attempts| ==> attempts[i].fails
  {
    if attempts == [] then None
    else if !attempts[0].fails then Some(0)
    else match FirstSuccess(attempts[1..])
      case None => None
      case Some(k) => Some(k + 1)
  }

  /** At-most-once crediting under at-least-once delivery: however many times an event is
      delivered, with any pattern of failing transactions, the store ends exactly as after
      the first delivery that committed (or unchanged if none did), so the donation is
      credited at most once. */
  lemma {:induction false} RedeliveryCreditsOnce(s: State, req: Request, verify: (Payload, Option<string>) -> bool, attempts: seq<Attempt>)
    requires Guards(req, verify).Credit?
    ensures var k := FirstSuccess(attempts);
      Deliver(s, req, verify, attempts)
      == if k.None? then s else Webhook(s, req, verify, attempts[k.value].now, false).1
    decreases |attempts|
  {
    if attempts != [] {
      var a := attempts[0];
      var rest := attempts[1..];
      if a.fails {
        assert Webhook(s, req, verify, a.now, true).1 == s;
        RedeliveryCreditsOnce(s, req, verify, rest);
      } else {
        var t := Webhook(s, req, verify, a.now, false).1;
        AlreadyCreditedStays(t, req, verify, rest, a.now, s);
      }
    }
  }

  /** After a committed delivery, every later delivery of the same event leaves the store
      unchanged. */
  lemma {:induction false} AlreadyCreditedStays(t: State, req: Request, verify: (Payload, Option<string>) -> bool, attempts: seq<Attempt>, now: int, s: State)
    requires Guards(req, verify).Credit?
    requires t == Webhook(s, req, verify, now, false).1
    ensures Deliver(t, req, verify, attempts) == t
    decreases |attempts|
  {
    if attempts != [] {
      Idempotent(s, req, verify, now, attempts[0].now);
      assert Webhook(t, req, verify, attempts[0].now, attempts[0].fails).1 == t;
      AlreadyCreditedStays(t, req, verify, attempts[1..], now, s);
    }
  }
}
