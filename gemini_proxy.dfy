/** The AI proxy: a per-user request counter kept in the user document (window 60 s,
    limit 10, failing open), inside a handler that checks method, then authentication,
    then the rate limit, then the body, and only then calls the text provider. */
module GeminiProxy {

  import opened Wrappers
  import opened Json
  import opened Firestore
  import opened BearerToken

  const RateLimitRequests: int := 10
  const RateLimitWindowMs: int := 60 * 1000
  const MaxPromptLength: nat := 1000

  // ---------------------------------------------------------------------------------
  // checkRateLimit

  /** Reading `lastAiRequestTime?.toMillis() || 0`: a timestamp gives its milliseconds, an
      absent or null field gives 0, any other value has no `toMillis` and throws. */
  datatype Millis = Millis(ms: int) | Throws

  function LastRequestTime(d: Doc): Millis {
    match Field(d, "lastAiRequestTime")
    case None => Millis(0)
    case Some(Null) => Millis(0)
    case Some(Timestamp(ms)) => Millis(ms)
    case Some(_) => Throws
  }

  /** `aiRequestCount || 0`. */
  function RequestCount(d: Doc): real {
    NumberOr0(Field(d, "aiRequestCount"))
  }

  /** `userDoc.data() || {}`. */
  function UserData(users: map<string, Doc>, uid: string): Doc {
    if uid in users then users[uid] else map[]
  }

  /** The two fields an allowed request merges into the user document. */
  function CounterFields(count: real, now: int): Doc {
    map["aiRequestCount" := Number(count), "lastAiRequestTime" := Timestamp(now)]
  }

  /** The rate-limit transaction: whether the request is allowed, and the user collection
      afterwards. A transaction that throws (`txFails`, or an unreadable timestamp) allows
      the request and writes nothing. */
  function RateLimit(users: map<string, Doc>, uid: string, now: int, txFails: bool): (bool, map<string, Doc>) {
    var d := UserData(users, uid);
    if txFails || LastRequestTime(d).Throws? then (true, users)
    else if now - LastRequestTime(d).ms > RateLimitWindowMs then
      (true, users[uid := Merge(d, CounterFields(1.0, now))])
    else if RequestCount(d) >= RateLimitRequests as real then (false, users)
    else (true, users[uid := Merge(d, CounterFields(RequestCount(d) + 1.0, now))])
  }

  /** `checkRateLimit` on the store. */
  method CheckRateLimit(store: Store, uid: string, now: int, txFails: bool) returns (allowed: bool)
    modifies store
    ensures (allowed, store.users) == RateLimit(old(store.users), uid, now, txFails)
    ensures store.payments == old(store.payments)
  {
    if txFails {
      return true;
    }
    var d := UserData(store.users, uid);
    var last := LastRequestTime(d);
    if last.Throws? {
      return true;
    }
    var count := RequestCount(d);
    if now - last.ms > RateLimitWindowMs {
      store.users := store.users[uid := Merge(d, CounterFields(1.0, now))];
      return true;
    }
    if count >= RateLimitRequests as real {
      return false;
    }
    store.users := store.users[uid := Merge(d, CounterFields(count + 1.0, now))];
    allowed := true;
  }

  /** Outside the window (strictly more than 60 s since the stored time, a missing time
      counting as 0) the counter restarts at 1 and the request is allowed. */
  lemma WindowExpiredResets(users: map<string, Doc>, uid: string, now: int)
    requires LastRequestTime(UserData(users, uid)).Millis?
    requires now - LastRequestTime(UserData(users, uid)).ms > RateLimitWindowMs
    ensures var (allowed, after) := RateLimit(users, uid, now, false);
      allowed && uid in after && RequestCount(after[uid]) == 1.0
      && LastRequestTime(after[uid]) == Millis(now)
  {
  }

  /** Inside the window with ten or more requests counted, the request is denied and
      nothing is written. */
  lemma FullWindowDenies(users: map<string, Doc>, uid: string, now: int)
    requires LastRequestTime(UserData(users, uid)).Millis?
    requires now - LastRequestTime(UserData(users, uid)).ms <= RateLimitWindowMs
    requires RequestCount(UserData(users, uid)) >= 10.0
    ensures RateLimit(users, uid, now, false) == (false, users)
  {
  }

  /** Inside the window below the limit, the count goes up by one and the stored time moves
      to now, so the window runs from the last allowed request. Nothing else changes. */
  lemma InWindowCounts(users: map<string, Doc>, uid: string, now: int)
    requires LastRequestTime(UserData(users, uid)).Millis?
    requires now - LastRequestTime(UserData(users, uid)).ms <= RateLimitWindowMs
    requires RequestCount(UserData(users, uid)) < 10.0
    ensures var (allowed, after) := RateLimit(users, uid, now, false);
      allowed && uid in after
      && RequestCount(after[uid]) == RequestCount(UserData(users, uid)) + 1.0
      && LastRequestTime(after[uid]) == Millis(now)
      && (forall f :: f in UserData(users, uid) && f != "aiRequestCount" && f != "lastAiRequestTime"
            ==> f in after[uid] && after[uid][f] == UserData(users, uid)[f])
      && (forall u :: u in users && u != uid ==> u in after && after[u] == users[u])
  {
  }

  /** When the transaction fails the request is allowed and nothing is written. */
  lemma FailsOpen(users: map<string, Doc>, uid: string, now: int)
    ensures RateLimit(users, uid, now, true) == (true, users)
  {
  }

  /** A whole-number counter within 0..10 stays a whole number within 0..10, whatever the
      time and whether or not the transaction fails. */
  lemma CountStaysBounded(users: map<string, Doc>, uid: string, now: int, txFails: bool, c: nat)
    requires RequestCount(UserData(users, uid)) == c as real && c <= 10
    ensures var after := RateLimit(users, uid, now, txFails).1;
      var n := RequestCount(UserData(after, uid));
      0.0 <= n <= 10.0 && n == n.Floor as real
  {
    var after := RateLimit(users, uid, now, txFails).1;
    var d := UserData(users, uid);
    if txFails || LastRequestTime(d).Throws? || (now - LastRequestTime(d).ms <= RateLimitWindowMs && c >= 10) {
      assert RequestCount(UserData(after, uid)) == c as real;
    } else if now - LastRequestTime(d).ms > RateLimitWindowMs {
      assert RequestCount(UserData(after, uid)) == 1 as real;
    } else {
      assert RequestCount(UserData(after, uid)) == (c + 1) as real;
    }
  }

  /** The decisions for a series of requests from one user, each transaction succeeding. */
  function Run(users: map<string, Doc>, uid: string, times: seq<int>): seq<bool>
    decreases |times|
  {
    if times == [] then []
    else
      var (allowed, after) := RateLimit(users, uid, times[0], false);
      [allowed] + Run(after, uid, times[1..])
  }

  /** From a counter `c` (at least 1) stamped at `times[0]`'s predecessor `t`, requests each
      within 60 s of the one before are allowed while the counter is below 10; at most one
      request beyond the limit is considered, since a denial does not move the stamp. */
  lemma {:induction false} InWindowRun(users: map<string, Doc>, uid: string, t: int, c: nat, times: seq<int>)
    requires LastRequestTime(UserData(users, uid)) == Millis(t)
    requires RequestCount(UserData(users, uid)) == c as real
    requires c <= 10 && c + |times| <= 11
    requires |times| > 0 ==> times[0] - t <= RateLimitWindowMs
    requires forall i :: 0 < i < |times| ==> times[i] - times[i - 1] <= RateLimitWindowMs
    ensures |Run(users, uid, times)| == |times|
    ensures forall i :: 0 <= i < |times| ==> Run(users, uid, times)[i] == (c + i < 10)
    decreases |times|
  {
    if times != [] {
      var (allowed, after) := RateLimit(users, uid, times[0], false);
      if c < 10 {
        InWindowCounts(users, uid, times[0]);
        assert allowed;
        InWindowRun(after, uid, times[0], c + 1, times[1..]);
      } else {
        FullWindowDenies(users, uid, times[0]);
        assert |times| == 1;
      }
    }
  }

  /** Eleven requests, the first outside the previous window and each of the others within
      60 s of the one before: the first ten are allowed, the eleventh is denied. */
  lemma TenThenDenied(users: map<string, Doc>, uid: string, times: seq<int>)
    requires LastRequestTime(UserData(users, uid)).Millis?
    requires |times| == 11
    requires times[0] - LastRequestTime(UserData(users, uid)).ms > RateLimitWindowMs
    requires forall i :: 0 < i < 11 ==> times[i] - times[i - 1] <= RateLimitWindowMs
    ensures Run(users, uid, times) == [true, true, true, true, true, true, true, true, true, true, false]
  {
    var (allowed, after) := RateLimit(users, uid, times[0], false);
    WindowExpiredResets(users, uid, times[0]);
    InWindowRun(after, uid, times[0], 1, times[1..]);
    var r := Run(users, uid, times);
    assert r == [true] + Run(after, uid, times[1..]);
    assert forall i :: 1 <= i < 11 ==> r[i] == Run(after, uid, times[1..])[i - 1];
  }

  // ---------------------------------------------------------------------------------
  // geminiProxy

  /** The body fields the handler reads; `kind` is the body's `type`. */
  datatype ProxyBody = ProxyBody(prompt: Option<Value>, kind: Option<Value>)

  datatype ProxyRequest = ProxyRequest(verb: string, authorization: Option<string>, body: ProxyBody)

  datatype ProxyReply = NoContent | ErrorJson(error: string) | ContentJson(content: string)

  datatype ProxyResponse = ProxyResponse(status: int, reply: ProxyReply)

  const UnauthorizedMessage: string := "Unauthorized. Please sign in."
  const RateLimitedMessage: string := "Rate limit exceeded. Please wait a moment before requesting more insights."
  const UnavailableMessage: string := "AI service temporarily unavailable. Please try again later."

  const PrayerTemplate: string :=
    "Write a short, heartfelt, 1-2 sentence prayer based on the following. The prayer should help the user apply this verse to their daily life. Start with \"Lord\" or \"Heavenly Father\". Context: "
  const InsightTemplate: string :=
    "Provide a brief, 2-sentence theological insight or practical application for the following. Keep it encouraging and simple for a general Christian audience. Context: "

  /** `!prompt || typeof prompt !== 'string'` rejects; otherwise the prompt text. */
  function ValidPrompt(prompt: Option<Value>): (r: Option<string>)
    ensures r.Some? <==> prompt.Some? && prompt.value.Text? && prompt.value.s != ""
    ensures r.Some? ==> r.value == prompt.value.s
  {
    match prompt
    case Some(Text(s)) => if s == "" then None else Some(s)
    case _ => None
  }

  /** `prompt.substring(0, 1000)`: the first 1000 characters. */
  function Sanitize(prompt: string): (r: string)
    ensures |r| <= MaxPromptLength && r <= prompt
    ensures |prompt| <= MaxPromptLength ==> r == prompt
    ensures |prompt| > MaxPromptLength ==> |r| == MaxPromptLength
  {
    if |prompt| <= MaxPromptLength then prompt else prompt[..MaxPromptLength]
  }

  /** The provider prompt: the prayer template exactly when `type === 'prayer'`, the
      insight template for any other type (or none). */
  function FullPrompt(kind: Option<Value>, sanitized: string): string {
    if kind == Some(Text("prayer")) then PrayerTemplate + sanitized else InsightTemplate + sanitized
  }

  /** The prompt sent to the provider is one of the two templates followed by the
      sanitized user text, the prayer one exactly when the type is `prayer`. */
  lemma FullPromptShape(kind: Option<Value>, sanitized: string)
    ensures var p := FullPrompt(kind, sanitized);
      && |p| >= |sanitized| && p[|p| - |sanitized|..] == sanitized
      && (p[..|p| - |sanitized|] == PrayerTemplate <==> kind == Some(Text("prayer")))
      && (kind != Some(Text("prayer")) ==> p[..|p| - |sanitized|] == InsightTemplate)
  {
    var p := FullPrompt(kind, sanitized);
    assert |PrayerTemplate| == 189 && |InsightTemplate| == 166;
    if kind == Some(Text("prayer")) {
      assert p == PrayerTemplate + sanitized;
      assert p[..|p| - |sanitized|] == PrayerTemplate;
    } else {
      assert p[..|p| - |sanitized|] == InsightTemplate;
    }
  }

  /** The handler: the response and the user collection afterwards. `verifyIdToken` is the
      identity provider; `generate` is the text provider (`None` when it throws). */
  function Proxy(users: map<string, Doc>, req: ProxyRequest, verifyIdToken: string -> Option<Principal>,
                 now: int, txFails: bool, generate: string -> Option<string>): (ProxyResponse, map<string, Doc>)
  {
    if req.verb == "OPTIONS" then (ProxyResponse(204, NoContent), users)
    else if req.verb != "POST" then (ProxyResponse(405, ErrorJson("Method not allowed")), users)
    else match VerifyToken(req.authorization, verifyIdToken)
      case None => (ProxyResponse(401, ErrorJson(UnauthorizedMessage)), users)
      case Some(principal) =>
        var (allowed, after) := RateLimit(users, principal.uid, now, txFails);
        if !allowed then (ProxyResponse(429, ErrorJson(RateLimitedMessage)), after)
        else match ValidPrompt(req.body.prompt)
          case None => (ProxyResponse(400, ErrorJson("Invalid prompt")), after)
          case Some(prompt) =>
            match generate(FullPrompt(req.body.kind, Sanitize(prompt)))
            case None => (ProxyResponse(500, ErrorJson(UnavailableMessage)), after)
            case Some(text) => (ProxyResponse(200, ContentJson(text)), after)
  }

  /** `geminiProxy` on the store. */
  method HandleProxy(store: Store, req: ProxyRequest, verifyIdToken: string -> Option<Principal>,
                     now: int, txFails: bool, generate: string -> Option<string>) returns (resp: ProxyResponse)
    modifies store
    ensures (resp, store.users) == Proxy(old(store.users), req, verifyIdToken, now, txFails, generate)
    ensures store.payments == old(store.payments)
  {
    if req.verb == "OPTIONS" {
      return ProxyResponse(204, NoContent);
    }
    if req.verb != "POST" {
      return ProxyResponse(405, ErrorJson("Method not allowed"));
    }
    var principal := VerifyToken(req.authorization, verifyIdToken);
    if principal.None? {
      return ProxyResponse(401, ErrorJson(UnauthorizedMessage));
    }
    var allowed := CheckRateLimit(store, principal.value.uid, now, txFails);
    if !allowed {
      return ProxyResponse(429, ErrorJson(RateLimitedMessage));
    }
    var prompt := ValidPrompt(req.body.prompt);
    if prompt.None? {
      return ProxyResponse(400, ErrorJson("Invalid prompt"));
    }
    var text := generate(FullPrompt(req.body.kind, Sanitize(prompt.value)));
    if text.None? {
      return ProxyResponse(500, ErrorJson(UnavailableMessage));
    }
    resp := ProxyResponse(200, ContentJson(text.value));
  }

  /** A POST without a usable bearer token gets 401 before the counter is touched. */
  lemma UnauthenticatedLeavesCounter(users: map<string, Doc>, req: ProxyRequest, verifyIdToken: string -> Option<Principal>,
                                     now: int, txFails: bool, generate: string -> Option<string>)
    requires req.verb == "POST"
    requires req.authorization.None? || !JsString.StartsWith(req.authorization.value, Prefix)
    ensures Proxy(users, req, verifyIdToken, now, txFails, generate) == (ProxyResponse(401, ErrorJson(UnauthorizedMessage)), users)
  {
  }

  /** An authenticated request with an invalid prompt is answered 400 only after the rate
      limiter ran, so it still uses up a slot; and a rate-limited request gets 429 whatever
      its body. */
  lemma RateLimitBeforeValidation(users: map<string, Doc>, req: ProxyRequest, verifyIdToken: string -> Option<Principal>,
                                  now: int, txFails: bool, generate: string -> Option<string>)
    requires req.verb == "POST"
    requires VerifyToken(req.authorization, verifyIdToken).Some?
    ensures var uid := VerifyToken(req.authorization, verifyIdToken).value.uid;
      var (allowed, after) := RateLimit(users, uid, now, txFails);
      var (resp, final) := Proxy(users, req, verifyIdToken, now, txFails, generate);
      && final == after
      && (!allowed ==> resp == ProxyResponse(429, ErrorJson(RateLimitedMessage)))
      && (allowed && ValidPrompt(req.body.prompt).None? ==> resp == ProxyResponse(400, ErrorJson("Invalid prompt")))
  {
  }

  /** A successful reply carries the provider's text for the template chosen by `type` and
      at most the first 1000 characters of the prompt; a provider failure gets a fixed
      generic 500. */
  lemma ProviderOutcome(users: map<string, Doc>, req: ProxyRequest, verifyIdToken: string -> Option<Principal>,
                        now: int, txFails: bool, generate: string -> Option<string>)
    requires req.verb == "POST"
    requires VerifyToken(req.authorization, verifyIdToken).Some?
    requires RateLimit(users, VerifyToken(req.authorization, verifyIdToken).value.uid, now, txFails).0
    requires ValidPrompt(req.body.prompt).Some?
    ensures var sent := FullPrompt(req.body.kind, Sanitize(ValidPrompt(req.body.prompt).value));
      var resp := Proxy(users, req, verifyIdToken, now, txFails, generate).0;
      && (generate(sent).None? ==> resp == ProxyResponse(500, ErrorJson(UnavailableMessage)))
      && (generate(sent).Some? ==> resp == ProxyResponse(200, ContentJson(generate(sent).value)))
  {
  }
}
