# DiscipleMe core, modelled in Dafny

DiscipleMe is a scripture-memorisation web app. Players fill in the blanked-out words
of a Bible verse from a bank of word chips. Signed-in players get a daily quota of AI
insights and prayers, can buy a premium subscription, and can make donations. Behind
the page sit three serverless functions:

- a payment-provider webhook that credits donations at most once;
- an AI proxy with a per-user rate limit;
- a payment-initialisation endpoint.

This project models the decision and bookkeeping logic of those three functions and
of the client modules:

- subscriptions and the AI quota;
- the game;
- the router;
- auth;
- profile;
- dashboard;
- the payment client.

It then proves what the code promises about that logic.

The document store is a `Store` object holding two maps, `users` and `payments`. A
document is a map from field names to JSON-like values, and the model spells out
JavaScript truthiness. Each store transaction is one atomic step. A method that
changes the store is proved equal to a pure function of the old state. Lemmas then
state what the source promises about that function:

- guard ladders;
- idempotent crediting under redelivery;
- the rate-limit window;
- quota arithmetic;
- activation;
- route tables and guards;
- the game's counters.

The identity provider, the HMAC signature check, the AI and payment providers and
`fetch` all become function-valued parameters. A thrown exception becomes a boolean
"fails" parameter. `Math.random` becomes a nondeterministic choice (`:|`).

Modules, one per source file, plus shared ones:

- `Json` covers values, truthiness, merge and increment.
- `JsString` covers white space, `trim`, ASCII case, `includes`, decimals.
- `Firestore` is the store.
- `BearerToken` is the `verifyToken` helper that two functions each carry.
- `Listeners` is the callback registry that the router and auth share.

## Model

| member | source | states |
|---|---|---|
| PaystackWebhook.HandleWebhook | functions/paystack-webhook.js:36-123 | `Webhook`: The reply and both collections after the handler are those of the guard ladder followed by the credit transaction (or no write when it rejects) |
| PaystackWebhook.NonPostRejected | functions/paystack-webhook.js:38-41 | Any method but POST gets 405 and the store is unchanged |
| PaystackWebhook.BadSignatureRejected | functions/paystack-webhook.js:43-51 | A POST whose signature predicate fails gets 401 and no write |
| PaystackWebhook.OtherEventIgnored | functions/paystack-webhook.js:53-60 | Any event but `charge.success` gets 200 "Event ignored" and no write, whatever its data |
| PaystackWebhook.MissingFieldsRejected | functions/paystack-webhook.js:62-71 | A charge without a reference or a user id gets 400 with no write, whatever its purpose |
| PaystackWebhook.NonDonationIgnored | functions/paystack-webhook.js:73-77 | A well-formed charge whose purpose is not `supporter_donation` gets 200 and no write |
| PaystackWebhook.WritesOnlyOnCredit | functions/paystack-webhook.js:66-116 | The store changes only when every guard passes, the transaction commits and the payment was not yet processed |
| PaystackWebhook.DuplicateWritesNothing | functions/paystack-webhook.js:84-118 | An already processed payment gets the same 200 as a first delivery and no write |
| PaystackWebhook.FailedTransactionRetried | functions/paystack-webhook.js:119-123 | A failing transaction gets 500 (so the provider retries) and no write |
| PaystackWebhook.FirstDeliveryCredits | functions/paystack-webhook.js:93-113 | First processing replaces the payment document with `processed` true and amount in naira. The user gets `supporterStatus` true and `supporterSince` now. `totalDonated` grows by exactly the naira amount. No other field, user or payment changes |
| PaystackWebhook.Idempotent | functions/paystack-webhook.js:84-118 | A second delivery of the same event, at any time, leaves the store and the reply as the first successful one did |
| PaystackWebhook.RedeliveryCreditsOnce | functions/paystack-webhook.js:79-123 | Any sequence of deliveries with any failure pattern ends in the state of the first committed delivery (or the initial state) |
| PaystackWebhook.AlreadyCreditedStays | functions/paystack-webhook.js:84-91 | After a committed delivery every later delivery leaves the store unchanged |
| Json.Merge | functions/paystack-webhook.js:109-113 | A merge write overwrites exactly the listed fields and keeps every other field |
| Json.Increment | functions/paystack-webhook.js:112 | An increment adds to a numeric field and sets an absent or non-numeric one to the delta |
| BearerToken.ExtractToken | functions/gemini-proxy.js:32-37 | A token is extracted exactly when the header exists and starts with `Bearer ` |
| BearerToken.ExtractTokenShape | functions/gemini-proxy.js:37 | The token is the text right after the prefix, up to the next `Bearer ` (never containing one), and all of it when there is none |
| BearerToken.VerifyToken | functions/paystack-init.js:20-34 | A missing or non-Bearer header gives no principal; otherwise the identity provider's answer for the token |
| GeminiProxy.CheckRateLimit | functions/gemini-proxy.js:51-92 | The decision and the user collection equal the rate-limit transaction's, with payments untouched |
| GeminiProxy.WindowExpiredResets | functions/gemini-proxy.js:60-70 | More than 60 000 ms after the stored time (missing counts as 0) the count restarts at 1, stamped now, and the request is allowed |
| GeminiProxy.FullWindowDenies | functions/gemini-proxy.js:72-75 | Inside the window with 10 or more requests the request is denied and nothing is written |
| GeminiProxy.InWindowCounts | functions/gemini-proxy.js:77-83 | Inside the window below the limit the count goes up by one and the stamp moves to now. Nothing else changes |
| GeminiProxy.FailsOpen | functions/gemini-proxy.js:87-91 | A failing transaction allows the request and writes nothing |
| GeminiProxy.CountStaysBounded | functions/gemini-proxy.js:56-84 | A whole-number count within 0..10 stays a whole number within 0..10 |
| GeminiProxy.InWindowRun | functions/gemini-proxy.js:64-83 | Requests each within 60 s of the previous one are allowed exactly while the count is below 10 |
| GeminiProxy.TenThenDenied | functions/gemini-proxy.js:25-83 | Starting from an expired window, eleven requests each within 60 s of the one before give ten allowed requests and then a denial |
| GeminiProxy.ValidPrompt | functions/gemini-proxy.js:133-137 | A prompt is accepted exactly when it is a non-empty string |
| GeminiProxy.Sanitize | functions/gemini-proxy.js:139-140 | The sent prompt is a prefix of at most 1000 characters, and the whole prompt when shorter |
| GeminiProxy.FullPromptShape | functions/gemini-proxy.js:147-153 | The provider prompt is a template followed by the sanitized text. The prayer template is used exactly when `type` is `prayer`, otherwise the insight template |
| GeminiProxy.HandleProxy | functions/gemini-proxy.js:100-166 | `Proxy`: The reply and user collection equal the handler ladder: 204, 405, 401, 429, 400, 500 or 200 |
| GeminiProxy.UnauthenticatedLeavesCounter | functions/gemini-proxy.js:116-124 | A POST without a `Bearer ` header gets 401 before the counter is touched |
| GeminiProxy.RateLimitBeforeValidation | functions/gemini-proxy.js:123-137 | The rate limiter's write always happens for an authenticated POST, so an invalid prompt still uses a slot. A limited request gets 429 whatever its body |
| GeminiProxy.ProviderOutcome | functions/gemini-proxy.js:142-165 | A provider answer gives 200 with its text; a provider failure gives the fixed 500 |
| PaystackInit.Interpret | functions/paystack-init.js:121-134 | `Init`, reading the provider reply: Status 200 exactly for a truthy status with data, copying the authorization URL, access code and reference. 400 exactly for a falsy status, with the provider message or the default. 500 with the fixed message for an unreachable provider or missing data |
| PaystackInit.RejectedBeforeAmount | functions/paystack-init.js:43-63 | `Validate` and `Init`: OPTIONS gets 204, other non-POST methods 405, and a POST without a verified token 401 |
| PaystackInit.AmountChecked | functions/paystack-init.js:67-71 | `Validate` and `Init`: An authenticated POST gets the amount error exactly when the amount is not a number of at least 100 |
| PaystackInit.ProviderCall | functions/paystack-init.js:73-88 | `Init`: With a valid amount the provider is called exactly when there is an email (body first, then token). The call carries that email, amount×100 kobo (at least 10 000), the callback or the default URL, the caller's uid and `supporter_donation` |
| PaystackInit.InitThenWebhookCredits | functions/paystack-init.js:80-88 | The charge event carrying back this request's metadata passes the webhook's guards to a credit for the caller, of the naira asked for |
| Subscription.Find | src/js/subscription.mjs:159 | The plan found has the id asked for; none is found exactly when no plan has it |
| Subscription.PaidPlans | src/js/subscription.mjs:10-47 | Exactly monthly, quarterly and yearly are paid. Each lasts at least 30 days and is unlimited, with prices 150000/350000/1000000 kobo and 30/90/365 days |
| Subscription.StatusRules | src/js/subscription.mjs:53-90 | `GetSubscriptionStatus`: No user, no document or a read error give the free default. Otherwise active iff a stored expiry lies strictly after now, tier from the document (or `premium`) only when active, limit unlimited iff active, and `canUseAI` iff today's count is below the limit |
| Subscription.QuotaRules | src/js/subscription.mjs:96-122 | `CheckAIUsage`: Active gives allowed and unlimited. Otherwise remaining is max(0, 3 − today's count), allowed iff it is positive, in agreement with `canUseAI` |
| Subscription.IncrementAIUsage | src/js/subscription.mjs:127-148 | The user collection after the call equals the increment function's; payments untouched |
| Subscription.IncrementCounts | src/js/subscription.mjs:135-144 | Today's count rises by one, every other day's count is dropped, and every other field and user is unchanged |
| Subscription.ThreeRequestsExhaustFreeQuota | src/js/subscription.mjs:99-144 | On a free account, after two increments in a day AI is allowed, after three it is refused with the limit message |
| Subscription.ActivateSubscription | src/js/subscription.mjs:155-181 | The outcome and user collection equal the activation function's |
| Subscription.ActivationOutcome | src/js/subscription.mjs:156-176 | No user and an unknown or free plan are refused. Activation succeeds iff the document exists and the write goes through. The expiry is now + duration × 86 400 000 ms. A success merges the plan as tier, the expiry, `supporterStatus` true and the payment's reference, date and price, keeping every other field and user; a failure writes nothing |
| Subscription.ActivationMakesActive | src/js/subscription.mjs:162-176 | From activation until just before expiry the status is active with the plan as tier, and AI use is unlimited |
| Listeners.RemoveFirstEffect | src/js/auth.mjs:33-36 | The unsubscriber removes one copy of a registered callback and leaves a list without it unchanged |
| Listeners.SubscribeThenUnsubscribe | src/js/router.mjs:203-208 | Subscribing a new callback and calling its unsubscriber gives the old list back |
| Listeners.UnsubscribeTwice | src/js/auth.mjs:33-36 | For a callback registered once, a second unsubscribe changes nothing |
| Listeners.Registry.constructor | src/js/auth.mjs:25 | A registry starts empty |
| Listeners.Registry.Subscribe | src/js/auth.mjs:30-31 | Subscribing appends the callback |
| Listeners.Registry.Unsubscribe | src/js/router.mjs:205-208 | The list after unsubscribing is the old list with the first occurrence removed |
| Listeners.Registry.Notify | src/js/auth.mjs:49 | Every callback is called, in registration order |
| Router.RouteToViewId | src/js/router.mjs:184-196 | Every route maps to one of the three views |
| Router.RouteTable | src/js/router.mjs:184-196 | Exactly `/app` gives the app and `/profile` the profile; every other route gives the landing view |
| Router.RouteRoundTrip | src/js/router.mjs:172-179 | The route written for a view leads back to that view |
| Router.HashRoute | src/js/router.mjs:147 | An empty hash reads as `/`; otherwise the hash without `#` |
| Router.AuthTargetRules | src/js/router.mjs:143-164 | Signed out always gives the landing view. Signed in gives the profile iff the route is `/profile`, else the app |
| Router.GuardRules | src/js/router.mjs:220-231 | After a hash change a signed-out user sees the landing view; a signed-in one sees the route's view |
| Router.Router.constructor | src/js/router.mjs:15-18 | No current view, auth not ready, no listener |
| Router.Router.NavigateTo | src/js/router.mjs:101-137 | Every present view is hidden. Only when the target exists is it shown, made current and given its hash (when asked), and only then are the listeners notified |
| Router.Router.HandleAuthNavigation | src/js/router.mjs:143-167 | Auth becomes ready, and the view chosen from the auth state and hash is shown with its hash |
| Router.Router.HashChange | src/js/router.mjs:220-231 | The guarded view is shown; a signed-out user ends on the landing view |
| Auth.EnsureUserDocumentEffect | src/js/auth.mjs:64-85 | A new user's document gets the display name or `Disciple`, streak 0, no supporter status and no AI use. An existing document only gets the activity date, and no other user changes |
| Auth.NewUserHasFreeQuota | src/js/auth.mjs:68-78 | A freshly created user is on the free tier with three AI requests left today |
| Auth.AuthState.constructor | src/js/auth.mjs:24-25 | No current user and no listener at load |
| Auth.AuthState.AuthChanged | src/js/auth.mjs:40-50 | The user is recorded first, a signed-in user's document is ensured, then every listener is notified in order. A store failure notifies nobody |
| Auth.AuthErrorMessages | src/js/auth.mjs:278-292 | The default message is given exactly for codes outside the nine known ones |
| Auth.AvatarInitialRules | src/js/auth.mjs:310-312 | The initial comes from the display name, else the email, else `D`, and is never a lower-case ASCII letter |
| Game.Split | src/js/game.mjs:240 | Splitting on single spaces gives at least one word and no word holds a space |
| Game.JoinSplit | src/js/game.mjs:240 | Joining the words with single spaces gives the verse text back |
| Game.Clean | src/js/game.mjs:274 | An answer holds no punctuation from the class and only characters of its word, and a one-character word is kept or dropped by whether it is punctuation |
| Game.CleanConcat | src/js/game.mjs:274 | Cleaning works character by character: the answer of a concatenation is the concatenation of the answers, so the answer is the word's non-punctuation characters in order |
| Game.CleanKeepsPlainWords | src/js/game.mjs:274 | A word without punctuation is its own answer |
| Game.CleanIdempotent | src/js/game.mjs:274 | Cleaning twice is cleaning once |
| Game.HideCount | src/js/game.mjs:245-265 | Hard hides all n words. Medium hides min(n, max(1, ⌊n/2⌋)) and any other difficulty min(n, max(1, ⌊n/5⌋)), so at least one word is hidden when there is one |
| Game.HideAll | src/js/game.mjs:258-262 | Hard mode hides every index |
| Game.HideSome | src/js/game.mjs:263-268 | The random loop ends with min(n, target) distinct indices below n |
| Game.ChooseHidden | src/js/game.mjs:253-269 | The hidden indices lie below n and number exactly the hide count, and all of them on hard |
| Game.AnswersCount | src/js/game.mjs:272-280 | There is exactly one answer per hidden index |
| Game.RenderBlanks | src/js/game.mjs:271-280 | The blanks are the cleaned hidden words in verse order, one per hidden index |
| Game.NewBoard | src/js/game.mjs:239-298 | A new board has the hide count of blanks, all empty, in verse order. The chip bank is a permutation of their answers, so there are as many chips as blanks |
| Game.DifficultyRules | src/js/game.mjs:68-88 | An active card decides (its difficulty, or easy). Otherwise the button text gives hard before medium, else easy. With neither the difficulty is unchanged |
| Game.EmptySlots | src/js/game.mjs:275 | One empty slot per answer, in order |
| Game.FirstEmpty | src/js/game.mjs:307-313 | The slot found is empty and every slot before it is filled; none is found exactly when all are filled |
| Game.MatchingChip | src/js/game.mjs:367-368 | The chip found fits the answer after trimming and no earlier chip does |
| Game.RemoveAt | src/js/game.mjs:339 | Removing a chip takes exactly that chip out of the bank |
| Game.ScriptureGame.constructor | src/js/game.mjs:13-18 | Not complete, three hints, easy, empty board |
| Game.ScriptureGame.DetectDifficulty | src/js/game.mjs:68-88 | The difficulty becomes the detected one and nothing else changes |
| Game.ScriptureGame.SetupGamePlay | src/js/game.mjs:239-298 | The board is a new board for the verse with counters at zero, and the game invariant holds |
| Game.ScriptureGame.Start | src/js/game.mjs:21-63 | The win flag and hints are reset and the difficulty detected. A fetched verse gives hide-count empty blanks with as many chips; a failed fetch leaves no slot |
| Game.ScriptureGame.HandleWin | src/js/game.mjs:383-410 | The game is complete, and the verse counts as mastered iff the difficulty is hard |
| Game.ScriptureGame.ClickChip | src/js/game.mjs:302-340 | The chip fills the first empty slot and leaves the bank. The correct count rises iff it fits, and the win fires when the count reaches the blanks. With no empty slot nothing changes; the invariant is kept |
| Game.ScriptureGame.Hint | src/js/game.mjs:355-379 | Ignored when complete or without hints. Otherwise a chip matching the first empty slot is placed correctly for one hint; without one nothing changes, and hints never go negative |
| Game.AllHiddenAnswers | src/js/game.mjs:258-280 | On hard the answers are all the cleaned words in order |
| Game.WrongPlacementBlocksWin | src/js/game.mjs:316-337 | Correct answers never exceed the blanks, and after one wrong placement the board can no longer be won |
| Game.GeminiContent | src/js/ai.mjs:16-58 | It never fails and always yields a truthy text: the provider's `content` exactly when online, signed in, a 2xx reply and a truthy `content`. Otherwise one of five fixed texts: offline, sign-in, the 429 limit, the unexpected-reply text, or "temporarily unavailable" for a failed call or any other non-2xx reply |
| Game.AIRequestRules | src/js/game.mjs:454-483 | A text is delivered iff the subscription module loads and the quota allows. Every such request is counted, raising today's count by one, whatever the provider answers, and shows what `getGeminiContent` resolved with. An exhausted quota gives the upgrade prompt; a failed module load is the `catch`. Neither writes anything |
| Game.FailedProviderCounted | src/js/game.mjs:202-207 | As written, a proxy reply of 500 to a signed-in user with no request today shows the "temporarily unavailable" text and still sets today's count to 1 |
| Game.AIRequestCountingAnswers | src/js/game.mjs:206-207 | Corrected request: the store changes only when the provider's own text came back |
| Game.CountingAnswersRules | src/js/game.mjs:206-207 | The corrected request shows what the as-written one shows. It writes what the as-written one writes when the provider answered, and nothing otherwise |
| Game.InsightClickRules | src/js/game.mjs:166-228 | After a win, offline and signed out the click shows a notice, in that order, and writes nothing. An exhausted free account gets the upgrade prompt. Every insight past those checks whose module loads is counted, whatever the provider answers; only a failed module load reaches "AI Unavailable" and writes nothing |
| Game.FourthInsightNeedsUpgrade | src/js/game.mjs:190-215 | On a fresh free day three insights report 2 … 0 remaining, whatever the provider answers each time. The fourth click is sent to the upgrade prompt with no write |
| Profile.Partition | src/js/profile.mjs:173-184 | The loop's two lists are the mastered and the in-progress entries in snapshot order |
| Profile.PartitionSplits | src/js/profile.mjs:173-184 | The two lists together hold every entry exactly once, the first only mastered ones (status mastered or hard), the second only the others |
| Profile.Level | src/js/profile.mjs:123 | Level n covers the counts 10(n−1) to 10n−1 |
| Profile.LevelCountsEveryPracticedVerse | src/js/profile.mjs:118-123 | The level uses the size of the whole collection, so it is never below the level of the mastered entries alone |
| Profile.PracticeTargetRules | src/js/profile.mjs:240-261 | A mastered verse is practised on hard. An in-progress one is offered the level just above its own (medium when none), never easy |
| Profile.LastMatch | src/js/profile.mjs:278 | The greedy book group ends at the last position where the pattern matches |
| Profile.RemoveSpaces | src/js/profile.mjs:282 | The book parameter holds no white space, and a one-character text is kept or dropped by whether it is white space |
| Profile.RemoveSpacesConcat | src/js/profile.mjs:282 | Removal works character by character: the result for a concatenation is the concatenation of the results, so it is the text's other characters in order |
| Profile.BeforeDash | src/js/profile.mjs:284 | The verse parameter is the text before the first `-` |
| Profile.ParseReferenceSpec | src/js/profile.mjs:278-286 | `ParseReference`: A link is produced exactly when the pattern matches, read from the longest book group. The book has no white space, the chapter is a non-empty digit run and the verse has no `-` |
| Profile.FormatThenParse | src/js/profile.mjs:278-286 | "book chapter:verse" parses back to the lower-cased book without spaces, the chapter, and the verse before its first `-` |
| Profile.PracticeLinkExample | src/js/profile.mjs:278-284 | `John 3:16-18` leads to john, 3, 16 |
| Profile.HandleSaveProfile | src/js/profile.mjs:336-376 | Outcome, account and user collection equal the save function's; payments untouched |
| Profile.SaveProfileRules | src/js/profile.mjs:336-369 | A blank name (iff the input is missing or all white space) changes nothing. A saved name is the trimmed input, written to both the account and the document, with nothing else changed. Saving succeeds iff neither write fails and the document exists |
| Profile.MissingDocumentRenamesOnlyAccount | src/js/profile.mjs:354-369 | Without a user document the account is renamed but the save reports failure and the store keeps no name |
| Dashboard.IndicatorFor | src/js/dashboard.mjs:171-180 | An indicator is completed iff its step is before the current one, active iff it is the current one |
| Dashboard.WizardIndicators | src/js/dashboard.mjs:167-180 | With indicators 1..n, step s shows the earlier ones completed, its own active and the later ones plain |
| Dashboard.IndicatorStates | src/js/dashboard.mjs:170-180 | The indicator classes after `goToStep`, one per indicator in page order, each given by its step |
| Dashboard.PanelStates | src/js/dashboard.mjs:183-188 | The panel classes after `goToStep`: a panel is active iff it carries the step |
| Dashboard.OnePanelActive | src/js/dashboard.mjs:183-188 | With distinct panel steps, the panel states `goToStep` sets have at most one active panel, and one exactly when some panel carries the step |
| Dashboard.DifficultyIndex | src/js/dashboard.mjs:249 | A difficulty's button index is at most 2 |
| Dashboard.DifficultyIndexInjective | src/js/dashboard.mjs:249-253 | Only easy, medium and hard have a button, each a different one |
| Dashboard.ButtonStates | src/js/dashboard.mjs:247-253 | After `setSelectedDifficulty` exactly the button at the difficulty's index is active, and none for another value |
| Dashboard.FirstActiveText | src/js/game.mjs:77-79 | The text read is that of the first active button, and there is one iff some button is active |
| Dashboard.PopularVersesFacts | src/js/dashboard.mjs:226-241 | The random action draws from ten verses, the daily verse among them |
| Dashboard.ForcedEasyOverridden | src/js/dashboard.mjs:213-220 | As written, a previously chosen hard or medium card overrides the forced easy difficulty |
| Dashboard.ForcedEasyWithoutCards | src/js/dashboard.mjs:213-220 | Without cards, a first button reading as easy gives easy; with no card and no button the last level stays |
| Dashboard.Dashboard.constructor | src/js/dashboard.mjs:12-17 | Step 1, easy, a new game |
| Dashboard.Dashboard.GoToStep | src/js/dashboard.mjs:167-189 | The current step is set and the indicator and panel classes become those for the step; difficulty, card, buttons and visibility are unchanged |
| Dashboard.Dashboard.Step1Next | src/js/dashboard.mjs:114-126 | A toast is shown iff the book or chapter is missing or empty, and then the wizard is unchanged. Otherwise the step becomes 2 with the indicator and panel classes for step 2. Difficulty, card, buttons and visibility never change |
| Dashboard.Dashboard.SetSelectedDifficulty | src/js/dashboard.mjs:247-254 | The buttons take the states for the difficulty; every other part of the page is unchanged |
| Dashboard.Dashboard.CardClick | src/js/dashboard.mjs:139-144 | The clicked card is the only active one and its difficulty is selected; step, buttons, indicators, panels and visibility are unchanged |
| Dashboard.Dashboard.Launch | src/js/dashboard.mjs:202-207 | The dashboard, header and footer are hidden, the game shown, and the game starts reset with the difficulty detected from the page; the wizard and difficulty controls are unchanged |
| Dashboard.Dashboard.StartGame | src/js/dashboard.mjs:194-208 | The buttons follow the selected difficulty; the game starts with the difficulty detected from the card active before the call, else those buttons; the wizard is unchanged and the header and footer hidden |
| Dashboard.Dashboard.StartGameWithVerse | src/js/dashboard.mjs:213-221 | As written: easy is selected and only the easy button is active, but the game plays whatever the card active before the call says; card and wizard are unchanged |
| Dashboard.Dashboard.StartGameWithVerseEasy | src/js/dashboard.mjs:213-221 | Corrected: the verse is always played on easy, with only the easy button active; card and wizard are unchanged |
| Dashboard.Dashboard.StartRandomVerse | src/js/dashboard.mjs:226-242 | As written: one of the popular verses is started through the as-written verse start, so an active card decides its difficulty |
| Dashboard.Dashboard.StartRandomVerseEasy | src/js/dashboard.mjs:226-242 | Corrected: one of the popular verses is always played on easy |
| Dashboard.Dashboard.ShowDashboard | src/js/dashboard.mjs:259-270 | Header, footer and dashboard are shown, the game hidden, and the wizard back at step 1 |
| Dashboard.CardDecidesWizardStart | src/js/dashboard.mjs:138-145 | After a card click the wizard's start plays the card's difficulty, whatever the buttons say |
| PaystackClient.ParseIntDecimal | src/js/paystack.mjs:221 | The text of a whole number parses back to it |
| PaystackClient.SupportModal.constructor | src/js/paystack.mjs:207 | The modal opens with 1000 selected and the 1000 preset active |
| PaystackClient.SupportModal.PresetClick | src/js/paystack.mjs:210-217 | A preset click selects its amount, makes it the only active preset and clears the custom field |
| PaystackClient.SupportModal.CustomInput | src/js/paystack.mjs:220-226 | A value of at least 100 becomes the amount and deactivates the presets; any other leaves both alone |
| PaystackClient.SupportModal.Proceed | src/js/paystack.mjs:229-235 | The amount paid is the custom value when at least 100, else the selected amount, and is always at least 100 |
| PaystackClient.ProceedAmountIsValid | src/js/paystack.mjs:230-231 | The proceed amount always passes the payment-init function's amount check |
| PaystackClient.StaleCustomAmount | src/js/paystack.mjs:220-231 | After an accepted custom value, a rejected one leaves the earlier amount to be paid, which differs from what the field shows (field 15, payment 150) |
| PaystackClient.SignedOutSendsNothing | src/js/paystack.mjs:18-23 | Signed out, the redirect, popup and subscription flows all stop at the sign-in prompt without any request |
| PaystackClient.ReplyHandling | src/js/paystack.mjs:41-58 | `InitializePayment` and `OpenPaystackInline`: A failed fetch is a network error; a non-2xx reply gives its truthy `error` or the default message; a body-less reply cannot be read. The redirect happens exactly for a 2xx reply with a truthy authorization URL, and the popup opens exactly for a 2xx reply carrying the transaction |
| PaystackClient.DonationReachesProvider | src/js/paystack.mjs:25-39 | `InitializePayment`: For a verified donor with an email, the donation request makes the payment-init function call the provider. The call carries the proceed amount in kobo, the email, the page origin, the uid and the donation purpose |
| PaystackClient.InlineAmountInKobo | src/js/paystack.mjs:103-108 | `OpenPaystackInline`: The popup charges 100 × the naira amount under the server's reference, which the webhook converts back to the same naira |
| PaystackClient.SubscriptionReferencesDistinct | src/js/paystack.mjs:284 | References of the same plan and user at different milliseconds differ |
| PaystackClient.SubscriptionCheckoutRules | src/js/paystack.mjs:259-291 | `InitializeSubscriptionPayment`: A popup opens exactly for the three paid plans, charging 150000/350000/1000000 kobo in NGN under a `sub_` reference. Any other plan is refused |
| PaystackClient.SubscriptionChargeRejectedByWebhook | src/js/paystack.mjs:285-291 | A subscription charge carries only `custom_fields`, so the webhook answers it 400 "Missing required fields" and credits nothing |

## Left out

- Firebase SDK calls, HTTP, `fetch` and the Bible-verse API are left out. The store is a pair of maps, and the identity provider, the AI provider, the payment provider and the verse fetch are parameters.
- The HMAC-SHA512 signature and `JSON.stringify` re-serialisation are left out; signature checking is an uninterpreted predicate parameter.
- Concurrency and transaction retries are left out. Each transaction body is one atomic step.
- Wall clock and day keys are parameters. `Date.now()` and `serverTimestamp()` share one clock, so clock skew is not modelled.
- JavaScript numbers are exact `real`s or integers. NaN, `Infinity` (the `Unlimited` case stands for it) and float rounding of the 0.2 and 0.5 factors are not modelled. A non-numeric `aiRequestCount` or day count reads as 0 rather than by JavaScript coercion.
- Strings are sequences of characters rather than UTF-16 code units. Case mapping is ASCII only, and `\s` is the JavaScript white-space set.
- `innerText` normalisation is not modelled: a chip's and a slot's text are their exact strings.
- `Math.random` becomes a nondeterministic choice: the hidden indices, the chip order (any permutation) and the random verse.
- Game.HideSome: a random draw of an index that is already hidden changes nothing and is not modelled as a separate step.
- DOM rendering and UI are left out: modals, toasts, loaders, animations, confetti, progress bar, hint-button label, win-modal text, `setTimeout`, scrolling.
- `saveMasteredVerse`, `updateStreakUI` and `getVerse` are left out because their helper modules are not part of this model. `getVerseInsight` and `getVersePrayer` only build a prompt for `getGeminiContent`; the prompt text is left out. The proxy call is a `ProxyAnswer` parameter. `CallFailed` stands for a failed ID token, fetch or body read. The connection state seen by the button and by `getGeminiContent` is taken to be the same.
- Auth sign-in, sign-up and sign-out are left out: they are SDK wrappers whose only logic is the error-code mapping. The auth modal and the header UI other than the avatar initial are left out too.
- The photoURL branch of the avatar is left out.
- `getAuthErrorMessage` is modelled on plain codes only: keys inherited from the object prototype are not.
- Profile page rendering, badges, the empty-list state, the mastery tabs and the sign-out button are left out.
- Dashboard loading (books, chapters and verses from the helper module), the welcome section, the testament toggle and the premium banner are left out.
- The page's initial `active` classes are left out. The dashboard's constructor takes the active card and treats every other element as inactive.
- Router: `showLoading`, `hideLoading`, the fade-in class and `scrollTo` are left out. A hash written by the hashchange handler itself triggers another hashchange event in a browser; that re-entry is not modelled.
- `getIdToken` failures and a failure to load the payment popup script are left out. The token is a parameter and the script is taken as loaded.
- The popup's `onClose` and success callbacks are left out. The activation the subscription callback performs is `Subscription.ActivateSubscription`.
- The webhook's two throwing edges are left out: an event without `data` throws while reading its reference (functions/paystack-webhook.js:62), and a `customer.email`, `status`, `channel` or `paid_at` that is undefined makes the payment write throw (lines 98-104). Both reply 500. The charge record always carries these fields, as the provider sends them.
- Router.Router.HandleAuthNavigation: states the view chosen and its hash, not the classes of the other views, which `NavigateTo`'s contract gives.
- Router.Router.HashChange: states the view shown, not the classes and hash, which `NavigateTo`'s contract gives.
- Game.ScriptureGame.Start: for a fetched verse it states the board's size and emptiness, not the blanks themselves, which `SetupGamePlay`'s contract gives.

## Findings

| source | as written | input that shows it | evidently intended | confidence | as-written member | corrected member |
|---|---|---|---|---|---|---|
| src/js/dashboard.mjs:213-215 | `startGameWithVerse` forces easy only by activating the first `.difficulty-section` button. The game's `detectDifficulty` reads an active `.difficulty-card` first (src/js/game.mjs:70-74) | Click the hard card in the wizard, go back, then press the random-verse or daily-verse button: the verse is played on hard (`Dashboard.Dashboard.StartRandomVerse`) | The daily and random verses start on easy, as the code's own comment and assignment say | medium, not executed (depends on the page keeping the card active) | Dashboard.ForcedEasyOverridden | Dashboard.Dashboard.StartGameWithVerseEasy |
| src/js/game.mjs:204-207 | Both AI buttons call `incrementAIUsage` after `getVerseInsight` / `getVersePrayer` whatever they resolved with. `getGeminiContent` never throws: failures come back as fallback texts (src/js/ai.mjs:41-57) | A signed-in free user with requests left clicks Insight while the proxy answers 500 (`Game.FailedProviderCounted`) | Count only a request that brought back the provider's text, as the comment "Increment usage after successful request" says | medium, not executed | Game.FailedProviderCounted | Game.AIRequestCountingAnswers |
