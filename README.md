# Credits and payments of the AI image editor Mini App

The system is the server side of a Telegram Mini App. Users buy credits
with Telegram Stars (currency `XTR`) and spend one credit per image job.
This project models its core in Dafny and proves properties of that model:

- **Identity.** `initData` is the signed query string Telegram hands the
  Mini App. Every authenticated handler checks its HMAC signature, then
  reads the user id from its `user` parameter (modules `InitData`,
  `QueryString`, `Json`).
- **Ledger.** The `user_credits`, `payments`, `referrals` and `admins`
  tables are fields of a `Store` class. Its methods are proved against pure
  ledger functions (modules `Store`, `Ledger`).
- **Payment webhook.** Telegram posts the pre-checkout query and the
  `successful_payment` update here. The webhook checks the order, records
  it once, and credits the buyer (module `Webhook`).
- **Handlers.** `consume` takes one credit and refunds it when the image job
  fails. `create-invoice`, `balance`, `balance-with-referral`,
  `referral-link` and `admin-test` are each an early-return chain that
  ends in a status code (one module each; `QueryGate` is the gate the three
  GET handlers share).
- **Rate limiter.** A fixed-window counter per `action:userId`, as a class
  over a map with the clock passed in (module `RateLimit`).
- **Validators and catalogs** (modules `Validation`, `Catalog`,
  `TestMode`), and the payment test script's acceptance rule
  (`PaymentCheck`).
- **Small tools:**
  - the `initData` signer script (`GenInitData`);
  - the client hook's error text, retry bound and balance updates
    (`ClientPayments`);
  - the `.env` checker (`EnvCheck`);
  - the two CORS middlewares (`Cors`, `ServerCors`).

The model is sequential: each ledger call is atomic. These are parameters of
the model:

- the HMAC-SHA256 keyed hash (`Mac`);
- the platform's `JSON.parse` (`JsonParser`);
- the platform URL parser used by the CORS code (`HostnameOf`);
- the outcome of every outgoing HTTP call: `Ok`, `NonOk(status)`,
  `Timeout` or `NetworkError`;
- the faults a database call reports where the code inspects them;
- the clock `now`.

A handler's result is a `Reply`. It is `Sent(response)`, or `Unhandled`
when the async handler rejects without answering.

The handlers call `require('./_shared')`. The model takes
`server/api/_shared.js` as the content of that module.

## Model

| member | source | states |
|---|---|---|
| InitData.Hex | server/api/_shared.js:87-88 | the hex rendering has two lower-case hex digits per byte |
| InitData.HexInjective | server/api/_shared.js:87-89 | distinct digests have distinct hex strings, so comparing hex strings compares digests |
| InitData.CheckLines | server/api/_shared.js:84-85 | the check string has one `k=v` line per remaining name, in sorted name order; a repeated name gives one line per occurrence, each with its first value |
| InitData.ExpectedHash | server/api/_shared.js:83-88 | the expected hash is the hex MAC, keyed by `SecretKey` (`HMAC("WebAppData", token)`), over `CheckString` (the sorted `key=value` lines) of the pairs with `hash` removed |
| InitData.VerifyPairs | server/api/_shared.js:82-89 | accepted iff `hash` is present and equals the expected hash |
| InitData.VerifyInitData | server/api/_shared.js:79-92 | on a string: accepted iff its parsed pairs verify; a missing `hash` gives false |
| InitData.InitPairs | server/api/_shared.js:81 | `URLSearchParams` of any value: arrays of pairs, objects and the string form of other values; a constructor that throws gives `None` |
| InitData.VerifyInitDataValue | server/api/_shared.js:79-92 | for any value, a throwing parse is caught and gives false; otherwise the verdict is the one on the parsed pairs |
| InitData.ForgeryNeedsCollision | server/api/_shared.js:82-89 | two pair lists that carry the same hash and both verify have check strings on which the MAC collides |
| InitData.WrongTokenNeedsCollision | server/api/_shared.js:86-89 | data signed under one token verifies under another only if the two MAC outputs collide |
| InitData.CheckStringIgnoresOrder | server/api/_shared.js:84-85 | the check string depends only on the multiset of names and each name's first value, not on pair order |
| InitData.DuplicateNameUsesFirstValue | server/api/_shared.js:84-85 | a name given twice contributes two lines, both carrying its first value |
| InitData.UserIdOfPairs | server/api/_shared.js:94-104 | `Number(user.id)` when `user` parses and its id is truthy; null when `user` is absent or malformed, or the id is 0 or absent |
| InitData.GetUserIdFromInitData | server/api/_shared.js:94-104 | on a string, the user id of its parsed pairs |
| InitData.UserIdOfNumericId | server/api/_shared.js:98-101 | a user object with numeric id `n` gives `n`, except that 0 gives null |
| InitData.UserIdOfValue | server/api/_shared.js:94-104 | for any value whose parse does not throw, the user id of its pairs; a throw gives null |
| InitData.Authenticate | api/balance.js:35-49 | the three checks in order: a token is set (else 500), the signature verifies (else 401), a truthy user id is found (else 400) |
| InitData.GetStartParam | server/api/_shared.js:106-109 | `start_param`, else `startapp`, else null; an empty value falls through |
| Store.MarkedFailed | api/webhook.js:79-81 | every row with the reference becomes `failed` with the message; every other row is unchanged, and the row count stays the same |
| Store.MarkedFailedAbsent | api/webhook.js:79-81 | marking a reference no row carries changes nothing |
| Store.UserKey | server/api/_shared.js:112-114 | the `bigint` key column accepts an integer, or digits with an optional sign, and rejects anything else |
| Store.AdminWhitelist | server/api/_shared.js:7 | the trimmed comma-separated entries of `ADMINS`; empty when the variable is unset |
| Store.Store.constructor | server/api/_shared.js:111-143 | all tables start empty |
| Store.Store.GetUserCredits | server/api/_shared.js:140-143 | returns the balance, 0 for an absent account; no account is created and nothing changes |
| Store.Store.EnsureUserWithWelcomeCredit | server/api/_shared.js:111-120 | an existing balance is returned unchanged; an absent account is created with 3 and 3 is returned; a reported insert error throws and writes nothing |
| Store.Store.AddCredits | server/api/_shared.js:122-131 | the balance becomes the old one (0 if absent) plus `n`, and is returned; no other account changes |
| Store.Store.ConsumeOneCredit | server/api/_shared.js:133-138 | returns true iff the account exists with a positive balance, and then debits exactly 1; otherwise nothing changes |
| Store.Store.AddOneIfPresent | api/consume.js:143-155 | an existing account gets exactly one credit more; an absent one is not created |
| Store.Store.HasPayment | api/webhook.js:44-52 | true iff some `payments` row carries the reference |
| Store.Store.InsertPayment | api/webhook.js:62-75 | appends exactly one row; the other tables are untouched |
| Store.Store.MarkPaymentsFailed | api/webhook.js:79-81 | the payments become `MarkedFailed` of the old ones; the other tables are untouched |
| Store.Store.HasReferralFor | api/balance-with-referral.js:62-69 | true iff a `referrals` row has the user as invitee |
| Store.Store.InsertReferral | api/balance-with-referral.js:73-79 | appends exactly one referral row |
| Store.Store.HasAdminRow | server/api/_shared.js:25-35 | true iff an `admins` row has the user (and role `super_admin` when asked) |
| Store.Store.IsAdmin | server/api/_shared.js:14-41 | a falsy id gives false; a whitelisted id gives true without a lookup; otherwise true iff the lookup does not fail and finds a row |
| Store.Store.IsSuperAdmin | server/api/_shared.js:48-70 | the whitelist plays no part; true iff the lookup does not fail and finds a `super_admin` row |
| Ledger.WithWelcome | server/api/_shared.js:111-120 | an absent account is created with 3; every existing account is unchanged |
| Ledger.Credited | server/api/_shared.js:122-131 | account `u` is created with `n` or grows by `n`; every other account is unchanged |
| Ledger.Debited | server/api/_shared.js:133-138 | one credit less for a positive balance, nothing otherwise; the balance never becomes negative |
| Ledger.Bumped | api/consume.js:143-155 | one credit more for an existing account; an absent one is not created |
| Ledger.WelcomeIdempotent | server/api/_shared.js:111-120 | a second welcome grant changes nothing; a new account ends with 3 either way, and there is one account |
| Ledger.RefundUndoesDebit | api/consume.js:99-106 | a successful debit followed by the refund leaves the table as it was |
| Ledger.DebitRunCount | server/api/_shared.js:133-138 | from balance `b`, `k` debit attempts succeed exactly `min(b, k)` times and leave `b - min(b, k)` |
| Webhook.SuccessfulPayment | api/webhook.js:29-32 | the `successful_payment` of an update, when it is present and truthy |
| Webhook.PreCheckoutCalls | api/webhook.js:20-28 | any pre-checkout query is answered `ok: true` without checks whenever a token is set |
| Webhook.Decide | api/webhook.js:29-61 | an accepted order names a pack of the map, carries its mapping, passes the amount, currency and provider checks, has a truthy user id and a charge id no recorded row carries; a duplicate's charge id is recorded |
| Webhook.Classify | api/webhook.js:29-61 | the decision of the early-return chain: ignored (no payment, bad payload, missing fields, unknown pack), duplicate, rejected, or accepted with the pack's mapping |
| Webhook.StoredRef | api/webhook.js:68 | the `payment_ref` written is SQL null exactly when the charge id is absent or null |
| Webhook.ScalarChargeStored | api/webhook.js:44-68 | a string, number or boolean charge id is stored as the text the duplicate lookup later compares with |
| Webhook.Fulfil | api/webhook.js:62-81 | acceptance adds exactly one completed row with the pack's amount, credits and stored charge id, and credits (old balance or 3) plus the pack's credits; a failed insert changes nothing; a failure after the insert marks failed the rows whose `payment_ref` equals the charge id text |
| Webhook.ProcessUpdate | api/webhook.js:17-88 | nothing in the store changes unless the order is accepted; an accepted order whose insert fails leaves the payments as they were, one whose welcome insert fails leaves its row marked failed, and a successful one adds one completed row and credits the pack on top of the welcome; a notification goes out only with a bot token and a chat id, and only after success |
| Webhook.Handle | api/webhook.js:8-90 | OPTIONS gets 200, another non-POST method gets 405, and a POST gets `200 {ok: true}` whatever the processing does; a POST whose update is not accepted changes nothing and makes only the pre-checkout call, a failed order leaves the credits alone and the payments unchanged or its row marked failed, and a successful one adds one completed row and credits the pack on top of the welcome |
| Webhook.RedeliveryIsDuplicate | api/webhook.js:44-52 | after an order whose charge id is a string, number or boolean is recorded, a second delivery of the same update is a duplicate and changes nothing |
| Webhook.ChargelessRedeliveryAccepted | api/webhook.js:44-70 | an order with no charge id is stored with a null `payment_ref`, so a second delivery of it is decided exactly as the first and is credited again |
| Webhook.DuplicateStays | api/webhook.js:44-52 | a duplicate stays a duplicate whatever rows are added later, including a row marked failed |
| Webhook.UnauthenticatedOrderAccepted | api/webhook.js:33-39 | any sender naming any user in the payload, at the pack's price, gets the order accepted for that user |
| Webhook.StarsUpdateFields | api/webhook.js:29-61 | the fields of an update read back as the charge id, amount, currency, provider token and payload |
| Webhook.PayloadFields | api/webhook.js:33-39 | a payload that parses to `{userId: u, sku}` yields that user and pack |
| Webhook.ScaledAmountRejected | api/webhook.js:53-61 | 5000 Stars for `pack12` is rejected |
| Webhook.TestSkusNeverCredited | api/webhook.js:40-43 | test packs are never credited, in test mode or not |
| Webhook.SuccessBalance | api/webhook.js:76-77 | success leaves the buyer with the earlier balance (3 for a new account) plus the pack's credits |
| Consume.BodyError | api/consume.js:24-56 | the first body check that fails gives its 400: missing fields, initData format, image, prompt, then chat id |
| Consume.FirstInvalid | api/consume.js:28-56 | the 400 of the first failed check in list order, and none when every check passes |
| Consume.Gate | api/consume.js:24-74 | body checks come before the token check (500), the signature (401) and the user id (400); each failure ends the request |
| Consume.Job | api/consume.js:119-123 | the forwarded job is the image, the prompt and `String(chat_id \|\| userId)` |
| Consume.AbortReply | api/consume.js:186-193 | the abort branch answers 504 iff `userId` is in scope at the catch block |
| Consume.TimeoutUnansweredAsWritten | api/consume.js:188 | with the scope as written, a timed-out job is refunded but no response is sent |
| Consume.TimeoutAnsweredIntended | api/consume.js:193 | with `userId` in scope, the timed-out job is answered 504 |
| Consume.Charge | api/consume.js:95-196 | the welcome grant, then the debit (402 and nothing else on failure), then the job; a non-ok answer refunds one credit and answers 500; a timeout refunds one credit and leaves the request unanswered; a missing URL or another error answers 500 with no refund |
| Consume.ChargeAccounting | api/consume.js:96-196 | the balance drops by exactly one on the charged paths and is refunded in full when the job fails or times out; the job is submitted only after a successful debit |
| Consume.WelcomeFailureChangesNothing | api/consume.js:96 | a failed welcome insert for a new user touches no credits and calls nothing |
| Consume.ChargedWithoutJob | api/consume.js:115-118 | a credit is kept with no job running only for a missing webhook URL or a rejection other than the timeout |
| Consume.TimeoutRefundedUnanswered | api/consume.js:173-190 | a timed-out job leaves the credits as they were before the request, was sent to the webhook URL, and gets no response |
| Consume.ChargeStep | api/consume.js:95-196 | the store's credits end as `Charge` computes, including the timeout left unanswered, and the reply and outgoing call match it |
| Consume.Submit | api/consume.js:114-196 | the webhook step changes no other user's balance |
| Consume.SubmitStep | api/consume.js:114-196 | the store's credits end as `Submit` computes: refunded once after a non-ok answer or a timeout, untouched otherwise; a timeout gets no response; the reply and the outgoing call match it |
| Consume.Admitted | api/consume.js:12-74 | the user admitted is the one a POST passing the gate names |
| Consume.EarlyReply | api/consume.js:12-74 | OPTIONS 200, another non-POST 405, else the gate's answer |
| Consume.Serve | api/consume.js:76-196 | the request is counted under `consume:<u>`; a limiter that throws answers 500 and changes nothing; a limited one is answered 429 but the ledger still changes as `Charge` says; otherwise the reply is `Charge`'s, unanswered on a timeout |
| Consume.Handle | api/consume.js:10-198 | a request that is not admitted gets `EarlyReply` and changes nothing; an admitted one is counted and then answered and charged as `Charge` says, a timeout left unanswered |
| CreateInvoice.FriendlyMessage | api/create-invoice.js:296-317 | keyword rules choose a fixed text; the message itself is shown only in development |
| CreateInvoice.MessageHiddenOutsideDevelopment | api/create-invoice.js:296-317 | outside development, an error's own message is never shown unless it equals one of the fixed texts |
| CreateInvoice.BodyCheck | api/create-invoice.js:26-50 | a missing, null or empty initData or sku gives 400, and a sku outside the four base packs gives 400 |
| CreateInvoice.AuthCheck | api/create-invoice.js:52-89 | token 500, signature 401, user id 400, before any provider call |
| CreateInvoice.Gate | api/create-invoice.js:25-89 | the user and pack, or the first failing check's response |
| CreateInvoice.SafeLabel | api/create-invoice.js:141-147 | the pack's label, or the trimmed fallback label |
| CreateInvoice.InvoicePayload | api/create-invoice.js:153 | the payload is the JSON text of `{userId, sku}` |
| CreateInvoice.InvoiceFor | api/create-invoice.js:149-160 | the invoice carries the payload, `provider_token: ''`, currency `XTR`, and one price of `mapping.xtr` |
| CreateInvoice.Mapping | api/create-invoice.js:120-127 | the base pack's mapping, or the test pack's in test mode |
| CreateInvoice.Order | api/create-invoice.js:120-169 | a missing mapping or `xtr <= 0` gives 400; otherwise the invoice for the mapping |
| CreateInvoice.NoTestInvoices | api/create-invoice.js:46-50 | a pack that passes `validateSKU` is a base pack, so no invoice is ever for a test pack |
| CreateInvoice.HttpErrorDetail | api/create-invoice.js:187-206 | the JSON `description`, an `error_code` line, or the first 200 UTF-16 units of the body text, falling back to `HTTP <status>: <statusText>` |
| CreateInvoice.ResultReply | api/create-invoice.js:235-278 | `ok === false` or a missing `result` gives 500 `Failed to create invoice`; otherwise 200 with `invoiceLink = result` |
| CreateInvoice.BotReply | api/create-invoice.js:179-278 | a non-ok status or a rejected fetch gives 500, and a 2xx gives `ResultReply` of the parsed body |
| CreateInvoice.LinkIsBotResult | api/create-invoice.js:276-278 | a 200 answer carries exactly the Bot API's `result` |
| CreateInvoice.Admitted | api/create-invoice.js:13-89 | the user and pack a POST passing the gate names |
| CreateInvoice.EarlyReply | api/create-invoice.js:13-89 | OPTIONS 200, another non-POST 405, else the gate's answer |
| CreateInvoice.Invoice | api/create-invoice.js:120-278 | the answer and the Bot API call after the limiter |
| CreateInvoice.Serve | api/create-invoice.js:93-278 | a limited request gets 429 and ends with no call; a limiter that throws is ignored |
| CreateInvoice.Handle | api/create-invoice.js:13-328 | a request that is not admitted gets `EarlyReply` and leaves the limiter alone; an admitted one counts against the invoice limiter, gets the limiter's 429 and no Bot API call when limited, and otherwise gets the `createInvoiceLink` call for its pack and the reply for the Bot API's answer |
| CreateInvoice.InvoicePaidIsAccepted | api/create-invoice.js:149-160 | when the parser inverts the payload text, paying the invoice's price for a fresh charge id makes the webhook accept the order for the same user and pack |
| Balance.Gate | api/balance.js:21-49 | missing initData 400, bad format 400 (a repeated `initData`, which arrives as an array, included), token 500, signature 401, user id 400, in that order; only a single text is ever admitted |
| Balance.Admitted | api/balance.js:12-49 | the user a GET passing the gate names |
| Balance.EarlyReply | api/balance.js:12-49 | OPTIONS 200, another non-GET 405, else the gate's answer |
| Balance.BalanceResponse | api/balance.js:72-75 | 200 with `success`, `credits` and `userId` |
| Balance.Query | api/balance.js:69-80 | the balance after the welcome grant (3 for a new user), or 500 with the message on a failed insert, which changes nothing |
| Balance.QueryIdempotent | api/balance.js:69-75 | asking twice gives the same balance, and the second request changes nothing |
| Balance.Serve | api/balance.js:51-80 | a limited request is answered 429 but the welcome grant still happens |
| Balance.Handle | api/balance.js:10-81 | a request that is not admitted gets `EarlyReply` and changes nothing |
| BalanceWithReferral.InviterOf | api/balance-with-referral.js:57-60 | the inviter is `parseInt` of what follows `ref_`; NaN, 0 and the caller's own id name nobody |
| BalanceWithReferral.InviterOfLink | api/balance-with-referral.js:58-59 | `ref_<u>` names inviter `u` for every other caller, for `u != 0` |
| BalanceWithReferral.Refer | api/balance-with-referral.js:60-110 | with an inviter and no row for the invitee, one row is inserted even for an inviter with no account, and the inviter's account gets +1 if it exists; otherwise nothing changes |
| BalanceWithReferral.ReferKeepsUniqueInvitees | api/balance-with-referral.js:62-80 | each invitee is in at most one row before and after |
| BalanceWithReferral.ReferAtMostOnce | api/balance-with-referral.js:62-69 | once `u` is an invitee, any later referral of `u` changes nothing |
| BalanceWithReferral.ReferPaysOnlyInviter | api/balance-with-referral.js:82-93 | the inviter's balance changes by at most one, and nobody else's changes |
| BalanceWithReferral.FailureUnansweredAsWritten | api/balance-with-referral.js:121 | with the scope as written, a failure leaves the client without an answer |
| BalanceWithReferral.FailureAnsweredIntended | api/balance-with-referral.js:122-125 | with `userId` in scope, the failure is answered 500 with its message |
| BalanceWithReferral.BalanceReply | api/balance-with-referral.js:114-118 | 200 carrying `credits` and `userId` |
| BalanceWithReferral.WelcomeFailureChangesNothing | api/balance-with-referral.js:53-126 | a failed welcome insert changes neither table, and the client gets no answer |
| BalanceWithReferral.ReportsCallerBalance | api/balance-with-referral.js:53-126 | after a successful welcome grant, `Serve` (the handler body) leaves the caller with the old balance or 3, since referral never touches the caller, and answers with exactly that balance, unless `startParam` is repeated, which leaves the request unanswered |
| BalanceWithReferral.RepeatedStartParamUnanswered | api/balance-with-referral.js:57-58 | a repeated `startParam` (an array, without `startsWith`) keeps the welcome grant, refers nobody, and leaves the client without an answer |
| BalanceWithReferral.ServeKeepsUniqueInvitees | api/balance-with-referral.js:62-80 | no request puts a second row for one invitee |
| BalanceWithReferral.ReferredCallerChangesNothing | api/balance-with-referral.js:62-69 | an existing caller who is already an invitee changes nothing, whatever start parameter they bring |
| BalanceWithReferral.ReferralRecordsCaller | api/balance-with-referral.js:73-80 | a request naming an inviter records the caller as invitee |
| BalanceWithReferral.ExistingUserCanBeReferred | api/balance-with-referral.js:53-80 | an existing user is still referred by a first `ref_` link |
| BalanceWithReferral.ServeStep | api/balance-with-referral.js:53-126 | the store ends as `Serve` computes, and the reply is its reply: a failed welcome insert changes nothing and is left unanswered |
| BalanceWithReferral.Handle | api/balance-with-referral.js:10-127 | a request that is not admitted gets `EarlyReply` (no answer for a repeated `initData`) and changes nothing; an admitted one ends as `Serve` computes, so a failed welcome insert or a repeated `startParam` is left unanswered |
| QueryGate.PlainError | api/balance-with-referral.js:27 | the error response `{error}` with the given status |
| QueryGate.FailureReply | api/balance-with-referral.js:120-126 | the shared catch block answers 500 with the message iff `userId` is in its scope, and otherwise sends nothing |
| QueryGate.Gate | api/balance-with-referral.js:23-48 | missing or empty initData 400, token 500, signature 401 for a single text, user id 400, in that order; a repeated `initData` that fails the signature is passed to the catch block |
| QueryGate.ListNeverVerifies | server/api/_shared.js:79-92 | an array of texts never verifies: the constructor throws on a text element, and an empty array has no `hash` |
| QueryGate.ListInitDataUnanswered | api/balance-with-referral.js:38-41 | with a token configured, a repeated `initData` gets no answer at all, because `initData.substr` throws and the catch block throws on `userId` |
| QueryGate.Admitted | api/referral-link.js:17-48 | the user a GET passing the gate names |
| QueryGate.EarlyReply | api/referral-link.js:10-48 | OPTIONS 200, another non-GET 405, else the gate's answer, which for a repeated `initData` is no answer |
| QueryGate.ListInitDataRequestUnanswered | api/referral-link.js:22-41 | a GET whose `initData` is repeated is never admitted and, with a token configured, gets no answer |
| ReferralLink.StartTokenParses | api/referral-link.js:57-63 | the query `name=ref_<u>` parses back to `ref_<u>` under `name` |
| ReferralLink.BotLinkNamesOwner | api/referral-link.js:59 | the bot link's parsed query has `start = ref_<u>` |
| ReferralLink.MiniAppLinkNamesOwner | api/referral-link.js:62 | the Mini App link's parsed query has `startapp = ref_<u>` |
| ReferralLink.WebLinkNamesOwner | api/referral-link.js:63 | the web link's parsed query has `startapp = ref_<u>` |
| ReferralLink.LinksResponse | api/referral-link.js:67-75 | 200 with `userId` and the three links |
| ReferralLink.Handle | api/referral-link.js:10-84 | only an admitted caller gets 200 with a body, built with `your_bot_username` and the fixed base URL as defaults; any other request gets `EarlyReply`, so nothing is sent for a repeated `initData` |
| ReferralLink.DefaultMiniAppLinkNamesOwner | api/referral-link.js:53-62 | with the default bot name, the Mini App link names its owner as inviter for every other caller |
| AdminTest.SuperAdminIsAdmin | server/api/_shared.js:14-70 | when both lookups (`AdminBy`, `SuperAdminBy`) succeed, a super admin is an admin |
| AdminTest.FeaturesFor | api/admin-test.js:71-76 | `canAccessAdminPanel` is always true; the other three flags equal `isSuperAdmin` |
| AdminTest.TopByPaidAt | api/admin-test.js:104-110 | the latest `n` payments, latest first |
| AdminTest.TopDrawn | api/admin-test.js:104-108 | the rows shown are payment rows, each at most as often as the table holds it, and the whole table when it has at most `n` rows |
| AdminTest.TopSorted | api/admin-test.js:107 | the payments are in non-increasing `paid_at` order |
| AdminTest.TopKeepsLater | api/admin-test.js:107-108 | no row later than the last one shown is left out |
| AdminTest.TestInfoFor | api/admin-test.js:65-116 | stats and recent payments appear only for a super admin; a failed query gives `systemStatsError` instead |
| AdminTest.LatestPaymentsShown | api/admin-test.js:104-110 | a super admin sees at most five payments, the latest first |
| AdminTest.BuildTestInfo | api/admin-test.js:65-116 | the object the handler builds step by step is `TestInfoFor` |
| AdminTest.InfoJson | api/admin-test.js:65-116 | members added later come after the others, in the order they were set |
| AdminTest.Granted | api/admin-test.js:130-134 | 200 with the admin status and the test info |
| AdminTest.Serve | api/admin-test.js:56-134 | for an admitted user: 403 unless whitelisted or found by a lookup that did not fail; otherwise `Granted` with the report for the super-admin flag the second lookup gives |
| AdminTest.Handle | api/admin-test.js:5-142 | a 404 in production unless enabled (`Hidden`); then the gate, which sends nothing for a repeated `initData`; a non-admin gets 403; otherwise `Granted` |
| AdminTest.FailedAdminLookupTurnsSuperAdminAway | api/admin-test.js:56-62 | a caller the admin lookup does not find gets 403 even if the super-admin lookup finds them |
| RateLimit.CeilSeconds | api/_rateLimit.js:40 | the least whole number of seconds covering the milliseconds |
| RateLimit.Step | api/_rateLimit.js:13-52 | a new key or an ended window starts at count 1 with `remaining = max - 1`; a full window is limited with `remaining = 0`, the count unchanged and the retry time rounded up; otherwise the count grows by 1 |
| RateLimit.StepBounded | api/_rateLimit.js:13-52 | with `max >= 1` the stored count never exceeds `max` |
| RateLimit.RunInsideWindow | api/_rateLimit.js:36-51 | inside one window, `Run` of the limiter over a run of requests lets at most `max - count` further requests pass |
| RateLimit.AtMostMaxPerWindow | api/_rateLimit.js:13-52 | of all requests before a key's first window ends, at most `max` pass |
| RateLimit.InstanceBudgets | api/_rateLimit.js:95-97 | in the minute after a key is first seen, at most 5 consume, 20 balance and 10 invoice requests pass |
| RateLimit.Live | api/_rateLimit.js:57-64 | the entries kept are those whose window has not ended |
| RateLimit.CleanupUnobservable | api/_rateLimit.js:57-64 | after cleanup, any later request gets the same answer and leaves the same entry |
| RateLimit.KeyUser | api/_rateLimit.js:71-72 | `req.userId`, else `req.query.userId` as the template literal writes it (a repeated one joined by commas), else `anonymous` |
| RateLimit.RateLimiter.constructor | api/_rateLimit.js:4-8 | an empty map with the given window and maximum |
| RateLimit.RateLimiter.IsRateLimited | api/_rateLimit.js:13-52 | answers as `Step`; only the key's entry changes and the count invariant is kept |
| RateLimit.RateLimiter.Cleanup | api/_rateLimit.js:57-64 | deletes exactly the ended entries and leaves the rest untouched |
| RateLimit.RateLimiter.Middleware | api/_rateLimit.js:69-91 | counts the request under `action:user`, sets the limit headers (`HeadersOf`), and answers 429 without calling `next` when limited (`VerdictOf`) |
| Validation.ValidateInitData | api/_validation.js:6-27 | valid iff a non-empty string with non-empty `hash` and `user`, and `user` parses |
| Validation.ValidateSku | api/_validation.js:32-43 | valid iff one of `pack12`, `pack30`, `pack60`, `pack88` |
| Validation.PureBase64 | api/_validation.js:55 | the piece after the first comma, or the whole string when that piece is empty or absent |
| Validation.ValidateBase64Image | api/_validation.js:48-69 | the piece must match the base64 alphabet with at most two `=` (`MatchesBase64`) and decode to at most 3 MiB (`Base64ByteLength`); the oversize message says 5MB |
| Validation.PaddedEncodingLength | api/_validation.js:62 | the size estimate of a padded encoding of `m` bytes is exactly `m` |
| Validation.ImageSizeLimit | api/_validation.js:62-66 | a bare padded image of `m` bytes passes iff `0 < m <= 3 MiB` |
| Validation.ValidatePrompt | api/_validation.js:74-88 | valid iff a string of 3 to 1000 UTF-16 units |
| Validation.ValidateChatId | api/_validation.js:93-104 | a falsy value is missing; otherwise valid iff `String(v)` is a non-empty run of digits |
| Validation.ChatIdNumber | api/_validation.js:93-104 | a numeric chat id is valid iff it is positive |
| Validation.MissingFields | api/_validation.js:113-117 | the absent fields, in the given order |
| Validation.BlankFields | api/_validation.js:119-121 | the fields present but null, undefined or empty, in order |
| Validation.RequiredFieldsReport | api/_validation.js:124-136 | missing fields are reported before blank ones |
| Validation.ReportValid | api/_validation.js:124-138 | the report is valid iff no field is absent or blank |
| Validation.RequiredFields | api/_validation.js:109-139 | a body that is a primitive throws a `TypeError`; otherwise the report of the two lists |
| Validation.ValidateRequiredFields | api/_validation.js:109-139 | the loop's result is `RequiredFields` |
| Validation.ErrorResponse | api/_validation.js:144-151 | `{success: false, error, details}`, with null for absent details |
| Validation.SuccessResponse | api/_validation.js:156-162 | `{success: true}` merged with the data; the data's keys win |
| Validation.AuthResponse | api/consume.js:59-74 | token 500, signature 401, user id 400, in that order |
| Json.SpreadLookup | api/_validation.js:156-162 | after a spread, a key has the value the second object gives it, else the first's |
| Json.UnescapeEscape | api/create-invoice.js:153 | reading back the escapes `JSON.stringify` (`Json.Stringify`) writes gives the string |
| Json.Put | api/admin-test.js:97-114 | an existing key keeps its place and a new key goes last |
| TestMode.IsTestSku | api/_test.js:20-23 | false outside test mode; in test mode true iff the sku is a test pack |
| TestMode.TestSkusDisjoint | api/_test.js:11-17 | the test packs (1,10), (5,50), (10,100) share no name with the base packs |
| Catalog.CatalogWellFormed | server/api/_shared.js:72-77 | every base pack has a positive price and credits, and the listed names are exactly the packs |
| PaymentCheck.PaymentErrors | test-payment-system.js:71-101 | an unknown pack gives one error; otherwise amount, currency and provider errors in that order |
| PaymentCheck.SameRuleAsWebhook | test-payment-system.js:71-101 | the script accepts exactly what the webhook's checks accept for the same pack |
| PaymentCheck.ValidatePayment | test-payment-system.js:71-101 | the list built step by step is `PaymentErrors`; the payment is valid iff the list is empty |
| PaymentCheck.TestPaymentVerdict | test-payment-system.js:122-262 | the verdict the test data expects for each case |
| PaymentCheck.TestPaymentFields | test-payment-system.js:122-262 | a test payment carries its amount and currency, and a provider token exactly when one is given |
| PaymentCheck.TestResults.Record | test-payment-system.js:59 | one more total, and one more passed or failed |
| PaymentCheck.RunCase | test-payment-system.js:104-262 | one case is recorded as passed iff the verdict is the expected one |
| PaymentCheck.RunTests | test-payment-system.js:104-308 | all fifteen cases pass and the exit code is 0 |
| GenInitData.Unsigned | scripts/gen-initdata.js:15-18 | exactly `auth_date`, `query_id` and `user`, in that order |
| GenInitData.Signature | scripts/gen-initdata.js:20-23 | the hex MAC, keyed by the `WebAppData` secret, of the sorted check string |
| GenInitData.SignedVerifies | scripts/gen-initdata.js:20-26 | the output parses back to the same pairs and passes `verifyInitData` with the token |
| GenInitData.Sign | scripts/gen-initdata.js:3-26 | a missing token prints nothing; otherwise the output carries exactly the three pairs and `hash` last, and it verifies |
| GenInitData.SignedUserReadsBack | scripts/gen-initdata.js:9-13 | the handlers read back the test user's id from the output |
| GenInitData.DefaultUserAdmitted | scripts/gen-initdata.js:9-13 | with the default id, the output admits user 1740576312 |
| QueryString.Get | server/api/_shared.js:82 | the value of the first pair with the name |
| QueryString.Delete | server/api/_shared.js:83 | every pair with the name is removed; the others keep their order |
| QueryString.Keys | server/api/_shared.js:84 | every name in order, repeats included |
| QueryString.SetParam | scripts/gen-initdata.js:15-24 | `set(k, v)` of a new name appends the pair at the end |
| QueryString.SetParamGet | scripts/gen-initdata.js:15-24 | after `set(k, v)`, `get(k)` is `v`, other names read as before, and `k` occurs once |
| QueryString.ParseSerialize | scripts/gen-initdata.js:26 | `Parse` of the output of `Serialize` (`toString()`) gives back the same pairs, in order |
| Strings.SortSpec | server/api/_shared.js:84 | the result of `Sort` is sorted and is a permutation of the keys |
| Strings.SortPermutation | server/api/_shared.js:84 | sorting depends only on the multiset of keys |
| Strings.ParseInt | api/balance-with-referral.js:59 | `parseInt`: leading space, one sign, a `0x` prefix, and the longest digit run; NaN when there are no digits |
| Strings.ParseIntOfIntToString | api/balance-with-referral.js:58-59 | `parseInt` reads back every integer `String` renders |
| Strings.StringToNumber | server/api/_shared.js:100 | `Number` on integral strings; anything else is NaN |
| Strings.Split | api/_cors.js:6 | the pieces between separators, in order |
| Strings.JoinSplit | api/_cors.js:6 | joining the pieces with the separator gives the string back |
| Strings.Utf16Prefix | frontend/src/hooks/usePayments.ts:52-54 | the longest prefix of at most `n` UTF-16 units |
| Http.EnvOr | api/referral-link.js:53-54 | an unset or empty variable gives the fallback |
| ClientPayments.ExtractErrorMessage | frontend/src/hooks/usePayments.ts:16-62 | a falsy value gives the unknown text, a string itself, an `Error` its message; otherwise the field rules |
| ClientPayments.UnknownOnlyWhenFalsy | frontend/src/hooks/usePayments.ts:17-23 | the unknown text comes out exactly for a falsy value and for that text itself |
| ClientPayments.FirstKnownFieldWins | frontend/src/hooks/usePayments.ts:26-50 | the first of `details`, `error`, `message`, `description` that is truthy and gives a known message wins |
| ClientPayments.NoKnownFieldShowsJson | frontend/src/hooks/usePayments.ts:52-54 | with no such field, the JSON text cut to 200 units plus `...` |
| ClientPayments.Truncated | frontend/src/hooks/usePayments.ts:53 | at most 200 units plus `...` when longer; unchanged otherwise |
| ClientPayments.CreateInvoice | frontend/src/hooks/usePayments.ts:105-224 | at most `3 - retryCount` requests; a link comes with no toast and a failure with one; a missing base URL or initData makes no request |
| ClientPayments.LinkFromLastAttempt | frontend/src/hooks/usePayments.ts:160-215 | a link comes only from the last request made, whose answer carried it |
| ClientPayments.RetriedOnlyOnServerErrorOrThrow | frontend/src/hooks/usePayments.ts:162-215 | every retried request got a status of 500 or more, or threw |
| ClientPayments.RefusedToast | frontend/src/hooks/usePayments.ts:168-184 | the refusal toast is built exactly when the error body is not `null`; a `null` body throws |
| ClientPayments.AttemptOf | frontend/src/hooks/usePayments.ts:127-203 | a link comes only from a 2xx answer and is non-empty; a refusal keeps the non-2xx status; a rejected fetch throws its message |
| ClientPayments.ClientErrorNotRetried | frontend/src/hooks/usePayments.ts:162-184 | a status below 500 with a non-null body is never retried |
| ClientPayments.NullClientErrorRetried | frontend/src/hooks/usePayments.ts:168-215 | a 4xx whose body is JSON null throws and is retried |
| ClientPayments.PersistentServerErrorAskedThreeTimes | frontend/src/hooks/usePayments.ts:106-165 | a server that keeps answering 5xx is asked exactly three times |
| ClientPayments.OpenPaymentModal | frontend/src/hooks/usePayments.ts:269-360 | true only with the invoice window available, an `https://` link and status `paid` |
| ClientPayments.PaidInvoiceCameFromServer | frontend/src/hooks/usePayments.ts:297-315 | a paid invoice came from a 2xx answer carrying a secure link |
| ClientPayments.Decremented | frontend/src/hooks/usePayments.ts:250 | `max(0, credits - 1)` |
| ClientPayments.BalanceAfter | frontend/src/hooks/usePayments.ts:70-103 | a successful answer's credits, 0 on any failure, unchanged without a request |
| ClientPayments.ConsumeBody | frontend/src/hooks/usePayments.ts:242 | the payload with `initData` set over it |
| ClientPayments.ConsumeAfter | frontend/src/hooks/usePayments.ts:226-267 | success lowers a known balance by one, clamped at 0; `insufficient_credits` and a missing base URL or initData change nothing |
| ClientPayments.ConsumeKeepsBalanceNonNegative | frontend/src/hooks/usePayments.ts:250 | a non-negative balance stays non-negative and drops by one while positive |
| ClientPayments.InsufficientCreditsKeepsBalance | frontend/src/hooks/usePayments.ts:252-254 | the 402 answer leaves the balance unchanged and shows the top-up hint |
| ClientPayments.FetchedBalanceShown | frontend/src/hooks/usePayments.ts:90-91 | the balance shown is the one the balance handler's answer carries |
| ClientPayments.PaymentHook.constructor | frontend/src/hooks/usePayments.ts:66-68 | no balance and both flags lowered |
| ClientPayments.PaymentHook.FetchBalance | frontend/src/hooks/usePayments.ts:70-103 | the balance becomes `BalanceAfter`; the loading flag is lowered at the end |
| ClientPayments.PaymentHook.ConsumeCredits | frontend/src/hooks/usePayments.ts:226-267 | the answer, the balance and the toast are those of `ConsumeAfter`; the processing flag is lowered once a request was made |
| EnvCheck.StripBy | verify_env.py:87-88 | what is left neither starts nor ends with a character in the set |
| EnvCheck.StripBySlice | verify_env.py:87-88 | what is left is one contiguous piece of the text: nothing inside it is removed or changed |
| EnvCheck.ParseLine | verify_env.py:79-89 | blank, comment and `=`-less lines give nothing; otherwise split at the first `=`, strip the key, and strip the value of space, `"`, then `'` |
| EnvCheck.LoadEnvFile | verify_env.py:71-91 | the loop's map is `LoadEnv`, the fold of `ParseLine` over the lines |
| EnvCheck.LastLineWins | verify_env.py:89 | a key is set iff some line defines it, to the last such line's value |
| EnvCheck.UndefinedKeyUnset | verify_env.py:89 | a key no line defines is unset |
| EnvCheck.SkippedLineChangesNothing | verify_env.py:80-83 | a blank or comment line changes nothing |
| EnvCheck.LineReadsBack | verify_env.py:85-88 | `KEY=VALUE` reads back as the pair; the value may contain `=` |
| EnvCheck.ValidateValue | verify_env.py:93-110 | empty value, placeholder and pattern mismatch each refused with their own message; otherwise valid |
| EnvCheck.Display | verify_env.py:155-158 | a key or token longer than 10 shows its first 10 characters and `...` |
| EnvCheck.BackendErrors | verify_env.py:145-162 | one error per missing or invalid required variable, in order |
| EnvCheck.NoBackendErrorsIff | verify_env.py:145-162 | no backend error iff every required variable is set and valid |
| EnvCheck.FrontendWarnings | verify_env.py:169-183 | one warning per set, non-placeholder, invalid frontend variable |
| EnvCheck.CheckEnvVars | verify_env.py:112-212 | success iff the file exists, defines a variable, and every required variable is set and valid |
| EnvCheck.FrontendNeverDecides | verify_env.py:169-212 | two files that agree on the required variables get the same verdict |
| EnvCheck.PlaceholderIsError | verify_env.py:93-110 | a placeholder value of a required variable is always an error |
| Cors.AllowedOrigins | api/_cors.js:5-11 | the configured origins followed by the four local ones |
| Cors.ConfiguredOriginsAllowed | api/_cors.js:5-11 | every configured and every local origin is allowed |
| Cors.SameOriginIff | api/_cors.js:16-40 | with an `Origin` header: `IsSameOrigin` holds iff a `Host` is present and both hostnames parse and are equal |
| Cors.PlainHostPortIgnored | api/_cors.js:30 | a plain `Host: name:port` has hostname `name` |
| Cors.AllowOrigin | api/_cors.js:49-56 | the origin is echoed iff it is present and same-origin or allowlisted |
| Cors.WithCorsHeaders | api/_cors.js:59-61 | the three fixed headers are set, Allow-Origin only when allowed, and other headers are kept |
| Cors.ServerResponse.SetHeader | api/_cors.js:59 | sets one header; the status and ended flag are untouched |
| Cors.ServerResponse.EndWith | api/_cors.js:65 | sets the status and ends the response |
| Cors.SetCorsHeaders | api/_cors.js:49-61 | the headers become `WithCorsHeaders` with `AllowOrigin` |
| Cors.CorsMiddleware | api/_cors.js:45-69 | OPTIONS ends with 200 without `next`; otherwise `next` is called and the response stays open |
| Cors.HandleOptions | api/_cors.js:74-93 | the same headers plus `Max-Age: 86400`, and always 200 |
| Cors.NoOriginNoEcho | api/_cors.js:49-56 | without an `Origin` header nothing is echoed |
| Cors.CrossOriginNeedsAllowlist | api/_cors.js:53-55 | a cross-host origin is echoed iff allowlisted |
| ServerCors.AllowOrigin | server/api/_cors.js:20-22 | echoed iff the origin is in the allowlist; there is no same-origin exception |
| ServerCors.CorsMiddleware | server/api/_cors.js:16-35 | the fixed headers are always set; OPTIONS ends 200 without `next`; otherwise `next` is called |
| ServerCors.HandleOptions | server/api/_cors.js:40-53 | the headers plus `Max-Age: 86400`, and 200 |
| ServerCors.NewerMiddlewareAllowsMore | server/api/_cors.js:20-22 | every non-empty origin this middleware echoes, the one in api/_cors.js echoes too |
| ServerCors.SameHostOnlyInNewer | api/_cors.js:27-39 | a same-host origin outside the allowlist is echoed by api/_cors.js but not by server/api/_cors.js |

## Left out

- HMAC-SHA256: the keyed hash is the parameter `Mac`. Forgery is stated relative to MAC collisions, not proved impossible.
- `JSON.parse`: a parameter. `JSON.stringify` is written out where its text matters: the invoice payload, the error truncation and the signer's user.
- Percent-decoding in `URLSearchParams`: the parser keeps `%xx` as written and only maps `+` to a space. Round trips are stated for text without `%`, `&` or `+`.
- QueryString.Serialize: does not model the percent-encoding of `toString()`, which writes the UTF-8 bytes of every character other than ASCII letters, digits and `*-._` as `%XX` (so `{"id":` comes out as `%7B%22id%22%3A`). The model writes such text as it is, and its parser reads it back as written.
- GenInitData.Sign: its printed `initData` is `QueryString.Serialize` of the pairs, so it carries the same gap: the JSON of `user` is printed unencoded. The hash, which is computed over the unencoded values, is unaffected.
- Concurrency: the lost-update races of the read-then-write ledger code are not modelled, because the model is sequential.
- Database write errors the code ignores are modelled as successful writes. These are the updates after `addCredits`, the debit, the refund, and the referral insert and bonus.
- Logging, audit records, timestamps and `Math.random` request ids: no effect on behaviour. The clock is the parameter `now`.
- The `setInterval` sweep of api/_rateLimit.js: `cleanup` is an explicit call.
- RateLimit.RateLimiter.Middleware: reduces the `X-RateLimit-Reset` date formatting to whether it throws, because the date text has no bearing on any decision.
- ClientPayments.CreateInvoice: the retry delay, the toast styling and haptics are left out, because they are timing and UI.
- The delayed `fetchBalance` after a paid invoice: timer scheduling.
- The `finally` flags `isProcessing` and `isLoading` are modelled only as lowered at the end of each call.
- UI pages, providers and components, the debug and health endpoints, the local development server and the end-to-end scripts: rendering, plumbing or probes with no decisions of the core.
- EnvCheck: file reading, printing and the console encoding tweak are I/O. The file is its list of lines, or `None` when it is absent.
- EnvCheck.ValidateValue: the rules' regular expressions are hand-written predicates over ASCII. A Unicode digit that Python's `\d` accepts is not accepted here.
- The CORS URL parser is the parameter `HostnameOf`.
- Http.QueryValue: a query value is a text or an array of texts, as a repeated name gives. The nested objects that Express's extended parser builds from bracketed names (`initData[a]=b`) are not modelled.
- The `SyntaxError` and `TypeError` messages are fixed stand-in texts.
- Numbers are integers. Fractions, exponents and `Infinity` read as NaN, and NaN is `None`.
- Strings.Utf16Prefix: splits only at whole characters, so a surrogate pair is never cut in half.
- Consume.Job: the job's payload is modelled as its object members, not as its transport text.
- The sender of a webhook update is not authenticated. The model states this (`Webhook.UnauthenticatedOrderAccepted`) rather than adding a check.
- Webhook.Decide: a `sku` naming a property every object inherits (`constructor`, `toString`, `__proto__`, `hasOwnProperty` and the like) is read as an unknown pack. In the code `SKU_MAP[sku]` is then a function or an object, which is truthy, so an update without `total_amount` passes the amount check (`undefined !== undefined` is false), a row without amount or credits is inserted, and `addCredits` writes `Number(credits) + undefined`, which is NaN and is stored as null. The model has no non-numeric balance to write.
- Webhook.Classify: the same inherited properties give `UnknownSku` here, where the code goes on to the duplicate lookup and the checks.
- Webhook.ProcessUpdate: for those inherited properties the model changes nothing, where the code may insert a row and null the buyer's balance.
- Json.Lookup: reads the first member of a name, where an object that `JSON.parse` builds keeps the last of repeated names. A `JsonParser` is not required to give objects with unique names, so for a parser that leaves duplicates the model reads a different member than the code.
- TestMode.IsTestSku: false for a name every object inherits (`toString`, `constructor`, `__proto__`, `hasOwnProperty` and the like). In test mode `!!getTestSKUs()[sku]` is true for those names, because the inherited member is a function or an object. The model reads the test packs as a map with only their own names.
- CreateInvoice.Mapping: `None` for those inherited names, where `SKU_MAP[sku]` at api/create-invoice.js:121 is truthy. No request reaches it with such a name, because `validateSku` checks with `includes` on the base packs first (`CreateInvoice.NoTestInvoices`).
- PaymentCheck.PaymentErrors: gives `["Invalid SKU"]` for those inherited names. In test-payment-system.js `SKU_MAP[sku]` is truthy for them, so the SKU check passes and the amount check reports `expected undefined`. None of the script's 15 cases uses such a name, so `PaymentCheck.RunTests` is unaffected.
- PaymentCheck.ValidatePayment: the same gap for inherited names as `PaymentCheck.PaymentErrors`.
- Webhook.RedeliveryIsDuplicate: holds only when the duplicate lookup's read succeeds. A database read error that the code ignores is modelled as a successful read: `Store.HasPayment` always answers from the table. At api/webhook.js:44-52 only `data` is destructured, so when the read fails `data` is null, the check fails open, and a redelivered update is credited a second time. The other reads that destructure only `data` are modelled the same way: the balance reads at server/api/_shared.js:112-141 and api/consume.js:144 and :176, the referral and inviter lookups at api/balance-with-referral.js:62 and :81, and the recent payments at api/admin-test.js:104. A failed read there is taken as a row that is absent.
- Webhook.RedeliveryIsDuplicate: says nothing for a charge id that is an object or an array. Such a value is stored as its JSON text, which is an assumption about how the client library writes a non-text value into a text column. A missing or null charge id is covered by `Webhook.ChargelessRedeliveryAccepted`: it is credited again.
- Webhook.Fulfil: assumes the query builder's `.catch` at api/webhook.js:80 exists, so the update that marks the row failed runs. The client library's builders are thenables, and if `.catch` is not defined there the call throws inside the catch block before the update is sent. The model then overstates the failed mark.
- BalanceWithReferral.Refer: assumes the same of the `.catch` calls at api/balance-with-referral.js:76 and :91. If a builder has no `.catch`, the referral insert throws before it is sent, and the handler's catch block throws again on `userId`, so nothing is recorded or paid and no answer is sent.
- ClientPayments.OpenPaymentModal: models only an invoice window that throws or calls back. If Telegram never calls the callback, the promise never settles; that case is not a `Window`.
- ClientPayments.PaymentHook: the callbacks read `credits` from the render that created them. A stale value after another update of the balance is not modelled: each call reads the hook's current field.
- Strings.LessEq: compares characters by code point, where JavaScript's default sort compares UTF-16 code units. The two orders differ only between a character above U+FFFF and one in U+E000 to U+FFFF, which no `initData` key of the source contains.

## Behaviour of the code worth noting

The model follows the code in each case:

- **Webhook answer.** The webhook always answers 200 before processing. It returns no 400 for a bad update.
- **Webhook referrals.** The webhook has no referral side effect. Referral bonuses are paid only by the balance-with-referral handler.
- **Refund.** The refund reads the balance and writes back one more. It is not an atomic add, and it is skipped when the account row is absent.
- **Timeout.** A timed-out job is refunded, but the 504 is never sent (see Findings). `Consume.Charge` gives `Unhandled` there.
- **Failed balance request.** When the welcome insert of balance-with-referral fails, the 500 is never sent (see Findings). `BalanceWithReferral.Serve` gives `Unhandled` there.
- **Payments without a charge id.** The duplicate check cannot catch a redelivered update that has no `telegram_payment_charge_id`. Its row has a null `payment_ref`, and `eq.undefined` matches no row (`Webhook.ChargelessRedeliveryAccepted`).
- **Test packs.** The test-mode pack override in create-invoice can never apply, because `validateSKU` first rejects every non-base pack (`CreateInvoice.NoTestInvoices`).
- **Rate limiter.** It is a fixed window that resets when the window ends, not a sliding window.
- **Image size.** The size check allows 3 MiB, while its message says 5MB.
- **Rate-limited requests.** In `consume` and `balance` a 429 does not stop the handler, because the limiter never calls `next` with an error.
- **Tampering.** No claim is made that flipping any character of `initData` breaks the signature. Only that forging one needs a MAC collision (`InitData.ForgeryNeedsCollision`).

## Findings

| source | as written | input that shows it | evidently intended | confidence | as-written member | corrected member |
|---|---|---|---|---|---|---|
| api/consume.js:188 | the catch block's abort branch calls `req.auditLogger.logUserAction` with `userId`, which is declared inside the `try` block, so it throws a `ReferenceError` after the refund | a job whose webhook call exceeds the 30 s timer: the credit is refunded and then the handler rejects without a response | declare `userId` before `try`, so the client gets the 504 `webhook_timeout` | not executed | Consume.TimeoutUnansweredAsWritten | Consume.TimeoutAnsweredIntended |
| api/balance-with-referral.js:121 | the catch block logs `userId`, declared inside the `try` block, so any error there throws a `ReferenceError` from the catch | a new user whose welcome insert reports an error, or a GET whose `startParam` or `initData` is given twice: the client gets no answer. The catch blocks of api/referral-link.js:77-83 and api/admin-test.js:136-142 are the same, so a repeated `initData` goes unanswered there too | declare `userId` before `try`, so the client gets 500 with the message | not executed | BalanceWithReferral.FailureUnansweredAsWritten | BalanceWithReferral.FailureAnsweredIntended |

In both rows, the model's handlers (`Consume.Charge`, `Consume.Submit`, `BalanceWithReferral.Serve`, `QueryGate.Gate` and the methods that implement them) use the scope as written. So the requests that reach the catch block are left unanswered: the timeout (`Consume.TimeoutRefundedUnanswered`), the failed welcome insert (`BalanceWithReferral.WelcomeFailureChangesNothing`), the repeated `startParam` (`BalanceWithReferral.RepeatedStartParamUnanswered`) and the repeated `initData` (`QueryGate.ListInitDataUnanswered`). The corrected scope is used only by the corrected members.
