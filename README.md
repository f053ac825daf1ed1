# zingsurvey payment and survey core, in Dafny

zingsurvey is a paid developer survey built with Next.js. A respondent goes through
a wizard: language, age group, additional questions, a summary, and a card payment
whose fee depends on the age group. Payments are reconciled with a bank in three
ways:
- a `process` route creates a pending payment transaction and its bank transaction;
- a `verify` route lets the client poll, and on confirmation dispatches receipts;
- a signed `webhook` route lets the bank push `payment.success` / `payment.failed`.

An admin area shows statistics and filtered lists over a mock survey database, and
has a settings page.

This project models that core and proves what each part promises:
- **Payment reconciliation.**
  - `PaymentStore` is the Prisma store: a class of maps with its key and link invariant.
  - `BankIntegration` and `Email` hold the store writes and the receipt-flag bookkeeping.
  - `ProcessRoute`, `VerifyRoute` and `WebhookRoute` are the three handlers.
  - Each handler is a method. Its contract gives the response and the exact new store state for every outcome, including partial failures. No write is rolled back.
- **Mock database and admin folds.**
  - `MockApi` is the module-level array, with its queries.
  - `AdminPayments` is the stats reduce and the payment filter.
  - `AdminDemographics` is the respondent filter.
- **Survey wizard.**
  - `SurveyPayment` holds the validators, the card-number formatter and the page state.
  - `SurveySummary` holds the label lookups and the fee.
  - `SurveyAge`, `SurveyLanguage` and `SurveyAdditional` are the other pages.
- **State reducers.** `SurveyContext` is the merge and reset. `AdminSettings` is the nested update and the password check.

The shared vocabulary lives in small modules:
- `Json`: JavaScript values, truthiness and object spread.
- `Text`: trim, whitespace, ASCII lower-casing, `includes`.
- `Seqs`: filter, count, conditional sums and subsequences.
- `Wrappers` and `Http`: option and response types.

Things outside the program become parameters:
- The database's refusals: `down`, the set of write statements of this request that the database rejects.
- Mail delivery.
- The HMAC digest.
- AES encryption.
- Clock readings and random identifiers.

### Behaviour of the code worth knowing (the model follows the code)
- **Webhook with a missing or short signature.** The code gives 500, not 401. `verifySignature` compares with `timingSafeEqual`, which throws on buffers of different lengths, and the handler's `catch` answers 500. A request without `x-signature` is compared against `''`, so it always takes that path (`WebhookRoute.MissingSignatureThrows`). An unset or empty `PAYMENT_SECRET_KEY` also throws, so it also gives 500. Only a 64-byte signature that does not match a configured secret's HMAC gives 401.
- **Webhook `payment.success` for an unknown bank reference.** It answers `{received: true}` and changes nothing. `payment.failed` for an unknown reference answers 500, because the update throws.
- **Settings save with mismatched passwords.** This leaves `saveSuccess` as it was, since the handler never resets it. It is `false` only if it was already `false`.
- **Verify.** It dispatches receipts whether or not `receiptSent` is set. A second dispatch after a webhook already sent them creates a second receipt (`VerifyRoute.Post`). The webhook does check the flag.
- **`receiptSent`.** It becomes true once both messages have been attempted, even when neither was delivered (`Email.GenerateAndSendReceipts`: the new `receiptSent` does not depend on `delivery`).

## Model

| member | source | states |
|---|---|---|
| `PaymentStore.Store.PaymentByReference` | src/utils/bankIntegration.ts:85-89 | finds the payment transaction with that unique reference, or proves none has it |
| `PaymentStore.Store.PaymentById` | src/app/api/payments/webhook/route.ts:49-51 | the payment transaction with that id, present iff the id is stored |
| `PaymentStore.Store.BankByReference` | src/app/api/payments/webhook/route.ts:36-38 | the bank transaction with that bankReference, present iff stored |
| `PaymentStore.Store.BankByPayment` | src/utils/bankIntegration.ts:96-99 | the bank transaction linked to a payment id, or proves no bank row links to it |
| `PaymentStore.Store.CreatePayment` | src/app/api/payments/process/route.ts:28-40 | adds exactly one pending row under a fresh id with receiptSent false; a refused write or a taken reference adds nothing; the store invariant is kept |
| `PaymentStore.Store.SetStatusByReference` | src/utils/bankIntegration.ts:90-93 | changes only the status of the row with that reference; fails with nothing changed when the row is missing or the write is refused |
| `PaymentStore.Store.SetStatusById` | src/utils/bankIntegration.ts:61-66 | changes only the status of the row with that id; fails with nothing changed on a missing row or a refused write |
| `PaymentStore.Store.SetReceiptSent` | src/lib/email.ts:141-144 | sets only receiptSent of that payment; nothing else changes |
| `PaymentStore.Store.CreateBank` | src/utils/bankIntegration.ts:26-35 | adds one bank row linked to an existing payment; refused on a duplicate bankReference, a payment that already has one, a missing payment or a refused write |
| `PaymentStore.Store.SetBankStatusByReference` | src/utils/bankIntegration.ts:51-58 | sets status and processingDetails of that bank row only; fails on a missing row |
| `PaymentStore.Store.SetBankStatusByPayment` | src/utils/bankIntegration.ts:96-105 | sets the status of the bank row linked to the payment id only |
| `PaymentStore.Store.CreateReceipt` | src/lib/email.ts:114-122 | adds one receipt with both sent flags false, unless the number is taken or the write is refused |
| `PaymentStore.Store.SetSentToCustomer` | src/lib/email.ts:59-62 | sets only sentToCustomer of that receipt |
| `PaymentStore.Store.SetSentToAdmin` | src/lib/email.ts:94-97 | sets only sentToAdmin of that receipt |
| `BankIntegration.StoreBankTransaction` | src/utils/bankIntegration.ts:19-42 | creates exactly one pending bank transaction linked to the payment id, with the encrypted account number and empty processing details, iff encryption and the create succeed; payments and receipts untouched |
| `BankIntegration.UpdateBankTransactionStatus` | src/utils/bankIntegration.ts:45-73 | bank row gets status and details, then the linked payment gets the same status and nothing else; a missing bank row touches no payment; a refused payment write leaves the bank row already changed |
| `BankIntegration.VerifyBankPayment` | src/utils/bankIntegration.ts:76-115 | unknown reference: false, nothing changes; otherwise the payment is completed first, then the linked bank row; a failure of the second write leaves the payment completed and answers false; never throws |
| `Email.SendCustomerReceipt` | src/lib/email.ts:38-69 | true iff delivered and the flag write succeeds, and only then is sentToCustomer set |
| `Email.SendAdminReceipt` | src/lib/email.ts:72-104 | false with nothing changed when ADMIN_EMAIL is unset or empty; otherwise sentToAdmin set iff delivered and written |
| `Email.GenerateAndSendReceipts` | src/lib/email.ts:107-148 | creates one receipt carrying the transaction's reference, amount and email (admin email `''` when unset), with flags per delivery; then sets receiptSent whatever the deliveries; a failed create changes nothing else; never throws |
| `ProcessRoute.OrElse` | src/app/api/payments/process/route.ts:23-38 | the or-default: the value when present and non-empty, the fallback otherwise |
| `ProcessRoute.Post` | src/app/api/payments/process/route.ts:7-66 | zero or missing amount, or missing email: 400 and nothing created; else one pending payment with the defaults, then one bank row `BANK-<now>` linked to it; the response echoes reference, bankReference and amount; a failed bank create leaves the payment in place and answers 500 |
| `VerifyRoute.Post` | src/app/api/payments/verify/route.ts:7-78 | missing reference 400, unknown 404, already completed answers completed with nothing changed; otherwise verifies, and on success completes the payment and its linked bank row (every other row unchanged) and dispatches a receipt without looking at receiptSent, which becomes true once the receipt and the flag are written; on failure answers pending and creates no receipt |
| `BankIntegration.GetBankDetails` | src/utils/bankIntegration.ts:6-16 | each bank display field is its environment variable, or `''` when unset |
| `WebhookRoute.AsciiUtf8Length` | src/lib/encryption.ts:58-61 | a hex digest takes one byte per character in the buffer compared |
| `WebhookRoute.VerifySignature` | src/lib/encryption.ts:52-62 | genuine iff the secret is set and non-empty and the signature equals the HMAC; forged iff the secret is set and non-empty and a 64-byte signature differs from it; throws when the secret is unset or empty, or the byte lengths differ |
| `WebhookRoute.MissingSignatureThrows` | src/app/api/payments/webhook/route.ts:12-20 | a request without x-signature makes the check throw, so it answers 500 rather than 401 |
| `WebhookRoute.PaymentSucceeded` | src/app/api/payments/webhook/route.ts:34-58 | an unknown bank reference changes nothing; otherwise the bank row and then the linked payment are completed, every other row unchanged, and a receipt is created only when the payment's receiptSent was false, after which receiptSent is true once the flag write succeeds |
| `WebhookRoute.Post` | src/app/api/payments/webhook/route.ts:7-81 | forged 401, throwing check 500, missing event or reference 400, all with no change; success on a known bank completes both rows and dispatches receipts only when receiptSent is false, then sets receiptSent, so a repeated success dispatches nothing; failed fails both rows, or 500 for an unknown reference; other events change nothing |
| `MockApi.LoginAdmin` | src/utils/api.ts:28-39 | succeeds iff email and password both equal the admin's; the returned user carries no password |
| `MockApi.NewResponse` | src/utils/api.ts:17-21 | every input field kept, with id and createdAt added only where the input does not supply them |
| `MockApi.Database.constructor` | src/utils/api.ts:156-203 | the array holds the sample records |
| `MockApi.Database.SubmitSurvey` | src/utils/api.ts:13-25 | appends exactly one record, the new response, to the end; earlier records unchanged |
| `MockApi.Find` | src/utils/api.ts:51 | the first record whose id matches, or none matches |
| `MockApi.Database.GetSurveyResponse` | src/utils/api.ts:48-58 | the first stored record with that id, absent iff no record has that id |
| `MockApi.Share` | src/utils/api.ts:75 | 0 when there are no responses, otherwise within 0 to 100 |
| `MockApi.Database.GetDemographicsData` | src/utils/api.ts:60-84 | counts of under18 and over18 records, their sum at most the total, both shares 0 on an empty array |
| `MockApi.IndexOf` | src/utils/api.ts:95 | the position of a language in the tally, or its length when absent |
| `MockApi.IndexOfIs` | src/utils/api.ts:95 | a position holding the language with no earlier one is its index |
| `MockApi.Tallied` | src/utils/api.ts:92-97 | the tally lists each language once, every count positive |
| `MockApi.TotalAppend` | src/utils/api.ts:92-97 | a new language adds its count to the total |
| `MockApi.TotalIncrement` | src/utils/api.ts:95 | bumping one count adds one to the total |
| `MockApi.TalliedTotal` | src/utils/api.ts:92-97 | the counts sum to the number of responses with a truthy language, so at most the number of responses |
| `MockApi.TalliedCount` | src/utils/api.ts:92-97 | each language's count is the number of responses with that language; a language no response has is absent |
| `MockApi.Entries` | src/utils/api.ts:100 | the dictionary's entries in insertion order |
| `MockApi.EntriesBumpKnown` | src/utils/api.ts:95 | incrementing a known key's count bumps its entry |
| `MockApi.EntriesBumpNew` | src/utils/api.ts:95 | a new key is appended with count 1 |
| `MockApi.CountLanguages` | src/utils/api.ts:90-97 | the loop's dictionary, read in insertion order, is exactly the tally |
| `MockApi.Insert` | src/utils/api.ts:100-101 | inserting keeps every element (as a multiset) and adds one |
| `MockApi.InsertSorted` | src/utils/api.ts:100-101 | inserting into a non-increasing list keeps it non-increasing |
| `MockApi.SortByCount` | src/utils/api.ts:100-101 | the sorted list is a permutation of the tally in non-increasing count order |
| `MockApi.TotalInsert` | src/utils/api.ts:100-101 | insertion adds the element's count to the total |
| `MockApi.TotalSorted` | src/utils/api.ts:100-101 | sorting preserves the total count |
| `MockApi.WithShares` | src/utils/api.ts:102-106 | each language keeps its name and count, and gets its share of all responses |
| `MockApi.Database.GetLanguageAnalytics` | src/utils/api.ts:86-115 | languages sorted by non-increasing count with shares; mostPopular is the first language, or none iff there are none |
| `MockApi.RevenueIsSum` | src/utils/api.ts:125 | the reduce with a missing amount as 0 is the sum of amounts |
| `MockApi.Database.GetPaymentAnalytics` | src/utils/api.ts:117-139 | revenue is the sum of amounts over completed records only; status counts add to at most the total; at most 5 recent payments, all completed |
| `AdminPayments.ComputeStats` | src/app/admin/payments/page.tsx:63-91 | revenue over completed records only; one status count per record; above18 and below18 counts and revenues split the completed ones exactly, with anything not above18 counted as below18 |
| `AdminPayments.FilteredPayments` | src/app/admin/payments/page.tsx:111-119 | an order-preserving subsequence holding exactly the records matching status, age group and search, as many as match, so every matching copy is kept |
| `AdminPayments.InitialFilterKeepsAll` | src/app/admin/payments/page.tsx:49-53 | the initial filter keeps every record |
| `AdminPayments.SearchMatchesIff` | src/app/admin/payments/page.tsx:114-116 | an empty query matches all; otherwise a match iff the lower-cased query occurs in the lower-cased name or email |
| `AdminDemographics.FilteredRespondents` | src/app/admin/demographics/page.tsx:63-73 | undefined iff no data; else an order-preserving subsequence of exactly the respondents of the active tab's age that match the search, as many as match, so every matching copy is kept |
| `AdminDemographics.EmptySearchKeepsAgeGroup` | src/app/admin/demographics/page.tsx:65-66 | an empty search keeps every respondent of the age group |
| `AdminDemographics.SearchMatchesIff` | src/app/admin/demographics/page.tsx:66-69 | a non-empty term matches iff it occurs, case-insensitively, in name, email or language |
| `Text.IncludesIff` | src/app/admin/payments/page.tsx:115-116 | `includes` answers true iff the needle occurs at some position |
| `Text.TrimEmptyIff` | src/app/survey/payment/page.tsx:45 | `trim()` is empty iff the string is all whitespace |
| `SurveyPayment.PaymentAmount` | src/app/survey/payment/page.tsx:22 | 3000 iff age is under18, else 5000, including an empty age |
| `SurveyPayment.PaymentAmountAgreesWithAgeStep` | src/app/survey/payment/page.tsx:22 | the payment page charges the amount the age step records for the same string answer, and 5000 when age is not a string |
| `SurveyPayment.CardNumberOkIff` | src/app/survey/payment/page.tsx:41-43 | the card number is valid iff it is 16 digits once whitespace is removed |
| `SurveyPayment.TrimGuardsRedundant` | src/app/survey/payment/page.tsx:49-59 | expiry, CVV and email are valid iff they match their shapes alone; the month is not range-checked |
| `SurveyPayment.EmailShapeIff` | src/app/survey/payment/page.tsx:57 | the email pattern holds iff there is one at-sign with a non-empty local part, and a domain with a dot not at either end, no whitespace anywhere |
| `SurveyPayment.CollectErrors` | src/app/survey/payment/page.tsx:38-60 | each field gets its message iff its check fails; no other keys (`ErrorsFor`) |
| `SurveyPayment.NoFieldErrors` | src/app/survey/payment/page.tsx:61 | no error key of the five fields means no error at all |
| `SurveyPayment.PaymentPage.constructor` | src/app/survey/payment/page.tsx:13-19 | all five fields empty, no errors, not submitting |
| `SurveyPayment.PaymentPage.HandleChange` | src/app/survey/payment/page.tsx:24-36 | sets exactly the named field and deletes that field's error only if it was set |
| `SurveyPayment.PaymentPage.ValidateForm` | src/app/survey/payment/page.tsx:38-63 | true iff every field is valid iff the new error map is empty; the map shown holds each failing field's message and nothing else |
| `SurveyPayment.PaymentPage.HandleSubmit` | src/app/survey/payment/page.tsx:65-104 | an invalid form shows each failing field's message, submits nothing and changes no survey data; a valid one merges the payment info, appends one response and goes to the thank-you page |
| `SurveyPayment.CardDigits` | src/app/survey/payment/page.tsx:107 | only digits remain |
| `SurveyPayment.FirstMatch` | src/app/survey/payment/page.tsx:108-109 | no match iff fewer than 4 digits; otherwise the first min(n, 16) of the n digits |
| `SurveyPayment.Chunks` | src/app/survey/payment/page.tsx:110-114 | no groups iff no digits |
| `SurveyPayment.ChunksFrom` | src/app/survey/payment/page.tsx:112-113 | one step of the loop takes the next group of at most 4 |
| `SurveyPayment.FormatCardNumber` | src/app/survey/payment/page.tsx:106-121 | the loop's result is the grouped formatting of the value |
| `SurveyPayment.GroupedShape` | src/app/survey/payment/page.tsx:110-117 | the groups joined by spaces have a space at every fifth position and digits elsewhere |
| `SurveyPayment.DigitsKeptBySpaceRemoval` | src/app/survey/payment/page.tsx:107 | a digit string is unchanged by removing spaces or keeping digits |
| `SurveyPayment.SpaceJoinStripped` | src/app/survey/payment/page.tsx:117 | removing spaces distributes over a space join |
| `SurveyPayment.GroupedDigits` | src/app/survey/payment/page.tsx:110-117 | removing the spaces from the grouping gives back the digits |
| `SurveyPayment.FormattedShape` | src/app/survey/payment/page.tsx:106-121 | fewer than 4 digits leaves the input as typed; otherwise at most 19 characters, groups of 4 digits split by single spaces, holding the first up to 16 digits |
| `SurveyPayment.FormattedIdempotent` | src/app/survey/payment/page.tsx:106-121 | formatting a formatted number changes nothing |
| `SurveySummary.LabelOr` | src/app/survey/summary/page.tsx:33 | a known id with a non-empty label gives the label, any other id itself |
| `SurveySummary.GetLanguageName` | src/app/survey/summary/page.tsx:20-34 | a known language id gives its display name; any other id is returned unchanged |
| `SurveySummary.GetExperienceLabel` | src/app/survey/summary/page.tsx:36-45 | a known experience id gives its label; any other id is returned unchanged |
| `SurveySummary.LanguageNamesMatchChoices` | src/app/survey/summary/page.tsx:20-34 | the nine known ids give the names the language step shows; `other` falls back to itself |
| `SurveySummary.ExperienceLabelsMatchOptions` | src/app/survey/summary/page.tsx:36-45 | the four experience ids give the captions the additional step shows |
| `SurveySummary.UnknownIdsShownAsStored` | src/app/survey/summary/page.tsx:33-44 | an unknown language or experience id is shown as stored |
| `SurveySummary.GetAgeLabel` | src/app/survey/summary/page.tsx:47-49 | `Under 18` only for under18; every other value, including empty, `18 or Above` |
| `SurveySummary.DisplayedFee` | src/app/survey/summary/page.tsx:114 | 3000 iff age is under18, else 5000 |
| `SurveySummary.FeeAgreesWithAgeStep` | src/app/survey/summary/page.tsx:114 | the shown fee is the age step's amount, and 3000 exactly when the label says Under 18 |
| `SurveyAge.AmountFor` | src/app/survey/age/page.tsx:17 | 3000 iff under18, else 5000 |
| `SurveyAge.AgePage.constructor` | src/app/survey/age/page.tsx:11 | the selection starts at the stored age, with no error |
| `SurveyAge.AgePage.Select` | src/app/survey/age/page.tsx:54-57 | a click on an age card sets the selection and clears the error (the over18 card's handler at lines 93-96 is the same) |
| `SurveyAge.AgePage.SelectedAgeChanged` | src/app/survey/age/page.tsx:15-20 | a non-empty selection writes only the amount; an empty one changes nothing |
| `SurveyAge.AgePage.HandleSubmit` | src/app/survey/age/page.tsx:22-32 | empty selection: the error message and no update; otherwise only age is written and the next page is additional |
| `SurveyLanguage.LanguageValue` | src/app/survey/language/page.tsx:36 | `other` stores the free text untrimmed, anything else the selected id |
| `SurveyLanguage.LanguagePage.constructor` | src/app/survey/language/page.tsx:24-26 | the selection starts at the stored language, free text and error empty |
| `SurveyLanguage.LanguagePage.HandleSubmit` | src/app/survey/language/page.tsx:28-45 | no selection, or `other` with empty text, sets its error and updates nothing; otherwise only language is written and the next page is age |
| `SurveyAdditional.CollectErrors` | src/app/survey/additional/page.tsx:35-46 | the only possible error is experience, present iff experience is empty |
| `SurveyAdditional.AdditionalPage.constructor` | src/app/survey/additional/page.tsx:12-18 | each of the five fields starts at the stored answer, no errors |
| `SurveyAdditional.AdditionalPage.HandleChange` | src/app/survey/additional/page.tsx:22-30 | sets exactly one field and resets its error to empty only if it was set |
| `SurveyAdditional.AdditionalPage.HandleSubmit` | src/app/survey/additional/page.tsx:32-54 | empty experience sets only that error and updates nothing; otherwise stores all five fields as additionalResponses and goes to the summary |
| `SurveyContext.InitialSurveyData` | src/contexts/SurveyContext.tsx:26-32 | exactly the five keys: empty language and age, empty additional responses, pending status, amount 0 |
| `SurveyContext.MergeEmpty` | src/contexts/SurveyContext.tsx:40-42 | merging an empty partial changes nothing |
| `SurveyContext.MergeIdempotent` | src/contexts/SurveyContext.tsx:40-42 | merging the same partial twice equals merging it once |
| `Json.Spread` | src/contexts/SurveyContext.tsx:41 | keys of both; the patch's values win, other keys keep the old value |
| `SurveyContext.SurveyProvider.constructor` | src/contexts/SurveyContext.tsx:37-38 | initial data, not complete |
| `SurveyContext.SurveyProvider.UpdateSurveyData` | src/contexts/SurveyContext.tsx:40-42 | the new data is the shallow merge; completion unchanged |
| `SurveyContext.SurveyProvider.ResetSurvey` | src/contexts/SurveyContext.tsx:44-47 | the initial data and not complete, whatever the prior state |
| `SurveyContext.SurveyProvider.SetIsComplete` | src/contexts/SurveyContext.tsx:38 | only the flag changes |
| `AdminSettings.InitialSettings` | src/app/admin/settings/page.tsx:8-31 | the four categories, with empty passwords so no mismatch |
| `AdminSettings.SettingsPage.constructor` | src/app/admin/settings/page.tsx:8-36 | initial settings, not saving, no success, no error |
| `AdminSettings.SettingsPage.HandleSettingChange` | src/app/admin/settings/page.tsx:38-46 | changes only that one key of that category; other keys and categories unchanged |
| `AdminSettings.SettingsPage.HandleSaveSettings` | src/app/admin/settings/page.tsx:48-68 | a non-empty password differing from its confirmation sets `Passwords do not match` and does not set success; otherwise the error is cleared and success set; not saving afterwards |
| `AdminSettings.SettingsPage.SaveSuccessExpired` | src/app/admin/settings/page.tsx:62 | the success notice is cleared |
| `AdminSettings.EmptyPasswordSaves` | src/app/admin/settings/page.tsx:57 | an empty new password never counts as a mismatch |

## Left out

- Cryptography: AES encryption of the account number is the parameter `encrypt` (`None` when the key is unset), and HMAC-SHA256 is the parameter `hmac`, assumed to yield 64 lower-case hex digits. `decrypt` and `generateReference` are not part of this model; the reference is a parameter.
- Mail: SendGrid, the handlebars templates and the file reads are replaced by one delivery boolean per message (`Email.Delivery`).
- Clocks and randomness: `Date.now()`, `new Date()`, `Math.random()` and `crypto.randomBytes` become parameters (`now`, `createdAt`, `reference`, `receiptNumber`, `paymentDate`).
- Concurrency: each handler runs alone, one write at a time. Races between verify and the webhook, the simulated delays, and the overlap of the two sends inside `Promise.all` are not modelled. The sends run customer first.
- Store reads never fail. Only writes can be refused (`down`), or fail on a missing row or a duplicate key.
- Bank transaction ids, `createdAt`/`updatedAt` columns and Prisma's error codes are not modelled. `PaymentStore` has no `decrypt` of stored account numbers.
- Amounts are integers. `parseFloat`/`parseInt`, `toFixed`, currency formatting and floating-point rounding are left out. Percentages are exact rationals (`MockApi.Share`).
- MockApi.Database.GetPaymentAnalytics: `r.amount || 0` is modelled on numbers only; a string amount would concatenate in JavaScript. Non-numeric amounts count as 0.
- MockApi.Database.GetPaymentAnalytics: `recentPayments` is proved to be at most 5 completed records from the array; that they are the first five in order is not stated.
- JavaScript objects inherit keys such as `constructor` from `Object.prototype`. The label lookups and the language dictionary here are plain maps, so those inherited names are not modelled.
- MockApi.CountLanguages: `Object.entries` lists integer-like keys first in numeric order; the model keeps insertion order for every key.
- MockApi.SortByCount: the sort is stable, as the language requires of `Array.prototype.sort`, but stability is not proved; only sortedness and permutation are.
- Webhook payloads: fields are modelled as optional strings, so a non-string `event` or `reference` (a number, say) cannot be written; a body on which field access throws (`null`) is the `None` payload, which answers 500.
- `toLowerCase` is modelled on ASCII letters only (`Text.ToLower`).
- `getSurveyResponses`, `fetchDashboardStats`, the dashboard-stats SQL route, the dashboard and language-analytics charts and all rendering, routing, layouts and authentication are not part of this model.
- SurveyPayment.PaymentPage.HandleSubmit: the `catch` branch is not modelled, since the mock `submitSurvey` never rejects. `isSubmitting` is stated as false after a valid submit and unchanged after an invalid one.
- AdminSettings.SettingsPage.HandleSaveSettings: the one-second save delay is not modelled, nor the `'Failed to save settings'` fallback message, which only an error without a message could reach; the mismatch error the body throws is modelled. The three-second timer that clears `saveSuccess` is the separate method `SaveSuccessExpired`.
- The demographics and payments admin pages fetch their data from functions outside the core; the loaded arrays are inputs.
