# EduTrack IA: a verified model of the server-side core

EduTrack IA is a small web app. Parents use it to record their children's grades (out of 20), see averages, and ask a language model for an analysis. Payment goes through PayPal subscriptions, where a user's plan is either `free` (one child) or `premium`. This project models the logic the repository writes itself, in Dafny, and proves properties of that model:

- the two grade averages;
- the AI-analysis request sanitiser and its handling of the reply;
- the grade and child routes over the `users`, `children` and `grades` collections, including their ownership checks;
- the PayPal routes and the plan state machine they drive;
- the string and number helpers: bearer-header parsing, plan limits, `truncate`, `fmt`, `toISO`, and timestamp-to-milliseconds.

The project has one module per source file or group:

| module | file | models |
|---|---|---|
| `Wrappers` | `wrappers.dfy` | `Option`; JavaScript truthiness; `|| ''`; `|| null` |
| `Text` | `text.dfy` | ECMAScript `trim`, `startsWith`, single `replace`, lexicographic order on characters |
| `Json` | `json.dfy` | parsed JSON values, property access, truthiness |
| `Http` | `http.dfy` | status codes; a reply that is a failure status or a 200 body |
| `GradeAverage` | `grade_average.dfy` | `computeAverage` of `lib/firestore.ts` |
| `Dashboard` | `dashboard.dfy` | the dashboard's own average, its display rule, `formatDate` |
| `AiAnalysis` | `ai_analysis.dfy` | `POST /api/ai/analysis` |
| `PlanLimit` | `plan_limit.dfy` | `getPlanLimit` |
| `Secure` | `secure.dfy` | `requireUserUidFromAuthHeader` |
| `RecordStore` | `record_store.dfy` | records, the `Store` class, the queries the routes run |
| `GradeRoutes` | `grade_routes.dfy` | `/api/grades/{create,update,delete,list}` |
| `ChildRoutes` | `child_routes.dfy` | `/api/children/{create,get,list}` |
| `BillingRoutes` | `billing_routes.dfy` | `/api/paypal/*` |
| `BillingPage` | `billing_page.dfy` | `fmt` and `truncate` of the billing page |

How the modelling is done:

- **Numbers** are exact `real`s. `Math.round(x * 100) / 100` is `Floor(x * 100 + 1/2) / 100`, because `Math.round` rounds halves upward.
- **The store.** The three collections are `map` fields of a `Store` class, keyed by document id.
- **State-changing routes** are methods that modify one of the three fields. They state the status they return on every path and the whole new value of the field.
- **Read-only routes** either are functions over the maps or call the query methods.
- **Calls to outside services** are parameters: token verification, the language model, `JSON.parse`, PayPal, `crypto.randomUUID()`, the clock and `toISOString`. The models return or record what they would have sent, so "the provider is not called" can be stated. It is stated either as an output or as a lemma that the reply does not depend on the parameter.

The code behaves as follows where a reader might expect otherwise:

- **Authentication failures answer 500.** `requireUserUidFromAuthHeader` throws inside each grade or child route's `try`, and the `catch` answers 500. No path answers 401.
- **Rounding is half-up.** `Math.round` is also applied to negative means, where it is not half-away-from-zero.
- **`computeAverage` in `lib/firestore.ts` returns 0 for an empty list.** The dashboard's version returns `null`. Both are kept as they are.
- **The premium limit is never enforced.** The child-creation route checks a count only when the plan is exactly `free`; any other plan, including `premium`, creates without a check. `getPlanLimit` is not called by that route.
- **A missing child gets a different status per route.** The grade routes answer 403 for a missing child, the same as for a foreign one. The child-read route answers 404.

## Model

| member | source | states |
|---|---|---|
| GradeAverage.Round2 | lib/firestore.ts:82 | the rounded value is a whole number of hundredths, within half a hundredth of the input (halves go up) |
| GradeAverage.Round2OfCents | lib/firestore.ts:92 | rounding leaves a value that already has two decimals unchanged |
| GradeAverage.Round2Bounds | lib/firestore.ts:82 | rounding keeps a value between the same two integers |
| GradeAverage.Average | lib/firestore.ts:76-93 | 0 for an empty list; every result is a whole number of hundredths |
| GradeAverage.ComputeAverage | lib/firestore.ts:76-93 | the loop that accumulates `total` and `coefSum` computes exactly `Average` |
| GradeAverage.TotalPermutation | lib/firestore.ts:81-90 | the sums that `reduce` computes do not depend on the order of the grades |
| GradeAverage.AverageIsOrderIndependent | lib/firestore.ts:79-90 | two lists with the same grades in any order have the same average |
| GradeAverage.UnweightedWhenNoPositiveCoef | lib/firestore.ts:79-83 | without a positive coefficient the result is the rounded plain mean of the values |
| GradeAverage.UnitCoefsGivePlainMean | lib/firestore.ts:86 | an absent coefficient weighs 1: when every coefficient is absent or 1, the weighted result equals the plain mean |
| GradeAverage.ZeroCoefIgnoredInWeightedMode | lib/firestore.ts:86 | in weighted mode, appending a grade with an explicit coefficient 0 leaves the average unchanged |
| GradeAverage.ZeroCoefSumNeedsNegativeCoef | lib/firestore.ts:91 | with non-negative coefficients and a positive one, the coefficient sum is positive, so the zero-sum branch only arises from negative coefficients |
| GradeAverage.AverageInScale | lib/firestore.ts:76-93 | values in [0,20] and non-negative coefficients give an average in [0,20] |
| GradeAverage.PlainMeanExample | lib/firestore.ts:79-83 | values 10 and 15 average 12.5 |
| GradeAverage.WeightedMeanExample | lib/firestore.ts:85-92 | 18 with coefficient 2 and 12 without one average 16 |
| GradeAverage.ZeroCoefSumExample | lib/firestore.ts:91 | coefficients 2 and -2 sum to zero, giving 0 |
| Dashboard.AsGrades | app/dashboard/page.tsx:32 | each listed grade contributes `value || 0`; the list keeps its length and order |
| Dashboard.DashboardAverage | app/dashboard/page.tsx:30-34 | absent exactly for an empty list; otherwise a whole number of hundredths |
| Dashboard.CoefficientsIgnored | app/dashboard/page.tsx:30-34 | lists with the same effective values have the same dashboard average, whatever their coefficients |
| Dashboard.AgreesWithStoreAverage | app/dashboard/page.tsx:30-34 | on a non-empty list without coefficients, the dashboard average equals the one in `lib/firestore.ts` |
| Dashboard.DisagreesOnWeightedGrades | app/dashboard/page.tsx:30-34 | with a coefficient the two differ: 15 on the dashboard, 16 in the library |
| Dashboard.EmptyInputsDisagree | app/dashboard/page.tsx:31 | for an empty list the dashboard gives no average and the library gives 0 |
| Dashboard.ShowAverage | app/dashboard/page.tsx:270 | a dash exactly when the average is absent or 0; otherwise "avg/20" with that same average |
| Dashboard.AllZeroGradesShowDash | app/dashboard/page.tsx:270 | a child whose grades are all 0 is shown with a dash |
| Dashboard.TimestampMillis | app/dashboard/page.tsx:48 | for nanoseconds in range, the whole seconds and the millisecond part can be read back from the result |
| Dashboard.FormatDate | app/dashboard/page.tsx:37-55 | a dash exactly for falsy input, `true`, and an object without `seconds` or `_seconds`; a non-empty string is parsed as text, a non-zero number is taken as milliseconds, and a timestamp object is rendered from `seconds * 1000 + floor(nanos / 1e6)`, with `seconds` preferred to `_seconds`, `nanoseconds` to `_nanoseconds`, and nanoseconds defaulting to 0 |
| Dashboard.TimestampShownAtItsSecond | app/dashboard/page.tsx:45-50 | a timestamp with `seconds` set is rendered at that second, whatever `_seconds` holds, and the millisecond part is the millisecond part of its nanoseconds |
| AiAnalysis.Clamp | app/api/ai/analysis/route.ts:42 | the result is in [0,20], a value already in range is unchanged, and values outside go to the nearer bound |
| AiAnalysis.SanitizeSubject | app/api/ai/analysis/route.ts:41 | the result is a prefix of `subject || ''`, of at most 64 characters, and is all of it when it fits |
| AiAnalysis.SanitizeGrade | app/api/ai/analysis/route.ts:40-45 | subject sanitised, value clamped, coefficient kept iff present, date kept iff truthy |
| AiAnalysis.Sanitize | app/api/ai/analysis/route.ts:38-45 | the first min(60, n) grades, each sanitised, in input order |
| AiAnalysis.SanitizedGradesAreBounded | app/api/ai/analysis/route.ts:38-45 | every grade sent has a value in [0,20] and a subject of at most 64 characters |
| AiAnalysis.KeepsFirstSixty | app/api/ai/analysis/route.ts:39 | of 80 grades, exactly the first 60 are sent |
| AiAnalysis.Describe | app/api/ai/analysis/route.ts:77-80 | the child descriptor keeps only first name and grade level, absent when missing |
| AiAnalysis.Prepare | app/api/ai/analysis/route.ts:26-102 | no request exactly when `grades` is not an array or is empty; otherwise the fixed model, temperature and JSON mode with the sanitised grades, the descriptor and the rules (scale 20) |
| AiAnalysis.Fallback | app/api/ai/analysis/route.ts:115 | the degraded analysis has an empty `perSubject` list |
| AiAnalysis.FallbackShape | app/api/ai/analysis/route.ts:115 | the degraded analysis carries the raw reply as summary, empty lists, and a medium risk whose reason is "Parsing JSON échoué" |
| AiAnalysis.HandleReply | app/api/ai/analysis/route.ts:104-122 | 500 exactly for a missing or whitespace-only reply; otherwise the parsed analysis, or the fallback built from the trimmed reply, with the model name |
| AiAnalysis.Post | app/api/ai/analysis/route.ts:24-122 | 400 exactly when no request is prepared; otherwise the reply to the prepared request is handled |
| AiAnalysis.EmptyGradesNeverCallModel | app/api/ai/analysis/route.ts:28-35 | for an empty or missing list the answer is 400 whatever the model would have replied |
| AiAnalysis.BlankReplyIsServerError | app/api/ai/analysis/route.ts:104-107 | a whitespace-only reply gives 500 |
| PlanLimit.GetPlanLimit | lib/stripe.ts:2-4 | the limit is 1 exactly for "free", and it is always 1 or 10 |
| PlanLimit.FreeBelowPremium | lib/stripe.ts:3 | free allows 1, premium 10, so free is strictly less |
| Secure.BearerToken | lib/secure.ts:4-8 | no token exactly when the header is missing or does not start with "Bearer " (case-sensitive); otherwise the rest of the header, trimmed |
| Secure.RequireUid | lib/secure.ts:3-11 | local rejection comes before verification; authenticated exactly when the verifier accepts the token, and the uid is the one it decoded |
| Secure.SchemeIsCaseSensitive | lib/secure.ts:4-6 | "bearer abc", "Bearerabc" and the empty header are rejected locally |
| Secure.BlankTokenReachesVerifier | lib/secure.ts:8-9 | "Bearer " followed only by whitespace passes the empty token to the verifier |
| Secure.SurroundingSpacesDropped | lib/secure.ts:8 | for any token whose ends are not whitespace, one space on each side of it is dropped and the token reaches the verifier whole, even when it contains "Bearer " itself |
| Secure.NestedSchemeKept | lib/secure.ts:8 | only the first "Bearer " is removed: "Bearer  Bearer x " yields "Bearer x" |
| RecordStore.LeastIdUnique | app/api/paypal/webhook/route.ts:31 | the first document in id order is unique |
| RecordStore.Store.GradesOfChild | app/api/grades/list/route.ts:19-23 | lists each grade of the child exactly once with its id and stored data, newest first |
| RecordStore.Store.ChildrenOfParent | app/api/children/create/route.ts:38-41 | lists each child of the parent exactly once with its id and stored data |
| RecordStore.Store.FirstUserWithSubscription | app/api/paypal/webhook/route.ts:20-31 | absent exactly when no user has the subscription; otherwise the matching user with the least id |
| GradeRoutes.Updates | app/api/grades/update/route.ts:24-26 | the dictionary has `value` iff a number was sent and `subject` iff a string was sent, with those values, and nothing else |
| GradeRoutes.MergeChangesOnlySentFields | app/api/grades/update/route.ts:32-41 | merging the dictionary changes only the sent fields and sets `updatedAt` |
| GradeRoutes.MergeIdempotent | app/api/grades/update/route.ts:41 | applying the same update twice equals applying it once |
| GradeRoutes.EmptySubjectIsAnUpdate | app/api/grades/update/route.ts:26 | an empty subject string counts as something to update |
| GradeRoutes.NewGrade | app/api/grades/create/route.ts:27-33 | the new record has the fresh id and the given child, value and subject; no coefficient, date or update time |
| GradeRoutes.CreateGrade | app/api/grades/create/route.ts:7-40 | 500 when authentication fails, then 400 for a missing child id, non-number value or empty subject, then 403 for a missing or foreign child; on success exactly the new grade is added under the fresh id and that id is returned; every failure leaves the store unchanged; the stored ids stay keyed |
| GradeRoutes.UpdateGrade | app/api/grades/update/route.ts:8-48 | 500, then 400 for missing ids, 403 ownership, 400 "Nothing to update", and 404 for a missing grade or another child's grade; on success only that grade changes, in the sent fields and `updatedAt`; failures leave the store unchanged |
| GradeRoutes.DeleteGrade | app/api/grades/delete/route.ts:8-37 | 500, 400, 403, 404 in that order; on success exactly that grade is removed; failures leave the store unchanged |
| GradeRoutes.DeleteUndoesCreate | app/api/grades/delete/route.ts:30 | deleting the grade just created gives back the previous collection |
| GradeRoutes.View | app/api/grades/list/route.ts:25 | a listed element has the record's data, and the stored `id` field wins over the document id when present |
| GradeRoutes.ListGrades | app/api/grades/list/route.ts:7-32 | 500, 400, 403 with no grades; otherwise exactly the child's grades, each once with its document id, sorted by `createdAt` descending; the store is not written |
| ChildRoutes.EffectivePlan | app/api/children/create/route.ts:34 | a profile without a plan is on "free", otherwise its plan as stored |
| ChildRoutes.NewChild | app/api/children/create/route.ts:54-62 | the new child has the fresh id, the caller as parent and the given first name; missing last name and grade level become '', a missing birth date becomes null |
| ChildRoutes.OwnedByGrowsByOne | app/api/children/create/route.ts:54-62 | adding a child under a fresh id grows the parent's set of children by exactly that id |
| ChildRoutes.OthersUnaffected | app/api/children/create/route.ts:54-62 | other parents' children are unchanged |
| ChildRoutes.ListingEmptyIff | app/api/children/create/route.ts:38-43 | a query result is empty exactly when no document matches, so `size >= 1` means the parent has a child |
| ChildRoutes.CreateChild | app/api/children/create/route.ts:7-76 | 500, then 400 for a missing first name, 404 for a missing profile, and 403 on the free plan when the caller already has a child; other plans skip the count; on success exactly the new child is added and the caller's child count grows by one; failures leave the store unchanged |
| ChildRoutes.FreePlanAllowsOneChild | app/api/children/create/route.ts:37-49 | after the first child of a free-plan parent, that parent has exactly one child |
| ChildRoutes.GetChild | app/api/children/get/route.ts:7-31 | 500, then 400 without an id, 404 for a missing child, 403 for a foreign one; success exactly for an owned child, returning that child |
| ChildRoutes.MissingAndForeignChildDiffer | app/api/children/get/route.ts:16-24 | a missing child answers 404 and a foreign one 403, while ownership fails for both |
| ChildRoutes.ListChildren | app/api/children/list/route.ts:7-25 | 500 with no records exactly when authentication fails, 200 otherwise; then every returned record is one of the caller's stored children, every one of them is returned, and there are exactly as many records as the caller has children |
| RecordStore.ListingCount | app/api/children/list/route.ts:13-18 | a listing of the documents whose ids are in a set has one entry per such id present in the store |
| BillingRoutes.Linked | app/api/paypal/link-subscription/route.ts:20-25 | the linked user has the subscription id, PENDING status, the premium plan and the new update time; the profile is kept |
| BillingRoutes.LinkIdempotent | app/api/paypal/link-subscription/route.ts:20-25 | linking twice with the same subscription equals linking once, apart from the update time |
| BillingRoutes.LinkSubscription | app/api/paypal/link-subscription/route.ts:5-32 | 400 without a subscription id or uid; 500 for an unknown user, because `updateDoc` throws; otherwise only that user changes, to the linked record |
| BillingRoutes.ResourceSubscriptionId | app/api/paypal/webhook/route.ts:13 | `resource.id` when truthy, else `resource.subscription_id` when truthy, else none |
| BillingRoutes.ApplyEvent | app/api/paypal/webhook/route.ts:33-51 | ACTIVATED gives premium and ACTIVE, CANCELLED gives free and CANCELLED, SUSPENDED changes only the status, and any other event changes nothing |
| BillingRoutes.ApplyEventIdempotent | app/api/paypal/webhook/route.ts:33-51 | applying an event twice equals applying it once |
| BillingRoutes.ActivationAfterLink | app/api/paypal/webhook/route.ts:33-38 | after a link, activation gives active premium on the linked subscription |
| BillingRoutes.Webhook | app/api/paypal/webhook/route.ts:7-58 | always 200; without a subscription id or a matching user, nothing changes; otherwise only the least-id matching user receives the event |
| BillingRoutes.WebhookReplayIsNoOp | app/api/paypal/webhook/route.ts:20-51 | a replayed event matches the same user and changes nothing more |
| BillingRoutes.SubscriptionOf | app/api/paypal/subscription/route.ts:11-20 | 400 without a uid, 404 for an unknown user; otherwise the user's subscription id, absent when not truthy |
| BillingRoutes.Cancelled | app/api/paypal/cancel-subscription/route.ts:31 | the free plan and CANCELLED status; the subscription id and the profile are kept |
| BillingRoutes.CancelAgreesWithCancelledEvent | app/api/paypal/cancel-subscription/route.ts:31 | cancelling by the route and by the CANCELLED webhook yield the same user record |
| BillingRoutes.CancelSubscription | app/api/paypal/cancel-subscription/route.ts:6-37 | 400 without a uid, 404 for an unknown user, 400 without a subscription, and no provider call on any of these; otherwise the provider is asked to cancel that subscription; a failure gives 500 and no change; success gives 200 and the cancelled record |
| BillingRoutes.Project | app/api/paypal/subscription/route.ts:25-35 | `id`, `status`, `plan_id` and `start_time` are copied verbatim; the five other fields are null when absent or falsy, and never an empty string |
| BillingRoutes.SubscriptionDetails | app/api/paypal/subscription/route.ts:9-42 | the guard statuses, then 404 without a subscription; otherwise the projection of the provider record, or 500 when the provider call fails |
| BillingRoutes.DetailsWithoutSubscriptionSkipProvider | app/api/paypal/subscription/route.ts:11-20 | on every guard failure the reply does not depend on the provider |
| BillingRoutes.DefaultWindowIsLast180Days | app/api/paypal/transactions/route.ts:26-31 | with no (or an empty) `start` and `end`, a subscriber's provider query runs from the clock minus 180 days to the clock, and the provider's answer is returned as is, or 500 when it throws |
| BillingRoutes.StripMillis | app/api/paypal/transactions/route.ts:9-11 | a trailing "." + three digits + "Z" becomes "Z"; any other string is unchanged |
| BillingRoutes.StripMillisOfIso | app/api/paypal/transactions/route.ts:10 | on an ISO timestamp the result is the seconds-precision form of 20 characters, and stripping again changes nothing |
| BillingRoutes.StripMillisReplacesOnce | app/api/paypal/transactions/route.ts:10 | only one suffix is replaced per call |
| BillingRoutes.ToIso | app/api/paypal/transactions/route.ts:9-11 | an ISO timestamp loses its milliseconds |
| BillingRoutes.Window | app/api/paypal/transactions/route.ts:27-28 | truthy `start`/`end` parameters are used verbatim; otherwise now minus 180 days, and now |
| BillingRoutes.Transactions | app/api/paypal/transactions/route.ts:13-39 | the guard statuses; 200 with an empty `transactions` list without a subscription; otherwise the provider's reply for the subscription and the window, or 500 |
| BillingRoutes.TransactionsWithoutSubscriptionSkipProvider | app/api/paypal/transactions/route.ts:15-23 | on a guard failure or without a subscription the reply does not depend on the provider |
| BillingPage.Truncate | app/billing/page.tsx:132-133 | strings of at most n characters are unchanged; longer ones become their first n characters and '…', n+1 in all |
| BillingPage.TruncateKeepsPrefix | app/billing/page.tsx:132-133 | the empty string is kept; the result is at most one character longer; truncating the result again with width n+1 changes nothing |
| BillingPage.TruncateDefaultWidth | app/billing/page.tsx:132 | the default width is 10 |
| BillingPage.Fmt | app/billing/page.tsx:123-130 | a dash exactly for null, undefined or the empty string; otherwise the date string itself is rendered |

## Left out

- Rendering, React state, the pages' data loading and the components are presentation. They are not part of this model.
- The Firebase wrapper functions of `lib/firestore.ts` (`addChild`, `listChildren`, `getChild`, `deleteChild`, `addGrade`, `listGrades`, `addAIReport`) are thin SDK calls. The store is modelled as maps instead.
- `lib/paypal.ts`, `lib/ai.ts` and `lib/firebaseAdmin.ts` are HTTP and SDK plumbing. Each provider call is a parameter of the route that makes it.
- Token verification (`verifyIdToken`), `crypto.randomUUID()`, `Date.now()`, `new Date()`, `serverTimestamp()`, `toISOString` and `toLocaleString` are parameters or are left abstract. The transactions route reads the clock twice; the model reads it once.
- A body that fails `req.json()` makes every route answer 500. The model takes the body already parsed into its fields. A field of the wrong JSON type is absent, except where the route tests the type itself.
- IEEE-754 behaviour is not modelled: NaN from `Number(...)`, infinities and binary rounding. Numbers are exact reals; `Number(g.value)` on a non-number is not modelled.
- Requests are atomic and sequential. The count-then-insert race of child creation and last-write-wins between concurrent writes are not modelled.
- Only the failure causes the model can name lead to 500: authentication, a missing user document, and provider errors. A store outage or a thrown SDK error is not modelled.
- The system prompt text of the AI route is a constant sent to the model. Its wording is not modelled.
- The link-subscription and PayPal routes write through the client SDK, so Firestore security rules could refuse them. Rules are not part of this model.
- RecordStore.Store.GradesOfChild: grades with equal `createdAt` come in no particular order. Firestore breaks such ties by document id; the model only promises the descending order.
- RecordStore.Store.FirstUserWithSubscription: the query has no `orderBy`, so the model takes the store's default order by document id as lexicographic order on Dafny `char`s. These are Unicode scalar values, so this is code-point order. Firestore orders ids by their UTF-8 bytes, which is the same order; only a UTF-16 code-unit comparison would differ, for ids with characters outside the Basic Multilingual Plane.
- ChildRoutes.ListChildren: the list route returns records without their document id, and the model keeps that. `listChildren` of `lib/firestore.ts` orders by `createdAt`; the route does not, and the model promises no order.
- Dashboard.FormatDate: strings and numbers are handed to the date constructor without modelling `toLocaleString` or its `try`/`catch`. A key that is present with the value `null` is modelled as absent, though `'seconds' in d` is true for it.
- AiAnalysis.Post: the route's `maxDuration` of 30 seconds is not modelled. When the provider is slow, the platform ends the request, and the route's own 500 never answers it.
- AiAnalysis.SanitizeSubject: lengths are counted in Unicode scalar values, whereas `slice(0, 64)` counts UTF-16 code units; a subject with characters outside the Basic Multilingual Plane can keep more characters in the model than in the route, which can also split a surrogate pair.
- BillingPage.Truncate: lengths are counted in Unicode scalar values, whereas `length` and `slice` count UTF-16 code units; the same difference as for `SanitizeSubject` applies.
- ECMAScript `trim` is modelled with the whitespace and line-terminator characters of the standard, over Dafny `char`s, which are Unicode scalar values; a lone surrogate code unit, which a JavaScript string may hold, has no counterpart.
