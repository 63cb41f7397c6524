# AstraPilot backend core in Dafny

This project models the sequential core of the AstraPilot SEO service's Python backend and proves properties of it. The backend is written with FastAPI and SQLAlchemy. The core covers:

- the SEO engine: technical and content analysis of a parsed page, the content-quality and overall scores, the recommendation list, and the analytics over a user's stored analyses;
- the subscription plans and the per-user license table: subscribing, the status fallback to the free plan, usage limits, and the expiry sweep;
- the payment record lifecycle: payment intents, processing, the provider webhook, checkout sessions and the status update;
- the account flow: creating users, OTP issue and verification, the register / verify-email / resend-OTP / login handlers, and the token claims;
- the keyword heuristics: difficulty, volume and CPC formulas, the generated lists, competitor gaps, batch difficulty, and the AI merge;
- the two small helpers: relevance scoring and prompt dispatch.

One Dafny module per source file:

| module | source file |
|---|---|
| `SeoService` | backend/app/services/seo_service.py |
| `SubscriptionService` | backend/app/services/subscription_service.py |
| `LicenseService` | backend/app/services/license_service.py |
| `PaymentService` | backend/app/services/payment_service.py |
| `AuthService` | backend/app/services/auth_service.py |
| `OtpService` | backend/app/services/otp_service.py |
| `AuthRoutes` | backend/app/api/routes_auth.py |
| `KeywordService` | backend/app/services/keyword_service.py |
| `Helpers` | backend/app/utils/helpers.py |

Three support modules of our own round this out. `Wrappers` holds `Option` and `Result`. `Text` holds the Python string methods the core uses. `Seqs` holds slicing, `sum`, and a stable descending sort.

How the outside world appears in the model:

- **Database tables** are classes holding `rows: seq<Record>`. The licenses, payments and users tables are each one such class. The auto-increment key is `id == index + 1`, because the core never deletes. Queries are functions over the rows. State changes are methods with `modifies`. Each method's `ensures` ties the new rows to a pure step function. Properties spanning several calls, such as no replay, processing twice and idempotence, are lemmas about those step functions.
- **Time** is an `int` number of seconds, passed in as `now`.
- **Randomness:**
  - every `random.randint(lo, hi)` is a raw draw `t: nat` mapped to `lo + t % (hi - lo + 1)`;
  - every `random.uniform(lo, hi)` is a draw `u` in `[0, 1)`;
  - `uuid4().hex` is a parameter string.
- **Uninterpreted functions:** the password hash, `verify`, the JWT encoder and the email send are function or boolean parameters.
- **Errors:** an exception the source raises is an `Err` carrying the message the source builds, or a dedicated outcome constructor.

The methods model the code as written. Where the code departs from its evident intent (see Findings), a corrected function sits beside the method, with the intended property proved about it.

## Model

| member | source | states |
|---|---|---|
| SeoService.MetaTags | backend/app/services/seo_service.py:71-82 | the map has exactly the nine tag names as keys, each bound to whether that tag was found |
| SeoService.CountWithAlt | backend/app/services/seo_service.py:90-91 | the number of images with a non-empty alt is at most the number of images |
| SeoService.ClassifyLink | backend/app/services/seo_service.py:100-107 | a link is skipped iff it starts with `#`; otherwise it is internal iff it starts with `/` or contains the netloc, else external |
| SeoService.LinkPartition | backend/app/services/seo_service.py:95-107 | skipped + internal + external counts equal the number of links |
| SeoService.EmptyNetlocAllInternal | backend/app/services/seo_service.py:103 | with an empty netloc no link is external, and every link is internal or skipped |
| SeoService.CountLinks | backend/app/services/seo_service.py:95-107 | the loop's two counters equal the internal and external counts, and with the skipped ones they add up to the link count |
| SeoService.AnalyzeTechnicalSeo | backend/app/services/seo_service.py:64-125 | HTTPS iff the scheme is `https`; meta map; h1..h6 counts keyed `h1`..`h6`; with-alt + without-alt = image count; link counts; no broken links; sitemap, robots and mobile flags as given |
| SeoService.Density | backend/app/services/seo_service.py:151 | density is non-negative, and zero when the page has no words or the keyword never occurs |
| SeoService.Placement | backend/app/services/seo_service.py:154-167 | at most 30 + 20·#h1 + 10·#h2, and exactly 30 for a title mention plus 20 per h1 and 10 per h2 mentioning the keyword |
| SeoService.PlacementScore | backend/app/services/seo_service.py:154-167 | the three accumulation steps compute `Placement` |
| SeoService.RecommendedFrequency | backend/app/services/seo_service.py:170 | at least 1, and above 1 only when it does not exceed 2% of the words per keyword word |
| SeoService.KeywordMetrics | backend/app/services/seo_service.py:147-178 | fails with "float division by zero" iff the keyword has no words; otherwise keeps the keyword, counts case-insensitive occurrences, and gives its density, placement and a recommended frequency ≥ 1 |
| SeoService.AnalyzeKeyword | backend/app/services/seo_service.py:148-178 | one loop pass computes `KeywordMetrics` |
| SeoService.DensityPoints | backend/app/services/seo_service.py:365-374 | 0 without keywords, otherwise one of 5, 15, 20 |
| SeoService.ContentQualityScore | backend/app/services/seo_service.py:347-377 | always within [10, 70]; at most 50 without keywords; equal to the sum of the three bands, so the cap of 100 never applies |
| SeoService.AnalyzeContent | backend/app/services/seo_service.py:127-193 | fails iff some keyword has no words; otherwise word count, average sentence length = words / max(sentences, 1), one analysis per keyword in order, quality score in [10, 70] |
| SeoService.TechnicalPoints | backend/app/services/seo_service.py:330-339 | within [0, 40], and 40 exactly when HTTPS, title, description and a single h1 are all present |
| SeoService.OverallScore | backend/app/services/seo_service.py:326-345 | within [0, 100], and equal to technical + 0.6 × quality whenever that lies in range |
| SeoService.OverallScoreUnclamped | backend/app/services/seo_service.py:341-345 | for every quality score the analysis can produce, the clamp never binds, and the score lies in [6, 82] |
| SeoService.Checks | backend/app/services/seo_service.py:199-276 | the eight site checks in source order; the fourth and fifth are "no h1" and "more than one h1" |
| SeoService.FiredIff | backend/app/services/seo_service.py:195-276 | a recommendation is emitted iff some check carrying it fails |
| SeoService.FiredAppend | backend/app/services/seo_service.py:195-276 | the checks of two consecutive groups emit the concatenation of their recommendations, keeping check order |
| SeoService.KeywordRecommendation | backend/app/services/seo_service.py:279-300 | none iff 0.5 ≤ density ≤ 3; below 0.5 the low-density issue; above 3 the stuffing issue, both in category `keywords` |
| SeoService.KeywordRecommendations | backend/app/services/seo_service.py:279-300 | at most one recommendation per keyword, all in category `keywords` |
| SeoService.KeywordRecommendationsCount | backend/app/services/seo_service.py:279-300 | exactly one keyword recommendation per keyword whose density lies outside [0.5, 3] |
| SeoService.RecommendationsBound | backend/app/services/seo_service.py:230-248 | the list holds the fired site checks plus the off-density keywords, at most 7 + #keywords, because the two h1 checks exclude each other |
| SeoService.GenerateRecommendations | backend/app/services/seo_service.py:195-302 | returns the fired site checks in order, followed by the keyword recommendations in keyword order |
| SeoService.HeadRecommendations | backend/app/services/seo_service.py:199-228 | the HTTPS, title and description checks emit exactly their failed recommendations in order |
| SeoService.BodyRecommendations | backend/app/services/seo_service.py:230-276 | the h1, alt-text, length and readability checks emit exactly their failed recommendations in order |
| SeoService.OfUser | backend/app/services/seo_service.py:440-444 | exactly the analyses of that user |
| SeoService.UserAnalyses | backend/app/services/seo_service.py:440-445 | a permutation of the user's analyses, newest first |
| SeoService.Categories | backend/app/services/seo_service.py:474-477 | the keys of `issue_counts` in insertion order: distinct, and exactly the categories that occur |
| SeoService.CountIssues | backend/app/services/seo_service.py:474-477 | the dict loop yields those keys, with each value equal to the number of recommendations in that category (default `other`) |
| SeoService.IssueCounts | backend/app/services/seo_service.py:479 | the issue list pairs each category with its count |
| SeoService.TopIssues | backend/app/services/seo_service.py:479-485 | at most 5 issues, all of them when there are at most 5, sorted by count non-increasing |
| SeoService.TopIssuesCounted | backend/app/services/seo_service.py:474-485 | each top issue carries its category's true positive count, and no category appears twice |
| SeoService.TopIssuesMaximal | backend/app/services/seo_service.py:479-485 | a category left out of the top issues occurs no more often than any kept one |
| SeoService.BuildTrend | backend/app/services/seo_service.py:459-465 | the append loop builds `Trend` |
| SeoService.CollectRecommendations | backend/app/services/seo_service.py:468-471 | the extend loop concatenates the stored recommendations of every analysis that has them |
| SeoService.SeoAnalytics | backend/app/services/seo_service.py:438-486 | zeros and empty lists for a user without analyses; otherwise total, average score, the trend over `analyses[-10:]` and the top issues |
| SeoService.TrendOmitsNewest | backend/app/services/seo_service.py:460 | on eleven newest-first analyses the trend leaves out the newest, which the recent trend keeps |
| SeoService.RecentTrendKeepsNewest | backend/app/services/seo_service.py:460 | on a newest-first list the corrected trend has min(10, n) points, and no analysis left out is newer than one kept |
| SubscriptionService.GetPlan | backend/app/services/subscription_service.py:17-114 | a plan exactly for `free`, `basic`, `pro` and `enterprise`, carrying the id asked for |
| SubscriptionService.EnterpriseUnlimited | backend/app/services/subscription_service.py:85-108 | the enterprise plan has the same limit keys as the others, all -1 |
| SubscriptionService.NewestActive | backend/app/services/subscription_service.py:156-162 | an active license of the user, created no earlier than any other active one; none iff the user has none |
| SubscriptionService.NoLicenseFallsBackToFree | backend/app/services/subscription_service.py:164-175 | without an active license the status is the free status and the table is unchanged |
| SubscriptionService.ExpiredLicenseFallsBackToFree | backend/app/services/subscription_service.py:177-193 | when the newest active license has expired the status is the free status and exactly that license is marked inactive |
| SubscriptionService.FreeStatusShape | backend/app/services/subscription_service.py:164-193 | the free status is plan `free`, active, with no expiry and the free plan's limits and features |
| SubscriptionService.ActiveLicenseStatus | backend/app/services/subscription_service.py:195-207 | an unexpired license reports its own plan name and expiry, the limits and features of its plan, or the free plan's for an unknown plan, and changes nothing |
| SubscriptionService.GetUserLicenseStatus | backend/app/services/subscription_service.py:152-207 | returns `StatusOf` the old table; the new table is `RowsAfterStatus` |
| SubscriptionService.DeactivateUserEffect | backend/app/services/subscription_service.py:247-260 | afterwards the user has no active license, other users' rows are untouched, and only `is_active` changes |
| SubscriptionService.DeactivateUserIdempotent | backend/app/services/subscription_service.py:247-260 | deactivating twice equals deactivating once |
| SubscriptionService.DeactivateUserLicenses | backend/app/services/subscription_service.py:247-260 | the loop leaves the table equal to `DeactivateUser` of the old one |
| SubscriptionService.ValidDays | backend/app/services/subscription_service.py:129-132 | 365 iff the cycle is `yearly`, 30 otherwise |
| SubscriptionService.SubscribeLeavesOneActive | backend/app/services/subscription_service.py:136-150 | after subscribing, the new license is the user's only active one and, while unexpired, the one the status reports |
| SubscriptionService.CreateSubscription | backend/app/services/subscription_service.py:121-150 | an unknown plan fails with "Invalid plan ID: …" and changes nothing; otherwise the user's licenses are deactivated and one active license with the plan and now + 365 or 30 days is appended |
| SubscriptionService.LimitKey | backend/app/services/subscription_service.py:219-221 | `keyword_research_per_day` for keyword research, `<resource>_per_month` for everything else |
| SubscriptionService.UsageDecisionFor | backend/app/services/subscription_service.py:215-237 | a missing key means limit 0; -1 allows with remaining -1; otherwise allowed iff usage < limit, remaining = max(0, limit − usage), and for limit ≥ 0 allowed iff remaining > 0 |
| SubscriptionService.ApiCallsAlwaysRefused | backend/app/services/subscription_service.py:219-230 | as written, `api_calls` is refused on every plan, with limit 0 and remaining 0 |
| SubscriptionService.LimitKeyCorrected | backend/app/services/subscription_service.py:219-221 | the per-day key for keyword research and API calls, per-month otherwise |
| SubscriptionService.CorrectedKeysExistInEveryPlan | backend/app/services/subscription_service.py:30-106 | every resource of the usage statistics has a limit under the corrected key in every plan, and enterprise allows each of them |
| SubscriptionService.CheckUsageLimit | backend/app/services/subscription_service.py:209-237 | the decision is taken against the status's limits and usage, and the table changes as the status lookup changes it |
| SubscriptionService.CheckFeatureAccess | backend/app/services/subscription_service.py:299-302 | allowed iff the feature is among the status's features |
| LicenseService.LicenseForUser | backend/app/services/license_service.py:19-21 | an active license of the user, taken from the table; none iff the user has none |
| LicenseService.NoActiveExpiredAfterSweep | backend/app/services/license_service.py:23-28 | after the sweep no active license has `valid_until < now` |
| LicenseService.SweepFrame | backend/app/services/license_service.py:25-27 | inactive, unexpired or open-ended licenses are untouched, and only `is_active` ever changes |
| LicenseService.SweepIdempotent | backend/app/services/license_service.py:23-28 | a second sweep at the same `now` changes nothing |
| LicenseService.CreateLicense | backend/app/services/license_service.py:6-17 | appends one active license with the next id and `valid_until = now + valid_days` (default 30), keeping every existing row |
| LicenseService.DeactivateExpiredLicenses | backend/app/services/license_service.py:23-28 | the loop leaves the table equal to `ExpireAll` of the old one |
| PaymentService.FindPayment | backend/app/services/payment_service.py:66-67 | the first row with that id; none iff there is none |
| PaymentService.PaymentsForUser | backend/app/services/payment_service.py:180-183 | exactly that user's payments |
| PaymentService.CreatePayment | backend/app/services/payment_service.py:166-178 | appends one payment with the next id and the given fields (status by default `pending`) |
| PaymentService.AmountFor | backend/app/services/payment_service.py:26-31 | the yearly price and cycle iff the cycle is `yearly`, else the monthly price and cycle `monthly` |
| PaymentService.CreatePaymentIntent | backend/app/services/payment_service.py:16-59 | an unknown plan fails with the wrapped message and adds nothing; otherwise one pending USD stripe payment is appended, and the intent carries its id and amount and the status `requires_payment_method` |
| PaymentService.ProcessOutcomeCases | backend/app/services/payment_service.py:66-88 | a missing id fails with "Payment not found" and a non-pending payment with "Payment already processed", neither changing anything; success means the payment was pending and is now completed |
| PaymentService.ProcessTwiceFails | backend/app/services/payment_service.py:72-81 | processing the same payment again fails with "already processed" and changes nothing |
| PaymentService.ProcessPayment | backend/app/services/payment_service.py:61-101 | the answer and new table are `ProcessOutcome` of the old table |
| PaymentService.SetPaymentStatus | backend/app/services/payment_service.py:185-193 | a missing id returns none and changes nothing; otherwise only that payment's status changes and the updated payment is returned |
| PaymentService.HandleWebhook | backend/app/services/payment_service.py:103-135 | a non-actionable event is ignored with no change; otherwise the payment is completed and a subscription is created for its user (defaults `basic` and `monthly`), an unknown plan being answered as an error |
| PaymentService.CreateCheckoutSession | backend/app/services/payment_service.py:137-164 | an unknown plan fails and adds nothing; otherwise the same pending USD stripe row as a payment intent is appended (the user's, with the yearly price iff the cycle is `yearly`), the intent carries that row's id, amount, plan and cycle, and the checkout URL is the Stripe prefix followed by the intent's client secret |
| AuthService.UpdateKeepsValid | backend/app/models/user.py:7-9 | changing a user's other fields keeps ids, unique usernames and unique emails |
| AuthService.UsernameIndex | backend/app/services/auth_service.py:13-15 | the first row with that username; none iff the name is not taken |
| AuthService.UserIndexKeyed | backend/app/models/user.py:7 | with auto-increment ids, id k is found at position k − 1, and ids out of range are not found |
| AuthService.GetUserByUsername | backend/app/services/auth_service.py:13-15 | a stored user with that username; none iff the name is not taken |
| AuthService.GetUserById | backend/app/api/routes_auth.py:46 | a stored user with that id; none iff no user has it |
| AuthService.Authenticate | backend/app/services/auth_service.py:38-42 | a returned user is stored under the username given |
| AuthService.AuthenticateIff | backend/app/services/auth_service.py:38-42 | authentication succeeds iff some user has the username and `verify(password, hashed_password)` holds |
| AuthService.CreateStepEffect | backend/app/services/auth_service.py:27-36 | a taken username adds nothing; otherwise exactly one unverified user with that name, email and `hash(password)` is appended, and looking up the name returns it |
| AuthService.CreateThenAuthenticate | backend/app/services/auth_service.py:21-42 | given `verify(p, hash(p))`, authenticating right after `create_user` with the same password returns the new user |
| AuthService.DuplicateEmailRaises | backend/app/services/auth_service.py:27-36 | as written, a second user with an email already in use ends in an integrity error |
| AuthService.CreateStepCheckedNeverRaises | backend/app/models/user.py:9 | the email-checked creation never hits the constraint, refuses exactly taken names or emails, and agrees with `create_user` wherever that does not raise |
| AuthService.CreateUser | backend/app/services/auth_service.py:27-36 | the outcome and new table are `CreateStep` of the old table |
| AuthService.AccessTokenClaims | backend/app/services/auth_service.py:44-47 | a copy of the input claims with `exp` added: now + delta for a nonzero delta, otherwise now + one week |
| OtpService.GenerateOtp | backend/app/services/otp_service.py:10-12 | exactly one decimal digit per draw, the digit drawn |
| OtpService.VerifyStepCases | backend/app/services/otp_service.py:38-70 | no code or no expiry refuses without change; expiry clears both and keeps `email_verified`; accepted iff the stored code matches and now ≤ expiry, and acceptance verifies and clears; a wrong unexpired code changes nothing |
| OtpService.NoReplay | backend/app/services/otp_service.py:48-63 | a code accepted once is refused afterwards |
| OtpService.EmailVerifiedMonotone | backend/app/services/otp_service.py:14-70 | neither issuing nor verifying ever clears `email_verified` |
| OtpService.RetryAfterWrongCode | backend/app/services/otp_service.py:59-67 | after a wrong guess, the right code is still accepted before expiry |
| OtpService.IssuedCodeAccepted | backend/app/services/otp_service.py:24-29 | an issued 6-digit code is accepted iff now ≤ issue time + `OTP_EXPIRE_MINUTES` (10, settings.py:24) |
| OtpService.NewUserCannotVerify | backend/app/models/user.py:14-16 | a user who was never sent a code cannot be verified |
| OtpService.SendOutcomeEffect | backend/app/services/otp_service.py:14-36 | an unknown user is refused without change; otherwise only that user changes, holding the code and an expiry 10 minutes ahead with `email_verified` kept, and the answer is the send result |
| OtpService.VerifyOutcomeFrame | backend/app/services/otp_service.py:38-70 | an unknown id fails with no change; only the addressed user changes, and the table's constraints hold |
| OtpService.CreateAndSendOtp | backend/app/services/otp_service.py:14-36 | an unknown user gets false with no change; otherwise the code and an expiry 10 minutes ahead are stored, and the send result is returned |
| OtpService.VerifyOtp | backend/app/services/otp_service.py:38-70 | the answer and new table are `VerifyOutcome` of the old table |
| OtpService.ResendOtp | backend/app/services/otp_service.py:72-74 | the same as `create_and_send_otp` |
| AuthRoutes.Register | backend/app/api/routes_auth.py:11-23 | 409 for a taken username; 500 for an integrity error; otherwise 201 with the new id and `email_verified` |
| AuthRoutes.RegisterFlow | backend/app/api/routes_auth.py:11-23 | a taken username answers 409; a new one with a new email answers 201 with id n + 1 and unverified; a taken email answers 500 |
| AuthRoutes.RegisterCheckedNever500 | backend/app/api/routes_auth.py:15-18 | with the email check, register answers only 201 or 409, and 409 iff the username or email is taken |
| AuthRoutes.VerifyEmail | backend/app/api/routes_auth.py:25-39 | 400 "Invalid or expired OTP code" iff verification failed, otherwise 200 |
| AuthRoutes.VerifyEmailUnknownUser | backend/app/api/routes_auth.py:25-39 | an unknown user id answers 400 and changes nothing |
| AuthRoutes.RegisterThenVerifyFails | backend/app/api/routes_auth.py:11-39 | right after registering, every verification of the new user answers 400 |
| AuthRoutes.ResendOtpEndpointOrder | backend/app/api/routes_auth.py:41-69 | unknown user 404, then already verified 400, both without change; otherwise a new code is stored, and the answer is 200 iff the send succeeded, else 500 |
| AuthRoutes.Login | backend/app/api/routes_auth.py:71-97 | 401 without authentication, 403 for an unverified email, otherwise a bearer token for the claims `sub` = username with the default expiry |
| AuthRoutes.LoginGate | backend/app/api/routes_auth.py:71-97 | a token is issued iff a user with that name has a matching password and a verified email; it names the user and expires one week on |
| AuthRoutes.RegisterThenLoginForbidden | backend/app/api/routes_auth.py:71-89 | right after registering, logging in with the correct password answers 403 |
| KeywordService.RandInt | backend/app/services/keyword_service.py:70 | a drawn integer lies in [lo, hi] |
| KeywordService.Uniform | backend/app/services/keyword_service.py:98 | a drawn real lies in [lo, hi] |
| KeywordService.CompetitionLevel | backend/app/services/keyword_service.py:262-269 | low iff < 30, medium iff in [30, 70), high iff ≥ 70 |
| KeywordService.BaseDifficulty | backend/app/services/keyword_service.py:243-246 | within [20, 100], and at most 85 when the keyword has a word |
| KeywordService.CalculateDifficulty | backend/app/services/keyword_service.py:240-249 | within [1, 100], the clamp of base + an offset in [−20, 20] |
| KeywordService.SearchVolumeBase | backend/app/services/keyword_service.py:231-236 | none iff the keyword has no words; otherwise within [100, 10000], and at most 5000 without `seo`, `marketing` or `business` |
| KeywordService.EstimateSearchVolume | backend/app/services/keyword_service.py:228-238 | fails with the integer zero-division message iff there are no words; otherwise within [base div 2, 2·base] ⊆ [50, 20000] |
| KeywordService.CpcBase | backend/app/services/keyword_service.py:254-258 | 3 iff a commercial term occurs, else 1 |
| KeywordService.EstimateCpc | backend/app/services/keyword_service.py:251-260 | within [0.3·base, 2·base] ⊆ [0.3, 6] |
| KeywordService.Suggest | backend/app/services/keyword_service.py:152-158 | a suggestion keeps its keyword, and each drawn field lies in its range |
| KeywordService.RelatedKeywords | backend/app/services/keyword_service.py:136-172 | exactly 11: eight "term keyword" then three "keyword suffix", each in its ranges and containing the keyword |
| KeywordService.FindRelatedKeywords | backend/app/services/keyword_service.py:147-172 | the two loops build `RelatedKeywords` |
| KeywordService.LongTailKeywords | backend/app/services/keyword_service.py:174-197 | exactly 8, built from the eight patterns in order, each in range and containing the keyword |
| KeywordService.FindLongTailKeywords | backend/app/services/keyword_service.py:187-197 | the loop builds `LongTailKeywords` |
| KeywordService.AllQuestions | backend/app/services/keyword_service.py:201-209 | 18 questions, three per question word |
| KeywordService.FindKeywordQuestions | backend/app/services/keyword_service.py:199-211 | the loop yields the first 10 of the 18 |
| KeywordService.QuestionsOrder | backend/app/services/keyword_service.py:199-211 | the ten are what ×3, how ×3, why ×3, then "when is keyword?" |
| KeywordService.SuggestContentTopics | backend/app/services/keyword_service.py:213-226 | exactly 8 topics, each containing the title-cased keyword |
| KeywordService.SeasonalTrends | backend/app/services/keyword_service.py:271-284 | twelve entries, one per month in order, with volume in [500, 2000] and a direction from up, down, stable |
| KeywordService.GenerateSeasonalTrends | backend/app/services/keyword_service.py:276-284 | the loop builds `SeasonalTrends` |
| KeywordService.GenerateTrendData | backend/app/services/keyword_service.py:286-288 | twelve values, each in [50, 150] |
| KeywordService.MissingMembers | backend/app/services/keyword_service.py:93-94 | a keyword is a gap candidate exactly when it is a sample keyword the user does not have |
| KeywordService.ContentGaps | backend/app/services/keyword_service.py:103-108 | four content gaps built on the domain's first label |
| KeywordService.GapCandidates | backend/app/services/keyword_service.py:92-94 | none without user keywords (none or empty); otherwise the sample keywords the user lacks |
| KeywordService.GapSuggestions | backend/app/services/keyword_service.py:95-101 | one in-range suggestion per candidate, keeping the keyword |
| KeywordService.FindKeywordGaps | backend/app/services/keyword_service.py:93-101 | the gap loop builds a suggestion for each sample keyword the user lacks |
| KeywordService.CompetitorAnalysisOf | backend/app/services/keyword_service.py:65-117 | organic and paid counts in range; 5 top keywords at positions 1..5 with page URLs; gaps one per candidate (at most 9, so the cut at 10 never binds); content gaps |
| KeywordService.CompetitorGaps | backend/app/services/keyword_service.py:90-101 | no gaps without user keywords; otherwise the gap keywords are exactly the sample keywords not among the user's |
| KeywordService.AnalyzeCompetitorKeywords | backend/app/services/keyword_service.py:65-117 | the method computes `CompetitorAnalysisOf` |
| KeywordService.BatchEntry | backend/app/services/keyword_service.py:124-131 | fails iff the keyword has no words; otherwise keeps the keyword, with difficulty in [1, 100] and competition taken from a second difficulty draw |
| KeywordService.BatchCompetitionMayDisagree | backend/app/services/keyword_service.py:126-129 | for `seo` the reported difficulty is 65 while the competition is high |
| KeywordService.BatchEntryCorrected | backend/app/services/keyword_service.py:124-131 | competition equals the level of the reported difficulty, and agrees with the as-written entry when both draws coincide |
| KeywordService.BatchKeywordDifficulty | backend/app/services/keyword_service.py:119-134 | fails iff some keyword has no words; otherwise one entry per keyword, in order, keeping the keyword |
| KeywordService.ResearchKeyword | backend/app/services/keyword_service.py:34-63 | works on the lower-cased, stripped keyword; fails iff it has no words; every field from its generator (`IsBasicResearch`), with the competition level from its own difficulty |
| KeywordService.MergeAiKeywords | backend/app/services/keyword_service.py:309-315 | no AI keywords leaves the list unchanged; otherwise min(15, n) entries, by relevance non-increasing, drawn from the list plus at most 5 AI suggestions |
| KeywordService.MergeKeepsMostRelevant | backend/app/services/keyword_service.py:311-315 | the kept suggestions are a prefix of the sorted pool, and none left out is more relevant than one kept |
| KeywordService.ResearchKeywords | backend/app/services/keyword_service.py:291-326 | fails iff the keyword has no words; otherwise every field equals the basic research's (`IsBasicResearch`), except the related keywords, which are the basic list with the AI suggestions merged |
| Helpers.HitCount | backend/app/utils/helpers.py:2 | at most the number of keywords |
| Helpers.ScoreTextRelevance | backend/app/utils/helpers.py:1-3 | within [0, 100]; 100 with four or more hits, otherwise 25 × hits |
| Helpers.ScoreIsQuarterStep | backend/app/utils/helpers.py:3 | the score is one of 0, 25, 50, 75, 100 |
| Helpers.HitCountAppend | backend/app/utils/helpers.py:2 | the hits of two keyword lists add up |
| Helpers.ScoreMonotone | backend/app/utils/helpers.py:2-3 | adding keywords never lowers the score |
| Helpers.EmptyKeywordHits | backend/app/utils/helpers.py:2 | the empty keyword hits every text |
| Helpers.BuildAiPrompt | backend/app/utils/helpers.py:5-10 | unknown tasks give "Unknown AI prompt."; `summary` gives the site prompt iff a url is present; `content` gives the article prompt iff topic and keywords are present; otherwise a KeyError |

## Left out

- Fetching, parsing and the orchestrators are left out. This covers HTTP fetching and HTML parsing, `analyze_website`, and the sitemap and robots.txt probes. The page arrives as the values BeautifulSoup would report, and the two probe results are parameters.
- Readability and sentence counting come from textstat, a foreign library. Both are inputs.
- The mock competitor list `_analyze_competitors` (seo_service.py:304-324) has no logic.
- `perform_seo_analysis` and `get_recent_seo_results` only store or query rows. `SeoAnalytics` takes the query as a function of the rows.
- Rounding is left out: `round(avg_score, 2)` and `round(cpc, 2)`.
- Floating point becomes real arithmetic: scores, densities and prices are exact `real`s.
- SeoService.RecommendedFrequency: computes `max(1, ⌊words / (50 · keyword words)⌋)` exactly. Float products such as `word_count * 0.02` near an integer may round differently.
- Strings are ASCII only: `lower`, `title`, `split` and `strip` are modelled on ASCII letters and on the ASCII characters `str.isspace` accepts (space, codes 9 to 13 and 28 to 31). Non-ASCII whitespace such as U+0085 and U+00A0 is treated as part of a word.
- Python's Unicode case rules are not modelled.
- Seqs.SortDesc: the descending sort is written to keep equal keys in arrival order, as Python's stable sort does, but stability is not proved. Only order and permutation are. For tied counts or relevances, the proved contracts allow any tie order.
- Databases and async are left out: SQLAlchemy sessions, commits, refreshes, transactions and `async` are replaced by in-memory tables.
- The SQL `created_at DESC` ordering among equal timestamps is left to the sort.
- A webhook whose `payment_id` does not parse as an integer is left out. The source answers it with a webhook error from `int(...)`; the model takes the id as an integer.
- Concurrency is left out: no interleaving of requests is modelled.
- `_get_usage_stats` counts this month's SEO analyses with a clock-dependent query. The model takes that count as a parameter; the other three values are the source's constants.
- `increment_usage`, `get_all_plans` and `get_subscription_plans` have no logic or return the plan table unchanged.
- `get_user_by_email` is never called by the core.
- `process_subscription_payment` only forwards to `process_payment`.
- The AI service is left out: OpenAI calls, parsing of model output, and the WebSocket handler. In `research_keywords` the AI result is a parameter, and a failed call is an empty list.
- Email, hashing and JWT are uninterpreted parameters: the email send (SMTP), bcrypt hashing and verification, and JWT encoding.
- `get_user_by_id` is imported by routes_auth.py but not defined in auth_service.py, so the handler could not be imported as written. `AuthService.GetUserById` reads it as the id lookup its name describes. routes_auth.py:4 also imports `OTPVerificationRequest`, `OTPSendRequest` and `OTPResponse`, which backend/app/schemas/user.py does not define, so the `success`/`message` shape of `AuthRoutes.OtpResponse` is read from the keyword arguments the handlers pass to `OTPResponse`, not from a schema definition.
- The process-payment failure branch (payment_service.py:89-98) is dead code, because `success` is the constant `True`. It is not modelled.
- Register issues no OTP, although its message says a code was sent. The model follows the code: `AuthRoutes.RegisterThenVerifyFails` records the result.
- The frontend, the placeholder routes returning constants, settings, logging, tests and deploy scripts are left out.

## Findings

| source | as written | input that shows it | evidently intended | confidence | as-written member | corrected member |
|---|---|---|---|---|---|---|
| backend/app/services/subscription_service.py:219-223 | `api_calls` is looked up as `api_calls_per_month`, a key no plan defines, so its limit is 0 | `check_usage_limit(..., "api_calls")` for an enterprise user answers not allowed | the per-day key `api_calls_per_day` that every plan defines | not executed; high | SubscriptionService.ApiCallsAlwaysRefused | SubscriptionService.CorrectedKeysExistInEveryPlan |
| backend/app/services/auth_service.py:27-36 | only the username is checked, so a duplicate email reaches the `unique` column and the commit raises (a 500 from `register`) | users alice and bob, both with `a@example.com` | reject as 409 "Username or email already exists", as the route's message says | not executed; high | AuthService.DuplicateEmailRaises | AuthService.CreateStepCheckedNeverRaises |
| backend/app/services/keyword_service.py:126-129 | `competition` comes from a second random difficulty draw, not the reported `difficulty_score` | keyword `seo`, draws giving 65 and then 100: difficulty 65 but competition high | the level of the reported score, as `research_keyword` does | not executed; high | KeywordService.BatchCompetitionMayDisagree | KeywordService.BatchEntryCorrected |
| backend/app/services/seo_service.py:460 | the trend takes `analyses[-10:]` of a newest-first list, which is the ten oldest | eleven analyses: the newest is missing from the trend | the ten most recent, `analyses[:10]` | not executed; medium | SeoService.TrendOmitsNewest | SeoService.RecentTrendKeepsNewest |

