# Synthetica: a Dafny model of the web app's core

Synthetica is a React single-page app that checks news articles and images for misinformation.
The analysis itself is done by an external AI service. This project models the app's own logic
and proves properties about it. There is no backend: everything the app keeps lives in the
browser's `localStorage`.

- **Credit ledger** (`services/creditService.ts`, in `ledger.dfy` and `credits.dfy`).
  - New users get 2 free credits.
  - Subscribers get a daily allotment that refills once per UTC day.
  - An expired subscription drops to 0 credits.
  - An upgrade is priced pro rata against the time left on the current plan.
- **Plan catalog** (`App.tsx`, in `plans.dfy`): the catalog and the page router (`app.dfy`).
- **Mock account service** (`services/authService.ts`, in `auth.dfy`).
  - Users are a table keyed by email, with plain-text passwords.
  - There is a stored session.
- **Auth provider** (`components/AuthContext.tsx`, in `session.dfy`).
- **Per-user analysis history** (`services/historyService.ts`, in `history.dfy`).
- **Pages and forms**:
  - the pricing cards (`pricing.dfy`);
  - the checkout form with its card formatting and validation (`checkout.dfy`);
  - the thank-you hand-off that activates a plan (`thankyou.dfy`);
  - the analyzer's credit gate (`analyzer.dfy`);
  - the sign-in form (`authpage.dfy`);
  - the profile editor (`profile.dfy`);
  - the article form and its submit button, which is a plain definition: disabled and captioned 'Analyzing...' while loading (`inputform.dfy`);
  - the live-conversation transcript (`converse.dfy`).

How the model is built:

- **Pure code** becomes datatypes, functions and lemmas.
- **Storage and state.** `localStorage` is one `LocalStorage.Store` object holding a map from keys to decoded records. Each hook or component whose state the source updates is a class with those fields. Its methods are the handlers, with `modifies` clauses. Each handler's new state is stated through a specification function, and the lemmas about those functions carry the properties.
- **External inputs.** The clock, the AI call's outcome, the microphone and the file reader are all given as parameters:
  - the clock is `now`, in milliseconds since the epoch;
  - the signed-in user is an `Option<User>` argument;
  - the AI call's outcome, the microphone's outcome and the data URL a file reader yields are plain arguments.

Where the prose design and the code disagree, the model follows the code:

- A refresh never persists the new-user default `{ credits: 2 }`; it only returns it.
- The daily reset compares UTC calendar days, because it compares `toISOString()` dates.
- A stored session that parses but has the wrong shape yields no user, and is not removed.

## Model

| member | source | states |
|---|---|---|
| Plans.PlanFor | App.tsx:27-31 | every plan id has a catalog entry, and that entry carries the id |
| Plans.CatalogShape | App.tsx:27-31 | the catalog holds exactly weekly, monthly and yearly, each under its own id |
| Plans.DurationsStrictlyIncrease | App.tsx:27-31 | durations grow from 7 to 30 to 365 days; no two plans share one |
| Ledger.ExpiryIsStrict | services/creditService.ts:83-89 | an expiry in the past clears the subscription, limit and reset date, sets 0 credits and forces a write; expiring exactly now survives |
| Ledger.ResetIff | services/creditService.ts:92-101 | the refill fires iff the subscription is live, has a reset date and a non-zero limit, and today's UTC day is later than the last reset's; it then sets credits to the limit and the reset date to now; nothing written means nothing changed |
| Ledger.ResetOncePerUtcDay | services/creditService.ts:92-101 | after a refill, no second refill happens later the same UTC day |
| Ledger.ResetNextUtcDay | services/creditService.ts:92-101 | after a refill, any instant of the next UTC day refills again, however little time has passed, while the subscription is still live |
| Ledger.ReconcileIdempotent | services/creditService.ts:77-110 | a second refresh at the same instant changes nothing and writes nothing |
| Ledger.ReconcileKeepsWellFormed | services/creditService.ts:77-110 | a refresh keeps the record well-formed: balance at least 0, no limit without a subscription, balance at most the limit |
| Ledger.ConsumedSpec | services/creditService.ts:119-124 | spending takes exactly one credit when there is one, never goes below 0, and keeps every other field |
| Ledger.FreeCreditsDrain | services/creditService.ts:5 | a new user's balance goes 2, 1, 0, 0 |
| Ledger.ActivationIsStable | services/creditService.ts:131-154 | an activation grants the plan's daily credits and limit, is well-formed, and the refresh at the same instant keeps it and writes nothing |
| Ledger.NewUserIsFree | services/creditService.ts:39 | the default record is 2 credits without a subscription; no refresh ever changes or writes it |
| Ledger.ProrationFallbacks | services/creditService.ts:52-59 | an unknown current plan, or no time left, costs the full price |
| Ledger.ProrationBounds | services/creditService.ts:61-66 | with non-negative prices the upgrade cost lies between 0 and the new plan's price |
| Ledger.ProrationMonotone | services/creditService.ts:57-66 | the cost never decreases as time passes |
| Ledger.ProrationWeeklyToMonthly | services/creditService.ts:61-64 | Weekly with 3.5 days left, upgraded to Monthly, costs 49.995 |
| CreditService.NewUserRefresh | services/creditService.ts:25-110 | for a signed-in user with no readable record, a refresh exposes two free credits, not subscribed, so `hasCredits` holds, and writes nothing |
| CreditService.CreditHook.HasCredits | services/creditService.ts:127-129 | a definition: `hasCredits` is `credits > 0` on the exposed record |
| CreditService.SaveThenLoad | services/creditService.ts:42-44 | loading after saving returns the saved record; other users' records are unaffected |
| CreditService.CreditHook.constructor | services/creditService.ts:74-75 | the hook starts at `{ credits: 0 }`, not subscribed |
| CreditService.CreditHook.Refresh | services/creditService.ts:77-110 | the record becomes the reconciled stored record and `isSubscribed` mirrors its subscription; storage is written only if a step fired; with no user, nothing happens |
| CreditService.CreditHook.ConsumeCredit | services/creditService.ts:116-125 | the record loses one credit (floored at 0) and is saved; with no user, nothing happens |
| CreditService.CreditHook.ActivateSubscription | services/creditService.ts:131-154 | the saved and exposed record is the plan's activation record, and the user is subscribed |
| CreditService.RefreshTwice | services/creditService.ts:112-114 | two refreshes at one instant leave exactly the hook state (record and `isSubscribed`) and storage of one refresh; without a user, nothing changes |
| LocalStorage.KeysSeparate | services/creditService.ts:23 | credit and history keys are injective in the email, never collide with each other, and never equal the fixed keys |
| HistoryService.NewItem | services/historyService.ts:50-54 | the item keeps the payload, with id the instant's decimal digits and timestamp the instant |
| HistoryService.WithoutIdMembers | services/historyService.ts:69 | an item survives the delete filter iff it was there and has a different id |
| HistoryService.WithoutIdLength | services/historyService.ts:69 | the filter never lengthens the list, and removes nothing when no item has the id |
| HistoryService.WithoutIdIdempotent | services/historyService.ts:69 | filtering twice equals filtering once |
| HistoryService.SaveAnalysis | services/historyService.ts:45-58 | the new storage state is `Saved`: the new item is prepended to the session user's list; with no session, nothing changes |
| HistoryService.DeleteHistoryItem | services/historyService.ts:64-71 | the new storage state is `Deleted`: the filtered list is always written back |
| HistoryService.ClearHistory | services/historyService.ts:76-81 | the new storage state is `Cleared`: the user's entry is removed |
| HistoryService.SaveThenGet | services/historyService.ts:27-58 | after a save, the history is the new item followed by the old history (newest first) |
| HistoryService.DeleteThenGet | services/historyService.ts:27-71 | after a delete, exactly the items with other ids remain; deleting again changes nothing |
| HistoryService.ClearThenGet | services/historyService.ts:27-39 | after clearing, the history is empty |
| HistoryService.HistoryKeepsSession | services/historyService.ts:18-21 | no history operation touches the session |
| HistoryService.OnlyOwnHistoryChanges | services/historyService.ts:45-81 | every other key keeps its entry, including other users' histories and all credit records |
| AuthService.Login | services/authService.ts:46-65 | success iff an account exists under the email with that password; it returns the public profile, otherwise 'Invalid email or password.' |
| AuthService.Signup | services/authService.ts:29-44 | success iff the email is new; it then saves the table with a no-picture account; otherwise 'User with this email already exists.' and nothing written |
| AuthService.UpdateUserProfile | services/authService.ts:67-99 | 'User not found.' with nothing written; otherwise the account is updated with the password kept, the session rewritten only if it is this user's, and the profile returned without the password |
| AuthService.SignupThenLogin | services/authService.ts:29-65 | after a signup, the same credentials log in with the new profile; another password is refused |
| AuthService.SignupKeepsOthers | services/authService.ts:40-41 | a signup leaves every other account and the session unchanged |
| AuthService.UpdateKeepsLogin | services/authService.ts:78-97 | after an update the old password still logs in, yielding exactly the returned profile, which equals the updates applied to the old profile |
| AuthService.UpdateSessionOwnership | services/authService.ts:83-91 | the session is rewritten only for its own user, with the updates applied |
| Accounts.UpdateCommutesWithProfile | services/authService.ts:78-97 | updating then hiding the password equals hiding then updating; the password is kept |
| AuthContext.AuthProvider.constructor | components/AuthContext.tsx:47-48 | the provider starts with no user, loading |
| AuthContext.AuthProvider.IsAuthenticated | components/AuthContext.tsx:101 | a definition: `isAuthenticated` is the presence of a current user |
| AuthContext.AuthProvider.ShowsChildren | components/AuthContext.tsx:106 | a definition: the children are rendered only once loading is over |
| AuthContext.AuthProvider.Mount | components/AuthContext.tsx:50-62 | a readable session restores its user; an unparseable one is removed; with no session the user is left as it was; loading ends on every path |
| AuthContext.AuthProvider.Signup | components/AuthContext.tsx:64-66 | the service's signup, passed through |
| AuthContext.AuthProvider.Login | components/AuthContext.tsx:68-76 | on success the profile becomes both the stored session and the current user; on failure nothing changes |
| AuthContext.AuthProvider.Logout | components/AuthContext.tsx:78-81 | the session is removed and the user cleared |
| AuthContext.AuthProvider.UpdateUserProfile | components/AuthContext.tsx:83-93 | with no user: 'No user logged in.' and nothing changes; otherwise the service's update, and on success the returned profile becomes the current user |
| AuthContext.LogoutEndsSession | components/AuthContext.tsx:78-81 | after a logout the services see no session user |
| AuthContext.LoginSessionReadable | components/AuthContext.tsx:70-73 | a login's stored session is readable by the services and names the stored account |
| App.Toggled | App.tsx:61-63 | a toggle always changes the theme |
| App.ToggleInvolution | App.tsx:61-63 | toggling twice restores the theme |
| App.AuthGate | App.tsx:74-76 | signed out, every page renders the auth screen; signed in, none does |
| App.CheckoutFallback | App.tsx:86-87 | checkout shows its details iff they exist; otherwise the pricing page |
| App.AppState.constructor | App.tsx:34-35 | the app starts on the home page with no checkout |
| App.AppState.SelectPlan | App.tsx:65-68 | the checkout screen shows exactly the catalog plan and the cost passed in |
| App.AppState.SuccessfulCheckout | App.tsx:70-72 | causes a move to the thank-you page, with nothing else changed |
| App.AppState.Navigate | App.tsx:81-103 | a `setPage` callback sets exactly the page, keeping the checkout details and the theme |
| App.AppState.AuthChanged | App.tsx:47-52 | signing out resets the page to home |
| App.AppState.ToggleTheme | App.tsx:61-63 | the theme is toggled, with nothing else changed |
| App.SignOutThenIn | App.tsx:47-52 | after a sign-out, signing back in lands on the home screen |
| PricingPage.ClassifySpec | components/PricingPage.tsx:118-120 | for a subscriber, a catalog plan is a downgrade iff it comes before the subscribed plan in the order weekly, monthly, yearly, an upgrade iff it comes after, current iff it is that plan; a non-subscriber sees none of the three |
| PricingPage.ExactlyOneStatus | components/PricingPage.tsx:117-120 | for a subscriber, each catalog plan is exactly one of current, downgrade or upgrade |
| PricingPage.UpgradeCostOnlyForUpgrades | components/PricingPage.tsx:122-125 | an upgrade cost exists iff the plan is an upgrade; it is the prorated cost, between 0 and the price |
| PricingPage.ButtonSpec | components/PricingPage.tsx:25-36 | the button is disabled iff current or downgrade, with captions in priority order |
| PricingPage.EnabledSelections | components/PricingPage.tsx:131 | an enabled card forwards its id plus either no cost (non-subscriber) or the prorated upgrade cost |
| CheckoutPage.AmountDue | components/CheckoutPage.tsx:21-22 | an upgrade cost between 0 and the price gives an amount due between 0 and the price |
| CheckoutPage.AmountDueForSelection | components/CheckoutPage.tsx:21-22 | for a plan picked on the pricing page, the amount due is the prorated cost for an upgrade and the full price otherwise, always between 0 and the price |
| CheckoutPage.UpgradeBreakdown | components/CheckoutPage.tsx:118 | the credit line and the amount due add up to the plan's price |
| CheckoutPage.StripGroup | components/CheckoutPage.tsx:31 | grouping in fours only inserts spaces |
| CheckoutPage.FormatCardNumberIdempotent | components/CheckoutPage.tsx:30-32 | formatting a formatted card number changes nothing |
| CheckoutPage.SixteenDigits | components/CheckoutPage.tsx:30-32 | 16 digits in any spacing format as four groups of four, 19 characters |
| CheckoutPage.FormattedExpirySlashes | components/CheckoutPage.tsx:34-39 | removing the slashes from a formatted expiry gives back the typed digits |
| CheckoutPage.FormatExpiryIdempotent | components/CheckoutPage.tsx:34-39 | formatting a formatted expiry changes nothing; past two characters there is one '/' at index 2 |
| CheckoutPage.FourDigitExpiry | components/CheckoutPage.tsx:34-39 | four typed characters without a slash become `MM/YY` (five characters), and formatting that `MM/YY` again leaves it unchanged |
| CheckoutPage.ValidateSpec | components/CheckoutPage.tsx:49-64 | validation reports a check iff it fails and every earlier check passes; it reports nothing iff all pass |
| CheckoutPage.FormattedInputsPass | components/CheckoutPage.tsx:49-64 | formatted 16 digits, a 4-digit expiry, a name and a 3-character CVC pass validation |
| CheckoutPage.CheckoutForm.constructor | components/CheckoutPage.tsx:14-19 | the form starts empty, not loading |
| CheckoutPage.CheckoutForm.HandleInputChange | components/CheckoutPage.tsx:25-42 | the named field is set to its formatted value; the other fields are kept |
| CheckoutPage.CheckoutForm.HandleSubmit | components/CheckoutPage.tsx:44-66 | processing starts iff validation passes; otherwise the first failing check's message |
| CheckoutPage.CheckoutForm.PaymentFinished | components/CheckoutPage.tsx:69-72 | loading ends when the mock payment's timer fires |
| ThankYouPage.AmountPaid | components/ThankYouPage.tsx:142-143 | the amount stored is the checkout's amount due |
| ThankYouPage.HandleSuccess | components/ThankYouPage.tsx:141-152 | the stored purchase reads back as the plan and the amount due |
| ThankYouPage.ReceiptFor | components/ThankYouPage.tsx:29-33 | there is a receipt iff there are details and a signed-in user; it carries the amount paid and the user's email |
| ThankYouPage.ThankYouView.ActivationEffect | components/ThankYouPage.tsx:20-27 | a valid pending purchase activates its plan, is shown, and is removed; otherwise nothing happens; afterwards nothing is pending |
| ThankYouPage.EffectIsOneShot | components/ThankYouPage.tsx:20-27 | running the effect again activates nothing more: storage, the credit record and the details shown are those of the first run (and without a pending purchase, nothing changes) |
| ThankYouPage.ThankYouView.ReceiptDisabled | components/ThankYouPage.tsx:118 | a definition: the receipt button is disabled while no purchase details are shown |
| ThankYouPage.ThankYouView.constructor | components/ThankYouPage.tsx:16 | the page starts with no purchase details shown |
| ThankYouPage.CheckoutThenThankYou | components/ThankYouPage.tsx:20-27 | after a checkout and the thank-you page, the plan is active in storage and in the hook, the receipt is enabled, and nothing is pending |
| AnalyzerPage.Snippet | components/AnalyzerPage.tsx:56 | text up to 150 characters is kept whole; longer text is cut to 150 with '...' |
| AnalyzerPage.CreditsMessageOffersPlans | components/AnalyzerPage.tsx:29-38 | both out-of-credits messages mention "credits", so the error offers 'View Plans' |
| AnalyzerPage.RejectionMessageNonEmpty | components/AnalyzerPage.tsx:62 | the error shown for a failed analysis is never empty |
| AnalyzerPage.AnalyzerView.CheckCredits | components/AnalyzerPage.tsx:29-38 | passes iff the hook has credits; otherwise sets the subscriber or free message |
| AnalyzerPage.AnalyzerView.constructor | components/AnalyzerPage.tsx:18-23 | the analyzer starts on the article input, not loading, with no result, input or error |
| AnalyzerPage.AnalyzerView.Analyze | components/AnalyzerPage.tsx:40-94 | the body both handlers share: the credit gate, then the result shown with one credit spent (only for a signed-in user) and the entry saved, or the rejection's message with nothing spent; the input type and `isSubscribed` never change |
| AnalyzerPage.AnalyzerView.HandleTextAnalysis | components/AnalyzerPage.tsx:40-66 | out of credits: only the message; a result spends one credit (none without a user) and saves a 150-character snippet; a failure sets its message; loading ends; the input type and `isSubscribed` are kept |
| AnalyzerPage.AnalyzerView.HandleImageAnalysis | components/AnalyzerPage.tsx:68-94 | as for text, saving the file name; the same frame on the input type, `isSubscribed` and, without a user, the credit record |
| AnalyzerPage.AnalyzerView.HandleReset | components/AnalyzerPage.tsx:96-100 | result, error and input are cleared |
| AnalyzerPage.AnalyzerView.SwitchInputType | components/AnalyzerPage.tsx:102-106 | ignored while loading; otherwise a reset and the new input type |
| AnalyzerPage.ResolvedAnalysisEffects | components/AnalyzerPage.tsx:47-59 | a resolved analysis spends one credit in storage and puts the entry at the head of the user's history |
| AuthPage.FormErrorSpec | components/AuthPage.tsx:71-87 | missing credentials are rejected first in both modes; in signup mode a blank trimmed name is next, then a password under 8; login mode has no length check |
| AuthPage.AuthForm.constructor | components/AuthPage.tsx:54-62 | the form starts in login mode, empty, not loading |
| AuthPage.AuthForm.HandleSubmit | components/AuthPage.tsx:65-110 | a failed guard shows its message and calls nothing; a login sets the service's message on failure; a successful signup switches to login with the fields cleared; loading is false on every path |
| AuthPage.AuthForm.ToggleMode | components/AuthPage.tsx:198 | switches mode and clears both messages |
| ProfilePage.DaysRemaining | components/ProfilePage.tsx:144 | 0 with no expiry; otherwise the time left divided by a day, rounded up |
| ProfilePage.DaysRemainingExact | components/ProfilePage.tsx:144 | exactly n days ahead gives n; a millisecond more gives n + 1 |
| ProfilePage.PictureError | components/ProfilePage.tsx:115-122 | a picture is accepted iff it is a JPG or PNG of at most 2·1024·1024 bytes; the type is checked first |
| ProfilePage.TwoMebibyteBoundary | components/ProfilePage.tsx:119-122 | exactly 2 MiB is accepted, one byte more is rejected |
| ProfilePage.ProfileView.HandleEditDetails | components/ProfilePage.tsx:95-108 | a blank name sets an error and calls nothing; on success edit mode is left and the current user has the form's name and phone; with no user, or no account for the user, the service's message is shown and nothing changes |
| ProfilePage.ProfileView.constructor | components/ProfilePage.tsx:65-71 | the profile starts out of edit mode, with the form filled from the current user (empty without one), no message and no preview |
| Text.IsBlank | components/ProfilePage.tsx:97 | the trim test is true exactly for a string made only of whitespace |
| ProfilePage.ProfileView.HandleProfilePicSelect | components/ProfilePage.tsx:110-130 | with no file, nothing happens; a rejected file sets its message; otherwise the preview is set and the message cleared |
| ProfilePage.ProfileView.HandleSaveProfilePic | components/ProfilePage.tsx:132-142 | without a preview, nothing happens; on success the preview is cleared and becomes the user's picture |
| InputForm.ArticleForm.HandleSubmit | components/InputForm.tsx:12-20 | under 50 trimmed characters: an error and no submission; otherwise the error is cleared and the untrimmed value submitted |
| InputForm.ArticleForm.constructor | components/InputForm.tsx:9-10 | the form starts with an empty input and no error |
| InputForm.BoundaryOfFifty | components/InputForm.tsx:14 | padding never counts; exactly 50 unpadded characters pass, 49 do not |
| ConversePage.StartGateIsInactive | components/ConversePage.tsx:98 | a start is allowed iff no session is active (idle, stopped or error) |
| ConversePage.Conversation.Start | components/ConversePage.tsx:97-102 | a no-op unless idle, stopped or error; otherwise connecting, no error, empty transcript |
| ConversePage.Conversation.constructor | components/ConversePage.tsx:52-54 | the conversation starts idle, with no error and an empty transcript |
| ConversePage.Conversation.OnOpen | components/ConversePage.tsx:117-118 | an opened session is active, with the error and transcript kept |
| ConversePage.Conversation.OnMessage | components/ConversePage.tsx:139-172 | the transcript becomes the merge of the fragments; output sets 'speaking' and a complete turn sets 'active' |
| ConversePage.Conversation.OnError | components/ConversePage.tsx:194-198 | the error state, with 'An error occurred: ' and the message |
| ConversePage.Conversation.OnClose | components/ConversePage.tsx:199-202 | the stopped state |
| ConversePage.AppendShape | components/ConversePage.tsx:152-166 | an empty fragment changes nothing; otherwise the last entry is extended or one entry added; earlier entries are kept |
| ConversePage.MergeShape | components/ConversePage.tsx:150-168 | the merge never removes entries, adds at most two, and keeps every entry before the last |
| ConversePage.MergeSpoken | components/ConversePage.tsx:152-166 | each speaker's text is their old text followed by their fragment; nothing is lost or reordered |
| ConversePage.MergeAlternates | components/ConversePage.tsx:150-168 | the merge keeps adjacent entries from different speakers |
| ConversePage.ConversationAlternates | components/ConversePage.tsx:139-172 | every message keeps the transcript alternating |

## Left out

- Rendering, styling, animations and the PDF receipt and report generation (jsPDF, html2canvas): they are presentation with no logic to prove.
- The AI analysis calls, the live audio session, audio encoding and decoding and the microphone: they are external. What they yield is a method argument: `Outcome`, `MicResult`, and the transcription fragments of `OnMessage`.
- The contact form, the blog and static pages, the history page's display and the browser extension: they are outside the modelled core.
- Asynchrony: the simulated network delays, `setTimeout`, React's batching of state updates and effect scheduling are not modelled. Each handler is one atomic step in program order.
  - In `ConversePage.Conversation.OnMessage`, 'speaking' set inside the transcript updater is followed by the turn-complete 'active', in that program order.
- Aliasing through stored objects is not modelled. The transcript merge mutates the last entry in place through a shallow copy; the model builds a new entry. Under React StrictMode's double invocation, the source can append a fragment twice.
- `JSON.stringify`/`JSON.parse` are not modelled. Storage holds decoded records:
  - text that does not parse is `Unparseable`;
  - JSON of the wrong shape is another record kind.
- JavaScript prototype keys (such as an email of `__proto__`) are not modelled: accounts are a plain map.
- A stored session of literal `null` makes the source's mount throw and remove the key. The model reads it as wrongly shaped, so no user and no removal.
- HistoryService.GetHistory: a stored value that parses but is not a list is read as the empty list, whereas the source returns the parsed value.
- AuthService.GetUsers: a stored users value that parses but is not a table (another kind of record) is read as the empty table, whereas the source returns the parsed value as it is.
- A history item's timestamp is modelled as the instant in milliseconds rather than its ISO string.
- Prices are exact reals, not IEEE doubles. `toFixed(2)` in the display is not modelled.
- Plan expiry: `activateSubscription` adds days with local-time `setDate`. The model adds `durationDays` whole UTC days of 86,400,000 ms, so daylight-saving shifts are not captured.
- String lengths count characters as Dafny `char`s. UTF-16 surrogate pairs (the source's `length`) are not distinguished.
- The `maxLength` attributes of the card inputs are not modelled. The model formats and validates whatever is typed.
- ThankYouPage.ThankYouView.ActivationEffect: an unparseable stored purchase makes the source's effect throw. The model activates nothing and leaves the key.
- AuthPage.AuthForm.HandleSubmit: the `catch` branch ('An unexpected error occurred.') is not modelled, because the account service it calls never throws.
- AnalyzerPage: the image prompt goes only to the external service, and the download state is display only.
- The `User` fields `subscription` and `credits` are declared but never written by the core, so they are omitted.
- App.AppState.constructor: the initial theme, read from storage or the colour-scheme preference, is a parameter.
- ProfilePage.ProfileView.HandleEditDetails: the contract does not state the returned profile's email, because the users table does not guarantee that an account's email equals its key.
- The profile page's history list handlers repeat `HistoryService.DeleteHistoryItem` and `ClearHistory` on their local copy, together with a confirmation dialog. This is covered by the service model.
