# RareRupees in Dafny

RareRupees is a single-page application for cataloguing a coin collection.
It has a collection dashboard, a coin detail view, an add/edit coin form,
authentication pages, a profile page and a settings page. It also has two
service layers, which wrap the hosted backend's authentication and coin
tables. This project models the logic of those pages and services and
proves what they promise.

One Dafny module per source file:

| module | file | what it holds |
|---|---|---|
| `JsText` | js_text.dfy | the JavaScript primitives the components rely on: truthiness, `\|\|`, object spread, `filter`, `trim`, `toLowerCase`, `includes`, `split`/`join`, `replace`, `toString`, `parseInt`, `parseFloat` |
| `ServiceCall` | service_call.dfy | the shared shape of a service call: an awaited `{data, error}` answer or an exception, classified into a result record |
| `AuthService` | auth_service.dfy | sign-up, sign-in, resend, sign-out, session, profile read and update, password reset and provider sign-in |
| `CoinService` | coin_service.dfy | the coin list query (category and search), the CRUD calls, the update payload and the statistics count |
| `AppRoutes` | app_routes.dfy | the route table and the `isAuthenticated` path test shared by both bars |
| `ProtectedRoute` | protected_route.dfy | the gate around every private page |
| `GlobalHeader`, `BottomTabNavigation` | global_header.dfy, bottom_tab_navigation.dfy | the two navigation bars |
| `CollectionDashboard`, `SearchOverlay` | collection_dashboard.dfy, search_overlay.dfy | the dashboard's filter/sort pipeline, chips, statistics, empty state, pull-to-refresh, and the search overlay's recent-search list |
| `ImageCarousel`, `CoinDetailModal`, `ConditionAssessment`, `NotesSection` | image_carousel.dfy, coin_detail_modal.dfy, condition_assessment.dfy, notes_section.dfy | the coin detail view |
| `AddEditCoin`, `CoinDetailsForm` | add_edit_coin.dfy, coin_details_form.dfy | the add/edit page and its details form |
| `AuthForm`, `AuthenticationPage`, `AuthenticationModal` | auth_form.dfy, authentication_page.dfy, authentication_modal.dfy | the authentication screens |
| `SettingsPreferences`, `PrivacySecurity` | settings_preferences.dfy, privacy_security.dfy | the settings page and its privacy section |
| `UserProfile` | user_profile.dfy | the profile page |

How the model is shaped:

- A component with state becomes a `class`. Its `useState` variables are
  fields and its handlers are methods.
- An `async` handler is split in two. `BeginX` is the part before the
  `await`. `FinishX(outcome)` is the part after it, and takes the awaited
  result as a parameter: a `Settled` value, either resolved with an
  optional result record or rejected.
- Navigation, timers and storage writes become fields that record the
  requests: `navigations`, `effects`, `stored`.
- Pure helpers are functions: the service classifiers, the gate, titles,
  scores and truncation.
- Loops in the source are methods with loop invariants:
  - the year options;
  - the deletion of changed errors;
  - the dashboard sort, an insertion sort by adjacent swaps on an `array`.
- "Now", the current year, fresh ids and parsed JSON are parameters.
- Dates on the dashboard are whole day numbers. A day number stands for
  UTC midnight of that day, at `day * 86400000` ms.
- The authentication page renders its form with `isLogin`, `onToggleMode`,
  `onSubmit` and `isLoading`. The form reads only `activeTab` and
  `onTabChange`, so as wired it never receives a tab. Its submit therefore
  always runs `handleSignUp` with the sign-in checks (see "## Findings"),
  and the page's own `handleFormSubmit` is never called.
  `AuthenticationPage.Page.BeginSubmit` and `FinishSubmit` model that
  handler as written.
- The dashboard mounts the search overlay hidden, and nothing on the
  dashboard opens it: only `setShowSearchOverlay(false)` appears
  (src/pages/collection-dashboard/index.jsx:16, 316). `SearchOverlay`
  models the component for whatever visibility it is given.

### Definitions without a contract

These functions and predicates model source code directly. They carry no
`ensures` of their own; the contracts and lemmas in the table below state
their properties.

| member | source | defines |
|---|---|---|
| ServiceCall.IsDatabaseNetworkFailure | src/utils/coinService.js:48-49 | an exception message mentions 'Failed to fetch' or 'NetworkError' |
| AuthService.IsAuthNetworkFailure | src/utils/authService.js:35-36 | an exception message mentions 'Failed to fetch' or 'AuthRetryableFetchError' |
| CoinService.ILikeContains | src/utils/coinService.js:31-36 | `column ilike '%q%'` as a case-insensitive substring test |
| CoinService.Holds, CoinService.Selects | src/utils/coinService.js:16-37 | what one query filter, and a chain of them, lets through |
| CoinService.AddedInLast30Days | src/utils/coinService.js:218-223 | created at or after the 30-day cutoff instant |
| AppRoutes.IsDeclared | src/Routes.jsx:23-70 | the paths the router declares |
| AppRoutes.IsAuthenticated | src/components/ui/BottomTabNavigation.jsx:10-11 | the bars' substring test for the two public pages (the same at src/components/ui/GlobalHeader.jsx:13-14) |
| GlobalHeader.PageTitle | src/components/ui/GlobalHeader.jsx:16-27 | `getPageTitle` |
| GlobalHeader.ShowsBackButton | src/components/ui/GlobalHeader.jsx:64 | the back button on private pages other than the dashboard |
| BottomTabNavigation.Press | src/components/ui/BottomTabNavigation.jsx:41-43 | the path a tab press navigates to |
| SearchOverlay.Accepted | src/pages/collection-dashboard/components/SearchOverlay.jsx:27 | `query.trim()` is truthy |
| CollectionDashboard.MatchesSearch, CollectionDashboard.PassesSearch | src/pages/collection-dashboard/index.jsx:136-144 | the search filter, which an empty query skips |
| CollectionDashboard.MatchesCategory | src/pages/collection-dashboard/index.jsx:147-158 | the category filter |
| CollectionDashboard.Filtered | src/pages/collection-dashboard/index.jsx:133-159 | both filters in turn |
| CollectionDashboard.DenominationValue | src/pages/collection-dashboard/index.jsx:173 | `parseFloat` of the denomination without its first '₹' |
| CollectionDashboard.Compare, CollectionDashboard.DenominationCompare | src/pages/collection-dashboard/index.jsx:162-178 | the sort comparator, with a NaN difference read as 0 |
| CollectionDashboard.IsRecent | src/pages/collection-dashboard/index.jsx:122-128 | the rounded-up day difference is at most 30 |
| CoinDetailModal.IsVisible | src/components/ui/CoinDetailModal.jsx:13 | the modal's route test |
| AuthenticationModal.IsVisible | src/components/ui/AuthenticationModal.jsx:20 | the modal's route test |
| AuthenticationModal.MatchesEmailPattern, AuthenticationModal.HasEmailShape | src/components/ui/AuthenticationModal.jsx:58 | the e-mail regular expression, and the test the model runs for it |
| AuthForm.FirstValidationError | src/pages/authentication-login-register/components/AuthForm.jsx:46-68 | `validateForm`'s first failure |
| AuthForm.SubmitHandler | src/pages/authentication-login-register/components/AuthForm.jsx:168 | the handler the submit event runs for a tab |
| AuthenticationPage.DefaultUsername | src/pages/authentication-login-register/index.jsx:35 | `email.split('@')[0]` |
| CoinDetailsForm.CustomDenominationShown | src/pages/add-edit-coin/components/CoinDetailsForm.jsx:116 | the custom-denomination input is shown |
| CoinDetailsForm.Differs | src/pages/add-edit-coin/index.jsx:121-123 | two forms differ at a property |
| AddEditCoin.ParsesPositive, AddEditCoin.ParsesNonNegative | src/pages/add-edit-coin/index.jsx:102-112 | the weight, diameter and price checks |
| AddEditCoin.YearOutOfRange, AddEditCoin.YearRangeMessage | src/pages/add-edit-coin/index.jsx:91-95 | the year range check and its message |
| AddEditCoin.Judge | src/pages/add-edit-coin/index.jsx:73-115 | the outcome of each of `validateForm`'s checks |
| AddEditCoin.IsSaveDisabled | src/pages/add-edit-coin/index.jsx:214 | `isSaveDisabled` |
| AddEditCoin.Prop, AddEditCoin.InitForm | src/pages/add-edit-coin/index.jsx:48-68 | the form of edit mode |
| ConditionAssessment.TableScore | src/pages/coin-detail-view/components/ConditionAssessment.jsx:6-16 | the score table |
| ConditionAssessment.TextColor | src/pages/coin-detail-view/components/ConditionAssessment.jsx:20-25 | `getConditionColor` |
| ConditionAssessment.BarColor | src/pages/coin-detail-view/components/ConditionAssessment.jsx:57-61 | the bar's colour chain |
| ConditionAssessment.Description | src/pages/coin-detail-view/components/ConditionAssessment.jsx:80-88 | the description of each condition |
| ImageCarousel.ControlsShown | src/pages/coin-detail-view/components/ImageCarousel.jsx:44 | arrows and dots only with more than one image |
| SettingsPreferences.DefaultValue | src/pages/settings-preferences/index.jsx:14-33 | the initial value of each property of the settings object, one property at a time |
| SettingsPreferences.IsTruthy | src/pages/settings-preferences/components/PrivacySecurity.jsx:16 | truthiness of a setting read |
| JsText.Truthy | src/pages/authentication-login-register/components/AuthForm.jsx:164 | JavaScript truthiness of an optional string |
| JsText.IsSpace | src/pages/add-edit-coin/index.jsx:76 | the characters `trim` removes |
| JsText.InnerSliceAt | src/pages/add-edit-coin/index.jsx:76 | a slice of a string with only whitespace around it |
| JsText.IncludesIgnoringCase | src/pages/collection-dashboard/index.jsx:138 | `a.toLowerCase().includes(b.toLowerCase())` |
| JsText.Join | src/pages/add-edit-coin/index.jsx:65 | `parts.join(sep)` |
| JsText.ParseInt | src/pages/add-edit-coin/index.jsx:91 | `parseInt` in base ten |
| JsText.ParseDecimal | src/pages/add-edit-coin/index.jsx:102 | the literal `parseFloat` reads |

Other contract-less members are proof vocabulary: loop and class
invariants (`Valid`, `Inserting`, `SortedPrefix`), orderings (`Rank`,
`InKeyOrder`, `CountsDown`), and digit and pattern helpers.

## Model

| member | source | states |
|---|---|---|
| ServiceCall.Fail | src/utils/authService.js:20-22 | a failure record is well formed, unsuccessful, carries the given error and does not ask for confirmation |
| ServiceCall.Succeed | src/utils/authService.js:136 | a success record is well formed and carries the data and message it was given |
| ServiceCall.Classify | src/utils/authService.js:128-140 | the common service shape: a backend error fails with its message, a clean answer succeeds with the data, an exception fails with the operation's fallback text; the result is always well formed |
| ServiceCall.ClassifyDatabaseCall | src/utils/coinService.js:40-56 | the database shape: answers are classified as above, and an exception gets the connection text exactly when its message mentions 'Failed to fetch' or 'NetworkError' |
| ServiceCall.ConnectionTextIffNetworkFailure | src/utils/coinService.js:47-55 | an exception's error is the connection text if and only if it is a fetch failure, for any other fallback text |
| AuthService.SignUpMetadata | src/utils/authService.js:11-15 | full_name is fullName, else full_name, else ''; username defaults to ''; role defaults to 'collector' and is never empty |
| AuthService.SignUp | src/utils/authService.js:5-44 | a backend error fails with its message; a clean answer succeeds, with the confirmation message exactly when a user came back without a session; an exception fails, with the connection text exactly when it mentions 'Failed to fetch' or 'AuthRetryableFetchError', otherwise with 'Something went wrong during signup. Please try again.'; never asks for confirmation |
| AuthService.SignIn | src/utils/authService.js:47-86 | a backend error fails and asks for confirmation exactly when its message contains 'Email not confirmed', otherwise it keeps the message; a clean answer asks for confirmation exactly when the user's address is unconfirmed and succeeds exactly when it does not; a confirmation request from a backend error carries the 'click the confirmation link before signing in' text and one from an unconfirmed user the 'Please confirm your email address before signing in' text; success carries the session data and no message and implies no user or a confirmed one; an exception fails with the connection text exactly on a fetch failure, otherwise with 'Something went wrong during login. Please try again.' |
| AuthService.ResendConfirmation | src/utils/authService.js:89-110 | succeeds exactly on a clean answer, then with the sent message; a backend error passes its message on; an exception gives 'Failed to resend confirmation email.' |
| AuthService.SignOut | src/utils/authService.js:113-125 | succeeds exactly on a clean answer; a backend error passes its message on; an exception gives the logout fallback text |
| AuthService.GetSession | src/utils/authService.js:128-140 | succeeds exactly on a clean answer, with the session answer as data and no message; a backend error passes its message on; an exception gives 'Failed to get session.' |
| AuthService.ResetPassword | src/utils/authService.js:199-213 | succeeds exactly on a clean answer; a backend error passes its message on; an exception gives 'Failed to send reset email.' |
| AuthService.SignInWithProvider | src/utils/authService.js:216-233 | succeeds exactly on a clean answer, with the provider's answer as data and no message; a backend error passes its message on; an exception gives the failure text naming the provider |
| AuthService.GetUserProfile | src/utils/authService.js:143-166 | succeeds exactly on a clean answer, with the row as data; a backend error passes its message on; a fetch failure gives the database connection text and any other exception 'Failed to load user profile.' |
| AuthService.ProfileUpdatePayload | src/utils/authService.js:173-176 | the row sent is the caller's fields plus updated_at, every other field unchanged |
| AuthService.UpdateUserProfile | src/utils/authService.js:169-196 | succeeds exactly on a clean answer, with the updated row as data; a backend error passes its message on; a fetch failure gives the database connection text and any other exception 'Failed to update profile.' |
| AuthService.EveryOutcomeIsWellFormed | src/utils/authService.js:5-233 | whatever the backend does, every operation returns a record whose success is the absence of an error and which asks for confirmation only when it fails |
| AuthService.ExceptionsClassifiedAlike | src/utils/authService.js:34-43 | the same exception gives the connection text in signIn exactly when it does in signUp |
| CoinService.BuildUserCoinsQuery | src/utils/coinService.js:5-38 | the query selects a row exactly when it is the user's, passes the chip ('special' keeps special coins, 'modern' years from 2000, any other id except 'all' compares the category column) and, for a truthy query, matches the search |
| CoinService.And | src/utils/coinService.js:22-37 | adding a condition keeps the earlier ones and selects exactly the rows that meet them all and the new one |
| CoinService.ServerYearSearchIsExact | src/utils/coinService.js:34 | the server compares the year whole: '194' does not find a coin of 1947 although its digits contain '194' |
| CoinService.RunQuery | src/utils/coinService.js:40 | every returned row meets every condition of the query |
| CoinService.GetUserCoins | src/utils/coinService.js:40-56 | succeeds exactly on a clean answer, with the list, a missing one replaced by the empty list; a backend error fails with its own message; an exception fails with the connection text when it is a fetch failure, else with 'Failed to load coins.' |
| CoinService.GetUserCollections | src/utils/coinService.js:178-201 | succeeds exactly on a clean answer, with the list, a missing one replaced by the empty list; a backend error fails with its own message; an exception fails with the connection text when it is a fetch failure, else with 'Failed to load collections.' |
| CoinService.GetCoinById | src/utils/coinService.js:60-94 | succeeds exactly on a clean answer, with the row as data; a backend error fails with its own message; an exception fails with the connection text when it is a fetch failure, else with 'Failed to load coin details.' |
| CoinService.CreateCoin | src/utils/coinService.js:97-120 | succeeds exactly on a clean answer, with the inserted row as data; a backend error fails with its own message; an exception fails with the connection text when it is a fetch failure, else with 'Failed to create coin.' |
| CoinService.UpdateCoinPayload | src/utils/coinService.js:127-130 | the row sent is the caller's fields plus updated_at, every other field unchanged |
| CoinService.UpdateCoin | src/utils/coinService.js:123-150 | succeeds exactly on a clean answer, with the updated row as data; a backend error fails with its own message; an exception fails with the connection text when it is a fetch failure, else with 'Failed to update coin.' |
| CoinService.DeleteCoin | src/utils/coinService.js:153-175 | succeeds exactly on a clean answer; a backend error fails with its own message; an exception fails with the connection text when it is a fetch failure, else with 'Failed to delete coin.' |
| CoinService.CountStats | src/utils/coinService.js:215-224 | a missing list gives zeros; otherwise the total is the row count, and the special and recent counts (recent: created at or after the cutoff instant) never exceed it |
| CoinService.CountStatsCons | src/utils/coinService.js:215-224 | adding a row adds one to the total and one to each count whose property (special, added in the last 30 days) it has |
| CoinService.LaterCutoffCountsFewer | src/utils/coinService.js:218-224 | moving the 30-day cutoff later never raises the recent count |
| CoinService.GetCoinStats | src/utils/coinService.js:204-244 | succeeds exactly on a clean answer, with the counts of the returned rows against the given cutoff; a backend error fails with its own message; an exception fails with the connection text when it is a fetch failure, else with 'Failed to load statistics.' |
| ProtectedRoute.Gate | src/components/ProtectedRoute.jsx:12-108 | loading gives the spinner whatever else holds; no user redirects to the sign-in page, replacing history and carrying the current location; an unconfirmed address gives the interstitial; the profile-setup state exactly when confirmed with neither profile nor session error; the children exactly when confirmed with a profile or a session error |
| ProtectedRoute.GateIsTotalOrder | src/components/ProtectedRoute.jsx:12-108 | each of the five outcomes is chosen exactly when its guard holds and every earlier guard fails, so every session state has exactly one outcome |
| ProtectedRoute.RedirectKeepsLocation | src/components/ProtectedRoute.jsx:25-28 | a redirect targets the sign-in page and carries the requested location as `from` |
| ProtectedRoute.InterstitialEffect | src/components/ProtectedRoute.jsx:63-74 | the refresh button reloads; the resend button opens the sign-in path followed by '?resend=true' |
| SearchOverlay.NextRecent | src/pages/collection-dashboard/components/SearchOverlay.jsx:26-35 | an accepted query not yet listed goes in front of the first three entries; a blank or already listed query leaves the list as it is; the new list has at most four entries |
| SearchOverlay.WhitespaceQueryIgnored | src/pages/collection-dashboard/components/SearchOverlay.jsx:27 | a query made only of whitespace leaves the list unchanged |
| SearchOverlay.NextRecentKeepsInvariant | src/pages/collection-dashboard/components/SearchOverlay.jsx:30-32 | a list of at most four distinct entries stays at most four and distinct after any search |
| SearchOverlay.InitialListDistinct | src/pages/collection-dashboard/components/SearchOverlay.jsx:7-12 | the starting list has four distinct entries |
| SearchOverlay.RerunKeepsOrder | src/pages/collection-dashboard/components/SearchOverlay.jsx:30 | searching for a listed entry leaves the list, and its order, unchanged: there is no move to the front |
| SearchOverlay.Overlay.constructor | src/pages/collection-dashboard/components/SearchOverlay.jsx:6-12 | the overlay starts with the four initial entries and nothing searched, and takes the parent's query and visibility as passed in |
| SearchOverlay.Overlay.HandleSearch | src/pages/collection-dashboard/components/SearchOverlay.jsx:26-35 | keeps the list bounded and distinct; the list becomes NextRecent; an accepted query is handed on untrimmed, becomes the parent's query and closes the overlay; any other query changes nothing |
| SearchOverlay.Overlay.Type | src/pages/collection-dashboard/components/SearchOverlay.jsx:66-70 | typing sets the parent's query and changes nothing else |
| SearchOverlay.Overlay.Submit | src/pages/collection-dashboard/components/SearchOverlay.jsx:37-40 | submitting runs the same search on the current query |
| SearchOverlay.Overlay.PressQuickFilter | src/pages/collection-dashboard/components/SearchOverlay.jsx:93-96 | a quick filter is always accepted: it is searched for, becomes the query and the overlay closes |
| SearchOverlay.Overlay.PressRecent | src/pages/collection-dashboard/components/SearchOverlay.jsx:110-113 | pressing a recent entry searches for it, makes it the query and leaves the list unchanged |
| SearchOverlay.Overlay.ClearSearch | src/pages/collection-dashboard/components/SearchOverlay.jsx:42-46 | the query becomes empty, the empty search is handed on, the overlay closes and the list is untouched |
| ImageCarousel.Step | src/pages/coin-detail-view/components/ImageCarousel.jsx:10-20 | 'prev' from the first image goes to the last and otherwise back one; any other direction from the last image goes to the first and otherwise forward one |
| ImageCarousel.StepStaysInRange | src/pages/coin-detail-view/components/ImageCarousel.jsx:10-20 | with at least one image and an index in range, the next index is in range |
| ImageCarousel.StepWithoutImages | src/pages/coin-detail-view/components/ImageCarousel.jsx:12-14 | with no images, 'prev' from 0 gives -1 |
| ImageCarousel.StepIsModular | src/pages/coin-detail-view/components/ImageCarousel.jsx:10-20 | a step is index minus or plus one modulo the number of images |
| ImageCarousel.PrevNextInverse | src/pages/coin-detail-view/components/ImageCarousel.jsx:10-20 | 'next' after 'prev' and 'prev' after 'next' return to the same image |
| ImageCarousel.NextTimesAdvances | src/pages/coin-detail-view/components/ImageCarousel.jsx:16-18 | before the last image is reached, n presses of 'next' advance the index by n |
| ImageCarousel.NextTimesCompose | src/pages/coin-detail-view/components/ImageCarousel.jsx:16-18 | a + b presses of 'next' are a presses followed by b |
| ImageCarousel.NextLenTimesIsIdentity | src/pages/coin-detail-view/components/ImageCarousel.jsx:16-18 | as many presses of 'next' as there are images bring back the starting image |
| ImageCarousel.Carousel.constructor | src/pages/coin-detail-view/components/ImageCarousel.jsx:6-8 | the carousel starts on the first image, not zoomed |
| ImageCarousel.Carousel.CurrentImage | src/pages/coin-detail-view/components/ImageCarousel.jsx:35 | the image on screen is one of the coin's images |
| ImageCarousel.Carousel.Navigate | src/pages/coin-detail-view/components/ImageCarousel.jsx:44-62 | an arrow press, possible only with more than one image, moves the index by Step and keeps it in range; zoom is unchanged |
| ImageCarousel.Carousel.SelectDot | src/pages/coin-detail-view/components/ImageCarousel.jsx:96-101 | a dot click sets the index to that dot's position |
| ImageCarousel.Carousel.ToggleZoom | src/pages/coin-detail-view/components/ImageCarousel.jsx:22-24 | a click on the image flips zoom and keeps the index |
| CoinDetailModal.Modal.constructor | src/components/ui/CoinDetailModal.jsx:10-11 | the modal starts on the first image with the confirmation closed and nothing requested |
| CoinDetailModal.Modal.HandleImageNavigation | src/components/ui/CoinDetailModal.jsx:75-85 | an arrow press, possible only with more than one image, moves the index exactly as the carousel's Step does and keeps it in range |
| CoinDetailModal.Modal.SelectIndicator | src/components/ui/CoinDetailModal.jsx:204-209 | an indicator click sets the index to that image |
| CoinDetailModal.Modal.HandleDelete | src/components/ui/CoinDetailModal.jsx:63-65 | delete only opens the confirmation and requests nothing |
| CoinDetailModal.Modal.CancelDelete | src/components/ui/CoinDetailModal.jsx:369 | cancel closes the confirmation and requests nothing |
| CoinDetailModal.Modal.ConfirmDelete | src/components/ui/CoinDetailModal.jsx:67-73 | confirming requests one navigation to the dashboard behind a 500 ms timer and nothing else |
| CoinDetailModal.Modal.HandleEdit | src/components/ui/CoinDetailModal.jsx:59-61 | edit requests the add-edit route with this coin and isEdit set |
| CoinDetailModal.Modal.HandleClose | src/components/ui/CoinDetailModal.jsx:55-57 | closing requests the dashboard route |
| CoinDetailModal.ModalNavigationInBounds | src/components/ui/CoinDetailModal.jsx:35-39 | with the modal's three images the arrows are shown and every press keeps the index within the three |
| AuthForm.SetField | src/pages/authentication-login-register/components/AuthForm.jsx:39 | the named field takes the value and the other four keep theirs |
| AuthForm.ValidIffAllChecksPass | src/pages/authentication-login-register/components/AuthForm.jsx:46-68 | the form passes exactly when e-mail and password are present and, on the sign-up tab, the full name is not blank, the passwords are equal and the password has at least six characters |
| AuthForm.SignInChecksPresenceOnly | src/pages/authentication-login-register/components/AuthForm.jsx:47-52 | on any tab but sign-up, a missing tab included, the form passes exactly when e-mail and password are present |
| AuthForm.MismatchReportedBeforeLength | src/pages/authentication-login-register/components/AuthForm.jsx:57-64 | different passwords are reported as a mismatch even when the password is also too short |
| AuthForm.Destination | src/pages/authentication-login-register/components/AuthForm.jsx:83 | a successful login goes to the page the visitor came from, else to the dashboard |
| AuthForm.UnwiredFormSkipsSignUpChecks | src/pages/authentication-login-register/components/AuthForm.jsx:168 | without an `activeTab` prop the submit runs the sign-up handler with the sign-in checks only; a sign-up with a blank name and different passwords passes validation |
| AuthForm.Form.constructor | src/pages/authentication-login-register/components/AuthForm.jsx:9-36 | the form starts empty and idle with the given `activeTab` prop; a resend=true parameter opens it asking for confirmation with its prompt |
| AuthForm.Form.CurrentError | src/pages/authentication-login-register/components/AuthForm.jsx:164 | the banner shows the local error when set, else the session's |
| AuthForm.Form.HandleInputChange | src/pages/authentication-login-register/components/AuthForm.jsx:38-44 | typing changes exactly the named field and clears the local error, the session error and the success message |
| AuthForm.Form.BeginSignIn | src/pages/authentication-login-register/components/AuthForm.jsx:70-76 | the call proceeds exactly when validation for the current tab passes; otherwise the first failure is shown and nothing else changes; proceeding starts loading and clears the error and the confirmation flag |
| AuthForm.Form.FinishSignIn | src/pages/authentication-login-register/components/AuthForm.jsx:78-95 | success navigates to Destination; a confirmation request shows the result's error with the resend option; another failure shows its error or 'Login failed'; a throw shows the generic text; loading ends on every path |
| AuthForm.Form.BeginSignUp | src/pages/authentication-login-register/components/AuthForm.jsx:98-104 | the call proceeds exactly when validation for the current tab passes; proceeding starts loading and clears the error and success message |
| AuthForm.Form.Submit | src/pages/authentication-login-register/components/AuthForm.jsx:168 | the submit event runs `handleSignIn` exactly on the sign-in tab and `handleSignUp` otherwise; it proceeds exactly when that tab's validation passes, with each handler's own state changes |
| AuthForm.Form.ReceiveTab | src/pages/authentication-login-register/components/AuthForm.jsx:9 | a render with a new `activeTab` prop keeps all of the form's own state |
| AuthForm.Form.FinishSignUp | src/pages/authentication-login-register/components/AuthForm.jsx:106-137 | a success with a message shows it, asks for confirmation and empties all five fields; a success without one navigates; a failure shows its error or 'Signup failed'; a throw shows the generic text; loading ends on every path |
| AuthForm.Form.BeginResend | src/pages/authentication-login-register/components/AuthForm.jsx:140-147 | without an e-mail address nothing is sent and the visitor is asked for one; otherwise the address is sent and loading starts |
| AuthForm.Form.FinishResend | src/pages/authentication-login-register/components/AuthForm.jsx:149-161 | success shows the result's message or the default; anything else shows the result's error or the resend failure text; loading ends |
| AuthenticationModal.Key | src/components/ui/AuthenticationModal.jsx:212-250 | each input's name is one of the four form keys |
| AuthenticationModal.KeysDistinct | src/components/ui/AuthenticationModal.jsx:212-250 | two inputs share a name exactly when they are the same input, so a change updates one field |
| AuthenticationModal.SetInput | src/components/ui/AuthenticationModal.jsx:38-43 | the change sets the field named by the input and keeps the other three |
| AuthenticationModal.EmailShapeIffPattern | src/components/ui/AuthenticationModal.jsx:58 | the form's e-mail test holds exactly when the unanchored pattern `\S+@\S+\.\S+` matches some part of the address |
| AuthenticationModal.EmailPatternExamples | src/components/ui/AuthenticationModal.jsx:58 | the unanchored pattern accepts "a@b@c.d" and "x y@z.w" and rejects "a@b." and "@bc.d" |
| AuthenticationModal.CollectErrors | src/components/ui/AuthenticationModal.jsx:53-82 | every failing field gets its message at once: e-mail missing or malformed, password missing or shorter than six, and on sign-up a missing name and a missing or different confirmation; no other key appears |
| AuthenticationModal.CredentialErrors | src/components/ui/AuthenticationModal.jsx:56-66 | the e-mail and password checks with their two messages each |
| AuthenticationModal.SignUpErrors | src/components/ui/AuthenticationModal.jsx:68-78 | the name and confirmation checks made on sign-up |
| AuthenticationModal.LoginIgnoresSignUpFields | src/components/ui/AuthenticationModal.jsx:68 | a log-in with a well-formed e-mail and a password of six or more characters has no errors whatever the other fields hold |
| AuthenticationModal.Modal.constructor | src/components/ui/AuthenticationModal.jsx:10-18 | the modal opens in log-in mode, idle, with an empty form and no errors |
| AuthenticationModal.Modal.HandleInputChange | src/components/ui/AuthenticationModal.jsx:38-51 | the named field takes the value; a truthy error on that field becomes empty; all other errors and the key set are unchanged |
| AuthenticationModal.Modal.Validate | src/components/ui/AuthenticationModal.jsx:53-82 | the error map is replaced by the report of the form's checks (each failing field with its message, no other key), and the form is valid exactly when e-mail, password and, on sign-up, name and matching confirmation all pass |
| AuthenticationModal.Modal.BeginSubmit | src/components/ui/AuthenticationModal.jsx:84-91 | the error map becomes the report of the form's checks, each failing field with its message; submission proceeds and loading starts exactly when there are no errors |
| AuthenticationModal.Modal.FinishSubmit | src/components/ui/AuthenticationModal.jsx:93-107 | success navigates to the dashboard; a rejection replaces the errors with the single submit error; loading ends either way |
| AuthenticationModal.Modal.ToggleMode | src/components/ui/AuthenticationModal.jsx:110-119 | the mode flips and the form and errors are emptied |
| AuthenticationModal.Modal.HandleClose | src/components/ui/AuthenticationModal.jsx:34-36 | closing navigates to the landing page and changes nothing else |
| AuthenticationModal.Modal.HandleSocialAuth | src/components/ui/AuthenticationModal.jsx:121-127 | any provider navigates to the dashboard after 1000 ms |
| AuthenticationPage.DefaultUsernameIsLocalPart | src/pages/authentication-login-register/index.jsx:35 | the default username is the e-mail address up to its first '@', or the whole address without one, and never contains '@' |
| AuthenticationPage.SubmitRequest | src/pages/authentication-login-register/index.jsx:30-37 | log-in sends e-mail and password; sign-up also sends the full name and the typed username, or the default when none was typed |
| AuthenticationPage.NotConfigured | src/pages/authentication-login-register/index.jsx:61 | the social message starts with the provider's name |
| AuthenticationPage.FormTab | src/pages/authentication-login-register/index.jsx:96-101 | the tab the page should pass: the sign-in tab exactly in log-in mode, the sign-up tab otherwise |
| AuthenticationPage.CorrectedWiringFollowsMode | src/pages/authentication-login-register/index.jsx:96-101 | with that tab, log-in mode runs sign-in with the presence checks and sign-up mode runs sign-up with every sign-up check |
| AuthenticationPage.Page.constructor | src/pages/authentication-login-register/index.jsx:11-14 | the page starts in log-in mode, idle, with no local error |
| AuthenticationPage.Page.DisplayError | src/pages/authentication-login-register/index.jsx:70 | the banner shows the session's error when it is truthy, else the local one |
| AuthenticationPage.Page.HandleToggleMode | src/pages/authentication-login-register/index.jsx:16-20 | the mode flips and both errors are cleared, so no banner shows |
| AuthenticationPage.Page.RenderForm | src/pages/authentication-login-register/index.jsx:96-101 | the corrected render: the form takes the page's mode as its tab, so its submit follows the mode, and keeps its own state |
| AuthenticationPage.Page.BeginSubmit | src/pages/authentication-login-register/index.jsx:22-37 | loading starts, both errors are cleared, and the request sent is SubmitRequest for the current mode (the handler as written; nothing calls it) |
| AuthenticationPage.Page.FinishSubmit | src/pages/authentication-login-register/index.jsx:39-49 | success navigates to the dashboard; failure shows the result's error or 'Authentication failed'; a throw shows the generic text; loading ends on every path (as written; nothing calls it) |
| AuthenticationPage.Page.HandleSocialLogin | src/pages/authentication-login-register/index.jsx:52-68 | a social button ends idle with the provider's not-configured message and no navigation |
| AppRoutes.OnlyPrefixIncludes | src/components/ui/BottomTabNavigation.jsx:10-11 | in a path whose only '/' is the first character, a '/'-prefixed string occurs only as a prefix |
| AppRoutes.PrivatePagesAreAuthenticated | src/Routes.jsx:28-66 | the five protected routes all pass the bars' substring test of src/components/ui/BottomTabNavigation.jsx:10-11 and src/components/ui/GlobalHeader.jsx:13-14 |
| AppRoutes.PublicPagesAreNotAuthenticated | src/components/ui/GlobalHeader.jsx:13-14 | any path containing the landing or the authentication path, at any position, counts as public |
| BottomTabNavigation.TabsAsWritten | src/components/ui/BottomTabNavigation.jsx:17-39 | the bar as written has three tabs, the third on '/profile' |
| BottomTabNavigation.ProfileTabIsUndeclared | src/components/ui/BottomTabNavigation.jsx:36-37 | the Profile tab as written opens a path the router does not declare, and is not active on the declared profile page |
| BottomTabNavigation.Tabs | src/components/ui/BottomTabNavigation.jsx:17-39 | the corrected bar has three tabs, the third on the declared profile route |
| BottomTabNavigation.TabsAreSound | src/Routes.jsx:36-43 | every corrected tab opens a declared route, the three paths differ, and a tab is active exactly when the current path is its path |
| BottomTabNavigation.AtMostOneActive | src/components/ui/BottomTabNavigation.jsx:23-37 | at most one tab is active for any path |
| BottomTabNavigation.Render | src/components/ui/BottomTabNavigation.jsx:10-15 | stated of the corrected bar `Tabs`: the bar is hidden exactly on paths the substring test calls public, and shows the tabs otherwise |
| BottomTabNavigation.PressOpensItsTab | src/components/ui/BottomTabNavigation.jsx:41-43 | stated of the corrected bar `Tabs`: pressing a shown tab opens a declared route, on which that same tab is active |
| CoinDetailsForm.FormKeysComplete | src/pages/add-edit-coin/index.jsx:22-43 | every property of the form record is among the twenty keys the page iterates over |
| CoinDetailsForm.WithText | src/pages/add-edit-coin/components/CoinDetailsForm.jsx:64-67 | the spread sets the named text property and keeps every other property, pictures included |
| CoinDetailsForm.WithImage | src/pages/add-edit-coin/index.jsx:133-145 | the spread sets the named picture and keeps the other picture and every text property |
| CoinDetailsForm.HandleInputChange | src/pages/add-edit-coin/components/CoinDetailsForm.jsx:63-68 | the record handed up holds the typed value and differs from the current record in no other property |
| CoinDetailsForm.DenominationOptionsWellFormed | src/pages/add-edit-coin/components/CoinDetailsForm.jsx:11-26 | the denomination list opens with its empty placeholder and its other values are non-empty and distinct |
| CoinDetailsForm.ConditionOptionsWellFormed | src/pages/add-edit-coin/components/CoinDetailsForm.jsx:28-41 | the same for the condition list |
| CoinDetailsForm.MintLocationOptionsWellFormed | src/pages/add-edit-coin/components/CoinDetailsForm.jsx:43-51 | the same for the mint-location list |
| CoinDetailsForm.RarityOptionsWellFormed | src/pages/add-edit-coin/components/CoinDetailsForm.jsx:53-61 | the same for the rarity list |
| CoinDetailsForm.YearOption | src/pages/add-edit-coin/components/CoinDetailsForm.jsx:73 | a year's option has its decimal form as both value and caption |
| CoinDetailsForm.CountsDownAppend | src/pages/add-edit-coin/components/CoinDetailsForm.jsx:72-74 | pushing the next year down keeps the list counting down from the current year |
| CoinDetailsForm.YearOptions | src/pages/add-edit-coin/components/CoinDetailsForm.jsx:70-74 | the loop yields one option per year from the current year down to 1800, none when the current year is before 1800, the first the current year and the last 1800 |
| CoinDetailsForm.IntToStringInjective | src/pages/add-edit-coin/components/CoinDetailsForm.jsx:73 | different years have different decimal forms |
| CoinDetailsForm.YearSelectOptions | src/pages/add-edit-coin/components/CoinDetailsForm.jsx:104-110 | the year select is a well-formed list: the placeholder, then each generated year once |
| CoinDetailsForm.YearValuesDistinct | src/pages/add-edit-coin/components/CoinDetailsForm.jsx:72-74 | the generated year values are non-empty and pairwise different |
| CoinDetailsForm.PlaceholderFirst | src/pages/add-edit-coin/components/CoinDetailsForm.jsx:104-110 | a placeholder in front of non-empty, pairwise different values gives a well-formed list |
| AddEditCoin.NumberChecksMatchParseFloat | src/pages/add-edit-coin/index.jsx:102-112 | the weight and diameter test holds exactly when `parseFloat` gives a number above zero, and the price test exactly when it gives one of at least zero |
| AddEditCoin.RequiredErrors | src/pages/add-edit-coin/index.jsx:76-100 | an entry for each failed required check (name, denomination, custom denomination, year missing or out of range, condition) and no other key, each entry with its own message ('Coin name is required', 'Denomination is required', 'Custom denomination is required', 'Mint year is required' or the range message, 'Condition is required') |
| AddEditCoin.NamingErrors | src/pages/add-edit-coin/index.jsx:76-86 | the name, denomination and custom-denomination entries exactly when their checks fail, each with its message |
| AddEditCoin.DatingErrors | src/pages/add-edit-coin/index.jsx:88-100 | the year entry when the year is missing or out of range, with the matching message, and the condition entry, with its message, when it is missing |
| AddEditCoin.NumberErrors | src/pages/add-edit-coin/index.jsx:102-112 | the weight, diameter and price entries exactly when their checks fail, with 'Weight must be a positive number', 'Diameter must be a positive number' and 'Price must be a valid number' |
| AddEditCoin.ReportsNothingIffAllPass | src/pages/add-edit-coin/index.jsx:114-115 | the error object is empty exactly when every check passes |
| AddEditCoin.ErrorsFor | src/pages/add-edit-coin/index.jsx:73-115 | the assembled error object has an entry exactly for each failed check, each with that check's message, and nothing else |
| AddEditCoin.CollectErrors | src/pages/add-edit-coin/index.jsx:73-115 | for a form, each property gets an error, with its message, exactly when its own check fails; with the save button enabled (line 214) the name, denomination and condition entries are absent and a year entry can only be the range message |
| AddEditCoin.YearOptionAccepted | src/pages/add-edit-coin/index.jsx:88-96 | every year from 1800 to the current year, in decimal, passes the year check |
| AddEditCoin.YearCheckReadsLeadingDigits | src/pages/add-edit-coin/index.jsx:91-95 | for every year made of a digit run and a rest that does not start with a digit, the range check judges the run's value alone |
| AddEditCoin.LettersAreNaN | src/pages/add-edit-coin/index.jsx:91-95 | every year starting with neither whitespace, a sign nor a digit is NaN to `parseInt` and is never out of range |
| AddEditCoin.YearCheckExamples | src/pages/add-edit-coin/index.jsx:91-95 | examples of the two lemmas above: "abc" passes the year check and "1750s" fails it as 1750 |
| AddEditCoin.ChangedKeys | src/pages/add-edit-coin/index.jsx:121-123 | a key is listed exactly when the two records differ on it |
| AddEditCoin.DeleteErrors | src/pages/add-edit-coin/index.jsx:125-128 | the copy keeps exactly the errors of unchanged properties, and the submit error, with their messages |
| AddEditCoin.TrimAll | src/pages/add-edit-coin/index.jsx:163 | each piece is replaced by its trimmed self |
| AddEditCoin.TagsOf | src/pages/add-edit-coin/index.jsx:163 | an empty field saves no tags; every saved tag is non-empty and trimmed |
| AddEditCoin.TagsAreTrimmedPieces | src/pages/add-edit-coin/index.jsx:163 | a text is a saved tag exactly when the field is non-empty and the text is a non-empty trimmed comma-split piece of it |
| AddEditCoin.SavedImages | src/pages/add-edit-coin/index.jsx:164 | the saved pictures are the set ones, front first, at most two |
| AddEditCoin.RemovedImageIsNotSaved | src/pages/add-edit-coin/index.jsx:140-145 | after removing a picture only the other one, if set, is saved |
| AddEditCoin.ImageAt | src/pages/add-edit-coin/index.jsx:67-68 | a picture taken from the coin is a non-empty entry at that position of its list |
| AddEditCoin.InitFormFields | src/pages/add-edit-coin/index.jsx:46-71 | edit mode fills each text property from the coin or with the empty string, the year in decimal, the tags joined with ", ", and the first two pictures |
| AddEditCoin.Prefixed | src/pages/add-edit-coin/index.jsx:65 | each piece gains a leading space |
| AddEditCoin.Spaced | src/pages/add-edit-coin/index.jsx:65 | after a ", " join, every tag but the first is seen with a leading space by a "," split |
| AddEditCoin.PrefixedJoin | src/pages/add-edit-coin/index.jsx:65 | a space before a ", " join equals the "," join of the prefixed pieces |
| AddEditCoin.JoinSpaced | src/pages/add-edit-coin/index.jsx:65 | a ", " join is the "," join of the spaced pieces |
| AddEditCoin.CommaThenSpace | src/pages/add-edit-coin/index.jsx:65 | "," then " " is the ", " separator |
| AddEditCoin.TrimSpaced | src/pages/add-edit-coin/index.jsx:163 | trimming the spaced pieces of plain tags gives the tags back |
| AddEditCoin.TagsRoundTrip | src/pages/add-edit-coin/index.jsx:65 | joining non-empty, trimmed, comma-free tags for editing and splitting them on save (line 163) gives the same list |
| AddEditCoin.BuildRecord | src/pages/add-edit-coin/index.jsx:159-167 | the record carries the form, the parsed year, the tags, the set pictures and the modification time; edit mode keeps the coin's id and date added, a new coin gets the fresh id and the current time; edit mode without a coin throws |
| AddEditCoin.UnchangedEditKeepsCoin | src/pages/add-edit-coin/index.jsx:46-71 | saving an untouched edit form keeps the coin's id, date added, year and plain tags |
| AddEditCoin.Page.constructor | src/pages/add-edit-coin/index.jsx:12-71 | the page opens idle with no errors and nothing logged; in edit mode with a coin the form is that coin's, else empty |
| AddEditCoin.Page.HandleFormChange | src/pages/add-edit-coin/index.jsx:118-131 | the new record replaces the form and exactly the errors of changed properties are dropped; the others keep their messages |
| AddEditCoin.Page.HandleImageChange | src/pages/add-edit-coin/index.jsx:133-138 | the slot takes the picture and nothing else changes |
| AddEditCoin.Page.HandleImageRemove | src/pages/add-edit-coin/index.jsx:140-145 | the slot is emptied and nothing else changes |
| AddEditCoin.Page.ValidateForm | src/pages/add-edit-coin/index.jsx:73-116 | the errors are replaced by the report of the form's checks (each failed check's entry with its message), and the form is valid exactly when all pass, that is, when the report is empty |
| AddEditCoin.Page.BeginSave | src/pages/add-edit-coin/index.jsx:147-152 | the errors become the report of the form's checks, each failed check with its message; saving proceeds and loading starts exactly when every check passes |
| AddEditCoin.Page.FinishSave | src/pages/add-edit-coin/index.jsx:154-178 | the record is assembled from the snapshot of `formData` taken when the save started (the render's closure), logged, and the success dialog opens; when assembly throws, only the submit error is left; loading ends |
| AddEditCoin.Page.Store | src/pages/add-edit-coin/index.jsx:169-177 | logs the record and opens the dialog, or sets the submit error; loading ends |
| AddEditCoin.Page.HandleCancel | src/pages/add-edit-coin/index.jsx:181-183 | cancelling navigates to the dashboard and changes nothing else |
| AddEditCoin.Page.HandleDelete | src/pages/add-edit-coin/index.jsx:185-187 | deleting opens the confirmation |
| AddEditCoin.Page.BeginConfirmDelete | src/pages/add-edit-coin/index.jsx:189-190 | confirming starts loading |
| AddEditCoin.Page.FinishConfirmDelete | src/pages/add-edit-coin/index.jsx:192-206 | with a coin the page navigates to the dashboard, without one the delete error is set; loading ends and the confirmation closes |
| AddEditCoin.Page.HandleSuccessClose | src/pages/add-edit-coin/index.jsx:209-212 | the success dialog closes and the page navigates to the dashboard |
| CollectionDashboard.SearchStep | src/pages/collection-dashboard/index.jsx:135-144 | an empty query keeps the list as is; otherwise every kept coin matches the query in its name, year, denomination, country or condition |
| CollectionDashboard.CategoryStep | src/pages/collection-dashboard/index.jsx:146-159 | every kept coin matches the chip |
| CollectionDashboard.FilteredExactly | src/pages/collection-dashboard/index.jsx:132-159 | the filtered list holds each input coin exactly as often as the input does when it passes both the search and the chip, and not at all otherwise |
| CollectionDashboard.UnfilteredWhenNoQuery | src/pages/collection-dashboard/index.jsx:136-147 | no query and the 'all' chip leave the list untouched |
| CollectionDashboard.CompareIsRankDifference | src/pages/collection-dashboard/index.jsx:162-179 | on coins the comparator can place, it is the difference of their positions on the sort key's axis, so it orders consistently |
| CollectionDashboard.DaysToMs | src/pages/collection-dashboard/index.jsx:169-171 | the difference of two dates in milliseconds is the difference of their millisecond values |
| CollectionDashboard.Swap | src/pages/collection-dashboard/index.jsx:162 | two neighbouring coins exchange places and the array stays a permutation |
| CollectionDashboard.InsertingStep | src/pages/collection-dashboard/index.jsx:162 | a swap past a neighbour that ranks above keeps the insertion pass's invariant |
| CollectionDashboard.InsertingDone | src/pages/collection-dashboard/index.jsx:162 | a finished pass leaves the prefix it covers in key order |
| CollectionDashboard.InsertAt | src/pages/collection-dashboard/index.jsx:162 | one pass permutes the array, extends the sorted prefix by one for a keyed comparator, and moves nothing under an all-equal comparator |
| CollectionDashboard.StableSort | src/pages/collection-dashboard/index.jsx:162 | the sort permutes the array, sorts it by key when the comparator is a key difference on every coin, and moves nothing under an all-equal comparator |
| CollectionDashboard.SortCoins | src/pages/collection-dashboard/index.jsx:162-179 | the dashboard's sort permutes the coins, sorts them by rank when every coin is ranked, and leaves them in place under an unknown key |
| CollectionDashboard.SortedByRankMeans | src/pages/collection-dashboard/index.jsx:164-175 | rank order is year order, date order or parsed-denomination order, ascending or descending as the key says |
| CollectionDashboard.FilterCoins | src/pages/collection-dashboard/index.jsx:133-159 | the branch-by-branch filtering yields the search-then-chip filtered list |
| CollectionDashboard.GetFilteredAndSortedCoins | src/pages/collection-dashboard/index.jsx:132-182 | the result holds exactly the coins passing both filters, with their multiplicities; it is in key order for year and date keys, and for denomination keys when every shown denomination parses; an unknown key keeps the filter order |
| CollectionDashboard.PermutationOfFilteredIsExact | src/pages/collection-dashboard/index.jsx:162-181 | any rearrangement of the filtered list holds each coin as often as the filters let it through |
| CollectionDashboard.Categories | src/pages/collection-dashboard/index.jsx:110-117 | there are six chips |
| CollectionDashboard.ChipCountsMatchFilter | src/pages/collection-dashboard/index.jsx:110-117 | each chip's count is the length of the list its filter shows with no query (lines 146-159) |
| CollectionDashboard.CeilDiv | src/pages/collection-dashboard/index.jsx:126 | the rounded-up quotient is the least whole number whose multiple of the divisor reaches the dividend |
| CollectionDashboard.IsRecentWithin30Days | src/pages/collection-dashboard/index.jsx:122-128 | a coin is recent exactly when it was added within 30 days of now, before or after |
| CollectionDashboard.CountWhere | src/pages/collection-dashboard/index.jsx:121-128 | a count never exceeds the list's length |
| CollectionDashboard.CollectionStats | src/pages/collection-dashboard/index.jsx:119-129 | the total is the collection's size and the special and recent counts do not exceed it; an empty collection has all zeros; CollectionStatsCons pins each count |
| CollectionDashboard.CollectionStatsCons | src/pages/collection-dashboard/index.jsx:119-129 | a coin adds one to the total, one to the special count exactly when it is special, and one to the recent count exactly when it is recent by the rounded-up day rule; so each count is the number of coins with its property |
| CollectionDashboard.EmptyStateType | src/pages/collection-dashboard/index.jsx:244-248 | a query explains the empty list first, then a chip other than 'all', else the empty collection |
| CollectionDashboard.EmptyReasonIsTruthful | src/pages/collection-dashboard/index.jsx:244-248 | when the empty list is blamed on the collection, the collection is empty |
| CollectionDashboard.RefreshGesture.constructor | src/pages/collection-dashboard/index.jsx:211-213 | the gesture starts at zero, untriggered |
| CollectionDashboard.RefreshGesture.TouchStart | src/pages/collection-dashboard/index.jsx:215-217 | a touch records its start position only |
| CollectionDashboard.RefreshGesture.TouchMove | src/pages/collection-dashboard/index.jsx:219-227 | a move fires the refresh exactly when the finger is more than 100 pixels below its start, the page is at the top and it has not fired since the last touchend; it fires at most once per gesture |
| CollectionDashboard.RefreshGesture.TouchEnd | src/pages/collection-dashboard/index.jsx:229-231 | the end of a touch re-arms the refresh |
| ConditionAssessment.ConditionScore | src/pages/coin-detail-view/components/ConditionAssessment.jsx:5-18 | every score lies between 20 and 100, and an unlisted condition scores 50 |
| ConditionAssessment.GradeScoreAt | src/pages/coin-detail-view/components/ConditionAssessment.jsx:6-16 | each of the nine listed grades scores its table value |
| ConditionAssessment.ScoresIncrease | src/pages/coin-detail-view/components/ConditionAssessment.jsx:6-16 | the grades from Poor to Uncirculated score strictly more as they improve |
| ConditionAssessment.Band | src/pages/coin-detail-view/components/ConditionAssessment.jsx:20-25 | the four bands are 90 and above, 75 to 89, 50 to 74 and below 50, each exactly |
| ConditionAssessment.ColorsShareBand | src/pages/coin-detail-view/components/ConditionAssessment.jsx:57-60 | the progress bar's chain and the text colour (lines 20-25) pick the same band for every score |
| ConditionAssessment.BandIsMonotone | src/pages/coin-detail-view/components/ConditionAssessment.jsx:20-25 | a higher score never falls in a worse band |
| ConditionAssessment.GradeBands | src/pages/coin-detail-view/components/ConditionAssessment.jsx:5-25 | the three best grades are in the top band, Fine and Very Fine in the second, Good, Very Good and every unlisted condition in the third, Fair and Poor in the last |
| ConditionAssessment.DescriptionSlots | src/pages/coin-detail-view/components/ConditionAssessment.jsx:81-89 | the paragraph has four conditional slots |
| ConditionAssessment.Shown | src/pages/coin-detail-view/components/ConditionAssessment.jsx:80-90 | a paragraph shows no more texts than it has slots |
| ConditionAssessment.ExactlyOneDescription | src/pages/coin-detail-view/components/ConditionAssessment.jsx:81-89 | exactly one description is shown for any condition, the one meant for it |
| GlobalHeader.TitleIsDefaultIffUntitled | src/components/ui/GlobalHeader.jsx:16-27 | the title is the application's name exactly when the path is none of the three titled pages |
| GlobalHeader.BackTarget | src/components/ui/GlobalHeader.jsx:29-37 | back leads to the dashboard exactly from the coin detail and add/edit pages, and back in the history from every other page |
| GlobalHeader.BackFromPrivatePages | src/components/ui/GlobalHeader.jsx:64 | the four private pages other than the dashboard show the back button; the two coin pages lead to the dashboard and the profile and settings pages go back in the history |
| GlobalHeader.LogoTarget | src/components/ui/GlobalHeader.jsx:78 | the logo opens a declared route, the dashboard exactly when the page is private |
| GlobalHeader.ProfileActionTarget | src/components/ui/GlobalHeader.jsx:45-57 | exactly the three menu actions open a route, each a declared one, and 'logout' opens the landing page |
| GlobalHeader.Header.constructor | src/components/ui/GlobalHeader.jsx:9-11 | the header starts with an empty query, the search bar and the menu closed |
| GlobalHeader.Header.SearchBarVisible | src/components/ui/GlobalHeader.jsx:161 | the search bar is drawn exactly when it is open and the page is private |
| GlobalHeader.Header.HandleBack | src/components/ui/GlobalHeader.jsx:29-37 | the back button makes the BackTarget call and changes nothing else |
| GlobalHeader.Header.PressLogo | src/components/ui/GlobalHeader.jsx:78 | the logo navigates to LogoTarget and changes nothing else |
| GlobalHeader.Header.HandleProfileAction | src/components/ui/GlobalHeader.jsx:45-57 | the menu closes, and a known action navigates to its target while an unknown one navigates nowhere |
| GlobalHeader.Header.ToggleSearch | src/components/ui/GlobalHeader.jsx:106 | the search bar flips and nothing else changes |
| GlobalHeader.Header.ToggleProfileMenu | src/components/ui/GlobalHeader.jsx:117 | the menu flips and nothing else changes |
| GlobalHeader.Header.SetSearchQuery | src/components/ui/GlobalHeader.jsx:174 | typing sets the query and nothing else |
| GlobalHeader.Header.CloseSearch | src/components/ui/GlobalHeader.jsx:39-43 | submitting or cancelling (line 183) closes the bar and keeps the query |
| GlobalHeader.Header.CloseProfileMenu | src/components/ui/GlobalHeader.jsx:195 | a click on the backdrop closes the menu and changes nothing else |
| NotesSection.Truncated | src/pages/coin-detail-view/components/NotesSection.jsx:11-13 | notes of at most 100 characters are kept whole; longer notes become their first 100 characters followed by "..." |
| NotesSection.TruncatedKeepsPrefix | src/pages/coin-detail-view/components/NotesSection.jsx:11-13 | the collapsed text always starts with as much of the notes as fits in 100 characters |
| NotesSection.Notes.constructor | src/pages/coin-detail-view/components/NotesSection.jsx:5 | the card starts collapsed |
| NotesSection.Notes.Render | src/pages/coin-detail-view/components/NotesSection.jsx:7-41 | no card for absent or empty notes; otherwise the full notes when expanded and the collapsed text when not, and a toggle exactly for notes over 100 characters, labelled 'Show less' or 'Read more' |
| NotesSection.Notes.Toggle | src/pages/coin-detail-view/components/NotesSection.jsx:32 | the toggle, present only on long notes, flips the view |
| NotesSection.Notes.ShowsAllIff | src/pages/coin-detail-view/components/NotesSection.jsx:11-27 | the paragraph shows the notes in full exactly when expanded, short, or 103 characters ending in "..." |
| PrivacySecurity.Negation | src/pages/settings-preferences/components/PrivacySecurity.jsx:72 | a switch writes the boolean opposite of the current value's truthiness |
| PrivacySecurity.SwitchTwiceRestores | src/pages/settings-preferences/components/PrivacySecurity.jsx:72 | pressing a switch twice restores its truthiness |
| PrivacySecurity.Panel.constructor | src/pages/settings-preferences/components/PrivacySecurity.jsx:7 | the setup dialog starts closed |
| PrivacySecurity.Panel.HandleTwoFactorToggle | src/pages/settings-preferences/components/PrivacySecurity.jsx:15-21 | when two-factor is on, the switch turns it off and saves; when off, it only opens the setup dialog |
| PrivacySecurity.Panel.HandleTwoFactorSetup | src/pages/settings-preferences/components/PrivacySecurity.jsx:23-27 | confirming turns two-factor on, saves and closes the dialog |
| PrivacySecurity.Panel.CancelTwoFactorSetup | src/pages/settings-preferences/components/PrivacySecurity.jsx:263 | cancelling closes the dialog |
| PrivacySecurity.Panel.ToggleSwitch | src/pages/settings-preferences/components/PrivacySecurity.jsx:72 | the show-location switch (and the allow-messages switch, line 91) writes the negation of its current value and saves |
| PrivacySecurity.Panel.SelectVisibility | src/pages/settings-preferences/components/PrivacySecurity.jsx:42 | the profile select (and the collection select, line 57) writes the chosen value as it is and saves |
| PrivacySecurity.TwoFactorRound | src/pages/settings-preferences/components/PrivacySecurity.jsx:15-27 | from off, switch, confirm and switch again end with two-factor off and the dialog closed |
| SettingsPreferences.Lookup | src/pages/settings-preferences/components/PrivacySecurity.jsx:72 | a property read is present exactly for a key of the settings, with its value |
| SettingsPreferences.DefaultsAreListed | src/pages/settings-preferences/index.jsx:14-34 | the initial settings object holds exactly the fourteen listed keys, and each key's value is the one the per-property table gives |
| SettingsPreferences.TwoFactorOffByDefault | src/pages/settings-preferences/index.jsx:33 | two-factor authentication starts false, hence falsy |
| SettingsPreferences.TwoFactorListed | src/pages/settings-preferences/index.jsx:33 | 'twoFactorEnabled' is a listed key whose default is false |
| SettingsPreferences.UpdateSetting | src/pages/settings-preferences/index.jsx:49-51 | the key takes the value, the key set gains at most that key, and every other key keeps its value |
| SettingsPreferences.UpdateIsIdempotent | src/pages/settings-preferences/index.jsx:49-51 | writing the same value twice equals writing it once |
| SettingsPreferences.LastWriteWins | src/pages/settings-preferences/index.jsx:49-51 | of two writes to one key the later wins |
| SettingsPreferences.UpdatesCommute | src/pages/settings-preferences/index.jsx:49-51 | writes to different keys commute |
| SettingsPreferences.Spread | src/pages/settings-preferences/index.jsx:42 | spreading copies an object's fields, exactly one entry per position of an array or string, named by the position's decimal index and holding that element or that one-character string, and nothing from null, booleans or numbers |
| SettingsPreferences.PositionKeysCount | src/pages/settings-preferences/index.jsx:42 | n positions have n distinct property names |
| SettingsPreferences.Load | src/pages/settings-preferences/index.jsx:36-47 | a missing or empty saved copy, or one that does not parse, leaves the settings unchanged |
| SettingsPreferences.LoadOverridesSavedKeys | src/pages/settings-preferences/index.jsx:38-42 | a saved object's keys override, every other key keeps its value, and no key is lost |
| SettingsPreferences.SectionFor | src/pages/settings-preferences/index.jsx:89-122 | exactly the four section ids render a section |
| SettingsPreferences.ScreenFor | src/pages/settings-preferences/index.jsx:66-80 | the spinner exactly while loading, nothing exactly when loaded without a user, else the active section |
| SettingsPreferences.Page.constructor | src/pages/settings-preferences/index.jsx:13-34 | the page opens on the account section with the default settings and nothing stored |
| SettingsPreferences.Page.LoadSaved | src/pages/settings-preferences/index.jsx:36-47 | the mount effect sets the settings to Load of the old settings and the saved copy |
| SettingsPreferences.Page.Update | src/pages/settings-preferences/index.jsx:49-55 | the settings become UpdateSetting of the old ones and that copy is what storage holds |
| SettingsPreferences.Page.SelectSection | src/pages/settings-preferences/index.jsx:143 | a section button makes its id active |
| UserProfile.FieldOrEmpty | src/pages/user-profile/index.jsx:29-33 | a present field is kept and a missing one becomes the empty string |
| UserProfile.FormOf | src/pages/user-profile/index.jsx:26-36 | each form field is the profile's field or empty |
| UserProfile.FormOfCompleteProfile | src/pages/user-profile/index.jsx:26-36 | a profile with every field present fills the form with exactly those values |
| UserProfile.Page.constructor | src/pages/user-profile/index.jsx:14-24 | the page starts out of edit mode with an empty form, not saving, with no error and no success |
| UserProfile.Page.ProfileChanged | src/pages/user-profile/index.jsx:26-36 | a present profile refills the form; an absent one leaves it |
| UserProfile.Page.StartEditing | src/pages/user-profile/index.jsx:106 | the edit button enters edit mode |
| UserProfile.Page.Edit | src/pages/user-profile/index.jsx:157 | the edit form's change replaces the form |
| UserProfile.Page.ChangeAvatar | src/pages/user-profile/index.jsx:99 | the avatar picker changes the avatar URL only |
| UserProfile.Page.BeginSave | src/pages/user-profile/index.jsx:38-43 | nothing is sent exactly when there is no user id; otherwise loading starts, both flags clear and the form is sent |
| UserProfile.Page.FinishSave | src/pages/user-profile/index.jsx:45-59 | success sets the success flag and leaves edit mode; a failure shows its error or 'Failed to update profile' and stays in edit mode; a throw shows the generic text; loading ends on every path |
| UserProfile.Page.HideSuccess | src/pages/user-profile/index.jsx:51 | the timer clears the success flag |
| UserProfile.Page.HandleCancelEdit | src/pages/user-profile/index.jsx:62-75 | the form is refilled from the profile when there is one, edit mode ends and both flags clear |
| UserProfile.Page.Banner | src/pages/user-profile/index.jsx:143-146 | a banner shows exactly when the save error or the session error is set, the save error first |
| UserProfile.Page.BannerAfterCancel | src/pages/user-profile/index.jsx:62-75 | after a cancel the banner shows the session's error or nothing |
| JsText.OrElse | src/pages/user-profile/index.jsx:29-33 | `a \|\| b` gives a when it is a non-empty string and b otherwise |
| JsText.SpreadWith | src/utils/authService.js:173-176 | the copy has the original keys plus the new one, which holds the new value, and every other key keeps its value |
| JsText.Filter | src/pages/collection-dashboard/index.jsx:137-157 | the filtered list is no longer than the input and every element kept passes the predicate |
| JsText.FilterCount | src/pages/collection-dashboard/index.jsx:137-157 | an element is kept as often as it occurs when it passes, and not at all otherwise |
| JsText.FilterMember | src/pages/add-edit-coin/index.jsx:121-123 | an element is in the filtered list exactly when it was in the input and passes |
| JsText.FilterAppend | src/pages/collection-dashboard/index.jsx:137-157 | filtering a concatenation is concatenating the filtered parts |
| JsText.FilterSame | src/pages/collection-dashboard/index.jsx:110-117 | filters that agree on every element keep the same list |
| JsText.FilterAll | src/pages/add-edit-coin/index.jsx:163 | a filter every element passes keeps the list as it is |
| JsText.TrimStart | src/pages/add-edit-coin/index.jsx:91 | the result is the suffix left after dropping exactly the leading whitespace |
| JsText.TrimEnd | src/pages/add-edit-coin/index.jsx:76 | the result is the prefix left after dropping exactly the trailing whitespace |
| JsText.Trim | src/pages/add-edit-coin/index.jsx:76 | the trimmed string has no whitespace at either end and is no longer than the input; TrimIsInnerSlice pins which part of the input it is |
| JsText.TrimIsInnerSlice | src/pages/add-edit-coin/index.jsx:76 | the trimmed string is a slice of the input, and everything before and after that slice is whitespace |
| JsText.TrimEmptyIffAllSpace | src/pages/authentication-login-register/components/AuthForm.jsx:53 | a string is blank after trimming exactly when all its characters are whitespace |
| JsText.TrimOfTrimmed | src/pages/add-edit-coin/index.jsx:163 | trimming a trimmed string changes nothing |
| JsText.TrimDropsLeadingSpace | src/pages/add-edit-coin/index.jsx:163 | a leading whitespace character does not survive trimming |
| JsText.LowerChar | src/pages/collection-dashboard/index.jsx:138 | an ASCII capital becomes its small letter and every other character is kept |
| JsText.ToLower | src/pages/collection-dashboard/index.jsx:138-142 | lower-casing keeps the length and maps each character |
| JsText.IndexOfFrom | src/components/ui/BottomTabNavigation.jsx:10-11 | the result is the first occurrence at or after the start, or -1 exactly when there is none |
| JsText.Includes | src/components/ui/BottomTabNavigation.jsx:10-11 | `includes` holds exactly when the substring occurs at some position |
| JsText.FirstIndex | src/pages/authentication-login-register/index.jsx:35 | the position of the first occurrence of the character |
| JsText.Split | src/pages/add-edit-coin/index.jsx:163 | the pieces are at least one, contain no separator, and join back to the input |
| JsText.SplitJoin | src/pages/add-edit-coin/index.jsx:163 | splitting a join of separator-free pieces gives the pieces back |
| JsText.JoinSplitsAtFirst | src/pages/add-edit-coin/index.jsx:163 | the first separator of such a join sits right after the first piece |
| JsText.RemoveFirst | src/pages/collection-dashboard/index.jsx:173-175 | `replace` with a one-character pattern removes only its first occurrence, and leaves a string without it unchanged |
| JsText.AllDigitsAppend | src/pages/add-edit-coin/components/CoinDetailsForm.jsx:73 | two digit strings concatenate to a digit string |
| JsText.DigitChar | src/pages/add-edit-coin/components/CoinDetailsForm.jsx:73 | a digit value below ten becomes the digit character worth it |
| JsText.NatToString | src/pages/add-edit-coin/components/CoinDetailsForm.jsx:73 | the decimal form is non-empty, all digits, without a leading zero, and worth the number |
| JsText.IntToString | src/pages/add-edit-coin/components/CoinDetailsForm.jsx:73 | the decimal form starts with a digit or a minus sign, the sign exactly for negative numbers |
| JsText.DigitPrefix | src/pages/add-edit-coin/index.jsx:91 | the longest leading run of digits |
| JsText.DigitPrefixOfDigits | src/pages/add-edit-coin/index.jsx:91 | the digit run of a digit string is the whole string |
| JsText.DigitPrefixOfDigitsThen | src/pages/add-edit-coin/index.jsx:91 | a digit run followed by a rest that does not start with a digit is exactly the digit run read |
| JsText.ParseIntWithoutDigit | src/pages/add-edit-coin/index.jsx:91 | `parseInt` of a string starting with neither whitespace, a sign nor a digit is NaN |
| JsText.ParseIntOfDigitsThen | src/pages/add-edit-coin/index.jsx:91 | `parseInt` of a digit run followed by a non-digit rest is the run's value |
| JsText.ParseIntOfIntToString | src/pages/add-edit-coin/index.jsx:52 | reading back the decimal form of any integer gives that integer, so a year shown for editing (line 52) parses back on save (line 162) |
| JsText.DecimalValue | src/pages/add-edit-coin/index.jsx:102 | a decimal is zero when its digits are, and otherwise positive or negative by its sign |
| JsText.ParseFloat | src/pages/add-edit-coin/index.jsx:102-112 | `parseFloat` is a number exactly when a decimal literal can be read, and then its value |
| JsText.ParseFloatLeadingChar | src/pages/add-edit-coin/index.jsx:102 | a string starting with a digit parses; one starting with no digit, sign or point is NaN |
| JsText.ParseFloatOfNat | src/pages/collection-dashboard/index.jsx:173 | the decimal form of a whole number reads back as that number |

## Left out

- Backend calls are not modelled; their answers and exceptions are inputs. This covers the hosted authentication and database client, including its query builder. Server-side ordering and the `ilike` wildcard characters `%` and `_` inside a search term are therefore not modelled. `CoinService.BuildUserCoinsQuery` records the filters that are requested.
- A backend error object is modelled with a message string. An error whose `message` is undefined would give `error: undefined` in the JavaScript.
- The session manager is not part of this model: the sign-in and sign-out state transitions, `clearError` and profile loading live in src/contexts/AuthContext. Its state (user, profile, loading, session error) enters as constructor parameters or fields, and `clearError` is modelled as setting the session error to absent.
- Browser effects are modelled only as recorded requests:
  - navigations are appended to a sequence;
  - a localStorage write is the `stored` copy;
  - `JSON.parse` is an input that is absent when parsing throws;
  - `JSON.stringify` is not modelled.
- Not modelled at all: `document.body.style`, listener registration, `window.location`, `console.log`, share and clipboard.
- Timers and simulated delays are not modelled as time. A timer is either a later handler call (`UserProfile.Page.HideSuccess`) or a recorded delayed navigation (`NavigateLater`). The simulated calls of the add/edit page and of the authentication modal are assumed to resolve. A rejected one is modelled only where the code can throw: a missing coin in edit mode, or the modal's `rejected` parameter.
- Picture capture through FileReader is not modelled. A picture is a data string, and two pictures are equal when their strings are equal.
- `toLowerCase` maps only the ASCII capitals; other scripts are case-folded by JavaScript but not here. String lengths count characters, not UTF-16 code units, which differ only outside the Basic Multilingual Plane.
- JsText.ParseInt: reads decimal digits only; the hexadecimal `0x` prefix that `parseInt` also accepts is not modelled.
- JsText.ParseFloat: reads sign, digits and a decimal point only; exponents and `Infinity` are not modelled. The value read (`DecimalValue`) is the exact decimal as a real, not the nearest IEEE-754 double. So a literal too small for a double reads as positive, though JavaScript rounds it to 0: a weight of "0." then 400 zeros then "1" passes the model's positive-number check, while the page's `<= 0` test rejects it. Two literals that round to the same double ("1" and "1.00000000000000001") are different values here, so the denomination sort orders them, while JavaScript compares them as equal and keeps their input order.
- CollectionDashboard.GetFilteredAndSortedCoins: states no order for a denomination key when a shown denomination does not parse. The comparator then gives NaN, which the sort treats as 0. That makes it inconsistent, and ECMAScript leaves the resulting order implementation-defined. Stability among equal keys is not stated either; the insertion sort happens to be stable.
- CoinService.AddedInLast30Days: the 30-day cutoff of `getCoinStats` (and so of `CountStats` and `GetCoinStats`) is an input, not computed from now. The source moves the local calendar date back 30 days, which across a daylight-saving change is 30 × 24 hours plus or minus one hour; the model does not derive that instant from the time zone.
- CoinDetailModal.Modal.HandleEdit: the navigation state carries the coin's id, name and images only. The source passes the whole coin object, whose other properties the edit form reads.
- The `Object.prototype` names (such as `constructor`) are not modelled. `scores[condition]` in the condition card would find them; `ConditionAssessment.ConditionScore` treats them as unlisted.
- The settings page's `handleSignOut` is not modelled: it calls the session manager and sets `window.location`. The account, preferences and support sections only pass values to `updateSetting`, which is modelled.
- Markup, class names and icons are not modelled, except where they carry a decision: the colour band, the toggle label, the tab's active flag.

## Findings

| source | as written | input that shows it | evidently intended | confidence | as-written member | corrected member |
|---|---|---|---|---|---|---|
| src/components/ui/BottomTabNavigation.jsx:36-37 | the Profile tab opens '/profile' and is active only on '/profile' | pressing Profile on any private page; or any pathname equal to '/user-profile' | the declared profile route '/user-profile' (src/Routes.jsx:37) | not executed | BottomTabNavigation.ProfileTabIsUndeclared | BottomTabNavigation.TabsAreSound |
| src/pages/authentication-login-register/index.jsx:96-101 | the page renders its form with `isLogin`, `onToggleMode`, `onSubmit` and `isLoading`, but the form reads `activeTab` (AuthForm.jsx:9), which is therefore undefined; the submit (AuthForm.jsx:168) always runs `handleSignUp`, validated with the sign-in checks only | on the log-in tab, submitting an existing account's e-mail and password calls sign-up, not sign-in; on the sign-up tab, a blank name with two different passwords passes validation | the page passes `activeTab` for its mode (and `onTabChange`), so each tab runs its own handler and checks | not executed | AuthForm.UnwiredFormSkipsSignUpChecks | AuthenticationPage.CorrectedWiringFollowsMode |

The router declares no '/profile' route, so the tab leads to the not-found
page. The tab is also never active on the real profile page.
`BottomTabNavigation.TabsAsWritten` keeps the tab as written, and
`BottomTabNavigation.Tabs` is the corrected bar. `Render` and the lemmas
about pressing a tab use the corrected bar.

The form's tab: with no `activeTab`, `AuthForm.SubmitHandler` picks the
sign-up handler and `AuthForm.FirstValidationError` applies only the
presence checks. `AuthenticationPage.FormTab` is the tab the page should
pass, and `AuthenticationPage.Page.RenderForm` hands it on. The form's
methods are stated for whatever tab the form holds.

Two places where the code is followed over the behaviour one might expect:

- Sign-in with neither an error nor a user in the answer succeeds. So
  `AuthService.SignIn` promises that a success has a confirmed user or no
  user at all, rather than a confirmed user in every case.
- A denomination with no leading number sorts through a NaN difference,
  not through a fallback value of 0.
