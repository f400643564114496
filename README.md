# Fashion recommendation client: a Dafny model

This project models the logic core of a React Native client for a
fashion-recommendation backend. The logic covered is:

- the offline **bulk-ratings queue** (`useBulkRatings`);
- the **session token layer**: the HTTP client's request and response hooks, the auth calls, the auth context and the root `Gate`;
- the pure helpers around them:
  - query parameters and item normalisation in the service layer;
  - the recommendations envelope;
  - gender and category normalisation;
  - the two filter components;
  - the product card's fallbacks;
  - the swipe deck's state machine.

Each module follows one source file:

| module | file | form |
|---|---|---|
| `Js` | (none) | JavaScript values and the operators the client uses: truthiness, `\|\|`, `??`, `String()`, `parseInt`, `trim`, case mapping |
| `Ratings` | types shared by the queue and the client | the `{ product_id, rating }` record and its JSON form |
| `BulkRatings` | `src/hooks/useBulkRatings.ts` | transition functions on `QueueState`, trace lemmas, and the class `RatingsQueue` whose methods perform exactly those transitions |
| `Storage` | AsyncStorage under key `"token"` | class `TokenStore` holding `Option<string>` |
| `Client` | `src/api/clients.ts` | pure `ResolveBaseUrl`, `SessionHeaders`, `Settle`, `TokenOf` and `ResolveImageUrl`; methods for the hooks and auth calls that mutate the request and the store |
| `Auth` | `src/context/AuthContext.tsx` | transition functions on memory and storage together, and the class `Session` |
| `Gate` | `App.tsx` | `Route(loading, token)` |
| `Envelope` | `src/types.ts` | `Unwrap` |
| `Services` | `src/services/api.ts` | parameter builders and the list normalisation |
| `FilterNormalize` | `src/utils/filters.ts` | `NormalizeGender`, `NormalizeCategory` |
| `Filters` | `src/types.ts` and `src/data/staticFilters.ts` | filter groups, chip selection and tap logic, the static filter set |
| `FilterControls` | `src/components/FilterControls.tsx` | the shown groups, the count and the summary (a loop), and the class `FilterPanel` for the draft/apply/reset state |
| `FilterBar` | `src/components/FilterBar.tsx` | the emitted selection |
| `ProductCard` | `src/components/ProductCard.tsx` | `PickTitle`, `PickImage` |
| `Swipe` | `src/screens/SwipeScreen.tsx` | the deck, the keys, the rating calls, transition functions on `DeckState`, and the class `SwipeDeck` |

## How the main parts behave

**The ratings queue.** The flush is split at its two awaits.
- `FlushCall` or `TimerFire` starts a flush. It is a no-op on an empty list. Otherwise it moves to `Checking(snapshot)`.
- `NetInfo(c)` settles the connectivity check:
  - offline returns and leaves the list alone;
  - online clears the list and moves to `Sending(snapshot)`;
  - a check that throws runs the catch.
- `BulkResult(ok)` ends the call. A failure puts the batch in front of whatever was enqueued meanwhile.

Two behaviours of the code as written are kept and shown by traces that hold for any items:
- `EnqueueDuringCheckIsLost`: an item enqueued while the connectivity check is pending is overwritten by the optimistic `setQueue([])`.
- `ThrowingCheckDuplicates`: a throwing check prepends the snapshot to a list that was never cleared.

`QuietRunConserves` proves that no item is lost, duplicated or reordered on every run free of those two situations and of a third: a flush started while another is in flight. The model does not represent that third situation, and the code can lose an item there too. The first call fails and re-prepends its batch, and then the second check's `setQueue([])` wipes it.

**The session.** The stored token (`TokenStore.saved`) and the context's memory (`token`, `loading`) are separate.
- A 401 reply clears storage only. `Auth.UnauthorizedDiverges` shows memory and storage disagreeing afterwards.
- `persistToken("")` keeps `""` in memory and stores nothing.
- `register` returns the raw body. An object body carrying a token is therefore stored by the client and still followed by a login (`Auth.RegisterObjectBodyThenFailedLogin`).

## Model

| member | source | states |
|---|---|---|
| BulkRatings.RatingsQueue.Enqueue | src/hooks/useBulkRatings.ts:11-13 | the item is appended at the end, earlier items are unchanged, and the timer is re-armed |
| BulkRatings.RatingsQueue.Flush | src/hooks/useBulkRatings.ts:15-18 | a flush of an empty list changes nothing; otherwise the connectivity check starts with the whole list as the snapshot |
| BulkRatings.RatingsQueue.OnTimer | src/hooks/useBulkRatings.ts:31-33 | the pending timer runs the flush and is consumed |
| BulkRatings.RatingsQueue.ConnectivityKnown | src/hooks/useBulkRatings.ts:18-26 | online: the call carries exactly the snapshot and the list is emptied; offline: the list stays and no call is made; a throwing check re-prepends the snapshot |
| BulkRatings.RatingsQueue.BulkFinished | src/hooks/useBulkRatings.ts:23-27 | success keeps only what was enqueued during the call; failure gives batch followed by those items |
| BulkRatings.RatingsQueue.PendingCount | src/hooks/useBulkRatings.ts:39 | the pending count is the list's length |
| BulkRatings.RatingsQueue.constructor | src/hooks/useBulkRatings.ts:8-9 | an empty list with the mount effect's timer armed |
| BulkRatings.StartFlush | src/hooks/useBulkRatings.ts:15-18 | `flush` up to its connectivity await: an empty list returns at once, otherwise the check starts on the whole list; `FlushOfEmptyIsNoop` and `StepKeepsInv` state its properties |
| BulkRatings.AfterCheck | src/hooks/useBulkRatings.ts:18-26 | the connectivity answer: offline keeps the list, online empties it and sends the snapshot, a throwing check re-prepends the snapshot; stated by `OfflineKeepsList`, `OnlineSendsSnapshot` and `ThrowingCheckDuplicates` |
| BulkRatings.AfterBulk | src/hooks/useBulkRatings.ts:23-27 | the bulk call settles: success keeps the later items, failure puts the batch in front of them; stated by `FailedBatchGoesInFront` and `SucceededBatchIsDropped` |
| BulkRatings.Step | src/hooks/useBulkRatings.ts:11-37 | one event of the hook (enqueue, flush call, timer, connectivity answer, call result); `StepKeepsInv`, `QuietStepConserves` and `ListChangeArmsTimer` state what every step keeps |
| BulkRatings.StepKeepsInv | src/hooks/useBulkRatings.ts:15-27 | every step keeps the invariant: a pending check's snapshot is a non-empty prefix of the list, and a batch in flight is non-empty |
| BulkRatings.QuietStepConserves | src/hooks/useBulkRatings.ts:11-27 | one step: what is acknowledged, then what is outstanding, equals what was outstanding, then what was enqueued |
| BulkRatings.QuietRunConserves | src/hooks/useBulkRatings.ts:11-27 | the same over every modelled run with no enqueue during a pending check, no throwing check and no flush started while another is in flight: no item lost, duplicated or reordered |
| BulkRatings.ListChangeArmsTimer | src/hooks/useBulkRatings.ts:31-36 | every change of the list leaves the single timer pending |
| BulkRatings.OfflineKeepsList | src/hooks/useBulkRatings.ts:18-19 | offline leaves the list unchanged, makes no call and arms no timer |
| BulkRatings.OnlineSendsSnapshot | src/hooks/useBulkRatings.ts:21-23 | online: the one call made carries exactly the snapshot, and the list is empty when it starts |
| BulkRatings.FailedBatchGoesInFront | src/hooks/useBulkRatings.ts:24-26 | a failed call restores the batch in front of the items enqueued meanwhile |
| BulkRatings.SucceededBatchIsDropped | src/hooks/useBulkRatings.ts:23-28 | a successful call does not re-add the batch, and the batch is what is acknowledged |
| BulkRatings.FlushOfEmptyIsNoop | src/hooks/useBulkRatings.ts:16 | flushing an empty list changes nothing |
| BulkRatings.RunAdds | src/hooks/useBulkRatings.ts:11-13 | a run of enqueues appends them in order and makes no call |
| BulkRatings.BurstMakesOneCall | src/hooks/useBulkRatings.ts:11-37 | a burst of enqueues followed by the timer and an online answer makes exactly one call carrying every item in order |
| BulkRatings.EnqueueDuringCheckIsLost | src/hooks/useBulkRatings.ts:18-22 | an item enqueued while the check is pending is neither sent nor outstanding |
| BulkRatings.ThrowingCheckDuplicates | src/hooks/useBulkRatings.ts:18-26 | for any item `a`, a throwing check turns the list `[a]` into `[a, a]` |
| BulkRatings.OfflineTimerKeepsBoth | src/hooks/useBulkRatings.ts:18-33 | two ratings and an offline timer: both stay pending in order, no call is made |
| BulkRatings.LaterFlushSendsBoth | src/hooks/useBulkRatings.ts:15-28 | a later explicit flush sends both in one call and leaves nothing pending |
| Ratings.BulkBodyRoundTrip | src/api/clients.ts:149-156 | the bulk body reads back as exactly the given items, in order |
| Ratings.ItemsJsonRoundTrip | src/api/clients.ts:149-156 | the JSON array of rating objects reads back as the list |
| Ratings.RatingNumberRoundTrip | src/screens/SwipeScreen.tsx:317-318 | the numbers 1 and 0 stand for exactly the two ratings |
| Storage.TokenStore.GetItem | src/context/AuthContext.tsx:30 | reading returns the stored value |
| Storage.TokenStore.SetItem | src/context/AuthContext.tsx:41 | writing stores exactly the given string |
| Storage.TokenStore.RemoveItem | src/context/AuthContext.tsx:43 | removing leaves no stored value |
| Client.StripTrailingSlashes | src/api/clients.ts:21 | the result is a prefix of the input with only slashes removed, and it does not end in a slash |
| Client.StripSlashesPadded | src/api/clients.ts:21 | any run of trailing slashes is removed exactly |
| Client.ResolveBaseUrl | src/api/clients.ts:12-22 | `resolveBaseURL` with `extra` and the two environment variables as parameters; `BaseUrlPrecedence` states its precedence and the slash stripping |
| Client.BaseUrlPrecedence | src/api/clients.ts:12-22 | a non-empty configured string wins; without one, a non-empty `EXPO_PUBLIC_API_BASE_URL`, then a non-empty `API_BASE_URL`, each with its trailing slashes stripped; with none, `http://localhost:8000`; the result never ends in a slash |
| Client.ConfiguredBaseUrlResolves | app.config.js:25-27 | the configured `http://192.168.1.11:8000` is the base URL whatever the environment says |
| Client.SessionHeaders | src/api/clients.ts:36-51 | a non-empty stored token sets Authorization to `Bearer <token>`, replacing any old value; Content-Type becomes JSON only for a truthy body without one; nothing else changes |
| Client.RequestHook | src/api/clients.ts:36-56 | the request's headers become the session headers for the stored token; its body is untouched |
| Client.Settle | src/api/clients.ts:59-77 | a 2xx reply passes its body through unchanged; every other reply and a missing response are rejected with their cause |
| Client.ResponseHook | src/api/clients.ts:59-77 | settles the reply; a 401 removes the stored token; other statuses and network errors leave storage unchanged |
| Client.Send | src/api/clients.ts:36-77 | one call through both hooks |
| Client.TokenOf | src/api/clients.ts:83-85 | the token `login` accepts from a reply body; `TokenShapes` states its cases |
| Client.TokenShapes | src/api/clients.ts:83-85 | a string body is the token; an object body gives the first truthy of `token`, `access_token`, `jwt`; nothing else yields a token |
| Client.ServerMessage | src/api/clients.ts:89-91 | the message of `login`'s error when no token is found; `ServerMessageShapes` states its cases |
| Client.ServerMessageShapes | src/api/clients.ts:87-91 | the error is `detail`, else `message`, else `No token in login response` |
| Client.LoginResult | src/api/clients.ts:80-94 | `login`'s outcome for a reply: a rejected reply, a missing token, or the token; `LoginSpec` states when each occurs |
| Client.LoginSpec | src/api/clients.ts:80-95 | login succeeds exactly when a successful body yields a truthy token, which is then stored; a failure writes nothing (beyond a 401's removal) |
| Client.Login | src/api/clients.ts:80-95 | the method's result and storage are those of the specification |
| Client.Register | src/api/clients.ts:97-104 | resolves to the raw body; stores a token only when the body has one |
| Client.Logout | src/api/clients.ts:106-108 | the stored token is removed |
| Client.RateProductsBulk | src/api/clients.ts:149-156 | the posted payload reads back as exactly the ratings and goes out as JSON with the session headers |
| Client.CleanUrl | src/api/clients.ts:187 | no backslash or white space remains; an already clean string is unchanged |
| Client.CleanUrlAppend | src/api/clients.ts:187 | cleaning works character by character: it distributes over concatenation |
| Client.CleanUrlRules | src/api/clients.ts:187 | a backslash becomes `/`, a white-space character `%20`, and any other character stays |
| Client.ResolveImageUrl | src/api/clients.ts:183-213 | `resolveImageUrl` with `new URL` as the parameter `parse`; `ImageUrlCases` states each rule |
| Client.ImageUrlCases | src/api/clients.ts:183-213 | falsy input returns unchanged; local-host absolute URLs take the base protocol and host; other absolute URLs are kept; `//`, `/` and plain relative paths get the protocol, the origin, or the origin and `/` |
| Auth.Session.constructor | src/context/AuthContext.tsx:24-25 | the session starts with no token, loading |
| Auth.Session.Restore | src/context/AuthContext.tsx:27-36 | performs the restore transition |
| Auth.AfterRestore | src/context/AuthContext.tsx:27-36 | the mount effect's restore, including a failing read; `RestoreSpec` and `RestoreSyncs` state its result |
| Auth.RestoreSpec | src/context/AuthContext.tsx:27-36 | after restore the token is the stored value (or `null`) and loading is false, even when the read fails |
| Auth.RestoreSyncs | src/context/AuthContext.tsx:27-36 | restoring a non-empty token or an empty store leaves memory and storage in agreement |
| Auth.Session.PersistToken | src/context/AuthContext.tsx:38-45 | performs the persist transition |
| Auth.Persist | src/context/AuthContext.tsx:38-45 | `persistToken(t)` on memory and storage together; `PersistSyncs`, `PersistEmptyString` and `PersistStringStores` state its result |
| Auth.PersistSyncs | src/context/AuthContext.tsx:38-45 | memory takes `t`; storage holds it when truthy and nothing otherwise; loading is unchanged |
| Auth.PersistEmptyString | src/context/AuthContext.tsx:38-45 | `persistToken("")` keeps `""` in memory and nothing in storage |
| Auth.PersistStringStores | src/context/AuthContext.tsx:40-44 | a string token is stored exactly when it is non-empty |
| Auth.Session.Login | src/context/AuthContext.tsx:47-50 | performs the login transition and returns its outcome |
| Auth.AfterLogin | src/context/AuthContext.tsx:47-50 | the context's `login`: the client call, then `persistToken` on success; `LoginSpec` and `LoginKeepsSynced` state its result |
| Auth.LoginSpec | src/context/AuthContext.tsx:47-50 | exactly the returned token is persisted; a failure persists nothing and keeps memory |
| Auth.LoginKeepsSynced | src/context/AuthContext.tsx:47-50 | from agreement, a login that is not a 401 keeps memory and storage agreeing |
| Auth.Session.Register | src/context/AuthContext.tsx:52-62 | performs the register transition and returns its outcome |
| Auth.AfterRegister | src/context/AuthContext.tsx:52-62 | the context's `register`, with the fallback login; `RegisterSpec` and `RegisterObjectBodyThenFailedLogin` state its result |
| Auth.RegisterSpec | src/context/AuthContext.tsx:52-62 | a non-empty string result is persisted with no login; any other success logs in and persists that token in memory and storage, while a failed fallback login keeps the memory token; a failed register changes no memory |
| Auth.RegisterObjectBodyThenFailedLogin | src/context/AuthContext.tsx:54-61 | an object body with a token is stored by the client, then a failing login rejects with memory unchanged but the token stored |
| Auth.Session.Logout | src/context/AuthContext.tsx:64-70 | performs the logout transition; the call's failure is passed on |
| Auth.AfterLogout | src/context/AuthContext.tsx:64-70 | the context's `logout`, whose `finally` persists `null`; `LogoutClears` states its result |
| Auth.LogoutClears | src/context/AuthContext.tsx:64-70 | logout always ends with no token in memory or storage |
| Auth.Session.Call | src/api/clients.ts:59-77 | any other call settles the reply and may clear storage only |
| Auth.AfterCall | src/api/clients.ts:59-77 | any other call's effect on memory and storage; `UnauthorizedDiverges` and `OtherRepliesKeepState` state it |
| Auth.UnauthorizedDiverges | src/api/clients.ts:69-71 | a 401 clears storage but keeps the memory token, so the two disagree |
| Auth.OtherRepliesKeepState | src/api/clients.ts:65-75 | every reply other than a 401 leaves memory and storage as they were |
| Gate.Route | App.tsx:13-30 | the screen `Gate` renders for `loading` and `token`; `RouteSpec` states its cases |
| Gate.RouteSpec | App.tsx:13-30 | nothing while loading; the main navigator exactly for a truthy token; otherwise the auth stack, opening on Login |
| Gate.EmptyTokenShowsAuthStack | App.tsx:23-30 | an empty string or `null` token shows the auth stack |
| Gate.FirstRenderShowsNothing | App.tsx:14-15 | the first render shows nothing |
| Gate.RestoredRoute | App.tsx:13-30 | after restore a stored token opens the main navigator, an empty store the auth stack |
| Gate.LogoutShowsAuthStack | App.tsx:23-30 | after logout the auth stack is shown |
| Gate.UnauthorizedKeepsRoute | App.tsx:23-30 | a 401 does not change the route |
| Envelope.Unwrap | src/types.ts:113-118 | `unwrapRecommendations`; `UnwrapSpec`, `UnwrapBareArray` and `UnwrapReadsTwoFields` state its cases |
| Envelope.UnwrapSpec | src/types.ts:113-118 | falsy gives `[]`; a `recommendations` array wins even with `items`; else an `items` array; else `[]` |
| Envelope.UnwrapBareArray | src/types.ts:113-118 | a bare array is not an envelope and gives `[]` |
| Envelope.UnwrapReadsTwoFields | src/types.ts:115-116 | only `recommendations` and `items` are read |
| Services.ToRandomParams | src/services/api.ts:18-23 | the random endpoint's parameters; `CountParamsSpec` and `CountParamsIgnoreOtherKeys` state them |
| Services.ToRecommendationsParams | src/services/api.ts:35-40 | the recommendations endpoint's parameters, built like the random ones; `CountParamsSpec` and `CountParamsIgnoreOtherKeys` state them |
| Services.CountParamsSpec | src/services/api.ts:18-40 | `count` is 20; `gender` and `category` are the selected gender and master category, omitted when absent or null |
| Services.CountParamsIgnoreOtherKeys | src/services/api.ts:18-40 | no other selection key reaches the parameters |
| Services.ToProductsParams | src/services/api.ts:25-33 | the product list's parameters; `PageParamsSpec` and `PageParamsIgnoreOtherKeys` state them |
| Services.PageParamsSpec | src/services/api.ts:25-33 | `skip` 0, `limit` 50, with gender, master category as `category`, and colour |
| Services.PageParamsIgnoreOtherKeys | src/services/api.ts:25-33 | no other selection key reaches the parameters |
| Services.CardOf | src/services/api.ts:47-53 | the card keeps `id` and `image_url`; the title is `name`, else `productDisplayName`, else `#<id>`, and is never missing |
| Services.CardsOf | src/services/api.ts:47-67 | mapping keeps length and order and maps each element; it throws exactly when an element is `null` or `undefined` |
| Services.ProductCards | src/services/api.ts:47-53 | `(raw ?? []).map(...)` in `fetchSwipeCards` and `fetchProducts`; `ProductCardsSpec` states its result |
| Services.ProductCardsSpec | src/services/api.ts:47-67 | a missing list gives no cards; a list of products keeps length, order and ids; a non-list throws |
| Services.RecOf | src/services/api.ts:78-83 | `id` is `product_id`, else `id`, else `item_id`, else the random fallback; `score` is kept only when it is a number; the title is never missing |
| Services.RecsOf | src/services/api.ts:78-83 | mapping keeps length and order; it throws exactly when an element is `null` or `undefined` |
| Services.RecommendationItems | src/services/api.ts:76-83 | `fetchRecommendations`'s mapping as written, on the body `getRecommendations` returns; `EnvelopeIsRejected` shows it rejects an envelope |
| Services.RecommendationItemsUnwrapped | src/services/api.ts:75-83 | the same mapping after `unwrapRecommendations`, as the comment at line 75 intends; `UnwrappedAcceptsEnvelopes` states its result |
| Services.EnvelopeIsRejected | src/services/api.ts:75-78 | as written, a `{ recommendations: [...] }` body is rejected |
| Services.UnwrappedAcceptsEnvelopes | src/services/api.ts:75-78 | with unwrapping: a bare list is treated as before; both envelopes give their list's items; it can throw only on a missing element |
| Services.FetchFilters | src/services/api.ts:13-15 | the static filter set: its eight keys in order, every option labelled by its id |
| FilterNormalize.GenderLabelSpec | src/utils/filters.ts:5-7 | on a trimmed, lower-cased word: `Men` and `Women` exactly for their aliases; any other word keeps its length, its first character upper-cased and the rest unchanged |
| FilterNormalize.CategoryLabelSpec | src/utils/filters.ts:13-16 | on a trimmed, lower-cased word: each label exactly for its aliases; any other word keeps its length, its first character upper-cased and the rest unchanged |
| FilterNormalize.NormalizeGender | src/utils/filters.ts:2-8 | `normalizeGender`; `NormalizeGenderSpec`, `NormalizeGenderIgnoresCaseAndPadding` and `NormalizeGenderIdempotent` state its properties |
| FilterNormalize.NormalizeCategory | src/utils/filters.ts:10-17 | `normalizeCategory`; `NormalizeCategorySpec`, `NormalizeCategoryIgnoresCaseAndPadding` and `NormalizeCategoryIdempotent` state its properties |
| FilterNormalize.NormalizeGenderSpec | src/utils/filters.ts:2-8 | undefined or empty gives undefined; `men`/`male`/`m` give `Men`, `women`/`female`/`w`/`f` give `Women`; otherwise the result has the trimmed, lower-cased input's length, its first character upper-cased and the rest kept |
| FilterNormalize.NormalizeCategorySpec | src/utils/filters.ts:10-17 | undefined or empty gives undefined; the apparel, accessories and footwear aliases give their labels; otherwise the trimmed, lower-cased input with its first character upper-cased and the rest kept |
| FilterNormalize.NormalizeGenderIgnoresCaseAndPadding | src/utils/filters.ts:4 | the result depends only on the trimmed, lower-cased input |
| FilterNormalize.NormalizeCategoryIgnoresCaseAndPadding | src/utils/filters.ts:12 | the result depends only on the trimmed, lower-cased input |
| FilterNormalize.WhiteSpaceOnlyNormalizesToEmpty | src/utils/filters.ts:3-16 | white-space-only input gives `""`, not undefined |
| FilterNormalize.NormalizeGenderIdempotent | src/utils/filters.ts:2-8 | normalising a normalised gender again changes nothing |
| FilterNormalize.NormalizeCategoryIdempotent | src/utils/filters.ts:10-17 | normalising a normalised category again changes nothing |
| Filters.TapValue | src/components/FilterControls.tsx:105-117 | the value a chip's `onPress` passes to `setGroup`; `TapSpec` states it |
| Filters.TapSpec | src/components/FilterControls.tsx:105-117 | "All" gives null; an option chip becomes selected exactly when it was not, and a second tap undoes the first |
| Filters.AtMostOneChipSelected | src/components/FilterControls.tsx:107-114 | with distinct option ids at most one chip is selected, and never together with "All" |
| Filters.StaticGroupKeys | src/data/staticFilters.ts:19-114 | the static groups' keys, in order |
| Filters.StaticOptionsSelfLabelled | src/data/staticFilters.ts:19-114 | every static option's id is its label |
| FilterControls.ShownGroups | src/components/FilterControls.tsx:19-27 | only groups with an allowed key are shown, and no more groups than given |
| FilterControls.ShownGroupsMembers | src/components/FilterControls.tsx:19-27 | a group is shown exactly when it is given and its key is allowed |
| FilterControls.ShownGroupsAppend | src/components/FilterControls.tsx:25 | the filter keeps the input order |
| FilterControls.ShownStaticGroups | src/components/FilterControls.tsx:19-27 | of the static set, gender, master category, subcategory and colour are shown, in that order |
| FilterControls.SelectedCount | src/components/FilterControls.tsx:36-39 | the number of truthy selection values; `SelectedCountSetKey` and `ClearedCountsNothing` state its behaviour |
| FilterControls.SelectedCountSetKey | src/components/FilterControls.tsx:36-39 | setting one key changes the count of set values by at most one, in that direction |
| FilterControls.ClearedCountsNothing | src/components/FilterControls.tsx:64-70 | the reset selection counts nothing and has an empty summary |
| FilterControls.Summary | src/components/FilterControls.tsx:41-53 | the loop's result is the join of the parts for gender, masterCategory, subCategory, color, in that order |
| FilterControls.SummaryPartSpec | src/components/FilterControls.tsx:44-50 | a key gives a part exactly when its group is shown and its value set; the part is the label of the first option with that id, or the raw value when no option matches |
| FilterControls.SummaryOfUnset | src/components/FilterControls.tsx:47 | nothing set gives no parts |
| FilterControls.FindGroup | src/components/FilterControls.tsx:45 | the first group with the key, if any |
| FilterControls.FindOption | src/components/FilterControls.tsx:48 | the first option with the id, as `find` returns; none exactly when no option has it |
| FilterControls.FilterPanel.SetGroup | src/components/FilterControls.tsx:55-57 | only that key of the draft changes; nothing is emitted |
| FilterControls.FilterPanel.Press | src/components/FilterControls.tsx:105-117 | a chip tap sets the tapped value for its group in the draft only |
| FilterControls.FilterPanel.Apply | src/components/FilterControls.tsx:59-62 | the draft is emitted and the popup closes |
| FilterControls.FilterPanel.Reset | src/components/FilterControls.tsx:64-70 | emits, and makes the draft, a selection mapping exactly the shown keys to null |
| FilterControls.FilterPanel.SyncDraft | src/components/FilterControls.tsx:31-34 | the draft follows a new committed selection; nothing is emitted |
| FilterControls.FilterPanel.Open | src/components/FilterControls.tsx:74 | opening emits nothing and keeps the draft |
| FilterControls.FilterPanel.Close | src/components/FilterControls.tsx:86-92 | closing emits nothing and keeps the draft |
| FilterBar.SetGroup | src/components/FilterBar.tsx:19-24 | the selection `setGroup` emits; `SetGroupChangesOnlyKey` states it |
| FilterBar.SetGroupChangesOnlyKey | src/components/FilterBar.tsx:22-24 | only `groupKey` is replaced; every other key is unchanged |
| FilterBar.MissingKeySelectsAll | src/components/FilterBar.tsx:19-40 | a missing selection or key reads as null, so "All" is selected |
| FilterBar.Press | src/components/FilterBar.tsx:40-46 | the selection a chip's `onPress` emits; `PressSpec` states it |
| FilterBar.PressSpec | src/components/FilterBar.tsx:40-46 | tapping the selected option emits null, another option its id, "All" null |
| ProductCard.PickTitle | src/components/ProductCard.tsx:8-16 | `pickTitle`; `PickTitleSpec` states its result |
| ProductCard.PickTitleSpec | src/components/ProductCard.tsx:8-16 | the first truthy of `title`, `name`, `product_name`, `productDisplayName`, else `#<id>`; the title is always truthy |
| ProductCard.PickImage | src/components/ProductCard.tsx:18-20 | `pickImage`; `PickImageSpec` states its result |
| ProductCard.PickImageSpec | src/components/ProductCard.tsx:18-20 | a truthy `image_url`, else `images[0]` of an array, else undefined |
| Swipe.Deck | src/screens/SwipeScreen.tsx:172-179 | no cards without items; otherwise the items in order and exactly one trailing sentinel when the load-more card is shown |
| Swipe.ShowLoadMoreSpec | src/screens/SwipeScreen.tsx:172 | the sentinel shows within the last two cards, from the start for at most two items, and stays shown as the index grows |
| Swipe.KeyOf | src/screens/SwipeScreen.tsx:193-201 | `keyExtractor`, with the random key as a parameter; `KeyOfSpec` states its cases |
| Swipe.KeyOfSpec | src/screens/SwipeScreen.tsx:193-201 | the sentinel's key is `__load_more__`; string and number ids are their own keys; otherwise `t:<title>`; different numeric ids give different keys |
| Swipe.SwipeRating | src/screens/SwipeScreen.tsx:317-318 | a right swipe sends 1, a left one 0 |
| Swipe.RatingId | src/screens/SwipeScreen.tsx:146-148 | the id `sendRating` posts, `None` for a non-finite one; `SendRatingSpec` states its cases |
| Swipe.SendRating | src/screens/SwipeScreen.tsx:144-154 | the rating call `sendRating` makes, if any; `SendRatingSpec` states it |
| Swipe.SendRatingSpec | src/screens/SwipeScreen.tsx:144-154 | no call for a missing card or a non-numeric id; numeric and decimal-string ids are sent as their value with the swipe's rating |
| Swipe.SwipeCall | src/screens/SwipeScreen.tsx:181-186 | the rating call `handleSwipe` makes; `SwipeSpec` states it |
| Swipe.AfterSwipe | src/screens/SwipeScreen.tsx:187 | the index update after a swipe; `SwipeSpec` states it |
| Swipe.SwipeSpec | src/screens/SwipeScreen.tsx:181-190 | the index always moves past the swiped card; only a product card is rated, never the sentinel |
| Swipe.TruthyTexts | src/screens/SwipeScreen.tsx:167 | the kept parts are none exactly when no part is truthy |
| Swipe.DetailsLine | src/screens/SwipeScreen.tsx:157-169 | `buildDetailsLine`; `DetailsLineSpec` and `DetailsLineNonEmpty` state its result |
| Swipe.DetailsLineSpec | src/screens/SwipeScreen.tsx:157-169 | empty for a missing card, for a card with no truthy part, and for every card the service builds |
| Swipe.DetailsLineNonEmpty | src/screens/SwipeScreen.tsx:160-168 | a non-empty string part always shows |
| Swipe.AfterFiltersStart | src/screens/SwipeScreen.tsx:83-86 | `loadFilters` up to its `await`; `SuppressedLoadersAreInert` states the guard |
| Swipe.AfterFiltersLoaded | src/screens/SwipeScreen.tsx:86-87 | `setFilters` once the fetch settles, unguarded; `FiltersSettleAfterUnmount` and `SuppressionIsPermanent` state its effect |
| Swipe.AfterLoadStart | src/screens/SwipeScreen.tsx:95-103 | the synchronous start of `loadData`; `SuppressedLoadersAreInert` and `FreshLoadReplaces` state it |
| Swipe.AfterLoadEnd | src/screens/SwipeScreen.tsx:105-119 | the end of `loadData`; `FreshLoadReplaces`, `AppendLoadConcatenates` and `FailedLoadKeepsItems` state it |
| Swipe.AfterSelectionChange | src/screens/SwipeScreen.tsx:138-141 | the selection effect; `SuppressedLoadersAreInert` states it |
| Swipe.AfterLogoutStart | src/screens/SwipeScreen.tsx:71-72 | the start of `handleLogout`; `LoadDuringLogoutIsDropped` and `SuppressionIsPermanent` state its effect |
| Swipe.AfterLogoutEnd | src/screens/SwipeScreen.tsx:77-78 | the `finally` of `handleLogout`; `LoadDuringLogoutIsDropped` states it |
| Swipe.AfterUnmount | src/screens/SwipeScreen.tsx:133-135 | the mount effect's cleanup; `SuppressionIsPermanent` and `FiltersSettleAfterUnmount` state its effect |
| Swipe.SuppressedLoadersAreInert | src/screens/SwipeScreen.tsx:84-118 | once suppressed, a filter load's start, a data load's start and end, and a selection change change nothing |
| Swipe.SuppressionIsPermanent | src/screens/SwipeScreen.tsx:69-136 | suppression is never lifted, and afterwards items and error never change; the filters change at most to the static set, and only when a filter fetch begun before suppression settles |
| Swipe.FiltersSettleAfterUnmount | src/screens/SwipeScreen.tsx:83-88 | a filter fetch that passed its guard before unmount still sets the static filters when it settles |
| Swipe.FreshLoadReplaces | src/screens/SwipeScreen.tsx:97-118 | a non-append load replaces the items and goes back to the first card |
| Swipe.AppendLoadConcatenates | src/screens/SwipeScreen.tsx:100-109 | an append load puts the new items after the old ones and keeps the index |
| Swipe.FailedLoadKeepsItems | src/screens/SwipeScreen.tsx:111-118 | a failed load keeps the items and shows the message or `Failed to load items` |
| Swipe.LoadDuringLogoutIsDropped | src/screens/SwipeScreen.tsx:69-118 | a load that settles after logout began changes nothing; the spinner stays until logout ends |
| Swipe.SwipeDeck.LoadFilters | src/screens/SwipeScreen.tsx:83-86 | performs `loadFilters` up to its `await`: unless suppressed, a filter fetch becomes pending |
| Swipe.SwipeDeck.FiltersFetched | src/screens/SwipeScreen.tsx:86-87 | the pending fetch settles and the filters become the static set, without a suppression check |
| Swipe.SwipeDeck.LoadStart | src/screens/SwipeScreen.tsx:93-103 | performs the start of a load |
| Swipe.SwipeDeck.LoadEnd | src/screens/SwipeScreen.tsx:105-119 | performs the end of a load |
| Swipe.SwipeDeck.SelectionChanged | src/screens/SwipeScreen.tsx:138-141 | a selection change starts a fresh load unless one is running |
| Swipe.SwipeDeck.HandleSwipe | src/screens/SwipeScreen.tsx:181-190 | returns the rating call of the specification and moves the index |
| Swipe.SwipeDeck.HandleLogout | src/screens/SwipeScreen.tsx:69-80 | suppresses loaders, runs the session's logout, then ends loading |
| Swipe.SwipeDeck.Unmount | src/screens/SwipeScreen.tsx:133-135 | raises the suppression flag |

## Left out

- Transport, AsyncStorage, NetInfo, expo-constants and `console.log` are inputs or parameters.
  - A call's reply is a `Reply` value.
  - Connectivity is a `Connectivity` value.
  - The stored token is `TokenStore.saved`.
  - The environment variables and `extra` are parameters of `Client.ResolveBaseUrl`.
- Real timers are a single pending flag. Clearing the timer on unmount is not modelled.
- React rendering, navigation and styling are left out, and so are the layout arithmetic and the alerts.
- React's render and closure timing is left out. The model applies each state update at once, in program order.
- `BulkRatings.StartFlush`: a flush started while another is in progress is left unchanged. This includes the timer firing during a flush. An overlap can lose an item in the code: a second check's `setQueue([])` can wipe a batch that a failed first call put back. `BulkRatings.QuietRunConserves` therefore says nothing about such runs.
- BulkRatings.RatingsQueue.Flush: requires an idle queue, because overlapping flushes are not modelled. An explicit flush while a check or a bulk call is pending is outside the model.
- BulkRatings.RatingsQueue.OnTimer: requires an idle queue for the same reason. The timer firing while a check or a bulk call is pending is outside the model.
- Swipe.SuppressionIsPermanent: the filters are not promised fixed after suppression. `setFilters` (src/screens/SwipeScreen.tsx:87) runs without the guard, so a filter fetch begun before logout or unmount still sets the static filters when it settles (`Swipe.FiltersSettleAfterUnmount`).
- The `catch` of `loadFilters` is not modelled, because `fetchFilters` returns the static set and never rejects.
- The swipe screen does not use the bulk queue: it sends one `rateProduct` call per swipe (`Swipe.SwipeCall`). `rateProduct`'s own reply is not modelled, because its errors are only logged.
- `Math.random` keys and ids are parameters:
  - `randomKey` of `Swipe.KeyOf`;
  - `fallback` of `Services.RecOf` and `Services.RecsOf`.
- `new URL(...)` is the parameter `parse` of `Client.ResolveImageUrl`. The WHATWG URL parser, its serialisation and the host rewrite's corner cases are not modelled.
- JavaScript numbers are integers. Floats, NaN and Infinity appear only as "no id".
- `toLowerCase` and `toUpperCase` map ASCII letters only.
- HTTP header names are matched exactly. The HTTP library's case-insensitive header lookup is not modelled.
- Swipe.RatingId: `Number(id)` of an array id is not converted and is treated as no id.
- Auth.Persist: a non-string truthy token is stored as `String(t)`.
- FilterControls.FilterPanel.SyncDraft: the effect keyed on `value ?? {}` (a new object on every render without a value) is modelled as one copy per change of the committed selection.
- `unwrapRecommendations` is modelled, but no source file calls it. The model uses it only in the corrected recommendation mapping.
- `src/store/filters.ts` is not part of this model. Nor are the login, register, detail and recommendations screens, the navigator and `Select.tsx`.

## Findings

| source | as written | input that shows it | evidently intended | confidence | as-written member | corrected member |
|---|---|---|---|---|---|---|
| src/services/api.ts:75-78 | `(recs ?? []).map(...)` runs on the body `getRecommendations` returns. That function returns `data` unchanged (src/api/clients.ts:164-167). | a body `{ recommendations: [ ... ] }`, the shape `RecommendationResponse` describes | unwrap the envelope first, as the comment at the call says ("already unwraps") and as `unwrapRecommendations` does | medium, not executed | Services.RecommendationItems, Services.EnvelopeIsRejected | Services.RecommendationItemsUnwrapped, Services.UnwrappedAcceptsEnvelopes |
