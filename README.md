# Deployment previews: a Dafny model

This project models the logic of a React Native demo app. The app lists the
CodePush deployments of an application and lets the user switch the running
app to one of them. Four pieces are modelled:

- **The previews screen** (`screen.dfy`, module `Screen`). Class
  `PreviewsScreen` holds the screen's component state. It has one method per
  handler: fetching the catalog and the current deployment, asking for a
  switch, confirming, cancelling, typing a search query, and toggling an
  accordion. It also has one method per CodePush callback: status and
  download progress. CodePush appears only as a ghost log of `sync` calls
  (`syncCalls`) and as callbacks the caller may invoke at any time after a
  sync. The ghost predicate `Valid` states what every handler keeps true.
- **The search filter** of that screen (`search.dfy`, module
  `DeploymentSearch`). It covers JavaScript's `trim`, ASCII lower-casing, the
  searchable text of a deployment (its truthy fields joined with spaces), and
  the order-preserving filter.
- **The catalog fetch** (`previews.dfy`, module `Previews`). It defines the
  `Deployment` and `DeploymentPackage` records and `FetchDeployments`. That
  function maps the reply to the one `POST /deployments/list` request to
  either the deployment list or one error message. The reply is either a
  response envelope or a thrown transport error.
- **The preview card** (`preview_card.dfy`, module `PreviewCard`). It defines
  the `hasPackage` and `isCurrentDeployment` predicates. `Render` says what a
  card shows: the "Active" badge, the switch button and the key it passes,
  the info rows, and the details.
- **The current-deployment preference store** (`storage.dfy`, module
  `Storage`). Class `DeploymentKeyStore` holds an optional durable backend and
  an in-memory dictionary. The pure functions `ReadKey` and `WriteKey` state
  what `get` and `set` do, and the lemmas about the store are stated over them.

`js_values.dfy` holds the shared `Option`/`Result` types and the JavaScript
truthiness of optional strings (`a || b`).

The model follows the code as written. In particular:

- Confirming while a switch is running is not rejected. Each confirm with a
  selected key issues another sync and resets progress to 0
  (`DoubleConfirmScenario`).
- Progress is neither clamped nor kept monotone.
- There is no separate outcome for installed, up to date or failed. These
  three statuses only clear `isSwitching`.
- `selectedDeploymentKey` is kept after a confirm.
- On `success: false` the server's `error` field is never used. The message is
  always "Failed to fetch deployments".
- The preference store is not wired into the screen.

Field `label` of a package is spelled `releaseLabel` here, because `label` is
a Dafny keyword. The info-row field is `caption` for the same reason.

## Model

| member | source | states |
|---|---|---|
| Previews.FetchDeployments | utils/previews/index.tsx:29-47 | Exactly one request, a POST of the platform to `/deployments/list`. `success: true` returns the envelope's `data` unchanged. `success: false` fails with "Failed to fetch deployments". A thrown error fails with the truthy `response.data.error`, else the truthy `message`, else the fallback. Every failure message is non-empty, and a failure returns no data. |
| Previews.CaughtErrorMessage | utils/previews/index.tsx:41-43 | The rethrown message is never empty. It is the truthy `response.data.error`, else the non-empty `message`, else "Failed to fetch deployments". |
| Previews.UnsuccessfulEnvelopeIgnoresServerError | utils/previews/index.tsx:36-45 | Any `success: false` envelope, whatever its `error` field, gives the same request and the fixed fallback message. |
| Storage.Lookup | utils/storage.ts:17-31 | Defines the value stored under `current_deployment_key`, absent when the key is not there. |
| Storage.ReadKey | utils/storage.ts:19-32 | A read never yields "". It yields the durable value (or "production") when the backend exists and the read does not throw. Otherwise it yields the in-memory value (or "production"). |
| Storage.WriteKey | utils/storage.ts:34-47 | Whether a backend exists never changes. A successful durable write sets only the durable entry and leaves memory untouched. Without a backend, or when the write throws, only the memory entry is set. No other key changes in either map. |
| Storage.DeploymentKeyStore.constructor | utils/storage.ts:3-15 | The backend is null iff its construction threw. Otherwise it holds what was persisted. The memory dictionary starts empty. |
| Storage.DeploymentKeyStore.GetCurrentDeploymentKey | utils/storage.ts:19-32 | Returns `ReadKey` of the current state, which is never empty. |
| Storage.DeploymentKeyStore.SetCurrentDeploymentKey | utils/storage.ts:34-47 | The new backend and dictionary are `WriteKey` of the old ones. |
| Storage.UntouchedStoreReadsDefault | utils/storage.ts:19-31 | With nothing stored, with or without a backend and whether or not the read throws, a read yields "production". |
| Storage.EmptyStoredValueReadsDefault | utils/storage.ts:23-30 | A stored empty string reads back as "production". |
| Storage.NoBackendSetThenGet | utils/storage.ts:19-41 | Without a backend, `set(k)` and then `get()` return `k` for every non-empty `k`. |
| Storage.DurableSetThenGet | utils/storage.ts:21-37 | With a working backend, `set(k)` leaves memory unchanged and a following successful `get()` returns `k`. |
| Storage.FailedDurableWriteGoesToMemory | utils/storage.ts:42-46 | A throwing durable write stores `k` in memory. A later throwing read returns `k`. A later successful durable read returns what the backend held before. |
| Storage.FailedReadAnswersFromMemory | utils/storage.ts:28-31 | A throwing durable read yields the memory value or "production". |
| Storage.ReadSeesOnlyItsKey | utils/storage.ts:17-31 | A read depends only on the entries under `current_deployment_key`. |
| Storage.FallbackStoreScenario | utils/storage.ts:6-40 | A store whose backend threw at construction reads "production" before anything is set. After `set("staging")` it reads "staging", whatever the read and write flags. |
| DeploymentSearch.TrimEmptyIffAllWhitespace | screens/previews.tsx:104 | `query.trim()` is empty iff every character of the query is ECMAScript white space or a line terminator. |
| DeploymentSearch.Trim | screens/previews.tsx:104 | `query.trim()`: strips ECMAScript white space and line terminators from both ends. When the result is empty is stated by `TrimEmptyIffAllWhitespace`. |
| DeploymentSearch.Lower | screens/previews.tsx:108 | `toLowerCase` keeps the length and maps each character to its ASCII lower case. |
| DeploymentSearch.SearchableFields | screens/previews.tsx:111-122 | Defines the ten searched values in the code's order: id, key, name, then description, appVersion, label, releasedBy and packageHash of the package, createdTime, and uploadTime. A package field is absent when there is no package. |
| DeploymentSearch.TruthyStrings | screens/previews.tsx:123 | `.filter(Boolean)` holds exactly the present, non-empty values, each non-empty, and no more of them than there are fields. |
| DeploymentSearch.TruthyStringsAppend | screens/previews.tsx:123 | Filtering a concatenation gives the filtered parts concatenated, so the kept values stay in field order. |
| DeploymentSearch.JoinWithSpace | screens/previews.tsx:124 | Defines `.join(' ')`: the parts separated by single spaces. `JoinContainsPart` states that every part occurs in the result. |
| DeploymentSearch.JoinContainsPart | screens/previews.tsx:124 | Every part of a join occurs in the joined string. |
| DeploymentSearch.SearchableText | screens/previews.tsx:111-125 | Defines the searchable text: the truthy fields, joined with spaces, lower-cased. `TruthyFieldIsSearchable` states what it contains. |
| DeploymentSearch.TruthyFieldIsSearchable | screens/previews.tsx:111-125 | The lower-cased value of every truthy searchable field occurs in the searchable text. |
| DeploymentSearch.Includes | screens/previews.tsx:127 | Defines `text.includes(query)`: the query occurs in the text at some offset. |
| DeploymentSearch.KeepMatching | screens/previews.tsx:109-128 | `deployments.filter(...)` is never longer than its input, and every deployment it returns is in the input and matches. |
| DeploymentSearch.KeepMatchingCounts | screens/previews.tsx:109-128 | A matching deployment is kept as many times as it occurs in the input. A non-matching one is not kept at all. |
| DeploymentSearch.FilterDeployments | screens/previews.tsx:103-129 | `filteredDeployments` is never longer than the list, and it returns only deployments from the list. Its behaviour for blank and non-blank queries is stated by `BlankQueryKeepsAll` and `NonBlankQueryKeepsMatches`. |
| DeploymentSearch.QueryWithinFieldFinds | screens/previews.tsx:103-128 | Take a non-blank query that occurs, up to ASCII case, inside the value of one of a deployment's truthy searchable fields. That query keeps the deployment. |
| DeploymentSearch.KeepMatchingIsSubsequence | screens/previews.tsx:109-128 | The filter's result is an order-preserving subsequence of its input. |
| DeploymentSearch.KeepMatchingMembers | screens/previews.tsx:109-128 | A deployment is in the result iff it is in the input and its searchable text contains the query. |
| DeploymentSearch.KeepMatchingAllMatch | screens/previews.tsx:109-128 | When every deployment matches, the filter returns its input unchanged. |
| DeploymentSearch.BlankQueryKeepsAll | screens/previews.tsx:103-106 | An all-white-space query returns the deployments unchanged and in order. |
| DeploymentSearch.NonBlankQueryKeepsMatches | screens/previews.tsx:108-128 | For any other query, the result is an order-preserving subsequence of the list. It holds exactly the deployments whose lower-cased, space-joined truthy fields contain the lower-cased, untrimmed query. Each of them is kept as many times as it occurs in the list. |
| DeploymentSearch.FilterIdempotent | screens/previews.tsx:103-128 | Filtering the filtered list again with the same query returns it unchanged. |
| DeploymentSearch.FilterIgnoresQueryCase | screens/previews.tsx:108-127 | Two queries equal up to ASCII case give the same result. |
| DeploymentSearch.LowerKeepsWhitespace | screens/previews.tsx:104-108 | Queries that lower-case alike are blank alike. |
| DeploymentSearch.UpperCaseQueryFindsName | screens/previews.tsx:108-127 | The query "PROD" keeps a deployment named "Production". |
| PreviewCard.HasPackage | components/previews/previewCard.tsx:23 | Defines `hasPackage`: the deployment has a package. |
| PreviewCard.IsCurrentDeployment | components/previews/previewCard.tsx:24 | Defines `isCurrentDeployment`: the current key is known and equals the deployment's key. A null current key matches no deployment. |
| PreviewCard.InfoRows | components/previews/previewCard.tsx:39-64 | Every info row shows a non-empty value, which is the appVersion, label or uploadTime under its own caption. |
| PreviewCard.Render | components/previews/previewCard.tsx:23-127 | The badge is shown iff the card is current. The notice is shown iff there is no package. The switch button is shown iff there is a package and the card is not current, and it passes exactly the deployment's key. The details are shown iff there is a package and the card is expanded. They show the size, and the description exactly when it is truthy. |
| PreviewCard.InfoRowsFollowTruthyFields | components/previews/previewCard.tsx:40-63 | The Version, Target Version and Date rows appear exactly for a truthy appVersion, label and uploadTime. |
| PreviewCard.SwitchOnlyToOtherDeploymentWithPackage | components/previews/previewCard.tsx:23-78 | A switch is offered only to a deployment that has a package and is not the active one. |
| PreviewCard.NoCurrentKeyNoActiveCard | components/previews/previewCard.tsx:12-34 | With a null current key no card is active, and every card with a package offers a switch. |
| PreviewCard.ActiveAndEmptyCardsOfferNoSwitch | components/previews/previewCard.tsx:23-127 | Take a catalog with an entry without a package and the active entry `k2`. The first shows "No package available" and no switch. The second is badged and offers no switch. |
| Screen.PlatformOf | screens/previews.tsx:53 | The platform is iOS iff the host OS is "ios". Any other host OS gives Android. |
| Screen.EndsSwitching | screens/previews.tsx:81-91 | Defines the statuses that close the progress dialog: UPDATE_INSTALLED, UP_TO_DATE and UNKNOWN_ERROR. |
| Screen.Toggled | screens/previews.tsx:131-141 | Defines the new expanded set: `id` deleted if present, added otherwise. Its properties are `ToggledFlipsOnlyId` and `ToggleTwiceRestores`. |
| Screen.ToggledFlipsOnlyId | screens/previews.tsx:131-141 | Toggling flips the membership of `id` and of no other id. |
| Screen.ToggleTwiceRestores | screens/previews.tsx:131-141 | Toggling the same id twice gives back the original set. |
| Screen.PreviewsScreen.constructor | screens/previews.tsx:18-31 | The initial state: nothing loaded, loading, no error, empty query, no expanded cards, no current key, not switching, progress 0, no dialog, nothing selected, no sync issued. |
| Screen.PreviewsScreen.HandleFetchCurrentDeployment | screens/previews.tsx:38-47 | `currentDeploymentKey` is set to the metadata's key only when metadata is returned. Otherwise it is unchanged. |
| Screen.PreviewsScreen.HandleFetchDeployments | screens/previews.tsx:49-61 | Afterwards `loading` is false and one catalog request for the host's platform has been issued. Success replaces `deployments` and leaves no error. Failure keeps `deployments` and shows the fetch's non-empty message. |
| Screen.PreviewsScreen.HandleSwitchDeployment | screens/previews.tsx:63-66 | Selects the key and opens the confirmation. No sync is issued and `isSwitching` is unchanged. |
| Screen.PreviewsScreen.OnConfirmSwitch | screens/previews.tsx:68-80 | With no truthy selected key, nothing changes. Otherwise the confirmation closes, `isSwitching` becomes true, progress becomes 0, and exactly one sync is appended: that key with immediate install. The selection is kept. |
| Screen.PreviewsScreen.OnSyncStatus | screens/previews.tsx:81-91 | UPDATE_INSTALLED, UP_TO_DATE and UNKNOWN_ERROR clear `isSwitching`, and nothing else changes. Any other status changes nothing. |
| Screen.PreviewsScreen.OnDownloadProgress | screens/previews.tsx:92-94 | Progress becomes received/total × 100, unclamped. Nothing else changes. |
| Screen.PreviewsScreen.OnCancelSwitch | screens/previews.tsx:98-101 | Closes the confirmation and clears the selection. No sync is issued, and switching and progress are unchanged. |
| Screen.PreviewsScreen.SetSearchQuery | screens/previews.tsx:166-171 | The query becomes what was typed. Nothing else changes. |
| Screen.PreviewsScreen.ToggleAccordion | screens/previews.tsx:131-141 | The expanded set becomes `Toggled` of the old set. Nothing else changes. |
| Screen.PreviewsScreen.PressSwitchOnCard | components/previews/previewCard.tsx:66-78 | A button can be pressed only on a rendered card. Cards are rendered once loading is over without error, one per filtered deployment (screens/previews.tsx:143-161 and 199-207). The button itself is rendered only for a deployment that has a package and is not active. Pressing it selects exactly that deployment's key and opens the confirmation. The deployment is in the catalog, and no sync is issued. |
| Screen.PreviewsScreen.FilteredDeployments | screens/previews.tsx:103-129 | The rendered list is never longer than the catalog and contains only catalog deployments. |
| Screen.SwitchScenario | screens/previews.tsx:63-95 | Confirm a switch to `k1`, then receive progress 50 of 100, then UPDATE_INSTALLED. Progress reads 50, then the switching dialog closes, after one sync. |
| Screen.DoubleConfirmScenario | screens/previews.tsx:68-80 | Confirming twice issues two syncs, keeps switching, and resets progress to 0. |
| Screen.CancelThenConfirmScenario | screens/previews.tsx:68-101 | A confirm after a cancel issues no sync and does not start switching. |

## Left out

- The HTTP call, the axios client and the server URL (`utils/api.ts`). The reply to the one request is a parameter of `FetchDeployments`. Malformed JSON bodies are not modelled: the envelope is typed.
- CodePush internals: `getUpdateMetadata`, the download itself, and the restart that an immediate install triggers. Their results come in as parameters (`MetadataQuery`) and as calls to `OnSyncStatus` and `OnDownloadProgress`.
- The MMKV internals. The backend is a map, and whether construction, a read or a write throws is a parameter. A write that throws is taken to leave the backend's contents unchanged.
- Scheduling: async/await, promises and the timing of callbacks. Every handler is atomic, so the intermediate `loading = true` while a fetch is pending is not observable. Nothing ties a callback to the sync that registered it, and the source does not do so either.
- Screen.PreviewsScreen.OnDownloadProgress: requires `totalBytes > 0`. The JavaScript result of dividing by zero (Infinity or NaN) is not modelled. Progress is a `real`, not a double.
- The `useEffect` that runs both fetch handlers at mount. The two handlers are modelled separately and may be called in either order.
- `formatSize` (`utils/format.ts`). The card's details carry the raw byte count. The "N/A" branch and the MB string with two decimals are not modelled.
- `Math.round` and the bar width in the progress dialog, and all rendering: styles, modals, navigation, theme, and the loading, error and empty-list views.
- `isDisabled` and `isMandatory` are carried in `DeploymentPackage` but gate nothing, as in the code.
- Logging: the `console.warn` and `console.error` calls in the catch blocks (utils/storage.ts:9, 29 and 43, utils/previews/index.tsx:44, screens/previews.tsx:45) have no effect on state and are not modelled.
- Previews.FetchDeployments: `err.response.data.error` is modelled as an optional string. A truthy non-string value there would become the message "[object Object]" in JavaScript, and the model cannot express that case.
- Lower-casing is ASCII only. Non-ASCII letters are left unchanged, where JavaScript's `toLowerCase` would fold them.
