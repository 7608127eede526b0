# AgriMRV-Lite: navigation, submission flow and status views

A Dafny model of the three pieces of logic in the AgriMRV-Lite front end, a
demo application for verifying smallholder farmers' crops:

- **Navigation bar** (`navigation.dfy`, module `Navigation`). A fixed, ordered
  table of six routes. The bar finds the current path's position in it with a
  first-match linear scan and derives the Back and Forward buttons from that
  position. A button press is modelled by the path it would hand to the
  router (`Some(path)`), or `None` when it does nothing. The signed-in user is
  a boolean that picks the auth controls: Dashboard and Logout, or Login and
  Register.
- **Farmer submission flow** (`farmer_input.dfy`, module `FarmerInput`). The
  class `SubmissionFlow` has the page's four state fields: `selectedFile`,
  `isRecording`, `verificationResult` and `isLoading`. It has one method per
  event: a file change, the record toggle, the recording auto-stop callback,
  a submit click and the verification completion callback. Each `setTimeout`
  is modelled by a counter of scheduled callbacks that have not fired yet. A
  callback method may run while one of its kind is pending, in any order with
  respect to user events. Notifications are returned as values.
- **Read-only views** (`record_views.dfy`, `dashboard.dfy`,
  `proof_page.dfy`). The status icon map (total, with a neutral default) and
  the status badge map (partial). Counting records by exact status equality.
  The fixture lists, their summary figures, and their table rows in list
  order. `getStatusBadge` and `getStatusIcon` are identical in the dashboard
  and in the proof page, so module `RecordViews` models them once and both
  views use it. The same module holds the `filter` count and the in-order
  `map` rendering that both views use.

Two behaviours of the code are easy to miss, and the model keeps both as
written:

- On a path that is not in the route table, `findIndex` gives -1, and the
  code tests only `currentIndex < routes.length - 1`
  (agri-proof-hub/src/components/Navigation.tsx:26). So Forward is enabled
  there and leads to `"/"`, while Back is disabled. See
  `Navigation.UnlistedPath`.
- The proof id is `substring(2, 8)` of `Math.random().toString(36)`,
  upper-cased (agri-proof-hub/src/pages/FarmerInput.tsx:68). That gives at
  most six characters: fewer when the random number has a short base-36
  expansion, and none when it is 0. See `FarmerInput.ProofIdOf`.

## Model

| member | source | states |
|---|---|---|
| Navigation.FindIndex | agri-proof-hub/src/components/Navigation.tsx:24 | the result is the first position whose path equals the current path, or -1 exactly when no route has that path |
| Navigation.CanGoBack | agri-proof-hub/src/components/Navigation.tsx:24-25 | Back is enabled exactly when the current path is listed and is not the first route's path |
| Navigation.CanGoForward | agri-proof-hub/src/components/Navigation.tsx:24-26 | Forward is enabled only in a non-empty table; on an unlisted path it is enabled whenever the table is non-empty; with distinct paths it is enabled exactly when the path is not the last route's |
| Navigation.GoBack | agri-proof-hub/src/components/Navigation.tsx:25-32 | Back navigates exactly when the index is > 0, to the route just before the current one; it never navigates from the first route or from an unlisted path |
| Navigation.GoForward | agri-proof-hub/src/components/Navigation.tsx:26-38 | Forward navigates exactly when the index is < length - 1; its target is always a listed route: the next route for a listed path, and routes[0] for an unlisted one |
| Navigation.FindIndexOfDistinct | agri-proof-hub/src/components/Navigation.tsx:15-24 | in a table with distinct paths, the scan finds each route's path at that route's own position |
| Navigation.RoutesDistinct | agri-proof-hub/src/components/Navigation.tsx:15-22 | the six route paths are pairwise distinct |
| Navigation.BackThenForward | agri-proof-hub/src/components/Navigation.tsx:24-38 | with distinct paths, wherever Back is enabled, pressing Forward on its target returns to the starting path |
| Navigation.ForwardThenBack | agri-proof-hub/src/components/Navigation.tsx:24-38 | with distinct paths, from a listed path where Forward is enabled, pressing Back on its target returns to the starting path |
| Navigation.CanGoBackOnRoutes | agri-proof-hub/src/components/Navigation.tsx:25 | on the real table Back is enabled exactly on the listed paths other than "/" |
| Navigation.CanGoForwardOnRoutes | agri-proof-hub/src/components/Navigation.tsx:26 | on the real table Forward is enabled on every path except "/register", including unlisted paths |
| Navigation.UnlistedPath | agri-proof-hub/src/components/Navigation.tsx:24-38 | on an unlisted path Back does nothing and Forward navigates to "/" |
| Navigation.UnlistedForwardHasNoReturn | agri-proof-hub/src/components/Navigation.tsx:24-38 | from an unlisted path, Forward leads to "/", where Back is disabled, so the jump cannot be undone |
| Navigation.ActionOf | agri-proof-hub/src/components/Navigation.tsx:83-125 | of the four auth controls only Logout signs out; the others navigate |
| Navigation.AuthControls | agri-proof-hub/src/components/Navigation.tsx:83-125 | two distinct controls are offered: Dashboard and Logout exactly when a user is present, Login and Register exactly when none is |
| Navigation.AuthControlsExclusive | agri-proof-hub/src/components/Navigation.tsx:83-125 | an offered control is never offered in the other sign-in state; sign-out is reachable only when signed in; every navigating control targets a listed route |
| RecordViews.StatusIcon | agri-proof-hub/src/pages/Dashboard.tsx:98-109 | total: verified, pending and rejected map to the green, yellow and red circles; the neutral white circle is returned exactly for every other string |
| RecordViews.StatusIconInjective | agri-proof-hub/src/pages/Dashboard.tsx:98-109 | the three named statuses have pairwise distinct icons |
| RecordViews.StatusBadge | agri-proof-hub/src/pages/Dashboard.tsx:70-96 | a badge (tone and text) is returned exactly for the three named statuses, null for any other string |
| RecordViews.BadgeIffColouredIcon | agri-proof-hub/src/pages/ProofPage.tsx:47-86 | a status shows a badge exactly when its icon is not the neutral one |
| RecordViews.Render | agri-proof-hub/src/pages/Dashboard.tsx:210-237 | the table has one row per record, in list order, and row i is the rendering of record i (used for the farmer rows and, at ProofPage.tsx:162-185, the proof rows) |
| RecordViews.FilterByStatus | agri-proof-hub/src/pages/Dashboard.tsx:111-112 | the filter keeps only records whose status is exactly s and keeps every such record; its result is a sub-multiset of the input |
| RecordViews.FilterUnnamed | agri-proof-hub/src/pages/Dashboard.tsx:106-107 | keeps exactly the records whose status is none of the three named ones (those drawn with the neutral icon); its result is a sub-multiset of the input |
| RecordViews.FilterCountIsOccurrences | agri-proof-hub/src/pages/Dashboard.tsx:111-112 | the length of the filter equals the number of occurrences of s among the records' statuses |
| RecordViews.CountsPartition | agri-proof-hub/src/pages/ProofPage.tsx:103-119 | the verified, pending, rejected and unknown counts add up to the number of records |
| RecordViews.VerifiedPlusPendingBounded | agri-proof-hub/src/pages/ProofPage.tsx:103-119 | the verified and pending figures together never exceed the total |
| Dashboard.VerifiedCount | agri-proof-hub/src/pages/Dashboard.tsx:111 | the number of farmers whose status is exactly "verified" |
| Dashboard.PendingCount | agri-proof-hub/src/pages/Dashboard.tsx:112 | the number of farmers whose status is exactly "pending" |
| Dashboard.CountsBounded | agri-proof-hub/src/pages/Dashboard.tsx:111-112 | verifiedCount + pendingCount never exceeds the number of farmers |
| Dashboard.MockFarmerStatuses | agri-proof-hub/src/pages/Dashboard.tsx:32-68 | the fixture's statuses in order are verified, pending, verified, rejected, verified |
| Dashboard.CountsOfFixtureStatuses | agri-proof-hub/src/pages/Dashboard.tsx:111-112 | any farmer list with those statuses has verifiedCount 3 and pendingCount 1 |
| Dashboard.MockFarmerCounts | agri-proof-hub/src/pages/Dashboard.tsx:32-112 | for the fixture of five farmers the counts are 3 verified and 1 pending |
| Dashboard.Initial | agri-proof-hub/src/pages/Dashboard.tsx:215 | on the fixture's ASCII names, the avatar letter is the name's first character, or empty for an empty name |
| Dashboard.RowOf | agri-proof-hub/src/pages/Dashboard.tsx:211-236 | a row shows the farmer's own name, crop and proof id; the avatar is at most one character, the name's first when the name is non-empty; a badge exactly for a named status and the neutral icon exactly for any other |
| Dashboard.RowBadgeMatchesIcon | agri-proof-hub/src/pages/Dashboard.tsx:225-230 | a row shows a badge exactly when its farmer's status is a named one, and the neutral icon exactly when it is not |
| Dashboard.MockFarmersWellFormed | agri-proof-hub/src/pages/Dashboard.tsx:32-68 | the fixture's ids, used as row keys, are pairwise distinct, and every fixture status is a named one |
| ProofPage.SummaryOf | agri-proof-hub/src/pages/ProofPage.tsx:99-124 | "Verified Proofs" and "Pending Review" are the numbers of proofs with exactly that status; "Total Submissions" is the list length; verified + pending never exceeds it |
| ProofPage.MockProofStatuses | agri-proof-hub/src/pages/ProofPage.tsx:16-45 | the fixture's statuses in order are verified, pending, verified, rejected |
| ProofPage.SummaryOfFixtureStatuses | agri-proof-hub/src/pages/ProofPage.tsx:103-119 | any proof list with those statuses shows the figures 2, 1 and 4 |
| ProofPage.MockProofSummary | agri-proof-hub/src/pages/ProofPage.tsx:16-119 | for the fixture the figures are 2 verified, 1 pending, 4 in total |
| ProofPage.HistoryOf | agri-proof-hub/src/pages/ProofPage.tsx:136-189 | the "No proofs found" placeholder is shown exactly when the list is empty; otherwise the table shows one row per proof, in order |
| ProofPage.RowOf | agri-proof-hub/src/pages/ProofPage.tsx:163-184 | a row shows the proof's own id, crop and stored date; a badge exactly for a named status and the neutral icon exactly for any other |
| ProofPage.MockProofHistory | agri-proof-hub/src/pages/ProofPage.tsx:16-185 | the fixture is shown as a four-row table whose first row is the verified wheat proof ABC123 |
| FarmerInput.Substring | agri-proof-hub/src/pages/FarmerInput.tsx:68 | JavaScript substring: for 0 <= start <= end the result is the slice from start up to end, with end clamped to the string |
| FarmerInput.UpperCase | agri-proof-hub/src/pages/FarmerInput.tsx:68 | on the lower-case base-36 digits it is applied to, upper-casing keeps the length and maps a-z to A-Z character by character, leaving digits alone |
| FarmerInput.ProofIdOf | agri-proof-hub/src/pages/FarmerInput.tsx:68 | the proof id has at most 6 characters, each in 0-9 or A-Z; it has min(digits, 6) characters, and none when the random text is "0" |
| FarmerInput.UpperCaseOfLowerCase | agri-proof-hub/src/pages/FarmerInput.tsx:68 | upper-casing restores an identifier from its lower-case form |
| FarmerInput.ProofIdOfReachesEveryId | agri-proof-hub/src/pages/FarmerInput.tsx:68 | every string of at most 6 characters from 0-9 and A-Z is the id of some random text, so the id's shape is exactly that set |
| FarmerInput.SubmissionFlow.constructor | agri-proof-hub/src/pages/FarmerInput.tsx:17-20 | initially no file, not recording, no result, not loading, no timer pending |
| FarmerInput.SubmissionFlow.FileChange | agri-proof-hub/src/pages/FarmerInput.tsx:22-31 | a change carrying a file selects it and notifies with its name; a change without a file changes nothing; recording, result and loading are never touched |
| FarmerInput.SubmissionFlow.ToggleRecording | agri-proof-hub/src/pages/FarmerInput.tsx:33-49 | flips isRecording; only idle-to-recording notifies and schedules one auto-stop; recording-to-idle cancels nothing; other fields unchanged |
| FarmerInput.SubmissionFlow.AutoStopFires | agri-proof-hub/src/pages/FarmerInput.tsx:41-47 | the auto-stop leaves isRecording false whatever toggles came in between, and changes no other field |
| FarmerInput.SubmissionFlow.HasData | agri-proof-hub/src/pages/FarmerInput.tsx:52 | the submit guard's test: a photo is selected or a recording is in progress |
| FarmerInput.SubmissionFlow.ClickSubmit | agri-proof-hub/src/pages/FarmerInput.tsx:51-62 | with the button disabled while loading (line 156): without a file or a recording nothing changes and no result appears; otherwise only isLoading becomes true and one completion is scheduled |
| FarmerInput.SubmissionFlow.CompletionFires | agri-proof-hub/src/pages/FarmerInput.tsx:64-78 | the result becomes {Wheat, Verified, proofId} with the id of the shape above and loading ends; file and recording unchanged; the invariant keeps every shown result of that form |
| FarmerInput.LeafPhotoScenario | agri-proof-hub/src/pages/FarmerInput.tsx:51-78 | selecting "leaf.jpg", submitting and letting the completion fire yields the Wheat/Verified result and ends loading |
| FarmerInput.EmptySubmitScenario | agri-proof-hub/src/pages/FarmerInput.tsx:52-59 | a submit on a fresh page is refused with no loading and no result |
| FarmerInput.RestartedRecordingScenario | agri-proof-hub/src/pages/FarmerInput.tsx:33-49 | start, stop and restart a recording: the first, uncancelled auto-stop ends the second recording while its own auto-stop is still pending |
| FarmerInput.ResultPersistsScenario | agri-proof-hub/src/pages/FarmerInput.tsx:22-78 | a result is never cleared: it survives a new upload, an empty file change, an auto-stop and a refused submit |

## Left out

- Rendering: JSX markup, CSS classes, lucide icons and the hard-coded metric cards are presentation only. Only what a row or card shows is modelled.
- Strings are modelled as sequences of Unicode characters, not of UTF-16 code units. `Dashboard.Initial` and `FarmerInput.UpperCase` match JavaScript's `charAt(0)` and `toUpperCase` only on the inputs the code passes them: the ASCII fixture names and base-36 digits. A name starting outside the Basic Multilingual Plane, or a letter such as "ß" whose upper case is longer, is not modelled.
- Timing: the 3000 ms and 2000 ms delays and the browser event loop are not modelled. A pending callback may fire at any point after it is scheduled.
- `Math.random().toString(36)`: this is floating point plus library formatting. Its text is a parameter of `CompletionFires`, constrained to the shapes it can take ("0", or "0." followed by base-36 digits).
- Notifications (`toast`), the router (`useNavigate`, `useLocation`) and the auth hook (`useAuth`) are external collaborators. Notifications and navigation targets are returned as values. `user` is a boolean. `signOut` is the `SignOut` action.
- The Home button (`navigate("/")`) is not modelled. It always navigates to the constant path `"/"`.
- Unmounting the page while a timer is pending: the model keeps one page instance alive.
- agri-proof-hub/src/pages/Register.tsx is not part of this model. Its submit handler only sequences calls into the external sign-up hook. Its password minimum is the browser's `minLength` attribute, not code.
- agri-proof-hub/src/pages/Index.tsx is not part of this model. It is a static card list whose clicks only navigate.
- `handleLogout` in the dashboard is not modelled. It only sequences external calls (sign-out, notify, navigate).
- The date column of the proof table: `new Date(...).toLocaleDateString()` is locale-dependent library formatting. The model shows the stored date string.
