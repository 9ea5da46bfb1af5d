# Mine Guard Hub: a Dafny model of the client-side logic

Mine Guard Hub is a browser dashboard for watching rockfall risk at mining
sites. Nearly all of it is page markup, demo data and calls to a hosted
backend. This project models the small part that does real work on the
client, and proves properties of it:

- **Auth** (`auth.dfy`): the session state the auth hook keeps. It holds the
  user, the session, the profile row, the role grants and a loading flag.
  `AuthState` has the auth-change listener, the answer to the
  `getSession()` check that runs each time the hook's effect runs,
  `refreshProfile` and `signOut` as methods. `HasRole` and
  `IsAdmin` are pure queries over the grants. Roles are the schema's closed
  `app_role` enumeration (`schema.dfy`).
- **AccessGate** (`access_gate.dfy`): the protected-route decision. It shows a
  skeleton while loading. It redirects to `/auth` (replacing history) when
  there is no user or no profile. Otherwise it renders the children. A few
  client methods replay sign-in, sign-out and stale-refresh sequences on an
  `AuthState`.
- **Alerts** (`alerts.dfy`): the alert list and the preference map as a class.
  It acknowledges and resolves alerts by id and updates one preference at a
  time. It also has the status/severity filter with case-insensitive search,
  the four summary counts and the two badge lookups.
- **RiskMap** (`risk_map.dfy`): the map's point filter. It combines a risk level
  with four optional inclusive bounds kept as text. There is also the
  filter-record class with change and reset, and the marker colour.
- **AuditLogs** (`audit_logs.dfy`) and **Mines** (`mines.dfy`): case-insensitive
  substring search combined with an exact action filter, the badge lookups,
  the count label, and the staff/sector totals as left folds.
- **DataUpload** (`data_upload.dfy`): extension extraction
  (`name.split('.').pop()`), `sector_id` defaulting, the inserted row, and
  `handleUpload`'s sequence of state changes as a class method.

The shared modules `text.dfy` (ASCII lower-casing, `includes`, `split`/`join`)
and `lists.dfy` (`filter` with its subsequence and membership facts, and
`reduce` as a left fold held to a right-recursive sum) carry the proofs that
the page modules reuse.

Backend answers are method arguments. This covers the session in an
auth-change event, what the profile and role queries return or throw, the
storage and insert errors, the public URL, the user id and the profile's
mine id. `parseFloat` is a function parameter `parse: string -> Option<real>`,
and `None` stands for NaN. `Date.now()` in the stored file name is a string
parameter `stamp`.

Three behaviours of the auth hook are easy to misread, and the model keeps
them as the code has them:

- **`refreshProfile`.** A role lookup that fails after a profile row arrived
  keeps the new profile next to the old grants (src/hooks/useAuth.ts:66-77):
  the profile is stored before the role query runs, and a thrown role query
  goes straight to the catch.
- **Empty role list.** An empty role array is truthy in JavaScript. So a role
  query returning `[]` replaces the grants with `[]`.
- **`signOut`.** `signOut` clears only the profile and the grants, and only
  once the backend call has resolved (src/hooks/useAuth.ts:140-144). The user
  and session stay until the listener hears about the sign-out. A profile
  refresh run in that window, while the user is still set, stores a profile
  again (`AccessGate.StaleRefreshAfterSignOut`).

## Model

| member | source | states |
|---|---|---|
| `Schema.ParseRole` | src/integrations/supabase/types.ts:557 | a name reads back only as the role it names; names of no role give None |
| `Schema.ParseRoleName` | src/integrations/supabase/types.ts:426 | every role's stored name reads back as that role |
| `Auth.HasRole` | src/hooks/useAuth.ts:146-148 | true iff some grant in the list is for the role; false on the empty list |
| `Auth.HasRoleNamed` | src/hooks/useAuth.ts:146-148 | asking with a name string matches iff the name is a role's name and that role is granted; unknown names never match |
| `Auth.IsAdmin` | src/hooks/useAuth.ts:150 | true iff some grant is for mine_admin or super_admin |
| `Auth.PlannersAndWorkersAreNotAdmins` | src/hooks/useAuth.ts:150 | grants for planners and workers only (or none) never make an admin |
| `Auth.AuthState.constructor` | src/hooks/useAuth.ts:50-54 | starts with no user, session or profile, no grants, and loading |
| `Auth.AuthState.OnAuthChange` | src/hooks/useAuth.ts:86-102 | mirrors the session and its user and ends loading; a null session clears profile and grants, a session keeps them until a refresh |
| `Auth.AuthState.ApplyExistingSession` | src/hooks/useAuth.ts:105-113 | mirrors the session `getSession()` reports (on every run of the effect) and its user and ends loading, never clearing profile or grants |
| `Auth.AuthState.RefreshProfile` | src/hooks/useAuth.ts:56-82 | no user, a missing row or a thrown profile query changes nothing; a returned row is stored, and the grants are replaced only by returned role data |
| `Auth.AuthState.SignOut` | src/hooks/useAuth.ts:140-144 | once the backend call resolves, profile cleared and grants emptied; if it rejects, both stay as they were; user, session and loading untouched either way |
| `AccessGate.Gate` | src/components/ProtectedRoute.tsx:13-40 | skeleton iff loading; children iff not loading with both user and profile; every other case redirects to /auth with replace, including a user without a profile |
| `AccessGate.GateOf` | src/components/ProtectedRoute.tsx:11-40 | the hook's state reaches the children only with a user and a profile |
| `AccessGate.SignInScenario` | src/hooks/useAuth.ts:86-150 | a session, a found profile and a mine_admin grant make the user an admin and admit them |
| `AccessGate.SignedOutScenario` | src/hooks/useAuth.ts:96-100 | a null session empties profile and grants at once, so the user is not an admin and is redirected to /auth |
| `AccessGate.StaleRefreshAfterSignOut` | src/hooks/useAuth.ts:56-144 | a refresh run after signOut while the user is still set stores the profile again and admits the user |
| `Alerts.SeverityBadge` | src/pages/Alerts.tsx:109-117 | high is danger, medium is caution, low is safe, each iff; info and anything else default |
| `Alerts.StatusBadge` | src/pages/Alerts.tsx:119-125 | active is danger, resolved is safe, each iff; anything else default |
| `Alerts.FilteredAlerts` | src/pages/Alerts.tsx:127-132 | an order-preserving subsequence holding exactly the alerts that pass filter and search, each as many times as in the list; kept alerts have the filtered status or severity unless the filter is "all" |
| `Alerts.ShowAllKeepsEverything` | src/pages/Alerts.tsx:127-132 | the "all" filter with an empty search keeps every alert |
| `Alerts.SearchIgnoresTermCase` | src/pages/Alerts.tsx:129-130 | the search term's case does not change the result |
| `Alerts.Acknowledge` | src/pages/Alerts.tsx:134-138 | same length and order; alerts with the id become acknowledged with all else kept; other alerts unchanged |
| `Alerts.AcknowledgeIdempotent` | src/pages/Alerts.tsx:135-137 | acknowledging twice equals acknowledging once |
| `Alerts.AcknowledgeKeepsCounts` | src/pages/Alerts.tsx:134-138 | acknowledging leaves every status count and the high-severity count unchanged |
| `Alerts.Resolve` | src/pages/Alerts.tsx:140-144 | alerts with the id become resolved with all else kept, others unchanged; acknowledged never changes |
| `Alerts.ResolveAbsent` | src/pages/Alerts.tsx:140-144 | resolving an id no alert has leaves the list as it was |
| `Alerts.ResolveActiveMovesCount` | src/pages/Alerts.tsx:140-144 | with unique ids, resolving an active alert raises the resolved count by one and lowers the active count by one |
| `Alerts.ResolveKeepsAcknowledgedCount` | src/pages/Alerts.tsx:140-144 | resolving leaves the acknowledged count unchanged |
| `Alerts.AcknowledgeNewRaisesCount` | src/pages/Alerts.tsx:134-138 | with unique ids, acknowledging an unacknowledged alert raises the acknowledged count by one |
| `Alerts.StatusCount` | src/pages/Alerts.tsx:292-316 | the "Active Alerts" and "Resolved Today" cards: a count of alerts with the status, at most the list's length |
| `Alerts.HighCount` | src/pages/Alerts.tsx:304 | the "High Priority" card: a count of high-severity alerts, at most the list's length |
| `Alerts.AcknowledgedCount` | src/pages/Alerts.tsx:328 | the "Acknowledgments" card: a count of acknowledged alerts, at most the list's length |
| `Alerts.CountExtremes` | src/pages/Alerts.tsx:292-328 | each card's count is zero iff no alert qualifies and equals the list's length iff every alert does |
| `Alerts.AlertBoard.constructor` | src/pages/Alerts.tsx:103-104 | starts from the page's demo alerts and preferences |
| `Alerts.AlertBoard.AcknowledgeAlert` | src/pages/Alerts.tsx:134-138 | the list becomes its acknowledged version; preferences untouched |
| `Alerts.AlertBoard.ResolveAlert` | src/pages/Alerts.tsx:140-144 | the list becomes its resolved version; preferences untouched |
| `Alerts.AlertBoard.UpdatePreference` | src/pages/Alerts.tsx:146-148 | the key is set to the value (added if new), every other preference kept, the alerts untouched |
| `RiskMap.Filters.Set` | src/pages/RiskMap.tsx:148-150 | the chosen field gets the value and every other field is kept |
| `RiskMap.FiltersExtensional` | src/pages/RiskMap.tsx:39-48 | a filter record is determined by its eight fields |
| `RiskMap.InitialFilters` | src/pages/RiskMap.tsx:39-48 | the start record: both selects "all", every date and bound field empty (the same record `resetFilters` writes at :157-166) |
| `RiskMap.Keep` | src/pages/RiskMap.tsx:98-105 | the callback keeps a point iff it matches the risk level (unless "all") and lies within each given inclusive bound, an empty or NaN bound holding of everything |
| `RiskMap.FilteredPoints` | src/pages/RiskMap.tsx:98-105 | an order-preserving subsequence holding exactly the points the callback keeps, each as many times as in the list |
| `RiskMap.KeptIffWithinBounds` | src/pages/RiskMap.tsx:99-103 | a point is kept iff it matches the risk level (unless "all") and lies within each given bound, bounds included |
| `RiskMap.InitialFiltersKeepAll` | src/pages/RiskMap.tsx:39-48 | the start and reset record keeps every point, whatever parseFloat does |
| `RiskMap.DatesAndBlastStageIgnored` | src/pages/RiskMap.tsx:98-105 | dateFrom, dateTo and blastStage have no effect on the kept points |
| `RiskMap.UnparsableBoundIgnored` | src/pages/RiskMap.tsx:100-103 | a bound parseFloat reads as NaN filters like an empty bound |
| `RiskMap.MarkerColour` | src/pages/RiskMap.tsx:108 | high is #ef4444, medium is #f59e0b, any other risk #22c55e |
| `RiskMap.CriticalDrawnLikeLow` | src/pages/RiskMap.tsx:108 | the schema's critical level gets the same green as low |
| `RiskMap.MapFilters.constructor` | src/pages/RiskMap.tsx:39-48 | starts with the initial filter record |
| `RiskMap.MapFilters.HandleFilterChange` | src/pages/RiskMap.tsx:148-150 | only the named field changes, to the value |
| `RiskMap.MapFilters.ResetFilters` | src/pages/RiskMap.tsx:156-168 | the record is exactly the initial one again |
| `AuditLogs.ActionColor` | src/pages/AuditLogs.tsx:60-69 | CREATE and DEPLOY default, UPDATE secondary, DELETE destructive, ACKNOWLEDGE and unknown actions outline |
| `AuditLogs.FilteredLogs` | src/pages/AuditLogs.tsx:71-76 | an order-preserving subsequence holding exactly the logs whose lower-cased description or user contains the lower-cased term and whose action matches unless "all", each as many times as in the list |
| `AuditLogs.ShowAllKeepsEverything` | src/pages/AuditLogs.tsx:71-76 | an empty search with the "all" filter keeps every log |
| `AuditLogs.SearchIgnoresTermCase` | src/pages/AuditLogs.tsx:72-73 | the search term's case does not change the result |
| `AuditLogs.EntryLabel` | src/pages/AuditLogs.tsx:120 | "entry" iff exactly one log is shown, "entries" otherwise |
| `Mines.FilteredMines` | src/pages/Mines.tsx:59-62 | an order-preserving subsequence holding exactly the mines whose lower-cased name or location contains the lower-cased term, each as many times as in the list |
| `Mines.EmptySearchKeepsEverything` | src/pages/Mines.tsx:59-62 | an empty search keeps every mine |
| `Mines.SearchIgnoresTermCase` | src/pages/Mines.tsx:59-62 | the search term's case does not change the result |
| `Mines.RiskBadge` | src/pages/Mines.tsx:64-71 | after lower-casing: low safe, medium caution, high danger, each iff; else default |
| `Mines.StatusBadge` | src/pages/Mines.tsx:73-80 | after lower-casing: active safe, maintenance caution, inactive danger, each iff; else default |
| `Mines.BadgesIgnoreCase` | src/pages/Mines.tsx:64-80 | both badges give the same answer for a string and its lower-cased form |
| `Mines.TotalStaff` | src/pages/Mines.tsx:154 | the left fold from 0 equals the sum of staff over the mines |
| `Mines.TotalSectors` | src/pages/Mines.tsx:164 | the left fold from 0 equals the sum of sectors over the mines |
| `Mines.TotalsOfAppend` | src/pages/Mines.tsx:154-164 | one more mine raises each total by exactly its own figure |
| `Mines.StaffTotalBoundsEachMine` | src/pages/Mines.tsx:154 | with non-negative staff, every mine's staff lies between 0 and the total |
| `Lists.Filter` | src/pages/Alerts.tsx:127 | the shared `filter`: kept elements satisfy the predicate and form a subsequence |
| `Lists.FilterMembers` | src/pages/Mines.tsx:59 | an element is kept iff it is in the list and satisfies the predicate |
| `Lists.FilterCount` | src/pages/Mines.tsx:59 | every copy of an element that satisfies the predicate is kept, and no copy of one that does not |
| `Lists.FilterLength` | src/pages/Alerts.tsx:292 | the filtered list is empty iff no element passes, and as long as the list iff every element passes |
| `Lists.Reduce` | src/pages/Mines.tsx:154 | a left fold from acc equals acc plus the right-recursive sum |
| `Text.Contains` | src/pages/Mines.tsx:60-61 | `includes` holds iff the needle occurs at some position |
| `Text.Lower` | src/pages/Mines.tsx:60-61 | same length; each character is lower-cased, ASCII capitals mapped to their small letters and everything else kept |
| `Text.LowerIdempotent` | src/pages/Mines.tsx:60-61 | lower-casing twice equals lower-casing once |
| `Text.Split` | src/pages/DataUpload.tsx:57 | at least one piece, and no piece holds the separator |
| `Text.LastPiece` | src/pages/DataUpload.tsx:57 | `pop()` of the split: a separator-free suffix, the whole string when the separator is absent, otherwise preceded by a separator |
| `Text.JoinSplit` | src/pages/DataUpload.tsx:57 | joining the split pieces with the separator gives back the name |
| `DataUpload.FileExtension` | src/pages/DataUpload.tsx:57 | a dot-free suffix of the name; the whole name when there is no dot, otherwise what follows the last dot |
| `DataUpload.ExtensionUnique` | src/pages/DataUpload.tsx:57 | any dot-free suffix that is the whole name or follows a dot is the extension, so the contract fixes the result |
| `DataUpload.StorageName` | src/pages/DataUpload.tsx:58 | the stored name starts with the stamp followed by a dot |
| `DataUpload.StorageNameKeepsExtension` | src/pages/DataUpload.tsx:57-58 | the stored name has the chosen file's extension, whatever the stamp holds |
| `DataUpload.SectorIdField` | src/pages/DataUpload.tsx:82 | an empty sector id becomes null, any other one is kept unchanged |
| `DataUpload.UploadRowOf` | src/pages/DataUpload.tsx:80-89 | the row carries the file's name, size and type, the form's notes and defaulted sector id, the user id, the mine id and the public URL |
| `DataUpload.UploadPage.constructor` | src/pages/DataUpload.tsx:14-19 | starts not uploading, with no file and an empty form |
| `DataUpload.UploadPage.HandleFileChange` | src/pages/DataUpload.tsx:21-25 | the first chosen file is selected; an empty choice keeps the old one |
| `DataUpload.UploadPage.SetSectorId` | src/pages/DataUpload.tsx:150 | writes the sector id and keeps the notes |
| `DataUpload.UploadPage.SetNotes` | src/pages/DataUpload.tsx:168 | writes the notes and keeps the sector id |
| `DataUpload.UploadPage.HandleUpload` | src/pages/DataUpload.tsx:40-112 | no file: toast only and nothing else changes; with a file it stores it as stamp.extension; a failed store or a failed user or profile lookup shows that failure and inserts nothing; the row is inserted only after both succeed; the file and form clear only on success; uploading ends false on every path |

## Left out

- Backend calls (`supabase.auth.*`, table selects and inserts, storage upload and `getPublicUrl`) are not modelled. Their answers are method arguments instead.
- `signUp` and `signIn` (src/hooks/useAuth.ts:118-138) only forward to the backend and return its error. They change no local state, so they are left out.
- The `useAuth` context accessor (src/hooks/useAuth.ts:41-47) is left out. It is a React context lookup.
- Timing and concurrency are left out. This covers the `setTimeout` deferral of the refresh, the effect re-subscribing on every change of `user`, the unsubscription, and stale closures (src/hooks/useAuth.ts:93-95, 115-116; src/pages/RiskMap.tsx:167). The listener's scheduled refresh is a separate later call of `RefreshProfile`, and that call reads the current user, not the user a stale closure captured.
- `Auth.AuthState.RefreshProfile`: the user check (src/hooks/useAuth.ts:57), the awaited queries (:60-76) and the state writes (:67, :76) happen in one step. So a refresh that passes the check, is overtaken by the listener clearing the user, and then still writes its profile is not modelled. Both the model (`ApplyExistingSession(None)`) and the source (src/hooks/useAuth.ts:105-107) can clear the user while a profile is stored. What the model cannot express is a refresh already in flight writing its profile after the listener cleared the user.
- `Auth.HasRole`: it takes an `AppRole`, not a string. `Auth.HasRoleNamed` is the string form, and its contract shows that an unknown name never matches.
- `Text.Lower`: models `toLowerCase` on ASCII letters only. Other Unicode case mappings, including ones that change a string's length, are not modelled.
- `parseFloat` itself is a parameter. It is not defined here.
- `RiskMap.MapFilters.HandleFilterChange`: the key is the closed set of eight fields, because the page only passes those literals. Adding an unknown property to the record is not modelled.
- Leaflet is left out: map construction, tile layers, `changeMapLayer`, marker drawing and popups, and the `updateMarkers` loop. `applyFilters` only redraws. The model gives the points a filter record selects, not when the map is redrawn.
- The pages' demo arrays of mines, audit logs and risk points are not modelled. The pure functions take the list as an argument. Only the alerts' demo data is kept, because it is the alert board's initial state.
- The Alerts page's `filter`, `searchTerm` and `isSettingsOpen` setters are left out. They are plain bindings to inputs, and `FilteredAlerts` takes the filter and term as arguments.
- The placeholder EXIF extraction and its spread into the row (src/pages/DataUpload.tsx:27-38, 89) are left out. So are the file size display and the toast rendering.
- `Mines.TotalStaff`: computed over unbounded integers. JavaScript numbers are doubles, but they are exact for these totals.
- Settings, login, routing, layout and the display-only pages are not part of this model.
