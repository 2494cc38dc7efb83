# react-launchpad core logic in Dafny

This project models the client-side decision logic of the react-launchpad
starter and proves properties about it:

- the session store (`AuthProvider`): hydration from browser storage, `login`,
  `logout` and `updateUser`;
- the three route guards (`AuthGuard`, `GuestGuard`, `RoleGuard`) and the
  admin-area instance of `RoleGuard`;
- the feature-flag store (overrides, then the remote provider, then the
  defaults), `initFeatureFlags`, and the `FeatureFlag` / `FeatureFlagOff`
  render decisions;
- the UI store (sidebar and theme) and its persisted projection;
- the logger: level filter, console call, breadcrumb and capture routing,
  `error` argument normalisation and child-logger context merging;
- the notification query keys and the list request's query string;
- `getTimeAgo` of a notification;
- the Web Vitals monitor: the per-name metric upsert and the overall score;
- the three mock servers (auth, notifications, users), each an in-memory
  database with its handlers.

Each source file has its own module: `AuthContext`, `Guards`, `FeatureFlags`,
`FeatureFlagView`, `UiSlice`, `Logging`, `NotificationQueries`, `TimeAgo`,
`Performance`, `MockAuth`, `MockNotifications` and `MockUsers`. Shared
records are in `AuthTypes` and `NotificationTypes`. The JavaScript built-ins
the code relies on live in `Seqs` (`filter`, `findIndex`, `splice`, `slice`),
`Sorting` (`Array.prototype.sort` with a comparator) and `Text` (number to
text, `toLowerCase`, `includes`, string comparison). `Wrappers` holds `Option`.

The state the source updates in place is modelled as classes with
`modifies` clauses:

- the session store, the flag store, the UI store and the monitor's state;
- the `currentUser`, `mockNotifications` and `mockUsers` variables of the mock
  servers.

Pure decisions are modelled as functions. Effects, meaning console and error
tracking calls, are returned as a sequence of events. Storage is a
`map<string, string>`. `JSON.parse`, `JSON.stringify`, the clock, random ids
and the build mode are passed in as parameters.

## Model

| member | source | states |
|---|---|---|
| AuthContext.Hydrate | src/core/auth/context.tsx:21-40 | Never loading. Authenticated exactly when the token and the user text are both truthy and the text parses, with the parsed user. Otherwise logged out. Storage loses both keys only when the user text fails to parse, and is untouched otherwise. |
| AuthContext.HydrateIdempotent | src/core/auth/context.tsx:21-40 | Hydrating the storage that a hydration left behind yields the same state and storage. |
| AuthContext.LoginThenHydrate | src/core/auth/context.tsx:42-46 | After `login`, a reload whose parser reads back the serialized user restores exactly the session `login` set. |
| AuthContext.LogoutThenHydrate | src/core/auth/context.tsx:48-52 | After `logout`, the next hydration is logged out and leaves the storage as it is. |
| AuthContext.NullUserHydratesAuthenticated | src/core/auth/context.tsx:25-32 | A stored user text parsing to `null` yields an authenticated session with no user, which breaks the user/authenticated link. |
| AuthContext.HydrateWithUserConsistent | src/core/auth/context.tsx:25-32 | A hydration that yields a user is authenticated. |
| AuthContext.AuthProvider.constructor | src/core/auth/context.tsx:21-40 | The mounted provider holds the hydration's state and storage and is not loading. |
| AuthContext.AuthProvider.Login | src/core/auth/context.tsx:42-46 | Stores the token and the serialized user under their keys. Sets an authenticated, non-loading session with that user. |
| AuthContext.AuthProvider.Logout | src/core/auth/context.tsx:48-52 | Removes both keys and sets the logged-out session. |
| AuthContext.AuthProvider.UpdateUser | src/core/auth/context.tsx:54-57 | Rewrites only the user key and replaces only the user. The authentication and loading flags are kept, so when logged out the session ends up with a user but not authenticated. |
| Guards.AuthGuard | src/app/router/guards/AuthGuard.tsx:12-29 | Pending exactly when loading. Allow exactly when loaded and authenticated. Otherwise a replacing redirect to the login page that carries the current location. |
| Guards.AuthGuardIgnoresUser | src/app/router/guards/AuthGuard.tsx:13 | The decision depends only on the loading and authenticated flags. |
| Guards.HomeFor | src/app/router/guards/GuestGuard.tsx:25-26 | The admin dashboard exactly for a present admin user; the dashboard otherwise, including for a null user. |
| Guards.GuestGuard | src/app/router/guards/GuestGuard.tsx:12-31 | Pending exactly when loading. Allow exactly when loaded and not authenticated, whatever the user field holds. Otherwise a replacing redirect to the role's home page. It never redirects to the login page. |
| Guards.RoleGuard | src/app/router/guards/RoleGuard.tsx:15-39 | Pending when loading. Login redirect when not authenticated. Allow exactly when authenticated with a user whose role is allowed. Otherwise a redirect to the fallback path, which defaults to the dashboard. |
| Guards.RoleGuardEmptyNeverAllows | src/app/router/guards/RoleGuard.tsx:34-38 | With no allowed roles the guard never allows. |
| Guards.RoleGuardLoginFirst | src/app/router/guards/RoleGuard.tsx:30-32 | An unauthenticated session goes to the login page, whatever the roles and fallback. |
| Guards.AdminAreaDecisions | src/app/router/routes.tsx:80 | In the admin area, a signed-in regular user is sent to the dashboard (not to login) and a signed-in admin is allowed. |
| Guards.LoginThenAuthGuard | src/app/router/guards/AuthGuard.tsx:24-28 | The session `login` produces passes `AuthGuard` on every path. |
| Guards.LogoutThenAuthGuard | src/app/router/guards/AuthGuard.tsx:24-26 | The session `logout` produces is redirected to login, remembering the location. |
| Guards.HydratedAdminSkipsGuestPages | src/app/router/guards/GuestGuard.tsx:23-27 | Storage holding a token and an admin user hydrates to a session that guest pages send to the admin dashboard. |
| Guards.HydratedNullUser | src/app/router/guards/RoleGuard.tsx:34-36 | A stored `null` user hydrates to a session that guest pages send to the dashboard, that the admin area sends to its fallback, and that `AuthGuard` lets through. |
| Guards.StrayUserIsStillGuest | src/core/auth/context.tsx:54-57 | After `updateUser` while logged out, every guard still treats the session as a guest. |
| FeatureFlags.IsFeatureEnabled | src/core/analytics/posthog.ts:92-95 | False when uninitialised, otherwise the SDK answer with undefined read as false. |
| FeatureFlags.GetFeatureFlag | src/core/analytics/posthog.ts:100-103 | Undefined when uninitialised, otherwise the SDK answer. |
| FeatureFlags.AsRemote | src/core/analytics/posthog.ts:92-103 | The wrapper as the store's remote source; its enabled answer is always defined. |
| FeatureFlags.FeatureFlagStore.constructor | src/core/feature-flags/store.ts:27-37 | All four flags off, no overrides, not loaded. |
| FeatureFlags.FeatureFlagStore.SetOverride | src/core/feature-flags/store.ts:39-43 | Inserts or replaces only that key's override; other overrides, the flags and the loaded flag are unchanged. |
| FeatureFlags.FeatureFlagStore.ClearOverrides | src/core/feature-flags/store.ts:45-47 | Empties the overrides and changes nothing else. |
| FeatureFlags.FeatureFlagStore.OnFlagsLoaded | src/core/feature-flags/store.ts:105-107 | The loaded callback sets `isLoaded` and changes nothing else. |
| FeatureFlags.FeatureFlagStore.IsEnabled | src/core/feature-flags/store.ts:49-65 | An override decides alone, with undefined read as false. Otherwise a defined remote answer decides. Otherwise the store's flag decides, and a missing flag reads as false. |
| FeatureFlags.FeatureFlagStore.GetValue | src/core/feature-flags/store.ts:67-84 | The override if there is one (possibly undefined); otherwise the remote value. The flags are never read. |
| FeatureFlags.InitFeatureFlags | src/core/feature-flags/store.ts:91-108 | With a config, its defaults are merged over the built-in defaults and its overrides replace the overrides wholesale. `isLoaded` is untouched. The loaded callback is registered exactly when the wrapper is initialised. |
| FeatureFlags.MergedDefaults | src/core/feature-flags/store.ts:93-97 | The merged defaults cover every key, taking the config's value where given and false elsewhere. |
| FeatureFlags.PostHogNeverReachesDefaults | src/core/feature-flags/store.ts:57-64 | With the wrapper as remote, `isEnabled` is the override or the wrapper's answer, so the default branch is unreachable. |
| FeatureFlags.UninitialisedPostHogIgnoresDefaults | src/core/feature-flags/store.ts:57-64 | Before the wrapper is initialised, a flag without an override is off even when its default is on. |
| FeatureFlags.GetValueIgnoresFlags | src/core/feature-flags/store.ts:67-84 | Two stores that differ only in their flags give the same `getValue`. |
| FeatureFlags.NoOverridesFallsThrough | src/core/feature-flags/store.ts:57-64 | After the overrides are cleared, `isEnabled` is the remote answer, else the store's flag. |
| FeatureFlags.OverrideWins | src/core/feature-flags/store.ts:52-55 | An override that is on beats a remote answer and a default that are both off. |
| FeatureFlags.SilentRemoteFallsToDefault | src/core/feature-flags/store.ts:63-64 | A remote with no answer falls through to the store's flag. |
| FeatureFlags.GetValueUndefinedWithoutSources | src/core/feature-flags/store.ts:77-83 | With no override and no remote value, `getValue` is undefined. |
| FeatureFlagView.FeatureFlag | src/core/feature-flags/FeatureFlag.tsx:32-44 | The children exactly when the flag is enabled. Otherwise the fallback, or nothing when none is given. |
| FeatureFlagView.FeatureFlagOff | src/core/feature-flags/FeatureFlag.tsx:68-76 | The children exactly when the flag is disabled, nothing otherwise. |
| FeatureFlagView.ExactlyOneShows | src/core/feature-flags/FeatureFlag.tsx:37-75 | For one flag, exactly one of the two components shows its children. |
| UiSlice.UiStore.constructor | src/core/store/slices/uiSlice.ts:17-18 | Sidebar open, system theme. |
| UiSlice.UiStore.ToggleSidebar | src/core/store/slices/uiSlice.ts:19-20 | Negates the sidebar flag and keeps the theme. |
| UiSlice.UiStore.SetSidebarOpen | src/core/store/slices/uiSlice.ts:21 | Sets the sidebar flag and keeps the theme. |
| UiSlice.UiStore.SetTheme | src/core/store/slices/uiSlice.ts:22 | Sets the theme and keeps the sidebar flag. |
| UiSlice.UiStore.Partialize | src/core/store/slices/uiSlice.ts:26 | The persisted projection holds the current theme. |
| UiSlice.PersistedIgnoresSidebar | src/core/store/slices/uiSlice.ts:24-27 | Two stores with the same theme persist the same thing, whatever their sidebars. |
| UiSlice.ToggleTwice | src/core/store/slices/uiSlice.ts:19-20 | Toggling twice restores the whole state. |
| Logging.Rank | src/core/monitoring/logger.ts:19-24 | Ranks 0 to 3, with 0 exactly for debug and 3 exactly for error. |
| Logging.RanksOrdered | src/core/monitoring/logger.ts:19-24 | debug < info < warn < error, so the ranks are distinct. |
| Logging.DefaultConfig | src/core/monitoring/logger.ts:26-30 | Minimum level debug in development and info otherwise. Console on. Remote on exactly in production. |
| Logging.MergeConfig | src/core/monitoring/logger.ts:35-37 | Each given field replaces the default one field by field; an empty config gives the defaults. |
| Logging.ShouldLogMonotone | src/core/monitoring/logger.ts:39-41 | A level that passes the filter lets every higher level pass; errors always pass. |
| Logging.FormatMessage | src/core/monitoring/logger.ts:43-46 | Exactly `[timestamp] [LEVEL] message` without a context; with one, that text, a space and the stringified context. |
| Logging.ConsoleArgOf | src/core/monitoring/logger.ts:69-81 | The error object exactly for an error entry carrying one. Otherwise the context if present, else the empty text. |
| Logging.BreadcrumbLevel | src/core/monitoring/logger.ts:91 | The entry's level, with warn spelled warning. |
| Logging.Captures | src/core/monitoring/logger.ts:96-104 | An error with an error object gives an exception capture. An error without one gives an error message capture, and warn a warning message capture. Debug and info give none. |
| Logging.ErrorOf | src/core/monitoring/logger.ts:125 | An error object exactly when the argument is one. |
| Logging.ErrorContext | src/core/monitoring/logger.ts:126-127 | For an error object, the given context. Otherwise an object holding the argument's fields and the context's, where the context wins on a clash. |
| Logging.MergeContext | src/core/monitoring/logger.ts:148-166 | The child's context under the call's, where the call wins on a clash and the keys are the union. |
| Logging.Logger.constructor | src/core/monitoring/logger.ts:35-37 | The configuration is the defaults merged with the given fields. |
| Logging.Logger.Emitted | src/core/monitoring/logger.ts:63-106 | Filtered entries emit nothing. Otherwise the console call comes first, then (when remote is on) the breadcrumb, then the captures. With remote off only console calls appear. |
| Logging.Logger.Log | src/core/monitoring/logger.ts:63-106 | The step-by-step dispatch emits exactly `Emitted`. |
| Logging.Logger.Debug | src/core/monitoring/logger.ts:108-110 | Emits the debug entry. |
| Logging.Logger.Info | src/core/monitoring/logger.ts:112-114 | Emits the info entry. |
| Logging.Logger.Warn | src/core/monitoring/logger.ts:116-118 | Emits the warn entry. |
| Logging.Logger.Error | src/core/monitoring/logger.ts:120-129 | Emits the error entry with the normalised error and context. |
| Logging.Logger.Child | src/core/monitoring/logger.ts:134-136 | A fresh child bound to this logger and the given context. |
| Logging.ChildLogger.constructor | src/core/monitoring/logger.ts:143-146 | Keeps the parent and the fixed context. |
| Logging.ChildLogger.Debug | src/core/monitoring/logger.ts:148-150 | The parent emits a debug entry with the merged context. |
| Logging.ChildLogger.Info | src/core/monitoring/logger.ts:152-154 | The parent emits an info entry with the merged context. |
| Logging.ChildLogger.Warn | src/core/monitoring/logger.ts:156-158 | The parent emits a warn entry with the merged context. |
| Logging.ChildLogger.Error | src/core/monitoring/logger.ts:160-166 | The parent emits an error entry whose context is the argument's fields under the merged context. |
| NotificationTypes.TypeName | src/features/notifications/types/index.ts:12 | Every type has a non-empty wire name. |
| NotificationTypes.TypeNameInjective | src/features/notifications/types/index.ts:12 | Distinct types have distinct wire names. |
| NotificationQueries.Lists | src/features/notifications/api/queries.ts:13 | `all` followed by one more element. |
| NotificationQueries.List | src/features/notifications/api/queries.ts:14-15 | Strictly extends `lists()` and ends with the filters. |
| NotificationQueries.UnreadCount | src/features/notifications/api/queries.ts:16 | Extends `all` but is not under `lists()`. |
| NotificationQueries.Detail | src/features/notifications/api/queries.ts:17 | Extends `all`, is not under `lists()`, and ends with the id. |
| NotificationQueries.ListKeyInjective | src/features/notifications/api/queries.ts:14-15 | Two list keys are equal exactly when their filters are. |
| NotificationQueries.GetNoneIffAbsent | src/features/notifications/api/queries.ts:24-28 | Reading a parameter yields nothing exactly when no pair has that name. |
| NotificationQueries.Set | src/features/notifications/api/queries.ts:25-28 | `set` makes the name read back as the value, and appends the pair when the name is new. |
| NotificationQueries.SetKeepsOthers | src/features/notifications/api/queries.ts:25-28 | `set` leaves every other name's value unchanged. |
| NotificationQueries.NameText | src/features/notifications/api/queries.ts:25-28 | Each parameter name has a non-empty text. |
| NotificationQueries.NameTextInjective | src/features/notifications/api/queries.ts:25-28 | The four parameter names have distinct texts. |
| NotificationQueries.SetParam | src/features/notifications/api/queries.ts:25-28 | One `params.set`: the value under the name, every other name unchanged, a new name appended. |
| NotificationQueries.BuildParams | src/features/notifications/api/queries.ts:24-28 | The names are `read` when given (even `false`), then `type` when given, then `page` and `limit` when non-zero, in that order. Each carries the text of its value and is absent otherwise. |
| TimeAgo.ElapsedSeconds | src/features/notifications/components/NotificationItem.tsx:168 | The floor of the elapsed milliseconds over 1000. |
| TimeAgo.Label | src/features/notifications/components/NotificationItem.tsx:170-174 | "Just now" below a minute, including the future. Minutes 1..59, hours 1..23 and days 1..6 with their suffixes. The locale date from a week on. |
| TimeAgo.LabelReadsBack | src/features/notifications/components/NotificationItem.tsx:171-173 | A minute, hour or day label is digits then the suffix, and the digits denote exactly the whole units elapsed. |
| Performance.Upsert | src/core/performance/usePerformanceMonitor.ts:34-37 | A known name keeps its position and takes the new metric; a new name is appended. Every other entry is kept, and looking the name up gives the new metric. |
| Performance.UpsertKeepsOthers | src/core/performance/usePerformanceMonitor.ts:34-37 | Looking up any other name gives the same answer as before. |
| Performance.UpsertUnique | src/core/performance/usePerformanceMonitor.ts:34-37 | The upsert keeps names unique, so only the latest metric per name is kept. |
| Performance.Score | src/core/performance/usePerformanceMonitor.ts:67-71 | At most 100; 100 exactly for good and 0 exactly for poor. |
| Performance.OverallScore | src/core/performance/usePerformanceMonitor.ts:63-74 | Null exactly without metrics. Otherwise in 0..100 and within one half of the mean score, which is rounding half up. |
| Performance.AllGoodScores100 | src/core/performance/usePerformanceMonitor.ts:73 | All metrics good gives an overall score of 100. |
| Performance.PerformanceMonitor.constructor | src/core/performance/usePerformanceMonitor.ts:28-30 | No metrics; loading exactly when enabled. |
| Performance.PerformanceMonitor.HandleMetric | src/core/performance/usePerformanceMonitor.ts:32-41 | The metrics become the upsert of the new one, names stay unique, and loading is unchanged. |
| Performance.PerformanceMonitor.VitalsReported | src/core/performance/usePerformanceMonitor.ts:43-51 | Loading ends only when monitoring is enabled; the metrics are unchanged. |
| MockAuth.Credentials | src/test/mocks/handlers/auth.ts:43-62 | Accepts exactly the admin and the user email with the shared password, checking admin first, and returns the matching account and token. |
| MockAuth.NewUser | src/test/mocks/handlers/auth.ts:74-82 | Role user, the given email and name, the avatar base followed by the name, and the two timestamps from the two clock reads. |
| MockAuth.MeReply | src/test/mocks/handlers/auth.ts:104-115 | 401 exactly without a `Bearer ` header. Otherwise 200 with the remembered user, or the default user when none is remembered. |
| MockAuth.BearerAccepted | src/test/mocks/handlers/auth.ts:106 | Any `Bearer ` header passes, whatever its token. |
| MockAuth.MeAfterLogin | src/test/mocks/handlers/auth.ts:110-111 | After a login, `me` returns exactly the account that logged in. |
| MockAuth.MeAfterLogout | src/test/mocks/handlers/auth.ts:114-115 | After a logout, `me` still returns the default account, not 401. |
| MockAuth.MockAuthServer.constructor | src/test/mocks/handlers/auth.ts:35 | No remembered user. |
| MockAuth.MockAuthServer.Login | src/test/mocks/handlers/auth.ts:39-63 | Known credentials remember the account and reply 200 with it and its token. Others reply 401 and change nothing. |
| MockAuth.MockAuthServer.Register | src/test/mocks/handlers/auth.ts:66-92 | Always replies 201 with a new regular user, who is remembered. |
| MockAuth.MockAuthServer.Logout | src/test/mocks/handlers/auth.ts:95-99 | Forgets the user and replies success. |
| MockAuth.MockAuthServer.Me | src/test/mocks/handlers/auth.ts:102-116 | Replies `MeReply` for the remembered user, always 401 or 200, and changes nothing. |
| MockNotifications.ByType | src/test/mocks/handlers/notifications.ts:72-76 | Without a non-empty type, the list unchanged. Otherwise exactly the stored entries of that type. |
| MockNotifications.ByRead | src/test/mocks/handlers/notifications.ts:79-84 | Without a `read` parameter, the list unchanged. Otherwise exactly the entries whose read flag equals (parameter is `true`). |
| MockNotifications.SelectedExactly | src/test/mocks/handlers/notifications.ts:72-84 | An entry is selected exactly when it is stored and passes each given filter. |
| MockNotifications.NewestFirstIsTotalPreorder | src/test/mocks/handlers/notifications.ts:87-90 | The newest-first comparator is total and transitive. |
| MockNotifications.ListedNewestFirst | src/test/mocks/handlers/notifications.ts:87-90 | The sorted selection is newest first and a permutation of the selection. |
| MockNotifications.SeedListedInOrder | src/test/mocks/handlers/notifications.ts:10-56 | The seed is already newest first, so sorting it changes nothing. |
| MockNotifications.SeedUniqueIds | src/test/mocks/handlers/notifications.ts:10-56 | The seed ids are distinct. |
| MockNotifications.MarkOneUnreadCount | src/test/mocks/handlers/notifications.ts:147 | Marking one entry read lowers the unread count by one exactly when it was unread. |
| MockNotifications.NoneUnreadWhenAllRead | src/test/mocks/handlers/notifications.ts:154 | After every entry is read, nothing is unread. |
| MockNotifications.RemovedIdIsGone | src/test/mocks/handlers/notifications.ts:171 | With unique ids, the removed id no longer occurs and the ids stay unique. |
| MockNotifications.NotificationsDb.constructor | src/test/mocks/handlers/notifications.ts:10-56 | The database starts as the seed at the given instant. |
| MockNotifications.NotificationsDb.List | src/test/mocks/handlers/notifications.ts:60-109 | The total is the size of the selection. The data is the requested page (defaults 1 and 10) of the selection sorted newest first. The unread count covers the whole database. |
| MockNotifications.NotificationsDb.UnreadCount | src/test/mocks/handlers/notifications.ts:112-116 | The number of unread entries, at most the number of entries. |
| MockNotifications.NotificationsDb.Get | src/test/mocks/handlers/notifications.ts:119-132 | A reply exactly when some entry has the id, and then the first stored entry with that id. |
| MockNotifications.NotificationsDb.MarkRead | src/test/mocks/handlers/notifications.ts:135-149 | Sets read on the first entry with the id only and returns it. Without one, 404 and nothing changes. |
| MockNotifications.NotificationsDb.MarkAllRead | src/test/mocks/handlers/notifications.ts:152-156 | Same length and order, every entry read, nothing else changed. |
| MockNotifications.NotificationsDb.Delete | src/test/mocks/handlers/notifications.ts:159-173 | Found exactly when some entry has the id, and then only the first such entry is removed. Otherwise nothing changes. |
| MockNotifications.NotificationsDb.ClearAll | src/test/mocks/handlers/notifications.ts:176-180 | The list becomes empty. |
| MockUsers.OrDefault | src/test/mocks/handlers/users.ts:72-76 | The parameter when present and non-empty, the fallback otherwise. |
| MockUsers.SelectedExactly | src/test/mocks/handlers/users.ts:80-98 | A record is listed exactly when it is stored, matches the search term, and has the given role and status (each filter only when given). |
| MockUsers.OrderIsTotalPreorder | src/test/mocks/handlers/users.ts:101-106 | The field comparator, ascending or descending, is total and transitive. |
| MockUsers.ListedInOrder | src/test/mocks/handlers/users.ts:101-106 | The sorted records are ordered by the sort field and are a permutation of the input. |
| MockUsers.TotalPages | src/test/mocks/handlers/users.ts:110 | Undefined (infinite or NaN) exactly for a zero limit. For a positive limit, the least page count covering the total. |
| MockUsers.NewUser | src/test/mocks/handlers/users.ts:143-153 | Missing texts become empty and a missing role becomes `user`. Status is pending, the avatar is the avatar base followed by the first name (`undefined` when absent), and the two timestamps come from the two clock reads. |
| MockUsers.Overlay | src/test/mocks/handlers/users.ts:170-174 | `updatedAt` is refreshed; each of the other eight fields takes the body's value when the body gives one and keeps the stored value otherwise. |
| MockUsers.EmptyPatchOnlyTouches | src/test/mocks/handlers/users.ts:170-174 | An empty body changes only `updatedAt`. |
| MockUsers.OverlayIdempotent | src/test/mocks/handlers/users.ts:170-174 | Applying the same update twice is the same as once. |
| MockUsers.UsersDb.constructor | src/test/mocks/handlers/users.ts:6-62 | The database starts as the five seeded records. |
| MockUsers.UsersDb.List | src/test/mocks/handlers/users.ts:66-123 | The total is the size of the selection, and page and limit default to 1 and 10. The page count is `TotalPages`. The data is the page of the selection sorted by the sort field, which defaults to createdAt, descending unless the order says otherwise. |
| MockUsers.UsersDb.Get | src/test/mocks/handlers/users.ts:126-136 | A reply exactly when some record has the id, and then the first stored record with that id. |
| MockUsers.UsersDb.Create | src/test/mocks/handlers/users.ts:139-157 | The new record is appended at the end and returned. |
| MockUsers.UsersDb.Update | src/test/mocks/handlers/users.ts:160-176 | Overlays the body on the first record with the id, in place, leaving the others unchanged, and returns it. Without one, 404 and nothing changes. |
| MockUsers.UsersDb.Delete | src/test/mocks/handlers/users.ts:179-190 | Found exactly when some record has the id, and then only the first such record is removed. Otherwise nothing changes. |
| Seqs.FilterMembers | src/test/mocks/handlers/notifications.ts:72-84 | `filter` keeps exactly the elements satisfying the test, as a sub-multiset. |
| Seqs.FilterCount | src/test/mocks/handlers/notifications.ts:72-84 | Each element satisfying the test is kept exactly as often as it occurs; every other element is dropped. |
| Seqs.FilterAppend | src/test/mocks/handlers/notifications.ts:72-84 | `filter` keeps the original order: filtering a concatenation is filtering each part and concatenating. |
| Seqs.FilterFilter | src/test/mocks/handlers/users.ts:91-98 | Two filters in a row equal one filter by the conjunction. |
| Seqs.FindIndex | src/test/mocks/handlers/users.ts:164 | The first index satisfying the test, or none exactly when no element does. |
| Seqs.RemoveAt | src/test/mocks/handlers/notifications.ts:171 | `splice(i, 1)`: one shorter, the same multiset less that element, the others in order. |
| Seqs.SliceIndex | src/test/mocks/handlers/users.ts:112 | `slice`'s index normalisation: negative counts from the end, then clamped to the length. |
| Seqs.JsSlice | src/test/mocks/handlers/users.ts:112 | A slice is no longer than its source and a sub-multiset of it. |
| Seqs.PageContents | src/test/mocks/handlers/users.ts:111-112 | For page ≥ 1 and limit ≥ 1, the page is the elements at positions [(page-1)*limit, page*limit), as many as exist. |
| Sorting.Sort | src/test/mocks/handlers/notifications.ts:87-90 | The sort is a permutation of its input. |
| Sorting.SortSorted | src/test/mocks/handlers/users.ts:101-106 | Under a total preorder, the sort's output is ordered. |
| Sorting.SortOfSorted | src/test/mocks/handlers/notifications.ts:87-90 | Sorting an ordered sequence changes nothing. |
| Text.NatToString | src/features/notifications/components/NotificationItem.tsx:171 | Non-empty digits without a leading zero. |
| Text.IntToString | src/features/notifications/components/NotificationItem.tsx:171 | Starts with a minus exactly for negative numbers. |
| Text.NatToStringRoundTrip | src/features/notifications/components/NotificationItem.tsx:171-173 | Reading the digits back gives the number. |
| Text.NatToStringInjective | src/features/notifications/components/NotificationItem.tsx:171-173 | Distinct counts give distinct texts. |
| Text.Lower | src/test/mocks/handlers/users.ts:84-86 | Same length, each letter lower-cased. |
| Text.LowerIdempotent | src/test/mocks/handlers/users.ts:84-86 | Lower-casing twice is lower-casing once. |
| Text.Includes | src/test/mocks/handlers/users.ts:84-86 | True exactly when the term occurs at some position. |
| Text.IncludesEmpty | src/test/mocks/handlers/users.ts:84-86 | Every text includes the empty term. |
| Text.LexLeTotal | src/test/mocks/handlers/users.ts:104 | Any two texts are comparable. |
| Text.LexLeTransitive | src/test/mocks/handlers/users.ts:104 | The comparison is transitive. |
| Text.LexLeAntisymmetric | src/test/mocks/handlers/users.ts:104 | Texts comparing both ways are equal. |

## Left out

- React, react-query and zustand machinery (hooks, context, subscriptions, caching, `persist`), msw routing, `delay` and HTTP response objects: each handler is a method returning its reply.
- `JSON.parse`, `JSON.stringify`, `new Date()`, `Date.now`, `toISOString`, `toLocaleDateString`, `crypto.randomUUID` and `import.meta.env` are parameters of the members that use them.
- The text of `STORAGE_KEYS.AUTH_TOKEN` and of the `ROUTES` constants: `@/config` is not part of this model. The token key is a named placeholder, and the routes are distinct datatype constructors.
- The users feature's `User` type (src/features/users) is not part of this model; its fields are taken as text.
- `parseInt` on query parameters: `page` and `limit` arrive already parsed, and `NaN` from a non-numeric parameter is not modelled.
- A field holding an explicit `undefined` is treated as absent when spread, both in a request body and in the logger config given to `new Logger(...)`. In the source such a field overrides the default or stored value with `undefined`.
- `localeCompare` is modelled as ordinal comparison of characters and `toLowerCase` as ASCII lower-casing. Locale rules and Unicode case folding are not modelled.
- `Array.prototype.sort` sorts in place. Here it is a function on sequences (an insertion sort), and `filteredNotifications`/`filteredUsers` are re-bound to its result.
- Sorting.Sort: the stability of the built-in sort (equal elements keep their order) is not stated.
- `URLSearchParams` serialisation into the request URL is not modelled. The four parameter names are an enumeration whose texts `NameText` gives.
- Metric values and the score mean are integers. `Math.round` is exact for the non-negative means that arise here, and the floating-point value of a metric is not modelled.
- `getFormattedMetrics`, `formatMetricValue`, `getMetricThresholds` and the `onMetric` callback of the performance monitor (float formatting and a caller's callback).
- The refresh, forgot-password and reset-password handlers of the mock auth server: they reply with constants and touch no state.
- A `createdAt` text that does not parse as a date: the source then computes with `NaN` and ends at the locale text of an invalid date. Here `createdAt` is always a valid instant.
- A stored user text that parses as JSON other than an object or `null` (a number, a string, an array): the source keeps that value as the user unchecked. Here the parse result is malformed text, `null`, or a user.
- The notification `metadata` field. `createdAt` is modelled as the millisecond instant its ISO text denotes.
- The logger's `createEntry` timestamp is a parameter. Console and error-tracking calls are returned as events, not performed.
- The client's `PATCH /notifications/read-all` and the mock's `POST /notifications/mark-all-read` differ in route; HTTP routing is not modelled.
- The session store is modelled as the code behaves, not as its documentation describes:
  - hydration leaves the storage untouched when the token or the user text is missing;
  - `updateUser` performs no authentication check;
  - a stored `null` user is authenticated.
