# RBAC console session and permission core, in Dafny

This project models the client-side logic of an administration console for a
role-based access control system: the permission evaluator that decides what
a user may see, the token holder with its single-flight refresh on HTTP 401
(section 15.5.2 of RFC 9110), the persisted authentication store, the toast
notification list, and three selection helpers of the admin pages.

- `types.dfy` (`Types`): the `User`, `Role` and `Permission` records, `Option`
  for `T | null`, JavaScript truthiness of a nullable string, and
  duplicate-freedom of a sequence.
- `permissions.dfy` (`Permissions`): `hasPermission`, `getUserPermissions`,
  `hasAnyPermission`, `hasAllPermissions`. Every answer is tied to one
  reference predicate, `Grants`: some role holds a permission of that name.
  `GetUserPermissions` keeps the source's nested loops that fill a `Set`.
- `api.dfy` (`Api`): the module variables `accessToken`, `refreshToken`,
  `isRefreshing` and `failedQueue` are the fields of a class `ApiClient`, and
  requests are objects whose `headers` and `_retry` flag the interceptors
  change in place. The asynchronous flow is a sequence of steps. A failed
  response enters `HandleResponseError`. The outcome of the refresh call
  arrives later as `RefreshSucceeded` or `RefreshFailed`. Each step returns
  what it did outside those variables as `Effect`s: the refresh call, the
  replay or rejection of a request, and the redirect to `/login`. The class
  invariant `Valid` is the single-flight rule: a refresh is outstanding
  exactly while `isRefreshing` holds, and waiters exist only then. The
  `Authorization` value follows section 2.1 of RFC 6750.
- `auth_store.dfy` (`Auth`): the `{user, isAuthenticated}` store with its
  invariant `isAuthenticated <==> user != null`, and the `partialize`
  snapshot with its rehydration.
- `toast_store.dfy` (`Toasts`): the toast list. The random id is a parameter.
  The timer is the delay that `AddToast` returns, followed by a later
  `RemoveToast` of that id.
- `user_roles.dfy` (`UserRoles`): the role-id list toggle of the users page.
- `role_permissions.dfy` (`RolePermissions`): the permission-id set toggle
  of the roles page, its initial value, and the array it submits.
- `permission_groups.dfy` (`PermissionGroups`): the `reduce` that groups
  permissions by resource on the permissions page, including the `TypeError`
  it throws when a resource is named after a member that the plain `{}`
  accumulator inherits from `Object.prototype`.

The model follows the code. Two of the source's comments promise more than
the code does, and two other behaviours are easy to miss:

- The comment at src/lib/api.ts:73 says a 401 triggers a refresh only when
  the request has not been retried yet. Only the request that starts a
  refresh gets `_retry`, though. A request that waited in the queue is
  replayed with `_retry` unset, so a second 401 on it starts another refresh
  (`Api.WaiterCanRefreshAgain`). The once-per-request limit holds only for
  the request that started the refresh.
- The comment at src/stores/authStore.ts:39 says the tokens live in httpOnly
  cookies. The client in src/lib/api.ts:26-27 holds them in memory, though,
  and attaches a bearer header whenever it holds an access token
  (src/lib/api.ts:40-42). Only that bearer-header configuration exists.
- A failed refresh drops both tokens and redirects (src/lib/api.ts:107-113).
  It does not clear the authentication store.
- The login page stores the refresh token in `localStorage` and never calls
  `setTokens` (src/routes/login.tsx:42). A client that has only logged in
  therefore holds no refresh token, and its first 401 takes the failure path
  at once (`Api.FirstUnauthorizedAfterLogin`).

## Model

| member | source | states |
|---|---|---|
| Permissions.AnyNamed | src/lib/permissions.ts:13 | the inner `some` is true exactly when some permission of the list has the name |
| Permissions.AnyRoleGrants | src/lib/permissions.ts:13 | the outer `some` over roles is true exactly when `Grants` holds |
| Permissions.HasPermission | src/lib/permissions.ts:6-14 | no user: false; superuser: true for every name, empty or unknown ones included; otherwise true iff some role has a permission of that name |
| Permissions.GetUserPermissions | src/lib/permissions.ts:19-33 | no user: `[]`; superuser: exactly `["*"]`; otherwise a duplicate-free list in which a name occurs iff `HasPermission` grants it |
| Permissions.HasAnyPermission | src/lib/permissions.ts:38-43 | no user: false; superuser: true; otherwise true iff some listed name is granted, hence false on an empty list for a non-superuser |
| Permissions.HasAllPermissions | src/lib/permissions.ts:48-53 | no user: false, even for an empty list; superuser: true; otherwise true iff every listed name is granted, hence vacuously true on an empty list |
| Permissions.AllImpliesAny | src/lib/permissions.ts:38-53 | for a non-empty list, holding all the names implies holding one of them |
| Permissions.RoleOrderIrrelevant | src/lib/permissions.ts:19-33 | two users with the same superuser flag and the same set of roles get the same answer for every name, whatever the order or repetition of their roles |
| Api.BearerValue | src/lib/api.ts:41 | the header value is `Bearer `, one space, then the token unchanged |
| Api.BearerRoundTrip | src/lib/api.ts:40-43 | the token can be read back out of the `Bearer <token>` value the interceptor writes |
| Api.SettleOne | src/lib/api.ts:56-62 | a waiter is resolved (its request replayed) when there is no error, and rejected with the error otherwise |
| Api.Settled | src/lib/api.ts:56-62 | one effect per waiter, in queue order, each replaying that waiter's request when there is no error and rejecting it with the error otherwise |
| Api.SettledUniform | src/lib/api.ts:55-64 | settling a queue yields one effect per waiter in queue order, every waiter replayed when there is no error, every waiter rejected with the one error otherwise |
| Api.ApiClient.constructor | src/lib/api.ts:26-53 | both tokens null, not refreshing, empty queue |
| Api.ApiClient.GetAccessToken | src/lib/api.ts:34 | returns the access token currently held |
| Api.ApiClient.GetRefreshToken | src/lib/api.ts:35 | returns the refresh token currently held |
| Api.ApiClient.SetTokens | src/lib/api.ts:29-35 | afterwards the getters return exactly the two given tokens |
| Api.ApiClient.AttachCredentials | src/lib/api.ts:38-46 | `Authorization` becomes `Bearer <accessToken>` iff the token is a non-empty string and a headers object exists; otherwise the headers are unchanged |
| Api.ApiClient.ProcessQueue | src/lib/api.ts:55-64 | the effects are the waiters settled with the one outcome, in FIFO order, and the queue is empty afterwards |
| Api.ApiClient.HandleResponseError | src/lib/api.ts:66-98 | non-401 or already retried: passed through with nothing changed (line 117); 401 while refreshing: one waiter appended, no refresh, `_retry` untouched; otherwise `_retry` and the flag set and exactly one refresh call with the held token, or, without a token, the failure path at once: tokens null, flag clear, redirect |
| Api.ApiClient.RefreshSucceeded | src/lib/api.ts:100-106 | tokens become the returned pair, the queue is resolved and emptied, the flag cleared; the original request is re-issued once, first, because it runs in the current job, and the waiters' replays follow in queue order, because `resolve()` only schedules their `.then` callbacks (lines 80-82) |
| Api.ApiClient.RefreshFailed | src/lib/api.ts:107-113 | the queue is rejected and emptied, the flag cleared, both tokens null, one redirect to `/login`, and the original request rejected with the same error |
| Api.ThreeConcurrentUnauthorized | src/lib/api.ts:74-106 | three 401s in one tick cause exactly one refresh call, and all three requests are replayed, the originator first and then the waiters in arrival order, carrying the new access token |
| Api.RefreshFailsWithTwoWaiting | src/lib/api.ts:74-113 | a failed refresh rejects both waiters and the originator, clears the tokens, and redirects exactly once |
| Api.SecondUnauthorizedPassesThrough | src/lib/api.ts:74-117 | a request that already started a refresh and fails with 401 again is passed through with no second refresh |
| Api.FirstUnauthorizedAfterLogin | src/lib/api.ts:88-93 | without `setTokens` no refresh token is held, so the first 401 fails at once with a redirect |
| Api.WaiterCanRefreshAgain | src/lib/api.ts:75-89 | a replayed waiter that fails with 401 again starts a new refresh, because its `_retry` was never set |
| Auth.AuthStore.constructor | src/stores/authStore.ts:16-17 | starts with no user, not authenticated, invariant holds |
| Auth.AuthStore.Login | src/stores/authStore.ts:19-24 | the user is the given one, authenticated, invariant holds |
| Auth.AuthStore.Logout | src/stores/authStore.ts:26-31 | no user, not authenticated, invariant holds |
| Auth.AuthStore.SetUser | src/stores/authStore.ts:33-35 | same resulting state as `Login` |
| Auth.AuthStore.Partialize | src/stores/authStore.ts:40-43 | the snapshot holds exactly `user` and `isAuthenticated` and no token; it is consistent whenever the store is |
| Auth.AuthStore.Rehydrate | src/stores/authStore.ts:37-44 | both persisted fields are restored; the invariant holds afterwards iff it held of the snapshot |
| Auth.ReloadAfterLogin | src/stores/authStore.ts:38-43 | the snapshot after a login holds exactly the user and `true`, and reloading it reproduces both fields |
| Auth.ReloadKeepsInvariant | src/stores/authStore.ts:37-44 | persisting a consistent store and reloading it gives a consistent store with the same snapshot |
| Auth.LogoutIdempotent | src/stores/authStore.ts:26-31 | logging out a second time leaves the same state as the first |
| Auth.SetUserIsLogin | src/stores/authStore.ts:19-35 | from the same state, `setUser(u)` and `login(u)` reach the same state |
| Toasts.AutoRemoveDelay | src/stores/toastStore.ts:29 | the timer delay is the given duration when it is present and non-zero, and 5000 otherwise, so it is never zero |
| Toasts.WithoutId | src/stores/toastStore.ts:36-39 | the survivors are exactly the toasts with another id, and the list is unchanged when the id is absent |
| Toasts.WithoutIdAppend | src/stores/toastStore.ts:38 | removal distributes over concatenation, so the survivors keep their order |
| Toasts.WithoutIdIdempotent | src/stores/toastStore.ts:36-39 | removing an id twice is removing it once |
| Toasts.AddThenExpire | src/stores/toastStore.ts:21-34 | when the new id is fresh, the timer's removal undoes exactly that addition |
| Toasts.ToastStore.constructor | src/stores/toastStore.ts:20 | the list starts empty |
| Toasts.ToastStore.AddToast | src/stores/toastStore.ts:21-35 | appends one toast with the given type, message, duration and id, earlier toasts unchanged; the timer delay is the duration when non-zero, else 5000 |
| Toasts.ToastStore.RemoveToast | src/stores/toastStore.ts:36-39 | the list becomes `WithoutId` of the old list |
| Toasts.ToastStore.ClearAll | src/stores/toastStore.ts:40 | the list is empty |
| Toasts.ToastStore.ShowSuccess | src/stores/toastStore.ts:48-49 | adds a toast of type success |
| Toasts.ToastStore.ShowError | src/stores/toastStore.ts:50 | adds a toast of type error |
| Toasts.ToastStore.ShowInfo | src/stores/toastStore.ts:51 | adds a toast of type info |
| Toasts.ToastStore.ShowWarning | src/stores/toastStore.ts:52-53 | adds a toast of type warning |
| Toasts.ShowTwoThenExpire | src/stores/toastStore.ts:21-39 | a zero duration falls back to 5000, and expiring one toast leaves the other |
| UserRoles.RemoveAll | src/routes/_authenticated/admin/users.tsx:129 | the filter drops every occurrence of the id, keeps every other id, and keeps duplicate-freedom |
| UserRoles.ToggleRole | src/routes/_authenticated/admin/users.tsx:127-131 | the id is present afterwards iff it was absent; an absent id is appended at the end; the other ids keep their relative order; duplicate-freedom is preserved |
| UserRoles.RemoveAllAppend | src/routes/_authenticated/admin/users.tsx:129 | the filter distributes over concatenation |
| UserRoles.ToggleAbsentTwice | src/routes/_authenticated/admin/users.tsx:127-131 | toggling an absent id twice returns the identical list |
| UserRoles.TogglePresentTwice | src/routes/_authenticated/admin/users.tsx:127-131 | toggling a present id twice returns the same ids with that id moved to the end |
| UserRoles.InitialSelection | src/routes/_authenticated/admin/users.tsx:107 | the dialog's selection starts as the user's role ids, in role order |
| RolePermissions.Toggled | src/routes/_authenticated/admin/roles.tsx:244-252 | membership of the clicked id flips and membership of every other id is unchanged |
| RolePermissions.ToggledTwice | src/routes/_authenticated/admin/roles.tsx:244-252 | two clicks on one id restore the set |
| RolePermissions.PermissionSelection.constructor | src/routes/_authenticated/admin/roles.tsx:240-242 | the selection starts as exactly the set of the role's permission ids |
| RolePermissions.PermissionSelection.TogglePermission | src/routes/_authenticated/admin/roles.tsx:244-252 | the stored set becomes `Toggled` of the old one |
| RolePermissions.PermissionSelection.HandleSubmit | src/routes/_authenticated/admin/roles.tsx:254-256 | the submitted array is duplicate-free and holds exactly the selected ids |
| PermissionGroups.OfResourceMembers | src/routes/_authenticated/admin/permissions.tsx:77-80 | a group holds exactly the permissions whose resource is its key |
| PermissionGroups.GroupStep | src/routes/_authenticated/admin/permissions.tsx:77-80 | one step creates a group only when its key is absent and appends to it, turning the grouping of a prefix into the grouping of the prefix extended by one permission |
| PermissionGroups.GroupStepSize | src/routes/_authenticated/admin/permissions.tsx:77-80 | one step adds exactly one to the total size of the groups, so an existing group is never reset |
| PermissionGroups.GroupStepAt | src/routes/_authenticated/admin/permissions.tsx:77-80 | after one step, the group of any key is the filter of the extended prefix on that key |
| PermissionGroups.GroupingComplete | src/routes/_authenticated/admin/permissions.tsx:75-84 | once the whole list is grouped, no group is empty and every permission sits in its resource's group |
| PermissionGroups.GroupByResource | src/routes/_authenticated/admin/permissions.tsx:75-84 | no list: no groups; a resource named after an `Object.prototype` member (`constructor`, `__proto__`, `toString`, ...) makes the plain `{}` accumulator skip the group creation, and `push` throws a `TypeError` at the first such permission; otherwise the keys are exactly the resources present, every permission is in its resource's group, no group is empty, each group keeps input order, and the sizes sum to the input length |
| PermissionGroups.ConstructorResourceThrows | src/routes/_authenticated/admin/permissions.tsx:77-83 | a list starting with a permission on resource `constructor` throws at that first permission |

## Left out

- JSX rendering, styling and UI widgets. They have no behaviour to state.
- The axios transport and the `authApi`, `roleApi`, `permissionApi` and
  `healthApi` wrappers (src/lib/api.ts:124-181). The network appears only as
  the outcome events `RefreshSucceeded` and `RefreshFailed`.
- The response interceptor's success handler (src/lib/api.ts:67). It returns
  the response unchanged.
- Real promise interleaving. Steps are sequential. Replays are listed in the
  order the requests are re-issued: the original request in the current job,
  then the waiters, whose `.then` callbacks run as microtasks. Rejections are
  listed in the order the code calls `reject`. Neither list gives the order
  in which responses or rejection handlers would arrive.
- `window.location.href`, `localStorage` writes and `confirm()` dialogs. These
  are I/O. The redirect is recorded as the effect `RedirectToLogin`.
- zod form validation, the theme store, router glue, the `PermissionGuard`
  wrappers, tooling configuration, and dates.
- The random toast id and `setTimeout`. The id is a parameter, and the expiry
  is a later `RemoveToast` call.
- Toasts.ToastStore.AddToast: durations are integers. The floating-point
  `NaN` duration, which `||` also replaces by 5000, is not modelled.
- Permissions.GetUserPermissions: states membership and duplicate-freedom,
  not the first-occurrence order in which a JavaScript `Set` lists names.
- RolePermissions.PermissionSelection.HandleSubmit: the set is unordered
  here, so the insertion order of `Array.from` is not modelled.
- PermissionGroups.GroupByResource: the result is an unordered map, so the
  key order that `Object.entries` renders is not modelled.
- Logging out against the server: the `authApi.logout` wrapper
  (src/lib/api.ts:136) is left out with the other wrappers, and no page calls
  it. `Auth.AuthStore.Logout` is the local, unconditional part.
