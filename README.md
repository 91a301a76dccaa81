# Kovancılar Matematik front end: a verified model of its logic

This project models, in Dafny, the logic of the Kovancılar Matematik
front end, a Next.js admin and course site. The model covers:

- **The authenticated API client** (`lib/api.ts`): how it builds headers,
  detects an authentication failure (HTTP 401 or body code `INVALID_TOKEN`),
  calls the refresh handler under the `isRefreshing` flag, retries once, and
  turns exceptions raised inside its `try` into `NETWORK_ERROR` envelopes.
- **The credential store** of the auth provider: storage keys, the cookie,
  the in-memory user and token, and the clear, refresh, load, save, login
  and logout operations.
- **Routing**:
  - the edge middleware's decision;
  - the link and active-item helpers of the site header, mobile menu,
  dashboard header and footer;
  - the lesson sidebar's default item and lesson links.
- **The validators**:
  - the zod schemas of `lib/validations.ts` and of each form, as functions
    that give the set of failing fields;
  - the forms' default values, their reset effects and their submit
    transforms.
- **The test and question editors**:
  - merging questions by id, the selected-question list operations,
    grouping by learning objective and search filtering;
  - grouping objectives by subject and sorting them by order;
  - the option badges, and the image preview.
- **The create/update modals**: their payloads and dispatch.
- **The difficulty badge** of the question card.
- **Course stitching**: the category, the subjects and their lessons.
- **The YouTube id extractor**: its regular expression, with the
  backtracking semantics written out.

Every operation is pure or sequential. The network, the DOM, the React
runtime, `JSON.parse`/`JSON.stringify` and zod's e-mail, URL and UUID regular
expressions are inputs to the model. They appear as oracle parameters:
sequences of transport outcomes, handler outcomes, API replies and
predicates.

Where the source changes state in place, the model uses a class whose
methods are proved against a specification function:

- the API client (`ApiClient.Client`);
- the auth store (`AuthProvider.AuthStore`);
- the form state (`FormState.Form`, `TestForm.TestFormState`);
- the image preview (`QuestionForm.ImagePreview`).

The loops of the source are methods with invariants: the two `forEach`
loops that merge questions, and the grouping of objectives with its
in-place sort.

## Model

| member | source | states |
|---|---|---|
| ApiClient.HeadersSent | lib/api.ts:151-170 | A non-empty token sets `Authorization: Bearer <token>` over any caller value, and no token leaves the caller's headers alone. `Content-Type: application/json` is added only for a non-empty string body without one. A multipart type is dropped for a form body. No other header changes. |
| ApiClient.Client.BuildHeaders | lib/api.ts:151-171 | Building the header object set by set and delete gives exactly `RequestHeaders`. |
| ApiClient.JsonObject | lib/api.ts:241 | A serialised object of string members is `{}` when empty, and otherwise each member written as `"key":"value"`, in order, separated by commas, inside braces. |
| ApiClient.JsonMembersJoin | lib/api.ts:241 | Writing the members one after another with commas is joining their texts with `,`. |
| ApiClient.RequestBodies | lib/api.ts:237-255 | The login body holds the e-mail member then the password member, the caller's object being assumed to list them in that order; the refresh body holds the refresh-token member alone. |
| ApiClient.Client.constructor | lib/api.ts:122-130 | A new client has no token, no handler, the flag down, and has made no calls. |
| ApiClient.Client.SetAccessToken | lib/api.ts:132-134 | Only the token changes. |
| ApiClient.Client.SetAuthFailureHandler | lib/api.ts:136-138 | Only the handler flag changes. |
| ApiClient.Client.CallHandler | lib/api.ts:188-190 | One handler call under the flag. A rejection leaves `isRefreshing` set; a resolution clears it and installs the handler's token. |
| ApiClient.Client.Request | lib/api.ts:140-234 | The envelope returned, the new client state, the transport calls and the handler-call count are those of the specification `RunRequest`. |
| ApiClient.RespondedRun | lib/api.ts:140-175 | When the transport answers, the run is the response handling of that answer, with the request recorded as sent with the built headers. |
| ApiClient.Client.HandleResponse | lib/api.ts:175-225 | The envelope, the new client state, the calls made after the first and the handler-call count are those of `AfterFetch`: a 401 on a first try goes to the handler or fails with no handler, and anything else is settled. |
| ApiClient.Client.RefreshAfterUnauthorized | lib/api.ts:186-195 | One handler call; a rejection gives a network error, a refresh retries once, and no new token settles the 401 reply, all as in `Unauthorized`. |
| ApiClient.Client.SettleBody | lib/api.ts:199-225 | After the status is dealt with, parsing the body and the `INVALID_TOKEN` refresh follow `Settle`. |
| ApiClient.Client.Login | lib/api.ts:237-247 | The token is stored only when the reply succeeds and carries an access token. |
| ApiClient.Client.RefreshToken | lib/api.ts:249-263 | The refresh request is sent and its reply returned. The token is untouched. |
| ApiClient.Client.Logout | lib/api.ts:265-274 | The token is cleared whatever the reply. |
| ApiClient.Client.LogoutAll | lib/api.ts:282-291 | The request with the caller's `Bearer` header runs as `RunRequest`, and the token is cleared whatever the reply. |
| ApiClient.LogoutAllBearer | lib/api.ts:282-291 | The caller's token is sent only when the client holds none; a token the client holds overwrites it. No content type is sent. |
| ApiClientProperties.RetryNeverRefreshes | lib/api.ts:176 | A retry makes exactly one transport call and never calls the handler. |
| ApiClientProperties.CallBounds | lib/api.ts:176-221 | A top-level call makes at most two transport calls and at most two handler calls. |
| ApiClientProperties.RetryCarriesRefreshedToken | lib/api.ts:192-195 | After a 401 whose refresh succeeds, exactly one retry is made, with the refreshed token. Its result is returned unchanged. |
| ApiClientProperties.NoHandlerShortCircuits | lib/api.ts:176-186 | A 401 or `INVALID_TOKEN` with no handler gives `AUTH_FAILURE_HANDLER_NOT_SET` after a single transport call. |
| ApiClientProperties.BystanderPassesThrough | lib/api.ts:187 | While a refresh is under way, an auth failure does not call the handler. The parsed body is returned as is. |
| ApiClientProperties.FailedRefreshThenInvalidTokenCallsAgain | lib/api.ts:187-223 | A 401 whose refresh fails, and whose body says `INVALID_TOKEN`, calls the handler a second time, whatever token the first call installed. |
| ApiClientProperties.RejectionLeavesFlagSet | lib/api.ts:176-223 | A handler that rejects, whether called for a 401 or for an `INVALID_TOKEN` body, yields `NETWORK_ERROR` and leaves the flag set. Every later call then skips the handler. |
| ApiClientProperties.FlagSettles | lib/api.ts:187-223 | When no handler call rejects, the flag ends as it started and the handler setting stays; if no handler installs a token, the token stays too. |
| ApiClientProperties.ResultIsAnEnvelope | lib/api.ts:173-233 | Nothing raised inside the `try` escapes: the result is `NETWORK_ERROR`, `AUTH_FAILURE_HANDLER_NOT_SET`, or a parsed body the transport returned. |
| AuthProvider.Stored | components/providers/auth-context-provider.tsx:61-63 | A stored value counts only when it is present and not empty. |
| AuthProvider.Cleared | components/providers/auth-context-provider.tsx:43-57 | The three keys are removed and the cookie expired. User and token become null. Other keys are kept. The store is no longer authenticated. |
| AuthProvider.ClearIdempotent | components/providers/auth-context-provider.tsx:43-57 | Clearing twice is clearing once. |
| AuthProvider.RefreshSpec | components/providers/auth-context-provider.tsx:59-88 | With no stored refresh token, the API is not called and auth is cleared. A reply with tokens writes both tokens and the in-memory token, and keeps the user. Any other reply, or a throw, clears auth. |
| AuthProvider.LoadSpec | components/providers/auth-context-provider.tsx:98-116 | Token and user are restored, and the cookie set, only when both are stored. A stored user that fails to parse clears everything. Loading ends in every case. |
| AuthProvider.Saved | components/providers/auth-context-provider.tsx:121-135 | The three keys, the cookie, the token and the user are written. Other keys are kept. |
| AuthProvider.FailureMessage | components/providers/auth-context-provider.tsx:148 | The reply's message, or `Login failed`; never empty. |
| AuthProvider.LoginSpec | components/providers/auth-context-provider.tsx:137-160 | Only a successful reply with data saves. Otherwise the state is untouched and the error message is returned. |
| AuthProvider.LogoutSpec | components/providers/auth-context-provider.tsx:162-175 | Logout always ends cleared. The backend is called only with a stored refresh token. |
| AuthProvider.LogoutSurvivesReload | components/providers/auth-context-provider.tsx:98-116 | Loading after a logout leaves the store signed out. |
| AuthProvider.LoginSurvivesReload | components/providers/auth-context-provider.tsx:98-160 | Loading after a successful login restores the same user and token. |
| AuthProvider.RefreshKeepsSession | components/providers/auth-context-provider.tsx:70-78 | A successful refresh that returns a non-empty token keeps the session: the store is authenticated exactly when it had a user. A failed refresh always signs out. |
| AuthProvider.ProviderHandlerResolves | components/providers/auth-context-provider.tsx:59-93 | For every state and reply, the installed handler resolves: to `true` exactly when a refresh token was stored and the reply grants new tokens, and to `false` otherwise. |
| AuthProvider.ProviderHandlerNeverSticks | components/providers/auth-context-provider.tsx:91-93 | With the provider's handler installed, no request leaves `isRefreshing` stuck. |
| AuthProvider.AuthStore.constructor | components/providers/auth-context-provider.tsx:31-34 | The store mounts empty and loading. |
| AuthProvider.AuthStore.IsAuthenticated | components/providers/auth-context-provider.tsx:36 | Holds exactly when user and token are both present. |
| AuthProvider.AuthStore.ClearAuthState | components/providers/auth-context-provider.tsx:43-57 | The new state is `Cleared` of the old one. |
| AuthProvider.AuthStore.RefreshToken | components/providers/auth-context-provider.tsx:59-88 | The new state and result are those of `RefreshSpec`. |
| AuthProvider.AuthStore.LoadAuthState | components/providers/auth-context-provider.tsx:98-116 | The new state is `LoadSpec` of the old one. |
| AuthProvider.AuthStore.SaveAuthState | components/providers/auth-context-provider.tsx:121-135 | The new state is `Saved` of the old one. |
| AuthProvider.AuthStore.Login | components/providers/auth-context-provider.tsx:137-160 | The new state and result are those of `LoginSpec`. |
| AuthProvider.AuthStore.Logout | components/providers/auth-context-provider.tsx:162-175 | The new state and request are those of `LogoutSpec`. |
| AuthProvider.AuthStore.SyncClient | components/providers/auth-context-provider.tsx:39-41 | The client's token follows the store's. Nothing else changes. |
| AuthProvider.AuthStore.InstallHandler | components/providers/auth-context-provider.tsx:91-93 | The client gets a handler. Nothing else changes. |
| Middleware.LocalePath | middleware.ts:54-60 | The redirect target is `/`, the locale, and the path, with a `/` inserted only when the path has no leading slash. |
| Middleware.Decide | middleware.ts:25-63 | The dashboard guard comes first and goes to `/tr/admin/login`. Bypassed and localised paths pass. Every other path is redirected to its locale path. |
| Middleware.HasLocaleCases | middleware.ts:50-52 | A path has a locale exactly when it is `/tr` or `/en`, or lies under `/tr/` or `/en/`. |
| Middleware.NoLocaleInTrx | middleware.ts:50-52 | Example on one input: `/trx` has no locale. |
| Middleware.RedirectSettles | middleware.ts:30-60 | For a configured locale, a redirect target passes on the next request with the same cookie. |
| Middleware.SlashlessRedirect | middleware.ts:54-60 | A short path with no slash, dot or locale gets a slash inserted after the locale. |
| Middleware.LoginSettles | middleware.ts:30-62 | Example on one input: the login page `/tr/admin/login` passes, with or without the cookie. |
| Middleware.LocalePathUnguarded | middleware.ts:30-60 | A redirect target is not guarded when the original path was not, and either began with `/` or came with the cookie. |
| Middleware.LocalePathHasLocale | middleware.ts:50-60 | A redirect target to a configured locale always has a locale. |
| Middleware.SlashlessDashboard | middleware.ts:30-60 | `admin/dashboard` without its leading slash escapes the guard once. Its redirect target is then sent to login. |
| SiteHeader.BuildHref | components/layout/SiteHeader.tsx:43 | `/locale` for the empty path, otherwise `/locale/path`. |
| SiteHeader.BuildHrefInjective | components/layout/SiteHeader.tsx:43 | Different paths give different links. |
| SiteHeader.IsActive | components/layout/SiteHeader.tsx:45-50 | False with no pathname. The home item is active only on equality; other items use a prefix test. |
| SiteHeader.ActiveOnOwnPage | components/layout/SiteHeader.tsx:45-50 | An item is active on its own page. Every item except home is also active below it. |
| SiteHeader.PrefixNotSegment | components/layout/SiteHeader.tsx:49 | Example on one input: `/tr/videos2` activates `videos`. |
| SiteHeader.SwitchLocalePath | components/layout/SiteHeader.tsx:52-57 | With no pathname the result is `/target`; the result is never empty. |
| SiteHeader.SwitchReplacesSegment | components/layout/SiteHeader.tsx:54-56 | Only segment 1 changes: the segment count and every other segment stay. |
| SiteHeader.SwitchRoundTrip | components/layout/SiteHeader.tsx:54-56 | Switching away and back to the original segment 1 gives the path back. |
| SiteHeader.SwitchBuiltLink | components/layout/SiteHeader.tsx:43-57 | Switching a link built for one locale gives the link built for the target. |
| MobileMenu.NavLinks | components/layout/MobileMenu.tsx:26-34 | Five links, home, videos, archive, tags, about in that order, each built by `buildHref`. |
| MobileMenu.OnlyOwnItemActive | components/layout/MobileMenu.tsx:36-55 | On the page a menu link leads to, that item is highlighted and no other is. |
| MobileMenu.AtMostOneActive | components/layout/MobileMenu.tsx:36-55 | At most one item is highlighted for any pathname. |
| DashboardHeader.RouteLocale | components/layout/DashboardHeader.tsx:44 | The route's locale, or `tr` when the route gives none. |
| DashboardHeader.BuildHref | components/layout/DashboardHeader.tsx:87 | `/locale` followed by the path, with no separator added. |
| DashboardHeader.IsGroupActive | components/layout/DashboardHeader.tsx:89-90 | Holds exactly when some item of the group is active. |
| DashboardHeader.MenuLinksUnderAdmin | components/layout/DashboardHeader.tsx:57-87 | Every menu link starts with `/locale/admin/`. |
| DashboardHeader.OwnLinkActive | components/layout/DashboardHeader.tsx:87-90 | On the page a link leads to, that item and its group are active. |
| SiteFooter.BuildHref | components/layout/SiteFooter.tsx:30-31 | `admin` gives `/admin`. Every other path is built as in the header. |
| SiteFooter.PagesLinks | components/layout/SiteFooter.tsx:33-37 | The links are `/locale/about`, `/locale/contact` and `/admin`. |
| SiteFooter.OnlyAdminIgnoresLocale | components/layout/SiteFooter.tsx:30-31 | Only the admin link is the same for every locale. |
| Validations.LoginIssues | lib/validations.ts:4-13 | Issues only on the e-mail and the password. |
| Validations.LoginAccepts | lib/validations.ts:4-13 | Accepted exactly with a well-formed e-mail and a password of at least 6 characters. |
| Validations.RegisterIssues | lib/validations.ts:15-40 | Issues only on the five register fields. |
| Validations.RegisterAccepts | lib/validations.ts:15-40 | Accepted exactly with a name of 2–50 characters, a well-formed e-mail, a password of 6–100 characters repeated in the confirmation, and a role from the four. |
| Validations.MismatchOnConfirm | lib/validations.ts:37-40 | With a valid role, mismatched passwords are reported on `confirmPassword`. |
| Validations.QuestionIssues | lib/validations.ts:42-55 | Issues only on the nine question fields. |
| Validations.QuestionAccepts | lib/validations.ts:42-55 | Accepted exactly with a URL image, an objective, a difficulty in [1,10], five non-empty options, and an answer from a to e. |
| Validations.TestIssues | lib/validations.ts:57-68 | The list is reported exactly when it is empty or an entry is invalid. |
| Validations.TestAccepts | lib/validations.ts:57-68 | Accepted exactly with a name and at least one entry, each with an id and an order of at least 0. The description never matters. |
| Validations.LearningObjectiveIssues | lib/validations.ts:70-74 | Issues only on name, subject and order. |
| Validations.LearningObjectiveAccepts | lib/validations.ts:70-74 | Accepted exactly with a name of at least 3 characters, a subject that passes `uuid()` and a whole order of at least 1. Since the empty string is not a UUID, an unselected subject is refused. |
| UserForm.UserIssues | components/forms/UserForm.tsx:29-49 | The role is reported exactly when it is outside the three. The password is reported exactly when the role is valid and the password has 1–5 characters. |
| UserForm.UserAccepts | components/forms/UserForm.tsx:29-49 | Accepted exactly with a name of 2 or more characters, a well-formed e-mail, a valid role, and an absent, empty or 6-plus password. |
| UserForm.UserDefaults | components/forms/UserForm.tsx:70-75 | The user's fields or `""`, the role or `STUDENT`, and password `""`. |
| UserForm.DefaultsPassword | components/forms/UserForm.tsx:36-49 | The defaults never fail on the password. A new form fails only on name and e-mail. |
| UserForm.PrepareSubmit | components/forms/UserForm.tsx:78-84 | In edit mode an empty password is deleted. Everything else is forwarded unchanged. |
| UserForm.SubmitKeepsValidity | components/forms/UserForm.tsx:78-84 | What is submitted has exactly the issues of what was entered. |
| UserForm.PrepareIdempotent | components/forms/UserForm.tsx:78-84 | Preparing twice is preparing once. |
| FormState.Form.constructor | components/forms/CategoryForm.tsx:51-54 | The fields start at the defaults. |
| FormState.Form.Reset | components/forms/CategoryForm.tsx:57-67 | Every field takes the new value. |
| FormState.ResetOnInitialData | components/forms/SubjectForm.tsx:43-47 | Initial data replaces the values; without initial data nothing changes. |
| CategoryForm.CategoryIssues | components/forms/CategoryForm.tsx:19-25 | Issues only on name and order. |
| CategoryForm.CategoryAccepts | components/forms/CategoryForm.tsx:19-25 | Accepted exactly with a name of at least 3 characters and a positive whole order. The flags and user list never matter. |
| CategoryForm.CategoryDefaults | components/forms/CategoryForm.tsx:43-49 | An order of 0 or none becomes 1. Flags default to false only when undefined. The user ids are the allowed users' ids or `[]`. |
| CategoryForm.ResetValues | components/forms/CategoryForm.tsx:57-67 | The category's fields are copied without the order and flag fallbacks. |
| CategoryForm.DefaultsMatchReset | components/forms/CategoryForm.tsx:43-67 | Defaults and reset values agree exactly when no fallback applies. |
| CategoryForm.DefaultsIssues | components/forms/CategoryForm.tsx:19-67 | A new form fails only on the name. The order fallback hides the issue of an order of 0, and only that issue. |
| CategoryForm.CheckboxChange | components/forms/CategoryForm.tsx:199-208 | Checking appends the id. Unchecking removes every occurrence and keeps the other ids in order. |
| Seqs.RemoveAll | components/forms/CategoryForm.tsx:204-206 | The filtered list no longer holds the id and is no longer than the original. |
| Seqs.RemoveAllCounts | components/forms/CategoryForm.tsx:204-206 | Filtering drops every copy of the id and keeps every other id exactly as often as before. |
| Seqs.RemoveAllSubsequence | components/forms/CategoryForm.tsx:204-206 | What is left is a sub-list of the original, in order. |
| CategoryForm.CheckUncheck | components/forms/CategoryForm.tsx:199-208 | Checking then unchecking an absent id restores the list. |
| CategoryForm.UncheckIdempotent | components/forms/CategoryForm.tsx:199-208 | Unchecking twice is unchecking once. |
| CategoryForm.NewCategoryForm | components/forms/CategoryForm.tsx:43-54 | The form starts at `CategoryDefaults`. |
| CategoryForm.ResetCategoryForm | components/forms/CategoryForm.tsx:57-67 | Initial data resets the form to `ResetValues`. |
| CategoryForm.ToggleStudent | components/forms/CategoryForm.tsx:199-208 | Only the user-id field changes, by `CheckboxChange`. |
| SubjectForm.SubjectIssues | components/forms/SubjectForm.tsx:18-22 | Issues only on name, order and category. |
| SubjectForm.SubjectAccepts | components/forms/SubjectForm.tsx:18-22 | Accepted exactly with a name of at least 3 characters, a positive whole order and a category. |
| SubjectForm.SubjectDefaults | components/forms/SubjectForm.tsx:38-41 | The initial data, or `{name: "", order: 1, categoryId: ""}`. |
| SubjectForm.NewSubjectIssues | components/forms/SubjectForm.tsx:18-41 | A new form fails on name and category only. |
| SubjectForm.SubjectSubmit | components/forms/SubjectForm.tsx:49-56 | Every field is forwarded, and the forwarded values satisfy the schema. |
| SubjectForm.NewSubjectForm | components/forms/SubjectForm.tsx:38-41 | The form starts at `SubjectDefaults`. |
| SubjectForm.ResetSubjectForm | components/forms/SubjectForm.tsx:43-47 | Initial data replaces the values. |
| LessonForm.LessonIssues | components/forms/LessonForm.tsx:18-22 | Issues only on name, video URL and subject. |
| LessonForm.LessonAccepts | components/forms/LessonForm.tsx:18-22 | Accepted exactly with a name of at least 3 characters, a URL and a UUID subject. |
| LessonForm.LessonDefaults | components/forms/LessonForm.tsx:40 | The initial data, or three empty strings. |
| LessonForm.NewLessonIssues | components/forms/LessonForm.tsx:18-40 | A new form fails on every field. |
| LessonForm.NewLessonForm | components/forms/LessonForm.tsx:38-41 | The form starts at `LessonDefaults`. |
| LessonForm.ResetLessonForm | components/forms/LessonForm.tsx:43-47 | Initial data replaces the values. |
| MaterialForm.MaterialIssues | components/forms/MaterialForm.tsx:17-21 | Issues only on name, URL and lesson. |
| MaterialForm.MaterialAccepts | components/forms/MaterialForm.tsx:17-21 | Accepted exactly with a name of at least 3 characters, a URL and a UUID lesson. |
| MaterialForm.MaterialDefaults | components/forms/MaterialForm.tsx:37 | The initial data, or three empty strings. |
| MaterialForm.NewMaterialIssues | components/forms/MaterialForm.tsx:17-37 | A new form fails on every field. |
| MaterialForm.NewMaterialForm | components/forms/MaterialForm.tsx:35-38 | The form starts at `MaterialDefaults`. |
| MaterialForm.ResetMaterialForm | components/forms/MaterialForm.tsx:40-44 | Initial data replaces the values. |
| TestForm.Put | components/forms/TestForm.tsx:91-97 | `Map.set` in insertion order: the question is present afterwards. |
| TestForm.PutPresent | components/forms/TestForm.tsx:91-97 | Setting a present id replaces that entry in place. |
| TestForm.PutAbsent | components/forms/TestForm.tsx:91-97 | Setting a new id appends. |
| TestForm.PutIds | components/forms/TestForm.tsx:91-97 | The ids stay as they were, or gain the new id at the end. |
| TestForm.PutKeeps | components/forms/TestForm.tsx:91-97 | Entries with other ids survive. |
| TestForm.PutMembers | components/forms/TestForm.tsx:91-97 | The ids present gain exactly the set id. |
| TestForm.PutAllMembers | components/forms/TestForm.tsx:87-103 | A run of sets adds exactly the ids it sets. |
| TestForm.PutAllDistinct | components/forms/TestForm.tsx:87-103 | Ids stay distinct, and earlier entries keep their places. |
| TestForm.PutAllLast | components/forms/TestForm.tsx:87-103 | The last question given for an id is the one kept. |
| TestForm.PutAllKeeps | components/forms/TestForm.tsx:87-103 | An entry whose id is never set again survives. |
| TestForm.Linked | components/forms/TestForm.tsx:94-100 | The test's questions, skipping links without one. |
| TestForm.AllAvailableFacts | components/forms/TestForm.tsx:87-103 | The merged list has distinct ids and holds every fetched and every linked id. A test's own question wins a collision and keeps the fetched position. |
| TestForm.DistinctPutAll | components/forms/TestForm.tsx:87-103 | Merging distinct questions into an empty map gives them back unchanged. |
| TestForm.SetPresent | components/forms/TestForm.tsx:91-97 | A map set on a present id is `Put` on its entries. |
| TestForm.SetAbsent | components/forms/TestForm.tsx:91-97 | A map set on a new id is `Put` on its entries. |
| TestForm.AllAvailableQuestions | components/forms/TestForm.tsx:87-103 | The two loops over the map compute `AllAvailable`. |
| TestForm.SetById | components/forms/TestForm.tsx:91 | One `Map.set` on the key list and the value map is `Put` on the entries, and the value map gains exactly that id. |
| TestForm.SetEach | components/forms/TestForm.tsx:90-92 | The `forEach` over the fetched questions is `PutAll` over them. |
| TestForm.SetLink | components/forms/TestForm.tsx:95-99 | A link with a question is set by its id; a link without one changes nothing. |
| TestForm.SetEachLinked | components/forms/TestForm.tsx:94-101 | The `forEach` over the test's links is `PutAll` over `Linked`. |
| TestForm.PutDistinct | components/forms/TestForm.tsx:91-97 | One set keeps ids distinct, never shrinks the map and keeps the earlier ids in place. |
| TestForm.FirstWithId | components/forms/TestForm.tsx:141-143 | The first index with the id, or -1 exactly when it is absent. |
| TestForm.QuestionDetails | components/forms/TestForm.tsx:141-143 | An available question with the id, or nothing exactly when none has it. |
| TestForm.DetailsOnDistinct | components/forms/TestForm.tsx:141-143 | On a merged list the lookup finds that id's question. |
| TestForm.WithObjective | components/forms/TestForm.tsx:146-148 | Exactly the questions with that objective, kept in list order (a sub-list of the input). |
| TestForm.GroupByObjective | components/forms/TestForm.tsx:145-155 | No grouping before objectives load. Otherwise there is one key per objective that has questions, holding exactly those questions in list order. |
| TestForm.Reduce | components/forms/TestForm.tsx:148-154 | The reduce keys exactly the objectives with questions, each with its questions. |
| TestForm.GroupingPartitions | components/forms/TestForm.tsx:145-155 | A question with a loaded objective lies in its objective's group and in no other. |
| TestForm.Matching | components/forms/TestForm.tsx:162-164 | Exactly the matching questions, as a sub-list. |
| TestForm.FilterGroups | components/forms/TestForm.tsx:157-170 | An empty query, or no groups, changes nothing. Otherwise each group keeps its matching questions, and empty groups are dropped. |
| TestForm.FilteredAreSublists | components/forms/TestForm.tsx:157-170 | Every filtered group is a non-empty sub-list of its unfiltered group. |
| TestForm.FindIndex | components/forms/TestForm.tsx:133 | The first entry with the id, or -1 exactly when none has it. |
| TestForm.Added | components/forms/TestForm.tsx:121-125 | Adding a selected id changes nothing. A new id is appended after the old list. |
| TestForm.RemovedAt | components/forms/TestForm.tsx:127-130 | Only entry i goes. The others keep their order and their stored orders. |
| TestForm.Toggled | components/forms/TestForm.tsx:132-139 | Toggling removes the first occurrence of a present id and adds an absent one. |
| TestForm.AddedDistinct | components/forms/TestForm.tsx:121-125 | Adding never creates a duplicate. |
| TestForm.ToggledFlips | components/forms/TestForm.tsx:132-139 | Toggling flips whether the id is selected and keeps the list free of duplicates. |
| TestForm.ToggleTwice | components/forms/TestForm.tsx:132-139 | Toggling an absent id twice restores the list. |
| TestForm.TestFormState.constructor | components/forms/TestForm.tsx:63-70 | The form starts empty. |
| TestForm.TestFormState.Add | components/forms/TestForm.tsx:121-125 | The list becomes `Added`. Name and description stay. |
| TestForm.TestFormState.Remove | components/forms/TestForm.tsx:127-130 | The list becomes `RemovedAt`. Name and description stay. |
| TestForm.TestFormState.Toggle | components/forms/TestForm.tsx:132-139 | The list becomes `Toggled`. Name and description stay. |
| TestForm.TestFormState.ApplyInitialData | components/forms/TestForm.tsx:105-119 | Once the test, the questions and the objectives are loaded, the form takes the test's name, its description or `""`, and its entries. Before that, nothing changes. |
| TestForm.EntriesOf | components/forms/TestForm.tsx:111-114 | Each link becomes an entry with its id and order. |
| UpsertTestModal.TestPayloadOf | components/modal/UpsertTestModal.tsx:33-42 | Name and description are copied, and the entries keep their ids and order. Order `i` becomes `i + 1`. |
| UpsertTestModal.OrdersIgnored | components/modal/UpsertTestModal.tsx:38-41 | The orders the form held do not matter. |
| UpsertTestModal.OrdersAreConsecutive | components/modal/UpsertTestModal.tsx:38-41 | The payload's orders are exactly 1..n. |
| UpsertTestModal.RemovalRenumbers | components/modal/UpsertTestModal.tsx:38-41 | After a removal, the entries behind it move up one order. |
| UpsertTestModal.Dispatch | components/modal/UpsertTestModal.tsx:44-69 | With a test, an update under its id; otherwise a create. The payload is the same either way. |
| QuestionForm.GroupKey | components/forms/QuestionForm.tsx:109 | The subject's name, or `Diğer` when it is missing or empty. |
| QuestionForm.GroupOf | components/forms/QuestionForm.tsx:108-114 | A group holds only objectives with its key. |
| QuestionForm.GroupOfCount | components/forms/QuestionForm.tsx:108-114 | A group holds each objective of its key as often as the list does, and nothing else. |
| QuestionForm.GroupOfAbsent | components/forms/QuestionForm.tsx:108-114 | A key no objective gives has no objectives. |
| QuestionForm.KeysOfSnoc | components/forms/QuestionForm.tsx:110-112 | One more objective adds its key. |
| QuestionForm.GroupOfSnoc | components/forms/QuestionForm.tsx:113 | One more objective is pushed onto its own group only. |
| QuestionForm.SortByOrder | components/forms/QuestionForm.tsx:118 | The array ends sorted by `order` and is a permutation of what it held. |
| QuestionForm.GroupObjectives | components/forms/QuestionForm.tsx:103-122 | No objectives give no groups. Otherwise there is one group per key, each a permutation of that key's objectives sorted by order. |
| QuestionForm.Collect | components/forms/QuestionForm.tsx:108-114 | The loop builds exactly `GroupOf` for every key. |
| QuestionForm.SortGroups | components/forms/QuestionForm.tsx:117-119 | Every group is sorted and keeps its objectives. |
| QuestionForm.EveryObjectiveGrouped | components/forms/QuestionForm.tsx:108-114 | Every objective lands in its own group, with its full count, and in no other. |
| QuestionForm.NamesInOrder | components/forms/QuestionForm.tsx:146 | The group names, each once. |
| QuestionForm.InsertSorted | components/forms/QuestionForm.tsx:147 | Inserting keeps a list sorted and adds exactly one element. |
| QuestionForm.SortStrings | components/forms/QuestionForm.tsx:147 | The result is sorted and a permutation. |
| QuestionForm.SortedSubjectNames | components/forms/QuestionForm.tsx:146-147 | The group names, sorted, each once. |
| QuestionForm.OptionBadgeStyle | components/forms/QuestionForm.tsx:95-100 | A badge is highlighted exactly when its option is the answer. |
| QuestionForm.OneBadgeHighlighted | components/forms/QuestionForm.tsx:95-100 | An answer from a to e highlights exactly one badge; any other answer highlights none. |
| QuestionForm.OptionText | components/forms/QuestionForm.tsx:60-64 | The option's text, or `""` when it is missing. |
| QuestionForm.QuestionDefaults | components/forms/QuestionForm.tsx:53-78 | A new form has difficulty 1, answer `a` and empty strings. Otherwise the question's fields, with `""` for missing options. |
| QuestionForm.NewQuestionIssues | components/forms/QuestionForm.tsx:53-78 | A new form passes on difficulty and answer and fails on everything else. |
| QuestionForm.PreviewAfter | components/forms/QuestionForm.tsx:89-93 | Only an image URL starting with `http` replaces the preview. |
| QuestionForm.PreviewOnlyHttp | components/forms/QuestionForm.tsx:89-93 | Whatever is typed, the preview stays empty or starts with `http`. |
| QuestionForm.PreviewIsLastHttp | components/forms/QuestionForm.tsx:89-93 | After any run of edits, the preview is the last value typed that starts with `http`, or the starting preview when none does. |
| QuestionForm.ImagePreview.constructor | components/forms/QuestionForm.tsx:51 | The preview starts empty. |
| QuestionForm.ImagePreview.OnInitialData | components/forms/QuestionForm.tsx:83-86 | A question with an image shows it. Otherwise nothing changes. |
| QuestionForm.ImagePreview.OnImageUrl | components/forms/QuestionForm.tsx:89-93 | The preview becomes `PreviewAfter`. |
| UpsertQuestionModal.QuestionPayloadOf | components/modal/UpsertQuestionModal.tsx:33-49 | Options a–e come from optionA–optionE. The other four fields are copied unchanged. |
| UpsertQuestionModal.PayloadInjective | components/modal/UpsertQuestionModal.tsx:35-49 | The payload loses no field: equal payloads come from equal values. |
| UpsertQuestionModal.AcceptedPayload | components/modal/UpsertQuestionModal.tsx:35-49 | Accepted values give five non-empty options, an answer from a to e and a difficulty in [1,10]. |
| UpsertQuestionModal.UntouchedEditRoundTrip | components/modal/UpsertQuestionModal.tsx:35-49 | Submitting an untouched edit form sends back the question's own fields. |
| UpsertQuestionModal.Dispatch | components/modal/UpsertQuestionModal.tsx:52-77 | With a question, an update under its id; otherwise a create. The payload is the same either way. |
| QuestionCard.DifficultyColour | components/admin/QuestionCard.tsx:30-34 | Green for 3 or less, yellow for more than 3 up to 6, red above 6. |
| QuestionCard.DifficultyLabel | components/admin/QuestionCard.tsx:36-40 | `Kolay` for 3 or less, `Orta` for more than 3 up to 6, `Zor` above 6. |
| QuestionCard.SameBand | components/admin/QuestionCard.tsx:30-40 | Label and colour always pick the same band. |
| QuestionCard.BandMonotone | components/admin/QuestionCard.tsx:30-40 | A higher difficulty never gives an easier band. |
| CourseData.MessageOr | hooks/api/use-course-data.ts:25 | The reply's message, or the fallback when it is missing or empty. |
| CourseData.StatusOf | hooks/api/use-course-data.ts:27-32 | 403 exactly for `FORBIDDEN`, 404 exactly for `NOT_FOUND`, no status otherwise. |
| CourseData.Stitch | hooks/api/use-course-data.ts:50-56 | One section per subject, in order. Each section holds its own subject's lessons when that reply succeeded with data, and none otherwise. |
| CourseData.SubjectIds | hooks/api/use-course-data.ts:43-45 | One lessons request per subject, in order. |
| CourseData.FetchCourseData | hooks/api/use-course-data.ts:12-62 | It fails exactly when the category or the subjects fail. A failure makes no lessons request. |
| CourseData.CategoryFailureFirst | hooks/api/use-course-data.ts:24-34 | A category failure wins over a subjects failure, with its message and status. |
| CourseData.SubjectsFailure | hooks/api/use-course-data.ts:36-38 | A subjects failure, or missing subjects data, fails with no status. |
| CourseData.LessonFailuresTolerated | hooks/api/use-course-data.ts:43-61 | Lesson failures never fail the course. The result is the category with one section per subject, in order, and one request per subject. |
| CourseData.OnlyListedLessonsMatter | hooks/api/use-course-data.ts:43-56 | Only the listed subjects' lesson replies affect the result. |
| LessonSidebar.FindSection | components/course/LessonSidebar.tsx:30-32 | The first section holding the current lesson, or -1 exactly when none does. |
| LessonSidebar.DefaultOpensFirstHolder | components/course/LessonSidebar.tsx:30-32 | The default value equals item i's value exactly when section i is the first holding the current lesson. |
| LessonSidebar.NoItemForMissingLesson | components/course/LessonSidebar.tsx:84-86 | With the lesson in no section, the value is `item--1` and matches no item. |
| LessonSidebar.LessonHref | components/course/LessonSidebar.tsx:107 | The link starts with `/courses/`. |
| LessonSidebar.LessonHrefSegments | components/course/LessonSidebar.tsx:107 | A link's segments are `courses`, the course id, `lessons` and the lesson id. |
| LessonSidebar.LessonHrefInjective | components/course/LessonSidebar.tsx:107 | Different lessons of a course get different links. |
| VideoId.MarkerAt | components/course/LessonVideoPlayer.tsx:78 | The alternative that matches at a position, or none when no alternative does. |
| VideoId.MarkersExclusive | components/course/LessonVideoPlayer.tsx:78 | At most one alternative matches at a position. |
| VideoId.LineEnd | components/course/LessonVideoPlayer.tsx:78 | The leading `.*` reaches the first line terminator. |
| VideoId.RunEnd | components/course/LessonVideoPlayer.tsx:78 | The id group stops at the first `#`, `&` or `?`. |
| VideoId.BacktrackRightmost | components/course/LessonVideoPlayer.tsx:78-79 | Backtracking finds the right-most marker, and finds none exactly when there is none. |
| VideoId.GetYouTubeVideoId | components/course/LessonVideoPlayer.tsx:76-81 | An id is returned exactly when the captured group has 11 characters. |
| VideoId.ReturnedId | components/course/LessonVideoPlayer.tsx:152-157 | A returned id has 11 characters and no `#&?`. It occurs in the URL, right after the right-most marker, and is followed by a stop character or the end. |
| VideoId.NoMarkerNoId | components/course/LessonVideoPlayer.tsx:76-81 | With no marker before the first line terminator, there is no id. |
| VideoId.IdFromRightmost | components/course/LessonVideoPlayer.tsx:76-81 | The result is the group after the right-most marker, kept only at 11 characters. |
| VideoId.ShortLinkExample | components/course/LessonVideoPlayer.tsx:78-80 | Example on one input: `https://youtu.be/` followed by 11 id characters gives those characters. |

## Left out

- Transport and I/O are outside the model: `fetch`, `response.json()`, `JSON.parse`/`JSON.stringify` of the stored user, `localStorage`, `document.cookie`, timestamps and `console` logging. Their outcomes are parameters: sequences of transport and handler outcomes, API replies and parse functions.
- Event-loop interleaving is not modelled. Requests run one after another, so concurrent requests cannot observe `isRefreshing` mid-refresh. The parallelism of `Promise.all` in course stitching is not modelled either.
- React effect timing and re-rendering are not modelled. Each effect is an operation applied when its dependencies change.
- Cookie attributes (path, max-age, expiry date format) are not modelled; the cookie is its value or absent.
- The locale negotiation in the middleware (`getLocale` from `Accept-Language`) is not modelled; the negotiated locale is a parameter.
- zod's `email()`, `url()` and `uuid()` regular expressions are not modelled, since their patterns differ between zod versions. They are oracle predicates of a `Formats` value, of which only this is assumed: the empty string is not an e-mail address, a URL or a UUID.
- VideoId.GetYouTubeVideoId: lengths count Unicode characters, where JavaScript counts UTF-16 code units, in the non-`u` regular expression and in `match[2].length === 11`. The two differ on a capture holding a character outside the Basic Multilingual Plane. For example, `https://youtu.be/ABCDEFGHIJ` followed by one emoji gives an id here and `null` in JavaScript.
- Validations.LoginIssues: zod's `min`/`max` string bounds are compared with the number of Unicode characters, where zod compares UTF-16 code units. A value holding characters outside the Basic Multilingual Plane can pass a bound in JavaScript and fail it here (`"😀a"` against `min(3)`), or the reverse. The same holds for each member below.
- Validations.RegisterIssues: its length bounds count Unicode characters, not UTF-16 code units, as for `Validations.LoginIssues`.
- Validations.LearningObjectiveIssues: its length bounds count Unicode characters, not UTF-16 code units, as for `Validations.LoginIssues`.
- UserForm.UserIssues: its length bounds count Unicode characters, not UTF-16 code units, as for `Validations.LoginIssues`.
- CategoryForm.CategoryIssues: its length bounds count Unicode characters, not UTF-16 code units, as for `Validations.LoginIssues`.
- SubjectForm.SubjectIssues: its length bounds count Unicode characters, not UTF-16 code units, as for `Validations.LoginIssues`.
- LessonForm.LessonIssues: its length bounds count Unicode characters, not UTF-16 code units, as for `Validations.LoginIssues`.
- MaterialForm.MaterialIssues: its length bounds count Unicode characters, not UTF-16 code units, as for `Validations.LoginIssues`.
- `toLowerCase` is not modelled: the question search (`TestForm.Matching`, `TestForm.FilterGroups`) takes case folding as a function parameter, so no property of Unicode case mapping is assumed or proved.
- QuestionForm.SortStrings / QuestionForm.SortedSubjectNames: the string sort compares Unicode code points, where `Array.prototype.sort` compares UTF-16 code units. The two orders differ only between a character outside the Basic Multilingual Plane and one in U+E000–U+FFFF.
- `Number()` coercion in the category and subject submits is the identity, since the schema already demands a number. `CategoryForm` `handleSubmit` is therefore the identity and has no member of its own.
- QuestionForm.GroupObjectives / QuestionForm.Collect: subject names are assumed not to be names inherited from `Object.prototype` (`constructor`, `toString`, `valueOf`, `hasOwnProperty`, `isPrototypeOf`, `propertyIsEnumerable`, `toLocaleString`, `__proto__`, `__defineGetter__`, `__defineSetter__`, `__lookupGetter__`, `__lookupSetter__`). For such a name `groups[subjectName]` on the plain `{}` is already truthy, the `= []` is skipped and `.push` throws, so the form does not render; the model's map gives that name an ordinary group.
- `TestForm.GroupByObjective`: groups are a map, so the display order of `Object.entries` is not modelled.
- `QuestionForm.SortByOrder`: stability of `Array.prototype.sort` is not stated. The contract gives sortedness and permutation only.
- `TestForm.TestFormState.Remove` requires an index within the list; the source calls it only with the index of a rendered entry.
- `SubjectForm.SubjectSubmit` requires values the schema accepts; react-hook-form calls the submit handler only after validation.
- ApiClientProperties.ResultIsAnEnvelope: header names and values are assumed to be ones `Headers` accepts (no CR, LF or NUL, nothing above U+00FF). With any other value, such as the token `"a\nb"` or `"ş"`, `new Headers` or `headers.set` throws before the `try` at lib/api.ts:173, so `request` rejects instead of returning an envelope; the model has no such outcome.
- ApiClient.HeadersSent: header values are assumed valid and already trimmed. `Headers` trims surrounding whitespace (the token `"x "` is sent as `Bearer x`) and throws on an invalid name or value; the model sends `"Bearer " + token` and the caller's values verbatim.
- ApiClient.JsonObject: JSON string escaping is not modelled; members are written without escapes.
- The Plyr player, the DOM overlay, dynamic imports and CSS injection in the video player are not modelled. Only the id extractor is kept.
- The two copies of the YouTube extractor (components/course/LessonVideoPlayer.tsx:76-81 and 152-157) have the same expression, so they are modelled once.
- The site header and the mobile menu define the same `buildHref` and `isActive`. They are modelled once, in `SiteHeader`.
- Rendering, styling, icons, translations and the other components (Hero, theme switcher, lesson header and content, question filters, pages) are not modelled.
