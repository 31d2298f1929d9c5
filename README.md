# Sparkshift client core in Dafny

This project models the client-side core of the Sparkshift agency website, a React and
TypeScript single-page application. The model covers:

- **The API service** (`src/services/api.ts`). Response handling, request headers, the
  request each `authAPI` call sends, and the session kept in the browser's `localStorage`.
  That session is the token and the serialized user that `login` and `register` write and
  `logout` removes. It also covers `isAuthenticated`, `getCurrentUser` and `isAdmin`, which
  read the session back.
- **The page handlers** (`src/pages/*.tsx`). Each page is a class whose fields are the
  component's state.
  - Every asynchronous handler is split at its `await` into two methods: a `Submit…` part
    and a `…Settled` part. The second one takes the outcome of the request as a parameter
    and runs the `try`/`catch` continuation and the `finally` block.
  - Handler preconditions mirror the rendered page: a form is submitted only while it is
    shown, and only while its button's `disabled` attribute is off.
  - Toasts, navigation, Redux dispatches, network requests and sounds are not performed.
    They are appended to an `effects` log (module `Effects`).
- **The contact page's email check** (`src/pages/Contact.tsx`). The regular expression
  `^[a-zA-Z0-9._-]+@[a-zA-Z0-9.-]+\.[a-zA-Z]{2,6}$` is written two ways: declaratively,
  as "some split of the string fits the pattern" (`MatchesEmailPattern`), and as a
  backtracking-free decision procedure (`IsValidEmail`). The two are proved equal.
- **The portfolio filter** (`src/components/Portfolio.tsx`). The constant project and
  category tables, and the category filter over them.

Design choices that apply throughout:

- `localStorage` is a `map<string, string>`.
- A JSON field that the code tests for truthiness (`data.token`, `data.message`,
  `error.message`) is a `string` in which `""` stands for missing, `null` or empty alike.
- `JSON.stringify`/`JSON.parse` on user records are an abstract `Codec`.
  `Api.SessionEstablished` assumes only that the codec round-trips (`Api.RoundTrips`).
- `fetch` is an abstract `Transport` value: a rejection, or a delivered `(ok, body)`
  response.
- Redux's `auth.isAuthenticated`, `auth.user` and `authAPI.isAdmin()` reach the admin
  guard as parameters. The slice that maintains them is not part of this model.

## Model

| member | source | states |
|---|---|---|
| `Api.HandleResponse` | src/services/api.ts:16-24 | A response succeeds exactly when `ok`, with the body unchanged. A failure carries the server's message, or "API request failed" when that is empty, so the error is never empty. |
| `Api.Await` | src/services/api.ts:36-42 | Awaiting `fetch` and then `handleResponse`: a network rejection propagates unchanged, and a delivered response is handled by `handleResponse`. |
| `Api.Headers` | src/services/api.ts:27-32 | `Content-Type: application/json` is always present. `Authorization` is present exactly when a truthy token is stored, and then its value is `"Bearer " + token`. There are no other headers. |
| `Api.IsAuthenticated` | src/services/api.ts:87-89 | True exactly when the key `token` exists with a non-empty value. |
| `Api.GetCurrentUser` | src/services/api.ts:91-94 | `null` exactly when no truthy `user` string is stored. Otherwise it is the parsed record, or the parse exception. |
| `Api.IsAdmin` | src/services/api.ts:96-107 | True exactly when the stored user string parses to a record with role "admin". A missing key and a parse failure both give false. |
| `Api.WithSession` | src/services/api.ts:44-47 | With a truthy `data.token`, both `token` and `user` (the stringified user) are written. Without one the store is unchanged. No other key ever changes. |
| `Api.WithoutSession` | src/services/api.ts:74-77 | Both session keys are gone and every other key is unchanged. |
| `Api.LoginOutcome` | src/services/api.ts:52-72 | `login` resolves exactly when the request succeeded. Every failure is re-raised with its message, or "Login failed" when that is empty. |
| `Api.RequestOf` | src/services/api.ts:34-169 | Every `authAPI` call sends `getHeaders()` to a path under `/api/auth/`. Exactly the two GET calls (`getProfile`, `verifyEmail`) carry no body. |
| `Api.ResetPasswordBody` | src/services/api.ts:130-138 | `resetPassword(a, p)` posts `{email: a, newPassword: p}` to `/api/auth/reset-password`. Its first argument always travels as `email`. |
| `Api.SessionEstablished` | src/services/api.ts:44-107 | After a login or registration that returned a token, and given any round-tripping codec, the session reads back what the server sent. The user is authenticated, `getCurrentUser` is the returned user, `isAdmin` holds exactly for role "admin", and the bearer header carries the new token. |
| `Api.SessionEnded` | src/services/api.ts:74-107 | After `logout`, `isAuthenticated` and `isAdmin` are false, `getCurrentUser` is `null`, and no `Authorization` header is sent. |
| `Api.RegisterBody` | src/services/api.ts:35-40 | The register body holds `name`, `email` and `password` as given, and an `otp` field exactly when a code is given (`JSON.stringify` drops an absent one). |
| `Api.SessionStore.Register` | src/services/api.ts:35-50 | Sends the register request, with the optional `otp`. On success the store becomes `WithSession` of the old store and the body; on failure it is unchanged. |
| `Api.SessionStore.Login` | src/services/api.ts:52-72 | Sends the login request and returns `LoginOutcome`. On success the store becomes `WithSession` of the old store and the body; on failure it is unchanged. |
| `Api.SessionStore.Logout` | src/services/api.ts:74-77 | The store becomes `WithoutSession` of the old store. |
| `Admin.AccessEffects` | src/pages/Admin.tsx:51-77 | The portfolio is fetched exactly when the user is authenticated and both admin checks pass. Otherwise exactly one `"auth-access"` toast is shown. An unauthenticated user goes to `/login` and is not logged out. An authenticated user who is refused is always logged out (the line-67 test is the negation of line 60) and goes to `/`. |
| `Admin.BearerMatchesHeaders` | src/pages/Admin.tsx:117-123 | With a token stored, the admin page's hand-written bearer credential equals the one `getHeaders` would send. |
| `Admin.BearerWithoutToken` | src/pages/Admin.tsx:155-163 | With no token stored, the admin requests still send `Authorization: Bearer null`, although `getHeaders` would send none. |
| `Admin.AdminPage.constructor` | src/pages/Admin.tsx:36-49 | Initial state: an empty item list, both modals closed, no image, no preview, both flags down, no item to delete, blank form. |
| `Admin.AdminPage.CheckAccess` | src/pages/Admin.tsx:51-77 | Records the guard's effects. It starts one portfolio fetch exactly when access is granted, and changes no other state. |
| `Admin.AdminPage.ItemsFetchedAsWritten` | src/pages/Admin.tsx:79-87 | As written: any parsed body replaces the items, whatever the response status, and nothing is reported. Only a rejected request or an unparsable body keeps them and reports "Failed to fetch portfolio items". |
| `Admin.AdminPage.ItemsFetched` | src/pages/Admin.tsx:79-87 | With the status checked: only an ok response carrying a list replaces the items. Every other outcome keeps them and reports "Failed to fetch portfolio items", so a renderable list stays renderable. |
| `Admin.OpenAsWritten` | src/pages/Admin.tsx:79-87 | An admin's first fetch, as written: the table can render exactly when the request was rejected or the body is a list. A failure is reported exactly when the request was rejected, so a non-ok reply with an error object leaves an unrenderable list and no message. |
| `Admin.Open` | src/pages/Admin.tsx:79-87 | The same visit with the status checked: the table always renders, and a failure is reported exactly when the reply is not an ok list. |
| `Admin.AdminPage.OpenCreateModal` | src/pages/Admin.tsx:190-200 | The form is blanked, the image and preview cleared, and the modal opened. Nothing else changes. |
| `Admin.AdminPage.CloseCreateModal` | src/pages/Admin.tsx:322-324 | Only `showModal` changes, to false. |
| `Admin.AdminPage.EditField` | src/pages/Admin.tsx:338-400 | Only the edited form field changes. |
| `Admin.AdminPage.SelectImage` | src/pages/Admin.tsx:89-99 | A chosen file becomes the selected image. An empty choice changes nothing. |
| `Admin.AdminPage.RemoveImage` | src/pages/Admin.tsx:421-424 | The image and the preview are cleared, and nothing else changes. |
| `Admin.AdminPage.Submit` | src/pages/Admin.tsx:101-123 | Runs only on the open modal's form. Without an image, an error is shown, no request is made and `isLoading` is untouched. With one, `isLoading` goes up and the upload is sent with the form, the image and the stored token. |
| `Admin.AdminPage.SubmitSettled` | src/pages/Admin.tsx:125-142 | On success the form is reset to four empty strings, the image and preview are cleared, the modal is closed and the list is reloaded. On failure only the error is shown. `isLoading` ends false in every outcome. |
| `Admin.AdminPage.DeleteClick` | src/pages/Admin.tsx:145-148 | Remembers the item and opens the delete dialog. Nothing else changes. |
| `Admin.AdminPage.CancelDelete` | src/pages/Admin.tsx:519-524 | Closes the dialog and forgets the item. |
| `Admin.AdminPage.Delete` | src/pages/Admin.tsx:150-163 | Runs only from the open dialog's confirm button. A no-op when no item is remembered. Otherwise `isDeleting` goes up and the deletion of that item's id is sent. |
| `Admin.AdminPage.DeleteSettled` | src/pages/Admin.tsx:165-175 | On success the dialog is closed, the item forgotten and the list reloaded. `isDeleting` ends false in every outcome. |
| `Admin.AdminPage.Logout` | src/pages/Admin.tsx:178-181 | Dispatches the logout, then navigates to `/login`. |
| `Login.FallbackAlreadyApplied` | src/pages/Login.tsx:47-50 | For any failure of `authAPI.login`, the page's own "Login failed" fallback never applies: the message is never empty. |
| `Login.LoginPage.constructor` | src/pages/Login.tsx:21-24 | Mounting dispatches `setLoading(false)`, and both flags start down. |
| `Login.LoginPage.Change` | src/pages/Login.tsx:57-62 | Only the named field changes. |
| `Login.LoginPage.Submit` | src/pages/Login.tsx:26-43 | A no-op, with no state change and no call, while the button is disabled (`isLoading` or `isSubmitting`). An empty email or password gives only an error toast. Otherwise both flags go up and the login request is sent. |
| `Login.LoginPage.Settled` | src/pages/Login.tsx:43-54 | Success dispatches `loginSuccess(response)` and ends by navigating to `/admin`. Failure dispatches `loginFailure` with the message or "Login failed". Both flags end down in either case. |
| `ForgotPassword.ForgotPasswordPage.constructor` | src/pages/ForgotPassword.tsx:10-17 | Starts at step `email`, not loading, with four empty fields. |
| `ForgotPassword.ForgotPasswordPage.Change` | src/pages/ForgotPassword.tsx:65-70 | Only the named field changes. |
| `ForgotPassword.ForgotPasswordPage.SubmitEmail` | src/pages/ForgotPassword.tsx:19-23 | `isLoading` goes up and the OTP request for the entered email is sent. |
| `ForgotPassword.ForgotPasswordPage.EmailSettled` | src/pages/ForgotPassword.tsx:23-30 | Success advances to `otp`. Failure stays at `email` and shows the message or "Failed to send OTP". The step moves forward by at most one, and `isLoading` ends false. |
| `ForgotPassword.ForgotPasswordPage.SubmitOtp` | src/pages/ForgotPassword.tsx:33-37 | `isLoading` goes up and the email and OTP are sent for verification. |
| `ForgotPassword.ForgotPasswordPage.OtpSettled` | src/pages/ForgotPassword.tsx:37-44 | Success advances to `reset`. Failure stays and shows the message or "Invalid OTP". `isLoading` ends false. |
| `ForgotPassword.ForgotPasswordPage.SubmitReset` | src/pages/ForgotPassword.tsx:47-55 | Mismatched passwords give an error and leave `isLoading` untouched. Otherwise the email and new password are sent. |
| `ForgotPassword.ForgotPasswordPage.ResetSettled` | src/pages/ForgotPassword.tsx:55-62 | Success navigates to `/login`. Failure shows the message or "Failed to reset password". `isLoading` ends false. |
| `ResetPassword.VerificationNeverSucceeds` | src/pages/ResetPassword.tsx:26-33 | `authAPI` defines no `verifyResetToken`, so the verification fails whatever the server would answer. |
| `ResetPassword.ResetPasswordPage.constructor` | src/pages/ResetPassword.tsx:17-37 | With no truthy `token` parameter, the page shows "Invalid reset link" and goes to `/forgot-password`. Otherwise, when `authAPI.verifyResetToken` exists, it sends the token for verification. When it does not, the call throws before any request and the page shows "Invalid or expired reset link" and goes to `/forgot-password`. The form starts hidden. |
| `ResetPassword.ResetPasswordPage.VerifySettled` | src/pages/ResetPassword.tsx:26-33 | Acceptance opens the form. Rejection shows "Invalid or expired reset link" and goes to `/forgot-password`. |
| `ResetPassword.ResetPasswordPage.Change` | src/pages/ResetPassword.tsx:67-72 | Only the named field changes. |
| `ResetPassword.ResetPasswordPage.Submit` | src/pages/ResetPassword.tsx:39-53 | Mismatched passwords give an error and leave `isLoading` untouched. A missing token fails at once with the fixed text. Otherwise the token is sent as the first argument of `resetPassword`. |
| `ResetPassword.ResetPasswordPage.SubmitSettled` | src/pages/ResetPassword.tsx:53-64 | Success ends by navigating to `/login`. Every failure shows the fixed "Failed to reset password". `isLoading` ends false. |
| `ResetPassword.Visit` | src/pages/ResetPassword.tsx:17-74 | With a working verification, the reset form is rendered exactly when the link has a token and the server accepts it, and a token is first sent for verification. |
| `ResetPassword.VisitAsWritten` | src/pages/ResetPassword.tsx:17-74 | With the verification as written, the reset form is never rendered and no request leaves the page. A token is reported at once as an invalid or expired link. |
| `Register.NameFromEmail` | src/pages/Register.tsx:30 | The display name is the prefix of the email before its first '@' and contains no '@'. It is the whole email when there is no '@'. |
| `Register.NameIgnoresDomain` | src/pages/Register.tsx:30 | For a local part without '@', the name of `local@domain` is `local`, whatever the domain. |
| `Register.RegisterPage.constructor` | src/pages/Register.tsx:13-17 | Three empty fields, nothing pending. |
| `Register.RegisterPage.Change` | src/pages/Register.tsx:44-49 | Only the named field changes. |
| `Register.RegisterPage.Submit` | src/pages/Register.tsx:20-33 | Mismatched passwords give only an error. Otherwise the register action is dispatched with the derived name and the unchanged email and password. |
| `Register.RegisterPage.Settled` | src/pages/Register.tsx:33-41 | Success ends by navigating to `/admin`. Failure shows the message or "Registration failed". |
| `Contact.ValidEmailMatchesPattern` | src/pages/Contact.tsx:38-41 | The executable check accepts exactly the strings the regular expression matches (both directions). |
| `Contact.AcceptedEmailShape` | src/pages/Contact.tsx:38-41 | An accepted address has exactly one '@', with a non-empty local part before it. Every character is in `[A-Za-z0-9._@-]`, so none is whitespace. After the last dot come two to six letters, with a non-empty domain between the '@' and that dot. |
| `Contact.ContactPage.constructor` | src/pages/Contact.tsx:15-23 | Four empty fields, status `idle`, no request pending. |
| `Contact.ContactPage.Change` | src/pages/Contact.tsx:43-50 | Only the field keyed by the input's id changes. |
| `Contact.ContactPage.Submit` | src/pages/Contact.tsx:52-74 | The button is disabled exactly while the status is `loading`. An invalid email plays the error sound and raises an error, leaving the status. A valid one sets `loading` and sends the form, one more pending request, even while an earlier one is still out. `loading` is shown only while some request is pending. |
| `Contact.ContactPage.Settled` | src/pages/Contact.tsx:76-94 | One pending request settles. Success sets `success`, plays the success sound and clears all four fields. Failure sets `error` and keeps the fields. Either way a reset timer is armed. |
| `Contact.ContactPage.TimerFired` | src/pages/Contact.tsx:85-93 | A pending timer sets the status back to `idle`, and keeps the invariant that `loading` implies a pending request. |
| `Portfolio.WithCategory` | src/components/Portfolio.tsx:63 | Every result has the category and is a project. Every project with the category is included. The result is an order-preserving subsequence of the input, and each matching project appears as often as in the input. |
| `Portfolio.Filtered` | src/components/Portfolio.tsx:61-63 | For "All" the result equals `projects`. Otherwise it is exactly the projects of that category, each as often as in `projects`. In both cases it is an order-preserving subsequence of `projects`, no longer than it. |
| `Portfolio.SubsequenceLength` | src/components/Portfolio.tsx:61-63 | An order-preserving subsequence is never longer than its source. |
| `Portfolio.CategoriesCoverProjects` | src/components/Portfolio.tsx:5-56 | `categories[0]` is "All", no project has category "All", and every project's category is in `categories`. |
| `Portfolio.EveryCategoryShowsAProject` | src/components/Portfolio.tsx:5-63 | Every filter button other than "All" shows at least one project. |
| `Portfolio.ProjectIdsDistinct` | src/components/Portfolio.tsx:5-54 | Project ids, which key the rendered grid, are distinct. |

## Left out

- Network, HTTP and JSON. `fetch` is an abstract transport outcome, `response.json()` an abstract body, and JSON (de)serialisation of user records an abstract codec. The base URL from `VITE_API_URL` is dropped from paths. The shape of multipart form data is not modelled beyond its fields.
- Server-side behaviour. OTP generation, expiry and single use, token issuance, password hashing and what the contact endpoint does are not visible in the client. Requests are recorded, and their outcomes are parameters.
- The Redux `authSlice` is not part of this model. Its actions are recorded dispatches. Its `isLoading` flag appears as `LoginPage.isLoading` and as `RegisterPage.pending`, as each page reads it.
- React rendering and hooks. Re-running the admin guard when the session changes is a repeated `CheckAccess` call. Modal and form visibility gate handlers only through preconditions.
- Admin.AdminPage.SelectImage: does not set the preview. `FileReader` is asynchronous browser I/O, and `imagePreview` is only ever cleared in the model.
- Timing. `setTimeout` delays before navigation are modelled as "navigation comes last". The 3-second reset of the contact status is a `TimerFired` step that may come at any later point. Toast durations are not modelled.
- Audio playback is a recorded `PlaySound` effect. Whether `play()` succeeds is not modelled; its failure is only logged.
- Overlapping requests. Each `…Settled` requires its request to be outstanding, and a second submit of the same form is excluded by the same precondition that mirrors the disabled button. The contact page is the exception. A stale timer can re-enable its button while a request is out, so it counts pending requests and lets them overlap. Which of them settles first is not distinguished.
- Admin.AdminPage.ItemsFetchedAsWritten: does not model the render crash itself. When a JSON value that is not a list is stored, `portfolioItems.map` (src/pages/Admin.tsx:259) throws, and `Renders()` being false stands for that. React error handling is not part of this model.
- Api.GetCurrentUser: does not model `JSON.parse("null")` or other stored non-object JSON. Those fall under the codec's `None` or a record.
- `console.error` logging, the "remember me" checkbox, password visibility toggles and the purely presentational components are not modelled. The Chatbot step table and the mail relay in `server.js` are not part of this model.
- JavaScript strings are UTF-16. The model's characters are Unicode scalar values. This changes nothing for the ASCII character classes of the email check.

## Findings

| source | as written | input that shows it | evidently intended | confidence | as-written member | corrected member |
|---|---|---|---|---|---|---|
| src/pages/ResetPassword.tsx:28 | The page calls `authAPI.verifyResetToken(token)`, but `authAPI` (src/services/api.ts:34-169) defines no such member. The call throws a TypeError inside the `try`, so the `catch` always reports an invalid link, and `isValidToken` never becomes true. | any link with a non-empty `token`, e.g. `/reset-password?token=abc`, whatever the server would answer | verify the token with the server and render the form when it is accepted | high; not executed | `ResetPassword.VisitAsWritten` | `ResetPassword.Visit` |
| src/pages/Admin.tsx:81-83 | `fetchPortfolioItems` never tests `response.ok`, and stores whatever JSON comes back with `setPortfolioItems(data)`. Only a rejected request or an unparsable body reaches the `catch`. | a non-ok reply with a JSON error body such as `{"message": "Server error"}`: no toast is shown, and `portfolioItems.length` is undefined, so the table branch runs `.map` on an object (src/pages/Admin.tsx:217, 259) | report "Failed to fetch portfolio items" and keep the list unless the response is ok and carries a list | medium; not executed | `Admin.OpenAsWritten` | `Admin.Open` |
