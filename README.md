# BANKATI front end: session, guards and account forms

This project models the core of the BANKATI web front end, a React single-page application for a
mobile-wallet bank with three spaces: admin, agent and client. It models the following parts:

- the authentication service that keeps the session (`token`, `user`, `userId`) in the browser's
  `localStorage`;
- the HTTP instances, whose request interceptor adds the `Authorization: Bearer …` header;
- the route guard, which sends visitors to the login page or back home;
- the login page;
- the password-change form;
- the agent dashboard and the profile page, which PUT the profile, optionally POST a password change,
  and merge the new profile into the cached user;
- the admin's "add agent" page and the agent's "add client" page, with their live e-mail and phone
  availability checks;
- the two edit modals (agent and client);
- the client and agent lists, with their search filters and deactivation.

How the model is built:

- Each page's state is a `datatype`.
- What a handler does is a pure function from the old state and the outcomes of its requests to the
  new state and the requests it sent.
- The React component is a `class` with the same fields. Each handler is a `method` whose `ensures`
  ties the new fields (and `localStorage`) to that function.
- Properties of the pages are proved about the functions, as `ensures` clauses and lemmas.
- `localStorage` is the class `BrowserStorage.Storage`, holding a `map<string, string>`.
- An awaited request is a `Reply` parameter: either an answer with a status and a JSON body, or a
  failure that carries an optional response.
- `JSON.parse` and `JSON.stringify` are a `Codec` parameter. A failed parse is `None`.
- `Math.random()` draws and `parseFloat` are parameters too.

Modules:

- `Wrappers`, `Js` and `Http`: JSON values, JavaScript truthiness, `||` defaults, string search and
  filtering, and the request shapes.
- `BrowserStorage`, `AuthService`, `Api`, `ProtectedRoute` and `LoginPage`: the session and the guards.
- `PasswordRule` and `ProfileForm`: the strength rule and the profile form. Several pages copy these
  verbatim.
- `UpdatePassword`, `AgentDashboard`, `UpdateProfile`, `AddAgent`, `AddClient`, `EditModal`,
  `ClientList` and `AgentList`: one module per page.

## Model

| member | source | states |
|---|---|---|
| BrowserStorage.Storage.constructor | src/services/auth.service.ts:11-13 | storage starts with the given items |
| BrowserStorage.Storage.GetItem | src/services/auth.service.ts:33 | `getItem` finds a value exactly for a stored key, and it is the stored value |
| BrowserStorage.Storage.SetItem | src/services/auth.service.ts:11-13 | `setItem` stores the value under the key and changes no other key |
| BrowserStorage.Storage.RemoveItem | src/services/auth.service.ts:24-27 | `removeItem` drops exactly that key |
| Js.Prop | src/features/admin/pages/AddAgent.tsx:72 | a property read finds a value exactly when the value is an object holding the key |
| Js.Truthy | src/services/auth.service.ts:44 | JavaScript truthiness: `null`, `false`, `0` and `""` are falsy, every other value (objects included) is truthy; `Js.OrElse` and `Js.Str` state what the pages build on it |
| Js.OrElse | src/components/common/forms/EditModal.tsx:53-58 | `v \|\| fallback`: the value when it is truthy, the fallback otherwise |
| Js.ObjOf | src/features/agent/pages/AddClient.tsx:99-102 | the object literal of a string form has the form's keys, each holding the form's string |
| Js.Str | src/services/auth.service.ts:13 | the text of a truthy value is not empty; a string is its own text |
| Js.IntToDecimal | src/services/auth.service.ts:13 | `toString()` of an integer id: its decimal text, never empty, with a leading `-` for a negative number |
| Js.Spread | src/features/agent/pages/AgentDashboard.tsx:108-111 | the fields `{...j}` copies: an object's own fields, a string's indexed characters, none for other values; `Js.Merge` states the merge built on it |
| Js.Merge | src/features/agent/pages/AgentDashboard.tsx:108-111 | `{...base, ...over}` has the keys of both; `over` wins on the shared keys, and the base keeps the rest |
| Js.ToLower | src/features/admin/pages/ClientList.tsx:67-71 | `toLowerCase` keeps the length and lowers each ASCII letter |
| Js.Includes | src/features/admin/pages/ClientList.tsx:67-71 | `s.includes(t)` as a left-to-right search; `Js.IncludesIff` states that it succeeds exactly when `t` occurs in `s` |
| Js.IncludesIff | src/features/admin/pages/ClientList.tsx:67-71 | `includes` succeeds exactly when the term occurs at some position |
| Js.IncludesEmpty | src/features/admin/pages/ClientList.tsx:67-71 | every string includes the empty term |
| Js.Filter | src/features/admin/pages/ClientList.tsx:67-71 | `filter` keeps only elements of the list that pass the test |
| Js.FilterMembership | src/features/admin/pages/ClientList.tsx:67-71 | an element is in the filtered list exactly when it is in the list and passes the test |
| Js.FilterIsSubsequence | src/features/admin/pages/ClientList.tsx:67-71 | the filtered list keeps the original order: it is a subsequence of the list |
| Js.FilterKeepsAll | src/features/admin/pages/ClientList.tsx:67-71 | a list whose elements all pass is kept whole |
| Http.IsForbidden | src/features/admin/pages/ClientList.tsx:35 | `err.response?.status === 403`: a response is present and its status is 403; `ClientList.FetchErrorText` and `ClientList.DeactivateErrorText` state the message each case gets |
| Http.ServerMessage | src/components/common/forms/UpdatePassword.tsx:90-91 | `err.response?.data?.message`: absent without a response, otherwise the body's `message` field if it has one; `Http.MessageOr` states the text shown |
| Http.MessageOr | src/components/common/forms/UpdatePassword.tsx:90-93 | `err.response?.data?.message \|\| fallback`: the server's message when it is truthy, the fallback otherwise |
| Http.DataOr | src/components/common/forms/EditModal.tsx:134-139 | `data \|\| fallback` for a response body |
| Http.ErrorDataOr | src/components/common/forms/EditModal.tsx:140-143 | `err.response?.data \|\| fallback`: the fallback when there is no response |
| Http.CheckResult | src/features/admin/pages/AddAgent.tsx:69-85 | an answered availability check stores its body as the flag; a failed one only logs, so the flag keeps its value |
| AuthService.Cleared | src/services/auth.service.ts:23-29 | logout removes exactly the three session keys and keeps every other item |
| AuthService.ClearedIdempotent | src/services/auth.service.ts:23-29 | logging out twice is the same as logging out once |
| AuthService.ClearedAbsorbsSessionWrites | src/services/auth.service.ts:10-20 | a logout after writing the token and user leaves the same storage as a logout before |
| AuthService.ResponseComplete | src/services/auth.service.ts:10-13 | a login answer the service accepts: a non-null body with a truthy token and a truthy user whose `id` can be turned into text; `AuthService.LoginSpec` states that login succeeds exactly for such an answer |
| AuthService.LoginSpec | src/services/auth.service.ts:5-21 | login succeeds exactly when the answer has a truthy token, a truthy user and a user id. It then stores the token, the stringified user and the id, leaving the other items alone. Otherwise the session is cleared, and the error is the transport failure or "Invalid response format" |
| AuthService.CurrentUserSpec | src/services/auth.service.ts:31-39 | no stored user gives null and no change. An unparsable user gives null and a logout. Otherwise the parsed user, with storage unchanged |
| AuthService.AuthenticatedSpec | src/services/auth.service.ts:41-45 | authenticated exactly when a non-empty token is stored and the current user is truthy; the storage is what reading the user left |
| AuthService.NoSessionNotAuthenticated | src/services/auth.service.ts:41-45 | with no token or no user stored, nobody is authenticated |
| AuthService.CorruptUserClearsSession | src/services/auth.service.ts:35-38 | an unparsable cached user logs out and makes the session unauthenticated |
| AuthService.LogoutEndsSession | src/services/auth.service.ts:23-29 | after logout nobody is authenticated, and the check changes nothing more |
| AuthService.LoginThenAuthenticated | src/services/auth.service.ts:10-14 | after a successful login whose user round-trips through the codec to a truthy value, the session is authenticated and the current user is the parse of its stringified form |
| AuthService.Logout | src/services/auth.service.ts:23-29 | the storage becomes its cleared form |
| AuthService.Login | src/services/auth.service.ts:5-21 | the result and the new storage are those of the login specification |
| AuthService.GetCurrentUser | src/services/auth.service.ts:31-39 | the user and the new storage are those of the current-user specification |
| AuthService.IsAuthenticated | src/services/auth.service.ts:41-45 | the answer and the new storage are those of the authentication specification |
| Api.GetAuthToken | src/services/api.ts:4 | the header value is non-empty exactly when a non-empty token is stored, and is then `Bearer ` followed by the token |
| Api.BearerRoundTrip | src/services/api.ts:4 | the token can be read back from the header by dropping the `Bearer ` prefix |
| Api.NoHeaderAfterLogout | src/services/api.ts:4 | after logout no header value is produced |
| Api.Intercept | src/services/api.ts:22-33 | with a token, `Authorization` carries the bearer value and every other header is kept; without one the headers are unchanged |
| Api.RequestConfig.constructor | src/services/api.ts:6-20 | a request starts with the instance's JSON content-type and accept headers |
| Api.RunInterceptor | src/services/api.ts:22-33 | running the interceptor gives the intercepted headers for the current storage |
| ProtectedRoute.RoleAllowed | src/components/security/ProtectedRoute.tsx:19 | the user has a truthy `role` that is one of the allowed roles; `ProtectedRoute.Decide` and `ProtectedRoute.WrongRoleGoesHome` state that every other user is sent home |
| ProtectedRoute.Decide | src/components/security/ProtectedRoute.tsx:10-24 | an unauthenticated visitor goes to login. An authenticated one whose role is missing or not allowed goes home. Everyone else is rendered. Each outcome is characterised both ways |
| ProtectedRoute.SectionRoles | src/App.tsx:39-74 | `/admin` admits only `ADMIN`, `/agent` only `AGENT` and `/client` only `CLIENT` |
| ProtectedRoute.WrongRoleGoesHome | src/components/security/ProtectedRoute.tsx:19-21 | a user without a role, or with a role not in the list, is sent home |
| ProtectedRoute.ClientKeptOutOfAdmin | src/App.tsx:39-41 | a client is kept out of the admin space |
| ProtectedRoute.Guard | src/components/security/ProtectedRoute.tsx:10-24 | the guard decides from the authentication check and the current user; only a redirect to login clears the session |
| LoginPage.RoleOf | src/pages/LoginPage.tsx:19 | `response?.user?.role`: absent when the answer has no user or the user no role; `LoginPage.LandingFor` states where each role lands |
| LoginPage.LandingFor | src/pages/LoginPage.tsx:19-35 | each of the three roles lands on its own space and only there. No role gives "Invalid response from server"; an unknown role gives "Invalid user role" |
| LoginPage.LoginErrorText | src/pages/LoginPage.tsx:36-38 | a transport failure shows the server's message or "Authentication failed"; a malformed answer shows "Authentication failed" |
| LoginPage.LandingPassesGuard | src/pages/LoginPage.tsx:19-32 | the space a user lands on after login lets that user in |
| LoginPage.RestoreTokenIsNoop | src/pages/LoginPage.tsx:16 | storing the token again after login changes nothing |
| LoginPage.LoginForm.constructor | src/pages/LoginPage.tsx:8 | the form starts without an error |
| LoginPage.LoginForm.HandleSubmit | src/pages/LoginPage.tsx:11-39 | storage is what login leaves. A failed login shows its error and stays. A good one navigates to the landing space or shows the landing error |
| PasswordRule.Test | src/components/common/forms/UpdatePassword.tsx:16-19 | `/[class]/.test(p)` as a left-to-right search for a character of the class; `PasswordRule.TestIff` states that it succeeds exactly when some character is in the class |
| PasswordRule.ValidatePassword | src/components/common/forms/UpdatePassword.tsx:14-28 | `validatePassword(p)`: the length bound and the four class tests; `PasswordRule.ValidatePasswordIff` states it as an iff over the characters of `p` |
| PasswordRule.TestIff | src/components/common/forms/UpdatePassword.tsx:14-28 | a class test succeeds exactly when some character of the password is in the class |
| PasswordRule.ValidatePasswordIff | src/components/common/forms/UpdatePassword.tsx:14-28 | a password is accepted exactly when it has 8 or more characters, an upper-case letter, a lower-case letter, a digit and one of `!@#$%^&*` |
| PasswordRule.LowerCaseOnlyRejected | src/components/common/forms/UpdatePassword.tsx:14-28 | a password of lower-case letters only is rejected, whatever its length |
| ProfileForm.EmptyForm | src/features/agent/pages/AgentDashboard.tsx:5-13 | the form has the seven fields, all empty |
| ProfileForm.ProfileData | src/features/agent/pages/AgentDashboard.tsx:75-80 | the profile payload has exactly the four profile fields, copied from the form |
| ProfileForm.WantsPasswordChange | src/features/agent/pages/AgentDashboard.tsx:85 | a password change is wanted when the section is shown and both the current and the new password are non-empty; `AgentDashboard.AfterProfileSent` states that the password POST goes out only then |
| ProfileForm.PasswordBody | src/features/agent/pages/AgentDashboard.tsx:98-101 | the password POST body: exactly `currentPassword` and `newPassword`, taken from the form |
| ProfileForm.LoadedField | src/features/agent/pages/AgentDashboard.tsx:28-31 | a loaded profile field as the input shows it: the field's text when truthy, `""` otherwise; `ProfileForm.WithLoadedProfile` states the loaded form |
| ProfileForm.ClearPasswords | src/features/agent/pages/AgentDashboard.tsx:118-125 | the three password fields are emptied and every other field is kept |
| ProfileForm.WithLoadedProfile | src/features/agent/pages/AgentDashboard.tsx:25-32 | the four profile fields take the loaded values (`\|\| ''`) and the password fields are kept |
| UpdatePassword.EmptyForm | src/components/common/forms/UpdatePassword.tsx:5-9 | the form has its three fields, all empty |
| UpdatePassword.Submit | src/components/common/forms/UpdatePassword.tsx:38-97 | the POST goes out exactly when a token is stored, the passwords match and the new one passes the rule. Each rejection, in order, has its own message. A 200 resets the form with the success message. A 403 reports an expired session and other failures report the server's message; both keep the form. The submit always ends |
| UpdatePassword.MismatchReportedBeforeStrength | src/components/common/forms/UpdatePassword.tsx:53-65 | a mismatch is reported even when the new password is also weak |
| UpdatePassword.UpdatePasswordForm.constructor | src/components/common/forms/UpdatePassword.tsx:5-12 | the form starts empty, with no messages, not submitting |
| UpdatePassword.UpdatePasswordForm.HandleChange | src/components/common/forms/UpdatePassword.tsx:30-36 | only the named field changes |
| UpdatePassword.UpdatePasswordForm.HandleSubmit | src/components/common/forms/UpdatePassword.tsx:38-97 | the new state and the requests are those of the submit specification, with the stored token |
| AgentDashboard.MergedStore | src/features/agent/pages/AgentDashboard.tsx:104-113 | no cached user leaves storage as it is. An unparsable one fails. Otherwise the cached user becomes the stringified merge of the user and the profile |
| AgentDashboard.Finish | src/features/agent/pages/AgentDashboard.tsx:104-125 | a failed merge reports the update error and keeps storage. Otherwise it stores the merge and reports success; the passwords are cleared exactly when the section is shown |
| AgentDashboard.AfterProfileSent | src/features/agent/pages/AgentDashboard.tsx:84-125 | the password POST goes out exactly when a change is wanted, the passwords match and the new one passes the rule. A mismatch or a weak password stops with its message and no merge. A failed POST reports the server's message. Otherwise the update finishes |
| AgentDashboard.Submit | src/features/agent/pages/AgentDashboard.tsx:67-135 | the profile PUT always goes out first, and a failed PUT reports the server's message. The password POST follows exactly under the conditions above. Storage changes only through a successful merge. The submit always ends |
| AgentDashboard.MergeKeepsOtherFields | src/features/agent/pages/AgentDashboard.tsx:108-111 | the merged user keeps every field it had and takes the four profile fields from the form |
| AgentDashboard.Dashboard.constructor | src/features/agent/pages/AgentDashboard.tsx:5-17 | the page starts with an empty form, no messages, not submitting and the section hidden |
| AgentDashboard.Dashboard.LoadAgentData | src/features/agent/pages/AgentDashboard.tsx:19-41 | the page GETs the agent profile. A body fills the four fields. A failure reports `err.response?.data \|\| …`. A null body sets no message: the updater reading its fields throws during render, and the page is reported unmounted |
| AgentDashboard.Dashboard.HandleChange | src/features/agent/pages/AgentDashboard.tsx:59-65 | only the named field changes |
| AgentDashboard.Dashboard.TogglePasswordSection | src/features/agent/pages/AgentDashboard.tsx:217 | the section flips and nothing else changes |
| AgentDashboard.Dashboard.MergeIntoStorage | src/features/agent/pages/AgentDashboard.tsx:104-113 | the merge succeeds exactly when the merge specification does, and the storage is its value; otherwise storage is unchanged |
| AgentDashboard.Dashboard.FinishUpdate | src/features/agent/pages/AgentDashboard.tsx:104-125 | state and storage are those of the finishing specification |
| AgentDashboard.Dashboard.PasswordStepAndFinish | src/features/agent/pages/AgentDashboard.tsx:84-125 | state, storage and requests are those of the after-PUT specification |
| AgentDashboard.Dashboard.HandleSubmit | src/features/agent/pages/AgentDashboard.tsx:67-135 | state, storage and requests are those of the submit specification |
| UpdateProfile.ProfileEndpoint | src/features/client/components/UpdateProfile.tsx:29-41 | the profile GET's path: `/agent/profile` for an `AGENT`, otherwise the client record by id; `UpdateProfile.AgentProfileOnlyForAgents` states both cases |
| UpdateProfile.AgentProfileOnlyForAgents | src/features/client/components/UpdateProfile.tsx:29-41 | only an `AGENT` user reaches the agent's own profile; any other user reaches a client record |
| UpdateProfile.LoadUser | src/features/client/components/UpdateProfile.tsx:22-29 | the load reads a user exactly when a non-empty stored string parses to a non-null value |
| UpdateProfile.Load | src/features/client/components/UpdateProfile.tsx:19-57 | no cached user reports "No user data found" with no request. A usable user gets one GET to the endpoint its role selects. The form changes only when that GET answers with a body. A null body sets no message and makes the render fail (the updater throws outside the `try`). Every failure the `catch` sees reports the load error |
| UpdateProfile.SubmitUser | src/features/client/components/UpdateProfile.tsx:90-91 | nothing cached reads as the empty object; otherwise the parse of the stored string |
| UpdateProfile.Submit | src/features/client/components/UpdateProfile.tsx:83-126 | requests go out only for a usable user, the PUT first. The password POST follows a good PUT whenever a change is wanted. Success comes exactly when every step went through, and then the cached user holds the merged profile. Each failure has its message, with storage untouched |
| UpdateProfile.Send | src/features/client/components/UpdateProfile.tsx:100-120 | once the user is read: the PUT, then the optional POST, then the success message and the merge. A failure stops with the server's message and leaves storage unchanged |
| UpdateProfile.WeakPasswordStillSent | src/features/client/components/UpdateProfile.tsx:107-113 | a new password the strength rule rejects is still POSTed |
| UpdateProfile.ProfilePage.constructor | src/features/client/components/UpdateProfile.tsx:5-17 | the page starts with an empty form, no messages, not submitting and the section hidden |
| UpdateProfile.ProfilePage.LoadUserData | src/features/client/components/UpdateProfile.tsx:19-57 | state, requests and the render failure are those of the load specification |
| UpdateProfile.ProfilePage.HandleChange | src/features/client/components/UpdateProfile.tsx:75-81 | only the named field changes |
| UpdateProfile.ProfilePage.TogglePasswordSection | src/features/client/components/UpdateProfile.tsx:203 | the section flips and nothing else changes |
| UpdateProfile.ProfilePage.HandleSubmit | src/features/client/components/UpdateProfile.tsx:83-126 | state, storage and requests are those of the submit specification |
| UpdateProfile.ProfilePage.SendRequests | src/features/client/components/UpdateProfile.tsx:100-120 | state, storage and requests are those of the sending specification |
| UpdateProfile.ProfilePage.Commit | src/features/client/components/UpdateProfile.tsx:115-120 | success is reported and the cached user becomes the merge of the user and the profile |
| AddAgent.CharIndex | src/features/admin/pages/AddAgent.tsx:28 | `Math.floor(random * charset.length)` always indexes the charset |
| AddAgent.EveryCharDrawable | src/features/admin/pages/AddAgent.tsx:25-29 | every character of the charset can be drawn |
| AddAgent.GeneratedPassword | src/features/admin/pages/AddAgent.tsx:23-32 | the generated password has 12 characters, all from the charset |
| AddAgent.GenerateSecurePassword | src/features/admin/pages/AddAgent.tsx:23-32 | the loop builds 12 charset characters, one per draw |
| AddAgent.GeneratedMayBeWeak | src/features/admin/pages/AddAgent.tsx:23-32 | some draws give a password the strength rule rejects (`aaaaaaaaaaaa`) |
| AddAgent.InitialForm | src/features/admin/pages/AddAgent.tsx:35-48 | the form has its twelve fields, all empty except the identity type `CIN` |
| AddAgent.SubmissionData | src/features/admin/pages/AddAgent.tsx:115-119 | the payload is the form without `confirmEmail`, with the generated password in place of the typed one |
| AddAgent.Change | src/features/admin/pages/AddAgent.tsx:54-67 | the field is stored. An e-mail change fires the e-mail check, a phone change fires the phone check, and other fields fire nothing |
| AddAgent.Submit | src/features/admin/pages/AddAgent.tsx:87-141 | the agent is POSTed exactly when the e-mails agree and neither flag is truthy. Each rejection, in order, has its message. A success resets the form and a failure keeps it with the server's message. The flags are never touched |
| AddAgent.TypedPasswordIgnored | src/features/admin/pages/AddAgent.tsx:110-119 | the posted password is always the generated one, and `confirmEmail` is never posted |
| AddAgent.AddAgentPage.constructor | src/features/admin/pages/AddAgent.tsx:35-52 | the page starts with the initial form, no messages and both flags false |
| AddAgent.AddAgentPage.HandleChange | src/features/admin/pages/AddAgent.tsx:54-67 | state and requests are those of the change specification |
| AddAgent.AddAgentPage.OnEmailChecked | src/features/admin/pages/AddAgent.tsx:69-76 | only the e-mail flag changes, to the check's result |
| AddAgent.AddAgentPage.OnPhoneChecked | src/features/admin/pages/AddAgent.tsx:78-85 | only the phone flag changes, to the check's result |
| AddAgent.AddAgentPage.HandleSubmit | src/features/admin/pages/AddAgent.tsx:87-141 | state and requests are those of the submit specification |
| AddClient.InitialForm | src/features/agent/pages/AddClient.tsx:45-51 | the form has its five fields, all empty except the account type `HSSAB1` |
| AddClient.FieldFor | src/features/agent/pages/AddClient.tsx:137 | the account-type select writes `ceilingType`; every other input writes its own name |
| AddClient.MailCarriesPassword | src/features/agent/pages/AddClient.tsx:111 | the mail text contains the temporary password |
| AddClient.MailRequest | src/services/email.service.ts:7-11 | the mail is a GET to the mail service with `to`, `subject` and `text` as parameters |
| AddClient.CreateErrorText | src/features/agent/pages/AddClient.tsx:121-127 | the error shows the response body if truthy, else the error's message, else the fallback |
| AddClient.Change | src/features/agent/pages/AddClient.tsx:133-147 | the field is stored. A check fires exactly for a non-empty e-mail or phone, to its own endpoint |
| AddClient.ClearingEmailKeepsFlag | src/features/agent/pages/AddClient.tsx:58 | emptying the e-mail fires no check, so an earlier "taken" answer stays in force |
| AddClient.Created | src/features/agent/pages/AddClient.tsx:106-120 | a mail goes out exactly when the answer has a truthy temporary password; it goes to the client's address and carries that password. Then the page moves to the client list. Only a failed mail leaves an error |
| AddClient.Submit | src/features/agent/pages/AddClient.tsx:81-131 | the client is POSTed, as the form stands, exactly when neither flag is truthy. Each rejection has its message. The page moves on exactly when the POST answers with a body. A failure shows the creation error. The form and flags are kept and the submit always ends |
| AddClient.MailHasTemporaryPassword | src/features/agent/pages/AddClient.tsx:104-112 | a mail that went out carries the temporary password the backend returned |
| AddClient.SubmitDisabled | src/features/agent/pages/AddClient.tsx:256 | the submit button's `disabled`: a submit is running or either availability flag is truthy; `AddClient.DisabledButtonMatchesGuards` and `AddClient.TakenAnswerDisablesSubmit` state that it blocks exactly the submits that would post nothing |
| AddClient.DisabledButtonMatchesGuards | src/features/agent/pages/AddClient.tsx:256 | the button (`disabled={isSubmitting \|\| emailExists \|\| phoneExists}`) blocks, when no submit runs, exactly the pages a submit would not post; after any submit it is disabled exactly when nothing was posted |
| AddClient.TakenAnswerDisablesSubmit | src/features/agent/pages/AddClient.tsx:57-96 | a non-empty e-mail or phone fires its check; a truthy answer then disables the button, and a submit posts nothing |
| AddClient.AddClientPage.constructor | src/features/agent/pages/AddClient.tsx:45-55 | the page starts with the initial form, no error, both flags false and not submitting |
| AddClient.AddClientPage.HandleChange | src/features/agent/pages/AddClient.tsx:133-147 | state and requests are those of the change specification |
| AddClient.AddClientPage.OnEmailChecked | src/features/agent/pages/AddClient.tsx:57-67 | only the e-mail flag changes, to the check's result |
| AddClient.AddClientPage.OnPhoneChecked | src/features/agent/pages/AddClient.tsx:69-79 | only the phone flag changes, to the check's result |
| AddClient.AddClientPage.HandleSubmit | src/features/agent/pages/AddClient.tsx:81-131 | state, requests and navigation are those of the submit specification |
| AddClient.AddClientPage.AfterCreated | src/features/agent/pages/AddClient.tsx:106-120 | state, requests and navigation are those of the after-creation specification |
| EditModal.FormValue | src/components/common/forms/EditModal.tsx:115-118 | a form value as the inputs show it: the value when truthy, else the empty string |
| EditModal.Pick | src/components/common/forms/EditModal.tsx:48-52 | the picked fields are exactly the listed ones the record has, with the record's values |
| EditModal.ValidateField | src/components/common/forms/EditModal.tsx:64-76 | an unchanged value, or a missing or falsy record (`!agent`), is valid with no request. A changed one sends its check and is valid exactly when the check answers falsy. A failed check counts as invalid |
| EditModal.AgentForm | src/components/common/forms/EditModal.tsx:45-62 | the agent form has the user fields the agent has, plus each agent field taken from the agent (`\|\| default`) |
| EditModal.ClientForm | src/components/common/forms/EditModal.tsx:288-301 | the client form has exactly the listed fields the client has, with the client's values |
| EditModal.Reset | src/components/common/forms/EditModal.tsx:45-62 | a missing or falsy record (`if (agent)`) changes nothing; a truthy record resets the form and clears the validation errors |
| EditModal.Change | src/components/common/forms/EditModal.tsx:78-99 | the field is stored. An e-mail or phone edit runs its check and records "already in use", or `undefined` when valid, under that field. Other fields leave the errors alone |
| EditModal.ClientValue | src/components/common/forms/EditModal.tsx:321 | `balance` goes through `parseFloat`; every other field stays text |
| EditModal.AgentPutResult | src/components/common/forms/EditModal.tsx:134-143 | the modal updates and closes exactly on a 200. Another status shows its body or the fallback. A failure shows the error data or the retry message |
| EditModal.CheckedErrors | src/components/common/forms/EditModal.tsx:120-125 | both fields are recorded, and each carries a message exactly when its check failed |
| EditModal.AgentSubmit | src/components/common/forms/EditModal.tsx:101-146 | with a missing or falsy agent nothing happens. A missing required field stops with its message. Otherwise both checks run and record their errors. The PUT goes out exactly when both pass. The loading flag always ends false and the form is kept |
| EditModal.ClientSubmit | src/components/common/forms/EditModal.tsx:340-370 | with a missing or falsy client nothing happens. Both checks run without recording errors. The PUT goes out exactly when both pass, and the modal updates and closes exactly on a 200. A failure shows the error data or the fallback |
| EditModal.SubmitDisabled | src/components/common/forms/EditModal.tsx:259 | the button's `disabled` as written (also at line 469): loading, or any key in `validationErrors`, even one holding `undefined`; `EditModal.CheckedFieldDisablesSubmit` and `EditModal.FixedEmailStillDisabled` state its consequence (see Findings) |
| EditModal.CheckedFieldDisablesSubmit | src/components/common/forms/EditModal.tsx:85-97 | as written, any e-mail or phone edit disables the submit button, valid or not |
| EditModal.FixedEmailStillDisabled | src/components/common/forms/EditModal.tsx:259 | as written, the button stays disabled after a taken e-mail is fixed, though no message remains |
| EditModal.SubmitBlocked | src/components/common/forms/EditModal.tsx:259 | the corrected rule: loading, or some key holding a message; `EditModal.CheckedFieldBlocksIff` states it as an iff over the failed checks (see Findings) |
| EditModal.CheckedFieldBlocksIff | src/components/common/forms/EditModal.tsx:85-97 | corrected rule: after an edit the submit is blocked exactly while loading, when that check failed, or when another field still shows a message |
| EditModal.CheckedSubmitDisables | src/components/common/forms/EditModal.tsx:115-125 | after a submit's checks the button is disabled as written. Under the corrected rule it is blocked exactly when a check failed |
| EditModal.AgentEditModal.CanSubmit | src/components/common/forms/EditModal.tsx:259 | the corrected rule: the button is enabled exactly when nothing is loading and no message is shown |
| EditModal.AgentEditModal.constructor | src/components/common/forms/EditModal.tsx:37-43 | the modal starts with an empty form, no error, not loading and no validation errors |
| EditModal.AgentEditModal.SetAgent | src/components/common/forms/EditModal.tsx:45-62 | a new agent resets the modal as the reset specification says |
| EditModal.AgentEditModal.HandleChange | src/components/common/forms/EditModal.tsx:78-99 | state and requests are those of the change specification, in the admin space |
| EditModal.AgentEditModal.HandleSubmit | src/components/common/forms/EditModal.tsx:101-146 | state, requests and events are those of the agent submit specification |
| EditModal.ClientEditModal.CanSubmit | src/components/common/forms/EditModal.tsx:469 | the corrected rule: the button is enabled exactly when nothing is loading and no message is shown |
| EditModal.ClientEditModal.constructor | src/components/common/forms/EditModal.tsx:280-286 | the modal starts with an empty form, no error, not loading and no validation errors |
| EditModal.ClientEditModal.SetClient | src/components/common/forms/EditModal.tsx:288-301 | a new client resets the modal as the reset specification says |
| EditModal.ClientEditModal.HandleChange | src/components/common/forms/EditModal.tsx:317-338 | state and requests are those of the change specification, in the agent space, with `balance` parsed |
| EditModal.ClientEditModal.HandleSubmit | src/components/common/forms/EditModal.tsx:340-370 | state, requests and events are those of the client submit specification |
| ClientList.BaseEndpoint | src/features/admin/pages/ClientList.tsx:20-22 | the admin role uses the admin endpoint and every other role the agent endpoint |
| ClientList.ClientMatches | src/features/admin/pages/ClientList.tsx:67-71 | the search test: the lower-cased full name, the phone as typed, or a non-empty lower-cased e-mail includes the term; `ClientList.FilteredClientsSpec` states that the shown clients are exactly the matching ones |
| ClientList.FilteredClients | src/features/admin/pages/ClientList.tsx:67-71 | the search never adds clients: every shown client is listed and matches, and there are no more of them than listed |
| ClientList.FilteredClientsSpec | src/features/admin/pages/ClientList.tsx:67-71 | a client is shown exactly when it is listed and matches the full name, the phone or a non-empty e-mail; the listed order is kept |
| ClientList.EmptySearchKeepsAll | src/features/admin/pages/ClientList.tsx:67-71 | an empty search shows every client |
| ClientList.FetchErrorText | src/features/admin/pages/ClientList.tsx:35-37 | a 403 says viewing is forbidden; anything else says the fetch failed |
| ClientList.DeactivateErrorText | src/features/admin/pages/ClientList.tsx:56-58 | a 403 says deactivation is forbidden; anything else says it failed |
| ClientList.Fetch | src/features/admin/pages/ClientList.tsx:28-42 | a list replaces the clients and clears the error. A failure keeps the clients and shows the fetch error. Loading ends and nothing else changes |
| ClientList.Deactivate | src/features/admin/pages/ClientList.tsx:49-65 | nothing happens without confirmation. Otherwise the DELETE goes out, then on success a refetch, and on failure the error. The deleting marker always ends cleared |
| ClientList.ClientListPage.Shown | src/features/admin/pages/ClientList.tsx:67-71 | the shown clients are exactly the listed ones matching the search |
| ClientList.ClientListPage.constructor | src/features/admin/pages/ClientList.tsx:12-18 | the page starts loading with no clients, no search, no error and the modal closed |
| ClientList.ClientListPage.FetchClients | src/features/admin/pages/ClientList.tsx:28-42 | one GET to the role's endpoint, and the state of the fetch specification |
| ClientList.ClientListPage.SetSearchTerm | src/features/admin/pages/ClientList.tsx:67 | only the search term changes |
| ClientList.ClientListPage.HandleEdit | src/features/admin/pages/ClientList.tsx:44-47 | the client is selected and the modal opens |
| ClientList.ClientListPage.CloseModal | src/features/admin/pages/ClientList.tsx:175-183 | the selection is dropped and the modal closes |
| ClientList.ClientListPage.HandleDeactivate | src/features/admin/pages/ClientList.tsx:49-65 | state and requests are those of the deactivation specification |
| ClientList.ClientListPage.ErrorTimeout | src/features/admin/pages/ClientList.tsx:60 | the timer clears the error and nothing else |
| AgentList.AgentMatches | src/features/admin/pages/AgentList.tsx:51-54 | the search test: the lower-cased first name or the phone as typed includes the term; `AgentList.FilteredAgentsSpec` and `AgentList.LastNameAndEmailIgnored` state what it keeps |
| AgentList.FilteredAgents | src/features/admin/pages/AgentList.tsx:51-54 | the search never adds agents: every shown agent is listed and matches, and there are no more of them than listed |
| AgentList.FilteredAgentsSpec | src/features/admin/pages/AgentList.tsx:51-54 | an agent is shown exactly when it is listed and its first name (case-insensitively) or phone includes the term; the listed order is kept |
| AgentList.LastNameAndEmailIgnored | src/features/admin/pages/AgentList.tsx:51-54 | the search ignores last names and e-mails |
| AgentList.EmptySearchKeepsAll | src/features/admin/pages/AgentList.tsx:51-54 | an empty search shows every agent |
| AgentList.Fetch | src/features/admin/pages/AgentList.tsx:17-24 | a list replaces the agents; a failure changes nothing |
| AgentList.Deactivate | src/features/admin/pages/AgentList.tsx:40-49 | nothing happens without confirmation. Otherwise the DELETE goes out, followed on success by a refetch; a failure changes nothing |
| AgentList.DeactivateNeedsConfirmation | src/features/admin/pages/AgentList.tsx:41 | requests go out exactly when confirmed, and the list changes only through a refetch |
| AgentList.AgentListPage.Shown | src/features/admin/pages/AgentList.tsx:51-54 | the shown agents are exactly the listed ones matching the search |
| AgentList.AgentListPage.constructor | src/features/admin/pages/AgentList.tsx:8-11 | the page starts with no agents, no search and the modal closed |
| AgentList.AgentListPage.FetchAgents | src/features/admin/pages/AgentList.tsx:17-24 | one GET to the agents endpoint, and the state of the fetch specification |
| AgentList.AgentListPage.SetSearchTerm | src/features/admin/pages/AgentList.tsx:51 | only the search term changes |
| AgentList.AgentListPage.HandleEdit | src/features/admin/pages/AgentList.tsx:26-29 | the agent is selected and the modal opens |
| AgentList.AgentListPage.CloseModal | src/features/admin/pages/AgentList.tsx:121-124 | the selection is dropped and the modal closes |
| AgentList.AgentListPage.HandleDeactivate | src/features/admin/pages/AgentList.tsx:40-49 | state and requests are those of the deactivation specification |

## Left out

- Rendering (JSX, CSS classes, icons) and `console` logging are not modelled.
- `isSubmitting`/`loading` spinners are modelled as flags only.
- Asynchrony: each handler runs to completion with its awaited outcomes given as parameters. Interleavings of concurrent handlers, and late answers of the availability checks, are not modelled.
- AgentList.AgentListPage.HandleDeactivate: the refetch after a DELETE is not awaited in the source; the model runs it in sequence.
- The `setTimeout` in the client list's deactivation is the separate step `ClientList.ClientListPage.ErrorTimeout`. The 3-second delay is not modelled.
- JSON is modelled without arrays or floating-point numbers. `JSON.parse`/`JSON.stringify` are a codec parameter, so no round-trip law is assumed between them.
- `parseFloat` and `Math.random()` are parameters. NaN and floating-point rounding are not modelled.
- `toLowerCase` lowers ASCII letters only; Unicode case mapping is not modelled. String lengths count code points where JavaScript counts UTF-16 units.
- The list records (`Client`, `Agent`) hold only the fields the searches and deactivation read. The list GETs are answered with typed lists instead of raw JSON.
- The message of the TypeError thrown on a null response body is taken as a constant.
- Http.MessageOr: the server's `message` is taken to be a string, as the backend sends it; a message of another kind is kept in its `String()` form, where the source stores the value itself and would fail to render an object.
- Http.DataOr: a response body shown as an error is kept in its `String()` form. The source stores the JSON value itself, and rendering an object body as `{error}` throws; that render failure, and a `true` body rendering as nothing, are not modelled.
- Http.ErrorDataOr: the same `String()` form of `err.response?.data`, with the same render failure on an object body not modelled.
- AddClient.CreateErrorText: the same `String()` form of `apiError.response?.data`, with the same render failure on an object body not modelled.
- AgentList's `handleUpdate` is never called by the page (the modal's `onUpdate` calls `fetchAgents` directly), so it is not modelled separately.
- `navigate` is an answered path, and `<Navigate>` is a `Decision` value. The router itself is not part of this model.
- `window.confirm` is the `confirmed` parameter.
- The base URLs `AUTH_URL` and `WALLET_URL` are left abstract; only the mail service's URL is a constant.
- `src/App.tsx` enters only through the roles of its three protected spaces; the rest of the routing table is not part of this model.

## Findings

| source | as written | input that shows it | evidently intended | confidence | as-written member | corrected member |
|---|---|---|---|---|---|---|
| src/components/common/forms/EditModal.tsx:85-97, 259, 469 | a valid e-mail or phone check stores `undefined` under its key, and the button is `disabled={loading \|\| Object.keys(validationErrors).length > 0}`, which counts that key | edit an agent's e-mail to a taken address, then to a free one: `validationErrors` is `{email: undefined}` and the button stays disabled | the button is disabled only while loading or while a field shows a message | not executed | EditModal.FixedEmailStillDisabled | EditModal.CheckedFieldBlocksIff |
