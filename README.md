# EcoCarbon client, modelled in Dafny

A model of the decision logic and list state of the EcoCarbon React client
(a front end over a REST backend for carbon-emission reporting), with proofs
of what each piece promises. The model covers:

- the authentication service, a two-key token store (`access`, `refresh`) in
  `localStorage` holding JSON-encoded strings;
- the session context that derives a role and a permission from the profile;
- the security hook (token verification with a refresh fallback, the
  permission ladder, the integrity check and the API-call wrapper);
- the three route gates (`RouteGuard`, `ProtectedRoute`,
  `PasswordProtectedRoute`) and the layout's per-path access table, with
  lemmas that set the three permission checks side by side;
- the validators on the login and change-password pages;
- the company context and the two pages that edit companies;
- the notification list, the two upload pages, the two user-management
  pages, and the local user lists of the administration and index pages.

Every backend call is an input: an outcome (`Result` or `Option`) handed to
the method that makes the call. Each call is also appended to a log field,
so that "no call was made" is a checkable statement. Stateful components
(services, contexts, pages) are classes whose fields are the component's
state. Their handlers are methods whose `ensures` give the new value of the
fields they may change, in terms of the old state and the inputs (the
exceptions are listed under "Left out"). The decisions they take are pure functions. Lemmas relate those
functions to each other and to reference definitions.

There is one Dafny module per source file, plus `Common` (trimming, lower
case, substring, filtering and counting over sequences), `Json` (the part of
`JSON.parse` and `JSON.stringify` the token store relies on) and `Gates`
(comparisons between the three permission checks).

## Model

| member | source | states |
|---|---|---|
| Auth.ReadToken | src/services/auth.ts:69-85 | A token read never fails: an absent key, an empty value and a value JSON.parse rejects all read as null; any other value read is what JSON.parse gives for the stored text |
| Auth.Cleared | src/services/auth.ts:63-65 | `logout`'s storage: both token keys are gone and every other key is kept with its value |
| Auth.TokenRoundTrip | src/services/auth.ts:69-94 | A token written with JSON.stringify under a key reads back as the same string |
| Auth.ReadOtherKey | src/services/auth.ts:87-94 | Writing one key does not change what another key reads |
| Auth.StoreBoth | src/services/auth.ts:87-90 | After `setTokens` the access key reads back the access token and the refresh key the refresh token |
| Auth.StoreAccess | src/services/auth.ts:92-94 | After `setAccessToken` the access key reads back the token and the refresh token reads as before |
| Auth.AuthenticatedAfterStore | src/services/auth.ts:96-98 | After an access token is stored the session is authenticated exactly when the token is non-empty (the truthiness of the decoded value) |
| Auth.ClearedIsFinal | src/services/auth.ts:63-67 | After `logout` neither token is readable and the session is unauthenticated; a second `logout` changes nothing |
| Auth.ChangePasswordErrorMessage | src/services/auth.ts:124-134 | The failure message is one of the three texts: the invalid-data text exactly when the error mentions '400', the unauthorized text exactly when it mentions '401' but not '400' |
| Auth.AuthService.SetTokens | src/services/auth.ts:87-90 | Both keys are overwritten with the JSON-encoded tokens, access first |
| Auth.AuthService.GetAccessToken | src/services/auth.ts:69-76 | Null when the access key is absent, empty or holds text JSON.parse rejects; any other result is what JSON.parse gives for the stored text |
| Auth.AuthService.GetRefreshToken | src/services/auth.ts:78-85 | Null when the refresh key is absent, empty or holds text JSON.parse rejects; any other result is what JSON.parse gives for the stored text |
| Auth.AuthService.IsAuthenticated | src/services/auth.ts:96-98 | True exactly when the access token read is truthy, and then the key is present, non-empty and parses |
| Auth.AuthService.SetAccessToken | src/services/auth.ts:92-94 | Only the access key is overwritten |
| Auth.AuthService.Logout | src/services/auth.ts:63-67 | Storage becomes `Cleared` of the old storage, the location becomes '/login', no call is made, and nothing is readable or authenticated afterwards |
| Auth.AuthService.Login | src/services/auth.ts:31-44 | One login call; a success stores both tokens and returns the response; a failure leaves storage untouched and reports 'Credenciais inválidas' |
| Auth.AuthService.RefreshAccessToken | src/services/auth.ts:46-61 | Without a truthy refresh token: failure, no call, nothing changed. Otherwise one refresh call with the stored token; a success overwrites only the access key and keeps the refresh token; a rejection logs out and fails |
| Auth.AuthService.Renew | src/services/auth.ts:53-60 | The refresh call and its two outcomes, as above |
| Auth.AuthService.GetUserProfile | src/services/auth.ts:100-111 | Unauthenticated: failure and no call; otherwise one profile call whose outcome is passed on, with the fixed failure text |
| Auth.AuthService.RequestPasswordReset | src/services/auth.ts:113-119 | One reset call; a failure becomes the fixed message |
| Auth.AuthService.ChangePassword | src/services/auth.ts:121-135 | One change call; a failure is reported through ChangePasswordErrorMessage |
| Json.Stringify | src/services/auth.ts:88 | JSON.stringify of a string is a quoted literal |
| Json.Truthy | src/services/auth.ts:97 | `!!value` of a parsed token: null is falsy, a boolean is itself, a string is truthy exactly when non-empty, and the literals 0 and -0 are falsy |
| Json.Parse | src/services/auth.ts:72 | JSON.parse of the empty text throws |
| Json.EscapeCharRoundTrip | src/services/auth.ts:72 | Every character as JSON.stringify escapes it is read back by JSON.parse as that character, leaving the rest of the text |
| Json.StringBodyRoundTrip | src/services/auth.ts:72 | An escaped string followed by a closing quote is read back whole, leaving what follows |
| Json.ParseStringify | src/services/auth.ts:69-94 | JSON.parse(JSON.stringify(s)) is the string s, for every s |
| Session.DetermineRoleAndPermission | src/contexts/AuthContext.tsx:34-47 | Administrator marks (flag or role text) give admin and win over employee marks; otherwise employee marks give employee; every other profile is a client; the permission is always the one of the role (admin, write, read) |
| Session.AuthProvider.constructor | src/contexts/AuthContext.tsx:29-32 | No user, no role or permission, loading |
| Session.AuthProvider.RefreshUserData | src/contexts/AuthContext.tsx:49-74 | Without a stored access token the user is cleared with no fetch; a fetched profile is loaded with its derived role and permission; a failed fetch logs out and clears the user; loading is over on every path |
| Session.AuthProvider.Login | src/contexts/AuthContext.tsx:76-79 | One login call, then a profile call when the stored access token is non-empty. A failed sign-in rejects with the service's message and changes no state. A successful one resolves with no value and stores both tokens; the user is loaded exactly when the profile fetch succeeds, with the role and permission DetermineRoleAndPermission derives from it, and a failed fetch clears the tokens just stored and sends the browser to '/login' (SignedInSince) |
| Session.AuthProvider.Logout | src/contexts/AuthContext.tsx:81-86 | Tokens cleared through the service, user, role and permission cleared, so the context is unauthenticated |
| SecurityCheck.VerifyDecisionMeaning | src/hooks/useSecurityCheck.ts:20-69 | A public page is valid with no call; a missing token is invalid with no call; the token is verified exactly when it parses; the refresh is tried exactly when verification does not succeed; the result is valid exactly when one of the two succeeds |
| SecurityCheck.VerifyDecision | src/hooks/useSecurityCheck.ts:20-69 | A public page is valid with no call; a token is sent for verification only as JSON.parse reads it; the refresh is tried only on a guarded path with a stored token; a valid result needs a public page, the backend's acceptance or a truthy refresh |
| SecurityCheck.RejectedTokenEndsSession | src/hooks/useSecurityCheck.ts:41-61 | On a guarded path a rejected token is never valid when the refresh throws or yields a falsy value |
| SecurityCheck.PermissionDenial | src/hooks/useSecurityCheck.ts:104-116 | For a present permission the requirement is met exactly when the permission ranks at least as high (read < write < admin); a denial carries the administrator or the write message |
| SecurityCheck.SecurityCheck.VerifyAndRefreshToken | src/hooks/useSecurityCheck.ts:20-69 | Carries out VerifyDecision: its result, the verify calls and the refresh calls are the decision's; a false result logs out and navigates to '/login'; a true one changes no session state |
| SecurityCheck.SecurityCheck.VerifyParsed | src/hooks/useSecurityCheck.ts:37-61 | A parsed token is verified; unless accepted, one refresh is tried; valid exactly when one succeeds; otherwise the session ends |
| SecurityCheck.SecurityCheck.EndSession | src/hooks/useSecurityCheck.ts:31-32 | Logout through the context and one navigation to '/login' |
| SecurityCheck.SecurityCheck.HandleUnauthorized | src/hooks/useSecurityCheck.ts:72-90 | Handled (true) exactly for errors that are not a 401, which change nothing; a 401 makes the verification and refresh calls VerifyDecision asks for and always ends the session with a navigation to '/login', with the toast chosen by the verification |
| SecurityCheck.SecurityCheck.CheckPermission | src/hooks/useSecurityCheck.ts:93-117 | The verification and refresh calls VerifyDecision asks for; allowed exactly when the token is valid, a user is present and the ladder admits the requirement; each failure has its toast and navigation |
| SecurityCheck.SecurityCheck.CheckUserIntegrity | src/hooks/useSecurityCheck.ts:146-158 | The verification and refresh calls VerifyDecision asks for; intact exactly when the token is valid and the user has a non-zero company id; every failure ends the session with one navigation to '/login'; the corrupt-data toast exactly when the token was valid but the user or its company is missing, and no toast when the token check failed |
| SecurityCheck.SecurityCheck.SecureApiCall | src/hooks/useSecurityCheck.ts:172-186 | null when the token is not valid, with one navigation to '/login' and no toast; the call's value on success, and any other error than a 401 rethrown, both with the session, navigations and toasts untouched and only the first verification's calls; null after a 401, with the session ended, one navigation to '/login', the toast the second verification picks, and the verification and refresh calls of both verifications in order |
| RouteGuard.Redirect | src/components/RouteGuard.tsx:19-36 | To '/login' (replacing history) exactly for an unauthenticated visitor of a non-public path; to '/dashboard' exactly for a signed-in user on '/login'; no redirect otherwise, including a signed-in user on the other public paths |
| RouteGuard.Guard | src/components/RouteGuard.tsx:22-38 | The children are rendered whatever the redirect |
| RouteGuard.RedirectSettles | src/components/RouteGuard.tsx:19-36 | The target of a redirect never redirects again while the session state is the same |
| ProtectedRoute.Render | src/components/ProtectedRoute.tsx:15-68 | Loading wins over everything; then an unauthenticated user goes to `redirectTo` (default '/login'); then the role check (exact match or admin), then the permission check (exact match or admin); the children exactly when every check passes |
| PasswordProtectedRoute.Decide | src/components/PasswordProtectedRoute.tsx:13-24 | Navigation to '/change-password' exactly when authenticated and a change is pending; children exactly when no change is pending |
| PasswordProtectedRoute.NavigationHidesChildren | src/components/PasswordProtectedRoute.tsx:13-22 | A navigation always comes with nothing rendered; an unauthenticated visitor with the flag set gets neither |
| ConditionalLayout.HasPageAccess | src/components/ConditionalLayout.tsx:50-70 | A visitor may see only '/login'; the administrator role sees every path; '/companies', '/dashboard', '/reports' and every unlisted path are open to signed-in users; '/upload' and '/history' need write or admin permission, '/admin' the admin permission |
| ConditionalLayout.ShouldShowSidebar | src/components/ConditionalLayout.tsx:22-23 | Shown exactly for a signed-in user away from '/login' and '/companies' |
| ConditionalLayout.PageTitle | src/components/ConditionalLayout.tsx:34-47 | The mapped title, or 'Sistema' for any unmapped path |
| ConditionalLayout.PageTitleFallbackIff | src/components/ConditionalLayout.tsx:34-47 | The title is never empty and is 'Sistema' exactly on the unmapped paths |
| ConditionalLayout.Layout | src/components/ConditionalLayout.tsx:72-96 | Access denied exactly when HasPageAccess fails; the sidebar frame, with PageTitle, exactly when access is granted and the sidebar is shown |
| ConditionalLayout.VisitorFrames | src/components/ConditionalLayout.tsx:51-96 | A visitor sees '/login' bare and every other page denied; no signed-in user sees the sidebar on '/login' or '/companies' |
| Gates.ExactMatchVersusLadder | src/components/ProtectedRoute.tsx:52-66 | The route's exact-match permission test admits exactly what the hook's ladder admits, except a write permission against a read requirement |
| Gates.WriteUserDeniedRead | src/components/ProtectedRoute.tsx:52-66 | A signed-in employee is shown 'access denied' by a route requiring 'read' (and by one requiring the client role), while the ladder and the layout let the same user into the write pages |
| Gates.TableMatchesLadder | src/components/ConditionalLayout.tsx:63-67 | For users whose permission follows from their role, the layout's write pages and '/admin' admit exactly whom the ladder admits for 'write' and 'admin' |
| Gates.AdminRowMatchesRoute | src/components/ConditionalLayout.tsx:67 | The '/admin' row and a route requiring the admin permission admit the same consistent users |
| Gates.WriteRowMatchesRoute | src/components/ConditionalLayout.tsx:63-64 | The write pages and a route requiring 'write' admit the same consistent users |
| ChangePassword.Utf16Length | src/pages/ChangePassword.tsx:34 | `password.length` counts UTF-16 code units: at least one and at most two per character |
| ChangePassword.ValidatePassword | src/pages/ChangePassword.tsx:32-50 | The pushed list is PasswordErrors: the message of each broken rule, in rule order |
| ChangePassword.CheckRule | src/pages/ChangePassword.tsx:34-48 | One `if` of the validator appends the rule's message exactly when the rule is broken |
| ChangePassword.Messages | src/pages/ChangePassword.tsx:35-47 | One message per rule, index for index |
| ChangePassword.FailedRulesInOrder | src/pages/ChangePassword.tsx:34-48 | The broken rules are the rule list with the others left out: in rule order, at most one each |
| ChangePassword.FailedRulesMembers | src/pages/ChangePassword.tsx:34-48 | A rule is among the broken rules exactly when the password breaks it |
| ChangePassword.OneRule | src/pages/ChangePassword.tsx:34-48 | Each `if` of the validator yields the message list of that one rule, filtered |
| ChangePassword.ChecksAreMessagesOfFailed | src/pages/ChangePassword.tsx:32-50 | The five checks in source order produce the messages of the broken rules in rule order |
| ChangePassword.NoErrorsIffStrong | src/pages/ChangePassword.tsx:32-50 | No error exactly when the password has at least 8 code units, an upper-case and a lower-case letter, a digit and one of !@#$%^&* |
| ChangePassword.PasswordErrors | src/pages/ChangePassword.tsx:32-50 | One message per broken rule, each that rule's message, in rule order |
| ChangePassword.ErrorsInRuleOrder | src/pages/ChangePassword.tsx:34-48 | At most five errors; the i-th is the message of the i-th broken rule, which the password does break; the broken rules follow rule order |
| ChangePassword.DisplayedErrors | src/pages/ChangePassword.tsx:100 | No errors while the new password is empty, otherwise the validator's |
| ChangePassword.SubmitEnabledIff | src/pages/ChangePassword.tsx:215 | The button is enabled exactly when nothing is loading, new equals confirmation, and the new password is empty or strong; with every field empty it is enabled |
| ChangePassword.SubmitDisabled | src/pages/ChangePassword.tsx:215 | Disabled while loading or while the two new fields differ; enabled with both new fields empty and nothing loading |
| ChangePassword.SubmitCheckMeaning | src/pages/ChangePassword.tsx:55-79 | A change is sent exactly when neither password is blank after trimming, the confirmation matches, the new password is strong and differs from the old; a blank old password is reported first, then a blank new one |
| ChangePassword.SubmitCheck | src/pages/ChangePassword.tsx:55-79 | An accepted change has matching new fields, a new password with no strength error and different from the current one; an empty current password is reported first |
| ChangePassword.CheckSubmission | src/pages/ChangePassword.tsx:55-79 | The guard chain, run as the handler runs it, reports SubmitCheck's message |
| ChangePassword.FailureToast | src/pages/ChangePassword.tsx:87-94 | A failure toast is never empty: the error's own message when it has one, otherwise the fixed text |
| ChangePassword.ChangePasswordPage.constructor | src/pages/ChangePassword.tsx:14-25 | Empty fields, not loading |
| ChangePassword.ChangePasswordPage.HandleSubmit | src/pages/ChangePassword.tsx:52-98 | A failing check shows its message, makes no call and leaves loading unset; otherwise one change call, a success goes to '/companies', a failure shows FailureToast, and loading is false after both |
| ChangePassword.ChangePasswordPage.Reject | src/pages/ChangePassword.tsx:55-79 | A refusal adds its toast and changes nothing else |
| ChangePassword.ChangePasswordPage.SendChange | src/pages/ChangePassword.tsx:81-97 | The `try` block: one call with the current passwords, the two outcomes, loading over |
| Login.CredentialsCheckMeaning | src/pages/Login.tsx:34-37 | Sign-in is attempted exactly when neither field is blank after trimming; a refusal carries the required-fields message |
| Login.CredentialsCheck | src/pages/Login.tsx:34-37 | The only refusal is 'Usuário e senha são obrigatórios', and an empty username or password is refused |
| Login.ContextLoginAsWritten | src/contexts/AuthContext.tsx:76-79 | The context's `login` rejects exactly when the service rejects, and otherwise resolves with `undefined` |
| Login.ContextLogin | src/pages/Login.tsx:42-44 | The context's `login` as the page reads it: it rejects exactly when the service rejects, and otherwise resolves with the response's password-change flag |
| Login.AfterSignIn | src/pages/Login.tsx:41-52 | A navigation exactly when the promise resolved with an object; the flag set goes to '/change-password', anything else to '/companies'; a rejection or an `undefined` result shows 'Credenciais inválidas' and stays |
| Login.Target | src/pages/Login.tsx:46-49 | At most one navigation, present exactly when the outcome names a path |
| Login.SignInAsWrittenNeverNavigates | src/pages/Login.tsx:42-52 | With the context as written, every sign-in, even an accepted one, ends in 'Credenciais inválidas' with no navigation |
| Login.SignInRoutesByFlag | src/pages/Login.tsx:42-52 | With the corrected context the page stays only on a rejected sign-in, and routes by the flag otherwise |
| Login.IndexOf | src/pages/Login.tsx:67 | The first index of a character, or None when it does not occur |
| Login.PatternImpliesShape | src/pages/Login.tsx:67-68 | A match of the email pattern is accepted by the scanning check |
| Login.PatternAt | src/pages/Login.tsx:67-68 | Split points meeting the pattern's conditions are a match |
| Login.ShapeImpliesPattern | src/pages/Login.tsx:67-68 | What the scanning check accepts, the pattern matches |
| Login.EmailShapeMatchesPattern | src/pages/Login.tsx:67-68 | The scanning check accepts exactly the strings /^[^\s@]+@[^\s@]+\.[^\s@]+$/ matches |
| Login.ResetCheckMeaning | src/pages/Login.tsx:61-71 | A blank email is reported as missing; a non-blank one the pattern rejects as invalid; any other one passes |
| Login.ResetCheck | src/pages/Login.tsx:61-71 | An accepted email has the e-mail shape; a refusal is 'Email é obrigatório' or 'Email inválido', the first for an empty email |
| Login.CheckResetEmail | src/pages/Login.tsx:61-71 | The two checks, evaluated as the handler does, give ResetCheck |
| Login.PatternIsNotBlank | src/pages/Login.tsx:61-68 | An email the pattern accepts is never blank |
| Login.ResetAcceptedIffPattern | src/pages/Login.tsx:61-71 | An email passes both checks exactly when it matches the pattern, so the blank check never decides alone |
| Login.LoginPage.constructor | src/pages/Login.tsx:16-25 | Empty fields, nothing loading, the reset form closed and empty |
| Login.LoginPage.HandleSubmit | src/pages/Login.tsx:31-56 | Blank fields: the required-fields toast, no sign-in call, loading not set, the session untouched. Otherwise the session changes as the context's sign-in states (calls, stored or cleared tokens, user, and on success the role and permission derived from the profile), the page shows the toast and navigation of AfterSignIn for the corrected context ContextLogin (see Findings), and loading is over |
| Login.LoginPage.SignIn | src/pages/Login.tsx:39-55 | The `try` block, settled by the corrected context ContextLogin: the session changes as the context's sign-in states (calls, tokens, user, and on success the derived role and permission), then the toast and navigation of AfterSignIn; loading over |
| Login.LoginPage.Show | src/pages/Login.tsx:44-52 | The outcome's toast and its navigation, if any |
| Login.LoginPage.HandlePasswordReset | src/pages/Login.tsx:58-86 | A refused email shows its message with no call and no other change; an accepted one is sent; a success closes the form and clears the email; a failure shows the contact-the-administrator note and keeps both; the resetting flag is false after the call |
| Login.LoginPage.Reset | src/pages/Login.tsx:61-85 | The handler once the checks are done, with the same cases |
| Login.LoginPage.Reject | src/pages/Login.tsx:62-69 | A refused email's toast and nothing else |
| Login.LoginPage.SendReset | src/pages/Login.tsx:73-85 | One reset call with the email; success and failure as above; resetting over |
| Companies.ToCompany | src/contexts/CompanyContext.tsx:39-44 | id, name and logo are copied; a missing or empty description becomes '', any other is kept |
| Companies.MapAll | src/contexts/CompanyContext.tsx:52 | The mapping of every entry, index for index |
| Companies.Listed | src/contexts/CompanyContext.tsx:52 | The mapped results, or [] when the answer has none |
| Companies.ReplaceById | src/contexts/CompanyContext.tsx:86-90 | Same length; each entry with the id is the updated company, every other entry is unchanged in its place |
| Companies.ReplaceByIdIdempotent | src/contexts/CompanyContext.tsx:86-90 | Replacing a second time with a company keeping the id changes nothing |
| Companies.RemoveById | src/contexts/CompanyContext.tsx:107 | No survivor has the id, every survivor was in the list, and every entry without the id survives |
| Companies.RemoveByIdFacts | src/contexts/CompanyContext.tsx:107 | The survivors keep their order, the length drops by the number of entries with the id, and a second removal changes nothing |
| Companies.SelectionAfterUpdate | src/contexts/CompanyContext.tsx:92-94 | The selection is replaced exactly when it has the id |
| Companies.SelectionAfterRemove | src/contexts/CompanyContext.tsx:109-111 | The selection is cleared exactly when it has the id |
| Companies.SelectionStaysInList | src/contexts/CompanyContext.tsx:86-111 | A selection taken from the list is still in the list after an update, and after a removal it is cleared or still in the list |
| Companies.CompanyProvider.constructor | src/contexts/CompanyContext.tsx:35-37 | No selection, no companies, not loading |
| Companies.CompanyProvider.SetSelectedCompany | src/contexts/CompanyContext.tsx:35 | The selection becomes the given company |
| Companies.CompanyProvider.RefreshCompanies | src/contexts/CompanyContext.tsx:46-60 | Without a session nothing changes; otherwise one list call, a success installs Listed, a failure keeps the list and shows the error, and loading is over |
| Companies.CompanyProvider.FetchCompanies | src/contexts/CompanyContext.tsx:49-59 | The body after the session check, with the same outcomes |
| Companies.CompanyProvider.AddCompany | src/contexts/CompanyContext.tsx:62-80 | The profile is fetched first and its company id, when present and non-zero, is added to the creation call's form; a success appends exactly the mapped company with the success toast; any failure shows the error, is passed on, and leaves the list; the selection is kept (AddedSince) |
| Companies.CompanyProvider.UpdateCompany | src/contexts/CompanyContext.tsx:82-102 | One update call; a success replaces the entries and the selection with the id by the mapped answer, with the success toast; a failure shows the error, is passed on, and changes neither (UpdatedSince) |
| Companies.CompanyProvider.RemoveCompany | src/contexts/CompanyContext.tsx:104-119 | One delete call; a success drops the entries with the id and clears a selection with the id, with the success toast; a failure shows the error, is passed on, and changes neither (RemovedSince) |
| CompanySelection.EditForm | src/pages/CompanySelection.tsx:58-62 | Name and logo are copied; a missing description becomes '' |
| CompanySelection.SubmittedForm | src/pages/CompanySelection.tsx:36-39 | Exactly three fields: the name, the description and the fixed parent company '1' |
| CompanySelection.LogoIsNotSubmitted | src/pages/CompanySelection.tsx:36-39 | The chosen logo never reaches the backend |
| CompanySelection.EditRoundTrip | src/pages/CompanySelection.tsx:36-62 | Editing a listed company and saving it unchanged sends its own name and description back |
| CompanySelection.CheckName | src/pages/CompanySelection.tsx:30 | `!name.trim()` holds exactly for a name that is all whitespace |
| CompanySelection.CompanySelectionPage.constructor | src/pages/CompanySelection.tsx:16-22 | Dialog closed, not editing, the form empty with the default logo |
| CompanySelection.CompanySelectionPage.HandleSelectCompany | src/pages/CompanySelection.tsx:24-27 | The company becomes the selection, then '/dashboard' opens |
| CompanySelection.CompanySelectionPage.HandleEditCompany | src/pages/CompanySelection.tsx:55-64 | Edit mode on the company, the form loaded with EditForm, the dialog open |
| CompanySelection.CompanySelectionPage.Cancel | src/pages/CompanySelection.tsx:206-210 | Dialog closed, edit mode cleared, the form reset to name '', the default logo and description '' |
| CompanySelection.CompanySelectionPage.HandleRemoveCompany | src/pages/CompanySelection.tsx:66-73 | The context changes as its removal states (RemovedSince): one delete call, the list and the selection without the id and the success toast, or on failure both kept with the error toast, which the page swallows |
| CompanySelection.CompanySelectionPage.HandleAddCompany | src/pages/CompanySelection.tsx:29-53 | A blank name: the error toast and the context untouched. In edit mode the context changes as its update states (UpdatedSince: call, list, selection, toast) for the edited company's id and the submitted fields, ending edit mode on success; otherwise as its creation states (AddedSince: profile and create calls, list, toast). The form is reset and the dialog closed only when the save succeeds; on failure both are kept; the page adds no toast of its own and navigates nowhere |
| CompanySelection.CompanySelectionPage.Save | src/pages/CompanySelection.tsx:41-46 | In edit mode the context changes as UpdatedSince states and edit mode ends exactly on success; otherwise as AddedSince states; an error is passed on exactly when the context's call failed |
| Notifications.UnreadCount | src/pages/Notifications.tsx:87 | The number of entries not yet read, never more than the list's length |
| Notifications.MarkRead | src/pages/Notifications.tsx:69-75 | Same length; each entry with the id becomes read with every other field kept; every other entry unchanged in its place |
| Notifications.Delete | src/pages/Notifications.tsx:77-78 | No survivor has the id, every survivor was in the list, and every entry without the id survives |
| Notifications.MarkReadIdempotent | src/pages/Notifications.tsx:69-75 | Marking the same id twice is marking it once |
| Notifications.MarkReadUnreadCount | src/pages/Notifications.tsx:69-87 | Marking lowers the unread count by exactly the unread entries with the id, so it never raises it |
| Notifications.DeleteFacts | src/pages/Notifications.tsx:77-87 | Deleting keeps the others in order, drops exactly as many entries as carry the id, and never raises the unread count |
| Notifications.DeleteUnread | src/pages/Notifications.tsx:77-87 | Deleting never raises the unread count |
| Notifications.InitialUnreadCount | src/pages/Notifications.tsx:17-42 | The page opens with two unread notifications |
| Notifications.NotificationsPage.constructor | src/pages/Notifications.tsx:45 | The list starts as the three fixed entries |
| Notifications.NotificationsPage.MarkAsRead | src/pages/Notifications.tsx:69-75 | The list becomes MarkRead of the old list; the unread count does not rise |
| Notifications.NotificationsPage.DeleteNotification | src/pages/Notifications.tsx:77-80 | The list becomes Delete of the old list, the unread count does not rise, and the removal is announced |
| Notifications.NotificationsPage.ClearAllNotifications | src/pages/Notifications.tsx:82-85 | The list is empty, nothing is unread, and the clearing is announced |
| Upload.NewEntries | src/pages/Upload.tsx:20-24 | One entry per dropped file, in order, at progress 0 and uploading |
| Upload.Tick | src/pages/Upload.tsx:30-41 | Same length; every entry with the name, whatever its status, moves to `min(progress + 10, 100)` and is completed exactly when that is 100; every other entry is unchanged |
| Upload.Timeout | src/pages/Upload.tsx:44-50 | Same length; every entry with the name is completed at 100; every other entry is unchanged |
| Upload.TickBounds | src/pages/Upload.tsx:33-37 | A tick never lowers a progress in 0..100 and never takes it past 100; a matching entry is completed after the tick exactly when it is at 100 |
| Upload.AdvanceTimesCapped | src/pages/Upload.tsx:30-42 | After n firings a progress p is `p + 10n` capped at 100, so a new entry completes after ten firings (2000 ms at 200 ms each), when the timeout also fires |
| Upload.IsCameraIcon | src/pages/Upload.tsx:70-76 | The camera icon exactly for the lower-cased extensions png, jpg and jpeg |
| Upload.StatusColor | src/pages/Upload.tsx:78-84 | completed gives the success colour, error the destructive one, uploading the primary one, each exactly |
| Upload.UploadPage.constructor | src/pages/Upload.tsx:16 | No entries |
| Upload.UploadPage.OnDrop | src/pages/Upload.tsx:19-26 | The new entries go after the existing ones |
| Upload.UploadPage.IntervalFires | src/pages/Upload.tsx:30-42 | The list becomes Tick of the old list |
| Upload.UploadPage.TimeoutFires | src/pages/Upload.tsx:44-52 | The list becomes Timeout of the old list, and the upload is announced by name |
| Common.AfterLastDot | src/pages/Upload.tsx:71 | `split('.').pop()`: a suffix of the name containing no '.', preceded by a '.' unless it is the whole name |
| UploadNew.FileTypeFromExtension | src/pages/Upload_new.tsx:46-55 | PDF exactly for 'pdf', EXCEL exactly for 'xlsx' and 'xls', CSV exactly for 'csv', IMAGE exactly for 'png', 'jpg', 'jpeg' and 'gif' (all after lower-casing the text after the last '.'), OTHER for anything else |
| UploadNew.NewEntry | src/pages/Upload_new.tsx:31-36 | The entry for one dropped file: at 0, uploading, no document, typed by the chosen document type when it is non-empty and by the extension otherwise |
| UploadNew.NewEntries | src/pages/Upload_new.tsx:31-36 | One NewEntry per dropped file, in order |
| UploadNew.Tick | src/pages/Upload_new.tsx:83-89 | Same length; only uploading entries with the name move, by 15 and not past 90; every other entry is unchanged |
| UploadNew.MarkCompleted | src/pages/Upload_new.tsx:111-115 | Same length; every entry with the name is completed at 100 with the document; every other entry is unchanged |
| UploadNew.MarkFailed | src/pages/Upload_new.tsx:140-144 | Same length; every entry with the name is failed at 0; every other entry is unchanged |
| UploadNew.DropPreserves | src/pages/Upload_new.tsx:30-38 | Dropping files keeps every entry consistent (uploading within 0..90, completed at 100, failed at 0) |
| UploadNew.TickPreserves | src/pages/Upload_new.tsx:83-89 | A tick keeps every entry consistent and never moves a progress backwards |
| UploadNew.SettlePreserves | src/pages/Upload_new.tsx:111-144 | Completing or failing a run keeps every entry consistent |
| UploadNew.ErrorText | src/pages/Upload_new.tsx:122-134 | A thrown non-Error gives 'Erro desconhecido'; otherwise 'HTTP 401', then 'HTTP 403', then 'conexão' select their fixed texts, in that precedence, and any other message is used as it is |
| UploadNew.LinkTarget | src/pages/Upload_new.tsx:98-100 | A link target exactly when the results are present and non-empty, and then it is the first one |
| UploadNew.RunUpload | src/pages/Upload_new.tsx:57-119 | A user without a non-zero company id fails before any call; otherwise the upload call under that company comes first; the run succeeds exactly when the upload, the listing and (when there is a target) the link all succeed, and a success carries the uploaded document |
| UploadNew.LinkOnlyToFirst | src/pages/Upload_new.tsx:95-100 | A run links at most once, as its third call, and only the uploaded document to the first micro-company of a non-empty list |
| UploadNew.UploadPage.constructor | src/pages/Upload_new.tsx:25-28 | No entries, no document type, not uploading |
| UploadNew.UploadPage.OnDrop | src/pages/Upload_new.tsx:30-38 | The new entries go after the existing ones, and a consistent list stays consistent |
| UploadNew.UploadPage.ProgressTick | src/pages/Upload_new.tsx:83-89 | The list becomes Tick of the old list, and stays consistent |
| UploadNew.UploadPage.ProcessRealUpload | src/pages/Upload_new.tsx:57-152 | The calls of RunUpload are made; a success completes the entries with the name and announces the file; a failure fails them and shows 'Erro ao enviar name: ' with ErrorText; uploading is off afterwards; consistency is kept |
| UploadNew.UploadPage.Send | src/pages/Upload_new.tsx:60-100 | The backend calls of one run, in order, agree with RunUpload |
| UploadNew.UploadPage.Settle | src/pages/Upload_new.tsx:110-144 | The entries with the name are completed or failed, with the matching toast, and consistency is kept |
| UserManagementNew.FilteredUsers | src/pages/UserManagement_new.tsx:205-218 | The shown users are a subsequence of the list (order kept), every one passes the search, the role and the status filter, and every user of the list that passes all three is shown |
| UserManagementNew.EmptySearchMatchesAll | src/pages/UserManagement_new.tsx:206-209 | An empty search term matches every user |
| UserManagementNew.NoFilterKeepsAll | src/pages/UserManagement_new.tsx:205-218 | With an empty search and both selects on 'all' the whole list is shown, unchanged |
| UserManagementNew.ActiveCount | src/pages/UserManagement_new.tsx:402 | The active card counts exactly the active users, and never more than the list holds |
| UserManagementNew.InactiveCount | src/pages/UserManagement_new.tsx:413 | The inactive card counts exactly the inactive users, and never more than the list holds |
| UserManagementNew.AdminCount | src/pages/UserManagement_new.tsx:424 | The administrators card counts exactly the users whose first company role is company_admin |
| UserManagementNew.StatusCountsAddUp | src/pages/UserManagement_new.tsx:392-415 | The active and inactive cards add up to the total card |
| UserManagementNew.CountAgrees | src/pages/UserManagement_new.tsx:402-424 | Two tests that agree on every user give the same card count |
| UserManagementNew.ActiveFilterMatchesCard | src/pages/UserManagement_new.tsx:213-215 | Filtering on 'active' with no search and all roles lists as many users as the active card shows |
| UserManagementNew.AdminFilterMatchesCard | src/pages/UserManagement_new.tsx:211-212 | Filtering on company_admin with no search and all statuses lists as many users as the administrators card shows, since both look at the first role only ('' when there is none) |
| UserManagementNew.RoleLabel | src/pages/UserManagement_new.tsx:220-227 | The three known roles get their Portuguese labels; any other role is shown as it is |
| UserManagementNew.RoleLabelAgreesWithOptions | src/pages/UserManagement_new.tsx:47-51 | Each role the dialogs offer is labelled as its select option is |
| UserManagementNew.EditForm | src/pages/UserManagement_new.tsx:191-202 | The edit form copies the user's names, email, cpf and active flag and takes the role from the first company role, or '' when there is none |
| UserManagementNew.EditFormRoleIsFilteredRole | src/pages/UserManagement_new.tsx:198 | The edit dialog's role is the one the role filter sees, and it is company_admin exactly when the administrators card counts the user |
| UserManagementNew.FirstCompanyId | src/pages/UserManagement_new.tsx:110 | There is a company id exactly when the list is non-empty and its first id is truthy (non-zero), and then it is that id |
| UserManagementNew.ResetForm | src/pages/UserManagement_new.tsx:101-112 | After a create the form is blank and active, with the first company's id or none |
| UserManagementNew.ResetFormPassesGuard | src/pages/UserManagement_new.tsx:91-112 | The reset form passes the next create's company guard exactly when the first company has a truthy id |
| UserManagementNew.UserManagementPage.constructor | src/pages/UserManagement_new.tsx:21-45 | No users or companies, loading, the blank create form without a company, no dialog, nothing being edited |
| UserManagementNew.UserManagementPage.LoadData | src/pages/UserManagement_new.tsx:67-87 | A success replaces both lists by the answers (an absent result giving []), a failure keeps them and shows the load error; loading ends on every path |
| UserManagementNew.UserManagementPage.PresetCompany | src/pages/UserManagement_new.tsx:58-65 | With companies loaded and no truthy company in the form, the first company's id is filled in; nothing else in the form changes |
| UserManagementNew.UserManagementPage.HandleCreateUser | src/pages/UserManagement_new.tsx:89-128 | Without a truthy company id the create is refused with 'Empresa é obrigatória' and no call; otherwise the form is sent; a failure shows its message or the fixed text and changes nothing else; a success resets the form to the first company, closes the dialog, reloads (users and companies replaced by the answers, or kept with the load error) with loading over, and announces the create |
| UserManagementNew.UserManagementPage.OpenEditDialog | src/pages/UserManagement_new.tsx:191-202 | The user is being edited, the form is its EditForm and the dialog is open |
| UserManagementOld.CreateCheck | src/pages/UserManagement_old.tsx:92-108 | 'Preencha todos os campos obrigatórios' exactly when username, cpf, password or confirmation is empty; otherwise 'As senhas não coincidem' exactly when the two passwords differ; accepted exactly when all four are filled and the passwords agree |
| UserManagementOld.ResetFormIsRefused | src/pages/UserManagement_old.tsx:117-128 | The reset form is active with no company, and the next create refuses it as missing required fields |
| UserManagementOld.FilteredUsers | src/pages/UserManagement_old.tsx:236-252 | The shown users are a subsequence of the list, each passes the search (cpf matched case-sensitively), any-role and status filters, and every user passing all three is shown |
| UserManagementOld.NameMatchCarriesOver | src/pages/UserManagement_old.tsx:240-241 | A user this page finds by first or last name is found by the current page's search on "first last" |
| UserManagementOld.RoleMatchCarriesOver | src/pages/UserManagement_old.tsx:244-245 | A user the current page's first-role filter keeps is kept by this page's any-role filter |
| UserManagementOld.AdminCount | src/pages/UserManagement_old.tsx:480 | The administrators card counts exactly the users with a company_admin role in any company |
| UserManagementOld.AdminCardNeverBelowCurrent | src/pages/UserManagement_old.tsx:480 | The current page's first-role card never shows more administrators than this page's any-role card |
| UserManagementOld.RoleBadgeVariant | src/pages/UserManagement_old.tsx:254-261 | default exactly for company_admin, secondary exactly for employee, outline for every other role |
| UserManagementOld.EditForm | src/pages/UserManagement_old.tsx:224-234 | The edit form copies email, names, cpf and active flag and fills in no role |
| UserManagementOld.EditFormsDifferOnlyInRole | src/pages/UserManagement_old.tsx:224-234 | The two pages' edit forms agree except for the role |
| UserManagementOld.UserManagementPage.constructor | src/pages/UserManagement_old.tsx:19-45 | No users or companies, loading, the blank create form without a company, no dialog, nothing being edited |
| UserManagementOld.UserManagementPage.LoadData | src/pages/UserManagement_old.tsx:68-88 | A success replaces both lists (an absent result giving []), a failure keeps them and shows the load error; loading ends on every path |
| UserManagementOld.UserManagementPage.PresetCompany | src/pages/UserManagement_old.tsx:59-66 | With companies loaded and no truthy company in the form, the first company's id is filled in; nothing else changes |
| UserManagementOld.UserManagementPage.CheckCreate | src/pages/UserManagement_old.tsx:92-108 | The guard chain gives exactly CreateCheck |
| UserManagementOld.UserManagementPage.HandleCreateUser | src/pages/UserManagement_old.tsx:90-138 | A refused form shows the first failing check's message with no call; otherwise the form is sent; a failure shows its message or the fixed text and changes nothing else; a success is announced first, then the form is reset with no company, the dialog closes and the data is reloaded (users and companies replaced by the answers, or kept with the load error), loading over |
| UserManagementOld.UserManagementPage.OpenEditDialog | src/pages/UserManagement_old.tsx:224-234 | The user is being edited, the form is its EditForm and the dialog is open |
| Administration.AddRefusedIsTrimCheck | src/pages/Administration.tsx:80 | The trimmed-empty guard refuses exactly the forms whose name or email is all whitespace |
| Administration.CheckNewUser | src/pages/Administration.tsx:80-83 | The guard, computed with trim, refuses exactly when the name or the email is blank |
| Administration.NewUser | src/pages/Administration.tsx:85-90 | The new user has the form's name, email and role, the given id, status active and last access '-' |
| Administration.RemoveUser | src/pages/Administration.tsx:98-101 | No remaining user has the id, every remaining user was in the list, and every user with another id remains |
| Administration.RemoveUserFacts | src/pages/Administration.tsx:98-101 | The rest keep their order, exactly the users with the id are dropped, and removing the same id again changes nothing |
| Administration.EmptyFormIsRefused | src/pages/Administration.tsx:93 | The reset dialog is refused until it is filled in again |
| Administration.AddThenRemove | src/pages/Administration.tsx:79-101 | Adding a user under a fresh id and removing that id gives back the list |
| Administration.AdministrationPage.constructor | src/pages/Administration.tsx:52-58 | The three initial users, the empty reader form, the dialog closed |
| Administration.AdministrationPage.HandleAddUser | src/pages/Administration.tsx:79-96 | A blank name or email shows 'Nome e email são obrigatórios' and changes nothing else; otherwise the new user is appended, the form reset, the dialog closed and the add announced |
| Administration.AdministrationPage.HandleRemoveUser | src/pages/Administration.tsx:98-101 | The list becomes RemoveUser of the old one and the removal is announced |
| IndexPage.ActiveUserCount | src/pages/Index.tsx:166 | The active card counts exactly the active users |
| IndexPage.AdministratorCount | src/pages/Index.tsx:190 | The administrators card counts exactly the users with the administrator role |
| IndexPage.CountAppend | src/pages/Index.tsx:92 | Appending a user raises a count by one exactly when the user passes its test |
| IndexPage.AddUserCounts | src/pages/Index.tsx:85-92 | An add raises the active card by one and the administrators card by one exactly when the form's role is administrator |
| IndexPage.RemoveCountsAtMost | src/pages/Index.tsx:98-101 | A removal never raises a count |
| IndexPage.RemoveUserCounts | src/pages/Index.tsx:98-101 | A removal never raises the active or the administrators card |
| IndexPage.InitialCounts | src/pages/Index.tsx:24-41 | The page opens with two active users, one of them an administrator |
| IndexPage.ConfigurationPage.constructor | src/pages/Index.tsx:44-58 | The two initial users, the empty forms, both dialogs closed, no company being edited |
| IndexPage.ConfigurationPage.HandleAddUser | src/pages/Index.tsx:79-96 | As on the administration page: a blank name or email is refused with nothing else changed; otherwise the user is appended, the form reset and the dialog closed |
| IndexPage.ConfigurationPage.HandleRemoveUser | src/pages/Index.tsx:98-101 | The list becomes RemoveUser of the old one and the removal is announced |
| IndexPage.ConfigurationPage.HandleEditCompany | src/pages/Index.tsx:129-137 | The company is being edited, the form holds its fields and the dialog opens |
| IndexPage.ConfigurationPage.HandleRemoveCompany | src/pages/Index.tsx:139-145 | The context changes as its removal states (RemovedSince: delete call, list and selection without the id, toast); its error is swallowed |
| IndexPage.ConfigurationPage.HandleAddCompany | src/pages/Index.tsx:103-127 | A blank name is refused with the context untouched and the dialog kept; otherwise the context changes as its update (UpdatedSince, edit mode ending only on success) or its creation (AddedSince) states for the submitted fields, and the form is reset and the dialog closed whether or not the save succeeded |
| IndexPage.ConfigurationPage.Save | src/pages/Index.tsx:109-123 | In edit mode the context changes as UpdatedSince states and edit mode ends exactly on success; otherwise as AddedSince states; an error is passed on exactly when the context's call failed |
| Common.TrimEmptyIffBlank | src/pages/Index.tsx:80 | Trimming gives the empty text exactly when the text is all whitespace |
| Auth.AuthService.constructor | src/services/auth.ts:27-29 | The service starts over the given browser storage and location, with no backend call made |
| SecurityCheck.SecurityCheck.constructor | src/hooks/useSecurityCheck.ts:7-10 | The hook starts on the given path and context with no navigation, toast, verification or refresh made |
| Common.MessageOr | src/pages/UserManagement_new.tsx:124 | The thrown error's own message when it has one, the handler's fixed text otherwise |

## Left out

- Json.Parse: its own contract only says that the empty text fails; what it means for the token store is stated by `Json.ParseStringify` and `Auth.TokenRoundTrip`. Objects and arrays are not parsed: they read as a `JSON.parse` failure, which the token store turns into null. The service only ever writes strings, but storage is an input: an object stored under 'access' by other code would be sent for verification by the security hook, while here it goes to the refresh path.
- Json.Truthy: a number literal is truthy when a mantissa digit is non-zero. JavaScript's floating point makes a literal that underflows, such as 1e-400, zero and so falsy; that rounding is not modelled.
- Json.ParseEscape: a \u escape naming a UTF-16 surrogate is refused, so a token holding a lone surrogate or a surrogate pair written as escapes reads as null, where JSON.parse accepts it. Dafny characters are Unicode scalar values and cannot hold a lone surrogate.
- Login.LoginPage.HandleSubmit and Login.LoginPage.SignIn: settle the sign-in with the corrected context ContextLogin. The program as written (ContextLoginAsWritten) ends every accepted sign-in in 'Credenciais inválidas' with no navigation; that behaviour is stated by Login.SignInAsWrittenNeverNavigates (see Findings), not by the page's handlers.
- Common.ToLower: lower-cases ASCII and Latin-1 capitals only; the rest of Unicode case mapping is not modelled.
- Mount effects: AuthProvider's `refreshUserData`, CompanyProvider's `refreshCompanies` and the user-management pages' `loadData` run on mount in the program; here they are methods (RefreshUserData, RefreshCompanies, LoadData) the caller invokes after the constructor.
- The bundled `src/services/api.ts` has no getUserProfile, verifyToken, requestPasswordReset, changePassword, linkDocumentToMicroCompany, getCompaniesByUser or user CRUD methods, so in the program as shipped those calls throw; the model covers that through the Failure outcome each of those calls takes, without singling it out.
- The HTTP client `src/services/api.ts` is not part of this model. Every backend call (login, refresh, verify, profile, password change and reset, company and user CRUD, upload, link) is an outcome parameter of the method that makes it, and the call is recorded in a log field.
- The periodic guard `src/hooks/useSecurityGuard.ts` is not part of this model: it is an interval and a visibility listener around `verifyAndRefreshToken`, which is modelled.
- Context members the components use but `AuthContext` does not define (`refreshToken`, `changePassword`, `requiresPasswordChange`, `getCompanyRole`, `getCompanyName`) are free inputs with no invented meaning.
- Asynchrony: each handler is one sequential step. Overlapping handlers, React re-render timing, the `forEach` in `Upload_new.tsx` that starts uploads concurrently (here one run per call), and the un-awaited `loadData()` in `UserManagement_old.tsx` are not modelled.
- Timers: the progress intervals and the completion timeout of the upload pages are explicit tick and timeout steps; no clock is modelled.
- `Date.now()` ids are parameters.
- `checkCompanyAccess` and `detectSecurityViolation` in `src/hooks/useSecurityCheck.ts` (a company check through the company context, and console logging) are not modelled.
- `handleUpdateUser`, `handleDeleteUser`, `handleResetPassword` and `handleToggleActive` of the user-management pages are not modelled: each is one backend call followed by a reload and a toast.
- `UserManagement_old.tsx` after its export (the JSX that refers to an undefined `userRoles`) is not part of this model.
- The `rolePermissions` table of `Administration.tsx`, the role and status badges of the local user pages, icons, file sizes in MB (floating point), date formatting, dark mode and all rendering are left out.
- Regular expressions (password character classes, the e-mail pattern) are written as predicates over characters; `Login.EmailShapeMatchesPattern` states that the shape test agrees with the pattern.
- Toasts are recorded as a list of texts with their kind; their titles and styling are left out.

## Findings

| source | as written | input that shows it | evidently intended | confidence | as-written member | corrected member |
|---|---|---|---|---|---|---|
| src/pages/Login.tsx:42-50 | The page reads `result.requiresPasswordChange` from the context's `login`, which resolves with nothing (src/contexts/AuthContext.tsx:76-79); the read throws, the catch shows 'Credenciais inválidas' and the page never navigates | any login the backend accepts | route to '/change-password' when the flag is set and to '/companies' otherwise | not executed | Login.SignInAsWrittenNeverNavigates | Login.SignInRoutesByFlag |
