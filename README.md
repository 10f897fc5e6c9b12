# Theme, auth-form and session logic of a Next.js front end, in Dafny

This project models the logic core of a Next.js/React front end with a login and registration
flow and a dashboard:

- the **theme controller** (`ThemeProvider`): mode `light`/`dark`/`system`, the resolved scheme,
  one-shot initialisation from the `theme-mode` storage key, the system-preference listener, the
  apply step that writes the root class list, `data-theme` and the meta theme colour, `setMode`,
  `toggleTheme` and the `useTheme` guard;
- the **pre-hydration injector** (`themeScript`), which runs before the controller, reads the same
  key with a different default, and primes the root class, `data-theme`, six `--auth-*` custom
  properties, a critical dark style block and the meta colour;
- the **auth validators and formatters**: email shape, password length, the login-form check,
  trimming/lower-casing, white-space collapsing, word capitalisation, email masking and initials;
- the **form hooks** for registration and login: field rules, per-field error clearing,
  submission outcomes, reset, and the derived flags and labels;
- the **session state machines**: `useLocalStorage` and its three key-specific hooks, `useAuth`,
  the `AuthProvider` context with its fixed demo credentials, the notification snackbar, and the
  dashboard's current-page derivation.

Browser state is explicit: `Web.Storage` is `localStorage` (a string map plus an `accessible`
flag standing for "every access throws"), `Web.Page` is the document surface the theme code
touches, and JSON encoding is a `Web.Codec` passed in. React effects become method calls made in
the order the framework would run them; the clock (`Date.now()`) is a parameter.

Modules: `Wrappers` (Option/Result), `JsString` (JavaScript white space, `trim`, ASCII case
mapping, `split`/`join`, `includes`), `Web`, `ThemeContext`, `ThemeScript`, `Validation`,
`Formatters`, `RegisterForm`, `LoginForm`, `LocalStorage`, `UseAuth`, `AuthContext`,
`NotificationContext`, `Dashboard`.

The controller and the injector disagree on the default, neither validates the stored string, and
`setMode` does not guard its storage write:

- the controller defaults an absent or empty stored mode to `light` (ThemeContext.tsx:43) while
  the injector defaults it to `system` (theme-script.ts:8); `ThemeScript.PhasesAgree` proves
  exactly when the two phases paint the same scheme;
- neither phase validates the stored string; it is cast or used verbatim, so the model keeps modes
  as strings and states scheme properties under `IsMode`;
- `setMode` has no `try`/`catch` around its storage write.

## Model

| member | source | states |
|---|---|---|
| JsString.Trim | src/features/auth/utils/formatters.ts:9 | `trim` leaves no white space at either end and never lengthens |
| JsString.TrimEmpty | src/features/auth/utils/validation.ts:14 | `trim` gives the empty string exactly when the input is all white space |
| JsString.TrimSlice | src/features/auth/utils/formatters.ts:9 | `trim` keeps exactly the slice between a white-space prefix and a white-space suffix of the input |
| JsString.ToLowerIdempotent | src/features/auth/utils/formatters.ts:9 | lower-casing twice is lower-casing once |
| JsString.JoinSplit | src/features/auth/utils/formatters.ts:25-27 | joining the pieces of `split(d)` with `d` gives back the string |
| JsString.SplitFirst | src/features/auth/utils/formatters.ts:35 | the first piece of a split is the text before the first separator, and the remaining pieces are the split of the text after it |
| JsString.SplitLastPiece | src/features/dashboard/hooks/useDashboard.ts:16 | the last piece of a split is the text after the last separator |
| JsString.SplitPieceFree | src/features/dashboard/hooks/useDashboard.ts:16 | no piece of `split(d)` contains `d` |
| ThemeContext.SystemTheme | src/shared/context/ThemeContext.tsx:27-30 | the system scheme is `dark` exactly when a window exists and the media query matches, and is always a scheme |
| ThemeContext.Resolve | src/shared/context/ThemeContext.tsx:33-38 | `light`/`dark` resolve to themselves whatever the system says; `system` resolves to the system scheme; other strings pass through |
| ThemeContext.InitialMode | src/shared/context/ThemeContext.tsx:43 | initialisation reads the stored mode when it is non-empty, `light` otherwise; a valid store gives a valid mode |
| ThemeContext.WithSchemeClass | src/shared/context/ThemeContext.tsx:49-52 | after removing both scheme classes and adding one, exactly that scheme class remains and other classes are untouched |
| ThemeContext.RemoveFirst | src/shared/context/ThemeContext.tsx:55-58 | removing the critical style element shortens the list by one when the id is present and is a no-op otherwise |
| ThemeContext.RemoveFirstCount | src/shared/context/ThemeContext.tsx:55-58 | removal takes exactly one occurrence of the id out of the multiset of style ids |
| ThemeContext.ToggledMode | src/shared/context/ThemeContext.tsx:107-116 | the toggled mode is always `light` or `dark`, opposite to the system scheme from `system`, and always changes the resolved scheme |
| ThemeContext.ToggleTwice | src/shared/context/ThemeContext.tsx:107-116 | two toggles from `light` or `dark` restore the original mode |
| ThemeContext.InitialModeAfterSetMode | src/shared/context/ThemeContext.tsx:99-105 | a mode written by `setMode` is what a fresh initialisation reads back |
| ThemeContext.ThemeController.constructor | src/shared/context/ThemeContext.tsx:22-24 | the first render: mode and scheme `light`, not hydrated |
| ThemeContext.ThemeController.Mount | src/shared/context/ThemeContext.tsx:41-59 | mode becomes the stored-or-`light` mode, the scheme its resolution, hydrated; the root holds exactly that scheme class and `data-theme`; the critical style element is removed if present |
| ThemeContext.ThemeController.OnSystemChange | src/shared/context/ThemeContext.tsx:62-75 | a preference change updates the scheme only when hydrated in `system` mode; nothing else changes |
| ThemeContext.ThemeController.Apply | src/shared/context/ThemeContext.tsx:78-97 | when hydrated the root holds exactly the current scheme class, `data-theme` and the meta colour `#1f2937`/`#ffffff`; before hydration nothing changes |
| ThemeContext.ThemeController.SetMode | src/shared/context/ThemeContext.tsx:99-105 | sets the mode, its resolution and the stored `theme-mode` value |
| ThemeContext.ThemeController.ToggleTheme | src/shared/context/ThemeContext.tsx:107-116 | moves to the toggled mode, stores it, and always changes the scheme from a synchronised state |
| ThemeContext.UseTheme | src/shared/context/ThemeContext.tsx:132-138 | outside a provider the hook fails with its message; inside it yields the provider |
| ThemeScript.RootStyleNames | src/shared/utils/theme-script.ts:29-61 | both schemes set the same six `--auth-*` names; dark also sets the root background and text colour |
| ThemeScript.PhasesAgree | src/shared/utils/theme-script.ts:8-21 | injector and controller resolve to the same scheme exactly when a mode is stored or the system prefers light |
| ThemeScript.FirstVisitDarkDiverges | src/shared/utils/theme-script.ts:8 | on an empty store with a dark preference the injector paints dark while the controller initialises light |
| ThemeScript.SetDarkCriticalStyle | src/shared/utils/theme-script.ts:29-53 | dark writes the six dark variables plus root colours and appends exactly one `theme-critical-dark` style |
| ThemeScript.SetLightCriticalStyle | src/shared/utils/theme-script.ts:54-61 | light writes the six light variables and adds no style element |
| ThemeScript.RunThemeScript | src/shared/utils/theme-script.ts:3-70 | sets the MUI id, then either stops silently on unreadable storage or adds the scheme class without removing others, sets `data-theme`, the scheme's styles and the meta colour |
| ThemeScript.Start | src/shared/context/ThemeContext.tsx:20-97 | a fresh controller's first commit (mount effect, then apply effect) publishes the stored-or-`light` mode and its resolution, is hydrated and synchronised, paints the root for a scheme, and removes the first critical style element |
| ThemeScript.Hydrate | src/shared/context/ThemeContext.tsx:41-97 | with at most one critical style element in the head, none remains; the root holds exactly the published scheme, which is the mode read on mount resolved |
| ThemeScript.Boot | src/shared/utils/theme-script.ts:24-53 | injector then controller mount leaves exactly one scheme class, no critical style, and agrees with the injector's scheme exactly when the phases agree |
| ThemeScript.ReloadAfterSetMode | src/shared/context/ThemeContext.tsx:99-105 | after `setMode(m)` a fresh page load resolves to the same mode and scheme |
| Validation.EmailPatternIff | src/features/auth/utils/validation.ts:21-22 | the email regex holds exactly for `L@D` with `L` free of white space and `@`, and `D` free of them with a `.` neither first nor last |
| Validation.ValidateEmail | src/features/auth/utils/validation.ts:13-30 | blank email is "requerido"; otherwise valid exactly when the regex matches the untrimmed input; valid results carry no message and invalid ones do |
| Validation.ValidateEmailTrim | src/features/auth/utils/validation.ts:14-19 | the email is "requerido" exactly when trimming it leaves nothing |
| Validation.EmailPatternHasNoSpace | src/features/auth/utils/validation.ts:21-22 | an email matching the regex contains no white space |
| Validation.ValidEmailIsTrimmed | src/features/auth/utils/validation.ts:13-30 | a valid email is unchanged by trimming |
| Validation.ValidatePassword | src/features/auth/utils/validation.ts:35-51 | valid exactly from six characters; empty and short passwords get their own messages |
| Validation.ValidateLoginForm | src/features/auth/utils/validation.ts:56-73 | `email` and `password` keys exactly for the failing fields, with their validators' messages; valid exactly when the record is empty |
| Validation.AcceptedLoginFilled | src/features/auth/utils/validation.ts:56-73 | an accepted login form has a non-empty email and a password of at least six characters |
| Formatters.FormatEmail | src/features/auth/utils/formatters.ts:8-10 | no white space at either end, no upper-case letter, never longer than the input |
| Formatters.FormatEmailContent | src/features/auth/utils/formatters.ts:8-10 | the result is the lower-cased text between the input's leading and trailing white space, which alone is cut |
| Formatters.FormatEmailIdempotent | src/features/auth/utils/formatters.ts:8-10 | formatting a formatted email changes nothing |
| Formatters.CollapseSpaces | src/features/auth/utils/formatters.ts:16 | every run of white space becomes one space: empty exactly for empty input, and starting or ending with white space exactly when the input does |
| Formatters.CollapseIsSingleSpaced | src/features/auth/utils/formatters.ts:16 | the result holds no white space other than single spaces, never two in a row |
| Formatters.CollapseKeepsWords | src/features/auth/utils/formatters.ts:16 | collapsing keeps the words (maximal runs without white space): every run of white space still separates its neighbours |
| Formatters.CollapseKeepsText | src/features/auth/utils/formatters.ts:16 | collapsing keeps every character that is not white space, in order |
| Formatters.CollapseSingleSpaced | src/features/auth/utils/formatters.ts:16 | a single-spaced string is left as it is |
| Formatters.WordsHaveNoSpace | src/features/auth/utils/formatters.ts:16 | each word of a text is non-empty and holds no white space |
| Formatters.FormatUsername | src/features/auth/utils/formatters.ts:15-17 | no edge white space, single spaces only, and the same non-white-space characters as the input |
| Formatters.FormatUsernameWords | src/features/auth/utils/formatters.ts:15-17 | a formatted user name is exactly the name's words joined by single spaces |
| Formatters.FormatUsernameIdempotent | src/features/auth/utils/formatters.ts:15-17 | formatting a formatted user name changes nothing |
| Formatters.CapitalizePieces | src/features/auth/utils/formatters.ts:25-27 | splitting on spaces, capitalising each piece and joining keeps the length and upper-cases exactly the characters that start a word |
| Formatters.CapitalizeWords | src/features/auth/utils/formatters.ts:22-28 | length and space positions are kept; word starts are upper-cased, all else lower-cased |
| Formatters.CapitalizeWordsShape | src/features/auth/utils/formatters.ts:22-28 | each word starts with no lower-case letter and continues with no upper-case one |
| Formatters.MaskEmailUnchanged | src/features/auth/utils/formatters.ts:35-36 | without `@`, or with an empty local part, the email comes back unchanged |
| Formatters.MaskEmailAt | src/features/auth/utils/formatters.ts:34-40 | first local character, one star per other local character, `@` and the second `@`-segment; unchanged when that segment is empty |
| Formatters.MaskEmailOneAt | src/features/auth/utils/formatters.ts:34-40 | with exactly one `@` masking keeps the length, the first character and everything from `@` on, and stars the rest |
| Formatters.GenerateInitials | src/features/auth/utils/formatters.ts:45-51 | at most two characters, none lower-case |
| Formatters.InitialsFirstTwo | src/features/auth/utils/formatters.ts:45-51 | the initials are the upper-cased first characters of the first two space-separated pieces, empty pieces giving nothing |
| Formatters.InitialsOneWord | src/features/auth/utils/formatters.ts:45-51 | a name without spaces gives its one initial |
| Formatters.InitialsTwoWords | src/features/auth/utils/formatters.ts:45-51 | `First Second` gives both upper-cased first letters |
| RegisterForm.NameError | src/features/auth/hooks/useRegisterForm.ts:47-58 | a name has no error exactly when it is at least two characters once trimmed; blank gives "requerido", otherwise short gives the minimum-length message |
| RegisterForm.EmailError | src/features/auth/hooks/useRegisterForm.ts:61-66 | no error exactly when the email regex matches; "requerido" exactly for the empty string; any other non-matching email gets "Ingresa un email válido" |
| RegisterForm.ComposedSingleLine | src/features/auth/hooks/useRegisterForm.ts:73 | on a single line the lookahead regex holds exactly when a lower-case letter, an upper-case letter and a digit all occur |
| RegisterForm.ComposedNeedsOneLine | src/features/auth/hooks/useRegisterForm.ts:73 | the three kinds split across a line break do not satisfy the regex |
| RegisterForm.PasswordError | src/features/auth/hooks/useRegisterForm.ts:69-75 | no error exactly from eight characters with the composition regex; empty and short get their messages, in that order; a long enough password failing the composition regex gets the upper-case/lower-case/digit message |
| RegisterForm.ConfirmError | src/features/auth/hooks/useRegisterForm.ts:78-82 | no error exactly when the confirmation is non-empty and equals the password; empty gives "Confirma tu contraseña"; a non-empty confirmation unequal to the password gives "Las contraseñas no coinciden" |
| RegisterForm.RegisterPasswordPassesLogin | src/features/auth/hooks/useRegisterForm.ts:69-75 | a password the registration form accepts also passes the login password rule |
| RegisterForm.EmailRulesAgree | src/features/auth/hooks/useRegisterForm.ts:61-66 | on non-empty input the registration and login email rules agree; white-space-only input is "not valid" here but "required" at login |
| RegisterForm.ClearError | src/features/auth/hooks/useRegisterForm.ts:104-108 | clearing a field's error leaves every other entry as it was |
| RegisterForm.WithInput | src/features/auth/hooks/useRegisterForm.ts:96-101 | only the edited field changes, the terms box taking the checked flag |
| RegisterForm.FormErrors | src/features/auth/hooks/useRegisterForm.ts:43-91 | the record built by validation has no general entry, a terms entry exactly when the box is unticked, and is empty exactly when the form is acceptable |
| RegisterForm.RegisterFormState.constructor | src/features/auth/hooks/useRegisterForm.ts:28-40 | empty fields, terms unaccepted, no errors, nothing shown or loading |
| RegisterForm.RegisterFormState.ValidateForm | src/features/auth/hooks/useRegisterForm.ts:43-91 | the errors become the six field rules' results, and the result is true exactly when the form is acceptable |
| RegisterForm.RegisterFormState.HandleInputChange | src/features/auth/hooks/useRegisterForm.ts:94-111 | updates only that field and clears only its error, when set |
| RegisterForm.RegisterFormState.HandleSubmit | src/features/auth/hooks/useRegisterForm.ts:114-146 | an invalid form only records the field rules' errors; a valid one clears them, records the general error if navigation fails, and ends not loading; the visibility toggles are untouched |
| RegisterForm.RegisterFormState.ToggleShowPassword | src/features/auth/hooks/useRegisterForm.ts:167-169 | flips its own flag only |
| RegisterForm.RegisterFormState.ToggleShowConfirmPassword | src/features/auth/hooks/useRegisterForm.ts:171-173 | flips its own flag only |
| RegisterForm.RegisterFormState.ButtonText | src/features/auth/hooks/useRegisterForm.ts:176 | the in-progress label exactly while loading |
| LoginForm.KeyCount | src/features/auth/hooks/useLoginForm.ts:145 | the key count is zero exactly for the empty record, and at most three |
| LoginForm.FailureErrors | src/features/auth/hooks/useLoginForm.ts:93-101 | exactly one key; first match wins: the credentials phrase gives the general invalid-credentials error, the not-found phrase the email error, anything else the server error |
| LoginForm.NonErrorIsServerError | src/features/auth/hooks/useLoginForm.ts:93 | a thrown value that is not an `Error` ends as the server error |
| LoginForm.CredentialsMessage | src/features/auth/hooks/useLoginForm.ts:95-96 | the message `Credenciales inválidas` maps to the invalid-credentials error |
| LoginForm.AttemptErrors | src/features/auth/hooks/useLoginForm.ts:70-101 | after a valid submission the record is empty exactly when the attempt succeeded; a throw gives the mapped failure record |
| LoginForm.AsRecord | src/features/auth/hooks/useLoginForm.ts:56 | the stored record has the validator's keys, each set to its message |
| LoginForm.WithInput | src/features/auth/hooks/useLoginForm.ts:37-42 | the email is stored formatted, the password verbatim, the checkbox as its flag; other fields unchanged |
| LoginForm.ClearedOn | src/features/auth/hooks/useLoginForm.ts:45-50 | a set error of the edited field becomes undefined; no key appears or disappears and the other properties are unchanged |
| LoginForm.LoginFormState.constructor | src/features/auth/hooks/useLoginForm.ts:23-31 | empty form, no errors, not loading, password hidden |
| LoginForm.LoginFormState.IsFormValid | src/features/auth/hooks/useLoginForm.ts:145 | valid exactly when the record has no key, cleared ones counted, and both text fields are filled |
| LoginForm.LoginFormState.ButtonText | src/features/auth/hooks/useLoginForm.ts:146 | the loading label exactly while loading |
| LoginForm.LoginFormState.HandleInputChange | src/features/auth/hooks/useLoginForm.ts:34-51 | updates only that field; a set error becomes undefined under the same key, so the key set never changes |
| LoginForm.LoginFormState.ValidateForm | src/features/auth/hooks/useLoginForm.ts:54-58 | stores exactly the validator's errors and returns its verdict; an accepted form is a valid form |
| LoginForm.LoginFormState.HandleSubmit | src/features/auth/hooks/useLoginForm.ts:61-105 | an invalid form returns without loading; otherwise errors clear, a failure records the mapped error, and loading ends false |
| LoginForm.LoginFormState.ToggleShowPassword | src/features/auth/hooks/useLoginForm.ts:114-116 | flips the flag only |
| LoginForm.LoginFormState.ResetForm | src/features/auth/hooks/useLoginForm.ts:119-128 | restores the initial state, which is not a valid form |
| LocalStorage.ReadInitial | src/features/auth/hooks/useLocalStorage.ts:8-20 | without a window, readable storage or a non-empty item the hook starts from the initial value; otherwise from the item's decoding, or the initial value when parsing fails |
| LocalStorage.ReadAfterWrite | src/features/auth/hooks/useLocalStorage.ts:26-34 | a value written under the key is what the next read gives, for a round-tripping codec |
| LocalStorage.ReadAfterRemove | src/features/auth/hooks/useLocalStorage.ts:41-47 | after removal the next read gives the initial value |
| LocalStorage.ReadOwnKeyOnly | src/features/auth/hooks/useLocalStorage.ts:14-15 | a read depends on its own key only |
| LocalStorage.LocalStorageHook.constructor | src/features/auth/hooks/useLocalStorage.ts:8-20 | the state starts from the initial read |
| LocalStorage.LocalStorageHook.SetValue | src/features/auth/hooks/useLocalStorage.ts:23-38 | the state takes the value or the function's result even when the write fails; the key alone receives its encoding; failures are swallowed |
| LocalStorage.LocalStorageHook.RemoveValue | src/features/auth/hooks/useLocalStorage.ts:41-51 | the state returns to the initial value and the key alone is removed; failures are swallowed |
| LocalStorage.UseAuthToken | src/features/auth/hooks/useLocalStorage.ts:58-60 | a hook on `auth_token` defaulting to null |
| LocalStorage.UseUserData | src/features/auth/hooks/useLocalStorage.ts:65-67 | a hook on `user_data` defaulting to null |
| LocalStorage.UseRememberMe | src/features/auth/hooks/useLocalStorage.ts:72-74 | a hook on `remember_me` defaulting to false |
| LocalStorage.WrapperKeysDistinct | src/features/auth/hooks/useLocalStorage.ts:58-74 | the three hooks use three different keys |
| UseAuth.MockToken | src/features/auth/hooks/useAuth.ts:71 | the token starts with `mock-jwt-token-` followed by the clock reading |
| UseAuth.Merge | src/features/auth/hooks/useAuth.ts:112 | every field the patch carries replaces the user's; the others stay |
| UseAuth.MergeLaws | src/features/auth/hooks/useAuth.ts:112 | an empty patch changes nothing; a patch applied twice is applied once |
| UseAuth.TokenValid | src/features/auth/hooks/useAuth.ts:122-132 | a consistent authenticated state always has a valid token; a valid token is present |
| UseAuth.AuthHook.constructor | src/features/auth/hooks/useAuth.ts:23-31 | null user and token, not authenticated, loading; both storage hooks read |
| UseAuth.AuthHook.Initialize | src/features/auth/hooks/useAuth.ts:34-52 | with a stored non-empty token and user the state becomes authenticated with exactly those; otherwise only loading ends |
| UseAuth.AuthHook.Login | src/features/auth/hooks/useAuth.ts:55-92 | the mock token and user go to both hooks and storage; the state becomes authenticated, not loading, with a valid token |
| UseAuth.AuthHook.Logout | src/features/auth/hooks/useAuth.ts:95-107 | both keys removed, both hooks reset, state signed out and not loading |
| UseAuth.AuthHook.UpdateUser | src/features/auth/hooks/useAuth.ts:110-119 | no-op without a user; otherwise the merged user replaces it in state and storage, the rest kept |
| UseAuth.AuthHook.IsTokenValid | src/features/auth/hooks/useAuth.ts:122-132 | a token is present and non-empty |
| UseAuth.ReloadAfterLogin | src/features/auth/hooks/useAuth.ts:34-92 | after a login a fresh hook over the same storage initialises to the same session |
| AuthContext.MockToken | src/features/auth/context/AuthContext.tsx:67 | the token starts with `mock_token_` followed by the clock reading |
| AuthContext.StoredUser | src/features/auth/context/AuthContext.tsx:38-43 | a user is restored exactly when both keys hold non-empty strings and the user parses, and it is the parsed user |
| AuthContext.AuthProvider.constructor | src/features/auth/context/AuthContext.tsx:23-25 | no user, loading, not mounted |
| AuthContext.AuthProvider.IsAuthenticated | src/features/auth/context/AuthContext.tsx:91 | authenticated exactly when a user is set |
| AuthContext.AuthProvider.CheckUser | src/features/auth/context/AuthContext.tsx:33-52 | nothing before mounting; afterwards a stored session sets the user, failures are swallowed, and loading ends |
| AuthContext.AuthProvider.Mount | src/features/auth/context/AuthContext.tsx:28-30 | mounting triggers the check, so loading ends |
| AuthContext.AuthProvider.Login | src/features/auth/context/AuthContext.tsx:54-77 | succeeds exactly for `admin@example.com`/`123456` with writable storage, storing both keys and setting the admin user; wrong credentials change nothing |
| AuthContext.AuthProvider.Logout | src/features/auth/context/AuthContext.tsx:79-83 | removes both keys and clears the user; a refused removal changes nothing |
| AuthContext.UseAuth | src/features/auth/context/AuthContext.tsx:98-104 | outside a provider the hook fails with its message; inside it yields the provider |
| AuthContext.ReloadAfterLogin | src/features/auth/context/AuthContext.tsx:33-73 | after a successful login a fresh provider restores the same user once mounted |
| AuthContext.ReloadAfterLogout | src/features/auth/context/AuthContext.tsx:79-83 | after a logout a fresh provider has no user |
| NotificationContext.Closed | src/shared/context/NotificationContext.tsx:53-58 | a click-away changes nothing; any other close closes and keeps message and variant |
| NotificationContext.CloseIdempotent | src/shared/context/NotificationContext.tsx:53-58 | closing twice for the same reason is closing once |
| NotificationContext.NotificationProvider.constructor | src/shared/context/NotificationContext.tsx:23-27 | closed, empty message, `info` |
| NotificationContext.NotificationProvider.ShowNotification | src/shared/context/NotificationContext.tsx:29-35 | opens with the given message and variant, whatever came before |
| NotificationContext.NotificationProvider.ShowSuccess | src/shared/context/NotificationContext.tsx:37-39 | `showNotification` with `success` |
| NotificationContext.NotificationProvider.ShowError | src/shared/context/NotificationContext.tsx:41-43 | `showNotification` with `error` |
| NotificationContext.NotificationProvider.ShowWarning | src/shared/context/NotificationContext.tsx:45-47 | `showNotification` with `warning` |
| NotificationContext.NotificationProvider.ShowInfo | src/shared/context/NotificationContext.tsx:49-51 | `showNotification` with `info` |
| NotificationContext.NotificationProvider.HandleClose | src/shared/context/NotificationContext.tsx:53-58 | the record becomes its closed form for the given reason |
| NotificationContext.UseNotification | src/shared/context/NotificationContext.tsx:82-87 | outside a provider the hook fails with its message; inside it yields the provider |
| Dashboard.CurrentPage | src/features/dashboard/hooks/useDashboard.ts:16 | the page name is never empty and never contains `/` |
| Dashboard.CurrentPageAfterLastSlash | src/features/dashboard/hooks/useDashboard.ts:16 | the page is the text after the last `/`, or `dashboard` when the path ends in `/` |
| Dashboard.CurrentPageNoSlash | src/features/dashboard/hooks/useDashboard.ts:16 | a path without `/` is its own page name; the empty path gives `dashboard` |
| Dashboard.DashboardState.constructor | src/features/dashboard/hooks/useDashboard.ts:14-17 | not loading, page derived from the path |
| Dashboard.DashboardState.SetLoading | src/features/dashboard/hooks/useDashboard.ts:19-24 | sets the flag and keeps the page |

## Left out

- Server rendering: the controller's methods assume a window exists (its effects only run in the browser); `SystemTheme` keeps the no-window branch.
- ThemeContext.ThemeController.Mount, ThemeContext.ThemeController.SetMode and ThemeContext.ThemeController.ToggleTheme require readable storage: the source has no `try`/`catch` around those accesses, so an inaccessible storage raises there and the model does not describe what follows.
- ThemeContext.ThemeController.SetMode requires one of the three modes, as its TypeScript parameter type does; nothing checks the value at run time.
- The media-query listener's registration and removal are not modelled; `OnSystemChange` is the handler call.
- `classList.add` rejecting tokens that contain white space (a stored mode such as `"a b"`) is not modelled.
- The text of the critical style block is not modelled, only its id.
- Lengths are counted in Unicode scalar values, not UTF-16 code units, and case mapping covers ASCII letters only.
- JSON encoding and parsing are a `Codec` parameter; a stored value that parses to a value of another type (for example `null` under `remember_me`) is treated as a parse failure.
- Timers and delays, `router.push`, `console` output, `refreshToken` (it only logs) and the social login/register stubs are left out.
- RegisterForm.RegisterFormState.HandleInputChange and LoginForm.LoginFormState.HandleInputChange read the current error record; the source's handlers may read a record captured at an earlier render.
- RegisterForm.RegisterFormState.HandleSubmit models the only failure the `try` block can meet as a navigation failure flag; the success path's redirect is not modelled.
- LoginForm.LoginFormState.HandleSubmit takes the attempt's outcome as a parameter, since the real login call is commented out in the source.
- UseAuth.AuthHook.Login never fails: the storage hooks swallow every error, so the `catch` branch cannot run.
- Two `useLocalStorage` instances on the same key do not see each other's updates in the source; the model does not relate them either.
- React re-rendering and effect scheduling are replaced by explicit calls in source order.
