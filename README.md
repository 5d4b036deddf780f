# NebuloHub mobile — a Dafny model of its core

NebuloHub's mobile app is a React Native client for a startup showcase.
Users sign up and sign in, then browse startups, rate and comment on
them, register new startups and skills, and switch language and theme.
This project models the parts of the app that decide things:

- the session: restore, sign-in, sign-out, sign-up error text, the
  bearer-token interceptor and the root screen choice;
- the form validators and the password strength meter;
- the validation chains and payload builders of the registration,
  startup, skill, password and review forms;
- the startup search filter;
- the rating averages, the star rows and the YouTube id extraction;
- the language and theme state.

The session lasts until sign-out: the app has no session expiry timer,
no token-claim decoding and no expiry key.

State the app changes in place becomes Dafny classes with `modifies`
frames: React state, the module-level token, AsyncStorage and the
i18n locale. The pure expressions become functions, each with the
lemmas that say what it means.

Outside inputs are method parameters: the outcomes of network calls,
storage reads and writes that may fail, the device's locales, the
system colour scheme, the Expo host URI and the platform name. Each
module follows one source file. `Wrappers`, `Text`, `Records`,
`Storage` and `Chain` hold what several of them share. These are
options and results, JavaScript string operations, the API's record
shapes, the device store and the "first failing check" rule.

## Model

| member | source | states |
|---|---|---|
| Api.AuthorizationFor | src/api/api.ts:46-53 | a header is added iff the url is not on the public allowlist and the token is truthy, and it is then exactly "Bearer " + token |
| Api.BeforeColon | src/api/api.ts:11 | `split(":")[0]` is the longest prefix with no ':' and is followed by ':' when shorter than the input |
| Api.ResolveBaseUrlHostPort | src/api/api.ts:10-14 | a host URI `ip:port` gives "http://ip:5101/api/v2" |
| Api.ResolveBaseUrlFallback | src/api/api.ts:16-25 | without a host URI, Android gives the emulator address and every other platform gives localhost |
| Api.ApiClient.constructor | src/api/api.ts:28-40 | the token starts null and the base URL is the resolved one |
| Api.ApiClient.SetToken | src/api/api.ts:42-44 | the new token replaces the old one |
| Api.ApiClient.Intercept | src/api/api.ts:46-56 | public urls and falsy tokens leave the request unchanged; otherwise only `headers.Authorization` changes, to "Bearer " + token |
| Api.LoginUrlsArePublic | src/api/api.ts:47-49 | a url containing "/Auth/login" anywhere is public |
| Api.RegistrationCarriesBearer | src/api/service.ts:12 | the registration path "/Usuario" does not match the case-sensitive allowlist, so it gets the bearer header |
| Api.SetTokenThenIntercept | src/api/api.ts:40-53 | after two `setToken` calls a request carries only the second token |
| Auth.SignUpErrorMessage | src/context/AuthContext.tsx:85-88 | the server's message if truthy, else the error's message if truthy, else the fixed fallback; never empty |
| Auth.AuthProvider.constructor | src/context/AuthContext.tsx:30-32 | no user, no token, loading, in step with the client token |
| Auth.AuthProvider.LoadStorage | src/context/AuthContext.tsx:35-50 | both stored keys must be non-empty: the client token and the state token are set first, then a parsable user is taken. Otherwise nothing changes. Loading ends on every path and the two tokens stay equal |
| Auth.AuthProvider.SignIn | src/context/AuthContext.tsx:56-68 | a failed login changes nothing. A successful one sets both tokens and the user, then writes "@token" and "@user" in that order; a failed write stops the rest |
| Auth.AuthProvider.SignOut | src/context/AuthContext.tsx:71-77 | user and both tokens become null and the two keys are removed in order; it resolves only if both removals succeed |
| Auth.AuthProvider.SignUp | src/context/AuthContext.tsx:80-92 | success passes the response through; failure rethrows the normalised message; the session is untouched |
| Auth.UseAuth | src/context/AuthContext.tsx:111-118 | fails with the fixed message exactly when there is no provider |
| Auth.RestartAfterSignIn | src/context/AuthContext.tsx:56-68 | signing in, restarting and restoring from the same store gives back the same user and token, and requests carry that token |
| Auth.SignOutTwice | src/context/AuthContext.tsx:71-77 | a second sign-out leaves the state the first one left |
| UserCodec.DecodeEncode | src/context/AuthContext.tsx:67 | reading back the stored user gives the user that was written |
| UserCodec.EncodeDecode | src/context/AuthContext.tsx:43 | only encodings of users parse, each to the user it encodes |
| UserCodec.EncodeInjective | src/context/AuthContext.tsx:67 | different users are stored as different strings |
| UserCodec.EncodeNonEmpty | src/context/AuthContext.tsx:40 | a stored user is never the empty string, so restore accepts it |
| RootNavigator.RootScreen | src/routes/RootNavigator.tsx:7-17 | loading shows the loading screen; otherwise a user gives the app stack and no user the auth stack |
| RootNavigator.RenderIgnoresToken | src/routes/RootNavigator.tsx:8 | two providers that agree on loading and user render the same screen, whatever their tokens |
| Validators.ValidateEmailIff | src/utils/validators.ts:1 | the unanchored `\S+@\S+\.\S+` matches iff some non-space, '@', non-spaces, '.', non-space occurs contiguously |
| Validators.ValidateEmailInContext | src/utils/validators.ts:1 | text around a valid address, spaces included, keeps it valid |
| Validators.ValidateEmailNeedsAt | src/utils/validators.ts:1 | a string without '@' is rejected |
| Validators.ValidateEmailNeedsAtThenDot | src/utils/validators.ts:1 | a string with no '.' at least two places after some '@' is rejected |
| Validators.HasClassAppend | src/utils/validators.ts:4 | a character class found in a string is still found after appending |
| Validators.ValidatePasswordIff | src/utils/validators.ts:3-4 | the anchored pattern holds iff there are at least 8 UTF-16 units, no line terminator, an upper-case letter, a lower-case letter, a digit and a character outside [A-Za-z0-9] (with '_') |
| PasswordStrengthBar.CountSatisfied | src/components/PasswordStrengthBar.tsx:5-9 | the count of satisfied criteria never exceeds the number of criteria |
| PasswordStrengthBar.StrengthUnfold | src/components/PasswordStrengthBar.tsx:5-9 | the score is one point for each of the five tests |
| PasswordStrengthBar.GetPasswordStrength | src/components/PasswordStrengthBar.tsx:3-11 | the incremented `score` equals the number of satisfied criteria and is at most 5 |
| PasswordStrengthBar.StrengthEmpty | src/components/PasswordStrengthBar.tsx:4-10 | the empty password scores 0 |
| PasswordStrengthBar.StrengthAllIffAllCriteria | src/components/PasswordStrengthBar.tsx:5-9 | the score is 5 exactly when every criterion holds |
| PasswordStrengthBar.SatisfiesAppend | src/components/PasswordStrengthBar.tsx:5-9 | appending text keeps every criterion already met |
| PasswordStrengthBar.StrengthMonotone | src/components/PasswordStrengthBar.tsx:5-9 | typing more characters never lowers the score |
| PasswordStrengthBar.ValidPasswordScoresFive | src/utils/validators.ts:3-4 | every password `validatePassword` accepts scores 5 |
| PasswordStrengthBar.StrengthColor | src/components/PasswordStrengthBar.tsx:14-20 | red for at most 1, orange for 2, yellow for 3, light green for 4, green otherwise, each in both directions |
| PasswordStrengthBar.StrengthLabel | src/components/PasswordStrengthBar.tsx:22-28 | "Senha muito fraca" exactly for at most 1, "Senha fraca" exactly for 2, "Senha média" exactly for 3, "Senha forte" exactly for 4 and "Senha muito forte" exactly for 5 and above |
| PasswordStrengthBar.LabelMatchesColor | src/components/PasswordStrengthBar.tsx:14-28 | two scores get the same label iff they get the same colour |
| Register.ChainInOrder | src/screens/Register/index.tsx:64-81 | the if/else chain picks the first failing check of the fixed order cpf, name, email, password, confirmation |
| Register.FirstFailureInOrder | src/screens/Register/index.tsx:64-81 | the chosen check fails, every earlier one passes, and none is chosen only when all pass |
| Register.MessageKey | src/screens/Register/index.tsx:75-80 | a bad password and a mismatched confirmation report the same message key, and no other check does |
| Register.PhoneNumber | src/screens/Register/index.tsx:92 | an empty field gives 0, a field without digits gives 0, otherwise the decimal value of the field's digits, below 10 to the number of digits |
| Register.PhoneNumberAppendDigit | src/screens/Register/index.tsx:92 | a digit typed at the end of the field becomes the number's last decimal digit |
| Register.PhoneNumberIgnoresSeparator | src/screens/Register/index.tsx:92 | a non-digit typed anywhere in a non-empty field leaves the number unchanged |
| Register.Payload | src/screens/Register/index.tsx:86-93 | the cpf is the form's cpf with its non-digits stripped (so digits only, one per digit of the form), the phone is `PhoneNumber` of the field, the role is "USER", and name, email and password are taken verbatim |
| Register.AcceptedIff | src/screens/Register/index.tsx:64-84 | the form passes iff the cpf has 11 digits, the name is not blank, the email and password are valid and the confirmation equals the password |
| Register.AcceptedPayloadCpf | src/screens/Register/index.tsx:87 | an accepted form's payload cpf has exactly 11 characters, all digits |
| Register.RegisterScreen.constructor | src/screens/Register/index.tsx:34-50 | empty form, no flags raised |
| Register.RegisterScreen.UpdateField | src/screens/Register/index.tsx:55-58 | sets one field and clears that field's flag only |
| Register.RegisterScreen.HandleRegister | src/screens/Register/index.tsx:60-102 | the first failing check raises its flag on top of the old flags and is reported; with none failing the flags stay and `signUp` gets the payload, its failure reported with the normalised message |
| RegisterStartup.IsValidURLExamples | src/screens/RegisterStartup/index.tsx:55-57 | "http://" or "https://" alone is rejected, one more character is accepted and a line break after the scheme is rejected |
| RegisterStartup.IsValidURLExtend | src/screens/RegisterStartup/index.tsx:56 | the pattern is anchored only at the start: text after a valid URL keeps it valid |
| RegisterStartup.ChainInOrder | src/screens/RegisterStartup/index.tsx:66-106 | the chain picks the first failing check of cnpj, name, site, description, responsible, email, cpf, video |
| RegisterStartup.FirstFailureInOrder | src/screens/RegisterStartup/index.tsx:66-106 | the chosen check fails, all earlier ones pass, and none is chosen only when all pass |
| RegisterStartup.Message | src/screens/RegisterStartup/index.tsx:70-105 | each check's alert text is non-empty, so `if (msg)` fires exactly when a check failed |
| RegisterStartup.MessageInjective | src/screens/RegisterStartup/index.tsx:70-105 | two checks share an alert text only if they are the same check |
| RegisterStartup.Payload | src/screens/RegisterStartup/index.tsx:116-120 | cnpj and responsible cpf are the form's with their non-digits stripped, so digits only, one per digit of the form; every other field is the form's |
| RegisterStartup.AcceptedIff | src/screens/RegisterStartup/index.tsx:66-113 | the form passes iff 14 cnpj digits, non-blank names, a valid site, a description of at least 10 UTF-16 units, a valid email, 11 cpf digits and an empty or valid video |
| RegisterStartup.AcceptedPayloadDigits | src/screens/RegisterStartup/index.tsx:116-120 | an accepted payload has a 14-digit cnpj and an 11-digit cpf |
| RegisterStartup.RegisterStartupScreen.constructor | src/screens/RegisterStartup/index.tsx:19-40 | empty form, no flags raised |
| RegisterStartup.RegisterStartupScreen.UpdateField | src/screens/RegisterStartup/index.tsx:42-45 | sets one field and clears only its flag |
| RegisterStartup.RegisterStartupScreen.HandleRegister | src/screens/RegisterStartup/index.tsx:62-131 | the first failing check raises its flag and its alert text is shown; otherwise the flags stay and `registerStartup` gets the payload |
| RegisterAbility.FailureText | src/screens/RegisterAbility/index.tsx:62 | the response body when truthy, else the error's message |
| RegisterAbility.RegisterAbilityScreen.constructor | src/screens/RegisterAbility/index.tsx:23-31 | empty form, no flags raised |
| RegisterAbility.RegisterAbilityScreen.UpdateField | src/screens/RegisterAbility/index.tsx:33-36 | sets one field and clears only its flag |
| RegisterAbility.RegisterAbilityScreen.HandleRegister | src/screens/RegisterAbility/index.tsx:38-64 | both checks run and each blank field raises its flag over the old ones; a blank type is the reported message even when the name is blank too; the form is posted verbatim iff both are non-blank |
| ChangePassword.ChangePasswordScreen.constructor | src/screens/ChangePassword/index.tsx:26-28 | nothing loaded, both fields empty |
| ChangePassword.ChangePasswordScreen.SetCurrentUser | src/screens/ChangePassword/index.tsx:34 | the loaded record becomes current |
| ChangePassword.ChangePasswordScreen.SetSenha | src/screens/ChangePassword/index.tsx:27 | the typed password is kept |
| ChangePassword.ChangePasswordScreen.SetConfirmSenha | src/screens/ChangePassword/index.tsx:28 | the typed confirmation is kept |
| ChangePassword.ChangePasswordScreen.HandleChangePassword | src/screens/ChangePassword/index.tsx:39-62 | the outcome for each case:<br>- nothing happens until a record is loaded;<br>- fewer than 5 UTF-16 units is rejected before the mismatch check;<br>- otherwise the record is put under its own cpf, changed only in `senha`, and a failed put is reported |
| NewAvaliacaoForm.ReviewForm.constructor | src/components/NewAvaliacaoForm.tsx:35-37 | rating 0, empty comment, not sending |
| NewAvaliacaoForm.ReviewForm.SetRating | src/components/NewAvaliacaoForm.tsx:35 | the chosen rating is kept |
| NewAvaliacaoForm.ReviewForm.SetComentario | src/components/NewAvaliacaoForm.tsx:36 | the typed comment is kept |
| NewAvaliacaoForm.ReviewForm.HandleSend | src/components/NewAvaliacaoForm.tsx:39-75 | the outcome for each case:<br>- rating 0 sends nothing, and neither does a missing user cpf;<br>- otherwise the payload is rating, comment, user cpf and startup;<br>- success hands on the created review with its author, who may be missing, then resets rating and comment;<br>- failure keeps both;<br>- sending ends false |
| StarsDisplay.JsRemOne | src/components/StarsDisplay.tsx:13 | `value % 1` lies in (-1, 1), is the fractional part for non-negative values and is not positive for negative ones |
| StarsDisplay.Render | src/components/StarsDisplay.tsx:12-27 | five icons; icon k+1 is full iff k+1 ≤ floor(value), half iff k = floor(value) and `value % 1` ≥ 0.5; at most one half |
| StartupDetails.MatchAt | src/screens/StartupDetails/index.tsx:45 | the pattern matches at a position iff one of the three prefixes is there followed by 11 id characters, and the capture is those 11 |
| StartupDetails.FirstFoundLeftmost | src/screens/StartupDetails/index.tsx:46 | the search returns the capture at the leftmost matching position, or nothing when no position matches |
| StartupDetails.ExtractYT | src/screens/StartupDetails/index.tsx:42-48 | null or "" gives null; a result is 11 characters from [A-Za-z0-9_-] |
| StartupDetails.ExtractYTLeftmost | src/screens/StartupDetails/index.tsx:44-47 | a non-empty url gives the capture at its leftmost match, and null only when no position matches |
| StartupDetails.ExtractShortLink | src/screens/StartupDetails/index.tsx:45 | "youtu.be/abcdefghijk" gives "abcdefghijk" |
| StartupDetails.IsOwner | src/screens/StartupDetails/index.tsx:329 | the user owns the startup iff both cpfs are present, non-empty and equal |
| StartupDetails.Media | src/screens/StartupDetails/index.tsx:353-356 | 0 without ratings, else the mean with a missing note counted as 0 |
| StartupDetails.SumNotasBounds | src/screens/StartupDetails/index.tsx:355 | notes in 0..10 sum to between 0 and 10 per rating |
| StartupDetails.MediaInScale | src/screens/StartupDetails/index.tsx:571 | with notes in 0..10 the mean is in 0..10, so the stars get a value in 0..5 |
| StartupDetails.VisibleAvaliacoes | src/screens/StartupDetails/index.tsx:392 | expanded shows every rating; collapsed shows the first one only, or none |
| StartupDetails.AlreadyLinkedIff | src/screens/StartupDetails/index.tsx:516 | a skill is already linked iff some entry of the list has a skill with the same id |
| StartupDetails.DetailsState.constructor | src/screens/StartupDetails/index.tsx:111-115 | starts from the loaded ratings, collapsed |
| StartupDetails.DetailsState.PrependAvaliacao | src/screens/StartupDetails/index.tsx:111-115 | the new rating comes first, the rest keep their order, and while collapsed it is the one shown |
| StartupDetails.DetailsState.PressExpandToggle | src/screens/StartupDetails/index.tsx:591-595 | the toggle flips the expanded state only when it is shown, for more than one rating |
| StartupCard.AlternativesExclusive | src/components/StartupCard.tsx:148 | at most one of the three alternatives can match at a position |
| StartupCard.MatchAtCardSame | src/components/StartupCard.tsx:147-148 | the card's alternation order matches the same captures as the details page's |
| StartupCard.ExtractYTCardSame | src/components/StartupCard.tsx:146-151 | the card finds the same id as the details page and gives "" where that one gives null |
| StartupCard.ExtractYTCardShape | src/components/StartupCard.tsx:150 | the card's id is "" or 11 id characters |
| StartupCard.VideoThumbnail | src/components/StartupCard.tsx:97-111 | the placeholder iff the video is falsy; otherwise the uri starts "https://img.youtube.com/vi/", then exactly the card's extracted id (`ExtractYTCard`), then ends "/hqdefault.jpg" |
| StartupCard.MediaNota | src/components/StartupCard.tsx:56-58 | 0 without ratings, otherwise half the mean of the notes: the value times 2 times the count is the sum. A missing note makes it NaN |
| StartupCard.MediaNotaLikeDetails | src/components/StartupCard.tsx:56-58 | with every note present, the card's value is the details page's mean halved, in 0..5 for notes in 0..10 |
| StartupCard.RenderStars | src/components/StartupCard.tsx:62-78 | five icons; icon i is full iff i ≤ floor(mean), half iff i = floor(mean)+1 and the mean is not whole, so at most one half; a NaN mean gives five outlines |
| StartupCard.Card.constructor | src/components/StartupCard.tsx:35 | the card starts without ratings |
| StartupCard.Card.View | src/components/StartupCard.tsx:56-75 | the thumbnail of the video; five stars, full up to the floor of `mediaNota`, one half star after them when it is not whole, the rest outlined; the comment count equal to the number of ratings |
| SearchStartupItem.Item.constructor | src/components/SearchStartupItem.tsx:18-19 | no ratings, loading |
| SearchStartupItem.Item.Load | src/components/SearchStartupItem.tsx:24-37 | a missing list counts as empty, a failed fetch keeps the old list, and loading ends either way |
| SearchStartupItem.Item.View | src/components/SearchStartupItem.tsx:39-74 | a spinner while loading; then five stars by the card's rule for mean/2, and a comment count equal to the number of ratings |
| SearchStartup.FilterByName | src/screens/SearchStartup/index.tsx:71-73 | a startup is kept iff it is in the list and its lowercased name contains the term |
| SearchStartup.FilterIsSubsequence | src/screens/SearchStartup/index.tsx:71-73 | the kept startups appear in their original order |
| SearchStartup.FilterKeepsEveryCopy | src/screens/SearchStartup/index.tsx:71-73 | a matching entry is kept as many times as it occurs, a non-matching one not at all |
| SearchStartup.FilterAllOnEmpty | src/screens/SearchStartup/index.tsx:49 | the empty term keeps every startup |
| SearchStartup.Visible | src/screens/SearchStartup/index.tsx:65-73 | a blank query shows everything; otherwise exactly the startups whose lowercased name contains the lowercased, untrimmed query |
| SearchStartup.VisibleIsSubsequence | src/screens/SearchStartup/index.tsx:65-73 | the shown list is always the full list in order, some left out |
| SearchStartup.VisibleCaseInsensitive | src/screens/SearchStartup/index.tsx:70 | typing the query in another case shows the same list |
| SearchStartup.LoadAlert | src/screens/SearchStartup/index.tsx:55 | the alert is the message key, then ", ", then the error |
| SearchStartup.SearchScreen.constructor | src/screens/SearchStartup/index.tsx:25-31 | empty lists and query, loading, not refreshing; the shown list fits the query |
| SearchStartup.SearchScreen.HandleSearch | src/screens/SearchStartup/index.tsx:62-74 | the query becomes the text and the shown list follows it; data and spinners are untouched |
| SearchStartup.SearchScreen.SetStartups | src/screens/SearchStartup/index.tsx:44-53 | new data replaces the old and the current query is applied to it |
| SearchStartup.SearchScreen.LoadStartups | src/screens/SearchStartup/index.tsx:40-60 | success takes the data and reapplies the query; failure keeps both lists and raises the alert; both spinners end off |
| I18n.CodeInjective | src/i18n/index.ts:19 | the three languages have three different codes |
| I18n.DeviceLang | src/i18n/index.ts:12 | the first locale's language code, or "en" when the list or the code is missing |
| I18n.LocaleFor | src/i18n/index.ts:15-17 | Portuguese exactly for "pt…", Spanish for "es…" that is not "pt…", English otherwise |
| I18n.NoLocaleIsEnglish | src/i18n/index.ts:12-17 | a device without a usable locale starts in English |
| I18n.Translator.constructor | src/i18n/index.ts:15-17 | the starting locale is the code of the language the device selects, so one of pt, en and es |
| I18n.Translator.SetLocale | src/i18n/index.ts:22-24 | the locale becomes exactly the given code |
| LanguageContext.InitialLang | src/context/LanguageContext.tsx:28-34 | "es…" gives Spanish, else "en…" gives English, else Portuguese |
| LanguageContext.InitialLangOfCode | src/context/LanguageContext.tsx:28-34 | read from a locale the translator set, the first language is that locale's |
| LanguageContext.ParseLang | src/context/LanguageContext.tsx:41 | a saved value is adopted iff it is exactly one of the three codes |
| LanguageContext.NextLang | src/context/LanguageContext.tsx:56 | pt goes to en, en to es, es to pt, never to itself |
| LanguageContext.ToggleCycle | src/context/LanguageContext.tsx:55-58 | three toggles return to the start and two never do |
| LanguageContext.LanguageProvider.constructor | src/context/LanguageContext.tsx:28-34 | the state starts from the current locale and agrees with it |
| LanguageContext.LanguageProvider.Restore | src/context/LanguageContext.tsx:37-47 | a saved known code becomes state and locale; anything else, or a read error, changes nothing |
| LanguageContext.LanguageProvider.SetLang | src/context/LanguageContext.tsx:49-53 | state and locale both become the language, and it is saved under "lang" when the write succeeds |
| LanguageContext.LanguageProvider.ToggleLang | src/context/LanguageContext.tsx:55-58 | sets the next language of the cycle, with the same effects as `setLang` |
| LanguageContext.ToggleThrice | src/context/LanguageContext.tsx:55-58 | three presses leave the language where it was |
| LanguageContext.UseLanguage | src/context/LanguageContext.tsx:66 | the provider's value inside a provider, and the context's default value exactly when there is none |
| LanguageContext.CurrentLang | src/context/LanguageContext.tsx:20-24 | the default value's language is "pt"; a provider's is its state |
| LanguageContext.SetLangThrough | src/context/LanguageContext.tsx:20-24 | through a provider, `setLang` sets the language, the locale and the store; the default `setLang` changes nothing |
| LanguageContext.ToggleLangThrough | src/context/LanguageContext.tsx:20-24 | through a provider, `toggleLang` moves to the next language; the default `toggleLang` changes nothing |
| LanguageToggleButton.LangsComplete | src/components/LanguageToggleButton.tsx:18-22 | every language is offered, each exactly once |
| LanguageToggleButton.LanguageSelector.constructor | src/components/LanguageToggleButton.tsx:11 | the list starts closed |
| LanguageToggleButton.LanguageSelector.PressHeader | src/components/LanguageToggleButton.tsx:35 | pressing the header flips `open` |
| LanguageToggleButton.LanguageSelector.Shown | src/components/LanguageToggleButton.tsx:41-49 | pt, en, es in that order while open, nothing while closed |
| LanguageToggleButton.LanguageSelector.ChangeLanguage | src/components/LanguageToggleButton.tsx:24-29 | `setLang` runs only for a different language; the context ends in the chosen language and the list closed; choosing the current one writes nothing |
| ThemeContext.Fallback | src/context/ThemeContext.tsx:44 | the system scheme when it is present and non-empty, and "light" in every other case; never empty |
| ThemeContext.Toggled | src/context/ThemeContext.tsx:74-76 | "light" becomes "dark" and every other value "light" |
| ThemeContext.ToggleTwice | src/context/ThemeContext.tsx:74-76 | two toggles return a light or dark theme to itself |
| ThemeContext.ColorsFor | src/context/ThemeContext.tsx:78 | the light palette exactly for "light", else the dark palette |
| ThemeContext.ThemeProvider.constructor | src/context/ThemeContext.tsx:43-45 | the theme starts as the fallback, not loaded |
| ThemeContext.ThemeProvider.LoadTheme | src/context/ThemeContext.tsx:48-61 | a saved "light" or "dark" is adopted; any other value, or a read error, gives the fallback; loaded becomes true on every path |
| ThemeContext.ThemeProvider.PersistTheme | src/context/ThemeContext.tsx:65-72 | nothing is written before loading finishes; after it a non-empty theme is saved under "@app_theme" when the write succeeds, and an empty one writes nothing |
| ThemeContext.ThemeProvider.ToggleTheme | src/context/ThemeContext.tsx:74-76 | the theme becomes its toggle and loaded is unchanged |
| ThemeContext.UseTheme | src/context/ThemeContext.tsx:87-92 | fails with the fixed message exactly when there is no provider |
| Text.StripNonDigits | src/screens/Register/index.tsx:64 | the result of `replace(/\D/g, "")` is digits only and no longer than the input |
| Text.StripSingle | src/screens/Register/index.tsx:64 | a single digit is kept and any other single character dropped |
| Text.StripAppend | src/screens/Register/index.tsx:64 | stripping a concatenation concatenates the strippings, so the digits stay in their order |
| Text.DecimalValueAppend | src/screens/Register/index.tsx:92 | `Number` of the digits `a + b` is `Number(a)` times 10 to the length of `b`, plus `Number(b)` |
| Text.DecimalValueDigit | src/screens/Register/index.tsx:92 | one digit denotes its own value |
| Text.StripIdempotent | src/screens/RegisterStartup/index.tsx:118-119 | stripping twice is stripping once |
| Text.TrimEmptyIffBlank | src/screens/Register/index.tsx:69 | `!s.trim()` holds exactly for strings of white space |
| Text.JsLength | src/screens/RegisterStartup/index.tsx:83 | `length` counts UTF-16 units: between one and two per character |

## Left out

- Network calls become parameters, each a success value or an error. This covers login, register, posts, fetches and the author lookup. Their wire format is not modelled.
- AsyncStorage becomes a map held by an object. Each read or write that can fail takes a success flag. Its asynchrony is not modelled.
- Promises and React scheduling are not modelled. Every handler runs to completion before the next, and a state set is seen at once. Concurrent sign-in and sign-out are left out.
- `JSON.stringify`/`JSON.parse` of the signed-in user become an escape-based codec. Its round trip is proved both ways. It is a stand-in for JSON, not JSON itself.
- `toLowerCase` is modelled for ASCII letters only. Other case mappings are left out.
- `\s` and `trim` use the exact ECMAScript white-space set. No Unicode normalisation is done.
- `t()` translation lookup is foreign. Messages that go through `t()` are modelled by their keys, and the catalogues are left out.
- Floating point is modelled with exact reals. This affects the means, the star values and `toFixed`. `Number(...)` of a long digit string is an exact integer, with no precision loss.
- The header-mutating interceptor is modelled on values: the request it returns. Aliasing of the config object is not captured.
- SearchStartup.SearchScreen.LoadStartups: the mount effect's copy of `loadStartups` closes over the first render's empty query. The model uses the current query, as the refresh and title-press copies do.
- StartupCard.MediaNota: a rating's `nota` is an option, so JavaScript's `null` and `undefined` are not told apart. Both are modelled as the missing note that makes the sum NaN. In the source only `undefined` does that, since `acc + null` adds 0.
- StartupCard.Card.View: the card's load effect, the owner lookup and the spinner shown in place of the count while loading are left out.
- NewAvaliacaoForm.ReviewForm.HandleSend: `sending` is true only while the post is awaited. The model runs the post inside the call, so only its final false value is observable.
- Register.RegisterScreen.HandleRegister: `msg` is modelled by the check that set it; the message texts are the `t()` keys.
- Register.RegisterScreen.UpdateField: `updateField` can add flags for "telefone" and "role", which have no flag in the form's error record. Those extra keys are not modelled.
- StartupDetails keeps local copies of StarsDisplay and NewAvaliacaoForm at src/screens/StartupDetails/index.tsx:205-215 and 232-318. They are the same as the shared components and are modelled once.
- The data-loading effects of StartupDetails, StartupCard and ChangePassword are not modelled. Their results are given as constructor or method inputs.
- Register imports `isValidEmail`/`isValidatePassword`, but validators.ts exports `validateEmail`/`validatePassword`. The model uses the predicates of src/utils/validators.ts.
- The TypeScript type layer is not modelled, for example `UsuarioAuth` lacking `cpf`.
