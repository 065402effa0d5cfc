# Identity-verification front end: page logic in Dafny

A model of the three pages of the citizen identity-verification front end that
hold sequential logic, with proofs of what each page does:

- **Biometric verification** (`Biometric`): a four-valued state
  `idle | scanning | success | error`. A start always enters `scanning`. It then tries a
  WebAuthn platform-authenticator credential ceremony, whose request follows
  Web Authentication Level 2, section 5.4. A created credential ends the run in
  `success` with the toast "Biometric Verified". Every other outcome waits for a
  simulated 3000 ms scan and then ends in `success` with "Verification Complete".
  The outcomes are: API absent, authenticator unavailable, null credential, or a
  thrown error. `reset` returns to `idle`. The `error` state is declared and
  rendered, but nothing ever assigns it.
- **Enrollment** (`Enrollment`): a six-field form, a field-update operation, an
  ordered validator and a submit flow. The validator checks that all fields are
  filled, then that the Aadhaar number is exactly 12 ASCII digits. The submit flow
  sets `loading`. When its timer fires, it clears `loading`, shows a toast and
  navigates to `/dashboard`.
- **Login** (`Login`): a non-empty check on email and password, the same
  loading/timer/toast/navigate flow, and a password-visibility toggle.

`Effects` holds what the pages share: toasts, navigations and the effect log
they are recorded in.

Each page has two parts. The first is a class whose methods change its fields the
way the page's handlers change its React state cells. The second is a set of pure
functions and lemmas that state what those changes mean. For the biometric page,
the pure `Step` function over a `Screen` value is the specification. Each method
of `BiometricVerifyPage` is proved to perform that `Step`. The lemmas about `Run`,
which folds `Step` over any sequence of actions, then give the page's properties.

Inputs that come from outside the page are parameters:
- the ceremony outcome (`CeremonyOutcome`);
- the random challenge (any 32 bytes);
- the page's host name;
- the firing of each timer (a separate method, and an `Action` in the biometric specification).

## Model

| member | source | states |
|---|---|---|
| Biometric.CreationRequest | src/pages/BiometricVerify.tsx:22-45 | The ceremony request carries the given 32-byte challenge and the host name as relying-party id. It has a 16-byte user id, algorithms exactly [-7 (ES256), -257 (RS256)] in that order, attachment "platform", user verification "required" and timeout 60000. It meets conditions that imply the constraints of Web Authentication Level 2, including its recommended 16-byte minimum challenge: user handle of 1 to 64 bytes, non-empty "public-key" parameter list, and enumerated attachment and verification values |
| Biometric.BiometricVerifyPage.constructor | src/pages/BiometricVerify.tsx:11 | The page starts in `idle` with an empty log and no fallback delay running |
| Biometric.BiometricVerifyPage.StartWebAuthn | src/pages/BiometricVerify.tsx:14-62 | Performs `Step` for a start. It assigns `scanning` first. On a credential it then assigns `success` and appends exactly the "Biometric Verified" toast, with no delay started (the early return). On any other outcome it stays in `scanning`, shows no toast and starts one fallback delay |
| Biometric.BiometricVerifyPage.FallbackElapsed | src/pages/BiometricVerify.tsx:58-61 | When the simulated scan's delay elapses, the page assigns `success` and appends exactly the "Verification Complete" toast |
| Biometric.BiometricVerifyPage.Reset | src/pages/BiometricVerify.tsx:64 | `reset` sets `idle` from any state and adds nothing to the log |
| Biometric.BiometricVerifyPage.GoToDashboard | src/pages/BiometricVerify.tsx:155-157 | The dashboard button records a navigation to `/dashboard` and leaves the state alone |
| Biometric.StepConsistent | src/pages/BiometricVerify.tsx:145-169 | Any action a rendered button or a running timer can trigger preserves the page invariant. The invariant: the state is never `error`; the last assigned state is the current one; every `success` came straight after `scanning`; and, in the model, one fallback delay runs exactly while `scanning` (a start performs the ceremony in one step) |
| Biometric.OfferedRunConsistent | src/pages/BiometricVerify.tsx:145-169 | Every sequence of offered actions preserves that invariant |
| Biometric.ButtonsKeepScanningFirst | src/pages/BiometricVerify.tsx:145-169 | From the initial page, through the rendered buttons, `scanning` always precedes `success`, so no run goes straight from `idle` to `success`. At most one fallback delay runs, and in the model, where a start performs the ceremony in one step, it runs exactly while `scanning`, so no second start can begin during a scan |
| Biometric.UnguardedResetSkipsScanning | src/pages/BiometricVerify.tsx:165-169 | The button guards are what keep that order. A reset pressed while the fallback delay runs, followed by the timer, would assign `success` right after `idle` |
| Biometric.ErrorNeverAssigned | src/pages/BiometricVerify.tsx:14-64 | No sequence of starts, fallback completions, resets or navigations assigns `error` |
| Biometric.ErrorUnreachable | src/pages/BiometricVerify.tsx:8-64 | From the initial page, `error` is never the state and never appears among the assigned states, whatever happens |
| Biometric.ToastPerStart | src/pages/BiometricVerify.tsx:47-61 | For any action sequence, toasts shown plus fallback delays still running grow by exactly the number of starts. Only the two verification toasts ever appear |
| Biometric.OneToastPerCompletedStart | src/pages/BiometricVerify.tsx:47-61 | Through the rendered buttons, once no scan is in flight, exactly one toast has been shown per start, each with one of the two titles |
| Biometric.StartToCompletion | src/pages/BiometricVerify.tsx:14-62 | A start, run to completion, assigns `scanning` then `success` and ends in `success` with exactly one toast. The toast is "Biometric Verified" for a credential, with no delay. For every other outcome (API absent, unavailable, null credential, thrown error) it is "Verification Complete" after the delay |
| Enrollment.Update | src/pages/Enroll.tsx:27 | `update(key, value)` sets field `key` to `value` and leaves the other five fields unchanged |
| Enrollment.AllDigits | src/pages/Enroll.tsx:36 | True exactly when every character is an ASCII digit |
| Enrollment.MatchesDigits | src/pages/Enroll.tsx:36 | `^\d+$` holds exactly of non-empty strings of ASCII digits |
| Enrollment.Validate | src/pages/Enroll.tsx:31-39 | The form is accepted iff all six fields are non-empty and the Aadhaar number has length 12 with every character an ASCII digit. With any field empty, the verdict is the "Please fill all required fields." error. With all fields filled, any other rejection is the "Aadhaar must be a 12-digit number." error. The uploaded file takes no part |
| Enrollment.EmptyAadhaarIsMissingField | src/pages/Enroll.tsx:32-38 | The required-field check runs first, so an empty Aadhaar number gets the required-fields message, not the Aadhaar message |
| Enrollment.FilledFormAccepted | src/pages/Enroll.tsx:14-39 | Starting from the initial form, filling all six fields with a 12-digit Aadhaar number gives a form that validates |
| Enrollment.EnrollPage.constructor | src/pages/Enroll.tsx:14-23 | All six fields start empty. No file is chosen, `loading` is false and the log is empty |
| Enrollment.EnrollPage.UpdateField | src/pages/Enroll.tsx:27 | A field change replaces the form by `Update` and changes nothing else |
| Enrollment.EnrollPage.ChooseFile | src/pages/Enroll.tsx:114 | Choosing a file sets only the file |
| Enrollment.EnrollPage.HandleSubmit | src/pages/Enroll.tsx:29-41 | A rejected form appends only the validator's error toast and leaves `loading`, timers and navigation untouched. An accepted form, with or without a file, sets `loading` and starts one timer without showing anything |
| Enrollment.EnrollPage.TimerFired | src/pages/Enroll.tsx:41-45 | When the timer fires, `loading` becomes false, then the log gets "Enrollment Submitted!" followed by the navigation to `/dashboard` |
| Enrollment.SubmitAndWait | src/pages/Enroll.tsx:40-45 | A valid submit followed by its timer ends with `loading` false, having added exactly the success toast and then the navigation |
| Login.Validate | src/pages/Login.tsx:22-25 | A pair is accepted iff both email and password are non-empty, with no other credential check. Otherwise the verdict is the destructive "Please fill all fields." toast |
| Login.PasswordInputType | src/pages/Login.tsx:62 | The password input's type is "text" iff the password is shown, and "password" otherwise |
| Login.LoginPage.constructor | src/pages/Login.tsx:13-16 | Email and password start empty. `showPassword` and `loading` start false, so the input type is "password" |
| Login.LoginPage.SetEmail | src/pages/Login.tsx:54 | Editing the email changes only the email |
| Login.LoginPage.SetPassword | src/pages/Login.tsx:65 | Editing the password changes only the password |
| Login.LoginPage.TogglePassword | src/pages/Login.tsx:69 | The eye button negates `showPassword`, which flips the input type, and changes nothing else |
| Login.ToggleTwice | src/pages/Login.tsx:69 | Two presses of the eye button restore `showPassword` and leave the rest of the page as it was |
| Login.LoginPage.HandleSubmit | src/pages/Login.tsx:20-27 | With a field empty, only the "Please fill all fields." toast is appended, and `loading`, timers and navigation are untouched. Otherwise `loading` is set and one timer starts |
| Login.LoginPage.TimerFired | src/pages/Login.tsx:27-31 | When the timer fires, `loading` becomes false, then the log gets "Login Successful" followed by the navigation to `/dashboard` |
| Login.SubmitAndWait | src/pages/Login.tsx:26-31 | A submit with both fields filled, followed by its timer, ends with `loading` false, having added exactly the success toast and then the navigation |

## Left out

- JSX rendering, CSS classes, icons and layout. The buttons' visibility conditions are modelled only as the guards `StartOffered`, `ResetOffered` and `DashboardOffered`.
- `PublicKeyCredential.isUserVerifyingPlatformAuthenticatorAvailable` and `navigator.credentials.create` are browser APIs. Only their outcome is modelled, as a `CeremonyOutcome` input. A start performs the ceremony in one step, so the suspension between entering `scanning` and the ceremony result is not modelled. `Threw` covers an exception from either call.
- `crypto.getRandomValues`: the challenge is any 32 bytes. The model does not claim that challenges differ between attempts.
- `setTimeout` and promise timing: each delay becomes an explicit step (`FallbackElapsed`, `TimerFired`), and the delay lengths are only constants. A timer is counted from when it is scheduled until it fires. A page can therefore receive a submit or start while one is pending, and each call starts its own timer, as the handlers themselves do. Only the rendered buttons and `disabled={loading}` keep that from happening, and only the biometric page's button guards are modelled.
- Toast and navigation delivery, `window.location.href` versus the router, and `console.log`: toasts and navigations are only recorded in a log.
- The `update` key is one of the six form fields. The handler accepts any string key, but the page only ever passes the six field names.
- The `maxLength={12}` attribute of the Aadhaar input limits typing in the browser. `Update` accepts any string, and the validator does the 12-digit check itself.
- String lengths: JavaScript counts UTF-16 code units, and the model counts characters. Any string of 12 ASCII digits has the same length under both counts, and any string that is not made only of ASCII digits fails `^\d+$`. So `Validate` accepts the same Aadhaar numbers the page does.
- The dashboard page and the navigation bar are static presentation, with a hard-coded table and a menu toggle. They are not part of this model.
- Nothing assigns `error`, and `startWebAuthn` has no guard of its own against a start during `scanning`: only the hidden button prevents a second start. The model follows the code: `error` is unreachable (`ErrorUnreachable`), and starts are limited by the `Offered` guards.
