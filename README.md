# Registration and login core, in Dafny

This project models the logic under the screens of a mobile registration and login app, and proves properties of it. It has five parts.

- **Credential and session manager** (`Auth.AuthService`, `auth.dfy`).
  - A process-wide user directory maps each normalised email to the user and a password hash.
  - `register` lower-cases and trims the email, refuses a duplicate, and files the user. It then writes credentials, user record and a session token to storage, and clears the registration draft.
  - `login` looks up the normalised email and compares password hashes. An unknown email and a wrong password get the same message.
  - `checkSession` and `verifySession` report a session exactly when a non-empty token and a user record are both stored.
  - `logout` clears storage.
- **Supporting pure pieces of the manager.**
  - `email_key.dfy`: the email key, `toLowerCase().trim()`.
  - `password_hash.dfy`: the 32-bit rolling password hash, `h := ToInt32(31·h + code)` from 0, rendered in base 16. It is proved equal to the source's shift-and-subtract loop.
  - `session_token.dfy`: ids and session tokens.
- **Layered persistence gateway** (`Storage.StorageService`, `storage.dfy`).
  - It has three tiers, each a map from key to value: the secure credential tier, the encrypted tier (user, token) and the plain tier (draft, failed attempts, lockout time).
  - Every backend call takes a `fails` flag that says whether that call throws.
  - Writes to the secure and encrypted tiers raise "Failed to store …". Writes to the plain tier, every read, the credential removal and `clearAllData` fail soft.
- **Auth slice** (`AuthSlices.AuthSlice`, `auth_slices.dfy`). This holds the login, session and logout flags and the lockout state machine.
  - The failed-attempt counter locks the account once it reaches `MAX_LOGIN_ATTEMPTS` = 5.
  - The lock lasts until now + `LOCKOUT_DURATION` = 900000 ms.
  - Each reducer is a method that is proved equal to a function on `AuthState` values (`Incremented`, `LockoutChecked`, `LoginFulfilled`, …). Lemmas about repeated failures are proved over those functions.
  - Each thunk is a method that runs pending, the service call, then fulfilled or rejected.
- **Registration slice** (`Registration.RegistrationSlice`, `registration.dfy`).
  - `updateFormData` merges into the form. Saving a draft replaces the form wholesale.
  - Load and save of the draft, reset, and the submission flags.
  - The stored draft is cleared only after registration succeeds.
- **Password-strength rules** (`validation.dfy`).
  - A strict check, a score capped at 5, and a label per score.
  - The exact verdicts and scores the test suite pins down are proved.

The clock (`Date.now()`) and the random generator are inputs: a `Nonce(now, random)` and a second clock reading `later` for tokens, and `now` for the lockout reducers.

`login` stores the credentials exactly as typed, while `register` stores them with the normalised email. The model keeps that difference.

## Model

| member | source | states |
|---|---|---|
| Validation.TestIsContains | src/utils/validation.tsx:3-8 | A class test succeeds exactly when some character of the password is in that class. |
| Validation.ValidatePasswordStrength | src/utils/validation.tsx:10-18 | Strong if and only if the length is at least 8 and the password has a lower-case letter, an upper-case letter, a digit and one of the special characters. |
| Validation.CountMetUnrolled | src/utils/validation.tsx:21-27 | The number of criteria met is the sum of one point per criterion, over length ≥ 8, length ≥ 12 and the four classes. |
| Validation.GetPasswordStrengthScore | src/utils/validation.tsx:20-29 | The score lies in 0..5 and equals min(number of criteria met, 5). |
| Validation.StrongPasswordScoresFive | src/utils/validation.tsx:10-28 | Every password the strict check accepts scores 5. |
| Validation.ShortPasswordIsWeak | src/utils/validation.tsx:10-28 | A password shorter than 8 characters is never strong and scores at most 4. |
| Validation.TopScoreIsNotStrength | src/utils/validation.tsx:10-28 | A score of 5 does not imply strength: "Passwordpass1" scores 5 but has no special character. |
| Validation.PinnedVerdicts | __tests__/validation.test.tsx:22-45 | "Password1!" is strong. Removing length, a lower-case letter, an upper-case letter, the digit or the special character each makes it weak. |
| Validation.MorePinnedVerdicts | __tests__/validation.test.tsx:9-20 | "12345", "password" and "Password" are weak; "MyP@ssw0rd" and "Str0ng!Pass" are strong. |
| Validation.PinnedScores | __tests__/validation.test.tsx:54-67 | The scores of "password", "Password", "Password1" and "Password1!" are 2, 3, 4 and 5. |
| Validation.MorePinnedScores | __tests__/validation.test.tsx:49-69 | "pass" and "12345" score at most 1; "MyStr0ng!Password" scores 5. |
| Validation.GetPasswordStrengthLabel | src/utils/validation.tsx:31-37 | Total, and always one of the five labels. "Very Weak" exactly for scores ≤ 1, "Weak" for 2, "Fair" for 3, "Good" for 4, and "Strong" exactly for scores ≥ 5. |
| Validation.LabelsSeparateScores | src/utils/validation.tsx:31-37 | Distinct scores in 1..5 get distinct labels. |
| EmailKey.ToLower | src/services/authService.tsx:61 | Same length, each character the same letter up to case, and no upper-case letter left. |
| EmailKey.TrimStart | src/services/authService.tsx:61 | The result is the suffix after the leading whitespace, and it does not start with whitespace. |
| EmailKey.TrimEnd | src/services/authService.tsx:61 | The result is the prefix before the trailing whitespace, and it does not end with whitespace. |
| EmailKey.TrimIsSlice | src/services/authService.tsx:61 | Trimming keeps one contiguous piece of the input. |
| EmailKey.NormalizeIsNormal | src/services/authService.tsx:61 | A normalised email has no upper-case letter and no surrounding whitespace. |
| EmailKey.NormalizeIdempotent | src/services/authService.tsx:46 | Normalising twice equals normalising once, and lower-casing a normalised email changes nothing. So the key `saveUserToJSON` uses is the normalised email. |
| EmailKey.NormalizeIgnoresCase | src/services/authService.tsx:135 | An upper-cased email has the same key as the original, which makes login case-insensitive. |
| EmailKey.NormalizeIgnoresPadding | src/services/authService.tsx:135 | An email with surrounding spaces has the same key as the bare email. |
| PasswordHash.ToInt32 | src/services/authService.tsx:30 | The result is a signed 32-bit integer congruent to the input modulo 2^32. |
| PasswordHash.ShiftStepIsRolling | src/services/authService.tsx:29-30 | `(hash << 5) - hash + char` followed by `hash & hash` equals ToInt32(31·hash + char). |
| PasswordHash.RollingHashSnoc | src/services/authService.tsx:27-31 | One more character is one more step of the fold. |
| PasswordHash.RollingHashIsPolynomial | src/services/authService.tsx:25-33 | Wrapping after every step gives ToInt32 of the unbounded polynomial Σ c_i·31^(n-1-i). |
| PasswordHash.HexStringRoundTrip | src/services/authService.tsx:32 | The base-16 rendering, with '-' for negatives, parses back to the hash. |
| PasswordHash.HexStringInjective | src/services/authService.tsx:32 | Two renderings are equal exactly when the hashes are. |
| PasswordHash.EmptyPasswordHash | src/services/authService.tsx:25-33 | The empty password hashes to "0". |
| PasswordHash.LastCharacterSeparates | src/services/authService.tsx:25-33 | Passwords that differ only in their last character have different hashes. |
| PasswordHash.LastCharacterChangesHash | src/services/authService.tsx:142-145 | Changing the last character of a password changes its rendered hash. |
| PasswordHash.HashCollision | src/services/authService.tsx:142-145 | The hash is not injective: "Aa" and "BB" hash alike. |
| PasswordHash.TestPasswordsDiffer | __tests__/authService.test.tsx:117-126 | "WrongPassword1!" and "Password1!" have different hashes (-2091576488 and -1009294837), so the rendered hashes differ too. |
| SessionToken.DecimalInjective | src/services/authService.tsx:20 | The decimal rendering of a clock reading determines the reading. |
| SessionToken.UniqueIdLayout | src/services/authService.tsx:19-21 | An id is the decimal clock reading, an underscore, then the random digits, each at a fixed position. |
| SessionToken.UniqueIdDeterminesInputs | src/services/authService.tsx:19-21 | With base-36 random digits, two ids are equal if and only if their clock readings and random digits are. |
| SessionToken.GenerateSessionToken | src/services/authService.tsx:36-38 | The token starts with "session_" and is longer than that prefix. |
| SessionToken.TokenDeterminesInputs | src/services/authService.tsx:36-38 | With base-36 random digits, equal tokens come from equal clock readings and equal random digits. |
| Storage.StorageService.constructor | src/services/storageService.tsx:196 | The gateway starts over whatever the three tiers already hold. |
| Storage.StorageService.StoreCredentials | src/services/storageService.tsx:10-24 | On success the pair is stored under the keychain service and `getCredentials` returns it. On failure it raises "Failed to store credentials securely" and changes nothing. |
| Storage.StorageService.RemoveCredentials | src/services/storageService.tsx:46-54 | Removes the pair unless the backend fails, and never raises. |
| Storage.StorageService.StoreUserData | src/services/storageService.tsx:57-67 | `getUserData` returns the stored user. A failure raises "Failed to store user data" and changes nothing. |
| Storage.StorageService.StoreSessionToken | src/services/storageService.tsx:81-88 | `getSessionToken` returns the stored token. A failure raises "Failed to store session token" and changes nothing. |
| Storage.StorageService.StoreRegistrationDraft | src/services/storageService.tsx:101-110 | `getRegistrationDraft` returns the stored draft. A failure is swallowed. |
| Storage.StorageService.ClearRegistrationDraft | src/services/storageService.tsx:126-132 | Afterwards `getRegistrationDraft` returns null. A failure is swallowed. |
| Storage.StorageService.StoreFailedAttempts | src/services/storageService.tsx:135-144 | `getFailedAttempts` returns the stored count. A failure is swallowed. |
| Storage.StorageService.StoreLockoutTime | src/services/storageService.tsx:158-167 | `getLockoutTime` returns the stored time, and a stored 0 comes back as 0, not null. A failure is swallowed. |
| Storage.StorageService.ClearAllData | src/services/storageService.tsx:181-193 | Removes the credentials, empties the encrypted tier, and removes exactly the draft, attempts and lockout keys from the plain tier. Other plain keys stay. A failed clear skips the removal, and nothing raises. |
| Storage.ReadsFailSoft | src/services/storageService.tsx:27-178 | Every read of a failing backend returns null, or 0 for the attempts, instead of raising. |
| Storage.CredentialsRead | src/services/storageService.tsx:27-43 | `getCredentials` returns a pair if and only if one is stored under the keychain service and the read succeeds, and then it is that pair. |
| Storage.UserDataRead | src/services/storageService.tsx:70-78 | `getUserData` returns a user if and only if a user is stored under the user key and the read succeeds, and then it is that user. A value of another kind reads as null. |
| Storage.SessionTokenRead | src/services/storageService.tsx:91-98 | `getSessionToken` returns a token if and only if a token is stored and the read succeeds, and then it is that token. |
| Storage.RegistrationDraftRead | src/services/storageService.tsx:113-123 | `getRegistrationDraft` returns a draft if and only if a draft is stored and the read succeeds, and then it is that draft. |
| Storage.FailedAttemptsRead | src/services/storageService.tsx:147-155 | `getFailedAttempts` returns the stored count. It returns 0 when no count is stored, when a value of another kind is stored, or when the read fails. |
| Storage.LockoutTimeRead | src/services/storageService.tsx:170-178 | `getLockoutTime` returns a time, 0 included, if and only if one is stored and the read succeeds, and then it is that time. |
| Storage.AbsentKeysReadDefault | src/services/storageService.tsx:27-178 | A key that was never written reads as null, or as 0 for the failed attempts. |
| Auth.AuthService.constructor | src/services/authService.tsx:23 | The directory starts empty. |
| Auth.AuthService.HashPassword | src/services/authService.tsx:25-33 | The loop computes the base-16 rendering of the rolling hash. |
| Auth.AuthService.SaveUserToJSON | src/services/authService.tsx:41-56 | Files the record under its lower-cased email, replacing any entry there. |
| Auth.AuthService.Register | src/services/authService.tsx:59-112 | See the breakdown after this table. |
| Auth.AuthService.CheckSession | src/services/authService.tsx:114-130 | Valid if and only if a non-empty token and a user are both stored. A valid session carries the stored user; an invalid one carries none. |
| Auth.AuthService.Login | src/services/authService.tsx:133-163 | See the breakdown after this table. |
| Auth.AuthService.VerifySession | src/services/authService.tsx:166-180 | A session is found if and only if a non-empty token and a user are both stored, and then it holds exactly those two. |
| Auth.AuthService.Logout | src/services/authService.tsx:183-190 | Never fails. Storage is cleared as by `clearAllData`, and afterwards `checkSession` reports no session unless the clear failed. |
| Auth.SessionProbesAgree | src/services/authService.tsx:114-180 | `verifySession` finds a session exactly when `checkSession` says valid, and with the same user. |
| Auth.FailedReadMeansNoSession | src/services/authService.tsx:114-180 | A failing token or user read makes both probes report no session. |
| Auth.DuplicateRegistrationScenario | __tests__/authService.test.tsx:49-64 | A first registration succeeds with the lower-cased email and the given first name. The same form again is refused as a duplicate. |
| Auth.RetryAfterFailedWriteScenario | src/services/authService.tsx:89-110 | A registration whose token write throws still files the user, so a retry reports a duplicate. |
| Auth.UpperCaseLoginScenario | __tests__/authService.test.tsx:128-136 | A registered user logs in under the upper-cased email and gets a "session_" token. |
| Auth.WrongPasswordLoginScenario | __tests__/authService.test.tsx:117-126 | A registered user who types the password with its last character changed is refused with "Invalid email or password". |
| Auth.TestPasswordLoginScenario | __tests__/authService.test.tsx:117-126 | After registering with "Password1!", a login with "WrongPassword1!" is refused with "Invalid email or password". |
| Auth.CollidingPasswordScenario | src/services/authService.tsx:142-145 | An account registered with "Aa" accepts "BB", because the hashes collide. |
| Types.RejectMessage | src/redux/slices/authSlices.tsx:41 | The rejection message is the error's own when non-empty, and the fallback when the error's message is empty. |
| AuthSlices.FailuresCounted | src/redux/slices/authSlices.tsx:80-88 | Each failure adds exactly one to the counter. |
| AuthSlices.AfterFailuresSnoc | src/redux/slices/authSlices.tsx:80-88 | A further failure is one more increment of the state reached so far. |
| AuthSlices.LockedAfterMaxFailures | src/redux/slices/authSlices.tsx:81-86 | Once the count reaches 5 the account is locked. The lock ends 900000 ms after the latest failure, so each further failure refreshes it. |
| AuthSlices.NoLockBelowMax | src/redux/slices/authSlices.tsx:82-86 | Below 5, failures leave `isLocked` and `lockoutEndTime` untouched. |
| AuthSlices.FifthFailureLocks | src/redux/slices/authSlices.tsx:80-88 | From the initial state, four failures leave the account open and the fifth locks it until that failure's time + 900000. |
| AuthSlices.LockoutSurvivesRestart | src/redux/slices/authSlices.tsx:136-146 | A lock set at time t, read back from storage, holds exactly while now < t + 900000. The check copies the stored count. |
| AuthSlices.StoredZeroIsUnlocked | src/redux/slices/authSlices.tsx:136-146 | The stored 0 written by an unlock reads back as unlocked with no end time. |
| AuthSlices.LoginKeepsStaleLock | src/redux/slices/authSlices.tsx:107-114 | A login success zeroes the counter but keeps `isLocked` and `lockoutEndTime`. The next failure then leaves the old end time as it was. |
| AuthSlices.AuthSlice.constructor | src/redux/slices/authSlices.tsx:7-16 | The slice starts in the initial state. |
| AuthSlices.AuthSlice.IncrementFailedAttempts | src/redux/slices/authSlices.tsx:80-88 | The new state is `Incremented`. The plain tier gets the end time at 5 or more, then the new count, each unless its write fails; nothing else in storage changes. |
| AuthSlices.AuthSlice.ClearError | src/redux/slices/authSlices.tsx:89-91 | Only `error` changes, to null. |
| AuthSlices.AuthSlice.UnlockAccount | src/redux/slices/authSlices.tsx:92-98 | Unlocked, no end time, counter 0. The plain tier gets attempts 0, then lockout time 0, each unless its write fails; every other key, the draft included, stays. |
| AuthSlices.AuthSlice.LoginUserPending | src/redux/slices/authSlices.tsx:103-106 | Loading, error cleared. |
| AuthSlices.AuthSlice.LoginUserFulfilled | src/redux/slices/authSlices.tsx:107-114 | The new state is `LoginFulfilled`: signed in with the user and token, counter 0, error cleared, lock flags unchanged. |
| AuthSlices.AuthSlice.LoginUserRejected | src/redux/slices/authSlices.tsx:115-118 | Only `isLoading` and `error` change. |
| AuthSlices.AuthSlice.VerifySessionPending | src/redux/slices/authSlices.tsx:120-122 | Only `isLoading` changes. |
| AuthSlices.AuthSlice.VerifySessionFulfilled | src/redux/slices/authSlices.tsx:123-128 | Signed in with the found user and token. |
| AuthSlices.AuthSlice.VerifySessionRejected | src/redux/slices/authSlices.tsx:129-132 | Signed out, and the message is not recorded. |
| AuthSlices.AuthSlice.LogoutUserFulfilled | src/redux/slices/authSlices.tsx:134 | Exactly the initial state. |
| AuthSlices.AuthSlice.CheckLockoutStatusFulfilled | src/redux/slices/authSlices.tsx:136-146 | The new state is `LockoutChecked`: locked only while a stored, non-zero end time lies ahead. |
| AuthSlices.AuthSlice.LoginUser | src/redux/slices/authSlices.tsx:32-44 | Succeeds exactly when the key is filed, the hash matches and no write throws; otherwise the message is stored (see the breakdown after this table). |
| AuthSlices.AuthSlice.VerifySession | src/redux/slices/authSlices.tsx:46-57 | Signs in from the stored session, or signs out with "No valid session found". |
| AuthSlices.AuthSlice.LogoutUser | src/redux/slices/authSlices.tsx:59-68 | Always ends in the initial state. The three tiers are exactly those `clearAllData` leaves, and afterwards there is no session unless the clear failed. |
| AuthSlices.AuthSlice.CheckLockoutStatus | src/redux/slices/authSlices.tsx:70-74 | Applies the persisted count and end time, as read, to the state. |
| AuthSlices.LockoutAcrossRestartScenario | src/redux/slices/authSlices.tsx:80-146 | After five failures, a fresh slice over the same storage finds the account locked, with 5 attempts, until the last failure's time + 900000. |
| AuthSlices.UnlockAcrossRestartScenario | src/redux/slices/authSlices.tsx:92-146 | After an unlock, a fresh slice over the same storage finds the account open, with no attempts and no end time. |
| Registration.RegistrationSlice.constructor | src/redux/slices/registrationSlice.tsx:6-11 | The slice starts with an empty form at step 0, not submitting, no error. |
| Registration.RegistrationSlice.UpdateFormData | src/redux/slices/registrationSlice.tsx:44-46 | The form's keys become old keys ∪ payload keys. Payload fields overwrite, every other field is kept, and nothing else changes. |
| Registration.RegistrationSlice.SetCurrentStep | src/redux/slices/registrationSlice.tsx:47-49 | Only `currentStep` changes. |
| Registration.RegistrationSlice.ResetRegistration | src/redux/slices/registrationSlice.tsx:50 | Exactly the initial state. |
| Registration.RegistrationSlice.LoadRegistrationDraft | src/redux/slices/registrationSlice.tsx:14-17 | The form becomes the stored draft, or `{}` without one (the reducer at lines 54-56). |
| Registration.RegistrationSlice.SaveRegistrationDraft | src/redux/slices/registrationSlice.tsx:20-23 | The plain tier gets the payload under the draft key unless the write fails, and no other key changes; the payload then replaces the whole form (the reducer at lines 57-59). |
| Registration.RegistrationSlice.SubmitRegistrationPending | src/redux/slices/registrationSlice.tsx:60-63 | Submitting, error cleared. |
| Registration.RegistrationSlice.SubmitRegistrationFulfilled | src/redux/slices/registrationSlice.tsx:64-67 | Not submitting, and the form is emptied. |
| Registration.RegistrationSlice.SubmitRegistrationRejected | src/redux/slices/registrationSlice.tsx:68-71 | Not submitting, with the error stored. The form is kept. |
| Registration.RegistrationSlice.SubmitRegistration | src/redux/slices/registrationSlice.tsx:26-38 | See the breakdown after this table. |
| Registration.DraftRoundTripScenario | src/services/storageService.tsx:101-123 | A draft saved by one slice is loaded unchanged by a fresh slice over the same storage. |
| Registration.MergeVersusOverwriteScenario | src/redux/slices/registrationSlice.tsx:44-59 | Merging keeps a field the payload does not name; saving a draft drops it. |

The longer contracts, in full:

- **Auth.AuthService.Register**
  - A normalised email already in the directory fails with "User with this email already exists". It changes neither the directory nor storage.
  - Otherwise exactly one entry is added, under the normalised email. It holds the new user (normalised email, `phoneNumber` = `phone`) and the password's hash.
  - The result is the first write failure's message, or the user with a "session_" token.
  - On success the credentials (normalised email), the user and the token are stored. The plain tier loses exactly the draft key, unless that removal fails; the attempts and lockout keys stay.
  - A failure leaves the plain tier as it was.
  - In every case the email is afterwards in the directory.
- **Auth.AuthService.Login**
  - If the normalised email is missing, or the hash differs, it fails with "Invalid email or password" and storage is untouched.
  - Otherwise the result is the first write failure's message, or the filed user with a fresh token.
  - On success the credentials as typed, the token and the user are stored, and `checkSession` reports that user.
  - The directory is never changed.
- **AuthSlices.AuthSlice.LoginUser**
  - It succeeds exactly when the normalised email is filed, the hash matches and no write throws.
  - On success the result is the filed user with the token made from the clock readings, and the state is `LoginFulfilled` with it.
  - On success the credentials as typed, the token and the user are stored, and the plain tier changes only by attempts 0 (unless that write fails).
  - On failure the state is `LoginRejected` with the message, and the counter is unchanged.
  - A refused login, whether the email is unknown or the hash is wrong, leaves all of storage unchanged.
  - An unknown email or a wrong password gives "Invalid email or password".
  - With a filed email and a matching hash, the first throwing write gives its own message. The writes come in this order: credentials, then session token, then user data.
- **Registration.RegistrationSlice.SubmitRegistration**
  - It succeeds exactly when the email is new and no write throws. A duplicate gives "User with this email already exists" and leaves the directory and all of storage unchanged.
  - A duplicate leaves the directory as it was. A new email adds exactly one entry: the new user with the password's hash.
  - For a new email, the first throwing write gives its own message. The writes come in this order: credentials, then user data, then session token.
  - On success the result is the new user with a fresh token. The credentials (normalised email), the user and the token are stored.
  - On success the form is emptied. The plain tier loses exactly the draft key, and keeps it only when both the service's removal and the thunk's removal fail.
  - On failure the error is stored, the form is kept and the plain tier is as it was.

## Left out

- Screens, navigation, the React context and the Yup schemas are not part of this model. Neither are the debounced autosave, the unlock timer and the minutes-remaining display.
- Character handling is ASCII only. `toLowerCase` and `trim` use ASCII letters and ASCII whitespace, not Unicode case mapping or the Unicode space set.
- Strings are sequences of Dafny characters (Unicode scalar values), not UTF-16 code units. A character outside the Basic Multilingual Plane is one character here and two code units in the app. This changes:
  - the hash `hashPassword` computes;
  - the `password.length >= 8` test of `validatePasswordStrength`. For example, "Aa1!😀😀" is 8 code units long and strong in the app, but 6 characters long and weak here;
  - the two length points of `getPasswordStrengthScore`.
- `JSON.stringify`, `JSON.parse` and `parseInt` are replaced by typed stored values.
  - A value of the wrong kind under a key reads as absent.
  - An unparsable stored count (NaN) is not modelled.
- Storage failures are atomic: a backend call that throws changes nothing.
- The keychain's access options are not modelled.
- Asynchronous scheduling is not modelled. Thunks run pending, body, then fulfilled or rejected, in sequence. The unawaited storage writes in `incrementFailedAttempts` and `unlockAccount` complete in order.
- Time and randomness are parameters: `Date.now()`, `Math.random()`, and `new Date().toISOString()` for `createdAt`. The uniqueness of ids and tokens is only probabilistic in the app and is not claimed.
- Logging through `console` is left out.
- The `registerUser` thunk in `authSlices.tsx` is left out. No reducer of the auth slice handles it, and the registration slice's `submitRegistration` covers the same call.
- The `!result.token` checks in `loginUser` and `submitRegistration` are left out because they cannot fire. `SessionToken.GenerateSessionToken` proves every token is longer than "session_".
- `logoutUser`'s rejected path is left out because it cannot fire. `Auth.AuthService.Logout` proves logout never fails, and the slice has no reducer for it.
- The `try`/`catch` in `saveUserToJSON` guards only logging and a map insert, which cannot throw, so it is left out.
- Auth.AuthService.Register: when a write throws, the contract pins the result, the directory and the plain tier. It does not spell out which earlier secure or encrypted writes stayed. On success the plain tier is stated exactly.
- Auth.AuthService.Login: when a write throws, the contract pins the result. It does not spell out which earlier writes stayed.
- AuthSlices.AuthSlice.LoginUser: it passes on `Login`'s gap. When a write throws, the contract pins the result, the state and the plain tier, but not which earlier secure or encrypted writes stayed.
- Registration.RegistrationSlice.SubmitRegistration: it passes on `Register`'s gap. When a write throws, the contract pins the result, the state, the directory and the plain tier, but not which earlier secure or encrypted writes stayed.
- Validation.GetPasswordStrengthLabel: it takes an integer, where the source takes any `number`. The app only ever passes it the integer result of `getPasswordStrengthScore`, so fractional scores are not modelled.
