# MyCircles authentication core, in Dafny

This project models the core of MyCircles, a SvelteKit social app built on Circles and Gnosis Safe
wallets, and proves properties of that model. The core is the part that decides who a user is:

- **Challenges.** Sign-in challenge messages, and the five-minute timestamp rule applied to them.
- **Three authentication services.**
  - The wallet service `Auth` does Safe ownership, Safe signatures, the Google look-ups and the credentials check.
  - `SafeAuthService` does private-key and Google logins that find or create a profile.
  - The key-based `AuthService`.
- **The Auth.js callbacks** `authorize`, `signIn`, `jwt` and `session`.
- **The cookie session manager**, and the Google Safe completion endpoint.
- **Profiles.** The Profile collection, with its schema defaults and its unique email index. The registration page and the layout's registration guard work on it.
- **Browser-side login memory.**
- **Pure helpers.**
  - The form schemas.
  - Truncating and counting Lexical rich text.
  - Classifying and uploading media.
  - The trust-relation/profile join.
  - The post feeds.

## How things are modelled

- **Profile collection.** It is a `seq<Profile>`: a document's position is its id, and `findOne` returns the first match in natural order. Inserts and saves fail with the index error when an email is already taken.
- **State changes.** The code that changes state has two parts:
  - a pure function that returns the new collection with the result;
  - a method on the `ProfileDb`, `Token`, `SessionUser`, `Store` or `Cookies` class whose `ensures` equals that function.
- **Loops.** The closure-based walks of Lexical text are methods with loops and fields (`Truncator`, `Counter`). Each is proved equal to the recursive specification.
- **External services.** Cryptography and the outside world are fields of an `Oracles` value:
  - checksumming (`ethers.getAddress`);
  - the Safe registry lookup;
  - the key-to-address map;
  - ECDSA recovery;
  - the Safe's EIP-1271 check;
  - Safe signing.
- **Parameters.** The following are passed in as parameters:
  - the Circles RPC;
  - the clock;
  - random nonces and UUIDs;
  - the cookie decoder;
  - the email validator;
  - the object store's verdicts.
- **Strings** are sequences of characters. `toLowerCase` is ASCII lower-casing.

## Behaviour worth knowing

In each case below the code does something other than what a reader might expect, and the model follows the code.

- **Challenge text.** The challenge message reads "Sign this message to authenticate with MyCircles." followed by a blank line. The key-based service's challenge has no Domain line.
- **Failed registry lookup.** A failed lookup is reported as "owns no Safe" (`SafeAuthService.LookupFailureLooksLikeNoSafes`, `AuthService.RegistryFailureControlsNothing`). A registry outage is therefore indistinguishable from a wallet that owns no Safe.
- **Unique fields.** Only `email` is unique in the Profile schema; `safeAddress` is not.
- **Safe look-ups** use the Safe address exactly as given, not case-normalised.
- **Duplicate email on create.** When a profile create hits a duplicate email, the login reports "Authentication failed". The existing record is not fetched again, so a first-login race ends in a failed login.
- **Undated messages.** `verifySignature` (both services) accepts a message that has no timestamp (`Variants.UndatedMessageDivergence`).
- **Session data.** It carries no authentication method. `validateSession` does not re-read the profile; the `jwt` callback refreshes the token from the profile with the token's email.

## Model

| member | source | states |
|---|---|---|
| `Auth.GenerateChallenge` | src/lib/services/AuthService.ts:355-361 | The challenge keeps the nonce and issue time. Its message is the sign-in text with the nonce, `Timestamp: <time>` and the mycircles.app Domain line. |
| `Auth.ChallengeRoundTrip` | src/lib/services/AuthService.ts:94-103 | The timestamp of a challenge issued at t is extracted as exactly t. The message validates iff it is at most five minutes old. |
| `Auth.VerifySafeOwnership` | src/lib/services/AuthService.ts:55-63 | True iff the Safe API lookup for the owner succeeds and lists the Safe up to case. A lookup that throws gives false. |
| `Auth.VerifySafeOwnershipRecase` | src/lib/services/AuthService.ts:55-63 | Re-casing the Safe, or re-spelling the owner in another casing that `getAddress` accepts, leaves the verdict unchanged. |
| `Auth.GetSafeUserInfo` | src/lib/services/AuthService.ts:108-135 | Null iff no profile has the email with a Safe that is neither null nor "0x". Otherwise it gives the first such profile's Safe and key. |
| `Auth.AuthenticateWithGoogle` | src/lib/services/AuthService.ts:140-180 | With no complete Safe profile for the email, the result is the "No Safe address found…" error. On success the user is that profile's Safe, username, id and name, the key's address, and the email. The Safe is not "0x" and the key is not empty. With such a profile, the login succeeds iff the wallet accepts the stored key, and otherwise fails with "Authentication failed". |
| `Auth.AuthenticateWithCredentials` | src/lib/services/AuthService.ts:185-251 | The checks run in order: timestamp, Safe signature, ownership, profile. Each failure returns its own error. Success holds iff all four hold, and the user is the first profile with that Safe. |
| `Auth.CredentialsRejectUndatedMessage` | src/lib/services/AuthService.ts:94-103 | A message without `Timestamp: <digits>` is refused as too old or invalid, whatever the signature. |
| `Auth.VerifySignature` | src/lib/services/AuthService.ts:257-317 | Fails iff the shared signature check fails, with the same error. On success the user is the Safe's profile. |
| `Auth.CreateSessionData` | src/lib/services/AuthService.ts:322-333 | Refused iff there is no user or the username is empty. Otherwise it gives the user's Safe, id and username stamped with now. |
| `Auth.CreatedSessionLifetime` | src/lib/services/AuthService.ts:338-350 | A session created at t ≠ 0 for a user with a Safe and an id validates iff now − t ≤ 24 h. |
| `Auth.CredentialsLoginSession` | src/lib/services/AuthService.ts:322-350 | A credentials login yields session data iff the profile has a username. That session is still valid 24 h later. |
| `AuthTypes.ValidateSession` | src/lib/services/AuthService.ts:338-350 | Valid iff the data is present, safeAddress, profileId and signedAt are truthy, and it is at most 24 h old. |
| `AuthTypes.SessionExpiryBoundary` | src/lib/auth/AuthService.ts:262-274 | A session exactly 24 h old is valid; one a millisecond older is not. |
| `AuthTypes.SessionExpiryMonotone` | src/lib/auth/AuthService.ts:262-274 | A session valid at some time was valid at every earlier time. |
| `AuthTypes.SessionAtEpochRejected` | src/lib/services/AuthService.ts:340-342 | A session with signedAt 0 is never valid. |
| `AuthTypes.SignatureCheck` | src/lib/services/AuthService.ts:257-317 | Success names the first profile with the Safe. The recovered signer equals the address of the stored key up to case, and the message is not expired. Without a profile the error is "Profile not found…". |
| `AuthTypes.SignatureCheckProfileFirst` | src/lib/services/AuthService.ts:260-266 | An unknown Safe gives "Profile not found for this Safe address" whatever the signature and message. |
| `AuthTypes.SignatureCheckCaseless` | src/lib/services/AuthService.ts:280-281 | Recovering the signer in another letter case gives the same outcome. |
| `AuthTypes.SignatureCheckTimestamp` | src/lib/services/AuthService.ts:289-298 | Once profile and signer match, a message without a timestamp passes. One with a timestamp passes iff it is at most five minutes old, and otherwise fails with "Authentication message expired". |
| `Chain.SafesForOwnerOrThrow` | src/lib/services/SafeApiService.ts:37-59 | The Safes the registry lists for the checksummed owner, `[]` when none are listed. An error when the address is rejected or the registry fails. |
| `Chain.SafesForOwner` | src/lib/auth/SafeAuthService.ts:65-82 | The same lookup, with every failure turned into `[]`. |
| `Chain.IncludesCaselessMeans` | src/lib/auth/SafeAuthService.ts:143 | Case-insensitive `includes` holds iff some entry equals x up to case. |
| `Chain.IncludesCaselessRecase` | src/lib/auth/SafeAuthService.ts:143 | Re-casing x or the entries does not change case-insensitive membership. |
| `Chain.IncludesCaselessMember` | src/lib/auth/SafeAuthService.ts:143 | Every entry is found, in any casing. |
| `Chain.SafesForOwnerRecase` | src/lib/services/SafeApiService.ts:39 | Two spellings of an owner that `getAddress` both accepts get the same lookup answer. |
| `Chain.KeyFormatExamples` | src/lib/auth/SafeAuthService.ts:90 | The key pattern accepts a 0x-prefixed 64-hex-digit key. It rejects a short key and one without the prefix. |
| `Challenge.ExtractTimestamp` | src/lib/auth/SafeAuthService.ts:286 | The value of the leftmost `Timestamp: <digits>` match, or none when nothing matches. |
| `Challenge.ValidateMessageTimestamp` | src/lib/auth/SafeAuthService.ts:285-294 | False without a timestamp. Otherwise true iff now − timestamp ≤ five minutes. |
| `Challenge.RenderExtractRoundTrip` | src/lib/auth/SafeAuthService.ts:54-60 | Extracting the timestamp from a rendered challenge gives back the rendered timestamp. This holds whatever tail follows, provided the tail does not start with a digit. |
| `Challenge.RenderedChallengeFreshness` | src/lib/auth/SafeAuthService.ts:285-294 | A freshly rendered challenge validates iff it is at most five minutes old. |
| `Profiles.FindFirst` | src/lib/services/AuthService.ts:260 | `findOne`: the first document in natural order that matches the filter. None iff no document matches. |
| `Profiles.NewProfile` | src/lib/models/Profile.ts:4-25 | Supplied fields are kept. The others take the schema defaults ("" name, "0x" Safe, "" key, Open). Username and email stay absent. |
| `Profiles.Insert` | src/lib/models/Profile.ts:7 | A new document is appended unless another document already has its email. |
| `Profiles.Save` | src/lib/models/Profile.ts:7 | A changed document replaces position i unless another document already has its email. |
| `Profiles.InsertKeepsEmailsUnique` | src/lib/models/Profile.ts:7 | A successful insert keeps emails unique. |
| `Profiles.SaveKeepsEmailsUnique` | src/lib/models/Profile.ts:7 | A successful save keeps emails unique. |
| `Profiles.SaveSameEmailSucceeds` | src/lib/models/Profile.ts:7 | Saving a document with its email unchanged never trips the index. |
| `Profiles.InsertFreshEmailSucceeds` | src/lib/models/Profile.ts:7 | Inserting a document whose email nobody has succeeds. |
| `Profiles.ProfileDb.Create` | src/lib/models/Profile.ts:7 | `save()` of a new profile. The collection and result are those of `Insert`, and the new id is the old length. |
| `Profiles.ProfileDb.Update` | src/lib/models/Profile.ts:7 | `save()` of a changed profile. The collection and result are those of `Save`. |
| `SafeAuthService.Domain` | src/lib/auth/SafeAuthService.ts:57 | The ORIGIN setting when truthy, else "localhost:5173". |
| `SafeAuthService.GenerateChallenge` | src/lib/auth/SafeAuthService.ts:54-60 | The challenge keeps nonce and time. Its message ends with the Domain line for the origin. |
| `SafeAuthService.ChallengeRoundTrip` | src/lib/auth/SafeAuthService.ts:285-294 | The challenge's timestamp is recovered exactly, so it validates iff at most five minutes old, whatever the origin. |
| `SafeAuthService.SafeAddressesForPrivateKey` | src/lib/auth/SafeAuthService.ts:87-106 | A key not matching the pattern, or one the wallet rejects, throws. Otherwise the result is the key's address and the Safes listed for it. |
| `SafeAuthService.LookupFailureLooksLikeNoSafes` | src/lib/auth/SafeAuthService.ts:65-82 | A failed registry lookup gives the same answer as an owner of no Safe. |
| `SafeAuthService.VerifySafeOwnership` | src/lib/auth/SafeAuthService.ts:138-148 | True iff some listed Safe equals the Safe up to case. |
| `SafeAuthService.Slice` | src/lib/auth/SafeAuthService.ts:186 | `slice(0, n)` is the prefix of length min(n, length). |
| `SafeAuthService.NewSafeProfile` | src/lib/auth/SafeAuthService.ts:182-187 | The created profile holds the Safe, the key, the `<safe>@safe.local` email and the name "Safe User " plus the first 8 characters of the Safe. It has no username. |
| `SafeAuthService.PrivateKeyRejectionChangesNothing` | src/lib/auth/SafeAuthService.ts:168-175 | A rejected Safe signature reports "Invalid signature or Safe ownership" and writes nothing. |
| `SafeAuthService.PrivateKeyFailureChangesNothing` | src/lib/auth/SafeAuthService.ts:153-215 | Every failed login leaves the collection unchanged. |
| `SafeAuthService.PrivateKeyCreatesProfile` | src/lib/auth/SafeAuthService.ts:178-190 | For a new Safe, success appends exactly one profile (`NewSafeProfile`) and reports its id. |
| `SafeAuthService.PrivateKeyUpdatesOnlyKey` | src/lib/auth/SafeAuthService.ts:191-195 | For a known Safe, only that profile's key changes, and only when it differs. The reported id is the profile's. |
| `SafeAuthService.PrivateKeyStoresKey` | src/lib/auth/SafeAuthService.ts:153-215 | After a successful login, the Safe's first profile holds the key. |
| `SafeAuthService.PrivateKeyIdempotent` | src/lib/auth/SafeAuthService.ts:153-215 | Logging in again with the same key and Safe changes nothing and reports the same user. |
| `SafeAuthService.PrivateKeyKeepsEmailsUnique` | src/lib/auth/SafeAuthService.ts:153-215 | The login keeps emails unique. |
| `SafeAuthService.AuthenticateWithPrivateKey` | src/lib/auth/SafeAuthService.ts:153-215 | The live collection and the result are those of `PrivateKeyLogin`. |
| `SafeAuthService.GoogleLogin` | src/lib/auth/SafeAuthService.ts:220-279 | It uses the first complete Safe profile for the email (Safe not "0x", key not empty), then checks the Safe signature. Without such a profile it gives the "No Safe address found…" error. |
| `AuthService.GenerateChallenge` | src/lib/auth/AuthService.ts:279-285 | The message has no Domain line and ends with the timestamp. |
| `AuthService.ChallengeRoundTrip` | src/lib/auth/AuthService.ts:279-285 | The timestamp is recovered exactly and validates iff at most five minutes old. |
| `AuthService.AuthenticateWithGoogle` | src/lib/auth/AuthService.ts:45-77 | Uses the first profile with the email whose Safe and key are present and non-null. "0x" and "" are accepted. |
| `AuthService.SafeAddressesForPrivateKey` | src/lib/auth/AuthService.ts:210-228 | The Safes listed for the key's address. A rejected key, a rejected address or a failed lookup all give []. |
| `AuthService.VerifyPrivateKeyControlsSafe` | src/lib/auth/AuthService.ts:233-241 | True iff the Safe, up to case, is listed for the key's address. |
| `AuthService.RegistryFailureControlsNothing` | src/lib/auth/AuthService.ts:210-241 | A failed registry lookup means the key controls no Safe. |
| `AuthService.AuthenticateWithPrivateKey` | src/lib/auth/AuthService.ts:82-139 | The checks run in order: key format, control of the Safe, profile with exactly this Safe, stored key. Each failure gives its own error: a key the wallet rejects gives "Authentication failed", and a different stored key gives the key-mismatch error. On success the user is the profile. |
| `AuthService.VerifySignature` | src/lib/auth/AuthService.ts:144-205 | The shared check. On success the user also carries the stored key. |
| `AuthService.CreateSessionData` | src/lib/auth/AuthService.ts:246-257 | Refused only when there is no user. The username is copied as it is. |
| `AuthService.KeyLoginSessionLifetime` | src/lib/auth/AuthService.ts:246-274 | A successful key login yields a session valid for exactly 24 h, with or without a username. |
| `AuthCallbacks.AuthorizeNullCases` | src/auth.ts:54-124 | A missing or malformed key, or a key whose owner has no listed Safe, returns null and writes nothing. |
| `AuthCallbacks.AuthorizeSelectsFirstSafe` | src/auth.ts:73-110 | A user is returned iff the private-key login for the first listed Safe succeeds. Its id and safeAddress name that Safe, which is listed for the key's owner. |
| `AuthCallbacks.AuthorizeReturnsLoginUser` | src/auth.ts:95-118 | When the login for the first Safe succeeds, `authorize` returns that login's collection and its user, with id and safeAddress set to the Safe. |
| `AuthCallbacks.Authorize` | src/auth.ts:54-124 | The live collection and the returned user are those of `AuthorizeSpec`. |
| `AuthCallbacks.PlaceholderProfile` | src/auth.ts:184-189 | The temporary profile has the email and the name or "", and no username. |
| `AuthCallbacks.SignInCompleteSafeUser` | src/auth.ts:131-176 | A Google account with a complete Safe profile is let in iff the Safe verification succeeds. No profile is created. |
| `AuthCallbacks.SignInPlaceholder` | src/auth.ts:177-196 | Every other sign-in is let in. A placeholder is appended iff no profile has the email. |
| `AuthCallbacks.SignInIdempotent` | src/auth.ts:129-198 | Signing in again creates nothing more. |
| `AuthCallbacks.SignIn` | src/auth.ts:129-198 | The live collection and verdict are those of `SignInSpec`. |
| `AuthCallbacks.JwtCopiesSafeUser` | src/auth.ts:201-214 | A Safe user's fields are copied onto the token without consulting the collection. |
| `AuthCallbacks.JwtRefreshFromProfile` | src/auth.ts:217-235 | id, Safe and username come from the first profile with the token's email. The controlling EOA is untouched. |
| `AuthCallbacks.JwtNoMatchOnlyEmail` | src/auth.ts:199-240 | Without a matching profile, the token only gains the email a sign-in sets. |
| `AuthCallbacks.SessionStep` | src/auth.ts:241-252 | `session.user` takes the token's id, Safe, username and EOA. The email is the token's, or the old one when the token has none. |
| `AuthCallbacks.SessionShowsSafeUser` | src/auth.ts:241-252 | The session shows what `jwt` recorded for a Safe user. |
| `AuthCallbacks.Token.Jwt` | src/auth.ts:199-240 | Assigning the fields one by one yields `JwtStep` of the old token. |
| `AuthCallbacks.SessionUser.FillFrom` | src/auth.ts:241-252 | Assigning the fields one by one yields `SessionStep`. |
| `SessionManager.GetSession` | src/lib/auth/SessionManager.ts:17-36 | The decoded `safe_auth_token` cookie when present, non-empty, decodable and valid now. Otherwise null. |
| `SessionManager.IssuedSessionReadBack` | src/lib/auth/SessionManager.ts:17-36 | A session written with an encoding the decoder inverts is read back unchanged iff at most 24 h old. |
| `SessionManager.ClearedHasNoSession` | src/lib/auth/SessionManager.ts:41-43 | Without the cookie there is no session. |
| `SessionManager.GetSafeAddress` | src/lib/auth/SessionManager.ts:55-58 | The session's Safe, which is non-empty, or null iff there is no session. |
| `SessionManager.RequireAuth` | src/lib/auth/SessionManager.ts:64-70 | The session, or the "Authentication required" error iff there is none. |
| `SessionManager.VerifyUserSignature` | src/lib/auth/SessionManager.ts:76-94 | False without a session. Otherwise the verdict of `verifySignature` for the session's Safe. |
| `SessionManager.VerifiedSignatureIsTheUsers` | src/lib/auth/SessionManager.ts:76-94 | An accepted signature was made, up to case, by the address of the key stored on the session Safe's profile. |
| `SessionManager.Cookies.Delete` | src/lib/auth/SessionManager.ts:42 | The named cookie is removed and the others are kept. |
| `SessionManager.ClearSession` | src/lib/auth/SessionManager.ts:41-43 | Only the session cookie goes. |
| `GoogleSafeComplete.PostAsWritten` | src/routes/api/auth/google-safe-complete/+server.ts:5-50 | An unparseable body gives 500. A missing field gives 400. Every complete request gives 500 "Authentication failed". |
| `GoogleSafeComplete.AsWrittenNeverSucceeds` | src/routes/api/auth/google-safe-complete/+server.ts:16 | No request ever gets 200 as written. |
| `GoogleSafeComplete.Post` | src/routes/api/auth/google-safe-complete/+server.ts:5-50 | The intended handler: 400 for a missing field; 404 without a Safe user; 400 on a Safe mismatch up to case. Otherwise the credentials check decides: a failure gives 401 with its error, or "Authentication failed" when the error is empty; a success gives 200 with the credentials' user. |
| `GoogleSafeComplete.CorrectedSuccessFailsAsWritten` | src/routes/api/auth/google-safe-complete/+server.ts:3 | Every request the intended handler accepts is refused with 500 as written. |
| `GoogleSafeComplete.CompletionMatchesGoogleProfile` | src/routes/api/auth/google-safe-complete/+server.ts:15-24 | A success logs in the Safe held, up to case, by the Google email's profile. |
| `GoogleSafeComplete.GoogleSafeCompleteCounterexample` | src/routes/api/auth/google-safe-complete/+server.ts:16-32 | A concrete request, with a fresh challenge and a valid owner and signature, gets 200 from the intended handler and 500 as written. |
| `Schemas.UsernameIssues` | src/lib/validation/schemas.ts:5-12 | Each of the min, max and pattern messages is reported iff its rule fails, in that order. There are at most two. |
| `Schemas.EmptyUsernameTwoIssues` | src/lib/validation/schemas.ts:5-12 | The empty username fails both the minimum and the pattern. |
| `Schemas.PasswordIssues` | src/lib/validation/schemas.ts:14-21 | No issue iff the password is strong. A length failure comes first. There are at most five issues. |
| `Schemas.EmailIssues` | src/lib/validation/schemas.ts:3 | "Invalid email address" iff the email check fails. |
| `Schemas.ParseRegistration` | src/lib/validation/schemas.ts:23-26 | Valid iff username and email pass. Then the data is the pair. |
| `Schemas.ParseSignIn` | src/lib/validation/schemas.ts:28-31 | Valid iff email and password pass. |
| `Schemas.ParseSignUp` | src/lib/validation/schemas.ts:33-43 | Valid iff all fields pass and the passwords match. A mismatch is reported last, on confirmPassword. |
| `Schemas.SignUpMismatchAlwaysReported` | src/lib/validation/schemas.ts:40-43 | Differing passwords are reported whatever else fails. |
| `Schemas.CaptionValue` | src/lib/validation/schemas.ts:74-75 | A blank or non-string caption becomes "". Other text is kept. |
| `Schemas.ParseUpload` | src/lib/validation/schemas.ts:49-95 | Valid iff media, caption (at most 2200), visibility and location (display name at most 200) pass, with null and "public" defaults. |
| `Schemas.BlankCaptionAccepted` | src/lib/validation/schemas.ts:74-77 | A whitespace-only caption of any length is accepted as "". |
| `Schemas.UploadDefaults` | src/lib/validation/schemas.ts:72-94 | An empty form parses to no media, "", "public" and no location. |
| `Layout.Load` | src/routes/+layout.server.ts:4-21 | Redirects 302 to /registration iff a user without a username requests a path outside /registration, /signout and /api/auth. Otherwise it renders the session. |
| `Layout.NoRedirectLoop` | src/routes/+layout.server.ts:11-14 | Following the redirect never redirects again. |
| `Layout.GuardOnlyForUnregistered` | src/routes/+layout.server.ts:8 | Anonymous visitors and users with a username are never redirected. |
| `Registration.Load` | src/routes/registration/+page.server.ts:18-38 | Without an email, redirect to /signin. With a profile that has a username, redirect to /. Otherwise show the form with the email. |
| `Registration.WithUsername` | src/routes/registration/+page.server.ts:64-71 | The profile gains the username, and the session name when its own name is empty. Nothing else changes. |
| `Registration.Fresh` | src/routes/registration/+page.server.ts:73-81 | The new profile has the email, the username and the session name or "", with schema defaults. |
| `Registration.InvalidFormChangesNothing` | src/routes/registration/+page.server.ts:45-47 | An invalid form returns its issues and writes nothing. |
| `Registration.ValidFormSaves` | src/routes/registration/+page.server.ts:49-85 | With unique emails, a valid form always saves. The email's profile carries the username and other profiles are untouched. Emails stay unique and at most one profile is added. |
| `Registration.RegisterThenLoadRedirectsHome` | src/routes/registration/+page.server.ts:27-30 | After registering, the page redirects home. |
| `Registration.RegisteredUserPassesLayout` | src/routes/+layout.server.ts:8-15 | After registering, the next `jwt` refresh carries the username and the layout lets every path through. |
| `Registration.Register` | src/routes/registration/+page.server.ts:40-90 | The live collection and outcome are those of `RegisterSpec`. |
| `AuthStorage.Stamp` | src/lib/utils/authStorage.ts:18-35 | The stored record is the input plus the time. |
| `AuthStorage.StoreThenGet` | src/lib/utils/authStorage.ts:40-61 | What was stored is read back for 24 h. Afterwards the entry is gone. |
| `AuthStorage.GetIdempotent` | src/lib/utils/authStorage.ts:40-61 | A second read answers like the first. A read only ever removes the entry. |
| `AuthStorage.NullResultClearsBadEntry` | src/lib/utils/authStorage.ts:50-59 | For a record or corrupt text, a null result means the entry was removed. |
| `AuthStorage.Store.StoreAuthData` | src/lib/utils/authStorage.ts:18-35 | In a browser the slot holds the stamped record. On the server nothing changes. |
| `AuthStorage.Store.ClearAuthData` | src/lib/utils/authStorage.ts:66-74 | In a browser the slot is emptied. On the server nothing changes. |
| `AuthStorage.Store.GetAuthData` | src/lib/utils/authStorage.ts:40-61 | The slot afterwards and the result are those of `GetSpec`. |
| `AuthStorage.Store.HasStoredAuthData` | src/lib/utils/authStorage.ts:79-81 | True iff a read returns data, with the read's effect on the slot. |
| `Lexical.PruneKeepsCount` | src/lib/utils/post.ts:39-57 | Dropping non-text nodes keeps the character count. |
| `Lexical.WalkFits` | src/lib/utils/post.ts:6-28 | The walk stops early iff the text exceeds the budget. When it fits, the output is the pruned input. |
| `Lexical.WalkHeadFits` | src/lib/utils/post.ts:11-25 | The same, for one node. |
| `Lexical.WalkOutputBound` | src/lib/utils/post.ts:6-28 | The output counts at most the budget plus the one-character ellipsis. |
| `Lexical.HeadOutputBound` | src/lib/utils/post.ts:14-24 | The same, for one node. |
| `Lexical.WalkConcat` | src/lib/utils/post.ts:8-9 | Walking a concatenation is walking the first part and then, if not done, the second. |
| `Lexical.WalkIdempotent` | src/lib/utils/post.ts:6-28 | Walking the output again gives the same output and count. |
| `Lexical.HeadIdempotent` | src/lib/utils/post.ts:11-25 | The same, for one node. |
| `Lexical.TruncateLexicalJson` | src/lib/utils/post.ts:1-37 | Defined iff root and root children exist. The other fields are kept and the root's children are the walk's output. |
| `Lexical.TruncateDefault` | src/lib/utils/post.ts:1 | With the default budget of 200, the preview is defined iff root and root children exist and counts at most 201 characters. A post within 200 characters keeps its count. |
| `Lexical.CountLexicalCharacters` | src/lib/utils/post.ts:39-57 | The text length of all text nodes, inside paragraphs too. 0 without root children. |
| `Lexical.TruncateWithinBudget` | src/lib/utils/post.ts:1-37 | The truncated post counts at most the budget plus one. A post within budget only loses non-text nodes and keeps its count. |
| `Lexical.TruncateIdempotent` | src/lib/utils/post.ts:1-37 | Truncating twice equals truncating once. |
| `Lexical.Truncator.WalkNodes` | src/lib/utils/post.ts:6-28 | The loop returns the output of `Walk` and leaves count and done as `Walk` says. |
| `Lexical.Truncate` | src/lib/utils/post.ts:1-37 | Returns `TruncateLexicalJson`. |
| `Lexical.Counter.WalkNodes` | src/lib/utils/post.ts:42-50 | The loop adds the text length of the nodes to count. |
| `Lexical.Count` | src/lib/utils/post.ts:39-57 | Returns `CountLexicalCharacters`. |
| `MediaUpload.GetMediaType` | src/lib/utils/mediaUploadUtils.ts:69-78 | No files gives "No files provided". More than one file is an album whatever the files are. A single file is an image iff `isImage`, else a video iff `isVideo`, else "Unsupported file type: <name>". |
| `MediaUpload.Extension` | src/lib/utils/mediaUploadUtils.ts:84 | The lower-cased text after the last dot, or the whole name lower-cased when there is no dot. |
| `MediaUpload.HeicNamesAreConvertedImages` | src/lib/utils/mediaUploadUtils.ts:61-65 | A name ending in .heic or .heif, in any case, is an image and goes through HEIC conversion. |
| `MediaUpload.Bucket` | src/lib/utils/mediaUploadUtils.ts:136 | The MINIO_BUCKET setting when truthy, else "uploads". |
| `MediaUpload.ProcessImage` | src/lib/utils/mediaUploadUtils.ts:80-131 | The file name is `<uuid>.jpeg` with content type image/jpeg. The original name and MIME type are kept. The URL is `<endpoint>/<file name>`. |
| `MediaUpload.ProcessAndUploadMedia` | src/lib/utils/mediaUploadUtils.ts:133-178 | No files gives "No files provided". Success holds iff every file's task succeeds, so every file is an image. The output has one entry per file, in order. A non-image's error wins over upload errors. |
| `MediaUpload.VideosRejected` | src/lib/utils/mediaUploadUtils.ts:157-158 | A video that is not also an image is never uploaded, alone or in an album. |
| `MediaUpload.SingleUnsupportedMessage` | src/lib/utils/mediaUploadUtils.ts:75-77 | A single unsupported file is refused with "Unsupported file type: <name>". |
| `Relations.FetchFrom` | src/lib/server/relations.ts:36-39 | The fetched profiles are exactly the stored ones whose address is queried. Each carries the stored document's address, username and id. |
| `Relations.Lookup` | src/lib/server/relations.ts:48-50 | None iff no entry has the key. Otherwise the last entry with the key. |
| `Relations.Join` | src/lib/server/relations.ts:53-56 | One entry per relation, in order, with the relation unchanged and the profile found for its key. |
| `Relations.GetFilteredRelationsWithProfiles` | src/lib/server/relations.ts:23-64 | An undefined address, an RPC error or a query error gives []. Otherwise the exact-address join of the relations for the lower-cased address. |
| `Relations.FetchedLookup` | src/lib/server/relations.ts:36-50 | A queried key finds a profile iff a stored profile has exactly that address. |
| `Relations.LastFetchedWins` | src/lib/server/relations.ts:36-50 | A key found in the address map built from the fetched profiles belongs to the last stored document with that address. |
| `Relations.LibJoinExact` | src/lib/server/relations.ts:53-57 | Every relation is kept. A profile is attached iff one is stored under exactly the relation's `objectAvatar`. It is the address, username and id of the last such stored document: a later duplicate wins in the address map. |
| `Relations.Get` | src/routes/api/circles/relations/+server.ts:24-76 | A missing address gives 400 "No address provided". An RPC error, or a profile query error, gives 400 with that error's message. Otherwise 200 with one entry per relation. |
| `Relations.RouteJoinLowercased` | src/routes/api/circles/relations/+server.ts:46-70 | A profile is attached iff one is stored under the lower-cased `objectAvatar`. It is the address, username and id of the last such stored document. Every relation is kept, in order. |
| `Relations.CaseSensitivityDiffers` | src/lib/server/relations.ts:55 | For a checksummed `objectAvatar` whose profile is stored lower-cased, the route finds the profile and the library function does not. |
| `Feed.InsertByDate` | src/lib/server/posts.ts:82 | Inserting into a newest-first list keeps it newest first and adds exactly that post. |
| `Feed.SortNewestFirst` | src/lib/server/posts.ts:82 | Newest first, and a permutation of the posts. |
| `Feed.Page` | src/lib/server/posts.ts:83-84 | Refused iff skip < 0. Otherwise a contiguous window from skip, at most |limit| long (0 = no limit), cut short only by the end. |
| `Feed.PagesTile` | src/lib/server/posts.ts:19-20 | Two consecutive pages of size n make up the page of size 2n. |
| `Feed.GetPublicFeed` | src/lib/server/posts.ts:15-43 | Fails iff the query fails or skip < 0, with no posts and skip and limit echoed. Otherwise newest first, drawn from the posts, within the limit. All posts when skip = limit = 0. The posts are exactly `Page` of the newest-first order: skip is applied, then the limit. |
| `Feed.SliceKeepsOrder` | src/lib/server/posts.ts:18-20 | A window of a newest-first list is newest first and drawn from it. |
| `Feed.AllowedAddresses` | src/lib/server/posts.ts:59-67 | The allowed addresses are exactly the lower-cased `objectAvatar`s of "trusts" and "mutuallyTrusts" relations. |
| `Feed.SelectPosts` | src/lib/server/posts.ts:71-81 | Keeps exactly the posts by or to an allowed address that the viewer did not create. |
| `Feed.LikedIds` | src/lib/server/posts.ts:100-109 | The page's post ids the viewer liked. |
| `Feed.Annotate` | src/lib/server/posts.ts:112-115 | One entry per post, in order. `isLiked` holds iff one of the viewer's interactions is a like of it. |
| `Feed.FeedFor` | src/lib/server/posts.ts:55-124 | Fails, with no posts or relations, iff the post query fails, skip < 0, or the likes query fails. |
| `Feed.PersonalPage` | src/lib/server/posts.ts:71-84 | The page is newest first and within the limit. Every post is stored and selected. It is exactly `Page` of the newest-first sort of the selected posts. |
| `Feed.PersonalizedFeedContents` | src/lib/server/posts.ts:45-125 | On success the relations are returned whole. The posts are the page, in order, each with its `isLiked`. |
| `Feed.GetPersonalizedFeedAsWritten` | src/lib/server/posts.ts:51-79 | A null session, a missing user or a missing address fails on a property read. Any other address, "" included, is served. |
| `Feed.GetPersonalizedFeed` | src/lib/server/posts.ts:51-53 | The intended guard: a null session, a missing user or an empty address fails with the guard's message. |
| `Feed.GuardFixKeepsValidSessions` | src/lib/server/posts.ts:51-53 | For a session with an address, the corrected feed equals the feed as written. |
| `Feed.EmptyAddressPassesGuardAsWritten` | src/lib/server/posts.ts:51 | A session whose address is "" is served a feed as written, while the intended guard rejects it. |
| `Variants.UndatedMessageDivergence` | src/lib/services/AuthService.ts:94-103 | A message without a timestamp is refused by the credentials flow, yet passes `verifySignature`'s age check in both services. |
| `Variants.SessionDataDivergence` | src/lib/auth/AuthService.ts:246-257 | A user without a username gets session data from the key-based service but not from the wallet service. |
| `Variants.GoogleQueriesNested` | src/lib/auth/AuthService.ts:45-77 | Whoever passes the Safe services' complete-profile query passes the key-based one. |
| `Variants.GoogleQueryDivergence` | src/lib/auth/AuthService.ts:45-77 | A profile still holding the defaults "0x" and "" logs in through the key-based Google flow only. |

## Left out

- **Cryptography.** ECDSA recovery, EIP-1271 calls, `ethers.Wallet` and `getAddress` are fields of `Oracles`, not computed.
- **Network.** The Safe transaction service, the Circles RPC, the Gnosis RPC and S3/MinIO are parameters, and so are their timeouts and HTTP details.
- **Concurrency.**
  - No interleaving of concurrent requests is modelled. This leaves out the race between two first logins with the same email, and the replay of a still-fresh challenge.
  - `Promise.all` timing: among failing image uploads, the model reports the first in file order, while the source reports whichever fails first in time.
- **Codec and storage details.**
  - JSON parsing, cookie decoding and base64 are parameters, and so is the zod email format check.
  - Non-string JSON field values are not modelled.
  - `localStorage.setItem` failures are not modelled.
  - Image work (HEIC conversion, sharp re-encoding, EXIF, dimensions) is not modelled. Codec errors are a parameter.
- **Text lengths.** String lengths count characters, where JavaScript counts UTF-16 code units. `toLowerCase` is ASCII-only.
- **Lexical nodes.**
  - A text node without string `text` is not modelled.
  - A paragraph whose `children` is missing is treated as another node, as both walks do.
  - A missing root or missing root children, where `truncateLexicalJson` throws, is `None`.
- **Feed sorting.** Ties in `createdAt` keep stored order, which MongoDB does not promise.
- **Negative limits.** A negative `limit` returns |limit| posts. The single-batch cap MongoDB applies is left out.
- **Post fields.** `creatorAddress` and `postedToAddress` are read as stored post fields, although the Post schema in src/lib/models/Post.ts does not declare them.
- **Likes without a profile id.** A viewer without a profile id is matched against interactions with no user id.
- **Profile ids.** An id is the document's position rendered in decimal. ObjectId generation is not modelled.
- **Relation map keys.** An `objectAvatar` equal to an inherited property name of a plain object (such as `toString`) is not modelled.
- **Logging.** `console` logging and the `populate` projections are left out.
- **Session decoding.** `SessionManager.GetSession` takes the decoder as a parameter. Signature checking of the cookie is outside the source too.

## Findings

| source | as written | input that shows it | evidently intended | confidence | as-written member | corrected member |
|---|---|---|---|---|---|---|
| src/routes/api/auth/google-safe-complete/+server.ts:3 | The handler imports `authService` from `$lib/auth/AuthService` and calls `getSafeUserInfo` and `authenticateWithCredentials`. That service has neither method, so the call throws and every complete request gets 500. | One profile with email "e", Safe "0xSafe" and a key; a wallet "0xOwner" listed as owning "0xSafe"; a valid Safe signature over a challenge issued at time 5, submitted at time 5. | Use the wallet service of src/lib/services/AuthService.ts, which has both methods: 200 with the user. | high; not executed | `GoogleSafeComplete.PostAsWritten` (shown by `GoogleSafeComplete.GoogleSafeCompleteCounterexample`) | `GoogleSafeComplete.Post` |
| src/lib/server/posts.ts:51 | The guard `!session && !session.user && !session.user.safeAddress` joins its tests with `&&`. For a non-null session it never fires, and for a null one it throws a TypeError instead of its own error. | A session whose user has safeAddress "" is served a feed, with no error. | Join the tests with `\|\|`: a missing session, user or address is rejected with "getPersonalizedFeed \| Invalid session or user data". | medium; not executed | `Feed.GetPersonalizedFeedAsWritten` (shown by `Feed.EmptyAddressPassesGuardAsWritten`) | `Feed.GetPersonalizedFeed` |
