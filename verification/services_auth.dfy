/** The wallet authentication service `Auth` (src/lib/services/AuthService.ts): Safe
    ownership through the Safe API, Safe (EIP-1271) signatures, the Google lookups, the
    credentials check chain and session data that requires a username. */
module Auth {
  import opened Common
  import opened Profiles
  import opened Chain
  import opened Challenge
  import opened AuthTypes

  datatype AuthChallenge = AuthChallenge(nonce: string, message: string, timestamp: nat)

  const DomainLine := "\nDomain: mycircles.app"

  /** `generateChallenge`, with the random nonce and the clock as parameters. */
  function GenerateChallenge(nonce: string, now: nat): (c: AuthChallenge)
    ensures c.nonce == nonce && c.timestamp == now
    ensures c.message == Render(nonce, now, DomainLine)
  {
    AuthChallenge(nonce, Render(nonce, now, DomainLine), now)
  }

  /** A challenge issued at time t validates exactly while it is at most five minutes old
      (the nonce being a UUID, it never contains the timestamp tag). */
  lemma ChallengeRoundTrip(nonce: string, t: nat, now: int)
    requires TagFree(nonce)
    ensures ExtractTimestamp(GenerateChallenge(nonce, t).message) == Some(t)
    ensures ValidateMessageTimestamp(GenerateChallenge(nonce, t).message, now) <==> now - t <= MaxMessageAgeMs
  {
    RenderExtractRoundTrip(nonce, t, DomainLine);
  }

  /** `verifySafeOwnership`: the Safe, up to case, is among the Safes the API lists for the
      owner; a failing lookup (which throws here) gives false. */
  function VerifySafeOwnership(o: Oracles, safe: string, owner: string): (ok: bool)
    ensures ok <==> (SafesForOwnerOrThrow(o, owner).Ok?
      && exists i :: (0 <= i < |SafesForOwnerOrThrow(o, owner).value|
        && Lower(SafesForOwnerOrThrow(o, owner).value[i]) == Lower(safe)))
  {
    match SafesForOwnerOrThrow(o, owner)
    case Err(_) => false
    case Ok(safes) => IncludesCaselessMeans(safes, safe); IncludesCaseless(safes, safe)
  }

  /** Re-casing the Safe, or re-casing the owner to another spelling `getAddress` accepts,
      leaves the ownership verdict unchanged. */
  lemma VerifySafeOwnershipRecase(o: Oracles, safe: string, safe': string, owner: string, owner': string)
    requires CaseInsensitiveChecksum(o)
    requires Lower(safe) == Lower(safe') && Lower(owner) == Lower(owner')
    requires o.checksum(owner).Some? && o.checksum(owner').Some?
    ensures VerifySafeOwnership(o, safe, owner) == VerifySafeOwnership(o, safe', owner')
  {
    SafesForOwnerRecase(o, owner, owner');
    var r := SafesForOwnerOrThrow(o, owner);
    if r.Ok? {
      IncludesCaselessRecase(r.value, r.value, safe, safe');
      IncludesCaselessMeans(r.value, safe);
      IncludesCaselessMeans(r.value, safe');
    }
  }

  /** What `getSafeUserInfo` returns: the Safe and key of the profile and its position. */
  datatype SafeUserInfo = SafeUserInfo(safeAddress: string, privateKey: Option<string>, profile: nat)

  /** `getSafeUserInfo`: the first profile with this email whose safeAddress is neither
      null nor "0x". */
  function GetSafeUserInfo(docs: seq<Profile>, email: string): (r: Option<SafeUserInfo>)
    ensures r.None? <==> forall j :: 0 <= j < |docs| ==> !Matches(docs[j], SafeUserOf(email))
    ensures r.Some? ==> (r.value.profile < |docs| && docs[r.value.profile].email == Some(email)
      && docs[r.value.profile].safeAddress == Some(r.value.safeAddress)
      && r.value.safeAddress != DefaultSafeAddress
      && r.value.privateKey == docs[r.value.profile].privateKey)
  {
    match FindFirst(docs, SafeUserOf(email))
    case None => None
    case Some(i) => Some(SafeUserInfo(docs[i].safeAddress.value, docs[i].privateKey, i))
  }

  /** `authenticateWithGoogle`: the first profile with this email, a Safe other than "0x"
      and a non-empty key; the controlling EOA is the key's address. */
  function AuthenticateWithGoogle(docs: seq<Profile>, o: Oracles, email: string): (r: AuthResult)
    ensures FindFirst(docs, CompleteSafeUserOf(Some(email))).None? ==> r == Failure(NoSafeForGoogle)
    ensures FindFirst(docs, CompleteSafeUserOf(Some(email))).Some? ==>
      (var p := docs[FindFirst(docs, CompleteSafeUserOf(Some(email))).value];
       (r.Success? <==> o.ownerOf(p.privateKey.value).Some?)
       && (o.ownerOf(p.privateKey.value).None? ==> r == Failure(AuthenticationFailed)))
    ensures r.Success? ==> (FindFirst(docs, CompleteSafeUserOf(Some(email))).Some?
      && var p := docs[FindFirst(docs, CompleteSafeUserOf(Some(email))).value];
      r.user == AuthUser(p.safeAddress.value, p.username,
        IdText(FindFirst(docs, CompleteSafeUserOf(Some(email))).value), p.name,
        o.ownerOf(p.privateKey.value), Some(email), None)
      && p.safeAddress.value != DefaultSafeAddress && p.privateKey.value != "")
  {
    match FindFirst(docs, CompleteSafeUserOf(Some(email)))
    case None => Failure(NoSafeForGoogle)
    case Some(i) =>
      var p := docs[i];
      match o.ownerOf(p.privateKey.value)
      case None => Failure(AuthenticationFailed)
      case Some(owner) =>
        Success(AuthUser(p.safeAddress.value, p.username, IdText(i), p.name, Some(owner), Some(email), None))
  }

  const StaleMessage := "Message timestamp is too old or invalid"
  const NotOwner := "Wallet does not control this Safe"

  /** `authenticateWithCredentials`: the timestamp, the Safe signature, the ownership and
      the profile are checked in this order, and the first failing check names the error. */
  function AuthenticateWithCredentials(docs: seq<Profile>, o: Oracles, message: string,
                                       signature: string, walletOwner: string, safe: string,
                                       now: int): (r: AuthResult)
    ensures !ValidateMessageTimestamp(message, now) ==> r == Failure(StaleMessage)
    ensures ValidateMessageTimestamp(message, now) && !o.safeSigValid(safe, signature, message)
      ==> r == Failure(InvalidSafeSignature)
    ensures (ValidateMessageTimestamp(message, now) && o.safeSigValid(safe, signature, message)
      && !VerifySafeOwnership(o, safe, walletOwner)) ==> r == Failure(NotOwner)
    ensures (ValidateMessageTimestamp(message, now) && o.safeSigValid(safe, signature, message)
      && VerifySafeOwnership(o, safe, walletOwner) && FindFirst(docs, SafeIs(safe)).None?)
      ==> r == Failure(NoProfileForSafe)
    ensures r.Success? <==> (ValidateMessageTimestamp(message, now)
      && o.safeSigValid(safe, signature, message) && VerifySafeOwnership(o, safe, walletOwner)
      && FindFirst(docs, SafeIs(safe)).Some?)
    ensures r.Success? ==> (var i := FindFirst(docs, SafeIs(safe)).value;
      r.user == AuthUser(safe, docs[i].username, IdText(i), docs[i].name, Some(walletOwner),
        if Truthy(docs[i].email) then docs[i].email else None, None))
  {
    if !ValidateMessageTimestamp(message, now) then Failure(StaleMessage)
    else if !o.safeSigValid(safe, signature, message) then Failure(InvalidSafeSignature)
    else if !VerifySafeOwnership(o, safe, walletOwner) then Failure(NotOwner)
    else
      match FindFirst(docs, SafeIs(safe))
      case None => Failure(NoProfileForSafe)
      case Some(i) =>
        Success(AuthUser(safe, docs[i].username, IdText(i), docs[i].name, Some(walletOwner),
          if Truthy(docs[i].email) then docs[i].email else None, None))
  }

  /** A message without a timestamp is refused by the credentials flow, whatever else it
      carries. */
  lemma CredentialsRejectUndatedMessage(docs: seq<Profile>, o: Oracles, message: string,
                                        signature: string, walletOwner: string, safe: string, now: int)
    requires forall q :: !MatchAt(message, q)
    ensures AuthenticateWithCredentials(docs, o, message, signature, walletOwner, safe, now)
        == Failure(StaleMessage)
  {
  }

  /** `verifySignature`: the shared check, and on success the profile's Safe, username,
      id and name. */
  function VerifySignature(docs: seq<Profile>, o: Oracles, safe: string, signature: string,
                           message: string, now: int): (r: AuthResult)
    ensures r.Failure? <==> SignatureCheck(docs, o, safe, signature, message, now).Err?
    ensures r.Failure? ==> r.error == SignatureCheck(docs, o, safe, signature, message, now).error
    ensures r.Success? ==> (var i := SignatureCheck(docs, o, safe, signature, message, now).value;
      r.user == AuthUser(safe, docs[i].username, IdText(i), docs[i].name, None, None, None))
  {
    match SignatureCheck(docs, o, safe, signature, message, now)
    case Err(e) => Failure(e)
    case Ok(i) => Success(AuthUser(docs[i].safeAddress.value, docs[i].username, IdText(i), docs[i].name, None, None, None))
  }

  const NoUsernameSession := "Cannot create session data without user or username"

  /** `createSessionData`: refused without a user or without a (non-empty) username;
      otherwise the user's Safe, id and username, stamped with the current time. */
  function CreateSessionData(user: Option<AuthUser>, now: int): (r: Result<SessionData>)
    ensures r.Err? <==> user.None? || !Truthy(user.value.username)
    ensures r.Ok? ==> r.value == SessionData(user.value.safeAddress, user.value.profileId, user.value.username, now)
  {
    if user.None? || !Truthy(user.value.username) then Err(NoUsernameSession)
    else Ok(SessionData(user.value.safeAddress, user.value.profileId, user.value.username, now))
  }

  /** A session created for a user with a Safe, at any time but the epoch, is accepted by
      `validateSession` for exactly 24 hours. */
  lemma CreatedSessionLifetime(user: AuthUser, t: int, now: int)
    requires Truthy(user.username) && user.safeAddress != "" && user.profileId != "" && t != 0
    ensures CreateSessionData(Some(user), t).Ok?
    ensures ValidateSession(Some(CreateSessionData(Some(user), t).value), now) <==> now - t <= SessionLifetimeMs
  {
  }

  /** Every successful credentials login yields a user `createSessionData` accepts iff the
      profile has a username, and whose session is then valid for 24 hours. */
  lemma CredentialsLoginSession(docs: seq<Profile>, o: Oracles, message: string, signature: string,
                                walletOwner: string, safe: string, now: int, t: int)
    requires AuthenticateWithCredentials(docs, o, message, signature, walletOwner, safe, now).Success?
    requires safe != "" && t != 0
    ensures var u := AuthenticateWithCredentials(docs, o, message, signature, walletOwner, safe, now).user;
      CreateSessionData(Some(u), t).Ok? <==> Truthy(u.username)
    ensures var u := AuthenticateWithCredentials(docs, o, message, signature, walletOwner, safe, now).user;
      Truthy(u.username) ==> ValidateSession(Some(CreateSessionData(Some(u), t).value), t + SessionLifetimeMs)
  {
  }
}
