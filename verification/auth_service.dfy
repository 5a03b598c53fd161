/** The key-based authentication service `AuthService` (src/lib/auth/AuthService.ts): it
    never writes to the collection; a login succeeds only for a profile that already holds
    exactly the given key. */
module AuthService {
  import opened Common
  import opened Profiles
  import opened Chain
  import opened Challenge
  import opened AuthTypes

  datatype KeyChallenge = KeyChallenge(nonce: string, message: string, timestamp: nat)

  /** `generateChallenge`: no Domain line, the message ends with the timestamp. */
  function GenerateChallenge(nonce: string, now: nat): (c: KeyChallenge)
    ensures c.nonce == nonce && c.timestamp == now
    ensures c.message == Render(nonce, now, "")
  {
    KeyChallenge(nonce, Render(nonce, now, ""), now)
  }

  /** The greedy digit match stops at the end of the message, so it recovers exactly t. */
  lemma ChallengeRoundTrip(nonce: string, t: nat, now: int)
    requires TagFree(nonce)
    ensures ExtractTimestamp(GenerateChallenge(nonce, t).message) == Some(t)
    ensures !MessageExpired(GenerateChallenge(nonce, t).message, now) <==> now - t <= MaxMessageAgeMs
  {
    RenderExtractRoundTrip(nonce, t, "");
  }

  /** `authenticateWithGoogle`: the first profile with this email whose safeAddress and
      privateKey are present and not null; "0x" and "" are accepted. */
  function AuthenticateWithGoogle(docs: seq<Profile>, email: string): (r: AuthResult)
    ensures r.Success? <==> exists j :: 0 <= j < |docs| && Matches(docs[j], LinkedSafeUserOf(email))
    ensures r.Failure? ==> r.error == NoSafeForGoogle
    ensures r.Success? ==> (var i := FindFirst(docs, LinkedSafeUserOf(email)).value;
      r.user == AuthUser(docs[i].safeAddress.value, docs[i].username, IdText(i), docs[i].name,
        None, None, docs[i].privateKey))
  {
    match FindFirst(docs, LinkedSafeUserOf(email))
    case None => Failure(NoSafeForGoogle)
    case Some(i) =>
      Success(AuthUser(docs[i].safeAddress.value, docs[i].username, IdText(i), docs[i].name,
        None, None, docs[i].privateKey))
  }

  /** `getSafeAddressesForPrivateKey`: the Safes listed for the key's address; a rejected
      key, a rejected address or a failed lookup all give []. */
  function SafeAddressesForPrivateKey(o: Oracles, key: string): (r: seq<string>)
    ensures o.ownerOf(key).None? ==> r == []
    ensures o.ownerOf(key).Some? ==> r == SafesForOwner(o, o.ownerOf(key).value)
  {
    match o.ownerOf(key)
    case None => []
    case Some(owner) => SafesForOwner(o, owner)
  }

  /** `verifyPrivateKeyControlsSafe`: the Safe, up to case, is among those listed for the
      key's address. */
  function VerifyPrivateKeyControlsSafe(o: Oracles, key: string, safe: string): (ok: bool)
    ensures ok <==> exists i :: (0 <= i < |SafeAddressesForPrivateKey(o, key)|
      && Lower(SafeAddressesForPrivateKey(o, key)[i]) == Lower(safe))
  {
    IncludesCaselessMeans(SafeAddressesForPrivateKey(o, key), safe);
    IncludesCaseless(SafeAddressesForPrivateKey(o, key), safe)
  }

  /** A failed registry lookup means the key controls nothing. */
  lemma RegistryFailureControlsNothing(o: Oracles, key: string, safe: string)
    requires o.ownerOf(key).Some? && SafesForOwnerOrThrow(o, o.ownerOf(key).value).Err?
    ensures !VerifyPrivateKeyControlsSafe(o, key, safe)
  {
  }

  const ControlError := "Private key does not control the selected Safe address"
  const KeyMismatch := "Private key does not match stored key for this Safe"

  /** `authenticateWithPrivateKey`: key format, then control of the Safe, then a profile
      with exactly this Safe, then the stored key; the first failing check names the
      error. The collection is only read. */
  function AuthenticateWithPrivateKey(docs: seq<Profile>, o: Oracles, key: string, safe: string): (r: AuthResult)
    ensures !KeyFormatValid(key) ==> r == Failure("Invalid private key format")
    ensures KeyFormatValid(key) && o.ownerOf(key).None? ==> r == Failure(AuthenticationFailed)
    ensures KeyFormatValid(key) && o.ownerOf(key).Some? && !VerifyPrivateKeyControlsSafe(o, key, safe)
      ==> r == Failure(ControlError)
    ensures (KeyFormatValid(key) && o.ownerOf(key).Some? && VerifyPrivateKeyControlsSafe(o, key, safe)
      && FindFirst(docs, SafeIs(safe)).None?) ==> r == Failure(NoProfileForSafe)
    ensures (KeyFormatValid(key) && o.ownerOf(key).Some? && VerifyPrivateKeyControlsSafe(o, key, safe)
      && FindFirst(docs, SafeIs(safe)).Some?
      && docs[FindFirst(docs, SafeIs(safe)).value].privateKey != Some(key)) ==> r == Failure(KeyMismatch)
    ensures r.Success? <==> (KeyFormatValid(key) && o.ownerOf(key).Some?
      && VerifyPrivateKeyControlsSafe(o, key, safe) && FindFirst(docs, SafeIs(safe)).Some?
      && docs[FindFirst(docs, SafeIs(safe)).value].privateKey == Some(key))
    ensures r.Success? ==> (var i := FindFirst(docs, SafeIs(safe)).value;
      r.user == AuthUser(safe, docs[i].username, IdText(i), docs[i].name, None, None, Some(key)))
  {
    if !KeyFormatValid(key) then Failure("Invalid private key format")
    else if o.ownerOf(key).None? then Failure(AuthenticationFailed)
    else if !VerifyPrivateKeyControlsSafe(o, key, safe) then Failure(ControlError)
    else
      match FindFirst(docs, SafeIs(safe))
      case None => Failure(NoProfileForSafe)
      case Some(i) =>
        if docs[i].privateKey != Some(key) then Failure(KeyMismatch)
        else Success(AuthUser(docs[i].safeAddress.value, docs[i].username, IdText(i), docs[i].name,
          None, None, docs[i].privateKey))
  }

  /** `verifySignature`: the shared check; on success the user also carries the stored key. */
  function VerifySignature(docs: seq<Profile>, o: Oracles, safe: string, signature: string,
                           message: string, now: int): (r: AuthResult)
    ensures r.Failure? <==> SignatureCheck(docs, o, safe, signature, message, now).Err?
    ensures r.Failure? ==> r.error == SignatureCheck(docs, o, safe, signature, message, now).error
    ensures r.Success? ==> (var i := SignatureCheck(docs, o, safe, signature, message, now).value;
      r.user == AuthUser(safe, docs[i].username, IdText(i), docs[i].name, None, None, docs[i].privateKey))
  {
    match SignatureCheck(docs, o, safe, signature, message, now)
    case Err(e) => Failure(e)
    case Ok(i) => Success(AuthUser(docs[i].safeAddress.value, docs[i].username, IdText(i), docs[i].name,
      None, None, docs[i].privateKey))
  }

  /** `createSessionData`: refused only without a user; the username is copied as it is. */
  function CreateSessionData(user: Option<AuthUser>, now: int): (r: Result<SessionData>)
    ensures r.Err? <==> user.None?
    ensures r.Ok? ==> r.value == SessionData(user.value.safeAddress, user.value.profileId, user.value.username, now)
  {
    match user
    case None => Err("Cannot create session data without user")
    case Some(u) => Ok(SessionData(u.safeAddress, u.profileId, u.username, now))
  }

  /** Every successful key login yields a session that stays valid for exactly 24 hours,
      with or without a username. */
  lemma KeyLoginSessionLifetime(docs: seq<Profile>, o: Oracles, key: string, safe: string, t: int, now: int)
    requires AuthenticateWithPrivateKey(docs, o, key, safe).Success?
    requires safe != "" && t != 0
    ensures var u := AuthenticateWithPrivateKey(docs, o, key, safe).user;
      CreateSessionData(Some(u), t).Ok?
      && (ValidateSession(Some(CreateSessionData(Some(u), t).value), now) <==> now - t <= SessionLifetimeMs)
  {
  }
}
