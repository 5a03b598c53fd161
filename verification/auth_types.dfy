/** The records the authentication services exchange, the 24-hour session rule and the
    signature check that `verifySignature` performs in both the wallet service and the
    key-based service. */
module AuthTypes {
  import opened Common
  import opened Profiles
  import opened Chain
  import opened Challenge

  /** The user of an `AuthResult`, covering the fields of all three services' shapes
      (`controllingEOA`, `email` and `privateKey` are set by some services only). */
  datatype AuthUser = AuthUser(
    safeAddress: string,
    username: Option<string>,
    profileId: string,
    name: string,
    controllingEOA: Option<string>,
    email: Option<string>,
    privateKey: Option<string>)

  datatype AuthResult = Success(user: AuthUser) | Failure(error: string)

  const AuthenticationFailed := "Authentication failed"
  const NoSafeForGoogle := "No Safe address found for this Google account. Please complete registration first."
  const InvalidSafeSignature := "Invalid signature or Safe ownership"
  const NoProfileForSafe := "No profile found for this Safe address"

  /** Session data as decoded from a cookie or created by `createSessionData`. A field that
      is missing is represented by its falsy value ("" or 0). */
  datatype SessionData = SessionData(
    safeAddress: string,
    profileId: string,
    username: Option<string>,
    signedAt: int)

  /** The fields `validateSession` requires to be truthy. */
  predicate FieldsPresent(s: SessionData) {
    s.safeAddress != "" && s.profileId != "" && s.signedAt != 0
  }

  /** 24 hours, in milliseconds. */
  const SessionLifetimeMs: int := 24 * 60 * 60 * 1000

  /** `validateSession` (identical in both services): the data must be present, its
      safeAddress and profileId non-empty and signedAt non-zero, and it must be at most
      24 hours old. */
  function ValidateSession(data: Option<SessionData>, now: int): (ok: bool)
    ensures ok <==> (data.Some? && FieldsPresent(data.value)
      && now - data.value.signedAt <= SessionLifetimeMs)
  {
    match data
    case None => false
    case Some(s) =>
      if s.safeAddress == "" || s.profileId == "" || s.signedAt == 0 then false
      else now - s.signedAt <= SessionLifetimeMs
  }

  /** The expiry boundary is inclusive: a session exactly 24 hours old is still valid and
      one a millisecond older is not. */
  lemma SessionExpiryBoundary(s: SessionData)
    requires s.safeAddress != "" && s.profileId != "" && s.signedAt != 0
    ensures ValidateSession(Some(s), s.signedAt + SessionLifetimeMs)
    ensures !ValidateSession(Some(s), s.signedAt + SessionLifetimeMs + 1)
  {
  }

  /** Validity only decays: a session rejected as expired stays rejected later on. */
  lemma SessionExpiryMonotone(data: Option<SessionData>, now: int, later: int)
    requires now <= later && ValidateSession(data, later)
    ensures ValidateSession(data, now)
  {
  }

  /** A session stamped at time 0 is never valid, since `!signedAt` holds for it. */
  lemma SessionAtEpochRejected(s: SessionData, now: int)
    requires s.signedAt == 0
    ensures !ValidateSession(Some(s), now)
  {
  }

  /** The five-minute rule `verifySignature` applies: only when the message carries a
      timestamp, and then only against messages older than five minutes. */
  predicate MessageExpired(message: string, now: int) {
    ExtractTimestamp(message).Some? && now - ExtractTimestamp(message).value > MaxMessageAgeMs
  }

  /** The outcome of `verifySignature`'s checks: the position of the profile, or the error
      of the first check that fails. */
  function SignatureCheck(docs: seq<Profile>, o: Oracles, safe: string, signature: string,
                          message: string, now: int): (r: Result<nat>)
    ensures r.Ok? ==> FindFirst(docs, SafeIs(safe)) == Some(r.value)
    ensures FindFirst(docs, SafeIs(safe)).None? ==> r == Err("Profile not found for this Safe address")
    ensures r.Ok? ==> (o.recover(message, signature).Some?
      && docs[r.value].privateKey.Some? && o.ownerOf(docs[r.value].privateKey.value).Some?
      && Lower(o.recover(message, signature).value)
         == Lower(o.ownerOf(docs[r.value].privateKey.value).value)
      && !MessageExpired(message, now))
  {
    match FindFirst(docs, SafeIs(safe))
    case None => Err("Profile not found for this Safe address")
    case Some(i) =>
      match o.recover(message, signature)
      case None => Err("Invalid signature")
      case Some(recovered) =>
        // `new ethers.Wallet(profile.privateKey)` throws on a null or malformed key.
        if docs[i].privateKey.None? || o.ownerOf(docs[i].privateKey.value).None? then
          Err(AuthenticationFailed)
        else if Lower(recovered) != Lower(o.ownerOf(docs[i].privateKey.value).value) then
          Err("Signature does not match Safe owner")
        else if MessageExpired(message, now) then Err("Authentication message expired")
        else Ok(i)
  }

  /** The profile lookup comes before any signature work: an unknown Safe is reported as
      such whatever the signature and message are. */
  lemma SignatureCheckProfileFirst(docs: seq<Profile>, o: Oracles, safe: string,
                                   signature: string, message: string, now: int)
    requires FindFirst(docs, SafeIs(safe)).None?
    ensures SignatureCheck(docs, o, safe, signature, message, now)
        == Err("Profile not found for this Safe address")
  {
  }

  /** The recovered signer is compared up to case: a recovery oracle that spells the
      signer in another case gives the same outcome. */
  lemma SignatureCheckCaseless(docs: seq<Profile>, o: Oracles, o': Oracles, safe: string,
                               signature: string, message: string, now: int)
    requires o'.ownerOf == o.ownerOf
    requires o.recover(message, signature).Some? <==> o'.recover(message, signature).Some?
    requires o.recover(message, signature).Some? ==>
      Lower(o.recover(message, signature).value) == Lower(o'.recover(message, signature).value)
    ensures SignatureCheck(docs, o, safe, signature, message, now)
        == SignatureCheck(docs, o', safe, signature, message, now)
  {
  }

  /** Once profile and signer check out, the age check decides: a message without any
      timestamp passes, one with a timestamp passes iff it is at most five minutes old. */
  lemma SignatureCheckTimestamp(docs: seq<Profile>, o: Oracles, safe: string,
                                signature: string, message: string, now: int)
    requires FindFirst(docs, SafeIs(safe)).Some?
    requires o.recover(message, signature).Some?
    requires docs[FindFirst(docs, SafeIs(safe)).value].privateKey.Some?
    requires o.ownerOf(docs[FindFirst(docs, SafeIs(safe)).value].privateKey.value)
      == o.recover(message, signature)
    ensures ExtractTimestamp(message).None? ==> SignatureCheck(docs, o, safe, signature, message, now).Ok?
    ensures ExtractTimestamp(message).Some? ==>
      (SignatureCheck(docs, o, safe, signature, message, now).Ok? <==>
        now - ExtractTimestamp(message).value <= MaxMessageAgeMs)
    ensures ExtractTimestamp(message).Some? && now - ExtractTimestamp(message).value > MaxMessageAgeMs
      ==> SignatureCheck(docs, o, safe, signature, message, now) == Err("Authentication message expired")
  {
  }
}
