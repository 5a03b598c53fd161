/** The Safe authentication service (src/lib/auth/SafeAuthService.ts): Safe discovery for a
    key, Safe (EIP-1271) signatures, the find-or-create private-key login and the Google
    login of a complete Safe profile. */
module SafeAuthService {
  import opened Common
  import opened Profiles
  import opened Chain
  import opened Challenge
  import opened AuthTypes

  datatype SafeAuthChallenge = SafeAuthChallenge(nonce: string, message: string, timestamp: nat)

  const DefaultOrigin := "localhost:5173"

  /** The origin named in the challenge: `env.ORIGIN || 'localhost:5173'`. */
  function Domain(origin: Option<string>): (d: string)
    ensures Truthy(origin) ==> d == origin.value
    ensures !Truthy(origin) ==> d == DefaultOrigin
  {
    if Truthy(origin) then origin.value else DefaultOrigin
  }

  /** `generateChallenge`, with the nonce, the clock and the ORIGIN setting as parameters. */
  function GenerateChallenge(nonce: string, now: nat, origin: Option<string>): (c: SafeAuthChallenge)
    ensures c.nonce == nonce && c.timestamp == now
    ensures c.message == Render(nonce, now, "\nDomain: " + Domain(origin))
  {
    SafeAuthChallenge(nonce, Render(nonce, now, "\nDomain: " + Domain(origin)), now)
  }

  /** The timestamp of a challenge issued at t is recovered, so it validates exactly while
      it is at most five minutes old, whatever the origin. */
  lemma ChallengeRoundTrip(nonce: string, t: nat, origin: Option<string>, now: int)
    requires TagFree(nonce)
    ensures ExtractTimestamp(GenerateChallenge(nonce, t, origin).message) == Some(t)
    ensures ValidateMessageTimestamp(GenerateChallenge(nonce, t, origin).message, now)
        <==> now - t <= MaxMessageAgeMs
  {
    RenderExtractRoundTrip(nonce, t, "\nDomain: " + Domain(origin));
  }

  datatype SafeOwnerInfo = SafeOwnerInfo(ownerAddress: string, controlledSafes: seq<string>)

  const InvalidKeyFormat := "Invalid private key format"

  /** `getSafeAddressesForPrivateKey`: a malformed key throws before anything else; a
      well-formed key yields its address and the Safes listed for it, where a failed
      lookup lists none. */
  function SafeAddressesForPrivateKey(o: Oracles, key: string): (r: Result<SafeOwnerInfo>)
    ensures !KeyFormatValid(key) ==> r == Err(InvalidKeyFormat)
    ensures r.Ok? <==> KeyFormatValid(key) && o.ownerOf(key).Some?
    ensures r.Ok? ==> r.value == SafeOwnerInfo(o.ownerOf(key).value, SafesForOwner(o, o.ownerOf(key).value))
  {
    if !KeyFormatValid(key) then Err(InvalidKeyFormat)
    else
      match o.ownerOf(key)
      case None => Err("invalid private key")
      case Some(owner) => Ok(SafeOwnerInfo(owner, SafesForOwner(o, owner)))
  }

  /** A key whose owner lookup fails looks exactly like a key that owns no Safe. */
  lemma LookupFailureLooksLikeNoSafes(o: Oracles, key: string)
    requires KeyFormatValid(key) && o.ownerOf(key).Some?
    requires SafesForOwnerOrThrow(o, o.ownerOf(key).value).Err?
    ensures SafeAddressesForPrivateKey(o, key) == Ok(SafeOwnerInfo(o.ownerOf(key).value, []))
  {
  }

  /** `verifySafeOwnership`: the Safe, up to case, is among the Safes listed for the owner. */
  function VerifySafeOwnership(o: Oracles, safe: string, owner: string): (ok: bool)
    ensures ok <==> exists i :: 0 <= i < |SafesForOwner(o, owner)| && Lower(SafesForOwner(o, owner)[i]) == Lower(safe)
  {
    IncludesCaselessMeans(SafesForOwner(o, owner), safe);
    IncludesCaseless(SafesForOwner(o, owner), safe)
  }

  /** The prefix `s.slice(0, n)`. */
  function Slice(s: string, n: nat): (r: string)
    ensures |r| == if |s| < n then |s| else n
    ensures StartsWith(s, r)
  {
    if |s| <= n then s else s[..n]
  }

  /** The profile created for a Safe seen for the first time. */
  function NewSafeProfile(safe: string, key: string): (p: Profile)
    ensures p.safeAddress == Some(safe) && p.privateKey == Some(key)
    ensures p.email == Some(safe + "@safe.local") && p.name == "Safe User " + Slice(safe, 8)
    ensures p.username.None?
  {
    NewProfile(NewFields(Some("Safe User " + Slice(safe, 8)), None, Some(safe + "@safe.local"), Some(safe), Some(key)))
  }

  /** The user reported for the profile at position i. */
  function KeyLoginUser(docs: seq<Profile>, i: nat, safe: string, owner: string): AuthUser
    requires i < |docs|
  {
    AuthUser(safe, docs[i].username, IdText(i), docs[i].name, Some(owner), docs[i].email, None)
  }

  /** `authenticateWithPrivateKey` as a function of the collection: the new collection and
      the result. The key's address is needed first, then the Safe signature is checked;
      afterwards the profile with exactly this Safe is found or created and its key
      brought up to date. A failed write is reported as "Authentication failed". */
  function PrivateKeyLogin(docs: seq<Profile>, o: Oracles, key: string, safe: string,
                           signature: string, message: string): (seq<Profile>, AuthResult)
  {
    match o.ownerOf(key)
    case None => (docs, Failure(AuthenticationFailed))
    case Some(owner) =>
      if !o.safeSigValid(safe, signature, message) then (docs, Failure(InvalidSafeSignature))
      else
        match FindFirst(docs, SafeIs(safe))
        case None =>
          (match Insert(docs, NewSafeProfile(safe, key))
           case Err(_) => (docs, Failure(AuthenticationFailed))
           case Ok(docs') => (docs', Success(KeyLoginUser(docs', |docs|, safe, owner))))
        case Some(i) =>
          if docs[i].privateKey == Some(key) then (docs, Success(KeyLoginUser(docs, i, safe, owner)))
          else
            match Save(docs, i, docs[i].(privateKey := Some(key)))
            case Err(_) => (docs, Failure(AuthenticationFailed))
            case Ok(docs') => (docs', Success(KeyLoginUser(docs', i, safe, owner)))
  }

  /** A rejected Safe signature reports "Invalid signature or Safe ownership" and leaves
      the collection as it was. */
  lemma PrivateKeyRejectionChangesNothing(docs: seq<Profile>, o: Oracles, key: string, safe: string,
                                          signature: string, message: string)
    requires o.ownerOf(key).Some? && !o.safeSigValid(safe, signature, message)
    ensures PrivateKeyLogin(docs, o, key, safe, signature, message) == (docs, Failure(InvalidSafeSignature))
  {
  }

  /** Every failure, whatever its cause, leaves the collection as it was. */
  lemma PrivateKeyFailureChangesNothing(docs: seq<Profile>, o: Oracles, key: string, safe: string,
                                        signature: string, message: string)
    requires PrivateKeyLogin(docs, o, key, safe, signature, message).1.Failure?
    ensures PrivateKeyLogin(docs, o, key, safe, signature, message).0 == docs
  {
  }

  /** For a Safe no profile has, a success appends exactly one profile holding the key,
      the placeholder email and the "Safe User" name, and reports its id. */
  lemma PrivateKeyCreatesProfile(docs: seq<Profile>, o: Oracles, key: string, safe: string,
                                 signature: string, message: string)
    requires FindFirst(docs, SafeIs(safe)).None?
    requires PrivateKeyLogin(docs, o, key, safe, signature, message).1.Success?
    ensures PrivateKeyLogin(docs, o, key, safe, signature, message).0 == docs + [NewSafeProfile(safe, key)]
    ensures PrivateKeyLogin(docs, o, key, safe, signature, message).1.user.profileId == IdText(|docs|)
    ensures PrivateKeyLogin(docs, o, key, safe, signature, message).1.user.email == Some(safe + "@safe.local")
  {
  }

  /** For a Safe with a profile, only that profile's key changes, and only when it differs;
      the reported id is the profile's own. */
  lemma PrivateKeyUpdatesOnlyKey(docs: seq<Profile>, o: Oracles, key: string, safe: string,
                                 signature: string, message: string)
    requires FindFirst(docs, SafeIs(safe)).Some?
    requires PrivateKeyLogin(docs, o, key, safe, signature, message).1.Success?
    ensures var i := FindFirst(docs, SafeIs(safe)).value;
      PrivateKeyLogin(docs, o, key, safe, signature, message).0 == docs[i := docs[i].(privateKey := Some(key))]
    ensures var i := FindFirst(docs, SafeIs(safe)).value;
      docs[i].privateKey == Some(key) ==> PrivateKeyLogin(docs, o, key, safe, signature, message).0 == docs
    ensures PrivateKeyLogin(docs, o, key, safe, signature, message).1.user.profileId
        == IdText(FindFirst(docs, SafeIs(safe)).value)
  {
    var i := FindFirst(docs, SafeIs(safe)).value;
    if docs[i].privateKey == Some(key) {
      assert docs[i := docs[i].(privateKey := Some(key))] == docs;
    }
  }

  /** After a successful login the Safe's first profile holds the key. */
  lemma PrivateKeyStoresKey(docs: seq<Profile>, o: Oracles, key: string, safe: string,
                            signature: string, message: string)
    requires PrivateKeyLogin(docs, o, key, safe, signature, message).1.Success?
    ensures var docs' := PrivateKeyLogin(docs, o, key, safe, signature, message).0;
      FindFirst(docs', SafeIs(safe)).Some? && docs'[FindFirst(docs', SafeIs(safe)).value].privateKey == Some(key)
    ensures var docs' := PrivateKeyLogin(docs, o, key, safe, signature, message).0;
      PrivateKeyLogin(docs, o, key, safe, signature, message).1.user.profileId
        == IdText(FindFirst(docs', SafeIs(safe)).value)
  {
    var docs' := PrivateKeyLogin(docs, o, key, safe, signature, message).0;
    match FindFirst(docs, SafeIs(safe))
    case None =>
      assert docs' == docs + [NewSafeProfile(safe, key)];
      assert forall j :: 0 <= j < |docs| ==> docs'[j] == docs[j];
      FindFirstFromAfterMisses(docs', SafeIs(safe), 0, |docs|);
    case Some(i) =>
      FindFirstAfterUpdate(docs, i, docs[i].(privateKey := Some(key)), SafeIs(safe));
      if docs[i].privateKey == Some(key) {
        assert docs[i := docs[i].(privateKey := Some(key))] == docs;
      }
  }

  /** Find-or-create is idempotent: logging in again with the same key and Safe changes
      nothing and reports the same user. */
  lemma PrivateKeyIdempotent(docs: seq<Profile>, o: Oracles, key: string, safe: string,
                             signature: string, message: string)
    requires PrivateKeyLogin(docs, o, key, safe, signature, message).1.Success?
    ensures var (docs', r) := PrivateKeyLogin(docs, o, key, safe, signature, message);
      PrivateKeyLogin(docs', o, key, safe, signature, message) == (docs', r)
  {
    var (docs', r) := PrivateKeyLogin(docs, o, key, safe, signature, message);
    PrivateKeyStoresKey(docs, o, key, safe, signature, message);
    var i' := FindFirst(docs', SafeIs(safe)).value;
    IdTextInjective(i', FindFirst(docs', SafeIs(safe)).value);
    match FindFirst(docs, SafeIs(safe))
    case None =>
      assert i' == |docs| by {
        assert r.user.profileId == IdText(|docs|);
        IdTextInjective(i', |docs|);
      }
    case Some(i) =>
      assert i' == i by {
        assert r.user.profileId == IdText(i);
        IdTextInjective(i', i);
      }
  }

  /** The login keeps emails unique. */
  lemma PrivateKeyKeepsEmailsUnique(docs: seq<Profile>, o: Oracles, key: string, safe: string,
                                    signature: string, message: string)
    requires EmailsUnique(docs)
    ensures EmailsUnique(PrivateKeyLogin(docs, o, key, safe, signature, message).0)
  {
    if o.ownerOf(key).Some? && o.safeSigValid(safe, signature, message) {
      match FindFirst(docs, SafeIs(safe))
      case None =>
        if Insert(docs, NewSafeProfile(safe, key)).Ok? {
          InsertKeepsEmailsUnique(docs, NewSafeProfile(safe, key));
        }
      case Some(i) =>
        if Save(docs, i, docs[i].(privateKey := Some(key))).Ok? {
          SaveKeepsEmailsUnique(docs, i, docs[i].(privateKey := Some(key)));
        }
    }
  }

  /** `authenticateWithPrivateKey` against the live collection. */
  method AuthenticateWithPrivateKey(db: ProfileDb, o: Oracles, key: string, safe: string,
                                    signature: string, message: string) returns (r: AuthResult)
    modifies db
    ensures (db.docs, r) == PrivateKeyLogin(old(db.docs), o, key, safe, signature, message)
  {
    var owner := o.ownerOf(key);
    if owner.None? {
      return Failure(AuthenticationFailed);
    }
    if !o.safeSigValid(safe, signature, message) {
      return Failure(InvalidSafeSignature);
    }
    var found := FindFirst(db.docs, SafeIs(safe));
    if found.None? {
      var created := db.Create(NewSafeProfile(safe, key));
      if created.Err? {
        return Failure(AuthenticationFailed);
      }
      r := Success(KeyLoginUser(db.docs, created.value, safe, owner.value));
    } else {
      var i := found.value;
      if db.docs[i].privateKey != Some(key) {
        var saved := db.Update(i, db.docs[i].(privateKey := Some(key)));
        if saved.Err? {
          return Failure(AuthenticationFailed);
        }
      }
      r := Success(KeyLoginUser(db.docs, i, safe, owner.value));
    }
  }

  /** `authenticateWithGoogle`: the first complete Safe profile for the email (a Safe
      other than "0x", a non-empty key), then the Safe signature for its Safe. */
  function GoogleLogin(docs: seq<Profile>, o: Oracles, email: Option<string>, signature: string,
                       message: string): (r: AuthResult)
    ensures FindFirst(docs, CompleteSafeUserOf(email)).None? ==> r == Failure(NoSafeForGoogle)
    ensures r.Success? <==> (FindFirst(docs, CompleteSafeUserOf(email)).Some?
      && var p := docs[FindFirst(docs, CompleteSafeUserOf(email)).value];
      o.ownerOf(p.privateKey.value).Some? && o.safeSigValid(p.safeAddress.value, signature, message))
    ensures r.Success? ==> (var i := FindFirst(docs, CompleteSafeUserOf(email)).value;
      r.user == AuthUser(docs[i].safeAddress.value, docs[i].username, IdText(i), docs[i].name,
        o.ownerOf(docs[i].privateKey.value), email, None)
      && docs[i].safeAddress.value != DefaultSafeAddress && docs[i].privateKey.value != "")
  {
    match FindFirst(docs, CompleteSafeUserOf(email))
    case None => Failure(NoSafeForGoogle)
    case Some(i) =>
      var p := docs[i];
      match o.ownerOf(p.privateKey.value)
      case None => Failure(AuthenticationFailed)
      case Some(owner) =>
        if !o.safeSigValid(p.safeAddress.value, signature, message) then Failure(InvalidSafeSignature)
        else Success(AuthUser(p.safeAddress.value, p.username, IdText(i), p.name, Some(owner), email, None))
  }
}
