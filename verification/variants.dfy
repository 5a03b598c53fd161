/** Where the three near-duplicate authentication services disagree. */
module Variants {
  import opened Common
  import opened Profiles
  import opened Chain
  import opened Challenge
  import opened AuthTypes
  import Auth
  import SafeAuthService
  import AuthService

  /** A message without any `Timestamp: <digits>` is refused by the credentials flow of
      the wallet service, yet passes the age check of `verifySignature` in both services. */
  lemma UndatedMessageDivergence(docs: seq<Profile>, o: Oracles, message: string, signature: string,
                                 walletOwner: string, safe: string, now: int)
    requires forall q :: !MatchAt(message, q)
    requires FindFirst(docs, SafeIs(safe)).Some?
    requires o.recover(message, signature).Some?
    requires docs[FindFirst(docs, SafeIs(safe)).value].privateKey.Some?
    requires o.ownerOf(docs[FindFirst(docs, SafeIs(safe)).value].privateKey.value)
      == o.recover(message, signature)
    ensures Auth.AuthenticateWithCredentials(docs, o, message, signature, walletOwner, safe, now)
        == Failure(Auth.StaleMessage)
    ensures Auth.VerifySignature(docs, o, safe, signature, message, now).Success?
    ensures AuthService.VerifySignature(docs, o, safe, signature, message, now).Success?
  {
    SignatureCheckTimestamp(docs, o, safe, signature, message, now);
  }

  /** A user without a username gets session data from the key-based service but not
      from the wallet service. */
  lemma SessionDataDivergence(user: AuthUser, now: int)
    requires user.username.None?
    ensures Auth.CreateSessionData(Some(user), now).Err?
    ensures AuthService.CreateSessionData(Some(user), now).Ok?
  {
  }

  /** The "complete Safe profile" query of the Safe services is stricter than the one of
      the key-based service: whoever passes the former passes the latter. */
  lemma GoogleQueriesNested(docs: seq<Profile>, o: Oracles, email: string, signature: string, message: string)
    requires SafeAuthService.GoogleLogin(docs, o, Some(email), signature, message).Success?
      || Auth.AuthenticateWithGoogle(docs, o, email).Success?
    ensures AuthService.AuthenticateWithGoogle(docs, email).Success?
  {
    var i := FindFirst(docs, CompleteSafeUserOf(Some(email))).value;
    assert Matches(docs[i], LinkedSafeUserOf(email));
  }

  /** The converse fails: a profile still holding the schema defaults ("0x" and "") logs
      in through the key-based Google flow but through neither of the others. */
  lemma GoogleQueryDivergence(o: Oracles, email: string, signature: string, message: string)
    ensures var docs := [NewProfile(NewFields(None, None, Some(email), None, None))];
      AuthService.AuthenticateWithGoogle(docs, email).Success?
      && SafeAuthService.GoogleLogin(docs, o, Some(email), signature, message) == Failure(NoSafeForGoogle)
      && Auth.AuthenticateWithGoogle(docs, o, email) == Failure(NoSafeForGoogle)
  {
    var docs := [NewProfile(NewFields(None, None, Some(email), None, None))];
    assert Matches(docs[0], LinkedSafeUserOf(email));
    assert !Matches(docs[0], CompleteSafeUserOf(Some(email)));
  }
}
