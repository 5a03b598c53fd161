/** The `POST /api/auth/google-safe-complete` route
    (src/routes/api/auth/google-safe-complete/+server.ts): a Google user proves control of
    the Safe on their profile with a wallet signature. */
module GoogleSafeComplete {
  import opened Common
  import opened Profiles
  import opened Chain
  import opened AuthTypes
  import opened Challenge
  import Auth

  /** The parsed JSON body, or a body `request.json()` cannot parse. */
  datatype Request =
    | Unparseable
    | Body(email: Option<string>, signature: Option<string>, message: Option<string>,
           safeAddress: Option<string>, walletOwner: Option<string>)

  datatype Response = Response(status: nat, error: Option<string>, user: Option<AuthUser>)

  const MissingParameters := "Missing required parameters: email, signature, message, safeAddress, walletOwner"
  const NoSafeUser := "No Safe user found for this email"
  const SafeMismatch := "Safe address mismatch"

  function Fail(status: nat, error: string): Response {
    Response(status, Some(error), None)
  }

  /** All five fields are present and non-empty. */
  predicate Complete(req: Request) {
    req.Body? && Truthy(req.email) && Truthy(req.signature) && Truthy(req.message)
    && Truthy(req.safeAddress) && Truthy(req.walletOwner)
  }

  /** The handler as written: it calls `getSafeUserInfo` and `authenticateWithCredentials`
      on the key-based service imported from `$lib/auth/AuthService`, which has neither
      method, so every complete request ends in the catch block. */
  function PostAsWritten(req: Request): (r: Response)
    ensures !Complete(req) && req.Body? ==> r == Fail(400, MissingParameters)
    ensures Complete(req) || req.Unparseable? ==> r == Fail(500, AuthenticationFailed)
  {
    if req.Unparseable? then Fail(500, AuthenticationFailed)
    else if !Complete(req) then Fail(400, MissingParameters)
    else Fail(500, AuthenticationFailed)
  }

  /** No request ever completes the Google Safe login as written. */
  lemma AsWrittenNeverSucceeds(req: Request)
    ensures PostAsWritten(req).status != 200 && PostAsWritten(req).user.None?
  {
  }

  /** The handler as intended, on the wallet service `Auth` that has both methods: the
      email's Safe must match the request's up to case, then the credentials check
      decides. */
  function Post(docs: seq<Profile>, o: Oracles, req: Request, now: int): (r: Response)
    ensures req.Unparseable? ==> r == Fail(500, AuthenticationFailed)
    ensures req.Body? && !Complete(req) ==> r == Fail(400, MissingParameters)
    ensures Complete(req) && Auth.GetSafeUserInfo(docs, req.email.value).None? ==> r == Fail(404, NoSafeUser)
    ensures (Complete(req) && Auth.GetSafeUserInfo(docs, req.email.value).Some?
      && Lower(Auth.GetSafeUserInfo(docs, req.email.value).value.safeAddress) != Lower(req.safeAddress.value))
      ==> r == Fail(400, SafeMismatch)
    ensures r.status == 401 ==> r.error.Some? && r.error.value != ""
    ensures (Complete(req) && Auth.GetSafeUserInfo(docs, req.email.value).Some?
      && Lower(Auth.GetSafeUserInfo(docs, req.email.value).value.safeAddress) == Lower(req.safeAddress.value))
      ==> (var c := Auth.AuthenticateWithCredentials(docs, o, req.message.value, req.signature.value,
                                                     req.walletOwner.value, req.safeAddress.value, now);
           (c.Failure? ==> r == Fail(401, if c.error != "" then c.error else AuthenticationFailed))
           && (c.Success? ==> r.user == Some(c.user)))
    ensures r.status == 200 <==> (Complete(req) && Auth.GetSafeUserInfo(docs, req.email.value).Some?
      && Lower(Auth.GetSafeUserInfo(docs, req.email.value).value.safeAddress) == Lower(req.safeAddress.value)
      && Auth.AuthenticateWithCredentials(docs, o, req.message.value, req.signature.value,
           req.walletOwner.value, req.safeAddress.value, now).Success?)
    ensures r.status == 200 ==> (r.user.Some? && r.user.value.safeAddress == req.safeAddress.value
      && r.user.value.controllingEOA == req.walletOwner)
  {
    if req.Unparseable? then Fail(500, AuthenticationFailed)
    else if !Complete(req) then Fail(400, MissingParameters)
    else
      match Auth.GetSafeUserInfo(docs, req.email.value)
      case None => Fail(404, NoSafeUser)
      case Some(info) =>
        if Lower(info.safeAddress) != Lower(req.safeAddress.value) then Fail(400, SafeMismatch)
        else
          match Auth.AuthenticateWithCredentials(docs, o, req.message.value, req.signature.value,
                                                 req.walletOwner.value, req.safeAddress.value, now)
          case Failure(e) => Fail(401, if e != "" then e else AuthenticationFailed)
          case Success(u) => Response(200, None, Some(u))
  }

  /** Every request the corrected handler lets in is refused with 500 as written. */
  lemma CorrectedSuccessFailsAsWritten(docs: seq<Profile>, o: Oracles, req: Request, now: int)
    requires Post(docs, o, req, now).status == 200
    ensures PostAsWritten(req) == Fail(500, AuthenticationFailed)
  {
  }

  /** A successful completion logs in the Safe registered for the Google email: the profile
      with that email holds the requested Safe, up to case. */
  lemma CompletionMatchesGoogleProfile(docs: seq<Profile>, o: Oracles, req: Request, now: int)
    requires Post(docs, o, req, now).status == 200
    ensures exists j :: (0 <= j < |docs| && docs[j].email == req.email && docs[j].safeAddress.Some?
      && docs[j].safeAddress.value != DefaultSafeAddress
      && Lower(docs[j].safeAddress.value) == Lower(req.safeAddress.value))
  {
    var info := Auth.GetSafeUserInfo(docs, req.email.value).value;
    assert docs[info.profile].email == req.email;
  }

  /** A concrete request that shows the discrepancy: one profile with a Google email and a
      Safe, a wallet whose signature and ownership check out, and a challenge just issued. */
  lemma GoogleSafeCompleteCounterexample(o: Oracles)
    requires o.safeSigValid("0xSafe", "sig", Auth.GenerateChallenge("", 5).message)
    requires o.checksum("0xOwner") == Some("0xOwner")
    requires o.registry("0xOwner") == Listed(Some(["0xSafe"]))
    ensures var docs := [NewProfile(NewFields(None, None, Some("a@b.c"), Some("0xSafe"), None))];
      var req := Body(Some("a@b.c"), Some("sig"), Some(Auth.GenerateChallenge("", 5).message),
                      Some("0xSafe"), Some("0xOwner"));
      Post(docs, o, req, 5).status == 200 && PostAsWritten(req).status == 500
  {
    var docs := [NewProfile(NewFields(None, None, Some("a@b.c"), Some("0xSafe"), None))];
    assert Matches(docs[0], SafeUserOf("a@b.c"));
    assert Matches(docs[0], SafeIs("0xSafe"));
    var m := Auth.GenerateChallenge("", 5).message;
    Auth.ChallengeRoundTrip("", 5, 5);
    assert ValidateMessageTimestamp(m, 5);
    assert FindFirst(docs, SafeUserOf("a@b.c")) == Some(0);
    assert docs[0].safeAddress == Some("0xSafe");
    IncludesCaselessMember(["0xSafe"], 0, "0xSafe");
    assert Auth.VerifySafeOwnership(o, "0xSafe", "0xOwner");
    assert FindFirst(docs, SafeIs("0xSafe")) == Some(0);
    assert Auth.AuthenticateWithCredentials(docs, o, m, "sig", "0xOwner", "0xSafe", 5).Success?;
    var req := Body(Some("a@b.c"), Some("sig"), Some(m), Some("0xSafe"), Some("0xOwner"));
    assert m == Render("", 5, Auth.DomainLine);
    assert |m| >= |Auth.DomainLine| > 0;
    assert Truthy(req.email) && Truthy(req.signature);
    assert Truthy(req.message);
    assert Truthy(req.safeAddress) && Truthy(req.walletOwner);
    assert Complete(req);
    var info := Auth.GetSafeUserInfo(docs, "a@b.c");
    assert info.Some? && info.value.safeAddress == "0xSafe";
    assert Post(docs, o, req, 5).status == 200;
  }
}
