/** The Auth.js configuration of src/auth.ts: the `safe-pk` Credentials `authorize`, and the
    `signIn`, `jwt` and `session` callbacks. */
module AuthCallbacks {
  import opened Common
  import opened Profiles
  import opened Chain
  import opened AuthTypes
  import SA = SafeAuthService

  /** The user object handed to the callbacks: the one `authorize` returns, or the one an
      OAuth provider builds (which has no Safe fields). */
  datatype SignInUser = SignInUser(
    id: Option<string>,
    email: Option<string>,
    name: Option<string>,
    profileId: Option<string>,
    safeAddress: Option<string>,
    username: Option<string>,
    controllingEOA: Option<string>)

  /** The per-request inputs `authorize` and `signIn` draw on besides the collection: the
      random nonce, the clock and the ORIGIN setting of the challenge. */
  datatype Env = Env(nonce: string, now: nat, origin: Option<string>)

  /** `authorize` as a function of the collection: the new collection and the user, or
      `None` for Auth.js's `null`. */
  function AuthorizeSpec(docs: seq<Profile>, o: Oracles, privateKey: Option<string>, env: Env)
    : (seq<Profile>, Option<SignInUser>)
  {
    if !Truthy(privateKey) then (docs, None)
    else
      match SA.SafeAddressesForPrivateKey(o, privateKey.value)
      case Err(_) => (docs, None)
      case Ok(info) =>
        if info.controlledSafes == [] then (docs, None)
        else
          var safe := info.controlledSafes[0];
          var challenge := SA.GenerateChallenge(env.nonce, env.now, env.origin);
          match o.safeSign(privateKey.value, safe, challenge.message)
          case None => (docs, None)
          case Some(signature) =>
            var (docs', result) := SA.PrivateKeyLogin(docs, o, privateKey.value, safe, signature, challenge.message);
            match result
            case Failure(_) => (docs', None)
            case Success(u) =>
              (docs', Some(SignInUser(Some(u.safeAddress), u.email, Some(u.name), Some(u.profileId),
                Some(u.safeAddress), u.username, u.controllingEOA)))
  }

  /** Without a key, with a malformed key, or when the registry lists no Safe for it,
      `authorize` returns null and writes nothing. */
  lemma AuthorizeNullCases(docs: seq<Profile>, o: Oracles, privateKey: Option<string>, env: Env)
    requires !Truthy(privateKey) || !KeyFormatValid(privateKey.value)
      || (o.ownerOf(privateKey.value).Some? && SafesForOwner(o, o.ownerOf(privateKey.value).value) == [])
    ensures AuthorizeSpec(docs, o, privateKey, env) == (docs, None)
  {
  }

  /** A user comes back exactly when the private-key login for the first listed Safe
      succeeds, and it is that Safe: id and safeAddress both name it, and it is among the
      Safes the registry lists for the key's owner. */
  lemma AuthorizeSelectsFirstSafe(docs: seq<Profile>, o: Oracles, privateKey: Option<string>, env: Env)
    requires AuthorizeSpec(docs, o, privateKey, env).1.Some?
    ensures Truthy(privateKey) && KeyFormatValid(privateKey.value) && o.ownerOf(privateKey.value).Some?
    ensures var safes := SafesForOwner(o, o.ownerOf(privateKey.value).value);
      safes != []
      && AuthorizeSpec(docs, o, privateKey, env).1.value.id == Some(safes[0])
      && AuthorizeSpec(docs, o, privateKey, env).1.value.safeAddress == Some(safes[0])
    ensures var safes := SafesForOwner(o, o.ownerOf(privateKey.value).value);
      var message := SA.GenerateChallenge(env.nonce, env.now, env.origin).message;
      o.safeSign(privateKey.value, safes[0], message).Some?
      && SA.PrivateKeyLogin(docs, o, privateKey.value, safes[0],
           o.safeSign(privateKey.value, safes[0], message).value, message).1.Success?
  {
  }

  /** When the login for the first Safe succeeds, `authorize` returns its user, with the
      login's collection. */
  lemma AuthorizeReturnsLoginUser(docs: seq<Profile>, o: Oracles, key: string, env: Env)
    requires KeyFormatValid(key) && o.ownerOf(key).Some?
    requires SafesForOwner(o, o.ownerOf(key).value) != []
    requires var safe := SafesForOwner(o, o.ownerOf(key).value)[0];
      var message := SA.GenerateChallenge(env.nonce, env.now, env.origin).message;
      o.safeSign(key, safe, message).Some?
      && SA.PrivateKeyLogin(docs, o, key, safe, o.safeSign(key, safe, message).value, message).1.Success?
    ensures AuthorizeSpec(docs, o, Some(key), env).1.Some?
    ensures AuthorizeSpec(docs, o, Some(key), env).1.value.profileId.Some?
    ensures var safe := SafesForOwner(o, o.ownerOf(key).value)[0];
      var message := SA.GenerateChallenge(env.nonce, env.now, env.origin).message;
      var login := SA.PrivateKeyLogin(docs, o, key, safe, o.safeSign(key, safe, message).value, message);
      var u := login.1.user;
      AuthorizeSpec(docs, o, Some(key), env) == (login.0, Some(SignInUser(Some(u.safeAddress), u.email,
        Some(u.name), Some(u.profileId), Some(u.safeAddress), u.username, u.controllingEOA)))
  {
    assert Truthy(Some(key));
  }

  /** `authorize` against the live collection. */
  method Authorize(db: ProfileDb, o: Oracles, privateKey: Option<string>, env: Env) returns (user: Option<SignInUser>)
    modifies db
    ensures (db.docs, user) == AuthorizeSpec(old(db.docs), o, privateKey, env)
  {
    if !Truthy(privateKey) {
      return None;
    }
    var info := SA.SafeAddressesForPrivateKey(o, privateKey.value);
    if info.Err? || info.value.controlledSafes == [] {
      return None;
    }
    var safe := info.value.controlledSafes[0];
    var challenge := SA.GenerateChallenge(env.nonce, env.now, env.origin);
    var signature := o.safeSign(privateKey.value, safe, challenge.message);
    if signature.None? {
      return None;
    }
    var result := SA.AuthenticateWithPrivateKey(db, o, privateKey.value, safe, signature.value, challenge.message);
    if result.Failure? {
      return None;
    }
    var u := result.user;
    user := Some(SignInUser(Some(u.safeAddress), u.email, Some(u.name), Some(u.profileId),
      Some(u.safeAddress), u.username, u.controllingEOA));
  }

  /** `signIn` as a function of the collection: the new collection and the verdict. A
      Google account with a complete Safe profile must pass the Safe verification; every
      other sign-in gets a placeholder profile when its email has none, and is let in. */
  function SignInSpec(docs: seq<Profile>, o: Oracles, provider: Option<string>, user: SignInUser, env: Env)
    : (seq<Profile>, bool)
  {
    var complete := FindFirst(docs, CompleteSafeUserOf(user.email));
    if provider == Some("google") && complete.Some? then
      var p := docs[complete.value];
      var challenge := SA.GenerateChallenge(env.nonce, env.now, env.origin);
      match o.safeSign(p.privateKey.value, p.safeAddress.value, challenge.message)
      case None => (docs, false)
      case Some(signature) =>
        (docs, SA.GoogleLogin(docs, o, user.email, signature, challenge.message).Success?)
    else
      match FindFirst(docs, EmailIs(user.email))
      case Some(_) => (docs, true)
      case None =>
        match Insert(docs, PlaceholderProfile(user))
        case Err(_) => (docs, false)
        case Ok(docs') => (docs', true)
  }

  /** The temporary profile of a first sign-in: the email, the name or "", no username. */
  function PlaceholderProfile(user: SignInUser): (p: Profile)
    ensures p.email == user.email && p.username.None? && p.safeAddress == Some(DefaultSafeAddress)
    ensures p.name == if Truthy(user.name) then user.name.value else ""
  {
    NewProfile(NewFields(Some(if Truthy(user.name) then user.name.value else ""), None, user.email, None, None))
  }

  /** A Google account with a complete Safe profile is let in exactly when the Safe
      verification succeeds, and no profile is created. */
  lemma SignInCompleteSafeUser(docs: seq<Profile>, o: Oracles, user: SignInUser, env: Env)
    requires FindFirst(docs, CompleteSafeUserOf(user.email)).Some?
    ensures SignInSpec(docs, o, Some("google"), user, env).0 == docs
    ensures var p := docs[FindFirst(docs, CompleteSafeUserOf(user.email)).value];
      var message := SA.GenerateChallenge(env.nonce, env.now, env.origin).message;
      SignInSpec(docs, o, Some("google"), user, env).1 <==>
        (o.safeSign(p.privateKey.value, p.safeAddress.value, message).Some?
          && SA.GoogleLogin(docs, o, user.email,
               o.safeSign(p.privateKey.value, p.safeAddress.value, message).value, message).Success?)
  {
  }

  /** Otherwise the sign-in is let in, and a placeholder is appended iff no profile has the
      email. */
  lemma SignInPlaceholder(docs: seq<Profile>, o: Oracles, provider: Option<string>, user: SignInUser, env: Env)
    requires provider != Some("google") || FindFirst(docs, CompleteSafeUserOf(user.email)).None?
    ensures SignInSpec(docs, o, provider, user, env).1
    ensures FindFirst(docs, EmailIs(user.email)).Some? ==> SignInSpec(docs, o, provider, user, env).0 == docs
    ensures FindFirst(docs, EmailIs(user.email)).None?
      ==> SignInSpec(docs, o, provider, user, env).0 == docs + [PlaceholderProfile(user)]
  {
    if FindFirst(docs, EmailIs(user.email)).None? {
      InsertFreshEmailSucceeds(docs, PlaceholderProfile(user));
    }
  }

  /** Signing in again creates nothing more. */
  lemma SignInIdempotent(docs: seq<Profile>, o: Oracles, provider: Option<string>, user: SignInUser, env: Env)
    ensures var docs' := SignInSpec(docs, o, provider, user, env).0;
      SignInSpec(docs', o, provider, user, env) == (docs', SignInSpec(docs, o, provider, user, env).1)
  {
    var complete := FindFirst(docs, CompleteSafeUserOf(user.email));
    if !(provider == Some("google") && complete.Some?) && FindFirst(docs, EmailIs(user.email)).None? {
      var p := PlaceholderProfile(user);
      InsertFreshEmailSucceeds(docs, p);
      var docs' := docs + [p];
      assert !Matches(p, CompleteSafeUserOf(user.email));
      FindFirstAppend(docs, p, CompleteSafeUserOf(user.email));
      assert Matches(docs'[|docs|], EmailIs(user.email));
    }
  }

  /** `signIn` against the live collection. */
  method SignIn(db: ProfileDb, o: Oracles, provider: Option<string>, user: SignInUser, env: Env) returns (ok: bool)
    modifies db
    ensures (db.docs, ok) == SignInSpec(old(db.docs), o, provider, user, env)
  {
    var complete := FindFirst(db.docs, CompleteSafeUserOf(user.email));
    if provider == Some("google") && complete.Some? {
      var p := db.docs[complete.value];
      var challenge := SA.GenerateChallenge(env.nonce, env.now, env.origin);
      var signature := o.safeSign(p.privateKey.value, p.safeAddress.value, challenge.message);
      if signature.None? {
        return false;
      }
      var verification := SA.GoogleLogin(db.docs, o, user.email, signature.value, challenge.message);
      return verification.Success?;
    }
    var existing := FindFirst(db.docs, EmailIs(user.email));
    if existing.None? {
      var created := db.Create(PlaceholderProfile(user));
      if created.Err? {
        return false;
      }
    }
    return true;
  }

  /** The custom fields of the JWT. */
  datatype TokenData = TokenData(
    profileId: Option<string>,
    safeAddress: Option<string>,
    username: Option<string>,
    controllingEOA: Option<string>,
    email: Option<string>)

  /** What the `jwt` callback makes of the token. A user with a Safe (from `authorize`)
      is copied onto it; otherwise the profile of the token's email, if any, refreshes the
      id, Safe and username, and on a sign-in the user's email is set last. */
  function JwtStep(t: TokenData, user: Option<SignInUser>, docs: seq<Profile>): TokenData {
    if user.Some? && Truthy(user.value.safeAddress) then
      var u := user.value;
      TokenData(u.profileId, u.safeAddress, u.username, u.controllingEOA, u.email)
    else
      var refreshed :=
        if !Truthy(t.email) then t
        else match FindFirst(docs, EmailIs(t.email))
          case None => t
          case Some(i) => t.(profileId := Some(IdText(i)), safeAddress := docs[i].safeAddress,
                             username := docs[i].username);
      if user.Some? then refreshed.(email := user.value.email) else refreshed
  }

  /** A Safe user's fields are copied verbatim, without consulting the collection. */
  lemma JwtCopiesSafeUser(t: TokenData, u: SignInUser, docs: seq<Profile>, docs': seq<Profile>)
    requires Truthy(u.safeAddress)
    ensures JwtStep(t, Some(u), docs) == JwtStep(t, Some(u), docs')
    ensures JwtStep(t, Some(u), docs).safeAddress == u.safeAddress
    ensures JwtStep(t, Some(u), docs).controllingEOA == u.controllingEOA
    ensures JwtStep(t, Some(u), docs).profileId == u.profileId
  {
  }

  /** The refresh never touches the controlling EOA, and takes id, Safe and username from
      the first profile with the token's email. */
  lemma JwtRefreshFromProfile(t: TokenData, user: Option<SignInUser>, docs: seq<Profile>)
    requires user.None? || !Truthy(user.value.safeAddress)
    ensures JwtStep(t, user, docs).controllingEOA == t.controllingEOA
    ensures Truthy(t.email) && FindFirst(docs, EmailIs(t.email)).Some? ==>
      (var i := FindFirst(docs, EmailIs(t.email)).value;
       JwtStep(t, user, docs).profileId == Some(IdText(i))
       && JwtStep(t, user, docs).safeAddress == docs[i].safeAddress
       && JwtStep(t, user, docs).username == docs[i].username)
  {
  }

  /** Without a matching profile the token is unchanged, apart from the email a sign-in
      sets. */
  lemma JwtNoMatchOnlyEmail(t: TokenData, user: Option<SignInUser>, docs: seq<Profile>)
    requires user.None? || !Truthy(user.value.safeAddress)
    requires !Truthy(t.email) || FindFirst(docs, EmailIs(t.email)).None?
    ensures user.None? ==> JwtStep(t, user, docs) == t
    ensures user.Some? ==> JwtStep(t, user, docs) == t.(email := user.value.email)
  {
  }

  /** The fields of `session.user` the callback fills. */
  datatype SessionUserData = SessionUserData(
    profileId: Option<string>,
    safeAddress: Option<string>,
    email: Option<string>,
    username: Option<string>,
    controllingEOA: Option<string>)

  /** What the `session` callback makes of `session.user`. */
  function SessionStep(s: SessionUserData, t: TokenData): (r: SessionUserData)
    ensures r.profileId == t.profileId && r.safeAddress == t.safeAddress && r.username == t.username
    ensures r.controllingEOA == t.controllingEOA
    ensures Truthy(t.email) ==> r.email == t.email
    ensures !Truthy(t.email) ==> r.email == s.email
  {
    SessionUserData(t.profileId, t.safeAddress, OrElse(t.email, s.email), t.username, t.controllingEOA)
  }

  /** The session shows whatever `jwt` recorded for a Safe user. */
  lemma SessionShowsSafeUser(s: SessionUserData, t: TokenData, u: SignInUser, docs: seq<Profile>)
    requires Truthy(u.safeAddress)
    ensures SessionStep(s, JwtStep(t, Some(u), docs)).safeAddress == u.safeAddress
    ensures SessionStep(s, JwtStep(t, Some(u), docs)).profileId == u.profileId
    ensures SessionStep(s, JwtStep(t, Some(u), docs)).controllingEOA == u.controllingEOA
  {
  }

  /** The JWT as a mutable object. */
  class Token {
    var profileId: Option<string>
    var safeAddress: Option<string>
    var username: Option<string>
    var controllingEOA: Option<string>
    var email: Option<string>

    constructor (t: TokenData)
      ensures Data() == t
    {
      profileId, safeAddress, username, controllingEOA, email :=
        t.profileId, t.safeAddress, t.username, t.controllingEOA, t.email;
    }

    function Data(): TokenData
      reads this
    {
      TokenData(profileId, safeAddress, username, controllingEOA, email)
    }

    /** The `jwt` callback, assigning the fields one by one. */
    method Jwt(user: Option<SignInUser>, docs: seq<Profile>)
      modifies this
      ensures Data() == JwtStep(old(Data()), user, docs)
    {
      if user.Some? && Truthy(user.value.safeAddress) {
        profileId := user.value.profileId;
        safeAddress := user.value.safeAddress;
        username := user.value.username;
        controllingEOA := user.value.controllingEOA;
        email := user.value.email;
        return;
      }
      if Truthy(email) {
        var found := FindFirst(docs, EmailIs(email));
        if found.Some? {
          profileId := Some(IdText(found.value));
          safeAddress := docs[found.value].safeAddress;
          username := docs[found.value].username;
        }
      }
      if user.Some? {
        email := user.value.email;
      }
    }
  }

  /** `session.user` as a mutable object. */
  class SessionUser {
    var profileId: Option<string>
    var safeAddress: Option<string>
    var email: Option<string>
    var username: Option<string>
    var controllingEOA: Option<string>

    constructor (s: SessionUserData)
      ensures Data() == s
    {
      profileId, safeAddress, email, username, controllingEOA :=
        s.profileId, s.safeAddress, s.email, s.username, s.controllingEOA;
    }

    function Data(): SessionUserData
      reads this
    {
      SessionUserData(profileId, safeAddress, email, username, controllingEOA)
    }

    /** The `session` callback, assigning the fields one by one. */
    method FillFrom(token: Token)
      modifies this
      ensures Data() == SessionStep(old(Data()), token.Data())
    {
      profileId := token.profileId;
      safeAddress := token.safeAddress;
      email := if Truthy(token.email) then token.email else email;
      username := token.username;
      controllingEOA := token.controllingEOA;
    }
  }
}
