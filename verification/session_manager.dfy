/** The cookie-based `SessionManager` (src/lib/auth/SessionManager.ts): the session lives in
    the `safe_auth_token` cookie as base64-encoded JSON and is checked with the key-based
    service's `validateSession` and `verifySignature`. */
module SessionManager {
  import opened Common
  import opened Profiles
  import opened Chain
  import opened AuthTypes
  import AuthService

  const CookieName := "safe_auth_token"
  const AuthRequired := "Authentication required"

  /** A cookie value decoder: base64 then `JSON.parse`; `None` stands for a decoding that
      throws or yields something that is not session data. */
  type Decoder = string -> Option<SessionData>

  /** `getSession`: the decoded cookie when it is present, non-empty and valid at `now`,
      otherwise null. */
  function GetSession(cookies: map<string, string>, decode: Decoder, now: int): (r: Option<SessionData>)
    ensures r.Some? <==> (CookieName in cookies && cookies[CookieName] != ""
      && ValidateSession(decode(cookies[CookieName]), now))
    ensures r.Some? ==> (Some(r.value) == decode(cookies[CookieName]) && FieldsPresent(r.value)
      && now - r.value.signedAt <= SessionLifetimeMs)
  {
    if CookieName !in cookies || cookies[CookieName] == "" then None
    else
      var data := decode(cookies[CookieName]);
      if !ValidateSession(data, now) then None else data
  }

  /** A session written with an encoding the decoder inverts is read back unchanged for
      exactly 24 hours after it was signed. */
  lemma IssuedSessionReadBack(cookies: map<string, string>, encode: SessionData -> string,
                              decode: Decoder, s: SessionData, now: int)
    requires decode(encode(s)) == Some(s) && encode(s) != ""
    requires FieldsPresent(s)
    ensures GetSession(cookies[CookieName := encode(s)], decode, now) == Some(s)
      <==> now - s.signedAt <= SessionLifetimeMs
    ensures GetSession(cookies[CookieName := encode(s)], decode, now).None?
      <==> now - s.signedAt > SessionLifetimeMs
  {
  }

  /** Without the cookie there is no session. */
  lemma ClearedHasNoSession(cookies: map<string, string>, decode: Decoder, now: int)
    ensures GetSession(cookies - {CookieName}, decode, now).None?
    ensures !IsAuthenticated(cookies - {CookieName}, decode, now)
    ensures RequireAuth(cookies - {CookieName}, decode, now) == Err(AuthRequired)
  {
  }

  /** `isAuthenticated`. */
  predicate IsAuthenticated(cookies: map<string, string>, decode: Decoder, now: int) {
    GetSession(cookies, decode, now).Some?
  }

  /** `getSafeAddress`: the session's Safe; a valid session always has one. */
  function GetSafeAddress(cookies: map<string, string>, decode: Decoder, now: int): (r: Option<string>)
    ensures r.Some? <==> IsAuthenticated(cookies, decode, now)
    ensures r.Some? ==> r.value != "" && r.value == GetSession(cookies, decode, now).value.safeAddress
  {
    match GetSession(cookies, decode, now)
    case None => None
    case Some(s) => if s.safeAddress == "" then None else Some(s.safeAddress)
  }

  /** `requireAuth`: the session, or the "Authentication required" error. */
  function RequireAuth(cookies: map<string, string>, decode: Decoder, now: int): (r: Result<SessionData>)
    ensures r.Err? <==> !IsAuthenticated(cookies, decode, now)
    ensures r.Err? ==> r.error == AuthRequired
    ensures r.Ok? ==> Some(r.value) == GetSession(cookies, decode, now)
  {
    match GetSession(cookies, decode, now)
    case None => Err(AuthRequired)
    case Some(s) => Ok(s)
  }

  /** `verifyUserSignature`: false without a session, otherwise the verdict of
      `verifySignature` for the session's Safe. */
  function VerifyUserSignature(cookies: map<string, string>, decode: Decoder, now: int,
                               docs: seq<Profile>, o: Oracles, signature: string, message: string): (ok: bool)
    ensures ok <==> (IsAuthenticated(cookies, decode, now)
      && AuthService.VerifySignature(docs, o, GetSession(cookies, decode, now).value.safeAddress,
           signature, message, now).Success?)
  {
    match GetSession(cookies, decode, now)
    case None => false
    case Some(s) => AuthService.VerifySignature(docs, o, s.safeAddress, signature, message, now).Success?
  }

  /** A signature accepted for the session's user was made, up to case, by the address of
      the key stored on the profile of the session's Safe. */
  lemma VerifiedSignatureIsTheUsers(cookies: map<string, string>, decode: Decoder, now: int,
                                    docs: seq<Profile>, o: Oracles, signature: string, message: string)
    requires VerifyUserSignature(cookies, decode, now, docs, o, signature, message)
    ensures var safe := GetSession(cookies, decode, now).value.safeAddress;
      FindFirst(docs, SafeIs(safe)).Some?
      && docs[FindFirst(docs, SafeIs(safe)).value].privateKey.Some?
      && o.recover(message, signature).Some?
      && o.ownerOf(docs[FindFirst(docs, SafeIs(safe)).value].privateKey.value).Some?
      && Lower(o.recover(message, signature).value)
         == Lower(o.ownerOf(docs[FindFirst(docs, SafeIs(safe)).value].privateKey.value).value)
  {
    var safe := GetSession(cookies, decode, now).value.safeAddress;
    var c := SignatureCheck(docs, o, safe, signature, message, now);
    assert c.Ok?;
  }

  /** The request's cookies. */
  class Cookies {
    var entries: map<string, string>

    constructor (initial: map<string, string>)
      ensures entries == initial
    {
      entries := initial;
    }

    /** `cookies.delete(name)`. */
    method Delete(name: string)
      modifies this
      ensures entries == old(entries) - {name}
    {
      entries := entries - {name};
    }
  }

  /** `clearSession`: only the session cookie goes. */
  method ClearSession(cookies: Cookies)
    modifies cookies
    ensures cookies.entries == old(cookies.entries) - {CookieName}
    ensures forall name :: name in old(cookies.entries) && name != CookieName ==>
      name in cookies.entries && cookies.entries[name] == old(cookies.entries)[name]
  {
    cookies.Delete(CookieName);
  }
}
