/** The registration page (src/routes/registration/+page.server.ts): a signed-in user picks
    a username, which is written onto the profile of their email or onto a new profile. */
module Registration {
  import opened Common
  import opened Profiles
  import opened Schemas
  import opened AuthCallbacks
  import Layout

  datatype LoadResult = Redirect(status: nat, location: string) | ShowForm(email: string)

  /** `load`: without a session email, to /signin; with a profile that already has a
      username, to /; otherwise the form, pre-filled with the email. */
  function Load(docs: seq<Profile>, email: Option<string>): (r: LoadResult)
    ensures !Truthy(email) ==> r == Redirect(302, "/signin")
    ensures Truthy(email) ==> (r == Redirect(302, "/") <==>
      (FindFirst(docs, EmailIs(email)).Some? && Truthy(docs[FindFirst(docs, EmailIs(email)).value].username)))
    ensures r.ShowForm? ==> Truthy(email) && r.email == email.value
  {
    if !Truthy(email) then Redirect(302, "/signin")
    else
      match FindFirst(docs, EmailIs(email))
      case Some(i) => if Truthy(docs[i].username) then Redirect(302, "/") else ShowForm(email.value)
      case None => ShowForm(email.value)
  }

  datatype ActionResult =
    | FormInvalid(issues: seq<Issue>)
    | Saved(form: Registration)
    | ServerError(message: string)

  const SaveFailedPrefix := "Failed to create profile: "

  /** The existing profile with the chosen username, and the session name when it has none. */
  function WithUsername(p: Profile, username: string, sessionName: Option<string>): (p': Profile)
    ensures p'.username == Some(username) && p'.email == p.email
    ensures p'.name == if p.name == "" && Truthy(sessionName) then sessionName.value else p.name
    ensures p' == p.(username := p'.username, name := p'.name)
  {
    p.(username := Some(username), name := if p.name == "" && Truthy(sessionName) then sessionName.value else p.name)
  }

  /** The profile created for an email that has none. */
  function Fresh(username: string, email: string, sessionName: Option<string>): (p: Profile)
    ensures p.email == Some(email) && p.username == Some(username)
    ensures p.name == if Truthy(sessionName) then sessionName.value else ""
    ensures p.safeAddress == Some(DefaultSafeAddress) && p.privateKey == Some("")
  {
    NewProfile(NewFields(Some(if Truthy(sessionName) then sessionName.value else ""), Some(username), Some(email), None, None))
  }

  /** The default action as a function of the collection: the new collection and the
      outcome. Usernames are not checked for uniqueness. */
  function RegisterSpec(docs: seq<Profile>, isEmail: EmailCheck, username: string, email: string,
                        sessionName: Option<string>): (seq<Profile>, ActionResult)
  {
    match ParseRegistration(isEmail, username, email)
    case Invalid(issues) => (docs, FormInvalid(issues))
    case Valid(form) =>
      match FindFirst(docs, EmailIs(Some(email)))
      case Some(i) =>
        (match Save(docs, i, WithUsername(docs[i], username, sessionName))
         case Err(e) => (docs, ServerError(SaveFailedPrefix + e))
         case Ok(docs') => (docs', Saved(form)))
      case None =>
        match Insert(docs, Fresh(username, email, sessionName))
        case Err(e) => (docs, ServerError(SaveFailedPrefix + e))
        case Ok(docs') => (docs', Saved(form))
  }

  /** An invalid form is answered with its issues and writes nothing. */
  lemma InvalidFormChangesNothing(docs: seq<Profile>, isEmail: EmailCheck, username: string, email: string,
                                  sessionName: Option<string>)
    requires UsernameIssues(username) != [] || !isEmail(email)
    ensures RegisterSpec(docs, isEmail, username, email, sessionName).0 == docs
    ensures RegisterSpec(docs, isEmail, username, email, sessionName).1.FormInvalid?
    ensures RegisterSpec(docs, isEmail, username, email, sessionName).1.issues != []
  {
  }

  /** On a collection whose emails are unique, a valid form always saves: the profile of
      the email (kept at its position, or appended) then carries the username, nothing
      else changes, and the emails stay unique, whatever usernames others already hold. */
  lemma {:induction false} ValidFormSaves(docs: seq<Profile>, isEmail: EmailCheck, username: string,
                                          email: string, sessionName: Option<string>)
    requires EmailsUnique(docs)
    requires UsernameIssues(username) == [] && isEmail(email)
    ensures var (docs', r) := RegisterSpec(docs, isEmail, username, email, sessionName);
      r == Saved(Registration(username, email))
      && EmailsUnique(docs')
      && FindFirst(docs', EmailIs(Some(email))).Some?
      && docs'[FindFirst(docs', EmailIs(Some(email))).value].username == Some(username)
      && |docs| <= |docs'| <= |docs| + 1
      && (forall j :: 0 <= j < |docs| && docs[j].email != Some(email) ==> docs'[j] == docs[j])
  {
    var q := EmailIs(Some(email));
    match FindFirst(docs, q)
    case Some(i) =>
      var p' := WithUsername(docs[i], username, sessionName);
      SaveSameEmailSucceeds(docs, i, p');
      SaveKeepsEmailsUnique(docs, i, p');
      FindFirstAfterUpdate(docs, i, p', q);
    case None =>
      var p := Fresh(username, email, sessionName);
      InsertFreshEmailSucceeds(docs, p);
      InsertKeepsEmailsUnique(docs, p);
      var docs' := docs + [p];
      assert forall j :: 0 <= j < |docs| ==> docs'[j] == docs[j];
      assert forall j :: 0 <= j < |docs| ==> !Matches(docs'[j], q);
      assert Matches(docs'[|docs|], q);
      FindFirstFromAfterMisses(docs', q, 0, |docs|);
  }

  /** After registering, the page sends the user home. */
  lemma RegisterThenLoadRedirectsHome(docs: seq<Profile>, isEmail: EmailCheck, username: string,
                                      email: string, sessionName: Option<string>)
    requires EmailsUnique(docs) && email != ""
    requires UsernameIssues(username) == [] && isEmail(email)
    ensures Load(RegisterSpec(docs, isEmail, username, email, sessionName).0, Some(email)) == Redirect(302, "/")
  {
    ValidFormSaves(docs, isEmail, username, email, sessionName);
  }

  /** After registering, the next `jwt` refresh of the user's token picks up the username,
      and the layout guard lets the session through on every path. */
  lemma RegisteredUserPassesLayout(docs: seq<Profile>, isEmail: EmailCheck, username: string,
                                   email: string, sessionName: Option<string>, t: TokenData,
                                   s: SessionUserData, pathname: string)
    requires EmailsUnique(docs) && email != ""
    requires UsernameIssues(username) == [] && isEmail(email)
    requires t.email == Some(email)
    ensures var docs' := RegisterSpec(docs, isEmail, username, email, sessionName).0;
      var user := SessionStep(s, JwtStep(t, None, docs'));
      user.username == Some(username)
      && Layout.Load(Some(user), pathname) == Layout.Render(Some(user))
  {
    ValidFormSaves(docs, isEmail, username, email, sessionName);
    var docs' := RegisterSpec(docs, isEmail, username, email, sessionName).0;
    JwtRefreshFromProfile(t, None, docs');
    var user := SessionStep(s, JwtStep(t, None, docs'));
    assert user.username == Some(username);
    assert Truthy(user.username) by {
      assert |username| >= 3;
    }
    Layout.GuardOnlyForUnregistered(Some(user), pathname);
  }

  /** The default action against the live collection. */
  method Register(db: ProfileDb, isEmail: EmailCheck, username: string, email: string,
                  sessionName: Option<string>) returns (r: ActionResult)
    modifies db
    ensures (db.docs, r) == RegisterSpec(old(db.docs), isEmail, username, email, sessionName)
  {
    var parsed := ParseRegistration(isEmail, username, email);
    if parsed.Invalid? {
      return FormInvalid(parsed.issues);
    }
    var existing := FindFirst(db.docs, EmailIs(Some(email)));
    var saved: Result<nat>;
    if existing.Some? {
      saved := db.Update(existing.value, WithUsername(db.docs[existing.value], username, sessionName));
    } else {
      saved := db.Create(Fresh(username, email, sessionName));
    }
    if saved.Err? {
      return ServerError(SaveFailedPrefix + saved.error);
    }
    return Saved(parsed.data);
  }
}
