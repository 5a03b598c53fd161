/** The zod form schemas of src/lib/validation/schemas.ts, as functions from the submitted
    values to the list of issues zod reports (in the order it reports them) or to the
    parsed data. Every string check of a field runs, so a value can collect several issues. */
module Schemas {
  import opened Common

  /** A zod issue: the field it is reported on and its message. */
  datatype Issue = Issue(path: string, message: string)

  /** The outcome of `schema.safeParse`. */
  datatype Parsed<T> = Valid(data: T) | Invalid(issues: seq<Issue>)

  /** The email check of zod's `.email()`; its regular expression is not modelled and is a
      parameter of every schema that uses it. */
  type EmailCheck = string -> bool

  predicate IsLetter(c: char) {
    ('a' <= c <= 'z') || ('A' <= c <= 'Z')
  }

  predicate IsUpper(c: char) {
    'A' <= c <= 'Z'
  }

  predicate IsLowerCase(c: char) {
    'a' <= c <= 'z'
  }

  /** `[a-zA-Z0-9_-]`. */
  predicate UsernameChar(c: char) {
    IsLetter(c) || IsDigit(c) || c == '_' || c == '-'
  }

  /** `/^[a-zA-Z0-9_-]+$/`: non-empty, and every character allowed. */
  predicate UsernamePattern(s: string) {
    |s| > 0 && forall i :: 0 <= i < |s| ==> UsernameChar(s[i])
  }

  const UsernameTooShort := "Username must be at least 3 characters"
  const UsernameTooLong := "Username must be at most 30 characters"
  const UsernameBadChars := "Username can only contain letters, numbers, underscores and dashes"

  /** `usernameSchema`: the messages of the failing checks, in the order min, max, regex. */
  function UsernameIssues(s: string): (r: seq<string>)
    ensures r == [] <==> 3 <= |s| <= 30 && UsernamePattern(s)
    ensures UsernameTooShort in r <==> |s| < 3
    ensures UsernameTooLong in r <==> |s| > 30
    ensures UsernameBadChars in r <==> !UsernamePattern(s)
    ensures |r| <= 2
  {
    (if |s| < 3 then [UsernameTooShort] else [])
    + (if |s| > 30 then [UsernameTooLong] else [])
    + (if !UsernamePattern(s) then [UsernameBadChars] else [])
  }

  /** The empty username fails both the length and the pattern check. */
  lemma EmptyUsernameTwoIssues()
    ensures UsernameIssues("") == [UsernameTooShort, UsernameBadChars]
  {
  }

  predicate HasUpper(s: string) { exists i :: 0 <= i < |s| && IsUpper(s[i]) }
  predicate HasLower(s: string) { exists i :: 0 <= i < |s| && IsLowerCase(s[i]) }
  predicate HasDigit(s: string) { exists i :: 0 <= i < |s| && IsDigit(s[i]) }
  /** `/[^A-Za-z0-9]/`. */
  predicate HasSpecial(s: string) { exists i :: 0 <= i < |s| && !IsLetter(s[i]) && !IsDigit(s[i]) }

  const PasswordTooShort := "Password must be at least 8 characters"
  const PasswordTooLong := "Password cannot exceed 128 characters"
  const PasswordNoUpper := "Password must contain at least one uppercase letter"
  const PasswordNoLower := "Password must contain at least one lowercase letter"
  const PasswordNoDigit := "Password must contain at least one number"
  const PasswordNoSpecial := "Password must contain at least one special character"

  /** The password rules all hold. */
  predicate PasswordStrong(s: string) {
    8 <= |s| <= 128 && HasUpper(s) && HasLower(s) && HasDigit(s) && HasSpecial(s)
  }

  /** `passwordSchema`: the messages of the failing checks, in declaration order. */
  function PasswordIssues(s: string): (r: seq<string>)
    ensures r == [] <==> PasswordStrong(s)
    ensures |s| < 8 ==> r[0] == PasswordTooShort
    ensures |s| > 128 ==> r[0] == PasswordTooLong
    ensures |r| <= 5
  {
    (if |s| < 8 then [PasswordTooShort] else [])
    + (if |s| > 128 then [PasswordTooLong] else [])
    + (if !HasUpper(s) then [PasswordNoUpper] else [])
    + (if !HasLower(s) then [PasswordNoLower] else [])
    + (if !HasDigit(s) then [PasswordNoDigit] else [])
    + (if !HasSpecial(s) then [PasswordNoSpecial] else [])
  }

  const InvalidEmail := "Invalid email address"

  function EmailIssues(isEmail: EmailCheck, s: string): (r: seq<string>)
    ensures r == [] <==> isEmail(s)
  {
    if isEmail(s) then [] else [InvalidEmail]
  }

  /** The messages of one field, tagged with its name. */
  function OnField(path: string, messages: seq<string>): (r: seq<Issue>)
    ensures |r| == |messages|
    ensures forall i :: 0 <= i < |r| ==> r[i] == Issue(path, messages[i])
  {
    seq(|messages|, i requires 0 <= i < |messages| => Issue(path, messages[i]))
  }

  datatype Registration = Registration(username: string, email: string)

  /** `registrationSchema`: username issues, then email issues. */
  function ParseRegistration(isEmail: EmailCheck, username: string, email: string): (r: Parsed<Registration>)
    ensures r.Valid? <==> UsernameIssues(username) == [] && isEmail(email)
    ensures r.Valid? ==> r.data == Registration(username, email)
    ensures r.Invalid? ==> (r.issues == OnField("username", UsernameIssues(username))
      + OnField("email", EmailIssues(isEmail, email)) && r.issues != [])
  {
    var issues := OnField("username", UsernameIssues(username)) + OnField("email", EmailIssues(isEmail, email));
    if issues == [] then Valid(Registration(username, email)) else Invalid(issues)
  }

  datatype SignIn = SignIn(email: string, password: string)

  /** `signInSchema`: email issues, then password issues. */
  function ParseSignIn(isEmail: EmailCheck, email: string, password: string): (r: Parsed<SignIn>)
    ensures r.Valid? <==> isEmail(email) && PasswordStrong(password)
    ensures r.Valid? ==> r.data == SignIn(email, password)
  {
    var issues := OnField("email", EmailIssues(isEmail, email)) + OnField("password", PasswordIssues(password));
    if issues == [] then Valid(SignIn(email, password)) else Invalid(issues)
  }

  datatype SignUp = SignUp(email: string, username: string, password: string, confirmPassword: string)

  const PasswordsDiffer := "Passwords don't match"

  /** `signUpSchema`: the field issues, then the refinement on `confirmPassword`. Field
      check failures do not abort the object, so the refinement runs even when they fail. */
  function ParseSignUp(isEmail: EmailCheck, email: string, username: string, password: string,
                       confirmPassword: string): (r: Parsed<SignUp>)
    ensures r.Valid? <==> (isEmail(email) && UsernameIssues(username) == [] && PasswordStrong(password)
      && password == confirmPassword)
    ensures r.Valid? ==> r.data == SignUp(email, username, password, confirmPassword)
    ensures password != confirmPassword ==>
      (r.Invalid? && |r.issues| > 0 && r.issues[|r.issues| - 1] == Issue("confirmPassword", PasswordsDiffer))
  {
    var issues := OnField("email", EmailIssues(isEmail, email))
      + OnField("username", UsernameIssues(username))
      + OnField("password", PasswordIssues(password))
      + (if password != confirmPassword then [Issue("confirmPassword", PasswordsDiffer)] else []);
    if issues == [] then Valid(SignUp(email, username, password, confirmPassword)) else Invalid(issues)
  }

  /** A mismatch is reported even next to other failures. */
  lemma SignUpMismatchAlwaysReported(isEmail: EmailCheck, email: string, username: string,
                                     password: string, confirmPassword: string)
    requires password != confirmPassword
    ensures Issue("confirmPassword", PasswordsDiffer) in ParseSignUp(isEmail, email, username, password, confirmPassword).issues
    ensures |ParseSignUp(isEmail, email, username, password, confirmPassword).issues|
      == |EmailIssues(isEmail, email)| + |UsernameIssues(username)| + |PasswordIssues(password)| + 1
  {
  }

  /** The characters `String.prototype.trim` removes. */
  predicate JsWhitespace(c: char) {
    c == ' ' || c == '\t' || c == '\n' || c == '\r' || c == '\U{B}' || c == '\U{C}'
    || c == '\U{A0}' || c == '\U{1680}' || ('\U{2000}' <= c <= '\U{200A}')
    || c == '\U{2028}' || c == '\U{2029}' || c == '\U{202F}' || c == '\U{205F}'
    || c == '\U{3000}' || c == '\U{FEFF}'
  }

  /** `s.trim() === ""`. */
  predicate Blank(s: string) {
    forall i :: 0 <= i < |s| ==> JsWhitespace(s[i])
  }

  const MaxCaption := 2200

  /** A submitted media item; files are named by their upload names. */
  datatype MediaInput =
    | Single(kind: string, file: string)
    | Album(files: seq<string>)
  datatype Media = ImageMedia(file: string) | VideoMedia(file: string) | AlbumMedia(files: seq<string>)

  datatype GeoAddress = GeoAddress(country: Option<string>, state: Option<string>,
                                   city: Option<string>, postcode: Option<string>)
  datatype Location = Location(displayName: string, lat: string, lon: string, address: Option<GeoAddress>)

  const MaxDisplayName := 200
  const Visibilities := ["public", "private", "friends"]

  /** The form as submitted: `None` is a key left out (or, for the caption, a value that is
      not a string). */
  datatype UploadInput = UploadInput(media: Option<MediaInput>, caption: Option<string>,
                                     visibility: Option<string>, location: Option<Location>)
  datatype Upload = Upload(media: Option<Media>, caption: string, visibility: string, location: Option<Location>)

  const AlbumEmpty := "Album must have at least 1 image"
  const DisplayNameTooLong := "String must contain at most 200 character(s)"
  const BadMediaType := "Invalid input"

  /** The caption after preprocessing: kept verbatim unless it is blank or not a string. */
  function CaptionValue(caption: Option<string>): (r: string)
    ensures caption.Some? && !Blank(caption.value) ==> r == caption.value
    ensures caption.None? || Blank(caption.value) ==> r == ""
  {
    if caption.Some? && !Blank(caption.value) then caption.value else ""
  }

  function MediaIssues(m: Option<MediaInput>): seq<Issue> {
    match m
    case None => []
    case Some(Single(kind, _)) => if kind == "image" || kind == "video" then [] else [Issue("media", BadMediaType)]
    case Some(Album(files)) => if files == [] then [Issue("media.files", AlbumEmpty)] else []
  }

  function MediaValue(m: MediaInput): Media
    requires MediaIssues(Some(m)) == []
  {
    match m
    case Single(kind, file) => if kind == "image" then ImageMedia(file) else VideoMedia(file)
    case Album(files) => AlbumMedia(files)
  }

  function VisibilityIssues(v: Option<string>): seq<Issue> {
    if v.None? || v.value in Visibilities then []
    else [Issue("visibility", "Invalid enum value. Expected 'public' | 'private' | 'friends', received '" + v.value + "'")]
  }

  function LocationIssues(l: Option<Location>): seq<Issue> {
    if l.Some? && |l.value.displayName| > MaxDisplayName then [Issue("location.display_name", DisplayNameTooLong)] else []
  }

  /** `UploadMediaSchema`: media, caption, visibility and location, in that order. */
  function ParseUpload(input: UploadInput): (r: Parsed<Upload>)
    ensures r.Valid? <==> (MediaIssues(input.media) == [] && |CaptionValue(input.caption)| <= MaxCaption
      && (input.visibility.None? || input.visibility.value in Visibilities)
      && (input.location.None? || |input.location.value.displayName| <= MaxDisplayName))
    ensures r.Valid? ==> (r.data.caption == CaptionValue(input.caption)
      && r.data.visibility == input.visibility.GetOr("public")
      && r.data.location == input.location
      && (r.data.media.None? <==> input.media.None?))
    ensures input.media.Some? && input.media.value.Album? && input.media.value.files == []
      ==> r.Invalid? && Issue("media.files", AlbumEmpty) in r.issues
  {
    var caption := CaptionValue(input.caption);
    var issues := MediaIssues(input.media)
      + (if |caption| > MaxCaption then [Issue("caption", "Caption must be at most 2200 characters")] else [])
      + VisibilityIssues(input.visibility)
      + LocationIssues(input.location);
    if issues == [] then
      Valid(Upload(if input.media.None? then None else Some(MediaValue(input.media.value)),
        caption, input.visibility.GetOr("public"), input.location))
    else Invalid(issues)
  }

  /** A blank caption of any length is accepted and stored as "". */
  lemma BlankCaptionAccepted(input: UploadInput)
    requires input.caption.Some? && Blank(input.caption.value)
    requires MediaIssues(input.media) == [] && input.visibility.None? && input.location.None?
    ensures input.media.None? ==> ParseUpload(input) == Valid(Upload(None, "", "public", None))
    ensures ParseUpload(input).Valid? && ParseUpload(input).data.caption == ""
  {
  }

  /** An empty form parses to the defaults: no media, no caption, public, no location. */
  lemma UploadDefaults()
    ensures ParseUpload(UploadInput(None, None, None, None)) == Valid(Upload(None, "", "public", None))
  {
  }
}
