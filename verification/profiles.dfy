/** The Profile collection: the record shape with its schema defaults, the `findOne`
    filters the authentication code issues, and inserts and saves that respect the sparse
    unique index on `email`. A document's id is its position in the collection, and the
    collection keeps natural (insertion) order, so `findOne` returns the first match. */
module Profiles {
  import opened Common

  datatype Kind = Open | Private

  datatype Link = Link(name: Option<string>, icon: Option<string>, link: Option<string>)

  /** A stored profile. `None` stands for a field that is null or missing in the document. */
  datatype Profile = Profile(
    name: string,
    username: Option<string>,
    email: Option<string>,
    safeAddress: Option<string>,
    privateKey: Option<string>,
    description: string,
    avatarImageUrl: string,
    location: string,
    links: seq<Link>,
    kind: Kind)

  /** The fields a `new Profile({...})` call supplies; `None` means the key is left out. */
  datatype NewFields = NewFields(
    name: Option<string>,
    username: Option<string>,
    email: Option<string>,
    safeAddress: Option<string>,
    privateKey: Option<string>)

  const DefaultSafeAddress := "0x"

  /** A document built by the schema: supplied fields are kept, the others take their
      defaults; `username` and `email` have none and stay absent. */
  function NewProfile(f: NewFields): (p: Profile)
    ensures p.name == f.name.GetOr("")
    ensures p.username == f.username && p.email == f.email
    ensures p.safeAddress == Some(f.safeAddress.GetOr(DefaultSafeAddress))
    ensures p.privateKey == Some(f.privateKey.GetOr(""))
    ensures p.description == "" && p.avatarImageUrl == "" && p.location == ""
    ensures p.links == [] && p.kind == Open
  {
    Profile(f.name.GetOr(""), f.username, f.email,
      Some(f.safeAddress.GetOr(DefaultSafeAddress)), Some(f.privateKey.GetOr("")),
      "", "", "", [], Open)
  }

  /** The textual id of the document at position `id` (`profile._id.toString()`). */
  function IdText(id: nat): (t: string)
    ensures t != ""
  {
    NatToDigits(id)
  }

  lemma IdTextInjective(i: nat, j: nat)
    requires IdText(i) == IdText(j)
    ensures i == j
  {
    NatToDigitsInjective(i, j);
  }

  /** The `findOne` filters used by the authentication code. */
  datatype Query =
      /** `{ email }`; with an undefined email this matches documents without one. */
      EmailIs(email: Option<string>)
      /** `{ safeAddress }`: exact, case-sensitive equality. */
    | SafeIs(safe: string)
      /** `getSafeUserInfo`: the email, and a safeAddress that is neither null nor "0x". */
    | SafeUserOf(userEmail: string)
      /** The Google flows of the Safe services and the `signIn` callback: additionally a
          privateKey that is neither null nor "". */
    | CompleteSafeUserOf(email: Option<string>)
      /** The Google flow of the key-based service: safeAddress and privateKey merely
          present and not null. */
    | LinkedSafeUserOf(ownerEmail: string)

  predicate Matches(p: Profile, q: Query) {
    match q
    case EmailIs(e) => p.email == e
    case SafeIs(s) => p.safeAddress == Some(s)
    case SafeUserOf(e) =>
      p.email == Some(e) && p.safeAddress.Some? && p.safeAddress.value != DefaultSafeAddress
    case CompleteSafeUserOf(e) =>
      p.email == e && p.safeAddress.Some? && p.safeAddress.value != DefaultSafeAddress
      && p.privateKey.Some? && p.privateKey.value != ""
    case LinkedSafeUserOf(e) =>
      p.email == Some(e) && p.safeAddress.Some? && p.privateKey.Some?
  }

  /** `findOne`: the position of the first document, in natural order, matching `q`. */
  function FindFirst(docs: seq<Profile>, q: Query): (r: Option<nat>)
    ensures r.Some? ==> r.value < |docs| && Matches(docs[r.value], q)
    ensures r.Some? ==> forall j :: 0 <= j < r.value ==> !Matches(docs[j], q)
    ensures r.None? <==> forall j :: 0 <= j < |docs| ==> !Matches(docs[j], q)
  {
    FindFirstFrom(docs, q, 0)
  }

  function FindFirstFrom(docs: seq<Profile>, q: Query, k: nat): (r: Option<nat>)
    requires k <= |docs|
    ensures r.Some? ==> k <= r.value < |docs| && Matches(docs[r.value], q)
    ensures r.Some? ==> forall j :: k <= j < r.value ==> !Matches(docs[j], q)
    ensures r.None? <==> forall j :: k <= j < |docs| ==> !Matches(docs[j], q)
    decreases |docs| - k
  {
    if k == |docs| then None
    else if Matches(docs[k], q) then Some(k)
    else FindFirstFrom(docs, q, k + 1)
  }

  /** A query that only looks at fields a document keeps finds the same first match after
      another document is appended that does not match. */
  lemma FindFirstAppend(docs: seq<Profile>, p: Profile, q: Query)
    requires FindFirst(docs, q).Some? || !Matches(p, q)
    ensures FindFirst(docs + [p], q) == FindFirst(docs, q)
  {
    var r := FindFirst(docs + [p], q);
    assert forall j :: 0 <= j < |docs| ==> (docs + [p])[j] == docs[j];
    if FindFirst(docs, q).Some? {
      var i := FindFirst(docs, q).value;
      assert (docs + [p])[i] == docs[i];
    }
  }

  /** Skipping documents that do not match leaves the first match unchanged. */
  lemma FindFirstFromAfterMisses(docs: seq<Profile>, q: Query, k: nat, m: nat)
    requires k <= m <= |docs|
    requires forall j :: k <= j < m ==> !Matches(docs[j], q)
    ensures FindFirstFrom(docs, q, k) == FindFirstFrom(docs, q, m)
    decreases m - k
  {
    if k < m {
      FindFirstFromAfterMisses(docs, q, k + 1, m);
    }
  }

  /** Replacing the first match by a document that still matches keeps it the first. */
  lemma FindFirstAfterUpdate(docs: seq<Profile>, i: nat, p: Profile, q: Query)
    requires FindFirst(docs, q) == Some(i) && Matches(p, q)
    ensures FindFirst(docs[i := p], q) == Some(i)
  {
    var d := docs[i := p];
    assert forall j :: 0 <= j < i ==> d[j] == docs[j];
    FindFirstFromAfterMisses(d, q, 0, i);
  }

  /** Two different documents never carry the same email (the sparse unique index). */
  predicate EmailsUnique(docs: seq<Profile>) {
    forall i, j :: 0 <= i < j < |docs| && docs[i].email.Some? ==> docs[i].email != docs[j].email
  }

  /** Some document other than the one at `except` already carries `email`. */
  predicate EmailTaken(docs: seq<Profile>, email: Option<string>, except: int) {
    email.Some? && exists j :: 0 <= j < |docs| && j != except && docs[j].email == email
  }

  const DuplicateEmailError := "E11000 duplicate key error: email"

  /** `save()` of a new document: appended unless its email is already taken. */
  function Insert(docs: seq<Profile>, p: Profile): (r: Result<seq<Profile>>)
    ensures r.Ok? <==> !EmailTaken(docs, p.email, -1)
    ensures r.Ok? ==> r.value == docs + [p]
  {
    if EmailTaken(docs, p.email, -1) then Err(DuplicateEmailError) else Ok(docs + [p])
  }

  /** `save()` of the document at position i after changing its fields. */
  function Save(docs: seq<Profile>, i: nat, p: Profile): (r: Result<seq<Profile>>)
    requires i < |docs|
    ensures r.Ok? <==> !EmailTaken(docs, p.email, i)
    ensures r.Ok? ==> r.value == docs[i := p]
  {
    if EmailTaken(docs, p.email, i) then Err(DuplicateEmailError) else Ok(docs[i := p])
  }

  lemma InsertKeepsEmailsUnique(docs: seq<Profile>, p: Profile)
    requires EmailsUnique(docs) && Insert(docs, p).Ok?
    ensures EmailsUnique(Insert(docs, p).value)
  {
    var d := docs + [p];
    forall i, j | 0 <= i < j < |d| && d[i].email.Some? ensures d[i].email != d[j].email {
      if j == |docs| {
        assert d[i] == docs[i];
        assert !EmailTaken(docs, p.email, -1);
      }
    }
  }

  lemma SaveKeepsEmailsUnique(docs: seq<Profile>, i: nat, p: Profile)
    requires EmailsUnique(docs) && i < |docs| && Save(docs, i, p).Ok?
    ensures EmailsUnique(Save(docs, i, p).value)
  {
    var d := docs[i := p];
    assert !EmailTaken(docs, p.email, i);
    forall a, b | 0 <= a < b < |d| && d[a].email.Some? ensures d[a].email != d[b].email {
      if a == i {
        assert d[b] == docs[b];
      } else if b == i {
        assert d[a] == docs[a];
      }
    }
  }

  /** Saving a document whose email is unchanged never trips the unique index while the
      index already holds. */
  lemma SaveSameEmailSucceeds(docs: seq<Profile>, i: nat, p: Profile)
    requires EmailsUnique(docs) && i < |docs| && p.email == docs[i].email
    ensures Save(docs, i, p).Ok?
  {
    forall j | 0 <= j < |docs| && j != i && p.email.Some? ensures docs[j].email != p.email {
    }
  }

  /** Inserting a document whose email no document matches succeeds. */
  lemma InsertFreshEmailSucceeds(docs: seq<Profile>, p: Profile)
    requires FindFirst(docs, EmailIs(p.email)).None?
    ensures Insert(docs, p).Ok?
  {
    forall j | 0 <= j < |docs| ensures docs[j].email != p.email {
      assert !Matches(docs[j], EmailIs(p.email));
    }
  }

  /** The collection as the server process sees it; writes replace the document list. */
  class ProfileDb {
    var docs: seq<Profile>

    constructor (initial: seq<Profile>)
      ensures docs == initial
    {
      docs := initial;
    }

    /** `new Profile(...).save()`: the id of the new document, or the index error. */
    method Create(p: Profile) returns (r: Result<nat>)
      modifies this
      ensures Insert(old(docs), p).Ok? ==> docs == old(docs) + [p] && r == Ok(|old(docs)|)
      ensures Insert(old(docs), p).Err? ==> docs == old(docs) && r == Err(DuplicateEmailError)
    {
      var res := Insert(docs, p);
      if res.Ok? {
        r := Ok(|docs|);
        docs := res.value;
      } else {
        r := Err(res.error);
      }
    }

    /** `profile.save()` after changing the fields of the document at position i. */
    method Update(i: nat, p: Profile) returns (r: Result<nat>)
      requires i < |docs|
      modifies this
      ensures Save(old(docs), i, p).Ok? ==> docs == old(docs)[i := p] && r == Ok(i)
      ensures Save(old(docs), i, p).Err? ==> docs == old(docs) && r == Err(DuplicateEmailError)
    {
      var res := Save(docs, i, p);
      if res.Ok? {
        r := Ok(i);
        docs := res.value;
      } else {
        r := Err(res.error);
      }
    }
  }
}
