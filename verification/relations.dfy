/** The trust-relation/profile join: src/lib/server/relations.ts (exact addresses) and the
    GET handler of src/routes/api/circles/relations/+server.ts (lower-cased addresses). The
    Circles RPC is a parameter; the profiles come from the Profile collection. */
module Relations {
  import opened Common
  import opened Profiles

  /** One aggregated trust relation as the Circles RPC reports it. */
  datatype RelationItem = RelationItem(subjectAvatar: string, objectAvatar: string, relation: string)

  /** The projection `{safeAddress, username, profileId}` of a fetched profile. */
  datatype ProfileRef = ProfileRef(safeAddress: string, username: Option<string>, profileId: string)

  /** An output entry; `profile` is `None` where the source leaves it undefined. */
  datatype Joined = Joined(relationItem: RelationItem, profile: Option<ProfileRef>)

  /** `getAggregatedTrustRelations(address, 2)`. */
  type TrustRpc = (string, int) -> Result<seq<RelationItem>>

  const TrustQueryArg := 2

  /** `Profile.find({ safeAddress: { $in: avatars } })` from position k on, in natural order. */
  function FetchFrom(docs: seq<Profile>, avatars: seq<string>, k: nat): (r: seq<ProfileRef>)
    requires k <= |docs|
    ensures forall p :: p in r ==> p.safeAddress in avatars
    ensures forall p :: p in r ==> exists i :: (k <= i < |docs| && docs[i].safeAddress == Some(p.safeAddress)
      && p == ProfileRef(docs[i].safeAddress.value, docs[i].username, IdText(i)))
    ensures forall i :: k <= i < |docs| && docs[i].safeAddress.Some? && docs[i].safeAddress.value in avatars ==>
      ProfileRef(docs[i].safeAddress.value, docs[i].username, IdText(i)) in r
    decreases |docs| - k
  {
    if k == |docs| then []
    else
      var rest := FetchFrom(docs, avatars, k + 1);
      if docs[k].safeAddress.Some? && docs[k].safeAddress.value in avatars then
        var head := ProfileRef(docs[k].safeAddress.value, docs[k].username, IdText(k));
        assert forall p :: p in [head] + rest ==> p == head || p in rest;
        [head] + rest
      else rest
  }

  function Fetch(docs: seq<Profile>, avatars: seq<string>): seq<ProfileRef> {
    FetchFrom(docs, avatars, 0)
  }

  /** A lookup in `Object.fromEntries(refs.map(p => [p.safeAddress, p]))`: the last entry
      with the key wins. */
  function Lookup(refs: seq<ProfileRef>, key: string): (r: Option<ProfileRef>)
    ensures r.None? <==> forall p :: p in refs ==> p.safeAddress != key
    ensures r.Some? ==> (r.value.safeAddress == key
                         && exists i :: 0 <= i < |refs| && refs[i] == r.value
                                        && forall j :: i < j < |refs| ==> refs[j].safeAddress != key)
  {
    if refs == [] then None
    else if refs[|refs| - 1].safeAddress == key then
      assert refs[|refs| - 1] in refs;
      Some(refs[|refs| - 1])
    else
      var init := refs[..|refs| - 1];
      var r := Lookup(init, key);
      assert forall p :: p in refs ==> p in init || p == refs[|refs| - 1];
      if r.Some? then
        var i :| 0 <= i < |init| && init[i] == r.value && forall j :: i < j < |init| ==> init[j].safeAddress != key;
        assert refs[i] == r.value;
        r
      else r
  }

  /** One entry per relation, in order, with the profile found under `key(objectAvatar)`. */
  function Join(relations: seq<RelationItem>, refs: seq<ProfileRef>, key: string -> string): (r: seq<Joined>)
    ensures |r| == |relations|
    ensures forall i :: 0 <= i < |r| ==> r[i].relationItem == relations[i]
    ensures forall i :: 0 <= i < |r| ==> r[i].profile == Lookup(refs, key(relations[i].objectAvatar))
  {
    seq(|relations|, i requires 0 <= i < |relations| => Joined(relations[i], Lookup(refs, key(relations[i].objectAvatar))))
  }

  function Avatars(relations: seq<RelationItem>, key: string -> string): (r: seq<string>)
    ensures |r| == |relations| && forall i :: 0 <= i < |r| ==> r[i] == key(relations[i].objectAvatar)
  {
    seq(|relations|, i requires 0 <= i < |relations| => key(relations[i].objectAvatar))
  }

  function Exact(s: string): string { s }

  function LowerKey(s: string): string { Lower(s) }

  /** `getFilteredRelationsWithProfiles`: every failure (an undefined address, the RPC, the
      profile query) yields the empty list. */
  function GetFilteredRelationsWithProfiles(rpc: TrustRpc, profiles: Result<seq<Profile>>,
                                            address: Option<string>): (r: seq<Joined>)
    ensures address.None? || rpc(Lower(address.value), TrustQueryArg).Err? || profiles.Err? ==> r == []
    ensures address.Some? && rpc(Lower(address.value), TrustQueryArg).Ok? && profiles.Ok? ==>
      var rels := rpc(Lower(address.value), TrustQueryArg).value;
      r == Join(rels, Fetch(profiles.value, Avatars(rels, Exact)), Exact)
  {
    if address.None? then []
    else
      match rpc(Lower(address.value), TrustQueryArg)
      case Err(_) => []
      case Ok(rels) =>
        match profiles
        case Err(_) => []
        case Ok(docs) => Join(rels, Fetch(docs, Avatars(rels, Exact)), Exact)
  }

  /** The profile found for a key queried among the fetched profiles is exactly a stored
      profile with that address. */
  lemma {:induction false} FetchedLookup(docs: seq<Profile>, avatars: seq<string>, key: string, k: nat)
    requires key in avatars && k <= |docs|
    ensures Lookup(FetchFrom(docs, avatars, k), key).Some? <==> exists i :: k <= i < |docs| && docs[i].safeAddress == Some(key)
  {
    var r := Lookup(FetchFrom(docs, avatars, k), key);
    if exists i :: k <= i < |docs| && docs[i].safeAddress == Some(key) {
      var i :| k <= i < |docs| && docs[i].safeAddress == Some(key);
      assert ProfileRef(key, docs[i].username, IdText(i)) in FetchFrom(docs, avatars, k);
    }
  }

  /** Looking up in a list with one more entry in front: the rest's answer wins, and the
      new entry is found only when the rest has no entry with the key. */
  lemma {:induction false} LookupCons(h: ProfileRef, rest: seq<ProfileRef>, key: string)
    ensures Lookup([h] + rest, key) ==
      if Lookup(rest, key).Some? then Lookup(rest, key)
      else if h.safeAddress == key then Some(h) else None
    decreases |rest|
  {
    var refs := [h] + rest;
    if rest != [] {
      assert refs[|refs| - 1] == rest[|rest| - 1];
      if rest[|rest| - 1].safeAddress != key {
        assert refs[..|refs| - 1] == [h] + rest[..|rest| - 1];
        LookupCons(h, rest[..|rest| - 1], key);
      }
    }
  }

  /** Document d is the last stored document with address key. */
  predicate LastStoredAt(docs: seq<Profile>, key: string, d: nat) {
    d < |docs| && docs[d].safeAddress == Some(key)
    && forall e :: d < e < |docs| ==> docs[e].safeAddress != Some(key)
  }

  /** A key found among the profiles fetched from position k on is the profile of the last
      stored document with that address. */
  lemma {:induction false} LastFetchedWins(docs: seq<Profile>, avatars: seq<string>, key: string, k: nat)
    requires key in avatars && k <= |docs|
    ensures Lookup(FetchFrom(docs, avatars, k), key).Some? ==>
      exists d :: k <= d && LastStoredAt(docs, key, d)
        && Lookup(FetchFrom(docs, avatars, k), key).value == ProfileRef(key, docs[d].username, IdText(d))
    decreases |docs| - k
  {
    var found := Lookup(FetchFrom(docs, avatars, k), key);
    if k < |docs| && found.Some? {
      var rest := FetchFrom(docs, avatars, k + 1);
      if docs[k].safeAddress.Some? && docs[k].safeAddress.value in avatars {
        var head := ProfileRef(docs[k].safeAddress.value, docs[k].username, IdText(k));
        assert FetchFrom(docs, avatars, k) == [head] + rest;
        LookupCons(head, rest, key);
        if Lookup(rest, key).None? {
          LastIsHead(docs, avatars, key, k);
          assert found.value == ProfileRef(key, docs[k].username, IdText(k));
        } else {
          LastFetchedWins(docs, avatars, key, k + 1);
          var d :| k + 1 <= d && LastStoredAt(docs, key, d)
            && Lookup(rest, key).value == ProfileRef(key, docs[d].username, IdText(d));
          assert found == Lookup(rest, key);
        }
      } else {
        LastFetchedWins(docs, avatars, key, k + 1);
      }
    }
  }

  /** When nothing after k is found, a hit at k is the last stored document. */
  lemma LastIsHead(docs: seq<Profile>, avatars: seq<string>, key: string, k: nat)
    requires key in avatars && k < |docs|
    requires Lookup(FetchFrom(docs, avatars, k + 1), key).None?
    requires Lookup(FetchFrom(docs, avatars, k), key).Some?
    ensures LastStoredAt(docs, key, k)
  {
    FetchedLookup(docs, avatars, key, k + 1);
    FetchedLookup(docs, avatars, key, k);
  }

  /** Every relation is kept, in order and unchanged; a profile is attached exactly when a
      stored profile's address equals the relation's `objectAvatar`, case included. */
  lemma LibJoinExact(rpc: TrustRpc, docs: seq<Profile>, address: string)
    requires rpc(Lower(address), TrustQueryArg).Ok?
    ensures var rels := rpc(Lower(address), TrustQueryArg).value;
      var r := GetFilteredRelationsWithProfiles(rpc, Ok(docs), Some(address));
      |r| == |rels|
      && (forall i :: 0 <= i < |r| ==> r[i].relationItem == rels[i])
      && (forall i :: 0 <= i < |r| ==>
            (r[i].profile.Some? <==> exists d :: 0 <= d < |docs| && docs[d].safeAddress == Some(rels[i].objectAvatar)))
      && (forall i :: 0 <= i < |r| && r[i].profile.Some? ==>
            exists d :: 0 <= d < |docs| && docs[d].safeAddress == Some(rels[i].objectAvatar)
              && r[i].profile.value == ProfileRef(rels[i].objectAvatar, docs[d].username, IdText(d))
              && forall e :: d < e < |docs| ==> docs[e].safeAddress != Some(rels[i].objectAvatar))
  {
    var rels := rpc(Lower(address), TrustQueryArg).value;
    var avatars := Avatars(rels, Exact);
    forall i | 0 <= i < |rels|
      ensures Lookup(Fetch(docs, avatars), rels[i].objectAvatar).Some? <==>
        exists d :: 0 <= d < |docs| && docs[d].safeAddress == Some(rels[i].objectAvatar)
      ensures Lookup(Fetch(docs, avatars), rels[i].objectAvatar).Some? ==>
        exists d :: 0 <= d < |docs| && docs[d].safeAddress == Some(rels[i].objectAvatar)
          && Lookup(Fetch(docs, avatars), rels[i].objectAvatar).value
             == ProfileRef(rels[i].objectAvatar, docs[d].username, IdText(d))
          && forall e :: d < e < |docs| ==> docs[e].safeAddress != Some(rels[i].objectAvatar)
    {
      assert avatars[i] == rels[i].objectAvatar;
      FetchedLookup(docs, avatars, rels[i].objectAvatar, 0);
      LastFetchedWins(docs, avatars, rels[i].objectAvatar, 0);
    }
  }

  datatype RouteBody =
    | Failure(success: Option<bool>, error: string)
    | Listing(entries: seq<Joined>)

  datatype RouteResponse = RouteResponse(status: nat, body: RouteBody)

  const NoAddress := "No address provided"

  /** The GET handler: the `address` query parameter, the RPC, and the profile query (or
      its error). Lookups use the lower-cased `objectAvatar`. */
  function Get(rpc: TrustRpc, profiles: Result<seq<Profile>>, address: Option<string>): (r: RouteResponse)
    ensures !Truthy(address) ==> r == RouteResponse(400, Failure(Some(false), NoAddress))
    ensures Truthy(address) && rpc(Lower(address.value), TrustQueryArg).Err? ==>
      r == RouteResponse(400, Failure(None, rpc(Lower(address.value), TrustQueryArg).error))
    ensures Truthy(address) && rpc(Lower(address.value), TrustQueryArg).Ok? && profiles.Err? ==>
      r == RouteResponse(400, Failure(None, profiles.error))
    ensures r.status == 200 <==> Truthy(address) && rpc(Lower(address.value), TrustQueryArg).Ok? && profiles.Ok?
    ensures r.status == 200 ==> r.body.Listing? && |r.body.entries| == |rpc(Lower(address.value), TrustQueryArg).value|
  {
    if !Truthy(address) then RouteResponse(400, Failure(Some(false), NoAddress))
    else
      match rpc(Lower(address.value), TrustQueryArg)
      case Err(e) => RouteResponse(400, Failure(None, e))
      case Ok(rels) =>
        match profiles
        case Err(e) => RouteResponse(400, Failure(None, e))
        case Ok(docs) => RouteResponse(200, Listing(Join(rels, Fetch(docs, Avatars(rels, LowerKey)), LowerKey)))
  }

  /** The route attaches a profile exactly when one is stored under the lower-cased
      `objectAvatar`; every relation is kept, in order. */
  lemma RouteJoinLowercased(rpc: TrustRpc, docs: seq<Profile>, address: string)
    requires address != "" && rpc(Lower(address), TrustQueryArg).Ok?
    ensures var rels := rpc(Lower(address), TrustQueryArg).value;
      var r := Get(rpc, Ok(docs), Some(address));
      r.status == 200
      && (forall i :: 0 <= i < |rels| ==> r.body.entries[i].relationItem == rels[i])
      && (forall i :: 0 <= i < |rels| ==>
            (r.body.entries[i].profile.Some? <==>
              exists d :: 0 <= d < |docs| && docs[d].safeAddress == Some(Lower(rels[i].objectAvatar))))
      && (forall i :: 0 <= i < |rels| && r.body.entries[i].profile.Some? ==>
            exists d :: 0 <= d < |docs| && docs[d].safeAddress == Some(Lower(rels[i].objectAvatar))
              && r.body.entries[i].profile.value == ProfileRef(Lower(rels[i].objectAvatar), docs[d].username, IdText(d))
              && forall e :: d < e < |docs| ==> docs[e].safeAddress != Some(Lower(rels[i].objectAvatar)))
  {
    var rels := rpc(Lower(address), TrustQueryArg).value;
    var avatars := Avatars(rels, LowerKey);
    forall i | 0 <= i < |rels|
      ensures Lookup(Fetch(docs, avatars), Lower(rels[i].objectAvatar)).Some? <==>
        exists d :: 0 <= d < |docs| && docs[d].safeAddress == Some(Lower(rels[i].objectAvatar))
      ensures Lookup(Fetch(docs, avatars), Lower(rels[i].objectAvatar)).Some? ==>
        exists d :: 0 <= d < |docs| && docs[d].safeAddress == Some(Lower(rels[i].objectAvatar))
          && Lookup(Fetch(docs, avatars), Lower(rels[i].objectAvatar)).value
             == ProfileRef(Lower(rels[i].objectAvatar), docs[d].username, IdText(d))
          && forall e :: d < e < |docs| ==> docs[e].safeAddress != Some(Lower(rels[i].objectAvatar))
    {
      assert avatars[i] == Lower(rels[i].objectAvatar);
      FetchedLookup(docs, avatars, Lower(rels[i].objectAvatar), 0);
      LastFetchedWins(docs, avatars, Lower(rels[i].objectAvatar), 0);
    }
  }

  /** The two joins differ on checksummed addresses: a profile stored under the lower-cased
      address is found by the route and missed by the library function. */
  lemma CaseSensitivityDiffers(rpc: TrustRpc, p: Profile, address: string, rel: RelationItem)
    requires address != "" && rpc(Lower(address), TrustQueryArg) == Ok([rel])
    requires rel.objectAvatar != Lower(rel.objectAvatar) && p.safeAddress == Some(Lower(rel.objectAvatar))
    ensures GetFilteredRelationsWithProfiles(rpc, Ok([p]), Some(address))[0].profile.None?
    ensures Get(rpc, Ok([p]), Some(address)).body.entries[0].profile.Some?
  {
    var o := rel.objectAvatar;
    assert Avatars([rel], Exact) == [o];
    assert FetchFrom([p], [o], 1) == [];
    assert Fetch([p], [o]) == [];
    assert Avatars([rel], LowerKey) == [Lower(o)];
    var found := ProfileRef(Lower(o), p.username, IdText(0));
    assert FetchFrom([p], [Lower(o)], 1) == [];
    assert p.safeAddress.value in [Lower(o)];
    assert Fetch([p], [Lower(o)]) == [found];
    assert Lookup([found], Lower(o)) == Some(found);
  }
}
