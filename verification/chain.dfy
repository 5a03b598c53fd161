/** Everything the authentication code asks of the blockchain libraries and the Safe
    transaction service, as one record of uninterpreted functions, and the result shaping
    the services wrap around it. */
module Chain {
  import opened Common

  /** What the owner endpoint of the Safe transaction service answers: a failed request
      (network error or non-2xx status), or a body whose `safes` field may be absent. */
  datatype RegistryReply = Unreachable | Listed(safes: Option<seq<string>>)

  datatype Oracles = Oracles(
    /** `ethers.getAddress`: the checksummed form, or `None` when it throws. */
    checksum: string -> Option<string>,
    /** The Safe transaction service, queried with a checksummed owner address. */
    registry: string -> RegistryReply,
    /** `new ethers.Wallet(key).address`, or `None` when the key is rejected. */
    ownerOf: string -> Option<string>,
    /** `ethers.verifyMessage(message, signature)`, or `None` when it throws. */
    recover: (string, string) -> Option<string>,
    /** protocol-kit `isValidSignature(hashSafeMessage(message), signature)` for a Safe;
        a thrown error counts as false, as every caller catches it. */
    safeSigValid: (string, string, string) -> bool,
    /** protocol-kit `signMessage` by `key` for the Safe at `safe`, encoded; `None` when
        initialisation or signing throws. Arguments: key, safe, message. */
    safeSign: (string, string, string) -> Option<string>)

  /** `getAddress` only checks the checksum of mixed-case input: whenever it accepts two
      spellings of the same address it returns the same checksummed form. */
  ghost predicate CaseInsensitiveChecksum(o: Oracles) {
    forall a, b :: o.checksum(a).Some? && o.checksum(b).Some? && Lower(a) == Lower(b)
      ==> o.checksum(a) == o.checksum(b)
  }

  /** `/^0x[a-fA-F0-9]{64}$/`. */
  predicate KeyFormatValid(key: string) {
    |key| == 66 && key[0] == '0' && key[1] == 'x' && forall i :: 2 <= i < 66 ==> IsHexDigit(key[i])
  }

  lemma KeyFormatExamples()
    ensures !KeyFormatValid("")
    ensures !KeyFormatValid("0x")
    ensures KeyFormatValid("0x" + seq(64, _ => 'a'))
    ensures !KeyFormatValid("0X" + seq(64, _ => 'a'))
  {
    var k := "0x" + seq(64, _ => 'a');
    assert forall i :: 2 <= i < 66 ==> k[i] == 'a';
    assert ("0X" + seq(64, _ => 'a'))[1] == 'X';
  }

  /** `SafeApiService.getSafesForOwner`: the listed Safes, `[]` when the field is absent,
      and a thrown error when the address is malformed or the service fails. */
  function SafesForOwnerOrThrow(o: Oracles, owner: string): (r: Result<seq<string>>)
    ensures r.Err? <==> o.checksum(owner).None? || o.registry(o.checksum(owner).value).Unreachable?
    ensures r.Ok? ==> r.value == o.registry(o.checksum(owner).value).safes.GetOr([])
  {
    match o.checksum(owner)
    case None => Err("Failed to fetch Safe addresses: bad address checksum")
    case Some(c) =>
      match o.registry(c)
      case Unreachable => Err("Failed to fetch Safe addresses: Safe API error")
      case Listed(safes) => Ok(safes.GetOr([]))
  }

  /** `getSafeAddressesForOwner` of the Safe authentication service: the same lookup, but
      every failure is reported as owning no Safe at all. */
  function SafesForOwner(o: Oracles, owner: string): (r: seq<string>)
    ensures SafesForOwnerOrThrow(o, owner).Ok? ==> r == SafesForOwnerOrThrow(o, owner).value
    ensures SafesForOwnerOrThrow(o, owner).Err? ==> r == []
  {
    match SafesForOwnerOrThrow(o, owner)
    case Ok(safes) => safes
    case Err(_) => []
  }

  /** `list.map(s => s.toLowerCase())`. */
  function LowerAll(list: seq<string>): (r: seq<string>)
    ensures |r| == |list| && forall i :: 0 <= i < |list| ==> r[i] == Lower(list[i])
  {
    seq(|list|, i requires 0 <= i < |list| => Lower(list[i]))
  }

  /** `list.map(s => s.toLowerCase()).includes(x.toLowerCase())`. */
  predicate IncludesCaseless(list: seq<string>, x: string) {
    Lower(x) in LowerAll(list)
  }

  /** Case-insensitive membership means some entry spells x up to case. */
  lemma IncludesCaselessMeans(list: seq<string>, x: string)
    ensures IncludesCaseless(list, x) <==> exists i :: 0 <= i < |list| && Lower(list[i]) == Lower(x)
  {
    if IncludesCaseless(list, x) {
      var i :| 0 <= i < |list| && LowerAll(list)[i] == Lower(x);
      assert Lower(list[i]) == Lower(x);
    }
  }

  /** Re-casing the address looked for, or any entry of the list, changes nothing. */
  lemma IncludesCaselessRecase(list: seq<string>, list': seq<string>, x: string, x': string)
    requires |list| == |list'| && forall i :: 0 <= i < |list| ==> Lower(list[i]) == Lower(list'[i])
    requires Lower(x) == Lower(x')
    ensures IncludesCaseless(list, x) <==> IncludesCaseless(list', x')
  {
    assert LowerAll(list) == LowerAll(list');
  }

  /** Every entry is found, in any casing. */
  lemma IncludesCaselessMember(list: seq<string>, i: nat, x: string)
    requires i < |list| && Lower(x) == Lower(list[i])
    ensures IncludesCaseless(list, x)
  {
    assert LowerAll(list)[i] == Lower(x);
  }

  /** Two spellings of an owner that `getAddress` both accepts reach the same registry
      entry, so every lookup answers the same for both. */
  lemma SafesForOwnerRecase(o: Oracles, a: string, b: string)
    requires CaseInsensitiveChecksum(o)
    requires o.checksum(a).Some? && o.checksum(b).Some? && Lower(a) == Lower(b)
    ensures SafesForOwnerOrThrow(o, a) == SafesForOwnerOrThrow(o, b)
    ensures SafesForOwner(o, a) == SafesForOwner(o, b)
  {
  }
}
