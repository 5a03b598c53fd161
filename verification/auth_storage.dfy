/** The browser-side login memory of src/lib/utils/authStorage.ts: one localStorage entry
    under `mycircles_auth`, stamped when stored and dropped when read after 24 hours. */
module AuthStorage {
  import opened Common

  datatype SessionType = MetaMask | PrivateKey | OAuth2

  /** What the caller hands to `storeAuthData`. */
  datatype AuthInput = AuthInput(sessionType: SessionType, privateKey: Option<string>, safeAddress: Option<string>)

  /** `AuthStorageData`: the input plus the time it was stored. */
  datatype AuthStorageData = AuthStorageData(sessionType: SessionType, privateKey: Option<string>,
                                             safeAddress: Option<string>, timestamp: int)

  /** The text held under the key, as `JSON.parse` sees it: a record, the empty string
      (treated as nothing stored) or text that does not parse to a record. */
  datatype StoredItem = Record(data: AuthStorageData) | EmptyText | Corrupt

  const StorageKey := "mycircles_auth"
  const StorageExpiresMs: int := 24 * 60 * 60 * 1000

  function Stamp(input: AuthInput, now: int): (d: AuthStorageData)
    ensures d.sessionType == input.sessionType && d.privateKey == input.privateKey
    ensures d.safeAddress == input.safeAddress && d.timestamp == now
  {
    AuthStorageData(input.sessionType, input.privateKey, input.safeAddress, now)
  }

  /** `getAuthData` as a function of the entry: the entry afterwards and the result. An
      expired or corrupt entry is removed; an empty one is left alone. */
  function GetSpec(browser: bool, slot: Option<StoredItem>, now: int): (Option<StoredItem>, Option<AuthStorageData>) {
    if !browser then (slot, None)
    else
      match slot
      case None => (None, None)
      case Some(EmptyText) => (slot, None)
      case Some(Corrupt) => (None, None)
      case Some(Record(data)) =>
        if now - data.timestamp > StorageExpiresMs then (None, None) else (slot, Some(data))
  }

  /** What was stored is read back unchanged for 24 hours, and afterwards the entry is
      gone. */
  lemma StoreThenGet(input: AuthInput, storedAt: int, now: int)
    ensures var slot := Some(Record(Stamp(input, storedAt)));
      GetSpec(true, slot, now) ==
        if now - storedAt <= StorageExpiresMs then (slot, Some(Stamp(input, storedAt))) else (None, None)
  {
  }

  /** Reading twice gives the same answer as reading once; the read only ever removes the
      entry. */
  lemma GetIdempotent(browser: bool, slot: Option<StoredItem>, now: int)
    ensures GetSpec(browser, GetSpec(browser, slot, now).0, now) == GetSpec(browser, slot, now)
    ensures GetSpec(browser, slot, now).0 == slot || GetSpec(browser, slot, now).0.None?
  {
  }

  /** A null result with a record or corrupt text stored means the entry was removed. */
  lemma NullResultClearsBadEntry(slot: Option<StoredItem>, now: int)
    requires slot.Some? && !slot.value.EmptyText?
    ensures GetSpec(true, slot, now).1.None? <==> GetSpec(true, slot, now).0.None?
  {
  }

  /** The localStorage entry of one browser tab; on the server (`browser` false) every
      operation does nothing. */
  class Store {
    const browser: bool
    var slot: Option<StoredItem>

    constructor (browser: bool, slot: Option<StoredItem>)
      ensures this.browser == browser && this.slot == slot
    {
      this.browser := browser;
      this.slot := slot;
    }

    /** `storeAuthData`: the input, stamped with the current time. */
    method StoreAuthData(input: AuthInput, now: int)
      modifies this
      ensures browser ==> slot == Some(Record(Stamp(input, now)))
      ensures !browser ==> slot == old(slot)
    {
      if !browser {
        return;
      }
      slot := Some(Record(Stamp(input, now)));
    }

    /** `clearAuthData`. */
    method ClearAuthData()
      modifies this
      ensures browser ==> slot.None?
      ensures !browser ==> slot == old(slot)
    {
      if !browser {
        return;
      }
      slot := None;
    }

    /** `getAuthData`. */
    method GetAuthData(now: int) returns (r: Option<AuthStorageData>)
      modifies this
      ensures (slot, r) == GetSpec(browser, old(slot), now)
    {
      if !browser {
        return None;
      }
      if slot.None? || slot.value.EmptyText? {
        return None;
      }
      if slot.value.Corrupt? {
        ClearAuthData();
        return None;
      }
      var data := slot.value.data;
      if now - data.timestamp > StorageExpiresMs {
        ClearAuthData();
        return None;
      }
      return Some(data);
    }

    /** `hasStoredAuthData`: a read, with the read's side effect. */
    method HasStoredAuthData(now: int) returns (b: bool)
      modifies this
      ensures b <==> GetSpec(browser, old(slot), now).1.Some?
      ensures slot == GetSpec(browser, old(slot), now).0
    {
      var data := GetAuthData(now);
      b := data.Some?;
    }
  }
}
