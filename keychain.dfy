/** `KeychainService`: the app's persistent key-value store. The platform
    keychain is modelled as a map from account names to UTF-8 strings. */
module Keychain {
  import opened Common
  import opened Avatars

  const TokenKey: string := "com.mvp.authToken"
  const AvatarKey: string := "com.mvp.selectedAvatar"
  const SeenAvatarSelectionKey: string := "com.mvp.hasSeenAvatarSelection"
  const LastEmailKey: string := "com.mvp.lastEmail"
  const DeviceIdKey: string := "com.mvp.deviceId"

  /** The five accounts are distinct, so writing one never disturbs another. */
  lemma KeysDistinct()
    ensures TokenKey != AvatarKey && TokenKey != SeenAvatarSelectionKey && TokenKey != LastEmailKey
    ensures TokenKey != DeviceIdKey && AvatarKey != SeenAvatarSelectionKey && AvatarKey != LastEmailKey
    ensures AvatarKey != DeviceIdKey && SeenAvatarSelectionKey != LastEmailKey
    ensures SeenAvatarSelectionKey != DeviceIdKey && LastEmailKey != DeviceIdKey
  {
    assert TokenKey[8] != AvatarKey[8] && TokenKey[8] != SeenAvatarSelectionKey[8];
    assert TokenKey[8] != LastEmailKey[8] && TokenKey[8] != DeviceIdKey[8];
    assert AvatarKey[8] != LastEmailKey[8] && AvatarKey[8] != DeviceIdKey[8];
    assert SeenAvatarSelectionKey[8] != LastEmailKey[8] && SeenAvatarSelectionKey[8] != DeviceIdKey[8];
    assert LastEmailKey[8] != DeviceIdKey[8];
    assert |AvatarKey| != |SeenAvatarSelectionKey|;
  }

  class KeychainService {
    /** The stored items, by account name. */
    var items: map<string, string>
    /** The accounts written to (added or deleted), oldest first. */
    ghost var writes: seq<string>

    constructor (initial: map<string, string>)
      ensures items == initial && writes == []
    {
      items := initial;
      writes := [];
    }

    /** `load(key:)`: the stored string, or nil when the account is absent. */
    function Load(key: string): (r: Option<string>)
      reads this
      ensures r.Some? <==> key in items
      ensures r.Some? ==> r.value == items[key]
    {
      if key in items then Some(items[key]) else None
    }

    /** `delete(key:)`. */
    method Delete(key: string)
      modifies this
      ensures items == old(items) - {key}
      ensures writes == old(writes) + [key]
    {
      items := items - {key};
      writes := writes + [key];
    }

    /** `save(key:value:)` deletes the account and adds it again, so the new
        value replaces any old one. */
    method Save(key: string, value: string)
      modifies this
      ensures items == old(items)[key := value]
      ensures Load(key) == Some(value)
      ensures forall k :: k != key ==> Load(k) == old(Load(k))
      ensures writes == old(writes) + [key, key]
    {
      Delete(key);
      items := items[key := value];
      writes := writes + [key];
    }

    method SaveToken(token: string)
      modifies this
      ensures items == old(items)[TokenKey := token]
      ensures GetToken() == Some(token)
      ensures writes == old(writes) + [TokenKey, TokenKey]
    {
      Save(TokenKey, token);
    }

    function GetToken(): (r: Option<string>)
      reads this
      ensures r.Some? <==> TokenKey in items
      ensures r.Some? ==> r.value == items[TokenKey]
    {
      Load(TokenKey)
    }

    method RemoveToken()
      modifies this
      ensures items == old(items) - {TokenKey}
      ensures GetToken() == None
      ensures writes == old(writes) + [TokenKey]
    {
      Delete(TokenKey);
    }

    /** Stores the avatar's raw value and marks the selection screen as seen. */
    method SaveSelectedAvatar(avatar: AvatarType)
      modifies this
      ensures items == old(items)[AvatarKey := RawValue(avatar)][SeenAvatarSelectionKey := "1"]
      ensures GetSelectedAvatar() == Some(avatar) && HasSeenAvatarSelection()
      ensures writes == old(writes) + [AvatarKey, AvatarKey, SeenAvatarSelectionKey, SeenAvatarSelectionKey]
    {
      KeysDistinct();
      Save(AvatarKey, RawValue(avatar));
      Save(SeenAvatarSelectionKey, "1");
    }

    /** The stored avatar, or nil when none is stored or the stored string is
        not the raw value of an avatar. */
    function GetSelectedAvatar(): (r: Option<AvatarType>)
      reads this
      ensures r.Some? <==> AvatarKey in items && (items[AvatarKey] == "male" || items[AvatarKey] == "female")
      ensures r.Some? ==> RawValue(r.value) == items[AvatarKey]
    {
      match Load(AvatarKey)
      case None => None
      case Some(raw) => FromRawValue(raw)
    }

    /** The flag counts as set whatever string is stored under it. */
    function HasSeenAvatarSelection(): (r: bool)
      reads this
      ensures r <==> SeenAvatarSelectionKey in items
    {
      Load(SeenAvatarSelectionKey).Some?
    }

    method MarkAvatarAsSelected()
      modifies this
      ensures items == old(items)[SeenAvatarSelectionKey := "1"]
      ensures HasSeenAvatarSelection()
      ensures writes == old(writes) + [SeenAvatarSelectionKey, SeenAvatarSelectionKey]
    {
      Save(SeenAvatarSelectionKey, "1");
    }

    /** Sign-out: only the token is removed; the avatar, the flag, the last
        e-mail and the device identifier survive. */
    method ClearAll()
      modifies this
      ensures items == old(items) - {TokenKey}
      ensures GetToken() == None
      ensures GetSelectedAvatar() == old(GetSelectedAvatar())
      ensures HasSeenAvatarSelection() == old(HasSeenAvatarSelection())
      ensures GetLastEmail() == old(GetLastEmail())
      ensures Load(DeviceIdKey) == old(Load(DeviceIdKey))
      ensures writes == old(writes) + [TokenKey]
    {
      KeysDistinct();
      RemoveToken();
    }

    method SaveLastEmail(email: string)
      modifies this
      ensures items == old(items)[LastEmailKey := email]
      ensures GetLastEmail() == Some(email)
      ensures writes == old(writes) + [LastEmailKey, LastEmailKey]
    {
      Save(LastEmailKey, email);
    }

    function GetLastEmail(): (r: Option<string>)
      reads this
      ensures r.Some? <==> LastEmailKey in items
      ensures r.Some? ==> r.value == items[LastEmailKey]
    {
      Load(LastEmailKey)
    }

    /** Returns the stored device identifier; only when there is none does it
        store and return `newId` (the fresh `UUID().uuidString`). */
    method GetOrCreateDeviceId(newId: string) returns (id: string)
      modifies this
      ensures old(DeviceIdKey in items) ==> id == old(items[DeviceIdKey]) && items == old(items) && writes == old(writes)
      ensures old(DeviceIdKey !in items) ==>
                id == newId && items == old(items)[DeviceIdKey := newId] && writes == old(writes) + [DeviceIdKey, DeviceIdKey]
      ensures Load(DeviceIdKey) == Some(id)
    {
      var existing := Load(DeviceIdKey);
      if existing.Some? {
        return existing.value;
      }
      Save(DeviceIdKey, newId);
      id := newId;
    }
  }

  /** Asking twice for the device identifier gives the same answer, and the
      second request writes nothing. */
  method DeviceIdIsStable(store: KeychainService, firstId: string, secondId: string)
    returns (a: string, b: string)
    modifies store
    ensures a == b
    ensures store.Load(DeviceIdKey) == Some(a)
    ensures old(DeviceIdKey in store.items) ==> store.writes == old(store.writes) && store.items == old(store.items)
    ensures old(DeviceIdKey !in store.items) ==>
              a == firstId && store.items == old(store.items)[DeviceIdKey := firstId]
              && store.writes == old(store.writes) + [DeviceIdKey, DeviceIdKey]
  {
    a := store.GetOrCreateDeviceId(firstId);
    ghost var writesBefore := store.writes;
    b := store.GetOrCreateDeviceId(secondId);
    assert store.writes == writesBefore;
  }
}
