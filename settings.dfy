/** `SettingsService`: the trading mode, kept in the platform preferences, and the brokerage
    credentials of both modes, kept in the secure store under per-mode names. */
module Settings {
  import opened Text
  import opened Storage

  const IsVirtualKey: string := "user_is_virtual"
  const KisRealAppKeyName: string := "kis_real_appkey"
  const KisRealSecretName: string := "kis_real_secret"
  const KisVirtualAppKeyName: string := "kis_virtual_appkey"
  const KisVirtualSecretName: string := "kis_virtual_secret"

  /** The secure-store name of a mode's app key. */
  function AppKeyName(isVirtual: bool): string
  {
    if isVirtual then KisVirtualAppKeyName else KisRealAppKeyName
  }

  /** The secure-store name of a mode's app secret. */
  function SecretName(isVirtual: bool): string
  {
    if isVirtual then KisVirtualSecretName else KisRealSecretName
  }

  /** The four credential names are pairwise distinct: each mode has its own key and
      secret, and no key name is a secret name. */
  lemma CredentialNamesDistinct(v: bool, w: bool)
    ensures AppKeyName(v) == AppKeyName(w) <==> v == w
    ensures SecretName(v) == SecretName(w) <==> v == w
    ensures AppKeyName(v) != SecretName(w)
  {
    assert KisVirtualAppKeyName[4] != KisRealAppKeyName[4];
    assert KisVirtualSecretName[4] != KisRealSecretName[4];
    assert KisVirtualAppKeyName[12] != KisVirtualSecretName[12];
    assert KisRealAppKeyName[9] != KisRealSecretName[9];
    assert |KisVirtualAppKeyName| != |KisRealSecretName|;
    assert |KisRealAppKeyName| != |KisVirtualSecretName|;
  }

  /** `SetSecureValueAsync(key, value)` on the store's entries: a null, empty or white-space
      value removes the key, any other value is stored under it; no other key changes. */
  function SetOrRemove(entries: map<string, string>, key: string, value: string): (r: map<string, string>)
    ensures IsNullOrWhiteSpace(value) ==> key !in r
    ensures !IsNullOrWhiteSpace(value) ==> key in r && r[key] == value
    ensures forall k :: k != key ==> (k in r <==> k in entries)
    ensures forall k :: k != key && k in r ==> r[k] == entries[k]
  {
    if IsNullOrWhiteSpace(value) then entries - {key} else entries[key := value]
  }

  /** Reading back what was set: the value itself, or "" after a blank value. */
  lemma SetThenGet(entries: map<string, string>, key: string, value: string)
    ensures Lookup(SetOrRemove(entries, key, value), key)
            == if IsNullOrWhiteSpace(value) then "" else value
  {
  }

  /** Setting one key leaves what every other key reads unchanged. */
  lemma SetKeepsOthers(entries: map<string, string>, key: string, value: string, other: string)
    requires other != key
    ensures Lookup(SetOrRemove(entries, key, value), other) == Lookup(entries, other)
  {
  }

  /** Setting twice is setting once. */
  lemma SetOrRemoveIdempotent(entries: map<string, string>, key: string, value: string)
    ensures SetOrRemove(SetOrRemove(entries, key, value), key, value) == SetOrRemove(entries, key, value)
  {
  }

  class SettingsService {
    /** The platform preferences (`Preferences.Default`): boolean settings by name. */
    var preferences: map<string, bool>
    /** How many times `OnSettingsChanged` has been raised. */
    var settingsChanged: nat
    /** The secure store the credentials live in. */
    const store: SecureStore

    constructor(store: SecureStore, preferences: map<string, bool>)
      ensures this.store == store && this.preferences == preferences && settingsChanged == 0
    {
      this.store := store;
      this.preferences := preferences;
      settingsChanged := 0;
    }

    /** The `IsVirtual` getter: the stored preference, virtual trading when never set. */
    function IsVirtual(): (v: bool)
      reads this
      ensures IsVirtualKey in preferences ==> v == preferences[IsVirtualKey]
      ensures IsVirtualKey !in preferences ==> v
    {
      if IsVirtualKey in preferences then preferences[IsVirtualKey] else true
    }

    /** The `IsVirtual` setter: persists the value and raises `OnSettingsChanged` once. */
    method SetIsVirtual(value: bool)
      modifies this
      ensures preferences == old(preferences)[IsVirtualKey := value]
      ensures settingsChanged == old(settingsChanged) + 1
      ensures IsVirtual() == value
    {
      preferences := preferences[IsVirtualKey := value];
      settingsChanged := settingsChanged + 1;
    }

    /** `GetSecureValueAsync(key)`. */
    method GetSecureValue(key: string) returns (v: string)
      ensures v == Lookup(store.entries, key)
    {
      v := store.Get(key);
    }

    /** `GetKisAppKeyAsync(isVirtual)`. */
    method GetKisAppKey(isVirtual: bool) returns (v: string)
      ensures v == Lookup(store.entries, if isVirtual then "kis_virtual_appkey" else "kis_real_appkey")
    {
      v := GetSecureValue(AppKeyName(isVirtual));
    }

    /** `GetKisSecretAsync(isVirtual)`. */
    method GetKisSecret(isVirtual: bool) returns (v: string)
      ensures v == Lookup(store.entries, if isVirtual then "kis_virtual_secret" else "kis_real_secret")
    {
      v := GetSecureValue(SecretName(isVirtual));
    }

    /** `SetSecureValueAsync(key, value)`. */
    method SetSecureValue(key: string, value: string)
      modifies store
      ensures store.entries == SetOrRemove(old(store.entries), key, value)
    {
      if IsNullOrWhiteSpace(value) {
        store.Remove(key);
      } else {
        store.Set(key, value);
      }
    }
  }

  /** A first launch reads as virtual trading. */
  lemma DefaultIsVirtual(s: SettingsService)
    requires IsVirtualKey !in s.preferences
    ensures s.IsVirtual()
  {
  }
}
