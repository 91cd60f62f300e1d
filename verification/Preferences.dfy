/** The demo app's persisted settings, kept as strings in a key/value store (the browser's localStorage). */
module Preferences {
  import opened Wrappers

  const AppIdKey: string := "onesignal.demo.appId"
  const ConsentRequiredKey: string := "onesignal.demo.consentRequired"
  const ConsentGivenKey: string := "onesignal.demo.consentGiven"
  const ExternalIdKey: string := "onesignal.demo.externalUserId"
  const LocationSharedKey: string := "onesignal.demo.locationShared"
  const IamPausedKey: string := "onesignal.demo.iamPaused"

  const DefaultAppId: string := "77e32082-ea27-42e3-a898-c72e141824ef"

  type Store = map<string, string>

  /** `String(b)`. */
  function BoolText(b: bool): string {
    if b then "true" else "false"
  }

  /** `readBoolean(key, fallback)`: the fallback when the key is absent, else whether the text is exactly "true". */
  function ReadBoolean(store: Store, key: string, fallback: bool): bool {
    if key !in store then fallback else store[key] == "true"
  }

  /** `readBoolean` reads back what `String(b)` stored, and anything other than "true" reads as false. */
  lemma ReadBooleanSpec(store: Store, key: string, fallback: bool, b: bool)
    ensures ReadBoolean(store[key := BoolText(b)], key, fallback) == b
    ensures key !in store ==> ReadBoolean(store, key, fallback) == fallback
    ensures key in store && store[key] != "true" ==> !ReadBoolean(store, key, fallback)
  {
  }

  /** The six keys are distinct, so each setter leaves the others' values alone. */
  lemma KeysDistinct()
    ensures |{AppIdKey, ConsentRequiredKey, ConsentGivenKey, ExternalIdKey, LocationSharedKey, IamPausedKey}| == 6
  {
    assert AppIdKey[17] != ConsentRequiredKey[17];
    assert ConsentRequiredKey[24] != ConsentGivenKey[24];
    assert AppIdKey[17] != ExternalIdKey[17] && AppIdKey[17] != LocationSharedKey[17] && AppIdKey[17] != IamPausedKey[17];
    assert ConsentRequiredKey[17] != ExternalIdKey[17] && ConsentRequiredKey[17] != LocationSharedKey[17];
    assert ConsentRequiredKey[17] != IamPausedKey[17] && ConsentGivenKey[17] != ExternalIdKey[17];
    assert ConsentGivenKey[17] != LocationSharedKey[17] && ConsentGivenKey[17] != IamPausedKey[17];
    assert ExternalIdKey[17] != LocationSharedKey[17] && ExternalIdKey[17] != IamPausedKey[17];
    assert LocationSharedKey[17] != IamPausedKey[17];
  }

  class PreferencesService {
    var store: Store

    constructor (store: Store)
      ensures this.store == store
    {
      this.store := store;
    }

    /** `getAppId()`: the stored id, or the default when none is stored. */
    function GetAppId(): (r: string)
      reads this
      ensures AppIdKey in store ==> r == store[AppIdKey]
      ensures AppIdKey !in store ==> r == DefaultAppId
    {
      if AppIdKey in store then store[AppIdKey] else DefaultAppId
    }

    method SetAppId(value: string)
      modifies this
      ensures store == old(store)[AppIdKey := value]
      ensures GetAppId() == value
    {
      store := store[AppIdKey := value];
    }

    /** True exactly when the stored text is "true"; false when nothing is stored. */
    function GetConsentRequired(): (r: bool)
      reads this
      ensures r <==> ConsentRequiredKey in store && store[ConsentRequiredKey] == "true"
    {
      ReadBoolean(store, ConsentRequiredKey, false)
    }

    method SetConsentRequired(value: bool)
      modifies this
      ensures store == old(store)[ConsentRequiredKey := BoolText(value)]
      ensures GetConsentRequired() == value
    {
      store := store[ConsentRequiredKey := BoolText(value)];
    }

    /** True exactly when the stored text is "true"; false when nothing is stored. */
    function GetConsentGiven(): (r: bool)
      reads this
      ensures r <==> ConsentGivenKey in store && store[ConsentGivenKey] == "true"
    {
      ReadBoolean(store, ConsentGivenKey, false)
    }

    method SetConsentGiven(value: bool)
      modifies this
      ensures store == old(store)[ConsentGivenKey := BoolText(value)]
      ensures GetConsentGiven() == value
    {
      store := store[ConsentGivenKey := BoolText(value)];
    }

    /** `getExternalUserId()`: the stored text, or null (`None`) when the key is absent. */
    function GetExternalUserId(): (r: Option<string>)
      reads this
      ensures r.Some? <==> ExternalIdKey in store
      ensures r.Some? ==> r.value == store[ExternalIdKey]
    {
      if ExternalIdKey in store then Some(store[ExternalIdKey]) else None
    }

    /** `setExternalUserId(value)`: null removes the key, a string is stored. */
    method SetExternalUserId(value: Option<string>)
      modifies this
      ensures value.None? ==> store == old(store) - {ExternalIdKey}
      ensures value.Some? ==> store == old(store)[ExternalIdKey := value.value]
      ensures GetExternalUserId() == value
    {
      if value.None? {
        store := store - {ExternalIdKey};
        return;
      }
      store := store[ExternalIdKey := value.value];
    }

    /** True exactly when the stored text is "true"; false when nothing is stored. */
    function GetLocationShared(): (r: bool)
      reads this
      ensures r <==> LocationSharedKey in store && store[LocationSharedKey] == "true"
    {
      ReadBoolean(store, LocationSharedKey, false)
    }

    method SetLocationShared(value: bool)
      modifies this
      ensures store == old(store)[LocationSharedKey := BoolText(value)]
      ensures GetLocationShared() == value
    {
      store := store[LocationSharedKey := BoolText(value)];
    }

    /** True exactly when the stored text is "true"; false when nothing is stored. */
    function GetIamPaused(): (r: bool)
      reads this
      ensures r <==> IamPausedKey in store && store[IamPausedKey] == "true"
    {
      ReadBoolean(store, IamPausedKey, false)
    }

    method SetIamPaused(value: bool)
      modifies this
      ensures store == old(store)[IamPausedKey := BoolText(value)]
      ensures GetIamPaused() == value
    {
      store := store[IamPausedKey := BoolText(value)];
    }
  }

  /** Until an app id is stored, the default id is read; after that, the stored one. */
  lemma AppIdDefault(p: PreferencesService)
    ensures AppIdKey !in p.store ==> p.GetAppId() == DefaultAppId
    ensures AppIdKey in p.store ==> p.GetAppId() == p.store[AppIdKey]
  {
  }

  /** Writing one preference leaves every other preference's reading unchanged. */
  lemma WriteTouchesOwnKeyOnly(store: Store, key: string, text: string, other: string, fallback: bool)
    requires key != other
    ensures ReadBoolean(store[key := text], other, fallback) == ReadBoolean(store, other, fallback)
    ensures ReadBoolean(store - {key}, other, fallback) == ReadBoolean(store, other, fallback)
    ensures (other in store[key := text]) == (other in store)
  {
  }
}
