# OneSignal Cordova plugin: a Dafny model of its core

This project models the core of the OneSignal Cordova plugin and proves properties of that model.
It covers four parts.

- **JavaScript namespaces.** `Notifications`, `User`, `PushSubscription` and `InAppMessages` send `cordova.exec` calls to the native `OneSignalPush` service. They also keep listener lists and cached values.
- **Legacy plugin object.** Both editions are modelled: `OneSignalPlugin.js` and the earlier `OneSignal.js`. This covers their overloaded-argument rules, their observer lists, and the `OSNotification` / `Subscription.js` records that the plugin builds from native payloads.
- **Android side.** `OneSignalPush.execute` dispatches actions. The model also covers the notification-completion cache, the in-app-message lifecycle slots and click payload, and the observer controller's slots, status codes and key renaming.
- **Demo application helpers.** These are the state reducer with its order-preserving upsert, the capped newest-first log, the user-record parser, the tooltip cache, the preference store, and the recursive `deepMerge` used by the test mocks.

How the model represents the runtime:

- **JavaScript values.** A JSON-like datatype (`Json.Value`) represents them. It has an explicit `Undefined` and function values (`Fun`). The helpers model truthiness, `typeof` and `== null`.
- **`cordova.exec`.** Each call is appended to a log (`Bridge.Cordova.calls`). `console.error` output goes to `Bridge.Cordova.errors`. "What is sent" is therefore always a statement about these logs.
- **Java plugin results.** `CallbackContext.sendPluginResult` is a log of `PluginResult(context, status, message, keepCallback)` records (`NativeBridge.CallbackLog`).
- **org.json.** The parts used by the Android code are modelled as written:
  - `put(key, null)` removes the key;
  - `getBoolean` accepts a boolean, or the text "true"/"false" in any letter case;
  - `optString(key, null)` yields null for a missing key;
  - `optJSONArray` and `optJSONObject` yield null unless the value has the right type.
- **Listeners and callbacks.** They are opaque identities kept in sequences. An event is modelled as the list of deliveries it makes (`Helpers.Broadcast`).
- **Mutable state.** Objects whose fields the source updates are classes whose methods state their whole new state. Pure code is modelled as functions, with lemmas about them.

One deliberate reading of org.json: the in-app click payload gets `clickName` / `clickUrl` through `put(key, optString(key, null))`. Under Android's org.json, putting `null` removes the key. So a missing `click_name` leaves `clickName` absent rather than set to null (`OneSignalPush.ClickActionSpec`).

The Android permission observer reports status 2 for "notifications enabled" and 1 otherwise (src/android/com/onesignal/cordova/OneSignalObserverController.java:71-73). The typed `PermissionStatus` declaration agrees with it: 1 = Denied, 2 = Authorized (www/Subscription.ts:1). The JavaScript enumeration `OSNotificationPermission` says the reverse, 1 = Authorized and 2 = Denied (www/OneSignalPlugin.js:44-48). The `OSPermissionState` fallback for a null status uses that enumeration (www/Subscription.js:28). The plugin ships the enumeration together with this observer controller: the same www/OneSignalPlugin.js registers its SMS observer (lines 129-134). So a caller comparing a native status against `OSNotificationPermission.Authorized` reads "enabled" as Denied. The fallback itself is reached only for a payload whose `status` is `null`, and no Android observer here sends one. The current observer always replaces the flag with a status of 2 or 1, or sends `{}` (OneSignalObserverController.java:69-81). The older observer sends no `status` key, and an absent status is kept as undefined (www/Subscription.js:25). The fallback also reads the free global `OneSignal.prototype.OSNotificationPermission`, whose binding depends on the edition. It resolves when `OneSignal` is the constructor exported by www/OneSignal.js:36-43,417. It plausibly throws a TypeError when `OneSignal` is the instance exported by www/OneSignalPlugin.js:456-457, which has no `prototype`. The model keeps the fallback as written, assumes the lookup resolves, and records the conflict under "## Findings".

## Model

| member | source | states |
|---|---|---|
| DeepMerge.Merge | mocks/deepmerge.ts:44-73 | `deepMerge(target, patch)`; it carries no contract of its own, and its behaviour is stated by the `DeepMerge` lemmas below (`ObjectMergeAt` to `MergeIdempotent`) |
| DeepMerge.ObjectMergeAt | mocks/deepmerge.ts:57-70 | merging two plain objects gives exactly the target's keys plus the patch keys whose value is not undefined; each patched key holds the per-key rule's value and an untouched key keeps the target's |
| DeepMerge.NullishPatchKeepsTarget | mocks/deepmerge.ts:45 | a null or undefined patch returns the target unchanged |
| DeepMerge.NonObjectGivesPatch | mocks/deepmerge.ts:51-54 | when either side is not a plain object (array, primitive, function), the result is the patch itself |
| DeepMerge.OmittedKeyKept | mocks/deepmerge.ts:57 | a target key the patch omits keeps its value |
| DeepMerge.UndefinedPatchValueKept | mocks/deepmerge.ts:69 | a key the patch maps to undefined keeps the target's value, and is not created when the target lacks it |
| DeepMerge.ArrayReplaces | mocks/deepmerge.ts:62-63 | an array in the patch replaces the target's value wholesale |
| DeepMerge.NestedObjectsMerge | mocks/deepmerge.ts:64-65 | two plain objects under one key are merged recursively |
| DeepMerge.ScalarOverwrites | mocks/deepmerge.ts:66-67 | a null, primitive or function patch value overwrites the target's value and can add a new key, so nulls are not ignored |
| DeepMerge.DocumentedExample | mocks/deepmerge.ts:25-42 | the documented example merges to the documented result |
| DeepMerge.SelfMerge | mocks/deepmerge.ts:44-73 | merging a value into itself returns it |
| DeepMerge.MergeIdempotent | mocks/deepmerge.ts:59-70 | applying the same patch a second time changes nothing |
| AppContext.Reduce | examples/demo/src/context/AppContext.tsx:87-153 | `appReducer(state, action)`; it carries no contract of its own, and each action is stated by the `AppContext` lemmas from `UpsertActionsKeepKeysDistinct` to `EmptyInitialStateKeepsState` |
| AppContext.OrderedMap.Set | examples/demo/src/context/AppContext.tsx:82 | `Map.set` on an insertion-ordered map: a present key keeps its place and takes the value, and a new key goes last (against `SetPair`) |
| AppContext.UpsertPairs | examples/demo/src/context/AppContext.tsx:79-85 | the loop over `new Map(existing)` and `incoming` produces the reference upsert `Upsert(existing, incoming)` |
| AppContext.UpsertKeyOrder | examples/demo/src/context/AppContext.tsx:79-85 | the upsert's keys are the keys of existing then incoming in order of first occurrence, each once, so the result never holds a key twice |
| AppContext.UpsertValues | examples/demo/src/context/AppContext.tsx:81-83 | each key's value in the result is its last value across existing followed by incoming, so the last incoming duplicate wins |
| AppContext.UpsertKeepsExistingPositions | examples/demo/src/context/AppContext.tsx:80-84 | existing keys keep their positions, and absent keys are appended after them |
| AppContext.FirstOccurrencesMembers | examples/demo/src/context/AppContext.tsx:80-84 | the first-occurrence list has the same members as its input and no duplicates |
| AppContext.UpsertActionsKeepKeysDistinct | examples/demo/src/context/AppContext.tsx:128-139 | ADD_TAG, ADD_TAGS, ADD_TRIGGER and ADD_TRIGGERS leave the tag or trigger list duplicate-free |
| AppContext.AddTagToDistinctListReplacesInPlace | examples/demo/src/context/AppContext.tsx:128-129 | ADD_TAG with a key already in a duplicate-free list replaces that pair in place |
| AppContext.AppendActionsKeepDuplicates | examples/demo/src/context/AppContext.tsx:111-112 | ADD_ALIAS keeps the existing aliases as the prefix and appends the pair last, without deduplication, so a repeated alias is held twice |
| AppContext.AppendAliasesKeepDuplicates | examples/demo/src/context/AppContext.tsx:113-114 | ADD_ALIASES keeps the existing aliases as a prefix and the batch as the suffix, in order; the multiset is the sum of both, so an alias already held and sent again is held twice |
| AppContext.AppendContactsKeepDuplicates | examples/demo/src/context/AppContext.tsx:124-127 | ADD_EMAIL and ADD_SMS keep the existing list as the prefix and append the new entry last, without deduplication, so a repeated entry is held twice |
| AppContext.RemoveKeysMembers | examples/demo/src/context/AppContext.tsx:134 | the filter keeps exactly the pairs whose key is not selected |
| AppContext.RemoveKeysConcat | examples/demo/src/context/AppContext.tsx:134 | the filter distributes over concatenation, so survivors keep their order |
| AppContext.RemoveSelectedDropsExactlySelected | examples/demo/src/context/AppContext.tsx:132-135 | REMOVE_SELECTED_TAGS drops exactly the tags whose key is selected, and the filter works piecewise, so survivors keep their order |
| AppContext.RemoveSelectedTriggersDropsExactlySelected | examples/demo/src/context/AppContext.tsx:140-143 | REMOVE_SELECTED_TRIGGERS drops exactly the triggers whose key is selected |
| AppContext.AddLogNewestFirstCapped | examples/demo/src/context/AppContext.tsx:146-147 | ADD_LOG puts the message first, keeps at most 100 entries, and keeps the older ones in order |
| AppContext.ClearUserDataTouchesOnlyUserLists | examples/demo/src/context/AppContext.tsx:115-123 | CLEAR_USER_DATA empties the five user lists and changes no other field |
| AppContext.PushSettersTouchOneField | examples/demo/src/context/AppContext.tsx:99-106 | SET_HAS_NOTIFICATION_PERMISSION and SET_PUSH_ENABLED each change only their own field |
| AppContext.ConsentSettersTouchOneField | examples/demo/src/context/AppContext.tsx:101-104 | SET_CONSENT_REQUIRED and SET_PRIVACY_CONSENT_GIVEN each change only their own field |
| AppContext.FeatureSettersTouchOneField | examples/demo/src/context/AppContext.tsx:107-110 | SET_IAM_PAUSED and SET_LOCATION_SHARED each change only their own field |
| AppContext.OtherSettersTouchTheirFields | examples/demo/src/context/AppContext.tsx:91-98 | SET_EXTERNAL_USER_ID and SET_PUSH_SUBSCRIPTION change only their fields |
| AppContext.UnknownActionKeepsState | examples/demo/src/context/AppContext.tsx:150-151 | an unknown action returns the state unchanged |
| AppContext.SetInitialStateOverridesCarriedFields | examples/demo/src/context/AppContext.tsx:89-90 | SET_INITIAL_STATE is `{ ...state, ...payload }`: the app id and the consent, in-app-message and location flags each take the payload's value when the payload carries it and keep the state's otherwise |
| AppContext.SetInitialStateSubscriptionFields | examples/demo/src/context/AppContext.tsx:89-90 | likewise for the external user id, push subscription id, push-enabled and notification-permission fields |
| AppContext.SetInitialStateListFields | examples/demo/src/context/AppContext.tsx:89-90 | likewise for the alias, email, SMS, tag, trigger and log lists |
| AppContext.EmptyInitialStateKeepsState | examples/demo/src/context/AppContext.tsx:89-90 | a payload that carries nothing leaves the state unchanged |
| Capped.PrependCapped | examples/demo/src/services/LogManager.ts:64 | `[x, ...s].slice(0, 100)` is never empty, never longer than 100, and starts with the new item; `PrependCappedShape` gives the rest |
| Capped.PrependCappedShape | examples/demo/src/services/LogManager.ts:64 | prepend-and-slice puts the item at index 0, follows it with the older items in order, and keeps at most 100 |
| LogManager.Tagged | examples/demo/src/services/LogManager.ts:38 | the stored message is `[`, the tag, `] `, then the message |
| LogManager.TaggedInjective | examples/demo/src/services/LogManager.ts:37-55 | for tags of equal length, the tag and the message can be read back from a tagged message |
| LogManager.LogManager.constructor | examples/demo/src/services/LogManager.ts:14-15 | the log starts with no entries and no listeners |
| LogManager.LogManager.Subscribe | examples/demo/src/services/LogManager.ts:24-26 | the listener joins the set once, even when subscribed again, and at once receives the current entries |
| LogManager.LogManager.Unsubscribe | examples/demo/src/services/LogManager.ts:27-29 | the returned closure removes exactly that listener and keeps the others |
| LogManager.LogManager.Clear | examples/demo/src/services/LogManager.ts:32-35 | the entries become empty and every listener is notified with them |
| LogManager.LogManager.Debug | examples/demo/src/services/LogManager.ts:37-40 | stores level D with "[tag] message" and logs "[D][tag] message" to the console |
| LogManager.LogManager.Info | examples/demo/src/services/LogManager.ts:42-45 | stores level I with "[tag] message" and logs "[I][tag] message" |
| LogManager.LogManager.Warn | examples/demo/src/services/LogManager.ts:47-50 | stores level W and writes "[W][tag] message" to the warning stream |
| LogManager.LogManager.Error | examples/demo/src/services/LogManager.ts:52-55 | stores level E and writes "[E][tag] message" to the error stream |
| LogManager.LogManager.Append | examples/demo/src/services/LogManager.ts:57-66 | the new entry is first, the buffer is capped at 100 (dropping the oldest), and every listener receives the new entries |
| LogManager.LogManager.Emit | examples/demo/src/services/LogManager.ts:68-70 | every listener, in set order, receives the current entries |
| UserData.AsRecord | examples/demo/src/models/UserData.ts:10-17 | a property is read as a record only when `typeof` says object and it is not null, else as {} |
| UserData.StringEntries | examples/demo/src/models/UserData.ts:37-41 | exactly the string-valued entries, with their text |
| UserData.UserDataFromJson | examples/demo/src/models/UserData.ts:9-62 | succeeds exactly when no subscription is null or undefined (reading `.type` of one throws), and then returns the reference record |
| UserData.CollectTokens | examples/demo/src/models/UserData.ts:43-53 | the loop fails exactly when some subscription is null or undefined, and otherwise yields the email and SMS token lists `Tokens(subscriptions, kind)` |
| UserData.AliasesSpec | examples/demo/src/models/UserData.ts:22-31 | aliases are the string-valued identity entries other than `external_id` and `onesignal_id` |
| UserData.TagsSpec | examples/demo/src/models/UserData.ts:33-41 | tags are the string-valued entries of `properties.tags`; a missing or non-object `tags` gives none |
| UserData.ExternalIdSpec | examples/demo/src/models/UserData.ts:55-56 | `externalId` is defined exactly when `identity.external_id` is a string, and then equals it |
| UserData.WrongTypesReadAsEmpty | examples/demo/src/models/UserData.ts:10-20 | a missing, null or wrongly typed identity, properties or subscriptions field reads as empty |
| UserData.TokensSpec | examples/demo/src/models/UserData.ts:43-53 | a token is listed under Email (or SMS) exactly when some subscription of that type carries it as a string |
| UserData.TokensBound | examples/demo/src/models/UserData.ts:45-52 | no subscription is counted under both kinds, so the two lists together are no longer than the subscriptions |
| UserData.TokensInOrder | examples/demo/src/models/UserData.ts:45-53 | the j-th token comes from a subscription preceded by exactly j tokens of that kind, so input order is kept |
| TooltipHelper.TextOrEmpty | examples/demo/src/services/TooltipHelper.ts:50-52 | a string property reads as itself and anything else as "" |
| TooltipHelper.ParseOption | examples/demo/src/services/TooltipHelper.ts:55-74 | an option is kept exactly when it is a non-null object whose `name` and `description` are non-empty strings, and it is then those two strings |
| TooltipHelper.ParseEntry | examples/demo/src/services/TooltipHelper.ts:45-82 | an entry is kept exactly when it is a non-null object whose `title` and `description` are non-empty strings; it then carries those strings, and options exactly when `options` is an array |
| TooltipHelper.ParseOptions | examples/demo/src/services/TooltipHelper.ts:53-76 | the options list is no longer than the input |
| TooltipHelper.OptionsValid | examples/demo/src/services/TooltipHelper.ts:69-75 | every listed option has a non-empty name and description |
| TooltipHelper.TooltipHelper.constructor | examples/demo/src/services/TooltipHelper.ts:29-32 | the helper starts uninitialised with an empty table |
| TooltipHelper.ParseEntries | examples/demo/src/services/TooltipHelper.ts:44-83 | the loop over the entries keeps exactly the valid ones, each under its own key with its parsed record |
| TooltipHelper.TooltipHelper.Init | examples/demo/src/services/TooltipHelper.ts:29-91 | after a call it is initialised, and later calls change nothing; a not-ok answer keeps the table, a thrown error empties it, and a body replaces it with the validated entries |
| TooltipHelper.TooltipHelper.GetTooltip | examples/demo/src/services/TooltipHelper.ts:93-95 | defined exactly for the keys of the table, and then that key's record |
| TooltipHelper.EntrySurvival | examples/demo/src/services/TooltipHelper.ts:44-83 | an entry survives exactly when it is a record with a non-empty string title and description; it keeps its key and texts, and any other key is unknown |
| TooltipHelper.OptionsSpec | examples/demo/src/services/TooltipHelper.ts:53-76 | an option is listed exactly when some input element parses to it |
| TooltipHelper.EntryOptions | examples/demo/src/services/TooltipHelper.ts:53-82 | `options` is defined exactly when the input's options is an array, and is then its parsed list |
| TooltipHelper.OptionsConcat | examples/demo/src/services/TooltipHelper.ts:75 | filtering distributes over concatenation, so kept options keep their order |
| Preferences.PreferencesService.GetAppId | examples/demo/src/services/PreferencesService.ts:17-19 | the stored id, or the default id when none is stored |
| Preferences.PreferencesService.GetConsentRequired | examples/demo/src/services/PreferencesService.ts:25-27 | true exactly when the stored text is "true"; false when nothing is stored |
| Preferences.PreferencesService.GetConsentGiven | examples/demo/src/services/PreferencesService.ts:33-35 | true exactly when the stored text is "true"; false when nothing is stored |
| Preferences.PreferencesService.GetExternalUserId | examples/demo/src/services/PreferencesService.ts:41-43 | null exactly when nothing is stored, else the stored text |
| Preferences.PreferencesService.GetLocationShared | examples/demo/src/services/PreferencesService.ts:53-55 | true exactly when the stored text is "true"; false when nothing is stored |
| Preferences.PreferencesService.GetIamPaused | examples/demo/src/services/PreferencesService.ts:61-63 | true exactly when the stored text is "true"; false when nothing is stored |
| Preferences.ReadBooleanSpec | examples/demo/src/services/PreferencesService.ts:10-14 | absent key gives the fallback, "true" gives true, any other text false, and a stored `String(b)` reads back as b |
| Preferences.KeysDistinct | examples/demo/src/services/PreferencesService.ts:1-6 | the six storage keys are distinct |
| Preferences.WriteTouchesOwnKeyOnly | examples/demo/src/services/PreferencesService.ts:21-67 | writing or removing one key leaves every other preference's reading unchanged |
| Preferences.AppIdDefault | examples/demo/src/services/PreferencesService.ts:17-19 | the default app id is read until one is stored, then the stored one |
| Preferences.PreferencesService.constructor | examples/demo/src/services/PreferencesService.ts:16 | the service reads the given store |
| Preferences.PreferencesService.SetAppId | examples/demo/src/services/PreferencesService.ts:21-23 | stores the id under its key; `GetAppId` then returns it |
| Preferences.PreferencesService.SetConsentRequired | examples/demo/src/services/PreferencesService.ts:29-31 | stores `String(b)`; `GetConsentRequired` then returns b |
| Preferences.PreferencesService.SetConsentGiven | examples/demo/src/services/PreferencesService.ts:37-39 | stores `String(b)`; `GetConsentGiven` then returns b |
| Preferences.PreferencesService.SetExternalUserId | examples/demo/src/services/PreferencesService.ts:45-51 | null deletes the key and a string is stored; the getter returns what was set |
| Preferences.PreferencesService.SetLocationShared | examples/demo/src/services/PreferencesService.ts:57-59 | stores `String(b)`; `GetLocationShared` then returns b |
| Preferences.PreferencesService.SetIamPaused | examples/demo/src/services/PreferencesService.ts:65-67 | stores `String(b)`; `GetIamPaused` then returns b |
| Helpers.IndexOf | www/helpers.ts:10 | -1 exactly when absent, else the index of the first occurrence |
| Helpers.RemoveListener | www/helpers.ts:6-14 | the indexOf-and-splice result equals the reference `RemoveFirst` |
| Helpers.RemoveFirstSpec | www/helpers.ts:10-13 | an absent listener leaves the list unchanged; otherwise its first occurrence is removed, the length drops by one, and the rest keep their order |
| Helpers.RemoveFirstFromDistinct | www/helpers.ts:10-13 | on a duplicate-free list, removal deletes exactly that element and keeps the list duplicate-free |
| Helpers.Broadcast | www/NotificationsNamespace.ts:16-20 | one delivery per listener, in list order, each with the same payload |
| Helpers.ProcessFunctionList | www/NotificationsNamespace.ts:16-20 | the loop calls the listeners exactly as `Broadcast` says |
| Json.StringValuedKeepsKeysAndStrings | www/UserNamespace.ts:143-151 | stringifying keeps the keys and the string values, and replaces every other value with its JSON text |
| Json.StringValuedIdempotent | www/UserNamespace.ts:145-150 | stringifying twice is the same as once |
| Json.JsObject.StringifyNonStrings | www/InAppMessagesNamespace.ts:92-97 | the caller's object is rewritten in place to its stringified form |
| NotificationsNamespace.ResolveRequestPermission | www/NotificationsNamespace.ts:52-63 | a function first argument is the handler with no fallback; a boolean is the fallback; anything else gives no fallback |
| NotificationsNamespace.FallbackOnlyFromBoolean | www/NotificationsNamespace.ts:55-62 | the fallback sent is true exactly when the first argument is `true` |
| NotificationsNamespace.RequestPermissionReply | www/NotificationsNamespace.ts:65-69 | the answer is forwarded only when a handler was given |
| NotificationsNamespace.Notifications.constructor | www/NotificationsNamespace.ts:12-22 | three empty lists and an undefined permission |
| NotificationsNamespace.Notifications.Permission | www/NotificationsNamespace.ts:38-40 | `_permission` when truthy, else false |
| NotificationsNamespace.Notifications.SetPropertyAndObserver | www/NotificationsNamespace.ts:27-36 | sends `getPermissionInternal`, then registers the permission tracker via `addPermissionObserver` |
| NotificationsNamespace.Notifications.OnGetPermission | www/NotificationsNamespace.ts:28-30 | `obj.value` becomes the stored permission, so the getter then reads `obj.value || false` |
| NotificationsNamespace.Notifications.RequestPermission | www/NotificationsNamespace.ts:52-71 | always sends `requestPermission` with `[fallbackToSettings]`, with the resolved handler wrapped |
| NotificationsNamespace.Notifications.AddEventListener | www/NotificationsNamespace.ts:108-134 | appends to that event's list and registers its native callback; an unknown event changes nothing and sends nothing |
| NotificationsNamespace.Notifications.RemoveEventListener | www/NotificationsNamespace.ts:142-162 | removes the first match from the named list only, with no native call |
| NotificationsNamespace.Notifications.OnClick | www/NotificationsNamespace.ts:111-113 | every click listener receives the payload, in order |
| NotificationsNamespace.Notifications.OnForegroundWillDisplay | www/NotificationsNamespace.ts:117-122 | every will-display listener receives a will-display event, then one `proceedWithWillDisplay [notificationId]` is sent |
| NotificationsNamespace.Notifications.OnPermissionChange | www/NotificationsNamespace.ts:126-128 | every permission observer receives the value in order, and the tracker updates the permission |
| UserNamespace.SettleGetTags | www/UserNamespace.ts:175-179 | the promise resolves with the native success value and rejects with the native error |
| UserNamespace.Single | www/UserNamespace.ts:48 | `{[key]: value}` has exactly that key and value |
| UserNamespace.StrList | www/UserNamespace.ts:75-77 | the label list is sent element by element |
| UserNamespace.User.constructor | www/UserNamespace.ts:20 | no observers at start |
| UserNamespace.User.AddAlias | www/UserNamespace.ts:47-50 | sends `addAliases [{label: id}]` |
| UserNamespace.User.AddAliases | www/UserNamespace.ts:57-59 | sends `addAliases [aliases]` |
| UserNamespace.User.RemoveAlias | www/UserNamespace.ts:66-68 | sends `removeAliases [label]` |
| UserNamespace.User.RemoveAliases | www/UserNamespace.ts:75-77 | sends the label list itself as the arguments |
| UserNamespace.User.AddTag | www/UserNamespace.ts:133-136 | sends `addTags [{key: value}]` |
| UserNamespace.User.AddTags | www/UserNamespace.ts:143-152 | stringifies non-string values in the caller's object, then sends `addTags [tags]` |
| UserNamespace.User.RemoveTag | www/UserNamespace.ts:159-161 | sends `removeTags [key]` |
| UserNamespace.User.RemoveTags | www/UserNamespace.ts:168-170 | sends the key list itself as the arguments |
| UserNamespace.User.GetTags | www/UserNamespace.ts:175-179 | sends `getTags []` with resolve and reject as callbacks |
| UserNamespace.User.AddEventListener | www/UserNamespace.ts:187-193 | appends the listener and registers `addUserStateObserver` |
| UserNamespace.User.RemoveEventListener | www/UserNamespace.ts:200-205 | removes only the first matching listener |
| UserNamespace.User.OnUserStateChange | www/UserNamespace.ts:189-191 | every observer receives the state, in order |
| UserNamespace.RemovingOneOfDuplicatesKeepsTheOther | www/UserNamespace.ts:200-205 | removing a listener registered twice leaves one copy, which still fires |
| PushSubscriptionNamespace.PushSubscription.constructor | www/PushSubscriptionNamespace.ts:12-16 | all values undefined and no observers |
| PushSubscriptionNamespace.PushSubscription.OptedIn | www/PushSubscriptionNamespace.ts:70-72 | `_optedIn` when truthy, else false |
| PushSubscriptionNamespace.PushSubscription.SetPropertiesAndObserver | www/PushSubscriptionNamespace.ts:27-60 | sends the three getters, then registers the state tracker as an observer |
| PushSubscriptionNamespace.PushSubscription.OnGetId | www/PushSubscriptionNamespace.ts:32-34 | sets the id only |
| PushSubscriptionNamespace.PushSubscription.OnGetToken | www/PushSubscriptionNamespace.ts:41-43 | sets the token only |
| PushSubscriptionNamespace.PushSubscription.OnGetOptedIn | www/PushSubscriptionNamespace.ts:50-52 | sets optedIn only, so the getter then reads `obj.value || false` |
| PushSubscriptionNamespace.PushSubscription.AddObserver | www/PushSubscriptionNamespace.ts:79-85 | appends and registers `addPushSubscriptionObserver` |
| PushSubscriptionNamespace.PushSubscription.RemoveObserver | www/PushSubscriptionNamespace.ts:92-97 | removes the first match; an absent observer leaves the list unchanged |
| PushSubscriptionNamespace.PushSubscription.OnSubscriptionChange | www/PushSubscriptionNamespace.ts:55-59 | every observer receives the state in order, and the tracker overwrites id, token and optedIn together |
| PushSubscriptionNamespace.PushSubscription.OptIn | www/PushSubscriptionNamespace.ts:103-105 | sends `OptInPushSubscription` (capital O) |
| PushSubscriptionNamespace.PushSubscription.OptOut | www/PushSubscriptionNamespace.ts:111-113 | sends `optOutPushSubscription` |
| InAppMessagesNamespace.InAppMessages.constructor | www/InAppMessagesNamespace.ts:7-11 | all five delegates start as no-ops |
| InAppMessagesNamespace.InAppMessages.SetClickHandler | www/InAppMessagesNamespace.ts:18-26 | replaces the single click delegate and sends `setClickHandler` |
| InAppMessagesNamespace.InAppMessages.OnClick | www/InAppMessagesNamespace.ts:21-23 | a click reaches only the latest delegate |
| InAppMessagesNamespace.InAppMessages.SetLifecycleHandler | www/InAppMessagesNamespace.ts:33-72 | replaces and registers exactly the delegates present in the object, then always sends one `setLifecycleHandler` |
| InAppMessagesNamespace.InAppMessages.ReplaceSlot | www/InAppMessagesNamespace.ts:34-42 | one lifecycle slot is replaced and registered only when its handler is present |
| InAppMessagesNamespace.InAppMessages.OnLifecycleEvent | www/InAppMessagesNamespace.ts:37-39 | the event reaches that slot's delegate only |
| InAppMessagesNamespace.RegistrationsExactlyPresent | www/InAppMessagesNamespace.ts:33-71 | a registration is sent exactly for each truthy handler, at most four |
| InAppMessagesNamespace.RegisterActionInjective | www/InAppMessagesNamespace.ts:41-68 | the four registration actions are distinct |
| InAppMessagesNamespace.InAppMessages.AddTrigger | www/InAppMessagesNamespace.ts:80-83 | same call as `addTriggers({key: value})` |
| InAppMessagesNamespace.TriggersSentAsStrings | www/InAppMessagesNamespace.ts:80-97 | the single trigger is sent as a string |
| InAppMessagesNamespace.InAppMessages.AddTriggers | www/InAppMessagesNamespace.ts:91-100 | stringifies non-string values in place, then sends `addTriggers [triggers]` |
| InAppMessagesNamespace.InAppMessages.RemoveTrigger | www/InAppMessagesNamespace.ts:107-109 | same call as `removeTriggers([key])` |
| InAppMessagesNamespace.InAppMessages.RemoveTriggers | www/InAppMessagesNamespace.ts:116-122 | a non-array is reported on the console and still sent, as `[keys]` |
| InAppMessagesNamespace.InAppMessages.ClearTriggers | www/InAppMessagesNamespace.ts:128-130 | sends `clearTriggers` with no arguments |
| InAppMessagesNamespace.InAppMessages.IsPaused | www/InAppMessagesNamespace.ts:148-154 | sends `isPaused`; the reply hands `obj.value` to the handler |
| InAppMessagesNamespace.IsPausedReply | www/InAppMessagesNamespace.ts:149-151 | the reply closure delivers to the given handler: `obj.value` when the reply carries it, `undefined` otherwise |
| OSNotification.Build | www/OSNotification.ts:43-270 | `new OSNotification(receivedEvent)` as the record of its properties; it carries no contract of its own, and the `OSNotification` lemmas below state which fields it has and what they hold |
| OSNotification.RawPayload | www/OSNotification.ts:59-63 | a string is parsed and anything else is kept |
| OSNotification.AlwaysCopiedFields | www/OSNotification.ts:45-73 | the six unconditional fields are always present, equal to the input's |
| OSNotification.RawPayloadField | www/OSNotification.ts:59-63 | `rawPayload` is always present: parsed when a string, else as given |
| OSNotification.PriorityWhenDefined | www/OSNotification.ts:104-106 | `priority` is present exactly when defined, so 0 survives |
| OSNotification.TruthyFieldsOnly | www/OSNotification.ts:79-269 | each other optional field is present exactly when truthy |
| OSNotification.ZeroRelevanceScoreDropped | www/OSNotification.ts:259-261 | a relevanceScore of 0 is dropped |
| OSNotification.GroupedNotificationsWhenNonEmpty | www/OSNotification.ts:185-187 | an array of grouped notifications is copied exactly when non-empty; null or undefined is not copied |
| OSNotification.OnlyKnownFields | www/OSNotification.ts:43-270 | nothing outside the known fields is copied |
| OSNotification.Display | www/OSNotification.ts:276-278 | sends `displayNotification [notificationId]` |
| Subscription.DeviceState | www/Subscription.js:1-22 | `new OSDeviceState(json)`; it carries no contract of its own, and `DeviceRenamedFields`, `DevicePermissionFlag` and `DevicePermissionStatus` state its fields |
| Subscription.PermissionState | www/Subscription.js:24-44 | `new OSPermissionState(json)`; it carries no contract of its own, and `PermissionDefaults` states its three fields |
| Subscription.State | www/Subscription.js:24-105 | the state constructor of each kind (permission, push, email, SMS); it carries no contract of its own, and `SubscribedRenames` and `SubscribedNotCopied` state the push, email and SMS states |
| Subscription.StateChanges | www/Subscription.js:46-116 | the `…StateChanges` constructors; it carries no contract of its own, and `ChangesFromTo` states when `from` and `to` are built and from what |
| Subscription.Renamed | www/Subscription.js:12-21 | each renamed field holds the input's field under its old name |
| Subscription.DevicePermissionFlag | www/Subscription.js:2-6 | the flag is the input's when truthy, else `areNotificationsEnabled` |
| Subscription.DevicePermissionStatus | www/Subscription.js:8-10 | assigned exactly when not null; an absent status is assigned as undefined |
| Subscription.DeviceRenamedFields | www/Subscription.js:12-21 | the ten device fields are renamed copies (`isPushDisabled` becomes `pushDisabled`, and so on) |
| Subscription.PermissionDefaults | www/Subscription.js:24-43 | a null status falls back to Authorized (1) or Denied (2); null provisional and hasPrompted fall back to false; a non-null status, provisional or hasPrompted is kept as given |
| Subscription.CorrectedPermissionState | www/Subscription.ts:1 | the permission state with the typed codes in the fallback: the same keys, and equal to `OSPermissionState` except where the status is null |
| Subscription.FallbackReversesTypedStatus | www/Subscription.js:28 | as written, read as a typed status, the fallback says Denied (1) for enabled notifications and Authorized (2) for disabled ones |
| Subscription.CorrectedFallbackMatchesTypedStatus | www/Subscription.ts:1 | corrected, the fallback is Authorized (2) for enabled and Denied (1) otherwise |
| Subscription.ChangesFromTo | www/Subscription.js:46-116 | `from` and `to` are present exactly when truthy, each built by the state constructor, and nothing else is set; the push, email and SMS change records all follow this rule |
| Subscription.SubscribedRenames | www/Subscription.js:56-105 | email and SMS states take `isSubscribed` as `isEmailSubscribed` / `isSMSSubscribed`; the push state keeps the name |
| Subscription.SubscribedNotCopied | www/Subscription.js:83-105 | the email and SMS states have no `isSubscribed` property |
| Bridge.Cordova.Exec | www/NotificationsNamespace.ts:31 | `window.cordova.exec(...)` records the call after every earlier one and reports no console error; the native side is not modelled |
| LegacyPlugin.SetChannelCall | www/OneSignalPlugin.js:239-289 | the call `setEmail` and `setSMSNumber` send; it carries no contract of its own, and `SetChannelRouting` states the routing |
| LegacyPlugin.SetExternalUserIdCall | www/OneSignalPlugin.js:307-337 | the call `setExternalUserId` sends, or its refusal; it carries no contract of its own, and `ExternalUserIdRules` and `EditionsAgreeOnExternalUserId` state it |
| LegacyPlugin.OutcomeCall | www/OneSignalPlugin.js:390-436 | the call each outcome method sends, or its refusal; it carries no contract of its own, and `OutcomeRules` states it |
| LegacyPlugin.OrNoop | www/OneSignalPlugin.js:207-211 | a null or undefined callback becomes a no-op |
| LegacyPlugin.SetChannelRouting | www/OneSignalPlugin.js:239-289 | setEmail sends `setUnauthenticatedEmail [email]` exactly when the token is a function, null or undefined, else `setEmail [email, token]`, and a function token shifts the callbacks; setSMSNumber routes the same way between its two actions, and so does the earlier edition's setEmail (www/OneSignal.js, lines 226-243) |
| LegacyPlugin.ExternalUserIdRules | www/OneSignalPlugin.js:307-337 | refuses exactly a second argument that is not a function, string or undefined; an undefined id is sent as null; the hash is sent exactly when it is a string |
| LegacyPlugin.EditionsAgreeOnExternalUserId | www/OneSignal.js:261-291 | the earlier edition resolves the same calls; only the error text differs |
| LegacyPlugin.OutcomeRules | www/OneSignalPlugin.js:390-436 | refused exactly for a callback neither undefined nor a function; otherwise sends `[name]`, or `[name, Number(value)]` for the valued outcome; the earlier edition (www/OneSignal.js, lines 344-390) follows the same rules |
| LegacyPlugin.PromptAcceptedOnlyForTrueText | www/OneSignalPlugin.js:174-178 | the callback receives true exactly when `data.accepted` is the string "true" |
| LegacyPlugin.LegacyPlugin.constructor | www/OneSignalPlugin.js:50-53 | four empty observer lists |
| LegacyPlugin.LegacyPlugin.AddObserver | www/OneSignalPlugin.js:113-143 | appends to that kind's list only and registers its native observer; the earlier edition (www/OneSignal.js, lines 108-130) does the same for its three lists |
| LegacyPlugin.LegacyPlugin.OnStateChange | www/OneSignalPlugin.js:93-96 | every observer of that kind receives the state-changes record, in order |
| LegacyPlugin.LegacyPlugin.SetEmail | www/OneSignalPlugin.js:239-256 | sends the routed call |
| LegacyPlugin.LegacyPlugin.SetSmsNumber | www/OneSignalPlugin.js:272-289 | sends the routed call |
| LegacyPlugin.LegacyPlugin.SetExternalUserId | www/OneSignalPlugin.js:307-337 | sends the resolved call, or writes the usage error and sends nothing |
| LegacyPlugin.LegacyPlugin.SendOutcome | www/OneSignalPlugin.js:390-436 | sends the outcome call, or writes the error and sends nothing |
| LegacyPlugin.LegacyPlugin.PromptForPushNotificationsWithUserResponse | www/OneSignalPlugin.js:174-179 | sends the prompt with the callback wrapped by the accepted test |
| LegacyPlugin.LegacyPlugin.PostNotification | www/OneSignalPlugin.js:206-214 | null callbacks become no-ops; sends `postNotification [jsonData]` |
| LegacyPlugin.LegacyPlugin.SetLogLevel | www/OneSignalPlugin.js:216-218 | sends `[nsLogLevel, visualLogLevel]`; the earlier edition (www/OneSignal.js, lines 203-205) sends `[logLevel]` only |
| LegacyPlugin.LegacyPlugin.AddTriggers | www/OneSignalPlugin.js:349-357 | stringifies non-string values in place, then sends `[triggers]` |
| LegacyPlugin.LegacyPlugin.AddTrigger | www/OneSignalPlugin.js:359-363 | same call as `addTriggers({key: value})` |
| LegacyPlugin.LegacyPlugin.RemoveTriggersForKeys | www/OneSignalPlugin.js:369-374 | a non-array is reported and still sent, as `[keys]` |
| LegacyPlugin.LegacyPlugin.RemoveTriggerForKey | www/OneSignalPlugin.js:365-367 | same call as `removeTriggersForKeys([key])` |
| NativeBridge.JavaBoolean | src/android/com/onesignal/cordova/OneSignalPush.java:545 | `getBoolean` accepts a boolean or the text "true"/"false" in any case, and throws otherwise |
| NativeBridge.ArrayGetString | src/android/com/onesignal/cordova/OneSignalPush.java:463 | `getString(i)` fails only out of range and coerces other values to text |
| NativeBridge.ArrayGetBoolean | src/android/com/onesignal/cordova/OneSignalPush.java:464 | `getBoolean(i)` fails out of range or for a non-boolean |
| NativeBridge.GetBoolean | src/android/com/onesignal/cordova/OneSignalObserverController.java:47 | a missing key or a non-boolean throws |
| NativeBridge.BooleanTextExamples | src/android/com/onesignal/cordova/OneSignalObserverController.java:71 | an illustration of `JavaBoolean` on four inputs, not a further property: "TRUE" and "False" are read as booleans, "yes" and 1 are not |
| NativeBridge.JSONObject.Put | src/android/com/onesignal/cordova/OneSignalObserverController.java:47 | sets one key |
| NativeBridge.JSONObject.PutOrRemove | src/android/com/onesignal/cordova/OneSignalPush.java:550-553 | a Java null removes the key |
| NativeBridge.JSONObject.Remove | src/android/com/onesignal/cordova/OneSignalObserverController.java:48 | removes one key |
| NativeBridge.CallbackLog.CallbackSuccess | src/android/com/onesignal/cordova/CallbackHelper.java:11-20 | sends OK with the object, `{}` for null, keeping the callback; the observer controller's private copy (OneSignalObserverController.java, lines 33-40) behaves the same |
| NativeBridge.CallbackLog.CallbackSuccessBoolean | src/android/com/onesignal/cordova/CallbackHelper.java:28-32 | sends OK with the boolean, keeping the callback |
| NativeBridge.CallbackLog.CallbackError | src/android/com/onesignal/cordova/CallbackHelper.java:52-56 | sends ERROR with the text, keeping the callback |
| ObserverController.NativePermissionStatus | src/android/com/onesignal/cordova/OneSignalObserverController.java:71-73 | enabled notifications give the typed Authorized code (2) and disabled ones the typed Denied code (1) |
| ObserverController.RenameStateChangesKey | src/android/com/onesignal/cordova/OneSignalObserverController.java:44-57 | returns `{from, to}` with the key renamed when both sides hold a readable boolean, else `{}`; mutates each side as far as it got |
| ObserverController.RenamedPayloadSpec | src/android/com/onesignal/cordova/OneSignalObserverController.java:44-57 | the payload is non-empty exactly when both flags read; each side then has the boolean under the new key, lacks the old key, and keeps every other key |
| ObserverController.PermissionPayloadSpec | src/android/com/onesignal/cordova/OneSignalObserverController.java:69-80 | status is 2 for enabled and 1 otherwise, and `areNotificationsEnabled` is gone; a side without the flag empties the payload |
| ObserverController.NativeStatusAgainstJsEnum | src/android/com/onesignal/cordova/OneSignalObserverController.java:71-73 | the native codes are the reverse of the JavaScript enumeration and equal to the typed status codes |
| ObserverController.FallbackDisagreesWithNative | www/Subscription.js:28 | as written, the null-status fallback never equals the code the Android observer sends for the same flag |
| ObserverController.CorrectedFallbackAgreesWithNative | www/Subscription.ts:1 | corrected, the null-status fallback is exactly the code the Android observer sends |
| ObserverController.ObserverController.constructor | src/android/com/onesignal/cordova/OneSignalObserverController.java:22-30 | no slots and no native observers |
| ObserverController.ObserverController.AddObserver | src/android/com/onesignal/cordova/OneSignalObserverController.java:59-141 | the kind's slot takes the newest context, other slots are unchanged, the native observer is registered at most once per kind, and the result is true |
| ObserverController.ObserverController.OnPermissionChanged | src/android/com/onesignal/cordova/OneSignalObserverController.java:62-82 | sends the permission payload to the current slot; `from` gets a status in place of a readable flag, and `to` too when both flags read |
| ObserverController.ObserverController.OnSubscriptionChanged | src/android/com/onesignal/cordova/OneSignalObserverController.java:94-96 | forwards the state changes unchanged to the current slot |
| ObserverController.ObserverController.OnEmailChanged | src/android/com/onesignal/cordova/OneSignalObserverController.java:108-116 | sends the payload with `isSubscribed` renamed to `isEmailSubscribed`; `from` is renamed in place when its flag reads, and `to` too when both read |
| ObserverController.ObserverController.OnSmsChanged | src/android/com/onesignal/cordova/OneSignalObserverController.java:128-136 | sends the payload with `isSubscribed` renamed to `isSMSSubscribed`; `from` is renamed in place when its flag reads, and `to` too when both read |
| OneSignalPush.CasesAsWritten | src/android/com/onesignal/cordova/OneSignalPush.java:225-456 | the switch as written: one or two handlers per action, two exactly for `logout` |
| OneSignalPush.Cases | src/android/com/onesignal/cordova/OneSignalPush.java:278-283 | with the intended `break`: exactly one handler per known action, otherwise as written |
| OneSignalPush.LogoutFallsThrough | src/android/com/onesignal/cordova/OneSignalPush.java:278-283 | as written, `logout` also runs `addPermissionObserver` and returns its result, so a failed logout can report true |
| OneSignalPush.LogoutRunsAlone | src/android/com/onesignal/cordova/OneSignalPush.java:278-279 | corrected, `logout` runs alone and returns its own result |
| OneSignalPush.UnassignedCasesReturnFalse | src/android/com/onesignal/cordova/OneSignalPush.java:365-391 | setLogLevel, promptLocation and setLocationShared never assign the result, so `execute` returns false for them |
| OneSignalPush.OneSignalPush.constructor | src/android/com/onesignal/cordova/OneSignalPush.java:132-137 | an empty cache and four empty lifecycle slots |
| OneSignalPush.OneSignalPush.Execute | src/android/com/onesignal/cordova/OneSignalPush.java:222-459 | an unknown action sends "Invalid action : <action>" as an error and returns false; a known one runs its cases as the switch is written (for `logout` also `addPermissionObserver`) and returns what the last assigning case gave `result` |
| OneSignalPush.OneSignalPush.RunCases | src/android/com/onesignal/cordova/OneSignalPush.java:278-283 | the cases from the matched one to the first `break` run in order: all of them are dispatched, their completions, replies and slot changes add up, and `result` is the last assigning one's |
| OneSignalPush.OneSignalPush.Run | src/android/com/onesignal/cordova/OneSignalPush.java:225-456 | one handler: its result, its slot or completion effect, and nothing else |
| OneSignalPush.OneSignalPush.SetSlotHandler | src/android/com/onesignal/cordova/OneSignalPush.java:184-202 | each `setOn…Handler` replaces its own slot only |
| OneSignalPush.OneSignalPush.OnLifecycleEvent | src/android/com/onesignal/cordova/OneSignalPush.java:154-182 | an event reaches its slot only when the slot is set |
| OneSignalPush.OneSignalPush.Complete | src/android/com/onesignal/cordova/OneSignalPush.java:461-483 | returns true and completes exactly when both reads succeed and the id is cached |
| OneSignalPush.CompletionOf | src/android/com/onesignal/cordova/OneSignalPush.java:461-483 | a completion happens exactly when both arguments read and the id is cached; it names a cached id, and a displayed completion carries that id's cached notification |
| OneSignalPush.CompletionSpec | src/android/com/onesignal/cordova/OneSignalPush.java:466-478 | an uncached id completes nothing; a cached id completes with the notification or with null, as `shouldDisplay` says; missing arguments fail |
| OneSignalPush.OneSignalPush.OnNotificationWillShowInForeground | src/android/com/onesignal/cordova/OneSignalPush.java:498-507 | caches the event under its id before the callback, and never drops entries |
| OneSignalPush.ForegroundThenComplete | src/android/com/onesignal/cordova/OneSignalPush.java:498-503 | completing a just-cached id displays that notification |
| OneSignalPush.OneSignalPush.InAppMessageClicked | src/android/com/onesignal/cordova/OneSignalPush.java:538-560 | sends the renamed click payload, or nothing when a flag does not read as a boolean |
| OneSignalPush.ClickActionSpec | src/android/com/onesignal/cordova/OneSignalPush.java:544-549 | `firstClick` and `closesMessage` appear exactly when their snake_case keys do, holding the flags as `getBoolean` reads them |
| OneSignalPush.ClickAction | src/android/com/onesignal/cordova/OneSignalPush.java:538-560 | a payload exists exactly when the flags read, and it holds no keys but the six camelCase ones |
| OneSignalPush.ClickActionFields | src/android/com/onesignal/cordova/OneSignalPush.java:550-553 | `clickName` and `clickUrl` appear exactly when the input has the snake_case keys, a string name is copied as is, and nothing outside the six camelCase keys is set |
| OneSignalPush.BadFlagSendsNothing | src/android/com/onesignal/cordova/OneSignalPush.java:557-559 | a non-boolean `first_click` throws and no payload is sent |

## Left out

- The OneSignal native SDKs and the Cordova runtime are not modelled. SDK calls made by handlers other than those above are opaque: the Android `execute` model takes their boolean results as a parameter (`outcome`) and records only which handler ran.
- Threads are not modelled. The static fields on the Android side are treated as one object.
- `JSON.stringify`, `JSON.parse`, `Number(...)`, Java's `String.valueOf` and the clock (`toLocaleTimeString`) are parameters of the members that use them, not definitions. `JSON.parse` is assumed to succeed: a malformed string `rawPayload` that would make the `OSNotification` constructor throw (www/OSNotification.ts:59-63) is not modelled.
- Subscription.PermissionState: assumes that `OneSignal.prototype.OSNotificationPermission` at www/Subscription.js:28 resolves to the enumeration. Where `OneSignal` is the plugin instance exported by www/OneSignalPlugin.js:456-457, reading it throws a TypeError, which the model does not capture.
- An exception thrown by a listener is not modelled. In the source it ends the delivery loop (www/NotificationsNamespace.ts:16-20), so later listeners get nothing; the model always delivers to every listener (`Helpers.Broadcast`, `Helpers.ProcessFunctionList`).
- Numbers are integers only. Floating point, `NaN` and numeric text formatting are not modelled.
- Object key order is not represented (objects are maps). This matters for `Object.entries` in `deepMerge`, `userDataFromJson` and the tooltip table; their results are stated as sets of keys.
- AppContext.tsx `toPairs` is not modelled: it is `Object.entries` over a record, whose insertion order the map representation does not carry.
- The in-place `splice` of JavaScript arrays becomes a reassignment of a sequence field. Aliasing of the same array by two owners is not captured.
- Each `addEventListener` call in the namespaces registers another native callback. The model records every registration, but a native event is delivered once to the list rather than once per registration.
- The will-display event object wrapping a notification (`OSNotificationWillDisplayEvent`) is opaque: listeners receive a will-display event for the notification.
- Prototype-inherited properties, getters and TypeScript type annotations are not modelled.
- NativeBridge.JavaBoolean: folds ASCII letters only, where Java's `equalsIgnoreCase` also folds other Unicode letters.
- The demo provider's start-up effect (examples/demo/src/context/AppContext.tsx:225-250), which reads the stored preferences and dispatches them as SET_INITIAL_STATE, is not modelled; only the reducer's handling of such a payload is.
- The Android `init` handler's SDK set-up and `OneSignal.initWithContext` are left out. Its result is modelled as "true when an app id can be read".
- ObserverController.RenameStateChangesKey: requires the two sides to be different objects. The SDK always hands two fresh objects, and the model does not cover one object passed as both.
- The legacy plugin's other handlers (`setNotificationOpenedHandler`, `setInAppMessageClickHandler`, tags, location, privacy consent, and so on) are plain forwarding calls outside this model.
- `fetch` in the tooltip helper is replaced by its outcome (threw, not ok, or a JSON body) given as input.

## Findings

| source | as written | input that shows it | evidently intended | confidence | as-written member | corrected member |
|---|---|---|---|---|---|---|
| src/android/com/onesignal/cordova/OneSignalPush.java:278-283 | the `logout` case has no `break`, so control falls into `addPermissionObserver`, and `execute` returns that handler's result | `execute("logout", …)` where logout reports false and adding the permission observer reports true: `execute` returns true and registers a permission observer on the logout call's context | `logout` runs alone and `execute` returns the logout result | not executed | OneSignalPush.LogoutFallsThrough | OneSignalPush.LogoutRunsAlone |
| www/Subscription.js:28 | a null status falls back to `OSNotificationPermission.Authorized` (1) when notifications are enabled and `Denied` (2) otherwise; the typed `PermissionStatus` and the Android observer use 2 for Authorized and 1 for Denied | a permission payload with `status: null` and `areNotificationsEnabled: true`, with `OneSignal` bound to the constructor of www/OneSignal.js: the state gets status 1, which the typed declaration reads as Denied, while the Android observer sends 2 for the same flag. No Android observer here sends a null status, and with `OneSignal` bound to the instance of www/OneSignalPlugin.js the lookup plausibly throws instead | the fallback uses 2 for enabled and 1 otherwise, as the typed codes and the native observer do | not executed; the triggering payload is not produced by the native code shown | Subscription.FallbackReversesTypedStatus | Subscription.CorrectedFallbackMatchesTypedStatus |
