/**
 * The demo app's state reducer: field setters, order-preserving upserts of
 * key/value pairs, filtered removals and a capped, newest-first log.
 */
module AppContext {
  import opened Wrappers
  import opened Capped

  type Pair = (string, string)

  function Keys(s: seq<Pair>): (ks: seq<string>)
    ensures |ks| == |s|
    ensures forall i :: 0 <= i < |s| ==> ks[i] == s[i].0
  {
    if s == [] then [] else Keys(s[..|s| - 1]) + [s[|s| - 1].0]
  }

  predicate NoDuplicates(ks: seq<string>) {
    forall i, j :: 0 <= i < j < |ks| ==> ks[i] != ks[j]
  }

  // ---------------------------------------------------------------------------
  // Reference definitions: what an upsert should produce, stated without a map.

  /** The keys of `ks` in order of first occurrence, each once. */
  function FirstOccurrences(ks: seq<string>): (r: seq<string>)
  {
    if ks == [] then []
    else
      var init := ks[..|ks| - 1];
      var k := ks[|ks| - 1];
      FirstOccurrences(init) + (if k in init then [] else [k])
  }

  /** The value of the last pair with key `k`, if any. */
  function LastValue(s: seq<Pair>, k: string): Option<string>
  {
    if s == [] then None
    else if s[|s| - 1].0 == k then Some(s[|s| - 1].1)
    else LastValue(s[..|s| - 1], k)
  }

  /** The value a list of distinct-keyed pairs holds for `k`. */
  function Lookup(s: seq<Pair>, k: string): Option<string>
  {
    if s == [] then None
    else if s[0].0 == k then Some(s[0].1)
    else Lookup(s[1..], k)
  }

  // ---------------------------------------------------------------------------
  // `new Map(...)` and `Map.prototype.set` on an insertion-ordered map.

  /** Index of the first pair with key `k`, or `|m|` when there is none. */
  function FindKey(m: seq<Pair>, k: string): (i: nat)
    ensures i <= |m|
  {
    if m == [] then 0 else if m[0].0 == k then 0 else 1 + FindKey(m[1..], k)
  }

  /** `map.set(k, v)`: a present key keeps its place and takes the new value; a new key goes last. */
  function SetPair(m: seq<Pair>, p: Pair): seq<Pair>
  {
    var i := FindKey(m, p.0);
    if i < |m| then m[i := p] else m + [p]
  }

  /** `set` applied to every pair of `s`, in order. */
  function SetAll(m: seq<Pair>, s: seq<Pair>): seq<Pair>
  {
    if s == [] then m else SetPair(SetAll(m, s[..|s| - 1]), s[|s| - 1])
  }

  /** `Array.from(new Map([...existing, ...incoming]).entries())`. */
  function Upsert(existing: seq<Pair>, incoming: seq<Pair>): seq<Pair>
  {
    SetAll(SetAll([], existing), incoming)
  }

  lemma {:induction false} FindKeyIsFirst(m: seq<Pair>, k: string, i: nat)
    requires i <= |m|
    requires forall j :: 0 <= j < i ==> m[j].0 != k
    requires i == |m| || m[i].0 == k
    ensures FindKey(m, k) == i
    decreases i
  {
    if i > 0 {
      FindKeyIsFirst(m[1..], k, i - 1);
    }
  }

  lemma {:induction false} FindKeyFacts(m: seq<Pair>, k: string)
    ensures FindKey(m, k) < |m| <==> k in Keys(m)
    ensures FindKey(m, k) < |m| ==> m[FindKey(m, k)].0 == k
    ensures forall j :: 0 <= j < FindKey(m, k) ==> m[j].0 != k
    decreases |m|
  {
    if m != [] && m[0].0 != k {
      FindKeyFacts(m[1..], k);
      assert Keys(m) == [m[0].0] + Keys(m[1..]);
    }
  }

  /** The insertion-ordered map that `upsertPairs` fills. */
  class OrderedMap {
    var entries: seq<Pair>

    constructor ()
      ensures entries == []
    {
      entries := [];
    }

    method Set(k: string, v: string)
      modifies this
      ensures entries == SetPair(old(entries), (k, v))
    {
      var i := 0;
      while i < |entries| && entries[i].0 != k
        invariant 0 <= i <= |entries|
        invariant forall j :: 0 <= j < i ==> entries[j].0 != k
      {
        i := i + 1;
      }
      FindKeyIsFirst(entries, k, i);
      if i < |entries| {
        entries := entries[i := (k, v)];
      } else {
        entries := entries + [(k, v)];
      }
    }
  }

  /** `upsertPairs(existing, incoming)`. */
  method UpsertPairs(existing: seq<Pair>, incoming: seq<Pair>) returns (r: seq<Pair>)
    ensures r == Upsert(existing, incoming)
  {
    var next := new OrderedMap();
    for j := 0 to |existing|
      invariant next.entries == SetAll([], existing[..j])
    {
      assert existing[..j + 1][..j] == existing[..j];
      next.Set(existing[j].0, existing[j].1);
    }
    assert existing[..|existing|] == existing;
    ghost var base := next.entries;
    for j := 0 to |incoming|
      invariant next.entries == SetAll(base, incoming[..j])
    {
      assert incoming[..j + 1][..j] == incoming[..j];
      next.Set(incoming[j].0, incoming[j].1);
    }
    assert incoming[..|incoming|] == incoming;
    r := next.entries;
  }

  // ---------------------------------------------------------------------------
  // Properties of the upsert.

  lemma {:induction false} FirstOccurrencesMembers(ks: seq<string>)
    ensures forall k :: k in FirstOccurrences(ks) <==> k in ks
    ensures NoDuplicates(FirstOccurrences(ks))
    decreases |ks|
  {
    if ks != [] {
      FirstOccurrencesMembers(ks[..|ks| - 1]);
      assert ks == ks[..|ks| - 1] + [ks[|ks| - 1]];
    }
  }

  lemma {:induction false} KeysAppend(a: seq<Pair>, b: seq<Pair>)
    ensures Keys(a + b) == Keys(a) + Keys(b)
  {
  }

  lemma {:induction false} KeysOfSetPair(m: seq<Pair>, p: Pair)
    ensures Keys(SetPair(m, p)) == Keys(m) + (if p.0 in Keys(m) then [] else [p.0])
  {
    FindKeyFacts(m, p.0);
    var i := FindKey(m, p.0);
    if i < |m| {
      assert Keys(m[i := p]) == Keys(m);
    } else {
      KeysAppend(m, [p]);
    }
  }

  lemma {:induction false} KeysOfSetAll(m: seq<Pair>, s: seq<Pair>)
    requires NoDuplicates(Keys(m))
    ensures Keys(SetAll(m, s)) == FirstOccurrences(Keys(m) + Keys(s))
    decreases |s|
  {
    if s == [] {
      FirstOccurrencesOfDistinct(Keys(m));
      assert Keys(m) + Keys(s) == Keys(m);
    } else {
      var init := s[..|s| - 1];
      var p := s[|s| - 1];
      var ks := Keys(m) + Keys(init);
      KeysOfSetAll(m, init);
      KeysOfSetPairAfter(SetAll(m, init), ks, p);
      KeysStep(m, s);
    }
  }

  lemma KeysStep(m: seq<Pair>, s: seq<Pair>)
    requires s != []
    ensures Keys(m) + Keys(s) == Keys(m) + Keys(s[..|s| - 1]) + [s[|s| - 1].0]
  {
    assert Keys(s) == Keys(s[..|s| - 1]) + [s[|s| - 1].0];
  }

  /** One more `set` extends the first-occurrence key list by the new key, if new. */
  lemma KeysOfSetPairAfter(before: seq<Pair>, ks: seq<string>, p: Pair)
    requires Keys(before) == FirstOccurrences(ks)
    ensures Keys(SetPair(before, p)) == FirstOccurrences(ks + [p.0])
  {
    KeysOfSetPair(before, p);
    FirstOccurrencesMembers(ks);
    FirstOccurrencesSnoc(ks, p.0);
  }

  lemma KeysSnoc(s: seq<Pair>, p: Pair)
    ensures Keys(s + [p]) == Keys(s) + [p.0]
  {
  }

  lemma FirstOccurrencesSnoc(ks: seq<string>, k: string)
    ensures FirstOccurrences(ks + [k]) == FirstOccurrences(ks) + (if k in ks then [] else [k])
  {
    assert (ks + [k])[..|ks|] == ks;
  }

  lemma {:induction false} FirstOccurrencesOfDistinct(ks: seq<string>)
    requires NoDuplicates(ks)
    ensures FirstOccurrences(ks) == ks
    decreases |ks|
  {
    if ks != [] {
      FirstOccurrencesOfDistinct(ks[..|ks| - 1]);
      assert ks == ks[..|ks| - 1] + [ks[|ks| - 1]];
    }
  }

  lemma {:induction false} LookupOfSetPair(m: seq<Pair>, p: Pair, k: string)
    ensures Lookup(SetPair(m, p), k) == if k == p.0 then Some(p.1) else Lookup(m, k)
    decreases |m|
  {
    if m == [] {
    } else if m[0].0 == p.0 {
      assert SetPair(m, p) == [p] + m[1..];
    } else {
      SetPairCons(m, p);
      LookupOfSetPair(m[1..], p, k);
    }
  }

  /** Setting a key the head does not hold leaves the head in place. */
  lemma SetPairCons(m: seq<Pair>, p: Pair)
    requires m != [] && m[0].0 != p.0
    ensures SetPair(m, p) == [m[0]] + SetPair(m[1..], p)
  {
    var i := FindKey(m[1..], p.0);
    assert FindKey(m, p.0) == 1 + i;
    if i < |m| - 1 {
      assert m[1 + i := p] == [m[0]] + m[1..][i := p];
    } else {
      assert m + [p] == [m[0]] + (m[1..] + [p]);
    }
  }

  lemma {:induction false} LookupOfSetAll(m: seq<Pair>, s: seq<Pair>, k: string)
    requires NoDuplicates(Keys(m))
    ensures Lookup(SetAll(m, s), k) ==
              if LastValue(s, k).Some? then LastValue(s, k) else Lookup(m, k)
    decreases |s|
  {
    if s != [] {
      var init := s[..|s| - 1];
      LookupOfSetAll(m, init, k);
      KeysOfSetAll(m, init);
      FirstOccurrencesMembers(Keys(m) + Keys(init));
      LookupOfSetPair(SetAll(m, init), s[|s| - 1], k);
    }
  }

  lemma {:induction false} LastValueAppend(a: seq<Pair>, b: seq<Pair>, k: string)
    ensures LastValue(a + b, k) == if LastValue(b, k).Some? then LastValue(b, k) else LastValue(a, k)
    decreases |b|
  {
    if b != [] {
      assert (a + b)[..|a + b| - 1] == a + b[..|b| - 1];
      LastValueAppend(a, b[..|b| - 1], k);
    } else {
      assert a + b == a;
    }
  }

  /**
   * The keys of an upsert: the existing keys first, in their own order, then the
   * incoming keys that were new, in incoming order; each key once.
   */
  lemma UpsertKeyOrder(existing: seq<Pair>, incoming: seq<Pair>)
    ensures Keys(Upsert(existing, incoming)) == FirstOccurrences(Keys(existing) + Keys(incoming))
    ensures NoDuplicates(Keys(Upsert(existing, incoming)))
  {
    KeysOfSetAll([], existing);
    assert Keys([]) + Keys(existing) == Keys(existing);
    FirstOccurrencesMembers(Keys(existing));
    KeysOfSetAll(SetAll([], existing), incoming);
    FirstOccurrencesMembers(Keys(SetAll([], existing)) + Keys(incoming));
    FirstOccurrencesTwice(Keys(existing), Keys(incoming));
  }

  lemma {:induction false} FirstOccurrencesTwice(a: seq<string>, b: seq<string>)
    ensures FirstOccurrences(FirstOccurrences(a) + b) == FirstOccurrences(a + b)
    decreases |b|
  {
    if b == [] {
      FirstOccurrencesMembers(a);
      FirstOccurrencesOfDistinct(FirstOccurrences(a));
      assert FirstOccurrences(a) + b == FirstOccurrences(a);
      assert a + b == a;
    } else {
      var init := b[..|b| - 1];
      FirstOccurrencesTwice(a, init);
      FirstOccurrencesMembers(a);
      assert (FirstOccurrences(a) + b)[..|FirstOccurrences(a) + b| - 1] == FirstOccurrences(a) + init;
      assert (a + b)[..|a + b| - 1] == a + init;
    }
  }

  /** An existing key keeps its position in the result. */
  lemma {:induction false} FirstOccurrencesPrefix(a: seq<string>, b: seq<string>)
    ensures |FirstOccurrences(a)| <= |FirstOccurrences(a + b)|
    ensures FirstOccurrences(a + b)[..|FirstOccurrences(a)|] == FirstOccurrences(a)
    decreases |b|
  {
    if b == [] {
      assert a + b == a;
    } else {
      FirstOccurrencesPrefix(a, b[..|b| - 1]);
      assert (a + b)[..|a + b| - 1] == a + b[..|b| - 1];
    }
  }

  /** Each key holds the value of its last occurrence, incoming pairs after existing ones. */
  lemma UpsertValues(existing: seq<Pair>, incoming: seq<Pair>, k: string)
    ensures Lookup(Upsert(existing, incoming), k) == LastValue(existing + incoming, k)
  {
    LookupOfSetAll([], existing, k);
    KeysOfSetAll([], existing);
    assert Keys([]) + Keys(existing) == Keys(existing);
    FirstOccurrencesMembers(Keys(existing));
    LookupOfSetAll(SetAll([], existing), incoming, k);
    LastValueAppend(existing, incoming, k);
  }

  /** Keys already present (as `new Map(existing)` orders them) keep their positions. */
  lemma UpsertKeepsExistingPositions(existing: seq<Pair>, incoming: seq<Pair>)
    ensures var before := Keys(Upsert(existing, []));
            var after := Keys(Upsert(existing, incoming));
            |before| <= |after| && after[..|before|] == before
  {
    UpsertKeyOrder(existing, incoming);
    UpsertKeyOrder(existing, []);
    assert Keys(existing) + Keys([]) == Keys(existing);
    FirstOccurrencesPrefix(Keys(existing), Keys(incoming));
  }

  // ---------------------------------------------------------------------------
  // The reducer.

  datatype AppState = AppState(
    appId: string,
    consentRequired: bool,
    privacyConsentGiven: bool,
    externalUserId: Option<string>,
    pushSubscriptionId: Option<string>,
    isPushEnabled: bool,
    hasNotificationPermission: bool,
    inAppMessagesPaused: bool,
    locationShared: bool,
    aliasesList: seq<Pair>,
    emailsList: seq<string>,
    smsNumbersList: seq<string>,
    tagsList: seq<Pair>,
    triggersList: seq<Pair>,
    logs: seq<string>)

  /** A `Partial<AppState>`: `Some` for each property the payload carries. */
  datatype PartialState = PartialState(
    appId: Option<string>,
    consentRequired: Option<bool>,
    privacyConsentGiven: Option<bool>,
    externalUserId: Option<Option<string>>,
    pushSubscriptionId: Option<Option<string>>,
    isPushEnabled: Option<bool>,
    hasNotificationPermission: Option<bool>,
    inAppMessagesPaused: Option<bool>,
    locationShared: Option<bool>,
    aliasesList: Option<seq<Pair>>,
    emailsList: Option<seq<string>>,
    smsNumbersList: Option<seq<string>>,
    tagsList: Option<seq<Pair>>,
    triggersList: Option<seq<Pair>>,
    logs: Option<seq<string>>)

  datatype Action =
    | SetInitialState(partial: PartialState)
    | SetExternalUserId(id: Option<string>)
    | SetPushSubscription(subscriptionId: Option<string>, optedIn: bool)
    | SetHasNotificationPermission(granted: bool)
    | SetConsentRequired(required: bool)
    | SetPrivacyConsentGiven(given: bool)
    | SetPushEnabled(enabled: bool)
    | SetIamPaused(paused: bool)
    | SetLocationShared(shared: bool)
    | AddAlias(alias: Pair)
    | AddAliases(aliases: seq<Pair>)
    | ClearUserData
    | AddEmail(email: string)
    | AddSms(sms: string)
    | AddTag(tag: Pair)
    | AddTags(tags: seq<Pair>)
    | RemoveSelectedTags(tagKeys: seq<string>)
    | AddTrigger(trigger: Pair)
    | AddTriggers(triggers: seq<Pair>)
    | RemoveSelectedTriggers(triggerKeys: seq<string>)
    | ClearTriggers
    | AddLog(line: string)
    | ClearLogs
    | Unknown(actionType: string)

  /** `{ ...state, ...payload }`. */
  function Spread(s: AppState, p: PartialState): AppState {
    AppState(
      p.appId.GetOr(s.appId),
      p.consentRequired.GetOr(s.consentRequired),
      p.privacyConsentGiven.GetOr(s.privacyConsentGiven),
      p.externalUserId.GetOr(s.externalUserId),
      p.pushSubscriptionId.GetOr(s.pushSubscriptionId),
      p.isPushEnabled.GetOr(s.isPushEnabled),
      p.hasNotificationPermission.GetOr(s.hasNotificationPermission),
      p.inAppMessagesPaused.GetOr(s.inAppMessagesPaused),
      p.locationShared.GetOr(s.locationShared),
      p.aliasesList.GetOr(s.aliasesList),
      p.emailsList.GetOr(s.emailsList),
      p.smsNumbersList.GetOr(s.smsNumbersList),
      p.tagsList.GetOr(s.tagsList),
      p.triggersList.GetOr(s.triggersList),
      p.logs.GetOr(s.logs))
  }

  /** `list.filter(([key]) => !keys.has(key))`. */
  function RemoveKeys(s: seq<Pair>, keys: set<string>): seq<Pair>
  {
    if s == [] then []
    else RemoveKeys(s[..|s| - 1], keys) + (if s[|s| - 1].0 in keys then [] else [s[|s| - 1]])
  }

  /** `appReducer(state, action)`. */
  function Reduce(state: AppState, action: Action): AppState {
    match action
    case SetInitialState(p) => Spread(state, p)
    case SetExternalUserId(id) => state.(externalUserId := id)
    case SetPushSubscription(id, optedIn) => state.(pushSubscriptionId := id, isPushEnabled := optedIn)
    case SetHasNotificationPermission(b) => state.(hasNotificationPermission := b)
    case SetConsentRequired(b) => state.(consentRequired := b)
    case SetPrivacyConsentGiven(b) => state.(privacyConsentGiven := b)
    case SetPushEnabled(b) => state.(isPushEnabled := b)
    case SetIamPaused(b) => state.(inAppMessagesPaused := b)
    case SetLocationShared(b) => state.(locationShared := b)
    case AddAlias(p) => state.(aliasesList := state.aliasesList + [p])
    case AddAliases(ps) => state.(aliasesList := state.aliasesList + ps)
    case ClearUserData =>
      state.(aliasesList := [], emailsList := [], smsNumbersList := [], tagsList := [], triggersList := [])
    case AddEmail(e) => state.(emailsList := state.emailsList + [e])
    case AddSms(n) => state.(smsNumbersList := state.smsNumbersList + [n])
    case AddTag(p) => state.(tagsList := Upsert(state.tagsList, [p]))
    case AddTags(ps) => state.(tagsList := Upsert(state.tagsList, ps))
    case RemoveSelectedTags(ks) => state.(tagsList := RemoveKeys(state.tagsList, set k | k in ks))
    case AddTrigger(p) => state.(triggersList := Upsert(state.triggersList, [p]))
    case AddTriggers(ps) => state.(triggersList := Upsert(state.triggersList, ps))
    case RemoveSelectedTriggers(ks) => state.(triggersList := RemoveKeys(state.triggersList, set k | k in ks))
    case ClearTriggers => state.(triggersList := [])
    case AddLog(line) => state.(logs := PrependCapped(line, state.logs))
    case ClearLogs => state.(logs := [])
    case Unknown(_) => state
  }

  // ---------------------------------------------------------------------------
  // Properties of the reducer.

  /** Tags and triggers added through the upsert are never duplicated, whatever the list held before. */
  lemma UpsertActionsKeepKeysDistinct(state: AppState, action: Action)
    requires action.AddTag? || action.AddTags? || action.AddTrigger? || action.AddTriggers?
    ensures action.AddTag? || action.AddTags? ==> NoDuplicates(Keys(Reduce(state, action).tagsList))
    ensures action.AddTrigger? || action.AddTriggers? ==> NoDuplicates(Keys(Reduce(state, action).triggersList))
  {
    var r := Reduce(state, action);
    match action
    case AddTag(p) =>
      assert r.tagsList == Upsert(state.tagsList, [p]);
      UpsertKeysDistinct(state.tagsList, [p]);
    case AddTags(ps) =>
      assert r.tagsList == Upsert(state.tagsList, ps);
      UpsertKeysDistinct(state.tagsList, ps);
    case AddTrigger(p) =>
      assert r.triggersList == Upsert(state.triggersList, [p]);
      UpsertKeysDistinct(state.triggersList, [p]);
    case AddTriggers(ps) =>
      assert r.triggersList == Upsert(state.triggersList, ps);
      UpsertKeysDistinct(state.triggersList, ps);
  }

  lemma UpsertKeysDistinct(existing: seq<Pair>, incoming: seq<Pair>)
    ensures NoDuplicates(Keys(Upsert(existing, incoming)))
  {
    UpsertKeyOrder(existing, incoming);
  }

  /** Adding a tag whose key exists replaces its value in place: the length is unchanged. */
  lemma {:induction false} AddTagToDistinctListReplacesInPlace(state: AppState, p: Pair, i: nat)
    requires NoDuplicates(Keys(state.tagsList))
    requires i < |state.tagsList| && state.tagsList[i].0 == p.0
    ensures Reduce(state, AddTag(p)).tagsList == state.tagsList[i := p]
  {
    var m := state.tagsList;
    SetAllOfDistinct(m);
    assert SetAll([], m) == m;
    assert [p][..0] == [];
    assert SetAll(m, [p]) == SetPair(SetAll(m, []), p);
    FindKeyIsFirst(m, p.0, i);
    assert SetPair(m, p) == m[i := p];
  }

  lemma {:induction false} SetAllOfDistinct(m: seq<Pair>)
    requires NoDuplicates(Keys(m))
    ensures SetAll([], m) == m
    decreases |m|
  {
    if m != [] {
      var init := m[..|m| - 1];
      assert Keys(init) == Keys(m)[..|m| - 1];
      SetAllOfDistinct(init);
      FindKeyFacts(init, m[|m| - 1].0);
      assert m == init + [m[|m| - 1]];
    }
  }

  /** Aliases are appended with no deduplication: re-adding a present alias duplicates it. */
  lemma AppendActionsKeepDuplicates(state: AppState, alias: Pair)
    ensures var r := Reduce(state, AddAlias(alias)).aliasesList;
            |r| == |state.aliasesList| + 1 && r[|r| - 1] == alias &&
            (alias in state.aliasesList ==> multiset(r)[alias] >= 2)
    ensures var r := Reduce(state, AddAlias(alias)).aliasesList;
            r[..|state.aliasesList|] == state.aliasesList && r[|state.aliasesList|..] == [alias]
  {
  }

  /**
   * ADD_ALIASES appends the whole batch after the existing aliases, in order,
   * and deduplicates nothing: an alias already held and sent again is held twice.
   */
  lemma AppendAliasesKeepDuplicates(state: AppState, ps: seq<Pair>)
    ensures var r := Reduce(state, AddAliases(ps)).aliasesList;
            |r| == |state.aliasesList| + |ps| &&
            r[..|state.aliasesList|] == state.aliasesList && r[|state.aliasesList|..] == ps
    ensures var r := Reduce(state, AddAliases(ps)).aliasesList;
            multiset(r) == multiset(state.aliasesList) + multiset(ps)
    ensures var r := Reduce(state, AddAliases(ps)).aliasesList;
            forall a :: a in state.aliasesList && a in ps ==> multiset(r)[a] >= 2
  {
  }

  /** Emails and SMS numbers are appended with no deduplication either. */
  lemma AppendContactsKeepDuplicates(state: AppState, email: string, sms: string)
    ensures var r := Reduce(state, AddEmail(email)).emailsList;
            |r| == |state.emailsList| + 1 && (email in state.emailsList ==> multiset(r)[email] >= 2)
    ensures var r := Reduce(state, AddSms(sms)).smsNumbersList;
            |r| == |state.smsNumbersList| + 1 && (sms in state.smsNumbersList ==> multiset(r)[sms] >= 2)
    ensures var r := Reduce(state, AddEmail(email)).emailsList;
            r[..|state.emailsList|] == state.emailsList && r[|state.emailsList|..] == [email]
    ensures var r := Reduce(state, AddSms(sms)).smsNumbersList;
            r[..|state.smsNumbersList|] == state.smsNumbersList && r[|state.smsNumbersList|..] == [sms]
  {
  }

  lemma {:induction false} RemoveKeysMembers(s: seq<Pair>, keys: set<string>)
    ensures forall p :: p in RemoveKeys(s, keys) <==> p in s && p.0 !in keys
    ensures |RemoveKeys(s, keys)| <= |s|
    decreases |s|
  {
    if s != [] {
      RemoveKeysMembers(s[..|s| - 1], keys);
      assert s == s[..|s| - 1] + [s[|s| - 1]];
    }
  }

  lemma {:induction false} RemoveKeysConcat(a: seq<Pair>, b: seq<Pair>, keys: set<string>)
    ensures RemoveKeys(a + b, keys) == RemoveKeys(a, keys) + RemoveKeys(b, keys)
    decreases |b|
  {
    if b == [] {
      assert a + b == a;
    } else {
      RemoveKeysConcat(a, b[..|b| - 1], keys);
      assert (a + b)[..|a + b| - 1] == a + b[..|b| - 1];
    }
  }

  /**
   * Removing selected tags drops exactly the pairs whose key was selected;
   * the survivors keep their relative order (removal distributes over any split of the list).
   */
  lemma RemoveSelectedDropsExactlySelected(state: AppState, ks: seq<string>, split: nat)
    requires split <= |state.tagsList|
    ensures var r := Reduce(state, RemoveSelectedTags(ks)).tagsList;
            (forall p :: p in r <==> p in state.tagsList && p.0 !in ks) &&
            r == Reduce(state.(tagsList := state.tagsList[..split]), RemoveSelectedTags(ks)).tagsList +
                 Reduce(state.(tagsList := state.tagsList[split..]), RemoveSelectedTags(ks)).tagsList
  {
    var keys := set k | k in ks;
    var tags := state.tagsList;
    ReduceRemoveSelected(state, ks);
    ReduceRemoveSelected(state.(tagsList := tags[..split]), ks);
    ReduceRemoveSelected(state.(tagsList := tags[split..]), ks);
    RemoveKeysMembers(tags, keys);
    assert tags == tags[..split] + tags[split..];
    RemoveKeysConcat(tags[..split], tags[split..], keys);
  }

  /** Removing selected triggers drops exactly the pairs whose key was selected. */
  lemma RemoveSelectedTriggersDropsExactlySelected(state: AppState, ks: seq<string>)
    ensures var r := Reduce(state, RemoveSelectedTriggers(ks)).triggersList;
            forall p :: p in r <==> p in state.triggersList && p.0 !in ks
  {
    ReduceRemoveSelected(state, ks);
    RemoveKeysMembers(state.triggersList, set k | k in ks);
  }

  /** The two removal actions filter their own list by the selected keys. */
  lemma ReduceRemoveSelected(state: AppState, ks: seq<string>)
    ensures Reduce(state, RemoveSelectedTags(ks)).tagsList == RemoveKeys(state.tagsList, set k | k in ks)
    ensures Reduce(state, RemoveSelectedTriggers(ks)).triggersList == RemoveKeys(state.triggersList, set k | k in ks)
  {
  }

  /** A new log line goes first, the older lines follow in order, and at most 100 are kept. */
  lemma AddLogNewestFirstCapped(state: AppState, line: string)
    ensures var r := Reduce(state, AddLog(line)).logs;
            1 <= |r| <= MaxEntries && r[0] == line &&
            r[1..] == state.logs[..|r| - 1] &&
            (|state.logs| < MaxEntries ==> |r| == |state.logs| + 1) &&
            (|state.logs| >= MaxEntries ==> |r| == MaxEntries)
  {
    PrependCappedShape(line, state.logs);
  }

  /** Clearing user data empties the five user lists and touches nothing else. */
  lemma ClearUserDataTouchesOnlyUserLists(state: AppState)
    ensures var r := Reduce(state, ClearUserData);
            r.aliasesList == [] && r.emailsList == [] && r.smsNumbersList == [] &&
            r.tagsList == [] && r.triggersList == [] &&
            r.(aliasesList := state.aliasesList, emailsList := state.emailsList,
               smsNumbersList := state.smsNumbersList, tagsList := state.tagsList,
               triggersList := state.triggersList) == state
  {
  }

  /** The permission and push-enabled setters each change their own field only. */
  lemma PushSettersTouchOneField(state: AppState, b: bool)
    ensures Reduce(state, SetHasNotificationPermission(b)) == state.(hasNotificationPermission := b)
    ensures Reduce(state, SetPushEnabled(b)) == state.(isPushEnabled := b)
  {
  }

  /** The two consent setters each change their own field only. */
  lemma ConsentSettersTouchOneField(state: AppState, b: bool)
    ensures Reduce(state, SetConsentRequired(b)) == state.(consentRequired := b)
    ensures Reduce(state, SetPrivacyConsentGiven(b)) == state.(privacyConsentGiven := b)
  {
  }

  /** The in-app-paused and location setters each change their own field only. */
  lemma FeatureSettersTouchOneField(state: AppState, b: bool)
    ensures Reduce(state, SetIamPaused(b)) == state.(inAppMessagesPaused := b)
    ensures Reduce(state, SetLocationShared(b)) == state.(locationShared := b)
  {
  }

  /** The external-id and subscription setters change their own fields only. */
  lemma OtherSettersTouchTheirFields(state: AppState, b: bool, id: Option<string>)
    ensures Reduce(state, SetExternalUserId(id)) == state.(externalUserId := id)
    ensures Reduce(state, SetPushSubscription(id, b)) == state.(pushSubscriptionId := id, isPushEnabled := b)
  {
  }

  /** An action the reducer does not know returns the state unchanged. */
  lemma UnknownActionKeepsState(state: AppState, name: string)
    ensures Reduce(state, Unknown(name)) == state
  {
  }

  /**
   * The initial-state action is `{ ...state, ...payload }`: the app id and the
   * settings flags take the payload's value when it carries one and keep the
   * state's otherwise.
   */
  lemma SetInitialStateOverridesCarriedFields(state: AppState, p: PartialState)
    ensures var r := Reduce(state, SetInitialState(p));
            (p.appId.Some? ==> r.appId == p.appId.value) &&
            (p.appId.None? ==> r.appId == state.appId) &&
            (p.consentRequired.Some? ==> r.consentRequired == p.consentRequired.value) &&
            (p.consentRequired.None? ==> r.consentRequired == state.consentRequired) &&
            (p.privacyConsentGiven.Some? ==> r.privacyConsentGiven == p.privacyConsentGiven.value) &&
            (p.privacyConsentGiven.None? ==> r.privacyConsentGiven == state.privacyConsentGiven) &&
            (p.inAppMessagesPaused.Some? ==> r.inAppMessagesPaused == p.inAppMessagesPaused.value) &&
            (p.inAppMessagesPaused.None? ==> r.inAppMessagesPaused == state.inAppMessagesPaused) &&
            (p.locationShared.Some? ==> r.locationShared == p.locationShared.value) &&
            (p.locationShared.None? ==> r.locationShared == state.locationShared)
  {
  }

  /** An initial-state payload that carries nothing changes nothing. */
  lemma EmptyInitialStateKeepsState(state: AppState)
    ensures Reduce(state, SetInitialState(PartialState(None, None, None, None, None, None, None, None,
                                                       None, None, None, None, None, None, None))) == state
  {
  }

  /** The same for the user and subscription fields. */
  lemma SetInitialStateSubscriptionFields(state: AppState, p: PartialState)
    ensures var r := Reduce(state, SetInitialState(p));
            (p.externalUserId.Some? ==> r.externalUserId == p.externalUserId.value) &&
            (p.externalUserId.None? ==> r.externalUserId == state.externalUserId) &&
            (p.pushSubscriptionId.Some? ==> r.pushSubscriptionId == p.pushSubscriptionId.value) &&
            (p.pushSubscriptionId.None? ==> r.pushSubscriptionId == state.pushSubscriptionId) &&
            (p.isPushEnabled.Some? ==> r.isPushEnabled == p.isPushEnabled.value) &&
            (p.isPushEnabled.None? ==> r.isPushEnabled == state.isPushEnabled) &&
            (p.hasNotificationPermission.Some? ==> r.hasNotificationPermission == p.hasNotificationPermission.value) &&
            (p.hasNotificationPermission.None? ==> r.hasNotificationPermission == state.hasNotificationPermission)
  {
  }

  /** The same for the six lists. */
  lemma SetInitialStateListFields(state: AppState, p: PartialState)
    ensures var r := Reduce(state, SetInitialState(p));
            (p.aliasesList.Some? ==> r.aliasesList == p.aliasesList.value) &&
            (p.aliasesList.None? ==> r.aliasesList == state.aliasesList) &&
            (p.emailsList.Some? ==> r.emailsList == p.emailsList.value) &&
            (p.emailsList.None? ==> r.emailsList == state.emailsList) &&
            (p.smsNumbersList.Some? ==> r.smsNumbersList == p.smsNumbersList.value) &&
            (p.smsNumbersList.None? ==> r.smsNumbersList == state.smsNumbersList) &&
            (p.tagsList.Some? ==> r.tagsList == p.tagsList.value) &&
            (p.tagsList.None? ==> r.tagsList == state.tagsList) &&
            (p.triggersList.Some? ==> r.triggersList == p.triggersList.value) &&
            (p.triggersList.None? ==> r.triggersList == state.triggersList) &&
            (p.logs.Some? ==> r.logs == p.logs.value) &&
            (p.logs.None? ==> r.logs == state.logs)
  {
  }
}
