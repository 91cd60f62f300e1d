/**
 * The demo app's reading of a user record fetched from the OneSignal REST API:
 * aliases, tags, email addresses, SMS numbers and the external id.
 */
module UserData {
  import opened Json
  import opened Wrappers

  datatype UserData = UserData(
    aliases: map<string, string>,
    tags: map<string, string>,
    emails: seq<string>,
    smsNumbers: seq<string>,
    externalId: Option<string>)

  /** The thrown error when a subscription element is null or undefined. */
  const PropertyOfNullish: string := "TypeError"

  /** A property read as a record: the value itself when `typeof` says object and it is not null, else `{}`. */
  function AsRecord(v: Value): (r: Value)
    ensures !IsNullish(r)
    ensures IsObjectLike(v) ==> r == v
    ensures !IsObjectLike(v) ==> r == Obj(map[])
  {
    if TypeOf(v) == "object" && v != Null then v else Obj(map[])
  }

  function Identity(json: map<string, Value>): Value {
    AsRecord(Prop(json, "identity"))
  }

  function Properties(json: map<string, Value>): Value {
    AsRecord(Prop(json, "properties"))
  }

  /** `Array.isArray(json.subscriptions) ? json.subscriptions : []`. */
  function Subscriptions(json: map<string, Value>): seq<Value> {
    var v := Prop(json, "subscriptions");
    if v.Arr? then v.items else []
  }

  /** The entries of a record whose value is a string. */
  function StringEntries(record: Value): (m: map<string, string>)
    ensures forall k :: k in m <==> k in Entries(record) && Entries(record)[k].Str?
    ensures forall k :: k in m ==> Entries(record)[k] == Str(m[k])
  {
    map k | k in Entries(record) && Entries(record)[k].Str? :: Entries(record)[k].s
  }

  function Aliases(identity: Value): map<string, string> {
    map k | k in StringEntries(identity) && k != "external_id" && k != "onesignal_id" :: StringEntries(identity)[k]
  }

  function Tags(properties: Value): map<string, string>
    requires !IsNullish(properties)
  {
    StringEntries(AsRecord(Get(properties, "tags")))
  }

  /** The token a subscription contributes to the list of `kind` ('Email' or 'SMS'); a null or undefined one gives none. */
  function TokenOf(subscription: Value, kind: string): Option<string>
  {
    if IsNullish(subscription) then None
    else
      var t := Get(subscription, "token");
      if Get(subscription, "type") == Str(kind) && t.Str? then Some(t.s) else None
  }

  predicate NoneNullish(subs: seq<Value>) {
    forall i :: 0 <= i < |subs| ==> !IsNullish(subs[i])
  }

  /** The tokens of the `kind` subscriptions, in input order. */
  function Tokens(subs: seq<Value>, kind: string): seq<string>
  {
    if subs == [] then []
    else
      var last := subs[|subs| - 1];
      Tokens(subs[..|subs| - 1], kind) + (if TokenOf(last, kind).Some? then [TokenOf(last, kind).value] else [])
  }

  function ExternalId(identity: Value): Option<string>
    requires !IsNullish(identity)
  {
    var v := Get(identity, "external_id");
    if TypeOf(v) == "string" then Some(v.s) else None
  }

  /** What `userDataFromJson` returns when it does not throw. */
  function UserDataOf(json: map<string, Value>): UserData
  {
    UserData(
      Aliases(Identity(json)),
      Tags(Properties(json)),
      Tokens(Subscriptions(json), "Email"),
      Tokens(Subscriptions(json), "SMS"),
      ExternalId(Identity(json)))
  }

  /**
   * `userDataFromJson(json)`.  Reading `.type` of a null or undefined element of
   * `subscriptions` throws, which is the failure case.
   */
  method UserDataFromJson(json: map<string, Value>) returns (r: Result<UserData, string>)
    ensures r.Success? <==> NoneNullish(Subscriptions(json))
    ensures r.Success? ==> r.value == UserDataOf(json)
    ensures r.Failure? ==> r.error == PropertyOfNullish
  {
    var identity := Identity(json);
    var properties := Properties(json);
    var aliases := Aliases(identity);
    var tags := Tags(properties);
    var tokens := CollectTokens(Subscriptions(json));
    if tokens.Failure? {
      return Failure(tokens.error);
    }
    var (emails, smsNumbers) := tokens.value;
    r := Success(UserData(aliases, tags, emails, smsNumbers, ExternalId(identity)));
  }

  /** The loop over `subscriptions`: email and SMS tokens in input order, or the error a nullish element throws. */
  method CollectTokens(subscriptions: seq<Value>) returns (r: Result<(seq<string>, seq<string>), string>)
    ensures r.Success? <==> NoneNullish(subscriptions)
    ensures r.Success? ==> r.value == (Tokens(subscriptions, "Email"), Tokens(subscriptions, "SMS"))
    ensures r.Failure? ==> r.error == PropertyOfNullish
  {
    var emails: seq<string> := [];
    var smsNumbers: seq<string> := [];
    for i := 0 to |subscriptions|
      invariant forall j :: 0 <= j < i ==> !IsNullish(subscriptions[j])
      invariant emails == Tokens(subscriptions[..i], "Email")
      invariant smsNumbers == Tokens(subscriptions[..i], "SMS")
    {
      var subscription := subscriptions[i];
      if IsNullish(subscription) {
        return Failure(PropertyOfNullish);
      }
      TokensSnoc(subscriptions, i, "Email");
      TokensSnoc(subscriptions, i, "SMS");
      var kind := Get(subscription, "type");
      var token := Get(subscription, "token");
      if kind == Str("Email") && TypeOf(token) == "string" {
        emails := emails + [token.s];
      } else if kind == Str("SMS") && TypeOf(token) == "string" {
        smsNumbers := smsNumbers + [token.s];
      }
    }
    assert subscriptions[..|subscriptions|] == subscriptions;
    r := Success((emails, smsNumbers));
  }

  /** One more subscription adds at most its own token. */
  lemma TokensSnoc(subs: seq<Value>, i: nat, kind: string)
    requires i < |subs|
    ensures Tokens(subs[..i + 1], kind) ==
              Tokens(subs[..i], kind) + (if TokenOf(subs[i], kind).Some? then [TokenOf(subs[i], kind).value] else [])
  {
    assert subs[..i + 1][..i] == subs[..i];
  }

  // ---------------------------------------------------------------------------

  /** Aliases are the string-valued identity entries other than `external_id` and `onesignal_id`. */
  lemma AliasesSpec(json: map<string, Value>, k: string)
    ensures var identity := Identity(json);
            var aliases := Aliases(identity);
            (k in aliases <==> k in Entries(identity) && Entries(identity)[k].Str? &&
                               k != "external_id" && k != "onesignal_id") &&
            (k in aliases ==> Entries(identity)[k] == Str(aliases[k]))
  {
  }

  /** Tags are the string-valued entries of `properties.tags`; a missing or non-object `tags` gives none. */
  lemma TagsSpec(json: map<string, Value>, k: string)
    ensures var tagsSource := Get(Properties(json), "tags");
            var tags := Tags(Properties(json));
            (!IsObjectLike(tagsSource) ==> tags == map[]) &&
            (IsObjectLike(tagsSource) ==>
               (k in tags <==> k in Entries(tagsSource) && Entries(tagsSource)[k].Str?) &&
               (k in tags ==> Entries(tagsSource)[k] == Str(tags[k])))
  {
  }

  /** `externalId` is present exactly when `identity.external_id` is a string, and then equals it. */
  lemma ExternalIdSpec(json: map<string, Value>)
    ensures var id := Get(Identity(json), "external_id");
            ExternalId(Identity(json)).Some? <==> id.Str?
    ensures var id := Get(Identity(json), "external_id");
            id.Str? ==> ExternalId(Identity(json)) == Some(id.s)
  {
  }

  /** A missing or wrongly typed `identity`, `properties` or `subscriptions` reads as empty. */
  lemma WrongTypesReadAsEmpty(json: map<string, Value>)
    ensures !IsObjectLike(Prop(json, "identity")) ==>
              Aliases(Identity(json)) == map[] && ExternalId(Identity(json)) == None
    ensures !IsObjectLike(Prop(json, "properties")) ==> Tags(Properties(json)) == map[]
    ensures !Prop(json, "subscriptions").Arr? ==>
              Tokens(Subscriptions(json), "Email") == [] && Tokens(Subscriptions(json), "SMS") == []
  {
  }

  /** A token is listed under `kind` exactly when some subscription of that type carries it as a string. */
  lemma {:induction false} TokensSpec(subs: seq<Value>, kind: string, x: string)
    requires NoneNullish(subs)
    ensures x in Tokens(subs, kind) <==>
              exists i :: 0 <= i < |subs| && Get(subs[i], "type") == Str(kind) && Get(subs[i], "token") == Str(x)
    decreases |subs|
  {
    if subs != [] {
      var init := subs[..|subs| - 1];
      TokensSpec(init, kind, x);
      assert forall i :: 0 <= i < |init| ==> init[i] == subs[i];
    }
  }

  /** No subscription is counted under both kinds, so the two lists together are no longer than the subscriptions. */
  lemma {:induction false} TokensBound(subs: seq<Value>)
    ensures |Tokens(subs, "Email")| + |Tokens(subs, "SMS")| <= |subs|
    decreases |subs|
  {
    if subs != [] {
      TokensBound(subs[..|subs| - 1]);
    }
  }

  /** The emails are taken in input order: each is the token of a later subscription than the one before it. */
  lemma {:induction false} TokensInOrder(subs: seq<Value>, kind: string, j: nat)
    requires NoneNullish(subs)
    requires j < |Tokens(subs, kind)|
    ensures exists i :: 0 <= i < |subs| && TokenOf(subs[i], kind) == Some(Tokens(subs, kind)[j]) &&
                        |Tokens(subs[..i], kind)| == j
    decreases |subs|
  {
    var init := subs[..|subs| - 1];
    if j < |Tokens(init, kind)| {
      TokensInOrder(init, kind, j);
      var i :| 0 <= i < |init| && TokenOf(init[i], kind) == Some(Tokens(init, kind)[j]) &&
               |Tokens(init[..i], kind)| == j;
      assert init[..i] == subs[..i];
    } else {
      assert subs[..|subs| - 1] == init;
    }
  }
}
