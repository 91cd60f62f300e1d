/** `OneSignal.User`: aliases, tags and the user-state observer list. */
module UserNamespace {
  import opened Json
  import opened Wrappers
  import opened Bridge
  import opened Helpers

  /** How the native side answered a call whose reply settles a promise. */
  datatype NativeReply = NativeSuccess(value: Value) | NativeError(error: Value)

  datatype Settled = Resolved(value: Value) | Rejected(reason: Value)

  /** The promise `getTags` returns, settled by the native reply: `resolve` on success, `reject` on error. */
  function SettleGetTags(reply: NativeReply): (s: Settled)
    ensures reply.NativeSuccess? <==> s.Resolved?
    ensures reply.NativeSuccess? ==> s.value == reply.value
    ensures reply.NativeError? ==> s.reason == reply.error
  {
    match reply
    case NativeSuccess(v) => Resolved(v)
    case NativeError(e) => Rejected(e)
  }

  /** A one-entry object `{[key]: value}`. */
  function Single(key: string, value: Value): (o: Value)
    ensures o.Obj? && o.props.Keys == {key} && o.props[key] == value
  {
    Obj(map[key := value])
  }

  /** The keys as the argument array of a call. */
  function StrList(keys: seq<string>): (r: seq<Value>)
    ensures |r| == |keys|
    ensures forall i :: 0 <= i < |keys| ==> r[i] == Str(keys[i])
  {
    if keys == [] then [] else StrList(keys[..|keys| - 1]) + [Str(keys[|keys| - 1])]
  }

  class User {
    var observers: seq<Value>
    /** Every call made to an observer so far. */
    var delivered: seq<Delivery<Value, Value>>
    const bridge: Cordova

    constructor (bridge: Cordova)
      ensures this.bridge == bridge && observers == [] && delivered == []
    {
      this.bridge := bridge;
      observers := [];
      delivered := [];
    }

    /** `addAlias(label, id)`: one `addAliases` call with `[{label: id}]`. */
    method AddAlias(aliasLabel: string, id: string)
      modifies bridge
      ensures bridge.calls == old(bridge.calls) + [Send("addAliases", [Single(aliasLabel, Str(id))])]
      ensures bridge.errors == old(bridge.errors)
    {
      bridge.Exec(Send("addAliases", [Single(aliasLabel, Str(id))]));
    }

    /** `addAliases(aliases)`: sends `[aliases]`. */
    method AddAliases(aliases: Value)
      modifies bridge
      ensures bridge.calls == old(bridge.calls) + [Send("addAliases", [aliases])]
      ensures bridge.errors == old(bridge.errors)
    {
      bridge.Exec(Send("addAliases", [aliases]));
    }

    /** `removeAlias(label)`: sends `[label]`. */
    method RemoveAlias(aliasLabel: string)
      modifies bridge
      ensures bridge.calls == old(bridge.calls) + [Send("removeAliases", [Str(aliasLabel)])]
      ensures bridge.errors == old(bridge.errors)
    {
      bridge.Exec(Send("removeAliases", [Str(aliasLabel)]));
    }

    /** `removeAliases(labels)`: the aliasLabel list itself is the argument array. */
    method RemoveAliases(labels: seq<string>)
      modifies bridge
      ensures bridge.calls == old(bridge.calls) + [Send("removeAliases", StrList(labels))]
      ensures bridge.errors == old(bridge.errors)
    {
      bridge.Exec(Send("removeAliases", StrList(labels)));
    }

    /** `addTag(key, value)`: one `addTags` call with `[{key: value}]`, the value sent as given. */
    method AddTag(key: string, value: Value)
      modifies bridge
      ensures bridge.calls == old(bridge.calls) + [Send("addTags", [Single(key, value)])]
      ensures bridge.errors == old(bridge.errors)
    {
      bridge.Exec(Send("addTags", [Single(key, value)]));
    }

    /**
     * `addTags(tags)`: rewrites every non-string value of the caller's object to
     * its JSON text, in place, then sends `[tags]`.
     */
    method AddTags(tags: JsObject, text: Value -> string)
      modifies tags, bridge
      ensures tags.props == StringValued(old(tags.props), text)
      ensures bridge.calls == old(bridge.calls) + [Send("addTags", [Obj(tags.props)])]
      ensures bridge.errors == old(bridge.errors)
    {
      tags.StringifyNonStrings(text);
      bridge.Exec(Send("addTags", [Obj(tags.props)]));
    }

    /** `removeTag(key)`: sends `[key]`. */
    method RemoveTag(key: string)
      modifies bridge
      ensures bridge.calls == old(bridge.calls) + [Send("removeTags", [Str(key)])]
      ensures bridge.errors == old(bridge.errors)
    {
      bridge.Exec(Send("removeTags", [Str(key)]));
    }

    /** `removeTags(keys)`: the key list itself is the argument array. */
    method RemoveTags(keys: seq<string>)
      modifies bridge
      ensures bridge.calls == old(bridge.calls) + [Send("removeTags", StrList(keys))]
      ensures bridge.errors == old(bridge.errors)
    {
      bridge.Exec(Send("removeTags", StrList(keys)));
    }

    /** `getTags()`: asks the native side with `resolve` and `reject` as the callbacks. */
    method GetTags()
      modifies bridge
      ensures bridge.calls == old(bridge.calls) +
                [ExecCall(Internal("resolve"), Internal("reject"), Service, "getTags", Some([]))]
      ensures bridge.errors == old(bridge.errors)
    {
      bridge.Exec(ExecCall(Internal("resolve"), Internal("reject"), Service, "getTags", Some([])));
    }

    /** `addEventListener("change", listener)`: appends and registers a native observer. */
    method AddEventListener(listener: Value)
      modifies this, bridge
      ensures observers == old(observers) + [listener]
      ensures delivered == old(delivered)
      ensures bridge.calls == old(bridge.calls) +
                [ExecCall(Internal("userCallBackProcessor"), Noop, Service, "addUserStateObserver", Some([]))]
      ensures bridge.errors == old(bridge.errors)
    {
      observers := observers + [listener];
      bridge.Exec(ExecCall(Internal("userCallBackProcessor"), Noop, Service, "addUserStateObserver", Some([])));
    }

    /** `removeEventListener("change", listener)`: removes the first match only. */
    method RemoveEventListener(listener: Value)
      modifies this
      ensures observers == RemoveFirst(old(observers), listener)
      ensures delivered == old(delivered)
    {
      var index := IndexOf(observers, listener);
      if index != -1 {
        RemoveFirstAt(observers, listener, index);
        observers := observers[..index] + observers[index + 1..];
      } else {
        RemoveFirstAbsent(observers, listener);
      }
    }

    /** A user-state event: every observer, in order, receives the same state. */
    method OnUserStateChange(state: Value)
      modifies this
      ensures delivered == old(delivered) + Broadcast(observers, state)
      ensures observers == old(observers)
    {
      var calls := ProcessFunctionList(observers, state);
      delivered := delivered + calls;
    }
  }

  /**
   * After removing one of two registrations of the same observer, the other
   * still fires: the observer keeps exactly one fewer place in the list.
   */
  lemma RemovingOneOfDuplicatesKeepsTheOther(observers: seq<Value>, listener: Value)
    requires multiset(observers)[listener] >= 2
    ensures listener in RemoveFirst(observers, listener)
    ensures multiset(RemoveFirst(observers, listener))[listener] == multiset(observers)[listener] - 1
  {
    RemoveFirstSpec(observers, listener);
  }
}
