/** `OneSignal.User.pushSubscription`: the cached id, token and opted-in flag, and the observer list. */
module PushSubscriptionNamespace {
  import opened Json
  import opened Wrappers
  import opened Bridge
  import opened Helpers

  /** A registered observer: a function of the app, or the plugin's own state tracker. */
  datatype Observer = App(f: Value) | StateTracker

  class PushSubscription {
    /** `_id`, `_token`, `_optedIn`: undefined until a value arrives. */
    var id: Value
    var token: Value
    var optedInValue: Value
    var observers: seq<Observer>
    var delivered: seq<Delivery<Observer, map<string, Value>>>
    const bridge: Cordova

    constructor (bridge: Cordova)
      ensures this.bridge == bridge
      ensures id == Undefined && token == Undefined && optedInValue == Undefined
      ensures observers == [] && delivered == []
    {
      this.bridge := bridge;
      id := Undefined;
      token := Undefined;
      optedInValue := Undefined;
      observers := [];
      delivered := [];
    }

    /** The `optedIn` getter: `this._optedIn || false`. */
    function OptedIn(): (r: Value)
      reads this
      ensures Truthy(optedInValue) ==> r == optedInValue
      ensures !Truthy(optedInValue) ==> r == Bool(false)
    {
      if Truthy(optedInValue) then optedInValue else Bool(false)
    }

    /** `_setPropertiesAndObserver()`: three initial reads, then the plugin's own observer. */
    method SetPropertiesAndObserver()
      modifies this, bridge
      ensures bridge.calls == old(bridge.calls) +
                [ExecCall(Internal("getIdCallback"), Noop, Service, "getPushSubscriptionId", None),
                 ExecCall(Internal("getTokenCallback"), Noop, Service, "getPushSubscriptionToken", None),
                 ExecCall(Internal("getOptedInCallback"), Noop, Service, "getPushSubscriptionOptedIn", None),
                 ExecCall(Internal("subscriptionCallBackProcessor"), Noop, Service, "addPushSubscriptionObserver", Some([]))]
      ensures observers == old(observers) + [StateTracker]
      ensures id == old(id) && token == old(token) && optedInValue == old(optedInValue)
      ensures delivered == old(delivered) && bridge.errors == old(bridge.errors)
    {
      bridge.Exec(ExecCall(Internal("getIdCallback"), Noop, Service, "getPushSubscriptionId", None));
      bridge.Exec(ExecCall(Internal("getTokenCallback"), Noop, Service, "getPushSubscriptionToken", None));
      bridge.Exec(ExecCall(Internal("getOptedInCallback"), Noop, Service, "getPushSubscriptionOptedIn", None));
      AddObserver(StateTracker);
    }

    /** The reply to `getPushSubscriptionId`: sets the id only. */
    method OnGetId(obj: map<string, Value>)
      modifies this
      ensures id == Prop(obj, "value")
      ensures token == old(token) && optedInValue == old(optedInValue)
      ensures observers == old(observers) && delivered == old(delivered)
    {
      id := Prop(obj, "value");
    }

    /** The reply to `getPushSubscriptionToken`: sets the token only. */
    method OnGetToken(obj: map<string, Value>)
      modifies this
      ensures token == Prop(obj, "value")
      ensures id == old(id) && optedInValue == old(optedInValue)
      ensures observers == old(observers) && delivered == old(delivered)
    {
      token := Prop(obj, "value");
    }

    /** The reply to `getPushSubscriptionOptedIn`: sets the opted-in flag only. */
    method OnGetOptedIn(obj: map<string, Value>)
      modifies this
      ensures optedInValue == Prop(obj, "value")
      ensures OptedIn() == (if Truthy(Prop(obj, "value")) then Prop(obj, "value") else Bool(false))
      ensures id == old(id) && token == old(token)
      ensures observers == old(observers) && delivered == old(delivered)
    {
      optedInValue := Prop(obj, "value");
    }

    /** `addObserver(observer)`: appends and registers a native observer. */
    method AddObserver(observer: Observer)
      modifies this, bridge
      ensures observers == old(observers) + [observer]
      ensures bridge.calls == old(bridge.calls) +
                [ExecCall(Internal("subscriptionCallBackProcessor"), Noop, Service, "addPushSubscriptionObserver", Some([]))]
      ensures id == old(id) && token == old(token) && optedInValue == old(optedInValue)
      ensures delivered == old(delivered) && bridge.errors == old(bridge.errors)
    {
      observers := observers + [observer];
      bridge.Exec(ExecCall(Internal("subscriptionCallBackProcessor"), Noop, Service, "addPushSubscriptionObserver", Some([])));
    }

    /** `removeObserver(observer)`: removes the first match; an absent observer changes nothing. */
    method RemoveObserver(observer: Observer)
      modifies this
      ensures observers == RemoveFirst(old(observers), observer)
      ensures id == old(id) && token == old(token) && optedInValue == old(optedInValue)
      ensures delivered == old(delivered)
    {
      observers := RemoveListener(observers, observer);
    }

    /**
     * A subscription-change event: every observer, in order, receives the state;
     * when the plugin's tracker is registered it overwrites id, token and the
     * opted-in flag together.
     */
    method OnSubscriptionChange(state: map<string, Value>)
      modifies this
      ensures delivered == old(delivered) + Broadcast(observers, state)
      ensures observers == old(observers)
      ensures StateTracker in observers ==>
                id == Prop(state, "id") && token == Prop(state, "token") && optedInValue == Prop(state, "optedIn")
      ensures StateTracker !in observers ==>
                id == old(id) && token == old(token) && optedInValue == old(optedInValue)
    {
      var calls := ProcessFunctionList(observers, state);
      delivered := delivered + calls;
      if StateTracker in observers {
        id := Prop(state, "id");
        token := Prop(state, "token");
        optedInValue := Prop(state, "optedIn");
      }
    }

    /** `optIn()`: action "OptInPushSubscription", with a capital O and no argument array. */
    method OptIn()
      modifies bridge
      ensures bridge.calls == old(bridge.calls) + [ExecCall(Noop, Noop, Service, "OptInPushSubscription", None)]
      ensures bridge.errors == old(bridge.errors)
    {
      bridge.Exec(ExecCall(Noop, Noop, Service, "OptInPushSubscription", None));
    }

    /** `optOut()`: action "optOutPushSubscription", no argument array. */
    method OptOut()
      modifies bridge
      ensures bridge.calls == old(bridge.calls) + [ExecCall(Noop, Noop, Service, "optOutPushSubscription", None)]
      ensures bridge.errors == old(bridge.errors)
    {
      bridge.Exec(ExecCall(Noop, Noop, Service, "optOutPushSubscription", None));
    }
  }
}
