/**
 * `OneSignal.Notifications`: the permission flag, the permission prompt and
 * three listener lists (click, foreground will-display, permission change).
 */
module NotificationsNamespace {
  import opened Json
  import opened Wrappers
  import opened Bridge
  import opened Helpers

  /** A registered listener: a function of the app, or the plugin's own permission tracker. */
  datatype Listener = App(f: Value) | PermissionTracker

  /** What a listener is called with. */
  datatype NotificationEvent =
    | Clicked(json: Value)
    | WillDisplay(notification: map<string, Value>)  // a will-display event wrapping the notification
    | PermissionChanged(granted: Value)

  /** How `requestPermission` reads its overloaded arguments. */
  datatype PermissionRequest = PermissionRequest(fallbackToSettings: bool, handler: Value)

  /**
   * `requestPermission(fallbackToSettingsOrHandler?, handler?)`: a function in
   * first place is the handler (no fallback); a boolean there is the fallback
   * (the second argument stays the handler); anything else means no fallback.
   */
  function ResolveRequestPermission(first: Value, handler: Value): (r: PermissionRequest)
    ensures first.Fun? ==> r == PermissionRequest(false, first)
    ensures first.Bool? ==> r == PermissionRequest(first.b, handler)
    ensures !first.Fun? && !first.Bool? ==> r == PermissionRequest(false, handler)
  {
    if TypeOf(first) == "function" then PermissionRequest(false, first)
    else if TypeOf(first) == "boolean" then PermissionRequest(first.b, handler)
    else PermissionRequest(false, handler)
  }

  /** The plugin's reply closure for `requestPermission`: forwards the answer when a handler was given. */
  function RequestPermissionReply(handler: Value, response: Value): (calls: seq<Delivery<Value, Value>>)
    ensures Truthy(handler) ==> calls == [Delivery(handler, response)]
    ensures !Truthy(handler) ==> calls == []
  {
    if Truthy(handler) then [Delivery(handler, response)] else []
  }

  const Click: string := "click"
  const ForegroundWillDisplay: string := "foregroundWillDisplay"
  const PermissionChange: string := "permissionChange"

  class Notifications {
    var permissionObservers: seq<Listener>
    var clickListeners: seq<Listener>
    var willDisplayListeners: seq<Listener>
    /** `_permission`: undefined until a value arrives. */
    var permissionValue: Value
    /** Every call made to a listener so far. */
    var delivered: seq<Delivery<Listener, NotificationEvent>>
    const bridge: Cordova

    constructor (bridge: Cordova)
      ensures this.bridge == bridge
      ensures permissionObservers == [] && clickListeners == [] && willDisplayListeners == []
      ensures permissionValue == Undefined && delivered == []
    {
      this.bridge := bridge;
      permissionObservers := [];
      clickListeners := [];
      willDisplayListeners := [];
      permissionValue := Undefined;
      delivered := [];
    }

    /** The `permission` getter: `this._permission || false`. */
    function Permission(): (r: Value)
      reads this
      ensures Truthy(permissionValue) ==> r == permissionValue
      ensures !Truthy(permissionValue) ==> r == Bool(false)
    {
      if Truthy(permissionValue) then permissionValue else Bool(false)
    }

    /** `_setPropertyAndObserver()`: asks for the current permission, then tracks permission changes. */
    method SetPropertyAndObserver()
      modifies this, bridge
      ensures bridge.calls == old(bridge.calls) +
                [ExecCall(Internal("getPermissionCallback"), Noop, Service, "getPermissionInternal", None),
                 ExecCall(Internal("permissionCallBackProcessor"), Noop, Service, "addPermissionObserver", Some([]))]
      ensures permissionObservers == old(permissionObservers) + [PermissionTracker]
      ensures clickListeners == old(clickListeners) && willDisplayListeners == old(willDisplayListeners)
      ensures permissionValue == old(permissionValue) && delivered == old(delivered)
      ensures bridge.errors == old(bridge.errors)
    {
      bridge.Exec(ExecCall(Internal("getPermissionCallback"), Noop, Service, "getPermissionInternal", None));
      AddEventListener(PermissionChange, PermissionTracker);
    }

    /** The reply to `getPermissionInternal`: `{value}` becomes the permission. */
    method OnGetPermission(obj: map<string, Value>)
      modifies this
      ensures permissionValue == Prop(obj, "value")
      ensures Permission() == (if Truthy(Prop(obj, "value")) then Prop(obj, "value") else Bool(false))
      ensures permissionObservers == old(permissionObservers) && clickListeners == old(clickListeners)
      ensures willDisplayListeners == old(willDisplayListeners) && delivered == old(delivered)
    {
      permissionValue := Prop(obj, "value");
    }

    /** `requestPermission(...)`: always sends `[fallbackToSettings]`, with a reply closure wrapping the handler. */
    method RequestPermission(first: Value, handler: Value)
      modifies bridge
      ensures var req := ResolveRequestPermission(first, handler);
              bridge.calls == old(bridge.calls) +
                [ExecCall(Wrapped("requestPermission", req.handler), Noop, Service, "requestPermission",
                          Some([Bool(req.fallbackToSettings)]))]
      ensures bridge.errors == old(bridge.errors)
    {
      var req := ResolveRequestPermission(first, handler);
      bridge.Exec(ExecCall(Wrapped("requestPermission", req.handler), Noop, Service, "requestPermission",
                           Some([Bool(req.fallbackToSettings)])));
    }

    /**
     * `addEventListener(event, listener)`: appends to that event's list and
     * registers a native callback; an unknown event does nothing.
     */
    method AddEventListener(event: string, listener: Listener)
      modifies this, bridge
      ensures event == Click ==>
                clickListeners == old(clickListeners) + [listener] &&
                bridge.calls == old(bridge.calls) +
                  [ExecCall(Internal("clickParsingHandler"), Noop, Service, "addNotificationClickListener", Some([]))]
      ensures event == ForegroundWillDisplay ==>
                willDisplayListeners == old(willDisplayListeners) + [listener] &&
                bridge.calls == old(bridge.calls) +
                  [ExecCall(Internal("foregroundParsingHandler"), Noop, Service, "addForegroundLifecycleListener", Some([]))]
      ensures event == PermissionChange ==>
                permissionObservers == old(permissionObservers) + [listener] &&
                bridge.calls == old(bridge.calls) +
                  [ExecCall(Internal("permissionCallBackProcessor"), Noop, Service, "addPermissionObserver", Some([]))]
      ensures event != Click && event != ForegroundWillDisplay && event != PermissionChange ==>
                bridge.calls == old(bridge.calls)
      ensures event != Click ==> clickListeners == old(clickListeners)
      ensures event != ForegroundWillDisplay ==> willDisplayListeners == old(willDisplayListeners)
      ensures event != PermissionChange ==> permissionObservers == old(permissionObservers)
      ensures permissionValue == old(permissionValue) && delivered == old(delivered)
      ensures bridge.errors == old(bridge.errors)
    {
      if event == Click {
        clickListeners := clickListeners + [listener];
        bridge.Exec(ExecCall(Internal("clickParsingHandler"), Noop, Service, "addNotificationClickListener", Some([])));
      } else if event == ForegroundWillDisplay {
        willDisplayListeners := willDisplayListeners + [listener];
        bridge.Exec(ExecCall(Internal("foregroundParsingHandler"), Noop, Service, "addForegroundLifecycleListener", Some([])));
      } else if event == PermissionChange {
        permissionObservers := permissionObservers + [listener];
        bridge.Exec(ExecCall(Internal("permissionCallBackProcessor"), Noop, Service, "addPermissionObserver", Some([])));
      } else {
        return;
      }
    }

    /**
     * `removeEventListener(event, listener)`: removes the first match from that
     * event's list only; no native call; an unknown event changes nothing.
     */
    method RemoveEventListener(event: string, listener: Listener)
      modifies this
      ensures clickListeners == if event == Click then RemoveFirst(old(clickListeners), listener) else old(clickListeners)
      ensures willDisplayListeners ==
                if event == ForegroundWillDisplay then RemoveFirst(old(willDisplayListeners), listener)
                else old(willDisplayListeners)
      ensures permissionObservers ==
                if event == PermissionChange then RemoveFirst(old(permissionObservers), listener)
                else old(permissionObservers)
      ensures permissionValue == old(permissionValue) && delivered == old(delivered)
    {
      if event == Click {
        clickListeners := RemoveListener(clickListeners, listener);
      } else if event == ForegroundWillDisplay {
        willDisplayListeners := RemoveListener(willDisplayListeners, listener);
      } else if event == PermissionChange {
        permissionObservers := RemoveListener(permissionObservers, listener);
      } else {
        return;
      }
    }

    /** A click event: every click listener, in order, receives the same payload. */
    method OnClick(json: Value)
      modifies this
      ensures delivered == old(delivered) + Broadcast(clickListeners, Clicked(json))
      ensures clickListeners == old(clickListeners) && willDisplayListeners == old(willDisplayListeners)
      ensures permissionObservers == old(permissionObservers) && permissionValue == old(permissionValue)
    {
      var calls := ProcessFunctionList(clickListeners, Clicked(json));
      delivered := delivered + calls;
    }

    /**
     * A foreground event: each will-display listener receives a will-display
     * event for the notification, then one `proceedWithWillDisplay` is sent.
     */
    method OnForegroundWillDisplay(notification: map<string, Value>)
      modifies this, bridge
      ensures delivered == old(delivered) + Broadcast(willDisplayListeners, WillDisplay(notification))
      ensures bridge.calls == old(bridge.calls) + [Send("proceedWithWillDisplay", [Prop(notification, "notificationId")])]
      ensures clickListeners == old(clickListeners) && willDisplayListeners == old(willDisplayListeners)
      ensures permissionObservers == old(permissionObservers) && permissionValue == old(permissionValue)
      ensures bridge.errors == old(bridge.errors)
    {
      ghost var before := delivered;
      for i := 0 to |willDisplayListeners|
        invariant clickListeners == old(clickListeners) && willDisplayListeners == old(willDisplayListeners)
        invariant permissionObservers == old(permissionObservers) && permissionValue == old(permissionValue)
        invariant bridge.calls == old(bridge.calls) && bridge.errors == old(bridge.errors)
        invariant delivered == before + Broadcast(willDisplayListeners[..i], WillDisplay(notification))
      {
        assert willDisplayListeners[..i + 1][..i] == willDisplayListeners[..i];
        delivered := delivered + [Delivery(willDisplayListeners[i], WillDisplay(notification))];
      }
      assert willDisplayListeners[..|willDisplayListeners|] == willDisplayListeners;
      bridge.Exec(Send("proceedWithWillDisplay", [Prop(notification, "notificationId")]));
    }

    /**
     * A permission-change event: every observer, in order, receives the new
     * value; when the plugin's tracker is among them the permission takes it.
     */
    method OnPermissionChange(granted: Value)
      modifies this
      ensures delivered == old(delivered) + Broadcast(permissionObservers, PermissionChanged(granted))
      ensures permissionValue == if PermissionTracker in permissionObservers then granted else old(permissionValue)
      ensures clickListeners == old(clickListeners) && willDisplayListeners == old(willDisplayListeners)
      ensures permissionObservers == old(permissionObservers)
    {
      var calls := ProcessFunctionList(permissionObservers, PermissionChanged(granted));
      delivered := delivered + calls;
      if PermissionTracker in permissionObservers {
        permissionValue := granted;
      }
    }
  }

  /** The fallback flag sent is true only when the first argument is literally `true`. */
  lemma FallbackOnlyFromBoolean(first: Value, handler: Value)
    ensures ResolveRequestPermission(first, handler).fallbackToSettings <==> first == Bool(true)
    ensures first.Fun? ==> ResolveRequestPermission(first, handler).handler == first
    ensures !first.Fun? ==> ResolveRequestPermission(first, handler).handler == handler
  {
  }
}
