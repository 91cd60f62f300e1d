/** `OneSignal.InAppMessages`: triggers, the click delegate and the four lifecycle delegates. */
module InAppMessagesNamespace {
  import opened Json
  import opened Wrappers
  import opened Bridge
  import opened Helpers

  /** A delegate slot: the initial empty function, or the app's handler. */
  datatype Delegate = Empty | Handler(f: Value)

  /** The four lifecycle events, in the order `setLifecycleHandler` examines them. */
  datatype LifecycleEvent = WillDisplay | DidDisplay | WillDismiss | DidDismiss

  /** The property of the handler object that supplies a lifecycle event's delegate. */
  function HandlerKey(e: LifecycleEvent): string {
    match e
    case WillDisplay => OnWillDisplayKey
    case DidDisplay => OnDidDisplayKey
    case WillDismiss => OnWillDismissKey
    case DidDismiss => OnDidDismissKey
  }

  const OnWillDisplayKey: string := "onWillDisplayInAppMessage"
  const OnDidDisplayKey: string := "onDidDisplayInAppMessage"
  const OnWillDismissKey: string := "onWillDismissInAppMessage"
  const OnDidDismissKey: string := "onDidDismissInAppMessage"

  /** The native action that registers a lifecycle event's handler. */
  function RegisterAction(e: LifecycleEvent): string {
    match e
    case WillDisplay => SetOnWillDisplay
    case DidDisplay => SetOnDidDisplay
    case WillDismiss => SetOnWillDismiss
    case DidDismiss => SetOnDidDismiss
  }

  const SetOnWillDisplay: string := "setOnWillDisplayInAppMessageHandler"
  const SetOnDidDisplay: string := "setOnDidDisplayInAppMessageHandler"
  const SetOnWillDismiss: string := "setOnWillDismissInAppMessageHandler"
  const SetOnDidDismiss: string := "setOnDidDismissInAppMessageHandler"

  /** The native action sent last by `setLifecycleHandler`. */
  const SetLifecycleHandlerAction: string := "setLifecycleHandler"

  function Registration(e: LifecycleEvent): ExecCall {
    ExecCall(Internal(RegisterAction(e)), Noop, Service, RegisterAction(e), Some([]))
  }

  /** The registration sent for `e` when the handler object supplies a truthy callback for it. */
  function RegistrationIf(handlers: map<string, Value>, e: LifecycleEvent): seq<ExecCall> {
    if Truthy(Prop(handlers, HandlerKey(e))) then [Registration(e)] else []
  }

  /** The registrations `setLifecycleHandler` sends, in its fixed order. */
  function Registrations(handlers: map<string, Value>): seq<ExecCall> {
    RegistrationIf(handlers, WillDisplay) + RegistrationIf(handlers, DidDisplay) +
    RegistrationIf(handlers, WillDismiss) + RegistrationIf(handlers, DidDismiss)
  }

  /** Registering the four slots one call after another appends `Registrations`. */
  lemma RegistrationsAppend(calls: seq<ExecCall>, handlers: map<string, Value>)
    ensures calls + RegistrationIf(handlers, WillDisplay) + RegistrationIf(handlers, DidDisplay) +
            RegistrationIf(handlers, WillDismiss) + RegistrationIf(handlers, DidDismiss) ==
            calls + Registrations(handlers)
  {
  }

  /** The new delegate of a slot: the supplied callback when truthy, else the old delegate. */
  function Replaced(handlers: map<string, Value>, e: LifecycleEvent, old_: Delegate): Delegate {
    if Truthy(Prop(handlers, HandlerKey(e))) then Handler(Prop(handlers, HandlerKey(e))) else old_
  }

  /** The plugin's `isPaused` reply closure hands `obj.value` to the handler. */
  function IsPausedReply(handler: Value, obj: map<string, Value>): (r: Delivery<Value, Value>)
    ensures r.listener == handler
    ensures "value" in obj ==> r.event == obj["value"]
    ensures "value" !in obj ==> r.event == Undefined
  {
    Delivery(handler, Prop(obj, "value"))
  }

  class InAppMessages {
    var clickDelegate: Delegate
    var willDisplayDelegate: Delegate
    var didDisplayDelegate: Delegate
    var willDismissDelegate: Delegate
    var didDismissDelegate: Delegate
    /** Every call made to a delegate so far. */
    var delivered: seq<Delivery<Value, Value>>
    const bridge: Cordova

    constructor (bridge: Cordova)
      ensures this.bridge == bridge && clickDelegate == Empty && delivered == []
      ensures willDisplayDelegate == Empty && didDisplayDelegate == Empty
      ensures willDismissDelegate == Empty && didDismissDelegate == Empty
    {
      this.bridge := bridge;
      clickDelegate := Empty;
      willDisplayDelegate := Empty;
      didDisplayDelegate := Empty;
      willDismissDelegate := Empty;
      didDismissDelegate := Empty;
      delivered := [];
    }

    /** The delegate slot of a lifecycle event. */
    function Slot(e: LifecycleEvent): Delegate
      reads this
    {
      match e
      case WillDisplay => willDisplayDelegate
      case DidDisplay => didDisplayDelegate
      case WillDismiss => willDismissDelegate
      case DidDismiss => didDismissDelegate
    }

    /** `setClickHandler(handler)`: replaces the single delegate and registers the native handler. */
    method SetClickHandler(handler: Value)
      modifies this, bridge
      ensures clickDelegate == Handler(handler)
      ensures willDisplayDelegate == old(willDisplayDelegate) && didDisplayDelegate == old(didDisplayDelegate)
      ensures willDismissDelegate == old(willDismissDelegate) && didDismissDelegate == old(didDismissDelegate)
      ensures delivered == old(delivered)
      ensures bridge.calls == old(bridge.calls) +
                [ExecCall(Internal("inAppMessageClickHandler"), Noop, Service, "setClickHandler", Some([]))]
      ensures bridge.errors == old(bridge.errors)
    {
      clickDelegate := Handler(handler);
      bridge.Exec(ExecCall(Internal("inAppMessageClickHandler"), Noop, Service, "setClickHandler", Some([])));
    }

    /** A click event reaches only the current delegate. */
    method OnClick(json: Value)
      modifies this
      ensures delivered == old(delivered) + (if clickDelegate.Handler? then [Delivery(clickDelegate.f, json)] else [])
      ensures clickDelegate == old(clickDelegate)
      ensures willDisplayDelegate == old(willDisplayDelegate) && didDisplayDelegate == old(didDisplayDelegate)
      ensures willDismissDelegate == old(willDismissDelegate) && didDismissDelegate == old(didDismissDelegate)
    {
      if clickDelegate.Handler? {
        delivered := delivered + [Delivery(clickDelegate.f, json)];
      }
    }

    /**
     * `setLifecycleHandler(handlerObject)`: for each of the four callbacks that
     * is present (truthy), replaces that delegate and registers its native
     * handler; then always sends one `setLifecycleHandler`.
     */
    method SetLifecycleHandler(handlers: map<string, Value>)
      modifies this, bridge
      ensures willDisplayDelegate == Replaced(handlers, WillDisplay, old(willDisplayDelegate))
      ensures didDisplayDelegate == Replaced(handlers, DidDisplay, old(didDisplayDelegate))
      ensures willDismissDelegate == Replaced(handlers, WillDismiss, old(willDismissDelegate))
      ensures didDismissDelegate == Replaced(handlers, DidDismiss, old(didDismissDelegate))
      ensures bridge.calls == old(bridge.calls) + Registrations(handlers) + [Send(SetLifecycleHandlerAction, [])]
      ensures clickDelegate == old(clickDelegate) && delivered == old(delivered)
      ensures bridge.errors == old(bridge.errors)
    {
      ghost var calls0 := bridge.calls;
      ReplaceSlot(handlers, WillDisplay);
      ReplaceSlot(handlers, DidDisplay);
      ReplaceSlot(handlers, WillDismiss);
      ReplaceSlot(handlers, DidDismiss);
      RegistrationsAppend(calls0, handlers);
      bridge.Exec(Send(SetLifecycleHandlerAction, []));
    }

    /** One `if (handlerObject.onX) { ... }` block of `setLifecycleHandler`. */
    method ReplaceSlot(handlers: map<string, Value>, e: LifecycleEvent)
      modifies this, bridge
      ensures willDisplayDelegate == if e == WillDisplay then Replaced(handlers, e, old(willDisplayDelegate)) else old(willDisplayDelegate)
      ensures didDisplayDelegate == if e == DidDisplay then Replaced(handlers, e, old(didDisplayDelegate)) else old(didDisplayDelegate)
      ensures willDismissDelegate == if e == WillDismiss then Replaced(handlers, e, old(willDismissDelegate)) else old(willDismissDelegate)
      ensures didDismissDelegate == if e == DidDismiss then Replaced(handlers, e, old(didDismissDelegate)) else old(didDismissDelegate)
      ensures bridge.calls == old(bridge.calls) + RegistrationIf(handlers, e)
      ensures clickDelegate == old(clickDelegate) && delivered == old(delivered)
      ensures bridge.errors == old(bridge.errors)
    {
      var h := Prop(handlers, HandlerKey(e));
      if Truthy(h) {
        match e {
          case WillDisplay => willDisplayDelegate := Handler(h);
          case DidDisplay => didDisplayDelegate := Handler(h);
          case WillDismiss => willDismissDelegate := Handler(h);
          case DidDismiss => didDismissDelegate := Handler(h);
        }
        bridge.Exec(Registration(e));
      }
    }

    /** A lifecycle event reaches that event's delegate only. */
    method OnLifecycleEvent(e: LifecycleEvent, message: Value)
      modifies this
      ensures delivered == old(delivered) + (if Slot(e).Handler? then [Delivery(Slot(e).f, message)] else [])
      ensures clickDelegate == old(clickDelegate)
      ensures willDisplayDelegate == old(willDisplayDelegate) && didDisplayDelegate == old(didDisplayDelegate)
      ensures willDismissDelegate == old(willDismissDelegate) && didDismissDelegate == old(didDismissDelegate)
    {
      var slot := Slot(e);
      if slot.Handler? {
        delivered := delivered + [Delivery(slot.f, message)];
      }
    }

    /** `addTrigger(key, value)`: exactly `addTriggers({[key]: value})` on a fresh object. */
    method AddTrigger(key: string, value: Value, text: Value -> string)
      modifies bridge
      ensures bridge.calls == old(bridge.calls) + [Send("addTriggers", [Obj(StringValued(map[key := value], text))])]
      ensures bridge.errors == old(bridge.errors)
    {
      var obj := new JsObject(map[key := value]);
      AddTriggers(obj, text);
    }

    /** `addTriggers(triggers)`: stringifies non-string values in the caller's object, then sends `[triggers]`. */
    method AddTriggers(triggers: JsObject, text: Value -> string)
      modifies triggers, bridge
      ensures triggers.props == StringValued(old(triggers.props), text)
      ensures bridge.calls == old(bridge.calls) + [Send("addTriggers", [Obj(triggers.props)])]
      ensures bridge.errors == old(bridge.errors)
    {
      triggers.StringifyNonStrings(text);
      bridge.Exec(Send("addTriggers", [Obj(triggers.props)]));
    }

    /** `removeTrigger(key)`: exactly `removeTriggers([key])`. */
    method RemoveTrigger(key: string)
      modifies bridge
      ensures bridge.calls == old(bridge.calls) + [Send("removeTriggers", [Arr([Str(key)])])]
      ensures bridge.errors == old(bridge.errors)
    {
      RemoveTriggers(Arr([Str(key)]));
    }

    /** `removeTriggers(keys)`: a non-array is reported on the console, and the call is sent either way. */
    method RemoveTriggers(keys: Value)
      modifies bridge
      ensures bridge.calls == old(bridge.calls) + [Send("removeTriggers", [keys])]
      ensures bridge.errors == old(bridge.errors) +
                (if keys.Arr? then [] else ["OneSignal: removeTriggers: argument must be of type Array"])
    {
      if !keys.Arr? {
        bridge.ConsoleError("OneSignal: removeTriggers: argument must be of type Array");
      }
      bridge.Exec(Send("removeTriggers", [keys]));
    }

    /** `clearTriggers()`: no argument array. */
    method ClearTriggers()
      modifies bridge
      ensures bridge.calls == old(bridge.calls) + [ExecCall(Noop, Noop, Service, "clearTriggers", None)]
      ensures bridge.errors == old(bridge.errors)
    {
      bridge.Exec(ExecCall(Noop, Noop, Service, "clearTriggers", None));
    }

    /** `isPaused(handler)`: asks the native side with a reply closure that unwraps `obj.value`. */
    method IsPaused(handler: Value)
      modifies bridge
      ensures bridge.calls == old(bridge.calls) + [ExecCall(Wrapped("isPausedCallback", handler), Noop, Service, "isPaused", Some([]))]
      ensures bridge.errors == old(bridge.errors)
    {
      bridge.Exec(ExecCall(Wrapped("isPausedCallback", handler), Noop, Service, "isPaused", Some([])));
    }
  }

  /** Different lifecycle events register under different actions. */
  lemma RegisterActionInjective(e: LifecycleEvent, e': LifecycleEvent)
    requires e != e'
    ensures RegisterAction(e) != RegisterAction(e')
  {
    var a, a' := RegisterAction(e), RegisterAction(e');
    if (e == WillDisplay || e == WillDismiss) != (e' == WillDisplay || e' == WillDismiss) {
      assert a[5] != a'[5];
    } else if e == WillDisplay || e == WillDismiss {
      assert a[12] != a'[12];
    } else {
      assert a[11] != a'[11];
    }
  }

  /** A registration is sent for an event exactly when its callback is present. */
  lemma RegistrationsExactlyPresent(handlers: map<string, Value>, e: LifecycleEvent)
    ensures Registration(e) in Registrations(handlers) <==> Truthy(Prop(handlers, HandlerKey(e)))
    ensures |Registrations(handlers)| <= 4
  {
    forall e' | e' != e
      ensures Registration(e) !in RegistrationIf(handlers, e')
    {
      RegisterActionInjective(e, e');
    }
    var r1, r2, r3, r4 := RegistrationIf(handlers, WillDisplay), RegistrationIf(handlers, DidDisplay),
                          RegistrationIf(handlers, WillDismiss), RegistrationIf(handlers, DidDismiss);
    assert Registrations(handlers) == r1 + r2 + r3 + r4;
    assert Registration(e) in Registrations(handlers) <==> Registration(e) in RegistrationIf(handlers, e) by {
      match e {
        case WillDisplay =>
        case DidDisplay =>
        case WillDismiss =>
        case DidDismiss =>
      }
    }
  }

  /** Non-string trigger values arrive as JSON text; string values arrive untouched. */
  lemma TriggersSentAsStrings(key: string, value: Value, text: Value -> string)
    ensures var sent := StringValued(map[key := value], text);
            key in sent &&
            (value.Str? ==> sent[key] == value) &&
            (!value.Str? && !value.Undefined? && !value.Fun? ==> sent[key] == Str(text(value)))
  {
  }
}
