/**
 * The JavaScript side of the Cordova bridge: `cordova.exec(success, failure,
 * service, action, args)` is recorded in a call log, and `console.error` in an
 * error log.  The native side answers later by invoking the success callback,
 * which the namespace classes model as methods of their own.
 */
module Bridge {
  import opened Json
  import opened Wrappers

  /** Every call the plugin makes targets this service. */
  const Service: string := "OneSignalPush"

  /** A callback handed to `exec`. */
  datatype Callback =
    | Noop                    // `function(){}`
    | UserFunction(f: Value)  // a function the app passed in
    | Internal(name: string)  // a closure of the plugin, named after its role
    | Wrapped(name: string, target: Value)  // a closure of the plugin that forwards to `target`

  /** One `exec` call; `args` is `None` when the call passes no argument array. */
  datatype ExecCall = ExecCall(success: Callback, failure: Callback, service: string, action: string, args: Option<seq<Value>>)

  /** A call with no-op callbacks, the most common shape. */
  function Send(action: string, args: seq<Value>): ExecCall {
    ExecCall(Noop, Noop, Service, action, Some(args))
  }

  class Cordova {
    var calls: seq<ExecCall>
    var errors: seq<string>

    constructor ()
      ensures calls == [] && errors == []
    {
      calls := [];
      errors := [];
    }

    method Exec(call: ExecCall)
      modifies this
      ensures calls == old(calls) + [call]
      ensures errors == old(errors)
    {
      calls := calls + [call];
    }

    method ConsoleError(message: string)
      modifies this
      ensures errors == old(errors) + [message]
      ensures calls == old(calls)
    {
      errors := errors + [message];
    }
  }
}
