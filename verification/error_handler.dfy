/**
 * `ErrorHandler` (`utils/error_handler.py`): the callbacks registered per
 * error class, the recovery actions per error code, `handle_error`'s
 * conversion and dispatch, and the shared instance of `get_error_handler`.
 * Callbacks, actions and the Tk window are opaque identifiers; logging and
 * dialogs are not modelled beyond whether a dialog is shown.
 */
module ErrorHandlers {
  import opened Wrappers
  import opened ErrorSpec

  /** A registered callable, known by an identifier. */
  type Callback = nat

  class ErrorHandler {
    /** The Tk window dialogs are shown on, if any. */
    var app: Option<nat>
    /** `_error_callbacks`: class name to the callbacks registered for it, in order. */
    var errorCallbacks: map<string, seq<Callback>>
    /** `_recovery_actions`: error code to its action. */
    var recoveryActions: map<string, Callback>

    constructor(app: Option<nat>)
      ensures this.app == app && errorCallbacks == map[] && recoveryActions == map[]
    {
      this.app := app;
      errorCallbacks := map[];
      recoveryActions := map[];
    }

    /** The callbacks registered for a class name, none when it has no list. */
    function CallbacksFor(errorType: string): seq<Callback>
      reads this
    {
      if errorType in errorCallbacks then errorCallbacks[errorType] else []
    }

    /** `register_error_callback`: the callback is appended after those already registered for the class. */
    method RegisterErrorCallback(errorType: string, callback: Callback)
      modifies this
      ensures errorCallbacks == old(errorCallbacks)[errorType := old(CallbacksFor(errorType)) + [callback]]
      ensures app == old(app) && recoveryActions == old(recoveryActions)
    {
      if errorType !in errorCallbacks {
        errorCallbacks := errorCallbacks[errorType := []];
      }
      errorCallbacks := errorCallbacks[errorType := errorCallbacks[errorType] + [callback]];
    }

    /** `register_recovery_action`: the action replaces any earlier one for the code. */
    method RegisterRecoveryAction(errorCode: string, action: Callback)
      modifies this
      ensures recoveryActions == old(recoveryActions)[errorCode := action]
      ensures app == old(app) && errorCallbacks == old(errorCallbacks)
    {
      recoveryActions := recoveryActions[errorCode := action];
    }

    /**
     * `handle_error`: the exception as a `WSError` (passed through when it
     * already is one, classified otherwise), the callbacks called with it in
     * registration order, and whether a dialog is shown.
     */
    method HandleError(error: Raised, showDialog: bool) returns (ws: WSError, called: seq<Callback>, dialog: bool)
      ensures error.Ws? ==> ws == error.error
      ensures error.Other? ==> ws == Classify(error.typeName, error.text)
      ensures called == CallbacksFor(KindName(ws.kind))
      ensures dialog <==> showDialog && app.Some?
    {
      if error.Other? {
        ws := Classify(error.typeName, error.text);
      } else {
        ws := error.error;
      }
      var errorType := KindName(ws.kind);
      called := [];
      if errorType in errorCallbacks {
        var callbacks := errorCallbacks[errorType];
        var i := 0;
        while i < |callbacks|
          invariant 0 <= i <= |callbacks|
          invariant called == callbacks[..i]
        {
          called := called + [callbacks[i]];
          i := i + 1;
        }
        assert callbacks[..|callbacks|] == callbacks;
      }
      dialog := showDialog && app.Some?;
    }
  }

  /** The module global `_error_handler`. */
  class Global {
    var handler: ErrorHandler?

    constructor()
      ensures handler == null
    {
      handler := null;
    }

    /**
     * `get_error_handler`: the first call creates the shared handler with
     * `app`; later calls return the same handler, attaching `app` only when
     * the handler has none yet.
     */
    method GetErrorHandler(app: Option<nat>) returns (h: ErrorHandler)
      modifies this, handler
      ensures handler == h
      ensures old(handler) == null ==> fresh(h) && h.app == app && h.errorCallbacks == map[] && h.recoveryActions == map[]
      ensures old(handler) != null ==>
        (&& h == old(handler)
         && h.app == (if app.Some? && old(handler.app).None? then app else old(handler.app))
         && h.errorCallbacks == old(handler.errorCallbacks) && h.recoveryActions == old(handler.recoveryActions))
    {
      if handler == null {
        handler := new ErrorHandler(app);
      } else if app.Some? && handler.app.None? {
        handler.app := app;
      }
      h := handler;
    }
  }
}
