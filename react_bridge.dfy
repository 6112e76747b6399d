/** The JavaScript side as the native code sees it: a React context that may
    or may not exist, and the device event emitter behind it. */
module ReactBridge {

  /** The single event name both native emitters use. */
  const IncomingSmsEvent: string := "SimCashIncomingSms"

  /** One emitted event with its `{sender, body}` parameter map. */
  datatype JsEvent = JsEvent(name: string, sender: string, body: string)

  function IncomingSms(sender: string, body: string): (e: JsEvent)
    ensures e.name == IncomingSmsEvent && e.sender == sender && e.body == body
  {
    JsEvent(IncomingSmsEvent, sender, body)
  }

  /** A non-null `currentReactContext`; `emitThrows` is the outcome (an
      oracle) of the one `emit` the caller is about to make through it. */
  datatype ReactContext = ReactContext(emitThrows: bool)

  /** `RCTDeviceEventEmitter`: every event it accepted reaches JavaScript,
      in order. */
  class DeviceEventEmitter {
    var delivered: seq<JsEvent>

    constructor ()
      ensures delivered == []
    {
      delivered := [];
    }

    /** `emit(name, params)`; `throws` says whether the call throws instead. */
    method Emit(event: JsEvent, throws: bool) returns (ok: bool)
      modifies this
      ensures ok == !throws
      ensures delivered == if throws then old(delivered) else old(delivered) + [event]
    {
      ok := !throws;
      if ok {
        delivered := delivered + [event];
      }
    }
  }
}
