/** `NativeSmsModule`, the native module JavaScript calls into: the drain
    that replays every parked message, and the two promise-returning
    decisions `isDefaultSmsApp` and `sendSms` with the operating-system
    calls replaced by their outcomes. */
module NativeSmsModule {
  import opened Common
  import opened AndroidPrefs
  import opened ReactBridge
  import opened PendingStore

  /** How a React Native promise is settled. */
  datatype PromiseResult = Resolved(value: bool) | Rejected(code: string, message: Option<string>)

  /** What `Telephony.Sms.getDefaultSmsPackage` did: return a (nullable)
      package name or throw an exception with a (nullable) message. */
  datatype PackageLookup = Returned(packageName: Option<string>) | Threw(message: Option<string>)

  /** `isDefaultSmsApp`: true exactly when the default SMS package is this
      app's own package; a throwing lookup rejects with `"ERR"`. */
  function IsDefaultSmsApp(lookup: PackageLookup, ownPackage: string): (r: PromiseResult)
    ensures r.Resolved? <==> lookup.Returned?
    ensures r == Resolved(true) <==> lookup == Returned(Some(ownPackage))
    ensures lookup.Threw? ==> r == Rejected("ERR", lookup.message)
  {
    match lookup
    case Returned(current) => Resolved(current == Some(ownPackage))
    case Threw(message) => Rejected("ERR", message)
  }

  datatype SmsManagerChoice = DefaultManager | ForSubscription(subscriptionId: int)

  /** The multipart send handed to the chosen `SmsManager`. */
  datatype SendRequest = SendRequest(manager: SmsManagerChoice, number: string, message: string)

  /** What happened inside the `try` of `sendSms`: everything returned, or
      a `SecurityException`, or any other exception, each with its message. */
  datatype SendOutcome = Sent | SecurityFailure(message: Option<string>) | OtherFailure(message: Option<string>)

  datatype SendResult = SendResult(request: SendRequest, promise: PromiseResult)

  /** Kotlin's `"${e.message}"` for a nullable message. */
  function Render(message: Option<string>): string
  {
    match message
    case Some(text) => text
    case None => "null"
  }

  /** `sendSms(number, message, subscriptionId, promise)`. */
  function SendSms(number: string, message: string, subscriptionId: Option<int>, outcome: SendOutcome)
    : (r: SendResult)
    ensures r.request.manager == DefaultManager <==> subscriptionId.None?
    ensures subscriptionId.Some? ==> r.request.manager == ForSubscription(subscriptionId.value)
    ensures r.request.number == number && r.request.message == message
    ensures r.promise == Resolved(true) <==> outcome.Sent?
    ensures r.promise.Resolved? ==> r.promise.value
    ensures (r.promise.Rejected? && r.promise.code == "PERMISSION_DENIED") <==> outcome.SecurityFailure?
    ensures outcome.SecurityFailure? ==>
              r.promise.message == Some("Missing SMS permission: " + Render(outcome.message))
    ensures outcome.OtherFailure? ==> r.promise == Rejected("SEND_FAILED", outcome.message)
  {
    var manager := if subscriptionId.None? then DefaultManager else ForSubscription(subscriptionId.value);
    var promise := match outcome
      case Sent => Resolved(true)
      case SecurityFailure(m) => Rejected("PERMISSION_DENIED", Some("Missing SMS permission: " + Render(m)))
      case OtherFailure(m) => Rejected("SEND_FAILED", m);
    SendResult(SendRequest(manager, number, message), promise)
  }

  /** The event the drain emits for one stored value. */
  function EventOf(v: string): (e: JsEvent)
    ensures e.name == IncomingSmsEvent
    ensures (e.sender, e.body) == Decode(v)
  {
    IncomingSms(Decode(v).0, Decode(v).1)
  }

  /** `order` lists each key of `keys` exactly once. */
  ghost predicate IsEnumeration(order: seq<string>, keys: set<string>)
  {
    && (forall i, j :: 0 <= i < j < |order| ==> order[i] != order[j])
    && (forall k :: k in order <==> k in keys)
  }

  /** The events that reach JavaScript when the entries of `pending` are
      emitted in `order` and the emits for the keys in `failing` throw (a
      key of `order` outside `pending` has nothing to emit). */
  function Replay(order: seq<string>, pending: map<string, string>, failing: set<string>): seq<JsEvent>
  {
    if order == [] then []
    else
      var k := order[|order| - 1];
      Replay(order[..|order| - 1], pending, failing)
        + if k in failing || k !in pending then [] else [EventOf(pending[k])]
  }

  /** Replaying one more key adds that key's event, unless its emit fails. */
  lemma ReplaySnoc(order: seq<string>, k: string, pending: map<string, string>, failing: set<string>)
    requires k in pending
    ensures Replay(order + [k], pending, failing)
         == Replay(order, pending, failing) + if k in failing then [] else [EventOf(pending[k])]
  {
    assert (order + [k])[..|order|] == order;
  }

  lemma PrefixKeys(order: seq<string>, pending: map<string, string>)
    requires order != []
    requires forall x :: x in order ==> x in pending
    ensures forall x :: x in order[..|order| - 1] ==> x in pending
  {
    forall x | x in order[..|order| - 1] ensures x in pending {
      var i :| 0 <= i < |order| - 1 && order[..|order| - 1][i] == x;
      assert order[i] == x;
    }
  }

  /** Moving key `k` from `rest` to the end of `order` keeps `order` an
      enumeration, without repeats, of the keys already taken. */
  lemma OrderStep(order: seq<string>, rest: set<string>, keys: set<string>, k: string)
    requires rest <= keys && k in rest
    requires forall x :: x in order <==> x in keys && x !in rest
    requires forall i, j :: 0 <= i < j < |order| ==> order[i] != order[j]
    ensures forall x :: x in order + [k] <==> x in keys && x !in rest - {k}
    ensures forall i, j :: 0 <= i < j < |order + [k]| ==> (order + [k])[i] != (order + [k])[j]
  {
    forall i, j | 0 <= i < j < |order + [k]| ensures (order + [k])[i] != (order + [k])[j] {
      if j == |order| {
        assert (order + [k])[i] == order[i];
      }
    }
  }

  class NativeSmsModule {
    const prefs: SharedPreferences
    const bridge: DeviceEventEmitter

    constructor (prefs: SharedPreferences, bridge: DeviceEventEmitter)
      ensures this.prefs == prefs && this.bridge == bridge
    {
      this.prefs := prefs;
      this.bridge := bridge;
    }

    /** `emitPendingMessagesToJs`: one emit per pending entry, in the map's
        iteration order (reported as `order`), a failed emit only logged;
        then every pending key is removed, whatever the emits did. */
    method EmitPendingMessagesToJs(failing: set<string>) returns (ghost order: seq<string>)
      modifies prefs, bridge
      ensures IsEnumeration(order, PendingEntries(old(prefs.data)).Keys)
      ensures bridge.delivered == old(bridge.delivered) + Replay(order, PendingEntries(old(prefs.data)), failing)
      ensures prefs.data == OtherEntries(old(prefs.data))
    {
      var pending := PendingEntries(prefs.data);
      order := EmitEach(pending, failing);
      RemoveKeys(pending.Keys);
    }

    /** The `forEach` over the drained batch: one emit per entry, a failed
        emit only logged. */
    method EmitEach(pending: map<string, string>, failing: set<string>) returns (ghost order: seq<string>)
      modifies bridge
      ensures IsEnumeration(order, pending.Keys)
      ensures bridge.delivered == old(bridge.delivered) + Replay(order, pending, failing)
    {
      var rest := pending.Keys;
      order := [];
      while rest != {}
        invariant rest <= pending.Keys
        invariant forall k :: k in order <==> k in pending && k !in rest
        invariant forall i, j :: 0 <= i < j < |order| ==> order[i] != order[j]
        invariant bridge.delivered == old(bridge.delivered) + Replay(order, pending, failing)
        decreases rest
      {
        var k :| k in rest;
        var emitted := bridge.Emit(EventOf(pending[k]), k in failing);
        ReplaySnoc(order, k, pending, failing);
        OrderStep(order, rest, pending.Keys, k);
        order := order + [k];
        rest := rest - {k};
      }
    }

    /** One editor that removes each of `keys`, then `apply()`. */
    method RemoveKeys(keys: set<string>)
      modifies prefs
      ensures prefs.data == old(prefs.data) - keys
    {
      var editor := prefs.Edit();
      editor.RemoveEach(keys);
      assert editor.edits == map k | k in keys :: None;
      editor.Apply();
      CommitRemovals(old(prefs.data), keys);
    }
  }

  /** With no failing emit, every entry is delivered once, in `order`, with
      the sender and body the drain decoded from it. */
  lemma {:induction false} ReplayDeliversAll(order: seq<string>, pending: map<string, string>, failing: set<string>)
    requires forall k :: k in order ==> k in pending
    requires forall k :: k in order ==> k !in failing
    ensures |Replay(order, pending, failing)| == |order|
    ensures forall i :: 0 <= i < |order| ==> Replay(order, pending, failing)[i] == EventOf(pending[order[i]])
  {
    if order != [] {
      var init, last := order[..|order| - 1], order[|order| - 1];
      assert order == init + [last];
      PrefixKeys(order, pending);
      ReplayDeliversAll(init, pending, failing);
      ReplaySnoc(init, last, pending, failing);
      var before := Replay(init, pending, failing);
      assert Replay(order, pending, failing) == before + [EventOf(pending[last])];
      forall i | 0 <= i < |order|
        ensures Replay(order, pending, failing)[i] == EventOf(pending[order[i]])
      {
        if i < |init| {
          assert order[i] == init[i];
        }
      }
    }
  }

  /** Every replayed event comes from an entry whose emit did not fail. */
  lemma {:induction false} ReplayFromSucceeded(order: seq<string>, pending: map<string, string>, failing: set<string>)
    requires forall k :: k in order ==> k in pending
    ensures |Replay(order, pending, failing)| <= |order|
    ensures forall e :: e in Replay(order, pending, failing) ==>
              exists i :: 0 <= i < |order| && order[i] !in failing && e == EventOf(pending[order[i]])
  {
    if order != [] {
      var init, last := order[..|order| - 1], order[|order| - 1];
      assert order == init + [last];
      PrefixKeys(order, pending);
      ReplayFromSucceeded(init, pending, failing);
      ReplaySnoc(init, last, pending, failing);
      var before := Replay(init, pending, failing);
      var added := if last in failing then [] else [EventOf(pending[last])];
      assert Replay(order, pending, failing) == before + added;
      forall e | e in before + added
        ensures exists i :: 0 <= i < |order| && order[i] !in failing && e == EventOf(pending[order[i]])
      {
        if e in before {
          var i :| 0 <= i < |init| && init[i] !in failing && e == EventOf(pending[init[i]]);
          assert order[i] == init[i];
        } else {
          assert e in added;
          assert order[|order| - 1] == last;
        }
      }
    }
  }

  /** When every emit fails nothing reaches JavaScript. */
  lemma {:induction false} ReplayAllFail(order: seq<string>, pending: map<string, string>, failing: set<string>)
    requires forall k :: k in order ==> k in pending && k in failing
    ensures Replay(order, pending, failing) == []
  {
    if order != [] {
      var init, last := order[..|order| - 1], order[|order| - 1];
      assert order == init + [last];
      PrefixKeys(order, pending);
      assert forall k :: k in init ==> k in order;
      ReplayAllFail(init, pending, failing);
      ReplaySnoc(init, last, pending, failing);
    }
  }
}
