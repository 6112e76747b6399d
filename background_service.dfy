/** `BackgroundService`: the resident service that receives one start
    request per inbound SMS and either hands the message to JavaScript at
    once or parks it in `simcash_prefs` for a later drain. */
module BackgroundServer {
  import opened Common
  import opened AndroidPrefs
  import opened ReactBridge
  import opened AndroidOs
  import opened PendingStore

  /** Both extras are present, so there is a message to process. */
  predicate HasMessage(intent: Option<ServiceIntent>)
  {
    intent.Some? && intent.value.sender.Some? && intent.value.body.Some?
  }

  /** The message goes to the store: no React context, or its emit threw. */
  predicate Persists(intent: Option<ServiceIntent>, reactContext: Option<ReactContext>)
  {
    HasMessage(intent) && (reactContext.None? || reactContext.value.emitThrows)
  }

  /** The store after `savePendingSms(sender, body)` at clock reading `now`. */
  function StoreAfterSave(m: map<string, string>, sender: string, body: string, now: nat): map<string, string>
  {
    m[PendingKey(now) := Encode(sender, body)]
  }

  /** The store after `onStartCommand`. */
  function StoreAfterStart(m: map<string, string>, intent: Option<ServiceIntent>,
                           reactContext: Option<ReactContext>, now: nat): map<string, string>
  {
    if Persists(intent, reactContext)
    then StoreAfterSave(m, intent.value.sender.value, intent.value.body.value, now)
    else m
  }

  /** The events `onStartCommand` hands to JavaScript. */
  function DeliveredOnStart(intent: Option<ServiceIntent>, reactContext: Option<ReactContext>): (r: seq<JsEvent>)
    ensures |r| <= 1
    ensures r != [] ==> HasMessage(intent) && r[0] == IncomingSms(intent.value.sender.value, intent.value.body.value)
    ensures HasMessage(intent) ==> (r == [] <==> Persists(intent, reactContext))
  {
    if HasMessage(intent) && reactContext.Some? && !reactContext.value.emitThrows
    then [IncomingSms(intent.value.sender.value, intent.value.body.value)]
    else []
  }

  class BackgroundService {
    const prefs: SharedPreferences
    const bridge: DeviceEventEmitter

    constructor (prefs: SharedPreferences, bridge: DeviceEventEmitter)
      ensures this.prefs == prefs && this.bridge == bridge
    {
      this.prefs := prefs;
      this.bridge := bridge;
    }

    /** `onStartCommand(intent, flags, startId)`; `reactContext` is what
        `currentReactContext` answers, `now` what the clock reads. */
    method OnStartCommand(intent: Option<ServiceIntent>, reactContext: Option<ReactContext>, now: nat)
      returns (r: int)
      modifies prefs, bridge
      ensures r == StartSticky
      ensures prefs.data == StoreAfterStart(old(prefs.data), intent, reactContext, now)
      ensures bridge.delivered == old(bridge.delivered) + DeliveredOnStart(intent, reactContext)
    {
      if HasMessage(intent) {
        var sender, body := intent.value.sender.value, intent.value.body.value;
        match reactContext {
          case Some(context) =>
            var ok := bridge.Emit(IncomingSms(sender, body), context.emitThrows);
            if !ok {
              SavePendingSms(sender, body, now);
            }
          case None =>
            SavePendingSms(sender, body, now);
        }
      }
      r := StartSticky;
    }

    /** `savePendingSms`: one `putString` of `"sender|body"` under the
        millisecond key, applied at once. */
    method SavePendingSms(sender: string, body: string, now: nat)
      modifies prefs
      ensures prefs.data == StoreAfterSave(old(prefs.data), sender, body, now)
    {
      var editor := prefs.Edit();
      editor.PutString(PendingKey(now), Encode(sender, body));
      editor.Apply();
      CommitPut(old(prefs.data), PendingKey(now), Encode(sender, body));
    }

    /** `readAndClearPending`: returns the prefixed entries and removes
        exactly them, in one editor. */
    method ReadAndClearPending() returns (all: map<string, string>)
      modifies prefs
      ensures all == PendingEntries(old(prefs.data))
      ensures prefs.data == OtherEntries(old(prefs.data))
    {
      all := PendingEntries(prefs.data);
      var editor := prefs.Edit();
      editor.RemoveEach(all.Keys);
      editor.Apply();
      CommitRemovals(old(prefs.data), all.Keys);
    }
  }

  /** A start request lacking either extra (the boot request among them)
      neither emits nor writes. */
  lemma StartWithoutMessageIsInert(m: map<string, string>, intent: Option<ServiceIntent>,
                                   reactContext: Option<ReactContext>, now: nat)
    requires !HasMessage(intent)
    ensures StoreAfterStart(m, intent, reactContext, now) == m
    ensures DeliveredOnStart(intent, reactContext) == []
  {
  }

  /** With no React context exactly one entry is written: key
      `"pending_sms_" + now`, value `"sender|body"`. */
  lemma StartWithoutContextSavesOne(m: map<string, string>, sender: string, body: string, now: nat)
    ensures var m' := StoreAfterStart(m, Some(ServiceIntent(Some(sender), Some(body))), None, now);
      && PendingKey(now) in m' && m'[PendingKey(now)] == sender + "|" + body
      && m'.Keys == m.Keys + {PendingKey(now)}
      && (forall k :: k in m && k != PendingKey(now) ==> m'[k] == m[k])
    ensures DeliveredOnStart(Some(ServiceIntent(Some(sender), Some(body))), None) == []
  {
  }

  /** A successful emit leaves the store as it was. */
  lemma StartDeliveredLeavesStore(m: map<string, string>, sender: string, body: string, now: nat)
    ensures StoreAfterStart(m, Some(ServiceIntent(Some(sender), Some(body))), Some(ReactContext(false)), now) == m
    ensures DeliveredOnStart(Some(ServiceIntent(Some(sender), Some(body))), Some(ReactContext(false)))
         == [IncomingSms(sender, body)]
  {
  }

  /** A message is never dropped: it either reaches JavaScript or can be read
      back from the store under its key, but never both. */
  lemma StartNeverDrops(m: map<string, string>, sender: string, body: string,
                        reactContext: Option<ReactContext>, now: nat)
    requires Separator !in sender
    ensures var intent := Some(ServiceIntent(Some(sender), Some(body)));
      var m' := StoreAfterStart(m, intent, reactContext, now);
      (DeliveredOnStart(intent, reactContext) == [IncomingSms(sender, body)] && m' == m)
      != (DeliveredOnStart(intent, reactContext) == [] && PendingKey(now) in m'
          && Decode(m'[PendingKey(now)]) == (sender, body))
  {
    DecodeEncode(sender, body);
  }

  /** A start writes at most one entry, under the key of its own clock
      reading, and leaves every other entry as it was. */
  lemma StartTouchesOnlyItsKey(m: map<string, string>, intent: Option<ServiceIntent>,
                               reactContext: Option<ReactContext>, now: nat)
    ensures var r := StoreAfterStart(m, intent, reactContext, now);
      && (forall k :: k != PendingKey(now) ==> (k in r <==> k in m) && (k in m ==> r[k] == m[k]))
      && (Persists(intent, reactContext) ==>
            PendingKey(now) in r && r[PendingKey(now)] == Encode(intent.value.sender.value, intent.value.body.value))
      && (!Persists(intent, reactContext) ==> r == m)
  {
  }

  /** Two saves in the same millisecond share the key: the later value
      replaces the earlier and the pending batch grows by that one key only. */
  lemma SameMillisecondOverwrites(m: map<string, string>, s1: string, b1: string,
                                  s2: string, b2: string, now: nat)
    ensures StoreAfterSave(StoreAfterSave(m, s1, b1, now), s2, b2, now) == StoreAfterSave(m, s2, b2, now)
    ensures PendingEntries(StoreAfterSave(StoreAfterSave(m, s1, b1, now), s2, b2, now)).Keys
         == PendingEntries(m).Keys + {PendingKey(now)}
  {
    var k, v := PendingKey(now), Encode(s2, b2);
    var m2 := m[k := Encode(s1, b1)][k := v];
    assert m2 == m[k := v];
    SaveIsPending(m, now, v);
    assert PendingEntries(m[k := v]).Keys == PendingEntries(m)[k := v].Keys;
  }

  /** Saves at different milliseconds keep both entries. */
  lemma DistinctMillisecondsKeepBoth(m: map<string, string>, s1: string, b1: string,
                                     s2: string, b2: string, t1: nat, t2: nat)
    requires t1 != t2
    ensures var m' := StoreAfterSave(StoreAfterSave(m, s1, b1, t1), s2, b2, t2);
      m'[PendingKey(t1)] == Encode(s1, b1) && m'[PendingKey(t2)] == Encode(s2, b2)
  {
    PendingKeyInjective(t1, t2);
  }
}
