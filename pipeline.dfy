/** Properties of the whole pending-SMS pipeline: the receivers' start
    requests, handled one after the other by `BackgroundService`, and the
    drain that `NativeSmsModule` performs when JavaScript asks for it. */
module Pipeline {
  import opened Common
  import opened AndroidOs
  import opened ReactBridge
  import opened PendingStore
  import opened BackgroundServer
  import opened NativeSmsModule
  import SmsReceiver

  /** One start request as the service handles it: with the React context
      it finds and the clock reading it takes. */
  datatype Delivery = Delivery(request: StartRequest, reactContext: Option<ReactContext>, now: nat)

  /** The store after the service handled `ds` in order. */
  function ServiceStore(m: map<string, string>, ds: seq<Delivery>): map<string, string>
  {
    if ds == [] then m
    else
      var d := ds[|ds| - 1];
      StoreAfterStart(ServiceStore(m, ds[..|ds| - 1]), Some(d.request.intent), d.reactContext, d.now)
  }

  /** The events the service emitted while handling `ds`. */
  function ServiceDelivered(ds: seq<Delivery>): seq<JsEvent>
  {
    if ds == [] then []
    else
      var d := ds[|ds| - 1];
      ServiceDelivered(ds[..|ds| - 1]) + DeliveredOnStart(Some(d.request.intent), d.reactContext)
  }

  /** The key a detached delivery writes. */
  function KeyOf(d: Delivery): string
  {
    PendingKey(d.now)
  }

  /** The value a detached delivery of a message writes. */
  function ValueOf(d: Delivery): string
  {
    match d.request.intent
    case ServiceIntent(Some(sender), Some(body)) => Encode(sender, body)
    case _ => ""
  }

  /** The keys the deliveries `ds` write when detached. */
  function KeysOf(ds: seq<Delivery>): set<string>
  {
    if ds == [] then {} else KeysOf(ds[..|ds| - 1]) + {KeyOf(ds[|ds| - 1])}
  }

  lemma {:induction false} KeysOfPending(ds: seq<Delivery>)
    ensures forall k :: k in KeysOf(ds) ==> HasPrefix(k, PendingPrefix)
  {
    if ds != [] {
      KeysOfPending(ds[..|ds| - 1]);
    }
  }

  /** A detached delivery of a real message, the case of "no live channel". */
  predicate DetachedMessage(d: Delivery)
  {
    HasMessage(Some(d.request.intent)) && d.reactContext.None?
  }

  lemma {:induction false} KeysOfContains(ds: seq<Delivery>, i: nat)
    requires i < |ds|
    ensures KeyOf(ds[i]) in KeysOf(ds)
  {
    if i < |ds| - 1 {
      KeysOfContains(ds[..|ds| - 1], i);
    }
  }

  lemma {:induction false} KeysOfAvoids(ds: seq<Delivery>, now: nat)
    requires forall i :: 0 <= i < |ds| ==> ds[i].now != now
    ensures PendingKey(now) !in KeysOf(ds)
  {
    if ds != [] {
      KeysOfAvoids(ds[..|ds| - 1], now);
      PendingKeyInjective(ds[|ds| - 1].now, now);
    }
  }

  /** One more detached delivery writes its own key and nothing else. */
  lemma DetachedStep(m: map<string, string>, ds: seq<Delivery>)
    requires ds != [] && DetachedMessage(ds[|ds| - 1])
    ensures ServiceStore(m, ds) == ServiceStore(m, ds[..|ds| - 1])[KeyOf(ds[|ds| - 1]) := ValueOf(ds[|ds| - 1])]
  {
  }

  /** The conditions of `DetachedStore` hold for every prefix, and the last
      delivery's key is new. */
  lemma DetachedPrefix(m: map<string, string>, ds: seq<Delivery>)
    requires ds != []
    requires forall i :: 0 <= i < |ds| ==> DetachedMessage(ds[i])
    requires forall i, j :: 0 <= i < j < |ds| ==> ds[i].now != ds[j].now
    requires KeysOf(ds) !! m.Keys
    ensures var init := ds[..|ds| - 1];
      && (forall i :: 0 <= i < |init| ==> DetachedMessage(init[i]))
      && (forall i, j :: 0 <= i < j < |init| ==> init[i].now != init[j].now)
      && KeysOf(init) !! m.Keys
      && KeyOf(ds[|ds| - 1]) !in KeysOf(init)
      && KeyOf(ds[|ds| - 1]) !in m
      && DetachedMessage(ds[|ds| - 1])
  {
    var init, last := ds[..|ds| - 1], ds[|ds| - 1];
    assert forall i :: 0 <= i < |init| ==> init[i] == ds[i];
    KeysOfAvoids(init, last.now);
  }

  /** Detached deliveries write exactly their own keys, with their own
      values, and keep every entry that was there before. */
  lemma {:induction false} DetachedStore(m: map<string, string>, ds: seq<Delivery>)
    requires forall i :: 0 <= i < |ds| ==> DetachedMessage(ds[i])
    requires forall i, j :: 0 <= i < j < |ds| ==> ds[i].now != ds[j].now
    requires KeysOf(ds) !! m.Keys
    ensures ServiceStore(m, ds).Keys == m.Keys + KeysOf(ds)
    ensures forall i :: 0 <= i < |ds| ==>
      KeyOf(ds[i]) in ServiceStore(m, ds) && ServiceStore(m, ds)[KeyOf(ds[i])] == ValueOf(ds[i])
    ensures forall k :: k in m ==> ServiceStore(m, ds)[k] == m[k]
  {
    if ds != [] {
      var n := |ds| - 1;
      var init := ds[..n];
      DetachedPrefix(m, ds);
      DetachedStore(m, init);
      DetachedStep(m, ds);
      forall i | 0 <= i < n
        ensures KeyOf(ds[i]) in ServiceStore(m, ds) && ServiceStore(m, ds)[KeyOf(ds[i])] == ValueOf(ds[i])
      {
        assert ds[i] == init[i];
        KeysOfContains(init, i);
      }
    }
  }

  lemma {:induction false} KeysOfSize(ds: seq<Delivery>)
    requires forall i, j :: 0 <= i < j < |ds| ==> ds[i].now != ds[j].now
    ensures |KeysOf(ds)| == |ds|
  {
    if ds != [] {
      KeysOfSize(ds[..|ds| - 1]);
      KeysOfAvoids(ds[..|ds| - 1], ds[|ds| - 1].now);
    }
  }

  lemma {:induction false} DetachedDeliversNothing(ds: seq<Delivery>)
    requires forall i :: 0 <= i < |ds| ==> DetachedMessage(ds[i])
    ensures ServiceDelivered(ds) == []
  {
    if ds != [] {
      DetachedDeliversNothing(ds[..|ds| - 1]);
    }
  }

  /** While detached, entries outside the pending namespace are untouched. */
  lemma DetachedKeepsOthers(m: map<string, string>, ds: seq<Delivery>)
    requires forall i :: 0 <= i < |ds| ==> DetachedMessage(ds[i])
    requires forall i, j :: 0 <= i < j < |ds| ==> ds[i].now != ds[j].now
    requires KeysOf(ds) !! m.Keys
    ensures OtherEntries(ServiceStore(m, ds)) == OtherEntries(m)
  {
    var after := ServiceStore(m, ds);
    DetachedStore(m, ds);
    KeysOfPending(ds);
    assert OtherEntries(after).Keys == OtherEntries(m).Keys;
  }

  /** While detached, N messages at N distinct milliseconds add exactly N
      pending entries. */
  lemma DetachedAddsPending(m: map<string, string>, ds: seq<Delivery>)
    requires forall i :: 0 <= i < |ds| ==> DetachedMessage(ds[i])
    requires forall i, j :: 0 <= i < j < |ds| ==> ds[i].now != ds[j].now
    requires KeysOf(ds) !! m.Keys
    ensures |PendingEntries(ServiceStore(m, ds))| == |PendingEntries(m)| + |ds|
  {
    var after := ServiceStore(m, ds);
    DetachedStore(m, ds);
    KeysOfPending(ds);
    KeysOfSize(ds);
    var added := PendingEntries(after).Keys;
    var kept := PendingEntries(m).Keys;
    assert added == kept + KeysOf(ds);
    assert kept * KeysOf(ds) == {};
    assert |added| == |kept| + |KeysOf(ds)|;
  }

  /** No loss while detached: N messages handled with no React context at
      N distinct milliseconds leave N more pending entries, no other entry
      changed, and nothing emitted. */
  lemma DetachedNoLoss(m: map<string, string>, ds: seq<Delivery>)
    requires forall i :: 0 <= i < |ds| ==> DetachedMessage(ds[i])
    requires forall i, j :: 0 <= i < j < |ds| ==> ds[i].now != ds[j].now
    requires KeysOf(ds) !! m.Keys
    ensures OtherEntries(ServiceStore(m, ds)) == OtherEntries(m)
    ensures |PendingEntries(ServiceStore(m, ds))| == |PendingEntries(m)| + |ds|
    ensures ServiceDelivered(ds) == []
  {
    DetachedKeepsOthers(m, ds);
    DetachedAddsPending(m, ds);
    DetachedDeliversNothing(ds);
  }

  /** End to end, the app-closed scenario: the broadcast's messages, forwarded by
      `SmsReceiver` with no start refused twice and handled detached at
      distinct milliseconds, are exactly the next drain's batch, each
      decoded to its original sender and body. */
  lemma ReceivedWhileDetachedAreDrained(m: map<string, string>, messages: seq<SmsReceiver.SmsMessage>,
                                        outcome: nat -> StartOutcome, nows: seq<nat>)
    requires PendingEntries(m) == map[]
    requires |nows| == |messages|
    requires forall i :: 0 <= i < |messages| ==> outcome(i) != BothRefused
    requires forall i :: 0 <= i < |messages| ==>
      messages[i].originatingAddress.Some? && messages[i].messageBody.Some?
      && Separator !in messages[i].originatingAddress.value
    requires forall i, j :: 0 <= i < j < |nows| ==> nows[i] != nows[j]
    ensures var requests := SmsReceiver.Forwarded(messages, outcome, |messages|);
      |requests| == |messages| &&
      var ds := seq(|requests|, i requires 0 <= i < |requests| => Delivery(requests[i], None, nows[i]));
      var batch := PendingEntries(ServiceStore(m, ds));
      && |batch| == |messages|
      && (forall i :: 0 <= i < |messages| ==>
            PendingKey(nows[i]) in batch
            && EventOf(batch[PendingKey(nows[i])])
               == IncomingSms(messages[i].originatingAddress.value, messages[i].messageBody.value))
      && OtherEntries(ServiceStore(m, ds)) == OtherEntries(m)
  {
    var requests := SmsReceiver.Forwarded(messages, outcome, |messages|);
    SmsReceiver.ForwardedOnePerMessage(messages, outcome, |messages|);
    var ds := seq(|requests|, i requires 0 <= i < |requests| => Delivery(requests[i], None, nows[i]));
    KeysOfPending(ds);
    assert KeysOf(ds) !! m.Keys by {
      forall k | k in KeysOf(ds) ensures k !in m {
        assert HasPrefix(k, PendingPrefix);
        assert k !in PendingEntries(m);
      }
    }
    DetachedStore(m, ds);
    DetachedNoLoss(m, ds);
    var batch := PendingEntries(ServiceStore(m, ds));
    forall i | 0 <= i < |messages|
      ensures PendingKey(nows[i]) in batch
      ensures EventOf(batch[PendingKey(nows[i])])
           == IncomingSms(messages[i].originatingAddress.value, messages[i].messageBody.value)
    {
      assert KeyOf(ds[i]) == PendingKey(nows[i]);
      KeysOfContains(ds, i);
      DecodeEncode(messages[i].originatingAddress.value, messages[i].messageBody.value);
    }
  }

  /** Boot resume adds nothing: however many boot requests the service
      handles, the store and the JavaScript side see nothing new. */
  lemma {:induction false} BootRequestsAreInert(m: map<string, string>, ds: seq<Delivery>)
    requires forall i :: 0 <= i < |ds| ==> ds[i].request.intent == BootIntent
    ensures ServiceStore(m, ds) == m
    ensures ServiceDelivered(ds) == []
  {
    if ds != [] {
      BootRequestsAreInert(m, ds[..|ds| - 1]);
    }
  }

  /** Live bypass: a message emitted successfully is not in the next drain. */
  lemma LiveBypass(m: map<string, string>, sender: string, body: string, now: nat)
    ensures var intent := Some(ServiceIntent(Some(sender), Some(body)));
      PendingEntries(StoreAfterStart(m, intent, Some(ReactContext(false)), now)) == PendingEntries(m)
  {
  }

  /** Fallback on emit failure: the message is in the next drain's batch. */
  lemma FailedEmitIsDrainedLater(m: map<string, string>, sender: string, body: string, now: nat)
    requires Separator !in sender
    ensures var intent := Some(ServiceIntent(Some(sender), Some(body)));
      var batch := PendingEntries(StoreAfterStart(m, intent, Some(ReactContext(true)), now));
      PendingKey(now) in batch && EventOf(batch[PendingKey(now)]) == IncomingSms(sender, body)
  {
    DecodeEncode(sender, body);
  }

  /** How many of the keys in `order` are in `failing`. */
  function CountIn(order: seq<string>, failing: set<string>): nat
  {
    if order == [] then 0
    else CountIn(order[..|order| - 1], failing) + if order[|order| - 1] in failing then 1 else 0
  }

  /** The drain is at most once: each failed emit costs one message, since
      what the drain leaves holds no pending entry to retry from. */
  lemma {:induction false} DrainIsAtMostOnce(m: map<string, string>, order: seq<string>, failing: set<string>)
    requires forall k :: k in order ==> k in PendingEntries(m)
    ensures |Replay(order, PendingEntries(m), failing)| == |order| - CountIn(order, failing)
    ensures PendingEntries(OtherEntries(m)) == map[]
  {
    DrainLeavesNothingPending(m);
    if order != [] {
      var init := order[..|order| - 1];
      assert forall k :: k in init ==> k in order;
      DrainIsAtMostOnce(m, init, failing);
    }
  }

  /** The scenario of one message captured with no channel attached, then
      drained twice: one event with the original pair, then nothing. */
  lemma CaptureThenDrainTwice(sender: string, body: string, now: nat)
    requires Separator !in sender
    ensures var stored := StoreAfterStart(map[], Some(ServiceIntent(Some(sender), Some(body))), None, now);
      var batch := PendingEntries(stored);
      && batch == map[PendingKey(now) := Encode(sender, body)]
      && Replay([PendingKey(now)], batch, {}) == [IncomingSms(sender, body)]
      && OtherEntries(stored) == map[]
      && PendingEntries(OtherEntries(stored)) == map[]
  {
    var key := PendingKey(now);
    var stored := StoreAfterStart(map[], Some(ServiceIntent(Some(sender), Some(body))), None, now);
    assert stored == map[key := Encode(sender, body)];
    assert PendingEntries(stored).Keys == stored.Keys;
    var batch := PendingEntries(stored);
    DecodeEncode(sender, body);
    assert [key][..0] == [];
    assert Replay([key], batch, {}) == [EventOf(batch[key])];
    assert OtherEntries(stored).Keys == {};
    DrainLeavesNothingPending(stored);
  }
}
