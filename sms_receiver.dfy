/** `SmsReceiver`: the broadcast receiver for inbound SMS. It does no
    delivery of its own; it turns each message of the broadcast into one
    start request for `BackgroundService`. */
module SmsReceiver {
  import opened Common
  import opened AndroidOs

  /** One `SmsMessage` of `getMessagesFromIntent`: its
      `displayOriginatingAddress` and `messageBody`, both nullable. */
  datatype SmsMessage = SmsMessage(originatingAddress: Option<string>, messageBody: Option<string>)

  /** The service intent built for one message. */
  function IntentFor(sms: SmsMessage): (intent: ServiceIntent)
    ensures intent.sender == sms.originatingAddress && intent.body == sms.messageBody
  {
    ServiceIntent(sms.originatingAddress, sms.messageBody)
  }

  /** The index of the first message, from `from` on, whose foreground and
      fallback starts both throw; `n` when there is none. */
  function FirstAbort(from: nat, n: nat, outcome: nat -> StartOutcome): (p: nat)
    requires from <= n
    ensures from <= p <= n
    ensures forall j :: from <= j < p ==> outcome(j) != BothRefused
    ensures p < n ==> outcome(p) == BothRefused
    decreases n - from
  {
    if from == n then n
    else if outcome(from) == BothRefused then from
    else FirstAbort(from + 1, n, outcome)
  }

  /** The start requests accepted for the first `count` messages. */
  function Forwarded(messages: seq<SmsMessage>, outcome: nat -> StartOutcome, count: nat): (r: seq<StartRequest>)
    requires count <= |messages|
    ensures |r| <= count
    ensures (forall j :: 0 <= j < count ==> outcome(j) == BothRefused) ==> r == []
  {
    if count == 0 then []
    else Forwarded(messages, outcome, count - 1) + StartsFor(IntentFor(messages[count - 1]), outcome(count - 1))
  }

  /** `onReceive(context, intent)`: `action` is `intent.action`, `messages`
      what `getMessagesFromIntent` returns, `outcome(i)` what the operating
      system does with the start request for message `i`. `returned` is
      false when an exception from the fallback start leaves the receiver,
      which ends the loop early. */
  method OnReceive(context: Context, action: Option<string>, messages: seq<SmsMessage>,
                   outcome: nat -> StartOutcome) returns (returned: bool)
    modifies context
    ensures action != Some(SmsReceivedAction) ==> returned && context.startRequests == old(context.startRequests)
    ensures action == Some(SmsReceivedAction) ==>
      var stop := FirstAbort(0, |messages|, outcome);
      && (returned <==> stop == |messages|)
      && context.startRequests == old(context.startRequests) + Forwarded(messages, outcome, stop)
  {
    returned := true;
    if action == Some(SmsReceivedAction) {
      ghost var stop := FirstAbort(0, |messages|, outcome);
      var i := 0;
      while i < |messages| && returned
        invariant 0 <= i <= |messages|
        invariant returned ==> i <= stop
        invariant !returned ==> i == stop + 1
        invariant context.startRequests == old(context.startRequests) + Forwarded(messages, outcome, i)
      {
        var sms := messages[i];
        returned := StartWithFallback(context, IntentFor(sms), outcome(i));
        i := i + 1;
      }
      if !returned {
        assert Forwarded(messages, outcome, i) == Forwarded(messages, outcome, stop);
      }
    }
  }

  /** When no start throws twice, the broadcast yields exactly one start
      request per message, in message order, carrying that message's sender
      and body, and the plain start is used exactly where the foreground
      start threw. */
  lemma {:induction false} ForwardedOnePerMessage(messages: seq<SmsMessage>, outcome: nat -> StartOutcome, count: nat)
    requires count <= |messages|
    requires forall j :: 0 <= j < count ==> outcome(j) != BothRefused
    ensures |Forwarded(messages, outcome, count)| == count
    ensures forall i :: 0 <= i < count ==>
      && Forwarded(messages, outcome, count)[i].intent == IntentFor(messages[i])
      && (Forwarded(messages, outcome, count)[i].mode == Plain <==> outcome(i) == ForegroundRefused)
  {
    if count > 0 {
      ForwardedOnePerMessage(messages, outcome, count - 1);
    }
  }
}
