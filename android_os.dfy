/** The operating-system services the two broadcast receivers use: the
    intents they build for `BackgroundService` and the context's
    `startForegroundService` / `startService` calls, recorded as a log. */
module AndroidOs {
  import opened Common

  const SmsReceivedAction: string := "android.provider.Telephony.SMS_RECEIVED"
  const BootCompletedAction: string := "android.intent.action.BOOT_COMPLETED"
  /** `Service.START_STICKY`. */
  const StartSticky: int := 1

  /** `Intent(context, BackgroundService::class.java)` with its two string
      extras; `getStringExtra` answers `None` for a missing or null extra. */
  datatype ServiceIntent = ServiceIntent(sender: Option<string>, body: Option<string>)

  /** The intent `BootReceiver` sends: no extras at all. */
  const BootIntent: ServiceIntent := ServiceIntent(None, None)

  datatype StartMode = Foreground | Plain

  /** One start request the operating system accepted. */
  datatype StartRequest = StartRequest(mode: StartMode, intent: ServiceIntent)

  /** What the operating system does with `startForegroundService` and, if
      that throws, with the fallback `startService`. */
  datatype StartOutcome = ForegroundAccepted | ForegroundRefused | BothRefused

  /** The start requests one attempt with fallback leaves in the log. */
  function StartsFor(intent: ServiceIntent, outcome: StartOutcome): (r: seq<StartRequest>)
    ensures |r| <= 1
    ensures r == [] <==> outcome == BothRefused
    ensures r != [] ==> r[0].intent == intent && (r[0].mode == Plain <==> outcome == ForegroundRefused)
  {
    match outcome
    case ForegroundAccepted => [StartRequest(Foreground, intent)]
    case ForegroundRefused => [StartRequest(Plain, intent)]
    case BothRefused => []
  }

  class Context {
    /** Every start request accepted so far, oldest first. */
    var startRequests: seq<StartRequest>

    constructor ()
      ensures startRequests == []
    {
      startRequests := [];
    }

    method StartForegroundService(intent: ServiceIntent, refused: bool) returns (ok: bool)
      modifies this
      ensures ok == !refused
      ensures startRequests == old(startRequests) + if refused then [] else [StartRequest(Foreground, intent)]
    {
      ok := !refused;
      if ok {
        startRequests := startRequests + [StartRequest(Foreground, intent)];
      }
    }

    method StartService(intent: ServiceIntent, refused: bool) returns (ok: bool)
      modifies this
      ensures ok == !refused
      ensures startRequests == old(startRequests) + if refused then [] else [StartRequest(Plain, intent)]
    {
      ok := !refused;
      if ok {
        startRequests := startRequests + [StartRequest(Plain, intent)];
      }
    }
  }

  /** `try { startForegroundService(i) } catch (e) { startService(i) }`:
      the plain start is tried only when the foreground start throws, and
      `returned` is false when the fallback throws too, so that the
      exception leaves the receiver. */
  method StartWithFallback(context: Context, intent: ServiceIntent, outcome: StartOutcome)
    returns (returned: bool)
    modifies context
    ensures returned <==> outcome != BothRefused
    ensures context.startRequests == old(context.startRequests) + StartsFor(intent, outcome)
  {
    var ok := context.StartForegroundService(intent, outcome != ForegroundAccepted);
    if ok {
      returned := true;
    } else {
      returned := context.StartService(intent, outcome == BothRefused);
    }
  }
}
