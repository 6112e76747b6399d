/** `BootReceiver`: re-arms `BackgroundService` once the device has booted. */
module BootReceiver {
  import opened Common
  import opened AndroidOs

  /** `onReceive(context, intent)` with `action` = `intent.action`. */
  method OnReceive(context: Context, action: Option<string>, outcome: StartOutcome) returns (returned: bool)
    modifies context
    ensures action != Some(BootCompletedAction) ==> returned && context.startRequests == old(context.startRequests)
    ensures action == Some(BootCompletedAction) ==>
      && (returned <==> outcome != BothRefused)
      && context.startRequests == old(context.startRequests) + StartsFor(BootIntent, outcome)
  {
    returned := true;
    if action == Some(BootCompletedAction) {
      returned := StartWithFallback(context, BootIntent, outcome);
    }
  }

  /** A boot broadcast leads to at most one accepted start request: the
      extra-less boot intent, started plainly only if the foreground start
      threw, and none only if the fallback threw as well. */
  lemma BootStartsAtMostOnce(outcome: StartOutcome)
    ensures |StartsFor(BootIntent, outcome)| == (if outcome == BothRefused then 0 else 1)
    ensures forall r :: r in StartsFor(BootIntent, outcome) ==>
      r.intent == BootIntent && (r.mode == Plain <==> outcome == ForegroundRefused)
  {
  }
}
