/** The `dashboard` Redux slice: the metrics shown on the home screen, once
    fetched, and the request lifecycle flags. */
module DashboardSlice {
  import opened Common

  datatype RecentMessage = RecentMessage(id: string, content: string, status: string,
                                         messageType: string, createdAt: string)

  datatype Metrics = Metrics(activeSims: int, messagesToday: int, currentPayout: int,
                             connectionStatus: string, totalMessages: int,
                             recentMessages: seq<RecentMessage>)

  /** `Partial<DashboardMetrics>`: `None` for a field the payload omits. */
  datatype MetricsPatch = MetricsPatch(activeSims: Option<int>, messagesToday: Option<int>,
                                       currentPayout: Option<int>, connectionStatus: Option<string>,
                                       totalMessages: Option<int>,
                                       recentMessages: Option<seq<RecentMessage>>)

  const EmptyPatch := MetricsPatch(None, None, None, None, None, None)

  /** `{ ...metrics, ...patch }`. */
  function MergeMetrics(m: Metrics, p: MetricsPatch): (r: Metrics)
    ensures r.activeSims == (if p.activeSims.Some? then p.activeSims.value else m.activeSims)
    ensures r.messagesToday == (if p.messagesToday.Some? then p.messagesToday.value else m.messagesToday)
    ensures r.currentPayout == (if p.currentPayout.Some? then p.currentPayout.value else m.currentPayout)
    ensures r.connectionStatus == (if p.connectionStatus.Some? then p.connectionStatus.value else m.connectionStatus)
    ensures r.totalMessages == (if p.totalMessages.Some? then p.totalMessages.value else m.totalMessages)
    ensures r.recentMessages == (if p.recentMessages.Some? then p.recentMessages.value else m.recentMessages)
  {
    Metrics(Overwrite(m.activeSims, p.activeSims), Overwrite(m.messagesToday, p.messagesToday),
            Overwrite(m.currentPayout, p.currentPayout), Overwrite(m.connectionStatus, p.connectionStatus),
            Overwrite(m.totalMessages, p.totalMessages), Overwrite(m.recentMessages, p.recentMessages))
  }

  /** `updateMetric` on `state.metrics`: merged only when metrics exist. */
  function UpdatedMetrics(metrics: Option<Metrics>, p: MetricsPatch): (r: Option<Metrics>)
    ensures metrics.None? ==> r.None?
    ensures metrics.Some? ==> r == Some(MergeMetrics(metrics.value, p))
  {
    match metrics
    case None => None
    case Some(m) => Some(MergeMetrics(m, p))
  }

  /** The empty patch changes nothing. */
  lemma EmptyPatchIsIdentity(metrics: Option<Metrics>)
    ensures UpdatedMetrics(metrics, EmptyPatch) == metrics
  {
  }

  /** A patch whose every field is given replaces the metrics outright. */
  lemma FullPatchReplaces(m: Metrics, n: Metrics)
    ensures MergeMetrics(m, MetricsPatch(Some(n.activeSims), Some(n.messagesToday), Some(n.currentPayout),
                                         Some(n.connectionStatus), Some(n.totalMessages),
                                         Some(n.recentMessages))) == n
  {
  }

  class DashboardState {
    var metrics: Option<Metrics>
    var isLoading: bool
    var error: Option<string>

    /** `initialState`. */
    constructor ()
      ensures metrics == None && !isLoading && error == None
    {
      metrics := None;
      isLoading := false;
      error := None;
    }

    /** A no-op until the metrics have been fetched. */
    method UpdateMetric(payload: MetricsPatch)
      modifies this
      ensures metrics == UpdatedMetrics(old(metrics), payload)
      ensures isLoading == old(isLoading) && error == old(error)
    {
      if metrics.Some? {
        metrics := Some(MergeMetrics(metrics.value, payload));
      }
    }

    method FetchPending()
      modifies this
      ensures isLoading && error == None && metrics == old(metrics)
    {
      isLoading := true;
      error := None;
    }

    method FetchFulfilled(payload: Metrics)
      modifies this
      ensures !isLoading && metrics == Some(payload) && error == old(error)
    {
      isLoading := false;
      metrics := Some(payload);
    }

    /** The metrics last fetched stay on screen. */
    method FetchRejected(payload: string)
      modifies this
      ensures !isLoading && error == Some(payload) && metrics == old(metrics)
    {
      isLoading := false;
      error := Some(payload);
    }
  }
}
