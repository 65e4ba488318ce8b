/** The alerts panel (src/features/monitoring/ui/alerts-panel.tsx): the list
    it shows (every derived alert whose id the user has not dismissed), the
    grow-only set of dismissed ids, and the relative time label of an alert.
    The clock reading of `formatTimestamp` is the parameter `nowMs`. */
module AlertsPanel {
  import opened Common
  import opened AIAlerts

  /** The filter test of `visibleAlerts`. */
  function Undismissed(dismissed: set<AlertId>): Alert -> bool
  {
    (a: Alert) => a.id !in dismissed
  }

  /** `visibleAlerts`: the derived alerts in their order, minus the
      dismissed ids. Its length is the "active" badge. */
  function VisibleAlerts(all: seq<Alert>, dismissed: set<AlertId>): (r: seq<Alert>)
    ensures forall a :: a in r <==> a in all && a.id !in dismissed
    ensures IsSubsequence(r, all)
    ensures dismissed == {} ==> r == all
  {
    var r := Filter(all, Undismissed(dismissed));
    assert dismissed == {} ==> r == all by {
      if dismissed == {} { AllPass(all, Undismissed(dismissed)); }
    }
    r
  }

  lemma {:induction false} AllPass(s: seq<Alert>, keep: Alert -> bool)
    requires forall a :: keep(a)
    ensures Filter(s, keep) == s
    decreases |s|
  {
    if s != [] {
      AllPass(s[1..], keep);
    }
  }

  /** Dismissing one more id hides exactly the alerts with that id from
      what was shown before. */
  lemma DismissOneMore(all: seq<Alert>, dismissed: set<AlertId>, id: AlertId)
    ensures VisibleAlerts(all, dismissed + {id})
      == Filter(VisibleAlerts(all, dismissed), (a: Alert) => a.id != id)
  {
    FilterOfFilter(all, Undismissed(dismissed), (a: Alert) => a.id != id, Undismissed(dismissed + {id}));
  }

  /** More dismissed ids never show more: the list shrinks to a
      subsequence of itself. */
  lemma DismissingOnlyHides(all: seq<Alert>, dismissed: set<AlertId>, more: set<AlertId>)
    requires dismissed <= more
    ensures IsSubsequence(VisibleAlerts(all, more), VisibleAlerts(all, dismissed))
  {
    FilterOfFilter(all, Undismissed(dismissed), Undismissed(more), Undismissed(more));
  }

  /** The badge count plus the number of hidden alerts is the number of
      derived alerts. */
  lemma BadgeCountsUndismissed(all: seq<Alert>, dismissed: set<AlertId>)
    ensures |VisibleAlerts(all, dismissed)| + |Filter(all, (a: Alert) => a.id in dismissed)| == |all|
  {
    FilterSplitsLength(all, Undismissed(dismissed), (a: Alert) => a.id in dismissed);
  }

  /** The panel's `dismissedIds` state. */
  class DismissalState {
    var dismissed: set<AlertId>

    constructor ()
      ensures dismissed == {}
    {
      dismissed := {};
    }

    /** `handleDismiss`: a new set with one more id; ids are never removed. */
    method Dismiss(id: AlertId)
      modifies this
      ensures dismissed == old(dismissed) + {id}
    {
      dismissed := dismissed + {id};
    }

    function Visible(all: seq<Alert>): seq<Alert>
      reads this
    {
      VisibleAlerts(all, dismissed)
    }
  }

  /** Once an id is dismissed, no alert with it is shown, whatever alerts
      are derived later. */
  method DismissThenShow(panel: DismissalState, id: AlertId, later: seq<Alert>) returns (shown: seq<Alert>)
    modifies panel
    ensures forall a :: a in shown ==> a.id != id
    ensures forall a :: a in later && a.id != id && a.id !in old(panel.dismissed) ==> a in shown
  {
    panel.Dismiss(id);
    shown := panel.Visible(later);
  }

  // ---------------------------------------------------------------------
  // Relative time label

  /** The label `formatTimestamp` renders: "<n>s ago", "<n>m ago", "<n>h ago",
      or the alert's calendar date (locale formatting is not modelled). */
  datatype RelativeTime =
    | SecondsAgo(seconds: int)
    | MinutesAgo(minutes: int)
    | HoursAgo(hours: int)
    | LocaleDate(timestampMs: int)

  const SECOND_MS: int := 1000
  const MINUTE_MS: int := 60 * SECOND_MS
  const HOUR_MS: int := 60 * MINUTE_MS
  const DAY_MS: int := 24 * HOUR_MS

  /** `formatTimestamp`, with the clock reading `nowMs`. `Math.floor` of a
      quotient by a positive constant is Dafny's `/`. */
  function FormatTimestamp(nowMs: int, timestampMs: int): (r: RelativeTime)
    ensures var diff := nowMs - timestampMs;
      && (r.SecondsAgo? <==> diff < MINUTE_MS)
      && (r.MinutesAgo? <==> MINUTE_MS <= diff < HOUR_MS)
      && (r.HoursAgo? <==> HOUR_MS <= diff < DAY_MS)
      && (r.LocaleDate? <==> DAY_MS <= diff)
      && (r.SecondsAgo? ==> r.seconds * SECOND_MS <= diff < (r.seconds + 1) * SECOND_MS)
      && (r.MinutesAgo? ==> 1 <= r.minutes < 60 && r.minutes * MINUTE_MS <= diff < (r.minutes + 1) * MINUTE_MS)
      && (r.HoursAgo? ==> 1 <= r.hours < 24 && r.hours * HOUR_MS <= diff < (r.hours + 1) * HOUR_MS)
      && (r.LocaleDate? ==> r.timestampMs == timestampMs)
  {
    var diff := nowMs - timestampMs;
    var seconds := diff / 1000;
    var minutes := seconds / 60;
    var hours := minutes / 60;
    if seconds < 60 then SecondsAgo(seconds)
    else if minutes < 60 then MinutesAgo(minutes)
    else if hours < 24 then HoursAgo(hours)
    else LocaleDate(timestampMs)
  }

  /** An alert stamped in the future (a clock ahead of the viewer's) is
      labelled with a negative number of seconds. */
  lemma FutureAlertLabel()
    ensures FormatTimestamp(0, 1500) == SecondsAgo(-2)
  {
  }
}
