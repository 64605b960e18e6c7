/**
 * The statistics page: the selected test, the one polling interval that
 * refreshes it, the auto-selection on the list of active tests, and the
 * status panel (remaining time, whether a cancel is offered, the badge
 * colour). The AJAX calls and the HTML are left out; the browser's timer
 * table is the map `running` from interval handles to the test each one polls.
 */
module Statistics {
  import opened Wrappers
  import opened Text
  import AppScript
  import Parameters

  /** One entry of the active-tests list as the page reads it. */
  datatype TestSummary = TestSummary(testId: string, status: string)

  /** A card of the list: highlighted when its test is the selected one. */
  datatype Card = Card(testId: string, highlighted: bool, badgeClass: string, badgeText: string)

  /** `getStatusClass` of this page. */
  function StatusClass(status: string): (c: string)
    ensures c == "bg-secondary" <==> status !in {"running", "completed", "error", "cancelled"}
  {
    if status == "running" then "bg-success"
    else if status == "completed" then "bg-primary"
    else if status == "error" then "bg-danger"
    else if status == "cancelled" then "bg-warning"
    else "bg-secondary"
  }

  /** `!currentSelectedTestId`: no selection, or the empty id. */
  predicate NothingSelected(selected: Option<string>) {
    selected.None? || selected.value == ""
  }

  /** The cards `displayActiveTests` renders, one per test in list order. */
  function Cards(tests: seq<TestSummary>, selected: Option<string>): (r: seq<Card>)
    ensures |r| == |tests|
    ensures forall i :: 0 <= i < |tests| ==>
      && r[i].testId == tests[i].testId
      && (r[i].highlighted <==> selected == Some(tests[i].testId))
      && r[i].badgeText == Upper(tests[i].status)
  {
    seq(|tests|, i requires 0 <= i < |tests| =>
      Card(tests[i].testId, selected == Some(tests[i].testId), StatusClass(tests[i].status), Upper(tests[i].status)))
  }

  /** Statuses for which the cancel button is enabled. */
  const CancellableStatuses := ["running", "starting_server", "starting_client"]

  /** The status panel `updateTestStatusDisplay` fills in. */
  datatype StatusPanel = StatusPanel(
    statusText: string,
    elapsedText: string,
    remainingText: string,
    cancelDisabled: bool,
    statusClassName: string)

  /**
   * `updateTestStatusDisplay`: elapsed and remaining time as durations, the
   * status upper-cased, and the cancel button disabled unless the test is
   * running or starting. Elapsed time is taken as a natural number.
   */
  function StatusPanelOf(testStatus: string, duration: int, elapsed: Option<nat>): (p: StatusPanel)
    ensures p.cancelDisabled <==> testStatus !in CancellableStatuses
    ensures AppScript.ReadDuration(p.remainingText) == Some(Parameters.Remaining(duration, elapsed))
    ensures AppScript.ReadDuration(p.elapsedText) == Some(match elapsed case Some(e) => e case None => 0)
    ensures p.statusText == Upper(testStatus)
  {
    var spent: nat := match elapsed case Some(e) => e case None => 0;
    AppScript.DurationRoundTrip(spent);
    AppScript.DurationRoundTrip(Parameters.Remaining(duration, elapsed));
    StatusPanel(
      Upper(testStatus),
      AppScript.FormatDuration(spent),
      AppScript.FormatDuration(Parameters.Remaining(duration, elapsed)),
      testStatus !in CancellableStatuses,
      "status-" + testStatus)
  }

  /** The page's state: the selection, the polling interval and the browser's timer table. */
  class StatisticsPage {
    /** `currentSelectedTestId`. */
    var currentSelectedTestId: Option<string>
    /** `statisticsUpdateInterval`: the handle last installed, if any. */
    var statisticsUpdateInterval: Option<nat>
    /** The statistics intervals the browser is running, with the test each polls. */
    var running: map<nat, string>
    /** The next handle `setInterval` gives out. */
    var nextHandle: nat
    /** Whether `#statisticsContent` is shown. */
    var contentShown: bool

    /** Every running interval is the one held in `statisticsUpdateInterval`, and handles are never reused. */
    ghost predicate Valid()
      reads this
    {
      && (forall h :: h in running ==> statisticsUpdateInterval == Some(h))
      && (forall h :: h in running ==> h < nextHandle)
      && (statisticsUpdateInterval.Some? ==> statisticsUpdateInterval.value < nextHandle)
    }

    constructor ()
      ensures Valid() && currentSelectedTestId.None? && statisticsUpdateInterval.None? && running == map[]
    {
      currentSelectedTestId := None;
      statisticsUpdateInterval := None;
      running := map[];
      nextHandle := 1;
      contentShown := false;
    }

    /**
     * `startStatisticsMonitoring`: the previous interval is cleared before a
     * new one polling `testId` is installed, so exactly one runs afterwards.
     */
    method StartStatisticsMonitoring(testId: string)
      requires Valid()
      modifies this`statisticsUpdateInterval, this`running, this`nextHandle
      ensures Valid()
      ensures statisticsUpdateInterval.Some? && statisticsUpdateInterval.value !in old(running)
      ensures running == map[statisticsUpdateInterval.value := testId]
    {
      if statisticsUpdateInterval.Some? {
        running := running - {statisticsUpdateInterval.value};
      }
      assert running == map[];
      var handle := nextHandle;
      nextHandle := nextHandle + 1;
      running := running[handle := testId];
      statisticsUpdateInterval := Some(handle);
    }

    /** `selectTest`: the test becomes the selection, the content is shown, and only it is polled. */
    method SelectTest(testId: string)
      requires Valid()
      modifies this`currentSelectedTestId, this`contentShown, this`statisticsUpdateInterval, this`running, this`nextHandle
      ensures Valid()
      ensures currentSelectedTestId == Some(testId) && contentShown
      ensures statisticsUpdateInterval.Some? && running == map[statisticsUpdateInterval.value := testId]
    {
      currentSelectedTestId := Some(testId);
      contentShown := true;
      StartStatisticsMonitoring(testId);
    }

    /**
     * `displayActiveTests`: an empty list hides the content and keeps the
     * selection and the polling; otherwise the cards are drawn and, when
     * nothing is selected, the first test is selected.
     */
    method DisplayActiveTests(tests: seq<TestSummary>) returns (cards: seq<Card>)
      requires Valid()
      modifies this`currentSelectedTestId, this`contentShown, this`statisticsUpdateInterval, this`running, this`nextHandle
      ensures Valid()
      ensures tests == [] ==>
        && cards == [] && !contentShown
        && currentSelectedTestId == old(currentSelectedTestId)
        && running == old(running) && statisticsUpdateInterval == old(statisticsUpdateInterval)
      ensures tests != [] ==> cards == Cards(tests, old(currentSelectedTestId))
      ensures tests != [] && NothingSelected(old(currentSelectedTestId)) ==>
        && currentSelectedTestId == Some(tests[0].testId) && contentShown
        && statisticsUpdateInterval.Some? && running == map[statisticsUpdateInterval.value := tests[0].testId]
      ensures tests != [] && !NothingSelected(old(currentSelectedTestId)) ==>
        && currentSelectedTestId == old(currentSelectedTestId) && contentShown == old(contentShown)
        && running == old(running) && statisticsUpdateInterval == old(statisticsUpdateInterval)
    {
      if |tests| == 0 {
        contentShown := false;
        return [];
      }
      cards := Cards(tests, currentSelectedTestId);
      if NothingSelected(currentSelectedTestId) {
        SelectTest(tests[0].testId);
      }
    }

    /** The page's unload handler: the interval is cleared. */
    method Unload()
      requires Valid()
      modifies this`running
      ensures Valid() && running == map[]
    {
      if statisticsUpdateInterval.Some? {
        running := running - {statisticsUpdateInterval.value};
      }
      assert running == map[];
    }
  }

  /** Under the page's invariant at most one statistics interval runs at any time. */
  lemma AtMostOneInterval(running: map<nat, string>, current: Option<nat>)
    requires forall h :: h in running ==> current == Some(h)
    ensures |running.Keys| <= 1
    ensures current.None? ==> running == map[]
  {
    if current.Some? && current.value in running {
      assert running.Keys == {current.value};
    } else {
      assert running.Keys == {};
    }
  }
}
