/** The `AdminDashboard` component's two state cells (the chart configuration
    and the totals) and `fetchAdminDashboard`, which reads the backend payload,
    sanitises it, checks that contests and counts line up and then writes the
    chart first and the totals second. Any exception in between is routed to
    the `snackBar` callback with severity "error". */
module Dashboard {
  import opened Wrappers
  import opened Sanitizer

  /** A raw list read from the payload, on which the code calls `.map`; when it
      is not an array that call throws a TypeError with message `typeError`. */
  datatype RawList<T> = Items(items: seq<T>) | NotArray(typeError: string)

  /** `data.dashboarDetails` of a 200 response. `Unreadable` stands for a
      missing `data`, `dashboarDetails` or `contestSubmissions`: reading through
      it throws a TypeError with message `typeError`. `usersCount` is the
      outcome of `Number(dashboardData.usersCount)`. */
  datatype Payload =
    | Unreadable(typeError: string)
    | Details(usersCount: Coercion, contests: RawList<RawContest>, counts: RawList<Coercion>)

  /** What `helperService.adminDashboard` settles with: a rejection whose error
      has `message` ("" when it has none), or a response with its status. */
  datatype Response = Rejected(message: string) | Resolved(status: int, payload: Payload)

  /** One call `props.snackBar(message, severity)`. */
  datatype Notice = Notice(message: string, severity: string)

  const MismatchMessage := "Data length mismatch between contests and submissions"
  const DefaultMessage := "Data processing failed"

  /** The notice the catch block sends for an error whose message is `message`:
      `error.message || 'Data processing failed'`, always with "error". */
  function ErrorNotice(message: string): (notice: Notice)
    ensures notice.severity == "error"
    ensures notice.message != []
    ensures message != [] ==> notice.message == message
    ensures message == [] ==> notice.message == DefaultMessage
  {
    Notice(if message == [] then DefaultMessage else message, "error")
  }

  datatype Series = Series(name: string, data: seq<real>)

  /** The chart options the model keeps; the two axis label formatters are
      not modelled. */
  datatype ChartOptions = ChartOptions(
    chartType: string, height: nat, animationsEnabled: bool,
    categories: seq<string>, title: string, titleAlign: string)

  /** The `contestSubmissions` state cell. */
  datatype ChartState = ChartState(options: ChartOptions, series: seq<Series>)

  /** The `totalCounts` state cell. `users` is a JavaScript number and may be
      negative or infinite. */
  datatype Totals = Totals(users: Num, contests: nat, submissions: real)

  const SeriesName := "Submission Count"

  const InitialChart := ChartState(
    ChartOptions("area", 350, false, [], "Total Contest Submissions", "center"),
    [Series(SeriesName, [])])

  const InitialTotals := Totals(Finite(0.0), 0, 0.0)

  /** The chart cell always holds exactly one series, and it has one value per
      category. */
  predicate ChartConsistent(chart: ChartState) {
    |chart.series| == 1 && chart.series[0].name == SeriesName
    && |chart.options.categories| == |chart.series[0].data|
  }

  /** The totals describe the chart: one contest per category and the sum of
      the series. */
  predicate TotalsMatchChart(chart: ChartState, totals: Totals) {
    ChartConsistent(chart)
    && totals.contests == |chart.options.categories|
    && totals.submissions == Sum(chart.series[0].data)
  }

  /** The functional update given to `setContestSubmissions`: spread the
      previous state, replace the x-axis categories and the series. */
  function Publish(prev: ChartState, labels: seq<string>, counts: seq<real>): (next: ChartState)
    ensures next.options.categories == labels
    ensures next.options.(categories := prev.options.categories) == prev.options
    ensures next.series == [Series(SeriesName, counts)]
    ensures ChartConsistent(next) <==> |labels| == |counts|
  {
    prev.(options := prev.options.(categories := labels),
          series := [Series(SeriesName, counts)])
  }

  /** The whole observable effect of one `fetchAdminDashboard` run: the two
      state cells afterwards and the `snackBar` call, if any. */
  datatype Effect = Effect(chart: ChartState, totals: Totals, notice: Option<Notice>)

  /** Reference definition of `fetchAdminDashboard` on the state it starts in.
      The chart is either kept or republished as one consistent series with
      the other options unchanged; the totals change only on a run that ends
      without a notice, and then they describe the new chart; every notice is
      a non-empty error. */
  function Fetch(response: Response, chart: ChartState, totals: Totals): (e: Effect)
    ensures e.chart == chart
            || (ChartConsistent(e.chart) && e.chart.options.(categories := chart.options.categories) == chart.options)
    ensures e.totals != totals ==> e.notice == None
    ensures e.notice == None ==> (e.chart == chart && e.totals == totals) || TotalsMatchChart(e.chart, e.totals)
    ensures e.notice.Some? ==> e.notice.value.severity == "error" && e.notice.value.message != []
  {
    match response
    case Rejected(message) => Effect(chart, totals, Some(ErrorNotice(message)))
    case Resolved(status, payload) =>
      if status != 200 then Effect(chart, totals, None)
      else match payload
        case Unreadable(m) => Effect(chart, totals, Some(ErrorNotice(m)))
        case Details(usersCount, contests, counts) =>
          match contests
          case NotArray(m) => Effect(chart, totals, Some(ErrorNotice(m)))
          case Items(rawContests) =>
            var labels := SafeContests(rawContests);
            match counts
            case NotArray(m) => Effect(chart, totals, Some(ErrorNotice(m)))
            case Items(rawCounts) =>
              match ValidatedCounts(rawCounts)
              case Err(m) => Effect(chart, totals, Some(ErrorNotice(m)))
              case Ok(values) =>
                if |labels| != |values| then
                  Effect(chart, totals, Some(ErrorNotice(MismatchMessage)))
                else
                  var chart' := Publish(chart, labels, values);
                  match usersCount
                  case Throws(m) => Effect(chart', totals, Some(ErrorNotice(m)))
                  case Value(n) => Effect(chart', Totals(UsersOrZero(n), |labels|, Sum(values)), None)
  }

  /** A response other than 200 that settles normally changes nothing and
      notifies no one. */
  lemma FetchNonOkIsSilent(response: Response, chart: ChartState, totals: Totals)
    requires response.Resolved? && response.status != 200
    ensures Fetch(response, chart, totals) == Effect(chart, totals, None)
  {
  }

  /** A rejected request keeps both cells and reports the rejection's message,
      or the default message when it has none. */
  lemma FetchRejectedNotifies(message: string, chart: ChartState, totals: Totals)
    ensures Fetch(Rejected(message), chart, totals)
            == Effect(chart, totals, Some(Notice(if message == [] then DefaultMessage else message, "error")))
  {
  }

  /** A payload that cannot be read as two arrays, or whose counts throw while
      coerced, fails before either setter runs, and the error it throws is the
      one reported. */
  lemma FetchMalformedKeepsState(payload: Payload, chart: ChartState, totals: Totals)
    ensures payload.Unreadable? ==>
              Fetch(Resolved(200, payload), chart, totals)
              == Effect(chart, totals, Some(ErrorNotice(payload.typeError)))
    ensures payload.Details? && payload.contests.NotArray? ==>
              Fetch(Resolved(200, payload), chart, totals)
              == Effect(chart, totals, Some(ErrorNotice(payload.contests.typeError)))
    ensures payload.Details? && payload.contests.Items? && payload.counts.NotArray? ==>
              Fetch(Resolved(200, payload), chart, totals)
              == Effect(chart, totals, Some(ErrorNotice(payload.counts.typeError)))
    ensures payload.Details? && payload.contests.Items? && payload.counts.Items?
            && ValidatedCounts(payload.counts.items).Err? ==>
              Fetch(Resolved(200, payload), chart, totals)
              == Effect(chart, totals, Some(ErrorNotice(ValidatedCounts(payload.counts.items).error)))
  {
  }

  /** Contests and counts of different lengths are rejected, never truncated or
      padded: both cells keep their value and the mismatch is reported. */
  lemma FetchMismatchKeepsState(usersCount: Coercion, rawContests: seq<RawContest>,
                                rawCounts: seq<Coercion>, chart: ChartState, totals: Totals)
    requires forall i :: 0 <= i < |rawCounts| ==> rawCounts[i].Value?
    requires |rawContests| != |rawCounts|
    ensures Fetch(Resolved(200, Details(usersCount, Items(rawContests), Items(rawCounts))), chart, totals)
            == Effect(chart, totals, Some(Notice(MismatchMessage, "error")))
  {
  }

  /** A well-formed payload publishes the sanitised labels as the categories
      and the validated counts as the one series, in backend order, leaves
      every other chart option as it was, and sets totals that describe that
      chart. */
  lemma FetchSuccess(users: Num, rawContests: seq<RawContest>, rawCounts: seq<Coercion>,
                     chart: ChartState, totals: Totals)
    requires forall i :: 0 <= i < |rawCounts| ==> rawCounts[i].Value?
    requires |rawContests| == |rawCounts|
    ensures var e := Fetch(Resolved(200, Details(Value(users), Items(rawContests), Items(rawCounts))), chart, totals);
            && e.notice == None
            && e.chart.options == chart.options.(categories := e.chart.options.categories)
            && |e.chart.options.categories| == |rawContests|
            && (forall i :: 0 <= i < |rawContests| ==>
                  e.chart.options.categories[i] == SanitizeLabel(rawContests[i], i))
            && e.chart.series == [Series(SeriesName, e.chart.series[0].data)]
            && |e.chart.series[0].data| == |rawCounts|
            && (forall i :: 0 <= i < |rawCounts| ==>
                  e.chart.series[0].data[i] == ValidateCount(rawCounts[i].n))
            && TotalsMatchChart(e.chart, e.totals)
            && e.totals.users == UsersOrZero(users)
            && e.totals.submissions >= 0.0
  {
    var values := ValidatedCounts(rawCounts).value;
    ValidatedCountsNonNegative(rawCounts);
    SumNonNegative(values);
  }

  /** `Number(usersCount)` throwing happens after `setContestSubmissions` has
      run: the chart is published, the totals keep their old value and the
      error is reported. */
  lemma FetchUsersThrowAfterChartWrite(message: string, rawContests: seq<RawContest>,
                                       rawCounts: seq<Coercion>, chart: ChartState, totals: Totals)
    requires forall i :: 0 <= i < |rawCounts| ==> rawCounts[i].Value?
    requires |rawContests| == |rawCounts|
    ensures var e := Fetch(Resolved(200, Details(Throws(message), Items(rawContests), Items(rawCounts))), chart, totals);
            && e.chart == Publish(chart, SafeContests(rawContests), ValidatedCounts(rawCounts).value)
            && e.totals == totals
            && e.notice == Some(ErrorNotice(message))
  {
    var counts := ValidatedCounts(rawCounts);
    assert counts.Ok? && |counts.value| == |rawCounts|;
    assert |SafeContests(rawContests)| == |counts.value|;
  }

  /** So the two cells are not updated together: from the initial state one
      run can leave a one-category chart beside totals that count no contest. */
  lemma PartialUpdateWitness()
    ensures var e := Fetch(Resolved(200, Details(Throws("x"), Items([Falsy]), Items([Value(Finite(3.0))]))),
                           InitialChart, InitialTotals);
            |e.chart.options.categories| == 1 && e.totals.contests == 0
            && !TotalsMatchChart(e.chart, e.totals)
  {
  }

  /** Every run keeps the chart cell consistent. */
  lemma FetchKeepsChartConsistent(response: Response, chart: ChartState, totals: Totals)
    requires ChartConsistent(chart)
    ensures ChartConsistent(Fetch(response, chart, totals).chart)
  {
  }

  /** Running the fetch twice on the same response leaves the same state as
      running it once. */
  lemma FetchIdempotent(response: Response, chart: ChartState, totals: Totals)
    ensures var once := Fetch(response, chart, totals);
            var twice := Fetch(response, once.chart, once.totals);
            twice.chart == once.chart && twice.totals == once.totals
  {
  }

  /** The `AdminDashboard` component's state: its two `useState` cells. */
  class AdminDashboard {
    var contestSubmissions: ChartState
    var totalCounts: Totals

    ghost predicate Valid()
      reads this
    {
      ChartConsistent(contestSubmissions)
    }

    /** Mounting the component: both cells hold their initial values. */
    constructor ()
      ensures Valid()
      ensures contestSubmissions == InitialChart && totalCounts == InitialTotals
    {
      contestSubmissions := InitialChart;
      totalCounts := InitialTotals;
    }

    /** `setContestSubmissions(prev => ...)`. */
    method SetContestSubmissions(labels: seq<string>, counts: seq<real>)
      requires Valid()
      requires |labels| == |counts|
      modifies this`contestSubmissions
      ensures Valid()
      ensures contestSubmissions == Publish(old(contestSubmissions), labels, counts)
    {
      contestSubmissions := Publish(contestSubmissions, labels, counts);
    }

    /** `setTotalCounts({...})`. */
    method SetTotalCounts(totals: Totals)
      requires Valid()
      modifies this`totalCounts
      ensures Valid()
      ensures totalCounts == totals
    {
      totalCounts := totals;
    }

    /** `fetchAdminDashboard` once the request has settled with `response`;
        returns the `snackBar` call it makes, if any. */
    method FetchAdminDashboard(response: Response) returns (notice: Option<Notice>)
      requires Valid()
      modifies this
      ensures Valid()
      ensures Effect(contestSubmissions, totalCounts, notice)
              == Fetch(response, old(contestSubmissions), old(totalCounts))
    {
      notice := None;
      if response.Rejected? {
        notice := Some(ErrorNotice(response.message));
        return;
      }
      if response.status != 200 {
        return;
      }
      var payload := response.payload;
      if payload.Unreadable? {
        notice := Some(ErrorNotice(payload.typeError));
        return;
      }
      if payload.contests.NotArray? {
        notice := Some(ErrorNotice(payload.contests.typeError));
        return;
      }
      var safeContests := SafeContests(payload.contests.items);
      if payload.counts.NotArray? {
        notice := Some(ErrorNotice(payload.counts.typeError));
        return;
      }
      var validatedCounts := ValidatedCounts(payload.counts.items);
      if validatedCounts.Err? {
        notice := Some(ErrorNotice(validatedCounts.error));
        return;
      }
      if |safeContests| != |validatedCounts.value| {
        notice := Some(ErrorNotice(MismatchMessage));
        return;
      }
      SetContestSubmissions(safeContests, validatedCounts.value);
      if payload.usersCount.Throws? {
        notice := Some(ErrorNotice(payload.usersCount.message));
        return;
      }
      SetTotalCounts(Totals(UsersOrZero(payload.usersCount.n), |safeContests|, Sum(validatedCounts.value)));
    }
  }
}
