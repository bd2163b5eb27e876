/** The chart section of the dashboard: the `ErrorBoundary` class that wraps
    it, and the choice between the chart and the loading placeholder. */
module RenderGuard {
  import opened Wrappers
  import opened Dashboard

  /** What a render produces, as far as this section is concerned. */
  datatype View =
    | Nothing                                         // the empty fragment
    | ChartView(options: ChartOptions, series: seq<Series>)
    | Loading                                         // "Preparing visualization..."

  /** The boundary's children: the chart once the series has data, the
      loading placeholder before. */
  function ChartOrPlaceholder(chart: ChartState): (v: View)
    requires |chart.series| > 0
    ensures v.ChartView? <==> |chart.series[0].data| > 0
    ensures v.ChartView? ==> v.options == chart.options && v.series == chart.series
    ensures !v.ChartView? ==> v == Loading
  {
    if |chart.series[0].data| > 0 then ChartView(chart.options, chart.series) else Loading
  }

  /** Right after mounting, before any data has arrived, the placeholder shows. */
  lemma InitialShowsPlaceholder()
    ensures ChartOrPlaceholder(InitialChart) == Loading
  {
  }

  /** The two-state render guard. */
  class ErrorBoundary {
    var hasError: bool
    var errorInfo: Option<string>

    constructor ()
      ensures !hasError && errorInfo == None
    {
      hasError := false;
      errorInfo := None;
    }

    /** `getDerivedStateFromError`: React merges `{ hasError: true }` into the
        state. */
    method GetDerivedStateFromError()
      modifies this`hasError
      ensures hasError
    {
      hasError := true;
    }

    /** `componentDidCatch`: records the component stack of the failure. */
    method ComponentDidCatch(componentStack: string)
      modifies this`errorInfo
      ensures errorInfo == Some(componentStack)
    {
      errorInfo := Some(componentStack);
    }

    /** `handleRetry`: back to the normal state. */
    method HandleRetry()
      modifies this
      ensures !hasError && errorInfo == None
    {
      hasError := false;
      errorInfo := None;
    }

    /** `render`: nothing while in error, the children otherwise. */
    function Render(children: View): (v: View)
      reads this
      ensures hasError ==> v == Nothing
      ensures !hasError ==> v == children
    {
      if hasError then Nothing else children
    }
  }

  /** One render of the chart section. `chartThrows` says whether the chart
      collaborator throws while rendering. A failure moves the boundary to its
      error state (React calls `getDerivedStateFromError`, renders the
      boundary again and then calls `componentDidCatch`) and the section shows
      nothing; the dashboard's state cells are not touched. */
  method RenderChartSection(boundary: ErrorBoundary, dashboard: AdminDashboard,
                            chartThrows: bool, componentStack: string) returns (v: View)
    requires dashboard.Valid()
    modifies boundary
    ensures old(boundary.hasError) ==> v == Nothing && boundary.hasError == old(boundary.hasError)
                                       && boundary.errorInfo == old(boundary.errorInfo)
    ensures !old(boundary.hasError) && chartThrows && ChartOrPlaceholder(dashboard.contestSubmissions).ChartView? ==>
              v == Nothing && boundary.hasError && boundary.errorInfo == Some(componentStack)
    ensures !old(boundary.hasError) && !(chartThrows && ChartOrPlaceholder(dashboard.contestSubmissions).ChartView?) ==>
              v == ChartOrPlaceholder(dashboard.contestSubmissions) && !boundary.hasError
              && boundary.errorInfo == old(boundary.errorInfo)
  {
    var children := ChartOrPlaceholder(dashboard.contestSubmissions);
    if !boundary.hasError && children.ChartView? && chartThrows {
      boundary.GetDerivedStateFromError();
      v := boundary.Render(children);
      boundary.ComponentDidCatch(componentStack);
    } else {
      v := boundary.Render(children);
    }
  }
}
