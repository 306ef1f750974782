/** The reports view: the status colour, the per-row actions, the summary
    cards, the date-range selector and the create-report dialog. */
module Reports {

  import opened Display
  import opened Folds

  /** One generated report. */
  datatype Report = Report(id: int, name: string, client: string, kind: string,
                           status: string, dateRange: string, metrics: seq<string>)

  /** The mock reports the view lists. */
  const Initial: seq<Report> := [
    Report(1, "TechCorp Q2 Performance Report", "TechCorp Inc", "Performance", "Ready",
           "Apr 1 - Jun 30, 2024", ["Impressions", "Clicks", "Conversions", "ROAS"]),
    Report(2, "HealthPlus Lead Generation Analysis", "HealthPlus Medical", "Lead Analysis", "Ready",
           "May 1 - May 31, 2024", ["Lead Volume", "Cost per Lead", "Conversion Rate"]),
    Report(3, "RetailMax Monthly Summary", "RetailMax Solutions", "Summary", "Processing",
           "May 1 - May 31, 2024", ["Sales", "Revenue", "ROI"]),
    Report(4, "All Clients Overview - May 2024", "All Clients", "Overview", "Ready",
           "May 1 - May 31, 2024", ["Total Spend", "Total Revenue", "Client Performance"])
  ]

  /** `getStatusColor`. */
  function StatusColor(status: string): (c: Colour)
    ensures c == Green <==> ToLower(status) == "ready"
    ensures c == Blue <==> ToLower(status) == "processing"
    ensures c == Red <==> ToLower(status) == "failed"
    ensures c != Yellow
  {
    var s := ToLower(status);
    if s == "ready" then Green
    else if s == "processing" then Blue
    else if s == "failed" then Red
    else Gray
  }

  lemma StatusColorIgnoresCase(status: string)
    ensures StatusColor(ToLower(status)) == StatusColor(status)
  {
    ToLowerIdempotent(status);
  }

  /** What a row offers on its right: the PDF and CSV download buttons, the
      "Processing..." spinner, or nothing. */
  datatype RowActions = Downloads | Spinner | NoActions

  function Actions(r: Report): (a: RowActions)
    ensures a == Downloads <==> r.status == "Ready"
    ensures a == Spinner <==> r.status == "Processing"
  {
    if r.status == "Ready" then Downloads
    else if r.status == "Processing" then Spinner
    else NoActions
  }

  /** A row whose badge is not green never offers downloads, and one whose
      badge is not blue never spins. */
  lemma ActionsAgreeWithBadge(r: Report)
    ensures Actions(r) == Downloads ==> StatusColor(r.status) == Green
    ensures Actions(r) == Spinner ==> StatusColor(r.status) == Blue
  {
    if r.status == "Ready" {
      assert ToLower(r.status) == "ready";
    } else if r.status == "Processing" {
      assert ToLower(r.status) == "processing";
    }
  }

  function IsReady(r: Report): bool { r.status == "Ready" }
  function IsProcessing(r: Report): bool { r.status == "Processing" }

  /** The "Total Reports" card. */
  function TotalReports(rs: seq<Report>): (n: nat)
    ensures n == |rs|
  {
    |rs|
  }

  /** The "Ready for Download" card: the rows that offer downloads. */
  function ReadyCount(rs: seq<Report>): (n: nat)
    ensures n <= |rs|
    ensures n == |Filter(rs, IsReady)|
    ensures forall r :: r in Filter(rs, IsReady) <==> r in rs && Actions(r) == Downloads
  {
    Count(rs, IsReady)
  }

  /** The "Processing" card: the rows that show the spinner. */
  function ProcessingCount(rs: seq<Report>): (n: nat)
    ensures n <= |rs|
    ensures n == |Filter(rs, IsProcessing)|
    ensures forall r :: r in Filter(rs, IsProcessing) <==> r in rs && Actions(r) == Spinner
  {
    Count(rs, IsProcessing)
  }

  /** No report is both ready and processing, so the two cards together
      never exceed the total. */
  lemma ReadyAndProcessingWithinTotal(rs: seq<Report>)
    ensures ReadyCount(rs) + ProcessingCount(rs) <= TotalReports(rs)
  {
    CountDisjoint(rs, IsReady, IsProcessing);
  }

  /** The summary cards over the mock reports: four reports, three ready,
      one processing. */
  lemma InitialCards()
    ensures TotalReports(Initial) == 4
    ensures ReadyCount(Initial) == 3
    ensures ProcessingCount(Initial) == 1
  {
    var a, b, c, d := Initial[0], Initial[1], Initial[2], Initial[3];
    assert Initial == [a, b, c, d];
    CountOfFour(a, b, c, d, IsReady);
    CountOfFour(a, b, c, d, IsProcessing);
  }

  /** The values of the date-range selector above the list. */
  const DateRanges: seq<string> := ["last-7-days", "last-30-days", "last-90-days", "custom"]

  /** The view's state. The list shows every report whatever range is
      selected: the selector changes nothing else. */
  class State {
    var showCreateReport: bool
    var selectedDateRange: string

    predicate Valid()
      reads this
    {
      selectedDateRange in DateRanges
    }

    constructor ()
      ensures Valid()
      ensures !showCreateReport && selectedDateRange == "last-30-days"
    {
      showCreateReport := false;
      selectedDateRange := "last-30-days";
    }

    /** The Create Report and Create Custom Report buttons. */
    method OpenCreateReport()
      modifies this
      ensures showCreateReport
      ensures selectedDateRange == old(selectedDateRange)
    {
      showCreateReport := true;
    }

    /** The dialog's close action and the form's completion callback. */
    method CloseCreateReport()
      modifies this
      ensures !showCreateReport
      ensures selectedDateRange == old(selectedDateRange)
    {
      showCreateReport := false;
    }

    /** The selector's change handler; it offers only the listed values. */
    method SelectDateRange(range: string)
      requires Valid()
      requires range in DateRanges
      modifies this
      ensures Valid()
      ensures selectedDateRange == range
      ensures showCreateReport == old(showCreateReport)
    {
      selectedDateRange := range;
    }
  }

}
