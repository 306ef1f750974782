/** The clients view: the status colour, the list/detail selector, and the
    summary cards over all clients. */
module Clients {

  import opened Options
  import opened Display
  import opened Folds
  import opened ViewState

  /** One client. Contact details, ROI and activity text are display-only. */
  datatype Client = Client(id: int, name: string, contactName: string, status: string,
                           monthlySpend: real, accountManager: string, campaigns: nat)

  /** The mock clients the view lists. */
  const Initial: seq<Client> := [
    Client(1, "TechCorp Inc", "Sarah Johnson", "Active", 24500.0, "John Smith", 8),
    Client(2, "HealthPlus Medical", "Dr. Michael Chen", "Active", 18200.0, "Emma Davis", 5),
    Client(3, "RetailMax Solutions", "Lisa Rodriguez", "Active", 15800.0, "John Smith", 6),
    Client(4, "EcoGreen Energy", "David Wilson", "Paused", 12300.0, "Emma Davis", 3)
  ]

  /** `getStatusColor`. */
  function StatusColor(status: string): (c: Colour)
    ensures c == Green <==> ToLower(status) == "active"
    ensures c == Yellow <==> ToLower(status) == "paused"
    ensures c == Red <==> ToLower(status) == "inactive"
    ensures c != Blue
  {
    var s := ToLower(status);
    if s == "active" then Green
    else if s == "paused" then Yellow
    else if s == "inactive" then Red
    else Gray
  }

  lemma StatusColorIgnoresCase(status: string)
    ensures StatusColor(ToLower(status)) == StatusColor(status)
  {
    ToLowerIdempotent(status);
  }

  function IsActive(c: Client): bool { c.status == "Active" }
  function MonthlySpend(c: Client): real { c.monthlySpend }

  /** The "Total Clients" card. */
  function TotalClients(cs: seq<Client>): (n: nat)
    ensures n == |cs|
  {
    |cs|
  }

  /** The "Active Clients" card: never more than the total. */
  function ActiveClients(cs: seq<Client>): (n: nat)
    ensures n <= TotalClients(cs)
    ensures n == |Filter(cs, IsActive)|
  {
    Count(cs, IsActive)
  }

  /** Every client counts as active or not, exactly once. */
  lemma ActiveAndInactivePartition(cs: seq<Client>)
    ensures ActiveClients(cs) + |Filter(cs, Not(IsActive))| == TotalClients(cs)
  {
    FilterPartition(cs, IsActive);
  }

  /** The "Avg. Monthly Spend" card: the total monthly spend over the number
      of clients, rounded half up as `Math.round` does. JavaScript's 0 / 0
      (NaN) for no clients is `None`. */
  function AverageMonthlySpend(cs: seq<Client>): (avg: Option<int>)
    ensures avg.Some? <==> |cs| > 0
    ensures avg.Some? ==> Mean(cs) - 0.5 < avg.value as real <= Mean(cs) + 0.5
  {
    if |cs| == 0 then None else Some(Round(Mean(cs)))
  }

  /** The exact mean monthly spend of a non-empty client list. */
  function Mean(cs: seq<Client>): (m: real)
    requires |cs| > 0
    ensures m * |cs| as real == Sum(cs, MonthlySpend)
  {
    Sum(cs, MonthlySpend) / |cs| as real
  }

  /** When every client's spend lies in [lo, hi], so does the rounded
      average, give or take the half unit of rounding. */
  lemma AverageMonthlySpendBounds(cs: seq<Client>, lo: real, hi: real)
    requires |cs| > 0
    requires forall i :: 0 <= i < |cs| ==> lo <= cs[i].monthlySpend <= hi
    ensures lo - 0.5 < AverageMonthlySpend(cs).value as real <= hi + 0.5
  {
    MeanBounds(cs, MonthlySpend, lo, hi);
  }

  /** The summary cards over the mock clients: four clients, three active,
      an average monthly spend of $17,700. */
  lemma InitialCards()
    ensures TotalClients(Initial) == 4
    ensures ActiveClients(Initial) == 3
    ensures AverageMonthlySpend(Initial) == Some(17700)
  {
    var a, b, c, d := Initial[0], Initial[1], Initial[2], Initial[3];
    assert Initial == [a, b, c, d];
    CountOfFour(a, b, c, d, IsActive);
    SumOfFour(a, b, c, d, MonthlySpend);
    assert Sum(Initial, MonthlySpend) == 70800.0;
    assert Mean(Initial) == 17700.0;
  }

  /** The view's state. */
  class State {
    var showAddClient: bool
    var selected: Option<Client>
    var viewMode: Mode

    predicate Valid()
      reads this
    {
      Coherent(viewMode, selected)
    }

    constructor ()
      ensures Valid()
      ensures !showAddClient && selected == None && viewMode == List
    {
      showAddClient, selected, viewMode := false, None, List;
    }

    /** The row's view (eye) button. */
    method View(c: Client)
      modifies this
      ensures Valid()
      ensures selected == Some(c) && viewMode == Detail
      ensures showAddClient == old(showAddClient)
    {
      selected := Some(c);
      viewMode := Detail;
    }

    /** The detail view's Back button. */
    method Back()
      modifies this
      ensures Valid()
      ensures viewMode == List && selected == None
      ensures showAddClient == old(showAddClient)
    {
      viewMode := List;
      selected := None;
    }

    /** The Add Client button. */
    method OpenAddClient()
      modifies this
      ensures showAddClient
      ensures selected == old(selected) && viewMode == old(viewMode)
    {
      showAddClient := true;
    }

    /** The dialog's close action and the form's completion callback. */
    method CloseAddClient()
      modifies this
      ensures !showAddClient
      ensures selected == old(selected) && viewMode == old(viewMode)
    {
      showAddClient := false;
    }
  }

}
