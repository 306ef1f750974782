/** The campaigns view: campaign and task status colours, the list/detail
    selector, the pause/resume choice, budget utilisation and days remaining
    on the detail view, and the summary cards over all campaigns. */
module Campaigns {

  import opened Options
  import opened Display
  import opened Folds
  import opened ViewState

  datatype Task = Task(id: int, title: string, status: string, assignee: string)

  /** One campaign. Impressions, clicks, CTR, CPC, platform, objective and
      brief are display-only and not modelled. */
  datatype Campaign = Campaign(id: int, name: string, client: string, status: string,
                               budget: real, spent: real, startDate: string, endDate: string,
                               conversions: nat, roas: real, tasks: seq<Task>)

  /** The mock campaigns the view lists. */
  const Initial: seq<Campaign> := [
    Campaign(1, "TechCorp Q2 Brand Awareness", "TechCorp Inc", "Active", 25000.0, 18500.0,
             "2024-04-01", "2024-06-30", 324, 4.2,
             [Task(1, "Create ad creatives", "Completed", "Sarah"),
              Task(2, "Set up tracking", "Completed", "Mike"),
              Task(3, "Launch campaign", "Completed", "John"),
              Task(4, "Weekly optimization", "In Progress", "Sarah")]),
    Campaign(2, "HealthPlus Lead Generation", "HealthPlus Medical", "Active", 15000.0, 12200.0,
             "2024-05-15", "2024-07-15", 186, 3.8,
             [Task(1, "Audience research", "Completed", "Emma"),
              Task(2, "Landing page setup", "Completed", "Tom"),
              Task(3, "Campaign launch", "Completed", "Emma"),
              Task(4, "Lead qualification", "In Progress", "Tom")]),
    Campaign(3, "RetailMax Summer Sale", "RetailMax Solutions", "Paused", 20000.0, 8500.0,
             "2024-06-01", "2024-08-31", 142, 3.2,
             [Task(1, "Seasonal creative design", "Completed", "Lisa"),
              Task(2, "Promotional setup", "In Progress", "Mark"),
              Task(3, "Inventory sync", "Pending", "Lisa")])
  ]

  /** `getStatusColor`. */
  function StatusColor(status: string): (c: Colour)
    ensures c == Green <==> ToLower(status) == "active"
    ensures c == Yellow <==> ToLower(status) == "paused"
    ensures c == Blue <==> ToLower(status) == "completed"
    ensures c != Red
  {
    var s := ToLower(status);
    if s == "active" then Green
    else if s == "paused" then Yellow
    else if s == "completed" then Blue
    else if s == "draft" then Gray
    else Gray
  }

  /** `getTaskStatusColor`. */
  function TaskStatusColor(status: string): (c: Colour)
    ensures c == Green <==> ToLower(status) == "completed"
    ensures c == Blue <==> ToLower(status) == "in progress"
    ensures c == Yellow <==> ToLower(status) == "pending"
    ensures c != Red
  {
    var s := ToLower(status);
    if s == "completed" then Green
    else if s == "in progress" then Blue
    else if s == "pending" then Yellow
    else Gray
  }

  lemma ClassifiersIgnoreCase(status: string)
    ensures StatusColor(ToLower(status)) == StatusColor(status)
    ensures TaskStatusColor(ToLower(status)) == TaskStatusColor(status)
  {
    ToLowerIdempotent(status);
  }

  datatype Action = Pause | Resume

  /** The detail view offers Pause on an active campaign, Resume otherwise. */
  function DetailAction(c: Campaign): (a: Action)
    ensures a == Pause <==> c.status == "Active"
  {
    if c.status == "Active" then Pause else Resume
  }

  /** Pause is offered only beside a green badge. The button's test is
      case-sensitive while the badge's is not, so a campaign whose status is
      spelt "active" has a green badge and is offered Resume. */
  lemma PauseOnlyOnGreenBadge(c: Campaign)
    ensures DetailAction(c) == Pause ==> StatusColor(c.status) == Green
    ensures c.status == "active" ==> StatusColor(c.status) == Green && DetailAction(c) == Resume
  {
  }

  function IsActive(c: Campaign): bool { c.status == "Active" }
  function Spent(c: Campaign): real { c.spent }
  function Conversions(c: Campaign): nat { c.conversions }
  function Roas(c: Campaign): real { c.roas }

  /** The "Active Campaigns" card. */
  function ActiveCount(cs: seq<Campaign>): (n: nat)
    ensures n <= |cs|
    ensures n == |Filter(cs, IsActive)|
  {
    Count(cs, IsActive)
  }

  /** The "Total Spend" card. */
  function TotalSpend(cs: seq<Campaign>): real { Sum(cs, Spent) }

  /** The "Conversions" card. */
  function TotalConversions(cs: seq<Campaign>): nat { SumNat(cs, Conversions) }

  /** The "Avg. ROAS" card: the sum of ROAS over the number of campaigns;
      JavaScript's 0 / 0 (NaN) for no campaigns is `None`. */
  function AverageRoas(cs: seq<Campaign>): (avg: Option<real>)
    ensures avg.Some? <==> |cs| > 0
    ensures avg.Some? ==> avg.value * |cs| as real == Sum(cs, Roas)
  {
    if |cs| == 0 then None else Some(Sum(cs, Roas) / |cs| as real)
  }

  /** The average lies between the smallest and largest ROAS bounds. */
  lemma AverageRoasBounds(cs: seq<Campaign>, lo: real, hi: real)
    requires |cs| > 0
    requires forall i :: 0 <= i < |cs| ==> lo <= cs[i].roas <= hi
    ensures lo <= AverageRoas(cs).value <= hi
  {
    MeanBounds(cs, Roas, lo, hi);
  }

  /** Total spend never falls below zero when no campaign has negative spend. */
  lemma TotalSpendNonNegative(cs: seq<Campaign>)
    requires forall i :: 0 <= i < |cs| ==> cs[i].spent >= 0.0
    ensures TotalSpend(cs) >= 0.0
  {
    SumWhereNonNegative(cs, Always(), Spent);
  }

  /** The summary cards over the mock campaigns: two active, $39,200 spent,
      652 conversions, an average ROAS of 11.2 / 3. */
  lemma InitialCards()
    ensures ActiveCount(Initial) == 2
    ensures TotalSpend(Initial) == 39200.0
    ensures TotalConversions(Initial) == 652
    ensures AverageRoas(Initial) == Some(11.2 / 3.0)
  {
    var a, b, c := Initial[0], Initial[1], Initial[2];
    assert Initial == [a, b, c];
    CountOfThree(a, b, c, IsActive);
    SumOfThree(a, b, c, Spent);
    SumNatOfThree(a, b, c, Conversions);
    SumOfThree(a, b, c, Roas);
  }

  /** The "Budget Utilization" figure: `Math.round(spent / budget * 100)`.
      A zero budget, for which JavaScript yields Infinity or NaN, is `None`. */
  function BudgetUtilisation(c: Campaign): (pct: Option<int>)
    ensures pct.Some? <==> c.budget != 0.0
    ensures pct.Some? ==> c.spent / c.budget * 100.0 - 0.5 < pct.value as real <= c.spent / c.budget * 100.0 + 0.5
  {
    if c.budget == 0.0 then None else Some(Round(c.spent / c.budget * 100.0))
  }

  /** Spending within a positive budget gives a percentage from 0 to 100. */
  lemma BudgetUtilisationRange(c: Campaign)
    requires c.budget > 0.0 && 0.0 <= c.spent <= c.budget
    ensures 0 <= BudgetUtilisation(c).value <= 100
  {
    var x := c.spent / c.budget * 100.0;
    assert c.spent / c.budget <= 1.0;
    assert 0.0 <= x <= 100.0;
  }

  const MillisecondsPerDay: int := 1000 * 60 * 60 * 24

  /** The "Days Remaining" figure from the end date and the current time,
      both in milliseconds since the epoch: whole days left, rounded up,
      and 0 once the end date has passed. */
  function DaysRemaining(endMs: int, nowMs: int): (days: nat)
    ensures days == 0 <==> endMs <= nowMs
    ensures days > 0 ==> (days - 1) * MillisecondsPerDay < endMs - nowMs <= days * MillisecondsPerDay
  {
    var d := Ceil((endMs - nowMs) as real / MillisecondsPerDay as real);
    if d < 0 then 0 else d
  }

  /** The view's state. */
  class State {
    var showAddCampaign: bool
    var selected: Option<Campaign>
    var viewMode: Mode

    predicate Valid()
      reads this
    {
      Coherent(viewMode, selected)
    }

    constructor ()
      ensures Valid()
      ensures !showAddCampaign && selected == None && viewMode == List
    {
      showAddCampaign, selected, viewMode := false, None, List;
    }

    /** The row's View Details button. */
    method View(c: Campaign)
      modifies this
      ensures Valid()
      ensures selected == Some(c) && viewMode == Detail
      ensures showAddCampaign == old(showAddCampaign)
    {
      selected := Some(c);
      viewMode := Detail;
    }

    /** The detail view's Back button. */
    method Back()
      modifies this
      ensures Valid()
      ensures viewMode == List && selected == None
      ensures showAddCampaign == old(showAddCampaign)
    {
      viewMode := List;
      selected := None;
    }

    /** The New Campaign button. */
    method OpenAddCampaign()
      modifies this
      ensures showAddCampaign
      ensures selected == old(selected) && viewMode == old(viewMode)
    {
      showAddCampaign := true;
    }

    /** The dialog's close action and the form's completion callback. */
    method CloseAddCampaign()
      modifies this
      ensures !showAddCampaign
      ensures selected == old(selected) && viewMode == old(viewMode)
    {
      showAddCampaign := false;
    }
  }

}
