/** The integrations view: a list of platform integrations that the connect,
    disconnect and sync buttons replace record by record (keyed by id), the
    split into connected and available cards, and the summary counts. */
module Integrations {

  import opened Options
  import opened Display
  import opened Folds

  /** One platform integration. `lastSync` is an ISO timestamp or `null`.
      The description and logo are display text and are not modelled. */
  datatype Integration = Integration(id: string, name: string, connected: bool, lastSync: Option<string>,
                                     status: string, accounts: seq<string>, metrics: seq<string>)

  const ActiveStatus: string := "Active"
  const NotConnectedStatus: string := "Not Connected"

  /** The integrations the view starts with. */
  const Initial: seq<Integration> := [
    Integration("google-ads", "Google Ads", true, Some("2024-06-16T10:30:00Z"), "Active",
                ["TechCorp Account", "HealthPlus Medical", "RetailMax"],
                ["Impressions", "Clicks", "Cost", "Conversions"]),
    Integration("meta-ads", "Meta Ads (Facebook/Instagram)", true, Some("2024-06-16T09:45:00Z"), "Active",
                ["TechCorp FB", "HealthPlus Social"],
                ["Reach", "Impressions", "Clicks", "Leads"]),
    Integration("google-analytics", "Google Analytics 4", true, Some("2024-06-16T11:15:00Z"), "Active",
                ["TechCorp.com", "HealthPlus.com", "RetailMax.com"],
                ["Sessions", "Users", "Conversions", "Revenue"]),
    Integration("linkedin-ads", "LinkedIn Ads", false, None, "Not Connected", [],
                ["Impressions", "Clicks", "Leads", "Cost per Lead"]),
    Integration("twitter-ads", "Twitter Ads (X)", false, None, "Not Connected", [],
                ["Impressions", "Engagements", "Clicks", "Conversions"]),
    Integration("tiktok-ads", "TikTok Ads", false, None, "Not Connected", [],
                ["Views", "Clicks", "Conversions", "Cost per Action"])
  ]

  /** The record invariant the handlers keep: the status label agrees with
      the connected flag, a connected record has a sync time, and a record
      that is not connected has no accounts. */
  predicate Settled(x: Integration)
  {
    && x.status == (if x.connected then ActiveStatus else NotConnectedStatus)
    && (x.connected ==> x.lastSync.Some?)
    && (!x.connected ==> x.accounts == [])
  }

  predicate AllSettled(s: seq<Integration>)
  {
    forall i :: 0 <= i < |s| ==> Settled(s[i])
  }

  /** `prev.map(i => i.id === id ? change(i) : i)`. */
  function UpdateWhere(s: seq<Integration>, id: string, change: Integration -> Integration): (r: seq<Integration>)
    ensures |r| == |s|
    ensures forall i :: 0 <= i < |s| ==> r[i] == (if s[i].id == id then change(s[i]) else s[i])
  {
    seq(|s|, i requires 0 <= i < |s| => if s[i].id == id then change(s[i]) else s[i])
  }

  /** `handleConnect`. */
  function Connect(s: seq<Integration>, id: string, now: string): (r: seq<Integration>)
    ensures |r| == |s|
    ensures forall i :: 0 <= i < |s| && s[i].id != id ==> r[i] == s[i]
    ensures forall i :: 0 <= i < |s| && s[i].id == id ==>
              && r[i].connected && r[i].status == ActiveStatus && r[i].lastSync == Some(now)
              && r[i].id == s[i].id && r[i].name == s[i].name
              && r[i].accounts == s[i].accounts && r[i].metrics == s[i].metrics
  {
    UpdateWhere(s, id, (x: Integration) => x.(connected := true, status := ActiveStatus, lastSync := Some(now)))
  }

  /** `handleDisconnect`. */
  function Disconnect(s: seq<Integration>, id: string): (r: seq<Integration>)
    ensures |r| == |s|
    ensures forall i :: 0 <= i < |s| && s[i].id != id ==> r[i] == s[i]
    ensures forall i :: 0 <= i < |s| && s[i].id == id ==>
              && !r[i].connected && r[i].status == NotConnectedStatus && r[i].lastSync == None
              && r[i].accounts == []
              && r[i].id == s[i].id && r[i].name == s[i].name && r[i].metrics == s[i].metrics
  {
    UpdateWhere(s, id, (x: Integration) => x.(connected := false, status := NotConnectedStatus, lastSync := None, accounts := []))
  }

  /** `handleSync`. */
  function Sync(s: seq<Integration>, id: string, now: string): (r: seq<Integration>)
    ensures |r| == |s|
    ensures forall i :: 0 <= i < |s| && s[i].id != id ==> r[i] == s[i]
    ensures forall i :: 0 <= i < |s| && s[i].id == id ==> r[i] == s[i].(lastSync := Some(now))
  {
    UpdateWhere(s, id, (x: Integration) => x.(lastSync := Some(now)))
  }

  /** Syncs one after another, at the given times. */
  function SyncAll(s: seq<Integration>, id: string, times: seq<string>): (r: seq<Integration>)
    ensures |r| == |s|
    decreases |times|
  {
    if times == [] then s else SyncAll(Sync(s, id, times[0]), id, times[1..])
  }

  lemma InitialSettled()
    ensures AllSettled(Initial)
  {
  }

  /** All three handlers keep every record settled. */
  lemma HandlersKeepSettled(s: seq<Integration>, id: string, now: string)
    requires AllSettled(s)
    ensures AllSettled(Connect(s, id, now))
    ensures AllSettled(Disconnect(s, id))
    ensures AllSettled(Sync(s, id, now))
  {
  }

  /** Disconnecting twice is disconnecting once. */
  lemma DisconnectIdempotent(s: seq<Integration>, id: string)
    ensures Disconnect(Disconnect(s, id), id) == Disconnect(s, id)
  {
  }

  /** Only the last sync time survives a run of syncs. */
  lemma {:induction false} SyncAllLast(s: seq<Integration>, id: string, times: seq<string>)
    ensures times == [] ==> SyncAll(s, id, times) == s
    ensures forall i :: 0 <= i < |s| && s[i].id != id ==> SyncAll(s, id, times)[i] == s[i]
    ensures times != [] ==> forall i :: 0 <= i < |s| && s[i].id == id ==>
              SyncAll(s, id, times)[i] == s[i].(lastSync := Some(times[|times| - 1]))
    decreases |times|
  {
    if times != [] {
      SyncAllLast(Sync(s, id, times[0]), id, times[1..]);
    }
  }

  /** Connecting, syncing any number of times, then disconnecting leaves the
      list as a plain disconnect would. */
  lemma ConnectSyncDisconnect(s: seq<Integration>, id: string, now: string, times: seq<string>)
    ensures Disconnect(SyncAll(Connect(s, id, now), id, times), id) == Disconnect(s, id)
  {
    SyncAllLast(Connect(s, id, now), id, times);
  }

  function IsConnected(x: Integration): bool { x.connected }

  /** `connectedIntegrations` and `availableIntegrations`. */
  function ConnectedOnes(s: seq<Integration>): seq<Integration> { Filter(s, IsConnected) }

  function AvailableOnes(s: seq<Integration>): seq<Integration> { Filter(s, Not(IsConnected)) }

  /** The two card lists partition the integrations: every record is on
      exactly one of them. */
  lemma ConnectedAvailablePartition(s: seq<Integration>)
    ensures |ConnectedOnes(s)| + |AvailableOnes(s)| == |s|
    ensures multiset(ConnectedOnes(s)) + multiset(AvailableOnes(s)) == multiset(s)
    ensures forall x :: x in ConnectedOnes(s) ==> x.connected
    ensures forall x :: x in AvailableOnes(s) ==> !x.connected
  {
    FilterPartition(s, IsConnected);
  }

  function AccountCount(x: Integration): nat { |x.accounts| }

  /** The "Data Sources" card: accounts summed over connected records. */
  function DataSourceCount(s: seq<Integration>): nat
  {
    SumNat(ConnectedOnes(s), AccountCount)
  }

  /** Since a record that is not connected has no accounts, the card counts
      every account in the list. */
  lemma DataSourceCountAll(s: seq<Integration>)
    requires AllSettled(s)
    ensures DataSourceCount(s) == SumNat(s, AccountCount)
  {
    SumNatFilter(s, IsConnected, AccountCount);
  }

  /** `getStatusColor`. */
  function StatusColor(status: string): (c: Colour)
    ensures c == Green <==> ToLower(status) == "active"
    ensures c == Blue <==> ToLower(status) == "syncing"
    ensures c == Red <==> ToLower(status) == "error"
    ensures c != Yellow
  {
    var s := ToLower(status);
    if s == "active" then Green
    else if s == "syncing" then Blue
    else if s == "error" then Red
    else if s == "not connected" then Gray
    else Gray
  }

  /** On settled records the badge is green exactly when the record is
      connected. */
  lemma SettledBadge(x: Integration)
    requires Settled(x)
    ensures StatusColor(x.status) == Green <==> x.connected
  {
    if !x.connected {
      assert ToLower(NotConnectedStatus)[0] == 'n';
    }
  }

  /** The chips an available card shows: the first three metrics and a
      "+n more" chip for the rest. */
  datatype Preview = Preview(chips: seq<string>, more: Option<nat>)

  function MetricPreview(metrics: seq<string>): (p: Preview)
    ensures |p.chips| == if |metrics| < 3 then |metrics| else 3
    ensures p.chips == metrics[..|p.chips|]
    ensures p.more.Some? <==> |metrics| > 3
    ensures p.more.Some? ==> |p.chips| + p.more.value == |metrics|
  {
    var shown := if |metrics| < 3 then metrics else metrics[..3];
    Preview(shown, if |metrics| > 3 then Some(|metrics| - 3) else None)
  }

  /** The view's state: the integrations list the handlers replace. */
  class State {
    var integrations: seq<Integration>

    predicate Valid()
      reads this
    {
      AllSettled(integrations)
    }

    constructor ()
      ensures Valid() && integrations == Initial
    {
      integrations := Initial;
      InitialSettled();
    }

    method HandleConnect(id: string, now: string)
      requires Valid()
      modifies this
      ensures Valid() && integrations == Connect(old(integrations), id, now)
    {
      HandlersKeepSettled(integrations, id, now);
      integrations := Connect(integrations, id, now);
    }

    method HandleDisconnect(id: string)
      requires Valid()
      modifies this
      ensures Valid() && integrations == Disconnect(old(integrations), id)
    {
      HandlersKeepSettled(integrations, id, "");
      integrations := Disconnect(integrations, id);
    }

    method HandleSync(id: string, now: string)
      requires Valid()
      modifies this
      ensures Valid() && integrations == Sync(old(integrations), id, now)
    {
      HandlersKeepSettled(integrations, id, now);
      integrations := Sync(integrations, id, now);
    }
  }

}
