/**
 * The alerts page: a list of alert records kept as state, acknowledged and
 * resolved by id, shown through a status/severity filter and a text search,
 * summarised by four counts; plus a map of notification preferences.
 */
module Alerts {
  import opened Text
  import opened Lists
  import opened Badges

  datatype Alert = Alert(
    id: int,
    kind: string,
    message: string,
    severity: string,
    status: string,
    sector: string,
    timestamp: string,
    acknowledged: bool)

  /** The alerts the page starts with. */
  const AlertsData: seq<Alert> := [
    Alert(1, "High Risk Warning", "Sector A-1 showing elevated risk levels due to heavy rainfall",
          "high", "active", "A-1", "2024-01-15 14:30", false),
    Alert(2, "Weather Alert", "Heavy rain forecast for next 24 hours across all sectors",
          "medium", "active", "All Sectors", "2024-01-15 09:15", true),
    Alert(3, "Equipment Check", "Monitoring station B-2 requires maintenance",
          "low", "resolved", "B-2", "2024-01-14 16:45", true),
    Alert(4, "Blast Notification", "Scheduled blast in Sector C-3 completed successfully",
          "info", "resolved", "C-3", "2024-01-14 11:20", true),
    Alert(5, "Risk Threshold", "Sector B-1 approaching risk threshold - monitoring recommended",
          "medium", "active", "B-1", "2024-01-13 08:30", false)
  ]

  /** The notification preferences the page starts with. */
  const NotificationPreferences: map<string, bool> := map[
    "email" := true, "sms" := false, "push" := true,
    "highRisk" := true, "mediumRisk" := true, "lowRisk" := false,
    "weather" := true, "equipment" := true, "blasts" := false
  ]

  /** The badge for a severity; "info" and unknown severities get the default badge. */
  function SeverityBadge(severity: string): (v: Variant)
    ensures v == Danger <==> severity == "high"
    ensures v == Caution <==> severity == "medium"
    ensures v == Safe <==> severity == "low"
    ensures v == Default <==> severity != "high" && severity != "medium" && severity != "low"
  {
    if severity == "high" then Danger
    else if severity == "medium" then Caution
    else if severity == "low" then Safe
    else if severity == "info" then Default
    else Default
  }

  /** The badge for a status; anything but "active" and "resolved" gets the default badge. */
  function StatusBadge(status: string): (v: Variant)
    ensures v == Danger <==> status == "active"
    ensures v == Safe <==> status == "resolved"
    ensures v == Default <==> status != "active" && status != "resolved"
  {
    if status == "active" then Danger
    else if status == "resolved" then Safe
    else Default
  }

  /** The drop-down filter: "all", or a status or severity the alert must have. */
  predicate MatchesFilter(a: Alert, filter: string)
  {
    filter == "all" || a.status == filter || a.severity == filter
  }

  /** The search box: the lower-cased term occurs in the lower-cased message or sector. */
  predicate MatchesSearch(a: Alert, term: string)
  {
    Contains(Lower(a.message), Lower(term)) || Contains(Lower(a.sector), Lower(term))
  }

  /** `filteredAlerts`: the alerts that pass both the filter and the search, in their order. */
  function FilteredAlerts(alerts: seq<Alert>, filter: string, term: string): (r: seq<Alert>)
    ensures IsSubsequence(r, alerts)
    ensures forall a :: a in r ==> a in alerts && MatchesFilter(a, filter) && MatchesSearch(a, term)
    ensures forall a :: a in alerts && MatchesFilter(a, filter) && MatchesSearch(a, term) ==> a in r
    ensures forall a :: a in r && filter != "all" ==> a.status == filter || a.severity == filter
    ensures forall a :: multiset(r)[a] == if MatchesFilter(a, filter) && MatchesSearch(a, term) then multiset(alerts)[a] else 0
  {
    var p := (a: Alert) => MatchesFilter(a, filter) && MatchesSearch(a, term);
    forall a: Alert
      ensures a in Filter(alerts, p) <==> a in alerts && p(a)
      ensures multiset(Filter(alerts, p))[a] == if p(a) then multiset(alerts)[a] else 0
    {
      FilterMembers(alerts, p, a);
      FilterCount(alerts, p, a);
    }
    Filter(alerts, p)
  }

  /** With the "all" filter and an empty search every alert is shown. */
  lemma ShowAllKeepsEverything(alerts: seq<Alert>)
    ensures FilteredAlerts(alerts, "all", "") == alerts
  {
    var p := (a: Alert) => MatchesFilter(a, "all") && MatchesSearch(a, "");
    forall i | 0 <= i < |alerts| ensures p(alerts[i]) {
      ContainsEmpty(Lower(alerts[i].message));
    }
    FilterKeepsAll(alerts, p);
  }

  /** The search ignores the case of the term. */
  lemma SearchIgnoresTermCase(alerts: seq<Alert>, filter: string, term: string)
    ensures FilteredAlerts(alerts, filter, term) == FilteredAlerts(alerts, filter, Lower(term))
  {
    LowerIdempotent(term);
    FilterCongruent(alerts,
      (a: Alert) => MatchesFilter(a, filter) && MatchesSearch(a, term),
      (a: Alert) => MatchesFilter(a, filter) && MatchesSearch(a, Lower(term)));
  }

  /** One alert after `acknowledgeAlert(id)`. */
  function AcknowledgeOne(a: Alert, id: int): Alert
  {
    if a.id == id then a.(acknowledged := true) else a
  }

  /** The list after `acknowledgeAlert(id)`: exactly the alerts with that id become acknowledged. */
  function Acknowledge(s: seq<Alert>, id: int): (r: seq<Alert>)
    ensures |r| == |s|
    ensures forall i :: 0 <= i < |s| && s[i].id == id ==> r[i] == s[i].(acknowledged := true)
    ensures forall i :: 0 <= i < |s| && s[i].id != id ==> r[i] == s[i]
  {
    if s == [] then []
    else
      var r := [AcknowledgeOne(s[0], id)] + Acknowledge(s[1..], id);
      assert forall i :: 0 < i < |s| ==> r[i] == Acknowledge(s[1..], id)[i - 1] && s[1..][i - 1] == s[i];
      r
  }

  /** Acknowledging twice is acknowledging once. */
  lemma AcknowledgeIdempotent(s: seq<Alert>, id: int)
    ensures Acknowledge(Acknowledge(s, id), id) == Acknowledge(s, id)
  {
  }

  /** One alert after `resolveAlert(id)`. */
  function ResolveOne(a: Alert, id: int): Alert
  {
    if a.id == id then a.(status := "resolved") else a
  }

  /** The list after `resolveAlert(id)`: exactly the alerts with that id become resolved. */
  function Resolve(s: seq<Alert>, id: int): (r: seq<Alert>)
    ensures |r| == |s|
    ensures forall i :: 0 <= i < |s| && s[i].id == id ==> r[i] == s[i].(status := "resolved")
    ensures forall i :: 0 <= i < |s| && s[i].id != id ==> r[i] == s[i]
    ensures forall i :: 0 <= i < |s| ==> r[i].acknowledged == s[i].acknowledged
  {
    if s == [] then []
    else
      var r := [ResolveOne(s[0], id)] + Resolve(s[1..], id);
      assert forall i :: 0 < i < |s| ==> r[i] == Resolve(s[1..], id)[i - 1] && s[1..][i - 1] == s[i];
      r
  }

  /** No two alerts share an id. */
  ghost predicate UniqueIds(s: seq<Alert>)
  {
    forall i, j :: 0 <= i < |s| && 0 <= j < |s| && s[i].id == s[j].id ==> i == j
  }

  /** The number of alerts with a given status (the "Active Alerts" and "Resolved Today" cards). */
  function StatusCount(s: seq<Alert>, status: string): (n: nat)
    ensures n <= |s|
  {
    |Filter(s, (a: Alert) => a.status == status)|
  }

  /** The number of high-severity alerts (the "High Priority" card). */
  function HighCount(s: seq<Alert>): (n: nat)
    ensures n <= |s|
  {
    |Filter(s, (a: Alert) => a.severity == "high")|
  }

  /** The number of acknowledged alerts (the "Acknowledgments" card). */
  function AcknowledgedCount(s: seq<Alert>): (n: nat)
    ensures n <= |s|
  {
    |Filter(s, (a: Alert) => a.acknowledged)|
  }

  /** Each count is zero exactly when no alert qualifies, and the whole list exactly when every alert does. */
  lemma CountExtremes(s: seq<Alert>, status: string)
    ensures StatusCount(s, status) == 0 <==> forall i :: 0 <= i < |s| ==> s[i].status != status
    ensures StatusCount(s, status) == |s| <==> forall i :: 0 <= i < |s| ==> s[i].status == status
    ensures HighCount(s) == 0 <==> forall i :: 0 <= i < |s| ==> s[i].severity != "high"
    ensures HighCount(s) == |s| <==> forall i :: 0 <= i < |s| ==> s[i].severity == "high"
    ensures AcknowledgedCount(s) == 0 <==> forall i :: 0 <= i < |s| ==> !s[i].acknowledged
    ensures AcknowledgedCount(s) == |s| <==> forall i :: 0 <= i < |s| ==> s[i].acknowledged
  {
    FilterLength(s, (a: Alert) => a.status == status);
    FilterLength(s, (a: Alert) => a.severity == "high");
    FilterLength(s, (a: Alert) => a.acknowledged);
  }

  /** Resolving an id that no alert has changes nothing. */
  lemma {:induction false} ResolveAbsent(s: seq<Alert>, id: int)
    requires forall i :: 0 <= i < |s| ==> s[i].id != id
    ensures Resolve(s, id) == s
  {
  }

  /** With unique ids, resolving an active alert moves one alert from the active to the resolved count. */
  lemma {:induction false} ResolveActiveMovesCount(s: seq<Alert>, id: int)
    requires UniqueIds(s)
    requires exists i :: 0 <= i < |s| && s[i].id == id && s[i].status == "active"
    ensures StatusCount(Resolve(s, id), "resolved") == StatusCount(s, "resolved") + 1
    ensures StatusCount(Resolve(s, id), "active") == StatusCount(s, "active") - 1
  {
    var r := Resolve(s, id);
    assert r[1..] == Resolve(s[1..], id);
    if s[0].id == id {
      assert forall i :: 0 <= i < |s[1..]| ==> s[1..][i].id != id by {
        forall i | 0 <= i < |s[1..]| ensures s[1..][i].id != id {
          assert s[1..][i] == s[i + 1];
        }
      }
      ResolveAbsent(s[1..], id);
    } else {
      var i :| 0 <= i < |s| && s[i].id == id && s[i].status == "active";
      assert s[1..][i - 1] == s[i];
      assert UniqueIds(s[1..]) by {
        forall j, k | 0 <= j < |s[1..]| && 0 <= k < |s[1..]| && s[1..][j].id == s[1..][k].id
          ensures j == k
        {
          assert s[1..][j] == s[j + 1] && s[1..][k] == s[k + 1];
        }
      }
      ResolveActiveMovesCount(s[1..], id);
    }
  }

  /** Acknowledging never changes the status or severity counts. */
  lemma {:induction false} AcknowledgeKeepsCounts(s: seq<Alert>, id: int, status: string)
    ensures StatusCount(Acknowledge(s, id), status) == StatusCount(s, status)
    ensures HighCount(Acknowledge(s, id)) == HighCount(s)
  {
    if s != [] {
      var r := Acknowledge(s, id);
      assert r[1..] == Acknowledge(s[1..], id);
      AcknowledgeKeepsCounts(s[1..], id, status);
    }
  }

  /** Resolving never changes the acknowledged count. */
  lemma {:induction false} ResolveKeepsAcknowledgedCount(s: seq<Alert>, id: int)
    ensures AcknowledgedCount(Resolve(s, id)) == AcknowledgedCount(s)
  {
    if s != [] {
      var r := Resolve(s, id);
      assert r[1..] == Resolve(s[1..], id);
      ResolveKeepsAcknowledgedCount(s[1..], id);
    }
  }

  /** With unique ids, acknowledging an unacknowledged alert raises the acknowledged count by one. */
  lemma {:induction false} AcknowledgeNewRaisesCount(s: seq<Alert>, id: int)
    requires UniqueIds(s)
    requires exists i :: 0 <= i < |s| && s[i].id == id && !s[i].acknowledged
    ensures AcknowledgedCount(Acknowledge(s, id)) == AcknowledgedCount(s) + 1
  {
    var r := Acknowledge(s, id);
    assert r[1..] == Acknowledge(s[1..], id);
    if s[0].id == id {
      assert forall i :: 0 <= i < |s[1..]| ==> s[1..][i].id != id by {
        forall i | 0 <= i < |s[1..]| ensures s[1..][i].id != id {
          assert s[1..][i] == s[i + 1];
        }
      }
      assert Acknowledge(s[1..], id) == s[1..];
    } else {
      var i :| 0 <= i < |s| && s[i].id == id && !s[i].acknowledged;
      assert s[1..][i - 1] == s[i];
      assert UniqueIds(s[1..]) by {
        forall j, k | 0 <= j < |s[1..]| && 0 <= k < |s[1..]| && s[1..][j].id == s[1..][k].id
          ensures j == k
        {
          assert s[1..][j] == s[j + 1] && s[1..][k] == s[k + 1];
        }
      }
      AcknowledgeNewRaisesCount(s[1..], id);
    }
  }

  /** The page's alert list and notification preferences. */
  class AlertBoard {
    var alerts: seq<Alert>
    var preferences: map<string, bool>

    constructor ()
      ensures alerts == AlertsData && preferences == NotificationPreferences
    {
      alerts := AlertsData;
      preferences := NotificationPreferences;
    }

    /** `acknowledgeAlert(id)`. */
    method AcknowledgeAlert(id: int)
      modifies this
      ensures alerts == Acknowledge(old(alerts), id)
      ensures preferences == old(preferences)
    {
      alerts := Acknowledge(alerts, id);
    }

    /** `resolveAlert(id)`. */
    method ResolveAlert(id: int)
      modifies this
      ensures alerts == Resolve(old(alerts), id)
      ensures preferences == old(preferences)
    {
      alerts := Resolve(alerts, id);
    }

    /** `updatePreference(key, value)`: the key is set (or added) and every other preference kept. */
    method UpdatePreference(key: string, value: bool)
      modifies this
      ensures key in preferences && preferences[key] == value
      ensures preferences.Keys == old(preferences).Keys + {key}
      ensures forall k :: k in old(preferences) && k != key ==> preferences[k] == old(preferences)[k]
      ensures alerts == old(alerts)
    {
      preferences := preferences[key := value];
    }
  }
}
