/** The audit-log page: a text search and an exact action filter over the log, a badge per action, a count label. */
module AuditLogs {
  import opened Text
  import opened Lists
  import opened Badges

  datatype AuditLog = AuditLog(
    id: string, timestamp: string, user: string, action: string,
    resourceType: string, description: string, ipAddress: string)

  /** `getActionColor`: the badge for an action; unknown actions get the outline badge. */
  function ActionColor(action: string): (v: Variant)
    ensures action == "CREATE" || action == "DEPLOY" ==> v == Default
    ensures action == "UPDATE" ==> v == Secondary
    ensures action == "DELETE" ==> v == Destructive
    ensures action == "ACKNOWLEDGE" ==> v == Outline
    ensures action !in {"CREATE", "UPDATE", "DELETE", "ACKNOWLEDGE", "DEPLOY"} ==> v == Outline
  {
    if action == "CREATE" then Default
    else if action == "UPDATE" then Secondary
    else if action == "DELETE" then Destructive
    else if action == "ACKNOWLEDGE" then Outline
    else if action == "DEPLOY" then Default
    else Outline
  }

  /** The search box: the lower-cased term occurs in the lower-cased description or user. */
  predicate MatchesSearch(log: AuditLog, term: string)
  {
    Contains(Lower(log.description), Lower(term)) || Contains(Lower(log.user), Lower(term))
  }

  /** The action filter: "all", or exactly the action. */
  predicate MatchesAction(log: AuditLog, filterAction: string)
  {
    filterAction == "all" || log.action == filterAction
  }

  /** `filteredLogs`: the logs matching both the search and the action filter, in their order. */
  function FilteredLogs(logs: seq<AuditLog>, term: string, filterAction: string): (r: seq<AuditLog>)
    ensures IsSubsequence(r, logs)
    ensures forall l :: l in r <==> l in logs && MatchesSearch(l, term) && MatchesAction(l, filterAction)
    ensures forall l :: l in r && filterAction != "all" ==> l.action == filterAction
    ensures forall l :: multiset(r)[l] == if MatchesSearch(l, term) && MatchesAction(l, filterAction) then multiset(logs)[l] else 0
  {
    var p := (l: AuditLog) => MatchesSearch(l, term) && MatchesAction(l, filterAction);
    forall l: AuditLog
      ensures l in Filter(logs, p) <==> l in logs && p(l)
      ensures multiset(Filter(logs, p))[l] == if p(l) then multiset(logs)[l] else 0
    {
      FilterMembers(logs, p, l);
      FilterCount(logs, p, l);
    }
    Filter(logs, p)
  }

  /** With an empty search and the "all" filter every log is shown. */
  lemma ShowAllKeepsEverything(logs: seq<AuditLog>)
    ensures FilteredLogs(logs, "", "all") == logs
  {
    var p := (l: AuditLog) => MatchesSearch(l, "") && MatchesAction(l, "all");
    forall i | 0 <= i < |logs| ensures p(logs[i]) {
      ContainsEmpty(Lower(logs[i].description));
    }
    FilterKeepsAll(logs, p);
  }

  /** The search ignores the case of the term. */
  lemma SearchIgnoresTermCase(logs: seq<AuditLog>, term: string, filterAction: string)
    ensures FilteredLogs(logs, term, filterAction) == FilteredLogs(logs, Lower(term), filterAction)
  {
    LowerIdempotent(term);
    FilterCongruent(logs,
      (l: AuditLog) => MatchesSearch(l, term) && MatchesAction(l, filterAction),
      (l: AuditLog) => MatchesSearch(l, Lower(term)) && MatchesAction(l, filterAction));
  }

  /** The noun after the count: singular for exactly one entry. */
  function EntryLabel(n: nat): (s: string)
    ensures s == "entry" <==> n == 1
    ensures s == "entries" <==> n != 1
  {
    if n == 1 then "entry" else "entries"
  }
}
