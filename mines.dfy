/** The mines page: a text search over mines, two badge lookups and the staff and sector totals. */
module Mines {
  import opened Text
  import opened Lists
  import opened Badges

  datatype Mine = Mine(
    id: int, name: string, location: string, coordinates: string, status: string,
    sectors: int, staff: int, riskLevel: string, lastInspection: string)

  /** The search box: the lower-cased term occurs in the lower-cased name or location. */
  predicate MatchesSearch(m: Mine, term: string)
  {
    Contains(Lower(m.name), Lower(term)) || Contains(Lower(m.location), Lower(term))
  }

  /** `filteredMines`: the mines matching the search, in their order. */
  function FilteredMines(mines: seq<Mine>, term: string): (r: seq<Mine>)
    ensures IsSubsequence(r, mines)
    ensures forall m :: m in r <==> m in mines && MatchesSearch(m, term)
    ensures forall m :: multiset(r)[m] == if MatchesSearch(m, term) then multiset(mines)[m] else 0
  {
    var p := (m: Mine) => MatchesSearch(m, term);
    forall m: Mine
      ensures m in Filter(mines, p) <==> m in mines && p(m)
      ensures multiset(Filter(mines, p))[m] == if p(m) then multiset(mines)[m] else 0
    {
      FilterMembers(mines, p, m);
      FilterCount(mines, p, m);
    }
    Filter(mines, p)
  }

  /** An empty search shows every mine. */
  lemma EmptySearchKeepsEverything(mines: seq<Mine>)
    ensures FilteredMines(mines, "") == mines
  {
    var p := (m: Mine) => MatchesSearch(m, "");
    forall i | 0 <= i < |mines| ensures p(mines[i]) {
      ContainsEmpty(Lower(mines[i].name));
    }
    FilterKeepsAll(mines, p);
  }

  /** The search ignores the case of the term. */
  lemma SearchIgnoresTermCase(mines: seq<Mine>, term: string)
    ensures FilteredMines(mines, term) == FilteredMines(mines, Lower(term))
  {
    LowerIdempotent(term);
    FilterCongruent(mines, (m: Mine) => MatchesSearch(m, term), (m: Mine) => MatchesSearch(m, Lower(term)));
  }

  /** `getRiskBadgeVariant`: looked up after lower-casing. */
  function RiskBadge(risk: string): (v: Variant)
    ensures v == Safe <==> Lower(risk) == "low"
    ensures v == Caution <==> Lower(risk) == "medium"
    ensures v == Danger <==> Lower(risk) == "high"
    ensures v == Default <==> Lower(risk) !in {"low", "medium", "high"}
  {
    var r := Lower(risk);
    if r == "low" then Safe else if r == "medium" then Caution else if r == "high" then Danger else Default
  }

  /** `getStatusBadgeVariant`: looked up after lower-casing. */
  function StatusBadge(status: string): (v: Variant)
    ensures v == Safe <==> Lower(status) == "active"
    ensures v == Caution <==> Lower(status) == "maintenance"
    ensures v == Danger <==> Lower(status) == "inactive"
    ensures v == Default <==> Lower(status) !in {"active", "maintenance", "inactive"}
  {
    var s := Lower(status);
    if s == "active" then Safe else if s == "maintenance" then Caution else if s == "inactive" then Danger else Default
  }

  /** Both badges ignore the case of their argument. */
  lemma BadgesIgnoreCase(s: string)
    ensures RiskBadge(s) == RiskBadge(Lower(s))
    ensures StatusBadge(s) == StatusBadge(Lower(s))
  {
  }

  /** The "Total Staff" card: `mines.reduce((acc, mine) => acc + mine.staff, 0)`. */
  function TotalStaff(mines: seq<Mine>): (t: int)
    ensures t == Sum(mines, (m: Mine) => m.staff)
  {
    Reduce(mines, 0, (m: Mine) => m.staff)
  }

  /** The "Total Sectors" card: `mines.reduce((acc, mine) => acc + mine.sectors, 0)`. */
  function TotalSectors(mines: seq<Mine>): (t: int)
    ensures t == Sum(mines, (m: Mine) => m.sectors)
  {
    Reduce(mines, 0, (m: Mine) => m.sectors)
  }

  /** Adding a mine to the list raises each total by that mine's figure. */
  lemma TotalsOfAppend(mines: seq<Mine>, m: Mine)
    ensures TotalStaff(mines + [m]) == TotalStaff(mines) + m.staff
    ensures TotalSectors(mines + [m]) == TotalSectors(mines) + m.sectors
  {
    SumAppend(mines, [m], (x: Mine) => x.staff);
    SumAppend(mines, [m], (x: Mine) => x.sectors);
  }

  /** With non-negative staff figures no single mine has more staff than the total. */
  lemma StaffTotalBoundsEachMine(mines: seq<Mine>, i: int)
    requires forall k :: 0 <= k < |mines| ==> mines[k].staff >= 0
    requires 0 <= i < |mines|
    ensures 0 <= mines[i].staff <= TotalStaff(mines)
  {
    SumBounds(mines, (m: Mine) => m.staff, i);
  }
}
