/**
 * The risk map's point filter: a risk level and four optional inclusive
 * bounds on rainfall and slope, kept as a record of input strings; the
 * marker colour for a risk; and the updates of the filter record.
 */
module RiskMap {
  import opened Wrappers
  import opened Lists

  datatype RiskPoint = RiskPoint(
    id: int, lat: real, lng: real, risk: string, sector: string, rainfall: real, slope: real)

  /** The fields of the filter record that the inputs edit. */
  datatype FilterKey = DateFrom | DateTo | RiskLevel | RainfallMin | RainfallMax | SlopeMin | SlopeMax | BlastStage

  /** The filter record; every field holds what its input holds, as text. */
  datatype Filters = Filters(
    dateFrom: string, dateTo: string, riskLevel: string,
    rainfallMin: string, rainfallMax: string, slopeMin: string, slopeMax: string,
    blastStage: string)
  {
    function Get(k: FilterKey): string
    {
      match k
      case DateFrom => dateFrom
      case DateTo => dateTo
      case RiskLevel => riskLevel
      case RainfallMin => rainfallMin
      case RainfallMax => rainfallMax
      case SlopeMin => slopeMin
      case SlopeMax => slopeMax
      case BlastStage => blastStage
    }

    /** `{ ...prev, [k]: v }`: field `k` becomes `v`, every other field is kept. */
    function Set(k: FilterKey, v: string): (g: Filters)
      ensures g.Get(k) == v
      ensures forall k' :: k' != k ==> g.Get(k') == Get(k')
    {
      match k
      case DateFrom => this.(dateFrom := v)
      case DateTo => this.(dateTo := v)
      case RiskLevel => this.(riskLevel := v)
      case RainfallMin => this.(rainfallMin := v)
      case RainfallMax => this.(rainfallMax := v)
      case SlopeMin => this.(slopeMin := v)
      case SlopeMax => this.(slopeMax := v)
      case BlastStage => this.(blastStage := v)
    }
  }

  /** Two filter records with the same fields are the same record. */
  lemma FiltersExtensional(f: Filters, g: Filters)
    requires forall k :: f.Get(k) == g.Get(k)
    ensures f == g
  {
    assert f.Get(DateFrom) == g.Get(DateFrom) && f.Get(DateTo) == g.Get(DateTo);
    assert f.Get(RiskLevel) == g.Get(RiskLevel) && f.Get(BlastStage) == g.Get(BlastStage);
    assert f.Get(RainfallMin) == g.Get(RainfallMin) && f.Get(RainfallMax) == g.Get(RainfallMax);
    assert f.Get(SlopeMin) == g.Get(SlopeMin) && f.Get(SlopeMax) == g.Get(SlopeMax);
  }

  /** The record the page starts with and `resetFilters` restores. */
  function InitialFilters(): (f: Filters)
    ensures f.Get(RiskLevel) == "all" && f.Get(BlastStage) == "all"
    ensures forall k :: k != RiskLevel && k != BlastStage ==> f.Get(k) == ""
  {
    Filters("", "", "all", "", "", "", "", "all")
  }

  /**
   * `parse` stands for `parseFloat`; `None` is its NaN. A bound excludes a
   * point only when its text is non-empty and parses to a number; a
   * comparison with NaN is false, so an unparsable bound excludes nothing.
   */
  predicate BelowMin(x: real, bound: string, parse: string -> Option<real>)
  {
    bound != "" && parse(bound).Some? && x < parse(bound).value
  }

  predicate AboveMax(x: real, bound: string, parse: string -> Option<real>)
  {
    bound != "" && parse(bound).Some? && x > parse(bound).value
  }

  /** The filter callback in `updateMarkers`: each early `return false` is one conjunct here. */
  function Keep(p: RiskPoint, f: Filters, parse: string -> Option<real>): (b: bool)
    ensures b <==>
      && (f.riskLevel == "all" || p.risk == f.riskLevel)
      && AtLeast(p.rainfall, f.rainfallMin, parse) && AtMost(p.rainfall, f.rainfallMax, parse)
      && AtLeast(p.slope, f.slopeMin, parse) && AtMost(p.slope, f.slopeMax, parse)
  {
    && !(f.riskLevel != "all" && p.risk != f.riskLevel)
    && !BelowMin(p.rainfall, f.rainfallMin, parse)
    && !AboveMax(p.rainfall, f.rainfallMax, parse)
    && !BelowMin(p.slope, f.slopeMin, parse)
    && !AboveMax(p.slope, f.slopeMax, parse)
  }

  /** The points the map draws for a filter record. */
  function FilteredPoints(points: seq<RiskPoint>, f: Filters, parse: string -> Option<real>): (r: seq<RiskPoint>)
    ensures IsSubsequence(r, points)
    ensures forall p :: p in r <==> p in points && Keep(p, f, parse)
    ensures forall p :: multiset(r)[p] == if Keep(p, f, parse) then multiset(points)[p] else 0
  {
    var keep := (p: RiskPoint) => Keep(p, f, parse);
    forall p: RiskPoint
      ensures p in Filter(points, keep) <==> p in points && keep(p)
      ensures multiset(Filter(points, keep))[p] == if keep(p) then multiset(points)[p] else 0
    {
      FilterMembers(points, keep, p);
      FilterCount(points, keep, p);
    }
    Filter(points, keep)
  }

  /** A point lies within a bound given as text: an empty or unparsable bound holds of everything. */
  predicate AtLeast(x: real, bound: string, parse: string -> Option<real>)
  {
    bound == "" || parse(bound).None? || parse(bound).value <= x
  }

  predicate AtMost(x: real, bound: string, parse: string -> Option<real>)
  {
    bound == "" || parse(bound).None? || x <= parse(bound).value
  }

  /**
   * A point is drawn exactly when it matches the risk level (unless "all")
   * and lies within every given bound, the bounds themselves included.
   */
  lemma KeptIffWithinBounds(points: seq<RiskPoint>, f: Filters, parse: string -> Option<real>, p: RiskPoint)
    requires p in points
    ensures p in FilteredPoints(points, f, parse) <==>
      && (f.riskLevel == "all" || p.risk == f.riskLevel)
      && AtLeast(p.rainfall, f.rainfallMin, parse) && AtMost(p.rainfall, f.rainfallMax, parse)
      && AtLeast(p.slope, f.slopeMin, parse) && AtMost(p.slope, f.slopeMax, parse)
  {
  }

  /** The start (and reset) record draws every point, whatever `parseFloat` does. */
  lemma InitialFiltersKeepAll(points: seq<RiskPoint>, parse: string -> Option<real>)
    ensures FilteredPoints(points, InitialFilters(), parse) == points
  {
    FilterKeepsAll(points, (p: RiskPoint) => Keep(p, InitialFilters(), parse));
  }

  /** The dates and the blast stage take no part in which points are drawn. */
  lemma DatesAndBlastStageIgnored(points: seq<RiskPoint>, f: Filters, parse: string -> Option<real>,
                                  dateFrom: string, dateTo: string, blastStage: string)
    ensures FilteredPoints(points, f.(dateFrom := dateFrom, dateTo := dateTo, blastStage := blastStage), parse)
         == FilteredPoints(points, f, parse)
  {
    var g := f.(dateFrom := dateFrom, dateTo := dateTo, blastStage := blastStage);
    FilterCongruent(points, (p: RiskPoint) => Keep(p, g, parse), (p: RiskPoint) => Keep(p, f, parse));
  }

  /** A bound that `parseFloat` reads as NaN excludes nothing: it acts like an empty bound. */
  lemma UnparsableBoundIgnored(points: seq<RiskPoint>, f: Filters, parse: string -> Option<real>, k: FilterKey)
    requires k == RainfallMin || k == RainfallMax || k == SlopeMin || k == SlopeMax
    requires parse(f.Get(k)).None?
    ensures FilteredPoints(points, f, parse) == FilteredPoints(points, f.Set(k, ""), parse)
  {
    var g := f.Set(k, "");
    assert g.riskLevel == f.Get(RiskLevel) == f.riskLevel;
    assert g.rainfallMin == g.Get(RainfallMin) && f.rainfallMin == f.Get(RainfallMin);
    assert g.rainfallMax == g.Get(RainfallMax) && f.rainfallMax == f.Get(RainfallMax);
    assert g.slopeMin == g.Get(SlopeMin) && f.slopeMin == f.Get(SlopeMin);
    assert g.slopeMax == g.Get(SlopeMax) && f.slopeMax == f.Get(SlopeMax);
    FilterCongruent(points, (p: RiskPoint) => Keep(p, f, parse), (p: RiskPoint) => Keep(p, g, parse));
  }

  /** The marker fill colour: red for "high", amber for "medium", green for every other risk. */
  function MarkerColour(risk: string): (c: string)
    ensures risk == "high" ==> c == "#ef4444"
    ensures risk == "medium" ==> c == "#f59e0b"
    ensures risk != "high" && risk != "medium" ==> c == "#22c55e"
  {
    if risk == "high" then "#ef4444" else if risk == "medium" then "#f59e0b" else "#22c55e"
  }

  /** The schema's "critical" risk level falls to the last branch and is drawn green, like "low". */
  lemma CriticalDrawnLikeLow()
    ensures MarkerColour("critical") == MarkerColour("low") == "#22c55e"
  {
  }

  /** The filter record the page keeps as state. */
  class MapFilters {
    var filters: Filters

    constructor ()
      ensures filters == InitialFilters()
    {
      filters := InitialFilters();
    }

    /** `handleFilterChange(key, value)`: only field `key` changes. */
    method HandleFilterChange(key: FilterKey, value: string)
      modifies this
      ensures filters.Get(key) == value
      ensures forall k :: k != key ==> filters.Get(k) == old(filters).Get(k)
    {
      filters := filters.Set(key, value);
    }

    /** `resetFilters`: exactly the start record again. */
    method ResetFilters()
      modifies this
      ensures filters == InitialFilters()
    {
      filters := InitialFilters();
    }
  }
}
