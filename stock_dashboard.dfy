/**
 * The stock dashboard's list logic: per-centre statistics over the fetched stocks, the
 * search filter, the sort by name, alerts, configured types or total stock in either
 * order, the six-per-page pagination with its five-button page window, and the
 * dashboard state that `handleSort`, `fetchStock` and the page buttons update.
 */
module StockDashboard {
  import opened Wrappers
  import opened Strings
  import Sorting

  /** A stock as `getStock` returns it, quantities already converted to numbers. */
  datatype Stock = Stock(currentQuantity: nat, criticalThreshold: nat)

  datatype Stats = Stats(configured: nat, alerts: nat, totalStock: nat)

  datatype Pagination = Pagination(centers: seq<string>, totalPages: nat, totalCenters: nat)

  /**
   * The fetched stocks, keyed by centre and vaccine type; `None` is the null that
   * `getStock` returns for an unconfigured pair or a failed read.
   */
  type StockData = map<(string, string), Option<Stock>>

  const CentersPerPage: nat := 6
  const WindowSize: nat := 5

  // ---------------------------------------------------------------- keys

  /** The key the dashboard writes its stocks under, `${centerId}_${vaccineType}`. */
  function StockKey(center: string, vaccineType: string): (key: string)
    ensures key == center + "_" + vaccineType
    ensures StartsWith(key, center)
  {
    center + "_" + vaccineType
  }

  /** Two different (centre, type) pairs share a key, so one pair's stock shows for the other. */
  lemma StockKeyCollides()
    ensures ("A_B", "C") != ("A", "B_C") && StockKey("A_B", "C") == StockKey("A", "B_C")
  {
    assert StockKey("A_B", "C") == "A_B_C";
    assert StockKey("A", "B_C") == "A_B_C";
  }

  /** Keyed by the pair itself, a stock written for one pair never changes another's. */
  lemma PairKeysIsolate(data: StockData, center: string, vaccineType: string, stock: Option<Stock>,
                        otherCenter: string, otherType: string)
    requires (otherCenter, otherType) != (center, vaccineType)
    ensures var updated := data[(center, vaccineType) := stock];
      (otherCenter, otherType) in updated <==> (otherCenter, otherType) in data
    ensures (otherCenter, otherType) in data ==>
      data[(center, vaccineType) := stock][(otherCenter, otherType)] == data[(otherCenter, otherType)]
  {
  }

  // ---------------------------------------------------------------- statistics

  /** The non-null stocks of a centre, in the order of the vaccine types. */
  function ConfiguredStocks(data: StockData, center: string, types: seq<string>): (r: seq<Stock>)
    ensures |r| <= |types|
    ensures |r| == |types| <==> forall i :: 0 <= i < |types| ==> IsConfigured(data, center, types[i])
  {
    if |types| == 0 then []
    else
      var rest := ConfiguredStocks(data, center, types[1..]);
      assert forall i :: 1 <= i < |types| ==> types[i] == types[1..][i - 1];
      if IsConfigured(data, center, types[0]) then [data[(center, types[0])].value] + rest else rest
  }

  predicate IsConfigured(data: StockData, center: string, vaccineType: string) {
    (center, vaccineType) in data && data[(center, vaccineType)].Some?
  }

  predicate Low(s: Stock) {
    s.currentQuantity <= s.criticalThreshold
  }

  function CountLow(stocks: seq<Stock>): (n: nat)
    ensures n <= |stocks|
  {
    if |stocks| == 0 then 0 else (if Low(stocks[0]) then 1 else 0) + CountLow(stocks[1..])
  }

  function SumQuantities(stocks: seq<Stock>): nat {
    if |stocks| == 0 then 0 else stocks[0].currentQuantity + SumQuantities(stocks[1..])
  }

  /** `getCenterStats` */
  function CenterStats(data: StockData, center: string, types: seq<string>): (s: Stats)
    ensures s.alerts <= s.configured <= |types|
    ensures s.configured == |types| <==> forall i :: 0 <= i < |types| ==> IsConfigured(data, center, types[i])
    ensures s.configured == 0 ==> s.totalStock == 0
  {
    var stocks := ConfiguredStocks(data, center, types);
    Stats(|stocks|, CountLow(stocks), SumQuantities(stocks))
  }

  /** The cell's highlight: a stock exists and is at or below its threshold. */
  function IsCritical(stock: Option<Stock>): (critical: bool)
    ensures critical <==> stock.Some? && stock.value.currentQuantity <= stock.value.criticalThreshold
    ensures stock.Some? && stock.value.currentQuantity == 0 ==> critical
  {
    stock.Some? && Low(stock.value)
  }

  /** The 'Retirer 1' button is disabled while loading or at quantity 0. */
  function RemoveDisabled(loading: bool, stock: Stock): (disabled: bool)
    ensures !loading ==> (disabled <==> stock.currentQuantity == 0)
    ensures loading ==> disabled
  {
    loading || stock.currentQuantity == 0
  }

  function Lookup(data: StockData, center: string, vaccineType: string): Option<Stock> {
    if (center, vaccineType) in data then data[(center, vaccineType)] else None
  }

  /** The number of highlighted cells of a centre's card. */
  function CriticalCells(data: StockData, center: string, types: seq<string>): nat {
    if |types| == 0 then 0
    else (if IsCritical(Lookup(data, center, types[0])) then 1 else 0) + CriticalCells(data, center, types[1..])
  }

  /** The alert count of the statistics is the number of highlighted cells. */
  lemma {:induction false} AlertsAreCriticalCells(data: StockData, center: string, types: seq<string>)
    ensures CenterStats(data, center, types).alerts == CriticalCells(data, center, types)
  {
    if |types| > 0 {
      AlertsAreCriticalCells(data, center, types[1..]);
      var rest := ConfiguredStocks(data, center, types[1..]);
      if IsConfigured(data, center, types[0]) {
        var stocks := [data[(center, types[0])].value] + rest;
        assert stocks[1..] == rest;
      }
    }
  }

  /** `vaccineTypes.map(type => stockData[key])`: the centre's cells, one per type. */
  function Cells(data: StockData, center: string, types: seq<string>): (cells: seq<Option<Stock>>)
    ensures |cells| == |types|
    ensures forall i :: 0 <= i < |types| ==> cells[i] == Lookup(data, center, types[i])
  {
    seq(|types|, i requires 0 <= i < |types| => Lookup(data, center, types[i]))
  }

  /** `.filter(Boolean)`: the stocks of the non-null cells, in order. */
  function Present(cells: seq<Option<Stock>>): (r: seq<Stock>)
    ensures |r| <= |cells|
  {
    if |cells| == 0 then []
    else (if cells[0].Some? then [cells[0].value] else []) + Present(cells[1..])
  }

  /** The configured stocks are the cells of the types with `null` filtered out. */
  lemma {:induction false} ConfiguredStocksArePresentCells(data: StockData, center: string, types: seq<string>)
    ensures ConfiguredStocks(data, center, types) == Present(Cells(data, center, types))
  {
    if |types| > 0 {
      ConfiguredStocksArePresentCells(data, center, types[1..]);
      assert Cells(data, center, types)[1..] == Cells(data, center, types[1..]);
    }
  }

  /** A stock is among the configured ones iff some type's cell holds it. */
  lemma {:induction false} ConfiguredStocksMembers(data: StockData, center: string, types: seq<string>)
    ensures forall st :: st in ConfiguredStocks(data, center, types) <==>
      exists i :: 0 <= i < |types| && Lookup(data, center, types[i]) == Some(st)
  {
    if |types| > 0 {
      ConfiguredStocksMembers(data, center, types[1..]);
      forall st | (exists i :: 0 <= i < |types| && Lookup(data, center, types[i]) == Some(st))
        ensures st in ConfiguredStocks(data, center, types)
      {
        var i :| 0 <= i < |types| && Lookup(data, center, types[i]) == Some(st);
        if i > 0 {
          assert types[1..][i - 1] == types[i];
        }
      }
    }
  }

  lemma {:induction false} ConfiguredAppend(data: StockData, center: string, a: seq<string>, b: seq<string>)
    ensures ConfiguredStocks(data, center, a + b) == ConfiguredStocks(data, center, a) + ConfiguredStocks(data, center, b)
  {
    if |a| == 0 {
      assert a + b == b;
    } else {
      assert (a + b)[1..] == a[1..] + b;
      ConfiguredAppend(data, center, a[1..], b);
    }
  }

  lemma {:induction false} CriticalCellsAppend(data: StockData, center: string, a: seq<string>, b: seq<string>)
    ensures CriticalCells(data, center, a + b) == CriticalCells(data, center, a) + CriticalCells(data, center, b)
  {
    if |a| == 0 {
      assert a + b == b;
    } else {
      assert (a + b)[1..] == a[1..] + b;
      CriticalCellsAppend(data, center, a[1..], b);
    }
  }

  /** Over the first `k` types: the configured count is the number of configured types. */
  lemma {:induction false} ConfiguredCountPrefix(data: StockData, center: string, types: seq<string>, k: nat)
    requires k <= |types|
    ensures |ConfiguredStocks(data, center, types[..k])| == |set i | 0 <= i < k && IsConfigured(data, center, types[i])|
  {
    var now := set i | 0 <= i < k && IsConfigured(data, center, types[i]);
    if k == 0 {
      assert now == {};
    } else {
      ConfiguredCountPrefix(data, center, types, k - 1);
      var before := set i | 0 <= i < k - 1 && IsConfigured(data, center, types[i]);
      assert types[..k] == types[..k - 1] + [types[k - 1]];
      ConfiguredAppend(data, center, types[..k - 1], [types[k - 1]]);
      assert [types[k - 1]][1..] == [];
      if IsConfigured(data, center, types[k - 1]) {
        assert now == before + {k - 1};
      } else {
        assert now == before;
      }
    }
  }

  /** Over the first `k` types: the highlighted cells are the types whose cell is critical. */
  lemma {:induction false} CriticalCountPrefix(data: StockData, center: string, types: seq<string>, k: nat)
    requires k <= |types|
    ensures CriticalCells(data, center, types[..k]) == |set i | 0 <= i < k && IsCritical(Lookup(data, center, types[i]))|
  {
    var now := set i | 0 <= i < k && IsCritical(Lookup(data, center, types[i]));
    if k == 0 {
      assert now == {};
    } else {
      CriticalCountPrefix(data, center, types, k - 1);
      var before := set i | 0 <= i < k - 1 && IsCritical(Lookup(data, center, types[i]));
      assert types[..k] == types[..k - 1] + [types[k - 1]];
      CriticalCellsAppend(data, center, types[..k - 1], [types[k - 1]]);
      assert [types[k - 1]][1..] == [];
      if IsCritical(Lookup(data, center, types[k - 1])) {
        assert now == before + {k - 1};
      } else {
        assert now == before;
      }
    }
  }

  /** A cell's quantity, 0 for a type without stock. */
  function CellQuantity(cell: Option<Stock>): nat {
    if cell.Some? then cell.value.currentQuantity else 0
  }

  /** The quantities of every cell of a centre's card, nulls counting 0. */
  function CellsQuantity(data: StockData, center: string, types: seq<string>): nat {
    if |types| == 0 then 0
    else CellQuantity(Lookup(data, center, types[0])) + CellsQuantity(data, center, types[1..])
  }

  lemma {:induction false} TotalStockIsCellsQuantity(data: StockData, center: string, types: seq<string>)
    ensures SumQuantities(ConfiguredStocks(data, center, types)) == CellsQuantity(data, center, types)
  {
    if |types| > 0 {
      TotalStockIsCellsQuantity(data, center, types[1..]);
      var rest := ConfiguredStocks(data, center, types[1..]);
      if IsConfigured(data, center, types[0]) {
        assert ([data[(center, types[0])].value] + rest)[1..] == rest;
      }
    }
  }

  /**
   * `getCenterStats` for any stock data: the number of configured types, the number of
   * highlighted cells, and the sum of every cell's quantity.
   */
  lemma CenterStatsCounts(data: StockData, center: string, types: seq<string>)
    ensures CenterStats(data, center, types).configured == |set i | 0 <= i < |types| && IsConfigured(data, center, types[i])|
    ensures CenterStats(data, center, types).alerts == |set i | 0 <= i < |types| && IsCritical(Lookup(data, center, types[i]))|
    ensures CenterStats(data, center, types).totalStock == CellsQuantity(data, center, types)
  {
    assert types[..|types|] == types;
    ConfiguredCountPrefix(data, center, types, |types|);
    CriticalCountPrefix(data, center, types, |types|);
    AlertsAreCriticalCells(data, center, types);
    TotalStockIsCellsQuantity(data, center, types);
  }

  /** `alerts` counts the low stocks among the configured ones. */
  lemma {:induction false} CountLowCountsLow(stocks: seq<Stock>)
    ensures CountLow(stocks) == |set i | 0 <= i < |stocks| && Low(stocks[i])|
  {
    CountLowPrefix(stocks, |stocks|);
    assert stocks[..|stocks|] == stocks;
  }

  lemma {:induction false} CountLowAppend(a: seq<Stock>, b: seq<Stock>)
    ensures CountLow(a + b) == CountLow(a) + CountLow(b)
  {
    if |a| == 0 {
      assert a + b == b;
    } else {
      assert (a + b)[1..] == a[1..] + b;
      CountLowAppend(a[1..], b);
    }
  }

  lemma {:induction false} CountLowPrefix(stocks: seq<Stock>, k: nat)
    requires k <= |stocks|
    ensures CountLow(stocks[..k]) == |set i | 0 <= i < k && Low(stocks[i])|
  {
    var now := set i | 0 <= i < k && Low(stocks[i]);
    if k == 0 {
      assert now == {};
    } else {
      CountLowPrefix(stocks, k - 1);
      var before := set i | 0 <= i < k - 1 && Low(stocks[i]);
      assert stocks[..k] == stocks[..k - 1] + [stocks[k - 1]];
      CountLowAppend(stocks[..k - 1], [stocks[k - 1]]);
      assert [stocks[k - 1]][1..] == [];
      if Low(stocks[k - 1]) {
        assert now == before + {k - 1};
      } else {
        assert now == before;
      }
    }
  }

  // ---------------------------------------------------------------- filter

  /** The lower-cased search term occurs in the lower-cased centre id. */
  predicate CenterMatches(center: string, term: string) {
    Contains(ToLower(center), ToLower(term))
  }

  function FilterCenters(centers: seq<string>, term: string): (r: seq<string>)
    ensures forall c :: c in r <==> c in centers && CenterMatches(c, term)
    ensures |r| <= |centers|
  {
    if |centers| == 0 then []
    else
      assert centers == [centers[0]] + centers[1..];
      (if CenterMatches(centers[0], term) then [centers[0]] else []) + FilterCenters(centers[1..], term)
  }

  /** An empty search keeps every centre, in order. */
  lemma {:induction false} EmptySearchKeepsAll(centers: seq<string>)
    ensures FilterCenters(centers, "") == centers
  {
    if |centers| > 0 {
      assert ToLower("") == "";
      assert StartsWith(ToLower(centers[0]), "");
      EmptySearchKeepsAll(centers[1..]);
    }
  }

  // ---------------------------------------------------------------- sort

  /** The ascending comparison for a sort key; an unknown key compares everything equal. */
  function Comparison(data: StockData, types: seq<string>, sortBy: string, a: string, b: string): int {
    var sa := CenterStats(data, a, types);
    var sb := CenterStats(data, b, types);
    if sortBy == "name" then CompareStrings(a, b)
    else if sortBy == "alerts" then sa.alerts - sb.alerts
    else if sortBy == "configured" then sa.configured - sb.configured
    else if sortBy == "stock" then sa.totalStock - sb.totalStock
    else 0
  }

  /** The comparator handed to `sort`: the comparison, negated unless the order is 'asc'. */
  function CenterOrder(data: StockData, types: seq<string>, sortBy: string, sortOrder: string): (string, string) -> int {
    (a, b) => if sortOrder == "asc" then Comparison(data, types, sortBy, a, b) else -Comparison(data, types, sortBy, a, b)
  }

  /** 'desc' orders exactly the other way round from 'asc'. */
  lemma DescReversesAsc(data: StockData, types: seq<string>, sortBy: string, a: string, b: string)
    ensures CenterOrder(data, types, sortBy, "desc")(a, b) == -CenterOrder(data, types, sortBy, "asc")(a, b)
    ensures CenterOrder(data, types, sortBy, "desc")(a, b) < 0 <==> CenterOrder(data, types, sortBy, "asc")(b, a) < 0
  {
    CompareAntisymmetric(a, b);
  }

  lemma ComparisonConsistent(data: StockData, types: seq<string>, sortBy: string)
    ensures Sorting.Consistent((a, b) => Comparison(data, types, sortBy, a, b))
  {
    var cmp := (a, b) => Comparison(data, types, sortBy, a, b);
    forall a, b ensures cmp(a, b) < 0 <==> cmp(b, a) > 0 {
      CompareAntisymmetric(a, b);
    }
    forall a, b, c | cmp(a, b) <= 0 && cmp(b, c) <= 0 ensures cmp(a, c) <= 0 {
      if sortBy == "name" {
        CompareTransitive(a, b, c);
      }
    }
  }

  lemma CenterOrderConsistent(data: StockData, types: seq<string>, sortBy: string, sortOrder: string)
    ensures Sorting.Consistent(CenterOrder(data, types, sortBy, sortOrder))
  {
    var cmp := (a, b) => Comparison(data, types, sortBy, a, b);
    ComparisonConsistent(data, types, sortBy);
    Sorting.NegatedConsistent(cmp);
    var ord := CenterOrder(data, types, sortBy, sortOrder);
    if sortOrder == "asc" {
      assert forall a, b :: ord(a, b) == cmp(a, b);
    } else {
      assert forall a, b :: ord(a, b) == -cmp(a, b);
    }
  }

  /** `getFilteredAndSortedCenters` */
  function FilteredAndSorted(centers: seq<string>, term: string, data: StockData, types: seq<string>,
                             sortBy: string, sortOrder: string): (r: seq<string>)
    ensures multiset(r) == multiset(FilterCenters(centers, term))
    ensures Sorting.SortedBy(r, CenterOrder(data, types, sortBy, sortOrder))
    ensures forall c :: c in r <==> c in centers && CenterMatches(c, term)
  {
    var filtered := FilterCenters(centers, term);
    var order := CenterOrder(data, types, sortBy, sortOrder);
    CenterOrderConsistent(data, types, sortBy, sortOrder);
    Sorting.SortSorts(filtered, order);
    var r := Sorting.Sort(filtered, order);
    assert forall c :: c in r <==> c in multiset(filtered);
    r
  }

  // ---------------------------------------------------------------- pagination

  /** `s.slice(start, end)` for a non-negative start and end. */
  function Slice(s: seq<string>, start: nat, end: nat): (r: seq<string>)
    ensures start <= end <= |s| ==> r == s[start..end]
    ensures start <= |s| < end ==> r == s[start..]
    ensures |s| <= start ==> r == []
  {
    var from := if start <= |s| then start else |s|;
    var to := if end <= |s| then end else |s|;
    if to <= from then [] else s[from..to]
  }

  /** `Math.ceil(n / perPage)` */
  function PageCount(n: nat): (pages: nat)
    ensures (pages - 1) * CentersPerPage < n <= pages * CentersPerPage || (n == 0 && pages == 0)
  {
    (n + CentersPerPage - 1) / CentersPerPage
  }

  /** `getPaginatedCenters` on the filtered and sorted list. */
  function Paginate(list: seq<string>, currentPage: nat): (p: Pagination)
    requires currentPage >= 1
    ensures p.totalCenters == |list| && p.totalPages == PageCount(|list|)
    ensures |p.centers| <= CentersPerPage
    ensures currentPage <= p.totalPages ==> |p.centers| > 0
  {
    var start := (currentPage - 1) * CentersPerPage;
    Pagination(Slice(list, start, start + CentersPerPage), PageCount(|list|), |list|)
  }

  /** Pages 1..k one after the other. */
  function PagesUpTo(list: seq<string>, k: nat): seq<string> {
    if k == 0 then [] else PagesUpTo(list, k - 1) + Paginate(list, k).centers
  }

  /** The first k pages are the first k·6 centres (or all of them). */
  lemma {:induction false} PagesUpToPrefix(list: seq<string>, k: nat)
    ensures PagesUpTo(list, k) == list[..if k * CentersPerPage <= |list| then k * CentersPerPage else |list|]
  {
    if k > 0 {
      PagesUpToPrefix(list, k - 1);
      var start := (k - 1) * CentersPerPage;
      if start <= |list| {
        assert list[..start] + Paginate(list, k).centers == list[..if k * CentersPerPage <= |list| then k * CentersPerPage else |list|];
      }
    }
  }

  /** Reading every page in turn gives back the whole list. */
  lemma PagesCoverList(list: seq<string>)
    ensures PagesUpTo(list, PageCount(|list|)) == list
  {
    PagesUpToPrefix(list, PageCount(|list|));
    assert list[..|list|] == list;
  }

  /** The page numbers shown: `min(5, total)` buttons around the current page. */
  function PageWindow(currentPage: int, totalPages: nat): (w: seq<int>)
    ensures |w| == if totalPages < WindowSize then totalPages else WindowSize
    ensures forall i :: 0 <= i < |w| ==> 1 <= w[i] <= totalPages
    ensures forall i :: 0 < i < |w| ==> w[i] == w[i - 1] + 1
    ensures 1 <= currentPage <= totalPages ==> currentPage in w
  {
    var n := if totalPages < WindowSize then totalPages else WindowSize;
    var first :=
      if totalPages <= WindowSize then 1
      else if currentPage <= 3 then 1
      else if currentPage >= totalPages - 2 then totalPages - 4
      else currentPage - 2;
    var w := seq(n, i requires 0 <= i < n => first + i);
    assert 1 <= currentPage <= totalPages ==> w[currentPage - first] == currentPage;
    w
  }

  /** The 'Précédent' target. */
  function PreviousPage(currentPage: int): (p: int)
    ensures currentPage >= 2 ==> p == currentPage - 1
    ensures currentPage < 2 ==> p == 1
  {
    if currentPage - 1 > 1 then currentPage - 1 else 1
  }

  /** The 'Suivant' target. */
  function NextPage(currentPage: int, totalPages: nat): (p: int)
    ensures currentPage < totalPages ==> p == currentPage + 1
    ensures currentPage >= totalPages ==> p == totalPages
  {
    if totalPages < currentPage + 1 then totalPages else currentPage + 1
  }

  /** From any page in range, previous and next stay in range. */
  lemma NavigationStaysInRange(currentPage: int, totalPages: nat)
    requires 1 <= currentPage <= totalPages
    ensures 1 <= PreviousPage(currentPage) <= totalPages
    ensures 1 <= NextPage(currentPage, totalPages) <= totalPages
  {
  }

  // ---------------------------------------------------------------- state

  /** The dashboard state that the sort buttons, the stock reads and the page buttons change. */
  class DashboardState {
    var sortBy: string
    var sortOrder: string
    var currentPage: int
    var stockData: StockData
    var searchTerm: string

    constructor ()
      ensures sortBy == "name" && sortOrder == "asc" && currentPage == 1 && stockData == map[]
      ensures searchTerm == ""
    {
      searchTerm := "";
      sortBy := "name";
      sortOrder := "asc";
      currentPage := 1;
      stockData := map[];
    }

    /** `handleSort`: the same key toggles the order, a new key starts ascending; page 1 either way. */
    method HandleSort(newSortBy: string)
      modifies this
      ensures old(sortBy) == newSortBy ==> sortBy == newSortBy && sortOrder == (if old(sortOrder) == "asc" then "desc" else "asc")
      ensures old(sortBy) != newSortBy ==> sortBy == newSortBy && sortOrder == "asc"
      ensures currentPage == 1 && stockData == old(stockData) && searchTerm == old(searchTerm)
    {
      if sortBy == newSortBy {
        sortOrder := if sortOrder == "asc" then "desc" else "asc";
      } else {
        sortBy := newSortBy;
        sortOrder := "asc";
      }
      currentPage := 1;
    }

    /**
     * `fetchStock`. `hasHandle` is whether the stock contract handle can be built and
     * `stock` what `getStock` answers (`None` when the call reverts). Without a signer or a
     * handle nothing changes; otherwise the pair's entry is replaced.
     */
    method FetchStock(hasSigner: bool, hasHandle: bool, center: string, vaccineType: string, stock: Option<Stock>)
      modifies this
      ensures !hasSigner || !hasHandle ==> stockData == old(stockData)
      ensures hasSigner && hasHandle ==> stockData == old(stockData)[(center, vaccineType) := stock]
      ensures sortBy == old(sortBy) && sortOrder == old(sortOrder) && currentPage == old(currentPage)
      ensures searchTerm == old(searchTerm)
    {
      if hasSigner && hasHandle {
        stockData := stockData[(center, vaccineType) := stock];
      }
    }

    /** A click on a page button, 'Précédent' or 'Suivant'. */
    method GoToPage(page: int)
      modifies this
      ensures currentPage == page
      ensures sortBy == old(sortBy) && sortOrder == old(sortOrder) && stockData == old(stockData)
      ensures searchTerm == old(searchTerm)
    {
      currentPage := page;
    }

    /** A new search term, and the effect on `searchTerm` that sends the list back to page 1. */
    method SetSearchTerm(term: string)
      modifies this
      ensures searchTerm == term && currentPage == 1
      ensures sortBy == old(sortBy) && sortOrder == old(sortOrder) && stockData == old(stockData)
    {
      searchTerm := term;
      currentPage := 1;
    }
  }
}
