/**
 * The home dashboard's totals: the numbers of centres and patients, the doses
 * administered over every patient and vaccine type, and the units in stock over every
 * centre and vaccine type, recomputed by `fetchDashboardData`.
 */
module DashboardData {
  import opened Wrappers
  import opened Chain
  import opened Registry
  import opened StockDashboard

  /** `getStock(center, type)`: the stock, or the null returned for an unconfigured pair. */
  type StockRead = (string, string) -> Option<Stock>

  /** The doses of one patient over the vaccine types `names`. */
  function PatientDoses(registry: RegistryReads, code: string, names: seq<string>): nat
    decreases |names|
  {
    if |names| == 0 then 0
    else |VaccinationStatus(registry, code, names[0]).administeredDoses| + PatientDoses(registry, code, names[1..])
  }

  /** The doses of all patients `codes` over the vaccine types `names`. */
  function DosesTotal(registry: RegistryReads, codes: seq<string>, names: seq<string>): nat
    decreases |codes|
  {
    if |codes| == 0 then 0 else PatientDoses(registry, codes[0], names) + DosesTotal(registry, codes[1..], names)
  }

  /** The units of one centre over the vaccine types `names`; unconfigured pairs add nothing. */
  function CenterUnits(read: StockRead, center: string, names: seq<string>): nat
    decreases |names|
  {
    if |names| == 0 then 0
    else
      var here := if read(center, names[0]).Some? then read(center, names[0]).value.currentQuantity else 0;
      here + CenterUnits(read, center, names[1..])
  }

  /** The units of all centres over the vaccine types `names`. */
  function StocksTotal(read: StockRead, centers: seq<string>, names: seq<string>): nat
    decreases |centers|
  {
    if |centers| == 0 then 0 else CenterUnits(read, centers[0], names) + StocksTotal(read, centers[1..], names)
  }

  /** The dose total of two groups of patients is the sum of their totals. */
  lemma {:induction false} DosesTotalSplits(registry: RegistryReads, a: seq<string>, b: seq<string>, names: seq<string>)
    ensures DosesTotal(registry, a + b, names) == DosesTotal(registry, a, names) + DosesTotal(registry, b, names)
    decreases |a|
  {
    if |a| > 0 {
      assert (a + b)[0] == a[0];
      assert (a + b)[1..] == a[1..] + b;
      DosesTotalSplits(registry, a[1..], b, names);
    } else {
      assert a + b == b;
    }
  }

  /** When no status can be read, every status is the zero status and no dose is counted. */
  lemma {:induction false} UnreadableStatusesCountZero(registry: RegistryReads, codes: seq<string>, names: seq<string>)
    requires forall code, name :: registry.status(code, Keccak(name)).Failure?
    ensures DosesTotal(registry, codes, names) == 0
    decreases |codes|
  {
    if |codes| > 0 {
      UnreadablePatientZero(registry, codes[0], names);
      UnreadableStatusesCountZero(registry, codes[1..], names);
    }
  }

  lemma {:induction false} UnreadablePatientZero(registry: RegistryReads, code: string, names: seq<string>)
    requires forall code, name :: registry.status(code, Keccak(name)).Failure?
    ensures PatientDoses(registry, code, names) == 0
    decreases |names|
  {
    if |names| > 0 {
      assert VaccinationStatus(registry, code, names[0]) == ZeroStatus;
      UnreadablePatientZero(registry, code, names[1..]);
    }
  }

  /** The stocks the stock dashboard would hold after reading every centre and type pair. */
  function StockDataOf(read: StockRead, centers: seq<string>, names: seq<string>): (data: StockData)
    ensures forall c, t :: c in centers && t in names ==> (c, t) in data && data[(c, t)] == read(c, t)
  {
    map c, t | c in centers && t in names :: (c, t) := read(c, t)
  }

  /**
   * A centre's units in the dashboard total equal the total stock its card shows on the
   * stock dashboard for the same reads.
   */
  lemma {:induction false} CenterUnitsIsCardTotal(read: StockRead, centers: seq<string>, center: string,
                                                 names: seq<string>, allNames: seq<string>)
    requires center in centers && forall t :: t in names ==> t in allNames
    ensures CenterUnits(read, center, names) == CenterStats(StockDataOf(read, centers, allNames), center, names).totalStock
    decreases |names|
  {
    var data := StockDataOf(read, centers, allNames);
    if |names| > 0 {
      CenterUnitsIsCardTotal(read, centers, center, names[1..], allNames);
      var rest := ConfiguredStocks(data, center, names[1..]);
      assert names[0] in allNames;
      if read(center, names[0]).Some? {
        var stocks := [data[(center, names[0])].value] + rest;
        assert stocks[1..] == rest;
      }
    }
  }

  const LoadError := "Erreur lors du chargement des données"

  /**
   * What `fetchDashboardData` reads: the two contract handles (`None` when they cannot be
   * built, which throws), the patient codes and the centre list (their readers answer `[]`
   * when the contract reverts, so they never throw), the vaccine-type rows (`[]` on a failed
   * read, inside `getAllVaccinationTypes`), the status and stock reads.
   */
  datatype Sources = Sources(stock: Option<StockRead>, registry: Option<RegistryReads>,
                             patients: seq<string>, centers: seq<string>,
                             typeRows: Result<seq<VaccineTypeRow>, ChainError>)

  /** The state `useDashboardData` keeps. */
  class Dashboard {
    var totalCenters: nat
    var totalPatients: nat
    var totalDoses: nat
    var totalStocks: nat
    var loading: bool
    var error: Option<string>

    constructor ()
      ensures totalCenters == 0 && totalPatients == 0 && totalDoses == 0 && totalStocks == 0
      ensures !loading && error.None?
    {
      totalCenters := 0;
      totalPatients := 0;
      totalDoses := 0;
      totalStocks := 0;
      loading := false;
      error := None;
    }

    /** The dose loop: every patient against every vaccine type. */
    method CountDoses(registry: RegistryReads, codes: seq<string>, names: seq<string>) returns (total: nat)
      ensures total == DosesTotal(registry, codes, names)
    {
      total := 0;
      for i := 0 to |codes|
        invariant total + DosesTotal(registry, codes[i..], names) == DosesTotal(registry, codes, names)
      {
        assert codes[i..][1..] == codes[i + 1..];
        for j := 0 to |names|
          invariant total + PatientDoses(registry, codes[i], names[j..]) + DosesTotal(registry, codes[i + 1..], names)
            == DosesTotal(registry, codes, names)
        {
          assert names[j..][1..] == names[j + 1..];
          var status := VaccinationStatus(registry, codes[i], names[j]);
          total := total + |status.administeredDoses|;
        }
      }
    }

    /** The stock loop: every centre against every vaccine type, null stocks skipped. */
    method CountUnits(read: StockRead, centers: seq<string>, names: seq<string>) returns (total: nat)
      ensures total == StocksTotal(read, centers, names)
    {
      total := 0;
      for i := 0 to |centers|
        invariant total + StocksTotal(read, centers[i..], names) == StocksTotal(read, centers, names)
      {
        assert centers[i..][1..] == centers[i + 1..];
        for j := 0 to |names|
          invariant total + CenterUnits(read, centers[i], names[j..]) + StocksTotal(read, centers[i + 1..], names)
            == StocksTotal(read, centers, names)
        {
          assert names[j..][1..] == names[j + 1..];
          var stock := read(centers[i], names[j]);
          if stock.Some? && stock.value.currentQuantity != 0 {
            total := total + stock.value.currentQuantity;
          }
        }
      }
    }

    /** `fetchDashboardData`. */
    method FetchDashboardData(isConnected: bool, hasSigner: bool, sources: Sources)
      modifies this
      ensures !loading
      ensures (!isConnected || !hasSigner) ==>
        && totalCenters == old(totalCenters) && totalPatients == old(totalPatients)
        && totalDoses == old(totalDoses) && totalStocks == old(totalStocks) && error == old(error)
      ensures (isConnected && hasSigner && (sources.stock.None? || sources.registry.None?)) ==>
        && totalCenters == old(totalCenters) && totalPatients == old(totalPatients)
        && totalDoses == old(totalDoses) && totalStocks == old(totalStocks) && error == Some(LoadError)
      ensures (isConnected && hasSigner && sources.stock.Some? && sources.registry.Some?) ==>
        var names := Names(AllVaccinationTypes(sources.typeRows));
        && totalCenters == |sources.centers| && totalPatients == |sources.patients|
        && totalDoses == DosesTotal(sources.registry.value, sources.patients, names)
        && totalStocks == StocksTotal(sources.stock.value, sources.centers, names)
        && error.None?
    {
      if !isConnected || !hasSigner {
        loading := false;
        return;
      }
      loading := true;
      error := None;
      if sources.stock.None? || sources.registry.None? {
        loading := false;
        error := Some(LoadError);
        return;
      }
      var names := Names(AllVaccinationTypes(sources.typeRows));
      var doses := CountDoses(sources.registry.value, sources.patients, names);
      var units := CountUnits(sources.stock.value, sources.centers, names);
      Record(|sources.centers|, |sources.patients|, doses, units);
    }

    /** The final `setData`: the four totals, no longer loading, no error. */
    method Record(centers: nat, patients: nat, doses: nat, units: nat)
      modifies this
      ensures totalCenters == centers && totalPatients == patients
      ensures totalDoses == doses && totalStocks == units
      ensures !loading && error.None?
    {
      totalCenters := centers;
      totalPatients := patients;
      totalDoses := doses;
      totalStocks := units;
      loading := false;
      error := None;
    }
  }
}
