/**
 * The per-patient progress panel: for every configured vaccine type, the doses received
 * against the doses required, the filled share of the bar, the 'not started' warning and
 * the status line, read from the progress matrix the registry form builds.
 */
module VaccineProgress {
  import opened Wrappers
  import opened Chain
  import opened Registry
  import opened RegistryForm

  /** The status line under a vaccine's bar. */
  datatype StatusLine = Complete | NotStarted | DosesLeft(doses: int)

  /** What the panel shows for one vaccine type. */
  datatype VaccineLine = VaccineLine(name: string, currentDoses: nat, requiredDoses: nat, isComplete: bool,
                                     percentage: real, barWidth: real, notStarted: bool, status: StatusLine)

  /** The panel: no data, still loading, or one line per vaccine type. */
  datatype Panel = NoData | Loading | Lines(lines: seq<VaccineLine>)

  /** The line of vaccine type `t` given the patient's row of the progress matrix. */
  function LineOf(row: map<string, Cell>, t: VaccineTypeRow): (line: VaccineLine)
    ensures line.name == t.name && line.requiredDoses == t.requiredDoses
    ensures t.name !in row ==> line.currentDoses == 0 && !line.isComplete
    ensures t.name in row ==> line.currentDoses == row[t.name].doseCount && line.isComplete == row[t.name].isComplete
    ensures t.requiredDoses > 0 ==> line.percentage * (t.requiredDoses as real) == (line.currentDoses as real) * 100.0
    ensures t.requiredDoses == 0 ==> line.percentage == 0.0
    ensures 0.0 <= line.barWidth <= 100.0
    ensures line.barWidth == 100.0 || line.barWidth == line.percentage
    ensures line.notStarted <==> line.currentDoses == 0 && t.requiredDoses > 0
    ensures line.isComplete ==> line.status == Complete
    ensures !line.isComplete && line.currentDoses == 0 ==> line.status == NotStarted
    ensures !line.isComplete && line.currentDoses > 0 ==>
      line.status == DosesLeft(t.requiredDoses - line.currentDoses)
  {
    var current := if t.name in row then row[t.name].doseCount else 0;
    var complete := if t.name in row then row[t.name].isComplete else false;
    var required := t.requiredDoses;
    var percentage := if required > 0 then (current as real / required as real) * 100.0 else 0.0;
    var width := if percentage < 100.0 then percentage else 100.0;
    var status := if complete then Complete else if current == 0 then NotStarted else DosesLeft(required - current);
    VaccineLine(t.name, current, required, complete, percentage, width, current == 0 && required > 0, status)
  }

  /** The bar is full exactly when the required doses have all been received. */
  lemma FullBar(row: map<string, Cell>, t: VaccineTypeRow)
    requires t.requiredDoses > 0
    ensures LineOf(row, t).barWidth == 100.0 <==> LineOf(row, t).currentDoses >= t.requiredDoses
  {
    var line := LineOf(row, t);
    var r := t.requiredDoses as real;
    var c := line.currentDoses as real;
    assert line.percentage * r == c * 100.0;
    if line.currentDoses >= t.requiredDoses {
      assert c >= r;
      assert line.percentage * r >= r * 100.0;
      assert line.percentage >= 100.0;
    } else {
      assert c < r;
      assert line.percentage * r < r * 100.0;
      assert line.percentage < 100.0;
    }
  }

  /** `VaccineProgress`: the panel for `patientCode`; `progress` is `None` while not loaded. */
  function ProgressPanel(patientCode: string, types: seq<VaccineTypeRow>,
                         progress: Option<map<string, map<string, Cell>>>): (panel: Panel)
    ensures (patientCode == "" || |types| == 0) <==> panel == NoData
    ensures panel == Loading <==>
      patientCode != "" && |types| > 0 && (progress.None? || patientCode !in progress.value)
    ensures panel.Lines? ==>
      && progress.Some? && patientCode in progress.value
      && |panel.lines| == |types|
      && forall i :: 0 <= i < |types| ==> panel.lines[i] == LineOf(progress.value[patientCode], types[i])
  {
    if patientCode == "" || |types| == 0 then NoData
    else if progress.None? || patientCode !in progress.value then Loading
    else
      var row := progress.value[patientCode];
      Lines(seq(|types|, i requires 0 <= i < |types| => LineOf(row, types[i])))
  }

  /**
   * Read from the matrix the registry form loads, a line shows the number of doses the
   * registry returned for that patient and vaccine.
   */
  lemma LineMatchesRegistry(registry: RegistryReads, codes: seq<string>, names: seq<string>,
                            code: string, t: VaccineTypeRow)
    requires code in codes && t.name in names
    ensures LineOf(ProgressMatrix(registry, codes, names)[code], t).currentDoses ==
      |VaccinationStatus(registry, code, t.name).administeredDoses|
  {
    var row := ProgressMatrix(registry, codes, names)[code];
    assert row == ProgressRow(registry, code, names);
    assert row[t.name] == CellOf(registry, code, t.name);
  }
}
