/**
 * The rules of the vaccination-registry form: patient search, the progress matrix, the
 * last-dose check, the adverse-event (MAPI) form, certificate image lookup and the
 * dose-registration guard. The form's React state that these rules update is the
 * `RegistryForm` class.
 */
module RegistryForm {
  import opened Wrappers
  import opened Strings
  import opened Chain
  import opened Registry

  datatype Patient = Patient(uniquePatientCode: string, professionalCategory: string, patientAddress: string)

  /** One cell of the progress matrix. */
  datatype Cell = Cell(doseCount: nat, isComplete: bool)

  /** The dose form's fields. */
  datatype DoseForm = DoseForm(uniquePatientCode: string, vaccineType: string, centerId: string,
                               batchNumber: string, metadataURI: string)

  /** The arguments of `registerDose`. */
  datatype DoseRequest = DoseRequest(uniquePatientCode: string, vaccineType: string, centerId: string,
                                     batchNumber: string, metadataURI: string)

  /** The arguments of `declareMAPI`. */
  datatype MapiRequest = MapiRequest(uniquePatientCode: string, text: string)

  // ---------------------------------------------------------------- search

  /** The lower-cased search term occurs in the lower-cased code, category or address. */
  predicate Matches(p: Patient, term: string) {
    var t := ToLower(term);
    Contains(ToLower(p.uniquePatientCode), t)
    || Contains(ToLower(p.professionalCategory), t)
    || Contains(ToLower(p.patientAddress), t)
  }

  /** `filteredPatients` */
  function FilterPatients(patients: seq<Patient>, term: string): (r: seq<Patient>)
    ensures forall p :: p in r <==> p in patients && Matches(p, term)
    ensures |r| <= |patients|
  {
    if |patients| == 0 then []
    else
      assert patients == [patients[0]] + patients[1..];
      (if Matches(patients[0], term) then [patients[0]] else []) + FilterPatients(patients[1..], term)
  }

  /** Filtering a concatenation filters each part in place: the order is kept. */
  lemma {:induction false} FilterAppend(a: seq<Patient>, b: seq<Patient>, term: string)
    ensures FilterPatients(a + b, term) == FilterPatients(a, term) + FilterPatients(b, term)
  {
    if |a| > 0 {
      assert (a + b)[1..] == a[1..] + b;
      FilterAppend(a[1..], b, term);
    } else {
      assert a + b == b;
    }
  }

  /** An empty search term keeps every patient, in order. */
  lemma {:induction false} EmptyTermKeepsAll(patients: seq<Patient>)
    ensures FilterPatients(patients, "") == patients
  {
    if |patients| > 0 {
      assert ToLower("") == "";
      assert StartsWith(ToLower(patients[0].uniquePatientCode), "");
      EmptyTermKeepsAll(patients[1..]);
    }
  }

  // ---------------------------------------------------------------- progress

  /** The cell of one patient and one vaccine type, from the decoded status. */
  function CellOf(registry: RegistryReads, code: string, name: string): (c: Cell)
    ensures registry.status(code, Keccak(name)).Failure? ==> c == Cell(0, false)
    ensures c.doseCount == |VaccinationStatus(registry, code, name).administeredDoses|
  {
    var status := VaccinationStatus(registry, code, name);
    Cell(status.doseCount, status.isComplete)
  }

  function ProgressRow(registry: RegistryReads, code: string, names: seq<string>): map<string, Cell> {
    map n | n in names :: CellOf(registry, code, n)
  }

  /** The inner loop of `loadVaccineProgress`: one patient's row, one vaccine type at a time. */
  method LoadRow(registry: RegistryReads, code: string, names: seq<string>) returns (row: map<string, Cell>)
    ensures row == ProgressRow(registry, code, names)
  {
    row := map[];
    var j := 0;
    while j < |names|
      invariant 0 <= j <= |names|
      invariant row == ProgressRow(registry, code, names[..j])
    {
      row := row[names[j] := CellOf(registry, code, names[j])];
      assert names[..j + 1] == names[..j] + [names[j]];
      j := j + 1;
    }
    assert names[..|names|] == names;
  }

  /** The matrix `loadVaccineProgress` builds: one cell per patient and vaccine type. */
  function ProgressMatrix(registry: RegistryReads, codes: seq<string>, names: seq<string>): map<string, map<string, Cell>> {
    map c | c in codes :: ProgressRow(registry, c, names)
  }

  /** Adding a patient to the matrix adds that patient's row and leaves the others alone. */
  lemma MatrixSnoc(registry: RegistryReads, codes: seq<string>, code: string, names: seq<string>)
    ensures ProgressMatrix(registry, codes + [code], names)
         == ProgressMatrix(registry, codes, names)[code := ProgressRow(registry, code, names)]
  {
  }

  /** Every patient × vaccine-type pair has its cell, and a failed read is an empty cell. */
  lemma MatrixComplete(registry: RegistryReads, codes: seq<string>, names: seq<string>, c: string, n: string)
    requires c in codes && n in names
    ensures var m := ProgressMatrix(registry, codes, names);
      && c in m && n in m[c]
      && m[c][n].doseCount == VaccinationStatus(registry, c, n).doseCount
      && m[c][n].isComplete == VaccinationStatus(registry, c, n).isComplete
      && (registry.status(c, Keccak(n)).Failure? ==> m[c][n] == Cell(0, false))
  {
  }

  // ---------------------------------------------------------------- last dose

  /** The index of `vaccineTypes.find(v => v.name === name)`. */
  function FindType(types: seq<VaccineTypeRow>, name: string): (r: Option<nat>)
    ensures r.Some? ==>
      && r.value < |types| && types[r.value].name == name
      && forall j :: 0 <= j < r.value ==> types[j].name != name
    ensures r.None? <==> forall i :: 0 <= i < |types| ==> types[i].name != name
    decreases |types|
  {
    if |types| == 0 then None
    else if types[0].name == name then Some(0)
    else
      match FindType(types[1..], name)
      case None => None
      case Some(k) => Some(k + 1)
  }

  /** The dose count of a cell, a missing patient or cell counting as 0. */
  function CurrentDoses(progress: map<string, map<string, Cell>>, code: string, name: string): nat {
    if code in progress && name in progress[code] then progress[code][name].doseCount else 0
  }

  /**
   * The next dose completes the course: the rule the last-dose check is meant to apply,
   * with the first vaccine type of that name.
   */
  function LastDoseDue(progress: map<string, map<string, Cell>>, types: seq<VaccineTypeRow>, code: string, name: string): (due: bool)
    ensures due <==> exists i ::
      && 0 <= i < |types| && types[i].name == name
      && (forall j :: 0 <= j < i ==> types[j].name != name)
      && CurrentDoses(progress, code, name) + 1 >= types[i].requiredDoses
  {
    var vaccine := FindType(types, name);
    vaccine.Some? && CurrentDoses(progress, code, name) + 1 >= types[vaccine.value].requiredDoses
  }

  /**
   * How a type's `requiredDoses` reaches the form: a JavaScript number (the default
   * types used when loading fails) or an ethers `BigNumber` (the raw field of
   * `getAllVaccinationTypes`, whose ABI width is not part of this model).
   */
  datatype RequiredDosesValue = AsNumber | AsBigNumber

  /** The string `cell + 1` evaluates to when the cell is a `{doseCount, isComplete}` object. */
  const ObjectPlusOne := "[object Object]" + "1"

  /** JavaScript `a < b` on two strings: lexicographic order of the code units. */
  predicate StringLess(a: string, b: string)
    decreases |a|
  {
    if |a| == 0 then |b| > 0
    else if |b| == 0 then false
    else if a[0] != b[0] then a[0] < b[0]
    else StringLess(a[1..], b[1..])
  }

  /**
   * The check as written. A patient with a cell gets `cell + 1 == "[object Object]1"`:
   * against a number this compares as `NaN`, so never reaches; against a `BigNumber`
   * both sides become strings and the text compares by code units. A patient without a
   * cell counts 0, as intended.
   */
  function LastDoseDueAsWritten(progress: map<string, map<string, Cell>>, types: seq<VaccineTypeRow>,
                                code: string, name: string, required: RequiredDosesValue): bool {
    var vaccine := FindType(types, name);
    if vaccine.None? then false
    else if code in progress && name in progress[code] then
      match required
      case AsNumber => false
      case AsBigNumber => !StringLess(ObjectPlusOne, ToBase(types[vaccine.value].requiredDoses, 10))
    else 0 + 1 >= types[vaccine.value].requiredDoses
  }

  /** '[' comes after every digit, so "[object Object]1" is never below a decimal number. */
  lemma ObjectTextAboveDigits(n: nat)
    ensures !StringLess(ObjectPlusOne, ToBase(n, 10))
  {
    var d := ToBase(n, 10);
    DecimalDigitRange(d[0]);
    assert ObjectPlusOne[0] == '[';
  }

  /**
   * The rule as written disagrees with the intended one both ways: with numbers it
   * misses the second dose of a two-dose course, with `BigNumber`s it shows the
   * last-dose section on the first dose of a three-dose course.
   */
  lemma LastDoseAsWrittenDisagrees()
    ensures var progress := map["P1" := map["MPOX" := Cell(1, false)]];
      var types := [VaccineTypeRow("MPOX", 2, true)];
      LastDoseDue(progress, types, "P1", "MPOX") && !LastDoseDueAsWritten(progress, types, "P1", "MPOX", AsNumber)
    ensures var progress := map["P1" := map["HEPATITIS_B" := Cell(0, false)]];
      var types := [VaccineTypeRow("HEPATITIS_B", 3, true)];
      !LastDoseDue(progress, types, "P1", "HEPATITIS_B")
      && LastDoseDueAsWritten(progress, types, "P1", "HEPATITIS_B", AsBigNumber)
  {
    assert FindType([VaccineTypeRow("MPOX", 2, true)], "MPOX") == Some(0);
    assert FindType([VaccineTypeRow("HEPATITIS_B", 3, true)], "HEPATITIS_B") == Some(0);
    ObjectTextAboveDigits(3);
  }

  /** With `BigNumber`s, every patient who has a cell sees the section, whatever the count. */
  lemma AsWrittenBigNumberAlwaysShows(progress: map<string, map<string, Cell>>, types: seq<VaccineTypeRow>,
                                      code: string, name: string)
    requires FindType(types, name).Some? && code in progress && name in progress[code]
    ensures LastDoseDueAsWritten(progress, types, code, name, AsBigNumber)
  {
    ObjectTextAboveDigits(types[FindType(types, name).value].requiredDoses);
  }

  // ---------------------------------------------------------------- MAPI

  /** The text submitted by `handleMapiSubmit`. */
  function MapiText(vaccineType: string, description: string): (text: string)
    ensures StartsWith(text, vaccineType) && |text| == |vaccineType| + 2 + |description|
    ensures text[|vaccineType|..] == ": " + description
  {
    vaccineType + ": " + description
  }

  /** The registry's parser recovers the trimmed vaccine type from a submitted text. */
  lemma MapiRoundTrip(vaccineType: string, description: string)
    requires ':' !in vaccineType
    ensures ExtractVaccineType(MapiText(vaccineType, description)) == Trim(vaccineType)
  {
    assert MapiText(vaccineType, description) == vaccineType + ":" + (" " + description);
    BeforeFirstColon(vaccineType, " " + description);
  }

  /** The default vaccine of the MAPI form: first certificate type, else first type name, else ''. */
  function DefaultMapiVaccine(certificates: seq<Certificate>, types: seq<VaccineTypeRow>): (r: string)
    ensures |certificates| > 0 ==> r == certificates[0].vaccineType
    ensures |certificates| == 0 && |types| > 0 ==> r == types[0].name
    ensures |certificates| == 0 && |types| == 0 ==> r == ""
  {
    if |certificates| > 0 then certificates[0].vaccineType
    else if |types| > 0 then types[0].name
    else ""
  }

  // ---------------------------------------------------------------- certificate image

  /** The text after the last '/'. */
  function LastSegment(s: string): string {
    var parts := Split(s, "/");
    parts[|parts| - 1]
  }

  /** The hash `fetchCertificateImage` extracts from a URI, `None` when it finds none. */
  function UriHash(uri: string): (h: Option<string>)
    ensures StartsWith(uri, IpfsScheme) ==> h == Some(uri[|IpfsScheme|..])
    ensures !StartsWith(uri, IpfsScheme) && !Contains(uri, "ipfs") ==> h.None?
  {
    if StartsWith(uri, IpfsScheme) then
      ReplacePrefix(uri, IpfsScheme);
      Some(ReplaceFirst(uri, IpfsScheme, ""))
    else if Contains(uri, "ipfs") then Some(LastSegment(uri))
    else None
  }

  /** A gateway-style URI gives its last path segment. */
  lemma UriHashLastSegment(prefix: string, h: string)
    requires Contains(prefix, "ipfs") && !StartsWith(prefix + "/" + h, IpfsScheme) && '/' !in h
    ensures UriHash(prefix + "/" + h) == Some(h)
  {
    SplitLastPiece(prefix, '/', h);
    assert prefix + "/" + h == prefix + ("/" + h);
    ContainsAppend(prefix, "/" + h, "ipfs");
  }

  /** An occurrence in the left part survives appending. */
  lemma {:induction false} ContainsAppend(a: string, b: string, p: string)
    requires Contains(a, p)
    ensures Contains(a + b, p)
    decreases |a|
  {
    if StartsWith(a, p) {
      assert (a + b)[..|p|] == a[..|p|];
    } else {
      assert (a + b)[1..] == a[1..] + b;
      ContainsAppend(a[1..], b, p);
    }
  }

  /**
   * `fetchCertificateImage`: the image of the certificate, or the message of the error it
   * throws. `fetchImage(url)` is the gateway's answer: whether the response is ok, or the
   * message of the network error the request rejects with. The source returns an object
   * URL for the downloaded blob; the gateway URL it was downloaded from stands for it here.
   */
  function CertificateImage(tokenURI: string, fetch: FetchJson, fetchImage: string -> Result<bool, string>): (r: Result<string, string>)
    ensures UriHash(tokenURI).None? || UriHash(tokenURI) == Some("") ==> r == Failure("Invalid IPFS URI")
    ensures r.Success? ==>
      && UriHash(tokenURI).Some?
      && fetch(UriHash(tokenURI).value).Success?
      && var m := fetch(UriHash(tokenURI).value).value;
      && m.Some? && m.value.image.Some? && m.value.image.value != ""
      && UriHash(m.value.image.value).Some?
      && r.value == Gateway + UriHash(m.value.image.value).value
      && fetchImage(r.value) == Success(true)
    ensures var hash := UriHash(tokenURI);
      hash.Some? && hash.value != "" ==>
        var read := fetch(hash.value);
        && (read.Failure? ==> r == Failure(read.error.message))
        && (read.Success? && (read.value.None? || read.value.value.image.None? || read.value.value.image.value == "") ==>
              r == Failure("No image in metadata"))
        && (read.Success? && read.value.Some? && read.value.value.image.Some? && read.value.value.image.value != "" ==>
              var imageHash := UriHash(read.value.value.image.value);
              && (imageHash.None? || imageHash.value == "" ==> r == Failure("Invalid image IPFS URI"))
              && (imageHash.Some? && imageHash.value != "" && fetchImage(Gateway + imageHash.value).Failure? ==>
                    r == Failure(fetchImage(Gateway + imageHash.value).error))
              && (imageHash.Some? && imageHash.value != "" && fetchImage(Gateway + imageHash.value) == Success(false) ==>
                    r == Failure("Failed to fetch image from IPFS"))
              && (imageHash.Some? && imageHash.value != "" && fetchImage(Gateway + imageHash.value) == Success(true) ==>
                    r == Success(Gateway + imageHash.value)))
  {
    var hash := UriHash(tokenURI);
    if hash.None? || hash.value == "" then Failure("Invalid IPFS URI")
    else
      match fetch(hash.value)
      case Failure(e) => Failure(e.message)
      case Success(m) =>
        if m.None? || m.value.image.None? || m.value.image.value == "" then Failure("No image in metadata")
        else
          var imageHash := UriHash(m.value.image.value);
          if imageHash.None? || imageHash.value == "" then Failure("Invalid image IPFS URI")
          else
            match fetchImage(Gateway + imageHash.value)
            case Failure(message) => Failure(message)
            case Success(ok) => if ok then Success(Gateway + imageHash.value) else Failure("Failed to fetch image from IPFS")
  }

  // ---------------------------------------------------------------- dose registration

  /** The two NFT choices of the last-dose section. */
  datatype NftOption = Generate | Upload

  /**
   * Whether `handleDoseRegistration` puts an NFT on IPFS first: the last-dose section is
   * shown, no metadata URI was typed, and either the image is to be generated or one
   * was chosen for upload.
   */
  predicate UploadsNft(showMetadataFields: bool, form: DoseForm, option: NftOption, hasImage: bool) {
    showMetadataFields && form.metadataURI == "" && (option == Generate || hasImage)
  }

  /**
   * `handleDoseRegistration`: `None` when a required field is missing (no call);
   * otherwise the request sent to `registerDose`, or the message the IPFS upload
   * failed with. `uploaded` is the answer of `uploadNFTToIPFS`, generated image or
   * chosen file alike.
   */
  function DoseRegistration(hasSigner: bool, form: DoseForm, showMetadataFields: bool, option: NftOption,
                            hasImage: bool, uploaded: Result<string, string>): (r: Option<Result<DoseRequest, string>>)
    ensures r.Some? <==> hasSigner && form.uniquePatientCode != "" && form.vaccineType != ""
                         && form.centerId != "" && form.batchNumber != ""
    ensures r.Some? && !UploadsNft(showMetadataFields, form, option, hasImage) ==>
      r.value == Success(DoseRequest(form.uniquePatientCode, form.vaccineType, form.centerId,
                                     form.batchNumber, form.metadataURI))
    ensures r.Some? && UploadsNft(showMetadataFields, form, option, hasImage) && uploaded.Success? ==>
      r.value == Success(DoseRequest(form.uniquePatientCode, form.vaccineType, form.centerId,
                                     form.batchNumber, uploaded.value))
    ensures r.Some? && UploadsNft(showMetadataFields, form, option, hasImage) && uploaded.Failure? ==>
      r.value == Failure(uploaded.error)
  {
    if !(hasSigner && form.uniquePatientCode != "" && form.vaccineType != "" && form.centerId != "" && form.batchNumber != "")
    then None
    else if !UploadsNft(showMetadataFields, form, option, hasImage) then
      Some(Success(DoseRequest(form.uniquePatientCode, form.vaccineType, form.centerId, form.batchNumber, form.metadataURI)))
    else
      match uploaded
      case Failure(e) => Some(Failure(e))
      case Success(uri) =>
        Some(Success(DoseRequest(form.uniquePatientCode, form.vaccineType, form.centerId, form.batchNumber, uri)))
  }

  /** A typed metadata URI is always the one sent: no upload replaces it. */
  lemma TypedUriKept(hasSigner: bool, form: DoseForm, showMetadataFields: bool, option: NftOption,
                     hasImage: bool, uploaded: Result<string, string>)
    requires form.metadataURI != ""
    ensures var r := DoseRegistration(hasSigner, form, showMetadataFields, option, hasImage, uploaded);
      r.Some? ==> r.value.Success? && r.value.value.metadataURI == form.metadataURI
  {
  }

  // ---------------------------------------------------------------- form state

  /** The parts of the form's React state the rules above update. */
  class FormState {
    var progress: map<string, map<string, Cell>>
    var showMetadataFields: bool
    var mapiVaccineType: string
    var mapiDescription: string

    constructor ()
      ensures progress == map[] && !showMetadataFields
      ensures mapiVaccineType == "" && mapiDescription == ""
    {
      progress := map[];
      showMetadataFields := false;
      mapiVaccineType := "";
      mapiDescription := "";
    }

    /**
     * `loadVaccineProgress`: nothing happens without a signer, patients or vaccine types,
     * or when the registry handle cannot be built (`hasHandle`); otherwise the whole matrix
     * is rebuilt, cell by cell.
     */
    method LoadVaccineProgress(registry: RegistryReads, hasSigner: bool, hasHandle: bool,
                               patients: seq<Patient>, types: seq<VaccineTypeRow>)
      modifies this
      ensures !hasSigner || |patients| == 0 || |types| == 0 || !hasHandle ==> progress == old(progress)
      ensures hasSigner && hasHandle && |patients| > 0 && |types| > 0 ==>
        progress == ProgressMatrix(registry, Codes(patients), Names(types))
      ensures showMetadataFields == old(showMetadataFields)
      ensures mapiVaccineType == old(mapiVaccineType) && mapiDescription == old(mapiDescription)
    {
      if !hasSigner || |patients| == 0 || |types| == 0 || !hasHandle {
        return;
      }
      var codes := Codes(patients);
      var names := Names(types);
      var matrix: map<string, map<string, Cell>> := map[];
      var i := 0;
      while i < |codes|
        invariant 0 <= i <= |codes|
        invariant matrix == ProgressMatrix(registry, codes[..i], names)
        modifies {}
      {
        var code := codes[i];
        var row := LoadRow(registry, code, names);
        matrix := matrix[code := row];
        assert codes[..i + 1] == codes[..i] + [code];
        MatrixSnoc(registry, codes[..i], code, names);
        i := i + 1;
      }
      assert codes[..|codes|] == codes;
      progress := matrix;
    }

    /** The `checkIfLastDose` effect, with the intended dose-count rule. */
    method CheckIfLastDose(code: string, vaccineType: string, types: seq<VaccineTypeRow>)
      modifies this
      ensures code != "" && vaccineType != "" ==> showMetadataFields == LastDoseDue(progress, types, code, vaccineType)
      ensures code == "" || vaccineType == "" ==> showMetadataFields == old(showMetadataFields)
      ensures progress == old(progress)
      ensures mapiVaccineType == old(mapiVaccineType) && mapiDescription == old(mapiDescription)
    {
      if code != "" && vaccineType != "" {
        showMetadataFields := LastDoseDue(progress, types, code, vaccineType);
      }
    }

    /** `handleDeclareMAPI`: opens the form on the default vaccine with an empty description. */
    method DeclareMapi(certificates: seq<Certificate>, types: seq<VaccineTypeRow>)
      modifies this
      ensures mapiVaccineType == DefaultMapiVaccine(certificates, types) && mapiDescription == ""
      ensures progress == old(progress) && showMetadataFields == old(showMetadataFields)
    {
      mapiVaccineType := DefaultMapiVaccine(certificates, types);
      mapiDescription := "";
    }

    /**
     * `handleMapiSubmit`: the request sent for the selected patient, if any, and nothing
     * when the registry handle cannot be built (`hasHandle`); the form is cleared only when
     * `declared` reports that the call went through.
     */
    method SubmitMapi(hasSigner: bool, hasHandle: bool, selected: Option<Patient>, declared: bool)
      returns (request: Option<MapiRequest>)
      modifies this
      ensures request.Some? <==> hasSigner && selected.Some? && hasHandle
      ensures request.Some? ==>
        request.value == MapiRequest(selected.value.uniquePatientCode, MapiText(old(mapiVaccineType), old(mapiDescription)))
      ensures request.Some? && declared ==> mapiVaccineType == "" && mapiDescription == ""
      ensures request.None? || !declared ==>
        mapiVaccineType == old(mapiVaccineType) && mapiDescription == old(mapiDescription)
      ensures progress == old(progress) && showMetadataFields == old(showMetadataFields)
    {
      if !hasSigner || selected.None? || !hasHandle {
        return None;
      }
      request := Some(MapiRequest(selected.value.uniquePatientCode, MapiText(mapiVaccineType, mapiDescription)));
      if declared {
        mapiVaccineType := "";
        mapiDescription := "";
      }
    }
  }

  function Codes(patients: seq<Patient>): (r: seq<string>)
    ensures |r| == |patients| && forall i :: 0 <= i < |patients| ==> r[i] == patients[i].uniquePatientCode
  {
    seq(|patients|, i requires 0 <= i < |patients| => patients[i].uniquePatientCode)
  }
}
