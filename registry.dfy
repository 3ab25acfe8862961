/**
 * The vaccination-registry service: decoding a patient's status for one vaccine type,
 * deriving the patient's certificates, rewriting IPFS links, reading the vaccine type
 * out of an adverse-event (MAPI) text, building the patient's history and listing the
 * vaccine types. Every contract or gateway read is a parameter returning a `Result`.
 */
module Registry {
  import opened Wrappers
  import opened Strings
  import opened Chain
  import Sorting

  // ---------------------------------------------------------------- data

  /** One dose as the contract returns it: `[timestamp, centerId, batchNumber]`. */
  datatype RawDose = RawDose(timestamp: Option<nat>, centerId: Option<string>, batchNumber: Option<string>)

  /** The status tuple: `[administeredDoses, certificateTokenId, isComplete]`. */
  datatype RawStatus = RawStatus(doses: Option<seq<RawDose>>, tokenId: Option<nat>, complete: bool)

  /** A dose ready for display; the date is kept in milliseconds since the epoch. */
  datatype Dose = Dose(dateMs: Option<nat>, centerId: string, batchNumber: string)

  datatype Status = Status(administeredDoses: seq<Dose>, doseCount: nat, certificateTokenId: nat, isComplete: bool)

  /** A row of the contract's vaccine-type list. */
  datatype VaccineTypeRow = VaccineTypeRow(name: string, requiredDoses: nat, present: bool)

  datatype PatientInfo = PatientInfo(patientId: nat, present: bool)

  /** The metadata JSON of a certificate; only its `image` field is used. */
  datatype Metadata = Metadata(image: Option<string>)

  datatype Certificate = Certificate(
    vaccineType: string, tokenId: nat, isComplete: bool, dosesCount: nat,
    tokenURI: Option<string>, metadata: Option<Metadata>, imageUrl: Option<string>,
    hasMetadata: bool, hasImage: bool)

  /** An adverse event as `getPatientMAPIEvents` returns it. */
  datatype MapiEvent = MapiEvent(vaccineType: string, description: string, dateMs: int)

  datatype HistoryEntry =
    | DoseEntry(patientId: nat, vaccineType: string, doseNumber: nat, date: Option<nat>,
                centerId: string, batchNumber: string)
    | MapiEntry(patientId: nat, vaccineType: string, description: string, mapiDate: int)

  /** The registry contract's read methods, as oracles. */
  datatype RegistryReads = RegistryReads(
    status: (string, Hash) -> Result<RawStatus, ChainError>,
    tokenUri: nat -> Result<string, ChainError>,
    patientInfo: string -> Result<PatientInfo, ChainError>,
    typeInfo: Hash -> Result<VaccineTypeRow, ChainError>)

  /** `getJSONFromIPFS`: `None` is a document whose JSON value is null. */
  type FetchJson = string -> Result<Option<Metadata>, ChainError>

  const Unknown := "Inconnu"
  const IpfsScheme := "ipfs://"
  const IpfsPath := "/ipfs/"
  const Gateway := "https://gateway.pinata.cloud/ipfs/"
  /** The placeholder URI used when token 0 has no URI, and the marker that recognises it. */
  const FallbackMarker := "fallback-uri-for-token-0"
  const FallbackUriToken0 := IpfsScheme + FallbackMarker
  /** The largest time value a JavaScript `Date` holds; `toISOString` throws beyond it. */
  const MaxDateMs: nat := 8_640_000_000_000_000

  // ---------------------------------------------------------------- status

  const ZeroStatus := Status([], 0, 0, false)

  /** `value || 'Inconnu'` */
  function OrUnknown(v: Option<string>): (r: string)
    ensures r == Unknown <==> v.None? || v.value == "" || v.value == Unknown
    ensures r != Unknown ==> v == Some(r)
  {
    if v.Some? && v.value != "" then v.value else Unknown
  }

  /** Formats one dose; `None` when `toNumber` or `toISOString` would throw. */
  function FormatDose(d: RawDose): Option<Dose>
  {
    match d.timestamp
    case None => Some(Dose(None, OrUnknown(d.centerId), OrUnknown(d.batchNumber)))
    case Some(t) =>
      if t <= MaxSafeInteger && t * 1000 <= MaxDateMs
      then Some(Dose(Some(t * 1000), OrUnknown(d.centerId), OrUnknown(d.batchNumber)))
      else None
  }

  /** The `map` over the raw doses; `None` as soon as one of them throws. */
  function FormatDoses(raw: seq<RawDose>): (r: Option<seq<Dose>>)
    ensures r.Some? <==> forall i :: 0 <= i < |raw| ==> FormatDose(raw[i]).Some?
    ensures r.Some? ==>
      && |r.value| == |raw|
      && forall i :: 0 <= i < |raw| ==> Some(r.value[i]) == FormatDose(raw[i])
  {
    if |raw| == 0 then Some([])
    else
      match (FormatDoses(raw[..|raw| - 1]), FormatDose(raw[|raw| - 1]))
      case (Some(front), Some(last)) => Some(front + [last])
      case _ => None
  }

  /**
   * `getPatientVaccinationStatus` after the contract call: decodes the tuple, and any
   * failure, of the call or of a conversion inside the `try`, gives the zero status.
   */
  function DecodeStatus(read: Result<RawStatus, ChainError>): (r: Status)
    ensures r.doseCount == |r.administeredDoses|
    ensures read.Failure? ==> r == ZeroStatus
    ensures read.Success? && r != ZeroStatus ==>
      && r.isComplete == read.value.complete
      && r.certificateTokenId == read.value.tokenId.GetOr(0)
      && |r.administeredDoses| == |read.value.doses.GetOr([])|
    ensures read.Success? && read.value.tokenId.Some? && read.value.tokenId.value > MaxSafeInteger ==> r == ZeroStatus
    ensures read.Success? && FormatDoses(read.value.doses.GetOr([])).None? ==> r == ZeroStatus
  {
    match read
    case Failure(_) => ZeroStatus
    case Success(raw) =>
      var tokenId := if raw.tokenId.None? then Some(0) else ToNumber(raw.tokenId.value);
      var doses := FormatDoses(raw.doses.GetOr([]));
      if tokenId.None? || doses.None? then ZeroStatus
      else Status(doses.value, |doses.value|, tokenId.value, raw.complete)
  }

  /** The status of one patient for one vaccine type, read under the name's keccak id. */
  function VaccinationStatus(registry: RegistryReads, code: string, vaccineType: string): Status
  {
    DecodeStatus(registry.status(code, Keccak(vaccineType)))
  }

  /** Dose formatting: unknown centre and batch, null date, seconds to milliseconds. */
  lemma FormatDoseFields(d: RawDose)
    ensures FormatDose(d).Some? ==>
      && FormatDose(d).value.centerId == OrUnknown(d.centerId)
      && FormatDose(d).value.batchNumber == OrUnknown(d.batchNumber)
      && (d.timestamp.None? <==> FormatDose(d).value.dateMs.None?)
      && (d.timestamp.Some? ==> FormatDose(d).value.dateMs == Some(d.timestamp.value * 1000))
    ensures d.timestamp.None? ==> FormatDose(d).Some?
  {
  }

  /** A decoded status keeps every raw dose, in order, when nothing overflows. */
  lemma DecodeKeepsDoses(raw: RawStatus)
    requires raw.tokenId.None? || raw.tokenId.value <= MaxSafeInteger
    requires forall i :: 0 <= i < |raw.doses.GetOr([])| ==> FormatDose(raw.doses.GetOr([])[i]).Some?
    ensures var r := DecodeStatus(Success(raw));
      && r.isComplete == raw.complete
      && r.certificateTokenId == raw.tokenId.GetOr(0)
      && r.doseCount == |raw.doses.GetOr([])|
      && forall i :: 0 <= i < r.doseCount ==> Some(r.administeredDoses[i]) == FormatDose(raw.doses.GetOr([])[i])
  {
  }

  // ---------------------------------------------------------------- IPFS links

  /** The content hash inside a token URI, as `getPatientCertificates` extracts it. */
  function TokenUriHash(uri: string): (h: Option<string>)
    ensures StartsWith(uri, IpfsScheme) ==> h == Some(uri[|IpfsScheme|..])
    ensures !StartsWith(uri, IpfsScheme) ==> (h.Some? <==> Contains(uri, IpfsPath))
  {
    if StartsWith(uri, IpfsScheme) then
      ReplacePrefix(uri, IpfsScheme);
      Some(ReplaceFirst(uri, IpfsScheme, ""))
    else if Contains(uri, IpfsPath) then
      SplitContains(uri, IpfsPath);
      Some(Split(uri, IpfsPath)[1])
    else None
  }

  /** An `ipfs://` image link becomes a gateway URL; any other string is kept. */
  function RewriteImage(image: string): (url: string)
    ensures StartsWith(image, IpfsScheme) ==> url == Gateway + image[|IpfsScheme|..]
    ensures !StartsWith(image, IpfsScheme) ==> url == image
    ensures image != "" ==> url != ""
  {
    if StartsWith(image, IpfsScheme) then
      ReplacePrefix(image, IpfsScheme);
      Gateway + ReplaceFirst(image, IpfsScheme, "")
    else image
  }

  /** The segment after `/ipfs/` is the hash, up to the next `/ipfs/`. */
  lemma GatewayPathHash(prefix: string, h: string)
    requires !StartsWith(prefix + IpfsPath + h, IpfsScheme)
    requires !Contains(prefix + "/ipfs", "/ipfs/") && !Contains(h, IpfsPath)
    ensures TokenUriHash(prefix + IpfsPath + h) == Some(h)
  {
    var uri := prefix + IpfsPath + h;
    ContainsPrepend(prefix, IpfsPath + h, IpfsPath) by { ContainsSuffixStart(IpfsPath, h); }
    assert uri == prefix + (IpfsPath + h);
    SplitAfterPrefix(prefix, h);
    SplitWithout(h);
    assert Split(uri, IpfsPath) == [prefix, h];
  }

  lemma ContainsSuffixStart(p: string, rest: string)
    ensures Contains(p + rest, p)
  {
    assert (p + rest)[..|p|] == p;
  }

  /** No occurrence of `/ipfs/` in `prefix + "/ipfs"` puts the first one right after `prefix`. */
  lemma {:induction false} SplitAfterPrefix(prefix: string, h: string)
    requires !Contains(prefix + "/ipfs", "/ipfs/") && !Contains(h, IpfsPath)
    ensures Split(prefix + IpfsPath + h, IpfsPath) == [prefix] + Split(h, IpfsPath)
    decreases |prefix|
  {
    var s := prefix + IpfsPath + h;
    if |prefix| == 0 {
      assert s == IpfsPath + h;
      assert s[..|IpfsPath|] == IpfsPath;
      assert s[|IpfsPath|..] == h;
      SplitWithout(h);
    } else {
      if s[..|IpfsPath|] == IpfsPath {
        EarlyMatchInPrefix(prefix, h);
        assert false;
      }
      assert (prefix + "/ipfs")[1..] == prefix[1..] + "/ipfs";
      assert s[1..] == prefix[1..] + IpfsPath + h;
      SplitAfterPrefix(prefix[1..], h);
      assert [prefix[0]] + prefix[1..] == prefix;
    }
  }

  /**
   * A match of `/ipfs/` at the start of `prefix + "/ipfs/" + h`, with `prefix` non-empty,
   * already lies within `prefix + "/ipfs"`.
   */
  lemma EarlyMatchInPrefix(prefix: string, h: string)
    requires |prefix| > 0
    requires (prefix + IpfsPath + h)[..|IpfsPath|] == IpfsPath
    ensures Contains(prefix + "/ipfs", "/ipfs/")
  {
    var t := prefix + "/ipfs";
    if |prefix| >= 6 {
      assert t[..6] == prefix[..6] == (prefix + IpfsPath + h)[..6];
    } else {
      ShortEarlyMatch(prefix, h);
      assert t[..6] == "/ipfs/";
    }
    assert StartsWith(t, "/ipfs/");
  }

  /** `/ipfs/` overlaps itself only at distance 5, so a short early match needs `prefix == "/ipfs"`. */
  lemma ShortEarlyMatch(prefix: string, h: string)
    requires 0 < |prefix| < |IpfsPath|
    requires (prefix + IpfsPath + h)[..|IpfsPath|] == IpfsPath
    ensures prefix == "/ipfs"
  {
    var s := prefix + IpfsPath + h;
    var n := |prefix|;
    assert s[n] == '/';
    assert IpfsPath[n] == '/';
    assert n == 5;
    assert prefix == s[..5];
  }

  /** Without the separator, a string is a single piece. */
  lemma {:induction false} SplitWithout(h: string)
    requires !Contains(h, IpfsPath)
    ensures Split(h, IpfsPath) == [h]
    decreases |h|
  {
    if |h| >= |IpfsPath| {
      assert !StartsWith(h, IpfsPath);
      SplitWithout(h[1..]);
      assert [h[0]] + h[1..] == h;
    }
  }

  // ---------------------------------------------------------------- certificates

  /** The token URI as the certificate loop obtains it, with the token-0 fallback. */
  function ReadTokenUri(registry: RegistryReads, tokenId: nat): Result<string, ChainError>
  {
    if tokenId == 0 then
      match registry.tokenUri(0)
      case Success(u) => Success(u)
      case Failure(_) => Success(FallbackUriToken0)
    else registry.tokenUri(tokenId)
  }

  /** The metadata and image of a certificate whose token URI was read. */
  function ResolveMetadata(uri: string, fetch: FetchJson): (r: (Option<Metadata>, Option<string>))
    ensures r.1.Some? ==> r.0.Some? && r.0.value.image.Some? && r.1.value == RewriteImage(r.0.value.image.value)
    ensures r.1.Some? ==> r.1.value != ""
    ensures uri == "" || Contains(uri, FallbackMarker) ==> r == (None, None)
  {
    if uri == "" || Contains(uri, FallbackMarker) then (None, None)
    else
      match TokenUriHash(uri)
      case None => (None, None)
      case Some(h) =>
        if h == "" then (None, None)
        else
          match fetch(h)
          case Failure(_) => (None, None)
          case Success(m) =>
            if m.Some? && m.value.image.Some? && m.value.image.value != ""
            then (m, Some(RewriteImage(m.value.image.value)))
            else (m, None)
  }

  /**
   * The certificate pushed for a complete course. No failure of the URI read or of
   * the metadata fetch removes it: such a failure only leaves fields null.
   */
  function ResolveCertificate(registry: RegistryReads, fetch: FetchJson, vaccineType: string, status: Status): (c: Certificate)
    requires status.isComplete
    ensures c.vaccineType == vaccineType && c.isComplete
    ensures c.tokenId == status.certificateTokenId
    ensures c.dosesCount == |status.administeredDoses|
    ensures c.hasMetadata <==> c.metadata.Some?
    ensures c.hasImage <==> c.imageUrl.Some?
    ensures c.hasImage ==> c.hasMetadata
    ensures c.tokenURI.None? ==> !c.hasMetadata
  {
    var uri := ReadTokenUri(registry, status.certificateTokenId);
    var resolved := if uri.Success? then ResolveMetadata(uri.value, fetch) else (None, None);
    Certificate(vaccineType, status.certificateTokenId, true, |status.administeredDoses|,
      if uri.Success? then Some(uri.value) else None,
      resolved.0, resolved.1, resolved.0.Some?, resolved.1.Some?)
  }

  /** When token 0 has no URI, the placeholder URI is kept and nothing is fetched. */
  lemma TokenZeroFallback(registry: RegistryReads, fetch: FetchJson, vaccineType: string, status: Status)
    requires status.isComplete && status.certificateTokenId == 0 && registry.tokenUri(0).Failure?
    ensures var c := ResolveCertificate(registry, fetch, vaccineType, status);
      c.tokenURI == Some(FallbackUriToken0) && !c.hasMetadata && !c.hasImage
  {
    assert ReadTokenUri(registry, 0) == Success(FallbackUriToken0);
    ContainsSuffix(IpfsScheme, FallbackMarker);
    assert ResolveMetadata(FallbackUriToken0, fetch) == (None, None);
  }

  /** The vaccine types, in input order, whose course is complete for the patient. */
  function CompleteTypes(registry: RegistryReads, code: string, names: seq<string>): (r: seq<string>)
    ensures forall x :: x in r <==> x in names && VaccinationStatus(registry, code, x).isComplete
    ensures |r| <= |names|
  {
    if |names| == 0 then []
    else
      var front := CompleteTypes(registry, code, names[..|names| - 1]);
      var last := names[|names| - 1];
      assert names == names[..|names| - 1] + [last];
      if VaccinationStatus(registry, code, last).isComplete then front + [last] else front
  }

  /** Selecting from a concatenation selects from each part in place: order and repetitions are kept. */
  lemma {:induction false} CompleteTypesAppend(registry: RegistryReads, code: string, a: seq<string>, b: seq<string>)
    ensures CompleteTypes(registry, code, a + b) == CompleteTypes(registry, code, a) + CompleteTypes(registry, code, b)
    decreases |b|
  {
    if |b| == 0 {
      assert a + b == a;
    } else {
      var ab := a + b;
      assert ab[..|ab| - 1] == a + b[..|b| - 1];
      assert ab[|ab| - 1] == b[|b| - 1];
      CompleteTypesAppend(registry, code, a, b[..|b| - 1]);
    }
  }

  /** A single type is kept exactly when its course is complete. */
  lemma CompleteTypesOne(registry: RegistryReads, code: string, x: string)
    ensures CompleteTypes(registry, code, [x]) == if VaccinationStatus(registry, code, x).isComplete then [x] else []
  {
    assert [x][..0] == [];
  }

  function Names(types: seq<VaccineTypeRow>): (r: seq<string>)
    ensures |r| == |types| && forall i :: 0 <= i < |types| ==> r[i] == types[i].name
  {
    seq(|types|, i requires 0 <= i < |types| => types[i].name)
  }

  /** The certificates of the complete courses among `names`, in the order of `names`. */
  function CertificatesOf(registry: RegistryReads, fetch: FetchJson, code: string, names: seq<string>): (r: seq<Certificate>)
    ensures var complete := CompleteTypes(registry, code, names);
      && |r| == |complete|
      && forall i :: 0 <= i < |complete| ==>
           r[i] == ResolveCertificate(registry, fetch, complete[i], VaccinationStatus(registry, code, complete[i]))
  {
    if |names| == 0 then []
    else
      var front := CertificatesOf(registry, fetch, code, names[..|names| - 1]);
      var last := names[|names| - 1];
      var status := VaccinationStatus(registry, code, last);
      if status.isComplete then front + [ResolveCertificate(registry, fetch, last, status)] else front
  }

  /**
   * `getPatientCertificates`: `types` is `None` when the argument is not an array.
   * One certificate per complete course, in the order of the vaccine types.
   */
  method PatientCertificates(registry: RegistryReads, fetch: FetchJson, code: string, types: Option<seq<VaccineTypeRow>>)
    returns (certificates: seq<Certificate>)
    ensures types.None? ==> certificates == []
    ensures types.Some? ==> certificates == CertificatesOf(registry, fetch, code, Names(types.value))
  {
    certificates := [];
    if types.None? {
      return;
    }
    var names := Names(types.value);
    var i := 0;
    while i < |names|
      invariant 0 <= i <= |names|
      invariant certificates == CertificatesOf(registry, fetch, code, names[..i])
    {
      var vaccineType := names[i];
      var status := VaccinationStatus(registry, code, vaccineType);
      assert names[..i + 1][..i] == names[..i];
      if status.isComplete {
        certificates := certificates + [ResolveCertificate(registry, fetch, vaccineType, status)];
      }
      i := i + 1;
    }
    assert names[..|names|] == names;
  }

  /** `getCertificateImageUrl`: the stored image URL, else the rewritten metadata image. */
  function CertificateImageUrl(c: Certificate): (url: Option<string>)
    ensures c.imageUrl.Some? && c.imageUrl.value != "" ==> url == c.imageUrl
    ensures url.Some? && url != c.imageUrl ==>
      c.metadata.Some? && c.metadata.value.image.Some? && url.value == RewriteImage(c.metadata.value.image.value)
    ensures url.None? ==> (c.metadata.None? || c.metadata.value.image.None? || c.metadata.value.image.value == "")
  {
    if c.imageUrl.Some? && c.imageUrl.value != "" then c.imageUrl
    else if c.metadata.Some? && c.metadata.value.image.Some? && c.metadata.value.image.value != ""
    then Some(RewriteImage(c.metadata.value.image.value))
    else None
  }

  /** For a certificate the loop built, `getCertificateImageUrl` returns its stored URL. */
  lemma ImageUrlAgrees(registry: RegistryReads, fetch: FetchJson, vaccineType: string, status: Status)
    requires status.isComplete
    ensures var c := ResolveCertificate(registry, fetch, vaccineType, status);
      CertificateImageUrl(c) == c.imageUrl
  {
    var uri := ReadTokenUri(registry, status.certificateTokenId);
    if uri.Success? {
      var u := uri.value;
      if !(u == "" || Contains(u, FallbackMarker)) && TokenUriHash(u).Some? {
        var h := TokenUriHash(u).value;
        if h != "" && fetch(h).Success? {
          var m := fetch(h).value;
          assert ResolveMetadata(u, fetch) ==
            if m.Some? && m.value.image.Some? && m.value.image.value != ""
            then (m, Some(RewriteImage(m.value.image.value)))
            else (m, None);
        }
      }
    }
  }

  // ---------------------------------------------------------------- MAPI text

  const Keywords := ["MPOX", "COVID", "HEPATITIS", "INFLUENZA"]

  /** The position of the first keyword, in priority order, found in the upper-cased description. */
  function FirstKeyword(upper: string, keywords: seq<string>): (r: Option<nat>)
    ensures r.Some? ==>
      && r.value < |keywords| && Contains(upper, keywords[r.value])
      && forall j :: 0 <= j < r.value ==> !Contains(upper, keywords[j])
    ensures r.None? <==> forall j :: 0 <= j < |keywords| ==> !Contains(upper, keywords[j])
    decreases |keywords|
  {
    if |keywords| == 0 then None
    else if Contains(upper, keywords[0]) then Some(0)
    else
      match FirstKeyword(upper, keywords[1..])
      case None => None
      case Some(k) => Some(k + 1)
  }

  /** `extractVaccineTypeFromDescription` */
  function ExtractVaccineType(description: string): (r: string)
    ensures ':' in description ==> r == Trim(Before(description, ":"))
    ensures ':' !in description ==>
      || (exists k :: 0 <= k < |Keywords| && r == Keywords[k] && Contains(ToUpper(description), r)
            && forall j :: 0 <= j < k ==> !Contains(ToUpper(description), Keywords[j]))
      || (r == Unknown && forall j :: 0 <= j < |Keywords| ==> !Contains(ToUpper(description), Keywords[j]))
  {
    ContainsChar(description, ':');
    if Contains(description, ":") then Trim(Before(description, ":"))
    else
      var k := FirstKeyword(ToUpper(description), Keywords);
      if k.Some? then Keywords[k.value] else Unknown
  }

  /** The text before the first ':' is found whatever follows it. */
  lemma BeforeFirstColon(a: string, b: string)
    requires ':' !in a
    ensures Before(a + ":" + b, ":") == a
    ensures ':' in a + ":" + b
  {
    SplitAtFirst(a, ':', b);
    assert (a + ":" + b)[|a|] == ':';
  }

  // ---------------------------------------------------------------- history

  /** `new Date(entry.date)` in milliseconds; a null date is the epoch. */
  function EntryTime(e: HistoryEntry): int {
    match e
    case DoseEntry(_, _, _, date, _, _) => if date.Some? then date.value else 0
    case MapiEntry(_, _, _, date) => date
  }

  /** The comparator `(a, b) => new Date(b.date) - new Date(a.date)`: newest first. */
  function NewestFirst(a: HistoryEntry, b: HistoryEntry): int {
    EntryTime(b) - EntryTime(a)
  }

  lemma NewestFirstConsistent()
    ensures Sorting.Consistent(NewestFirst)
  {
  }

  /** The dose entries of one vaccine type, numbered from 1 in administration order. */
  function DoseEntries(patientId: nat, vaccineType: string, doses: seq<Dose>): (r: seq<HistoryEntry>)
    ensures |r| == |doses|
    ensures forall i :: 0 <= i < |doses| ==>
      r[i] == DoseEntry(patientId, vaccineType, i + 1, doses[i].dateMs, doses[i].centerId, doses[i].batchNumber)
  {
    seq(|doses|, i requires 0 <= i < |doses| =>
      DoseEntry(patientId, vaccineType, i + 1, doses[i].dateMs, doses[i].centerId, doses[i].batchNumber))
  }

  /** The dose entries of all vaccine types, type after type. */
  function AllDoseEntries(registry: RegistryReads, code: string, patientId: nat, names: seq<string>): (r: seq<HistoryEntry>)
  {
    if |names| == 0 then []
    else
      var last := names[|names| - 1];
      AllDoseEntries(registry, code, patientId, names[..|names| - 1])
        + DoseEntries(patientId, last, VaccinationStatus(registry, code, last).administeredDoses)
  }

  function MapiEntries(patientId: nat, events: seq<MapiEvent>): (r: seq<HistoryEntry>)
    ensures |r| == |events|
    ensures forall i :: 0 <= i < |events| ==>
      r[i] == MapiEntry(patientId, events[i].vaccineType, events[i].description, events[i].dateMs)
  {
    seq(|events|, i requires 0 <= i < |events| =>
      MapiEntry(patientId, events[i].vaccineType, events[i].description, events[i].dateMs))
  }

  /** The inner loop over one vaccine type's doses, numbering them from 1. */
  method AppendDoseEntries(entries: seq<HistoryEntry>, patientId: nat, vaccineType: string, doses: seq<Dose>)
    returns (out: seq<HistoryEntry>)
    ensures out == entries + DoseEntries(patientId, vaccineType, doses)
  {
    out := entries;
    var j := 0;
    while j < |doses|
      invariant 0 <= j <= |doses|
      invariant out == entries + DoseEntries(patientId, vaccineType, doses[..j])
    {
      out := out + [DoseEntry(patientId, vaccineType, j + 1, doses[j].dateMs, doses[j].centerId, doses[j].batchNumber)];
      j := j + 1;
    }
    assert doses[..|doses|] == doses;
  }

  /** The loop over the adverse events. */
  method AppendMapiEntries(entries: seq<HistoryEntry>, patientId: nat, events: seq<MapiEvent>)
    returns (out: seq<HistoryEntry>)
    ensures out == entries + MapiEntries(patientId, events)
  {
    out := entries;
    var k := 0;
    while k < |events|
      invariant 0 <= k <= |events|
      invariant out == entries + MapiEntries(patientId, events[..k])
    {
      var e := events[k];
      out := out + [MapiEntry(patientId, e.vaccineType, e.description, e.dateMs)];
      k := k + 1;
    }
    assert events[..|events|] == events;
  }

  /**
   * `getPatientVaccinationHistory`: the doses of every vaccine type and the adverse
   * events `mapiEvents` (what `getPatientMAPIEvents` returned), newest first. An
   * unknown patient, or a failed patient read, gives the empty history.
   */
  method VaccinationHistory(registry: RegistryReads, code: string, types: seq<VaccineTypeRow>, mapiEvents: seq<MapiEvent>)
    returns (history: seq<HistoryEntry>)
    ensures registry.patientInfo(code).Failure? || !registry.patientInfo(code).value.present ==> history == []
    ensures registry.patientInfo(code).Success? && registry.patientInfo(code).value.present ==>
      var id := registry.patientInfo(code).value.patientId;
      && multiset(history) == multiset(AllDoseEntries(registry, code, id, Names(types)) + MapiEntries(id, mapiEvents))
      && Sorting.SortedBy(history, NewestFirst)
  {
    var info := registry.patientInfo(code);
    if info.Failure? || !info.value.present {
      return [];
    }
    var patientId := info.value.patientId;
    var entries: seq<HistoryEntry> := [];
    var names := Names(types);
    var i := 0;
    while i < |names|
      invariant 0 <= i <= |names|
      invariant entries == AllDoseEntries(registry, code, patientId, names[..i])
    {
      var vaccineType := names[i];
      var doses := VaccinationStatus(registry, code, vaccineType).administeredDoses;
      entries := AppendDoseEntries(entries, patientId, vaccineType, doses);
      assert names[..i + 1][..i] == names[..i];
      i := i + 1;
    }
    assert names[..|names|] == names;
    entries := AppendMapiEntries(entries, patientId, mapiEvents);
    history := Sorting.Sort(entries, NewestFirst);
    NewestFirstConsistent();
    Sorting.SortSorts(entries, NewestFirst);
  }

  // ---------------------------------------------------------------- vaccine types

  /** `localeCompare`, taken here as the code-point order of the two names. */
  function CompareTypes(a: VaccineTypeRow, b: VaccineTypeRow): int {
    CompareStrings(a.name, b.name)
  }

  function Existing(rows: seq<VaccineTypeRow>): (r: seq<VaccineTypeRow>)
    ensures forall x :: x in r <==> x in rows && x.present
    ensures multiset(r) <= multiset(rows)
  {
    if |rows| == 0 then []
    else
      assert rows == [rows[0]] + rows[1..];
      (if rows[0].present then [rows[0]] else []) + Existing(rows[1..])
  }

  /** Filtering a concatenation filters each part in place: order and repetitions are kept. */
  lemma {:induction false} ExistingAppend(a: seq<VaccineTypeRow>, b: seq<VaccineTypeRow>)
    ensures Existing(a + b) == Existing(a) + Existing(b)
    decreases |a|
  {
    if |a| > 0 {
      assert (a + b)[1..] == a[1..] + b;
      ExistingAppend(a[1..], b);
    } else {
      assert a + b == b;
    }
  }

  /** A single row is kept exactly when it exists. */
  lemma ExistingOne(x: VaccineTypeRow)
    ensures Existing([x]) == if x.present then [x] else []
  {
    assert [x][1..] == [];
  }

  /** `getAllVaccinationTypes`: the existing types sorted by name; `[]` when the read fails. */
  function AllVaccinationTypes(read: Result<seq<VaccineTypeRow>, ChainError>): (r: seq<VaccineTypeRow>)
    ensures read.Failure? ==> r == []
    ensures read.Success? ==> multiset(r) == multiset(Existing(read.value)) && Sorting.SortedBy(r, CompareTypes)
    ensures forall x :: x in r ==> x.present
  {
    match read
    case Failure(_) => []
    case Success(rows) =>
      var r := Sorting.Sort(Existing(rows), CompareTypes);
      CompareStringsConsistent();
      Sorting.SortSorts(Existing(rows), CompareTypes);
      assert forall x :: x in r ==> x in multiset(Existing(rows));
      r
  }

  lemma CompareStringsConsistent()
    ensures Sorting.Consistent(CompareTypes)
  {
    forall a, b ensures CompareTypes(a, b) < 0 <==> CompareTypes(b, a) > 0 {
      CompareAntisymmetric(a.name, b.name);
    }
    forall a, b, c | CompareTypes(a, b) <= 0 && CompareTypes(b, c) <= 0 ensures CompareTypes(a, c) <= 0 {
      CompareTransitive(a.name, b.name, c.name);
    }
  }

  /**
   * `checkVaccinationTypeExists`: the `exists` flag read under the keccak id; a
   * not-found error or a backend error answers false, any other error is rethrown.
   */
  function VaccinationTypeExists(registry: RegistryReads, vaccineType: string): (r: Result<bool, ChainError>)
    ensures registry.typeInfo(Keccak(vaccineType)).Success? ==> r == Success(registry.typeInfo(Keccak(vaccineType)).value.present)
    ensures r.Failure? ==>
      && registry.typeInfo(Keccak(vaccineType)) == Failure(r.error)
      && !Contains(r.error.message, "VaccinationTypeNotFound") && r.error.errorName != "VaccinationTypeNotFound"
      && !Contains(r.error.message, "bad result from backend") && r.error.code != "SERVER_ERROR"
    ensures registry.typeInfo(Keccak(vaccineType)).Failure? ==>
      var e := registry.typeInfo(Keccak(vaccineType)).error;
      && (Contains(e.message, "VaccinationTypeNotFound") || e.errorName == "VaccinationTypeNotFound" ==> r == Success(false))
      && (Contains(e.message, "bad result from backend") || e.code == "SERVER_ERROR" ==> r == Success(false))
      && ((&& !Contains(e.message, "VaccinationTypeNotFound") && e.errorName != "VaccinationTypeNotFound"
           && !Contains(e.message, "bad result from backend") && e.code != "SERVER_ERROR") ==> r == Failure(e))
  {
    match registry.typeInfo(Keccak(vaccineType))
    case Success(info) => Success(info.present)
    case Failure(e) =>
      if Contains(e.message, "VaccinationTypeNotFound") || e.errorName == "VaccinationTypeNotFound" then Success(false)
      else if Contains(e.message, "bad result from backend") || e.code == "SERVER_ERROR" then Success(false)
      else Failure(e)
  }
}
