# Vaccinal dashboard model

Vaccinal is a browser dashboard for a vaccination programme whose records live on chain.
A registry contract holds patients, vaccine types, administered doses, certificates (as
NFTs) and adverse-event declarations (MAPI). A stock contract holds centres and the vaccine
stock of each centre. A governor contract and its token run proposals and votes.

This project models the dashboard's own logic, the part that sits between the raw
contract and IPFS reads and what the screens show:

- the decoding of vaccination statuses and the certificate and history lists built from them;
- the form-side rules of the registry screen;
- the stock dashboard's statistics, filter, sort and pagination;
- the governance screen's description, action arrays, badges, countdown and vote gate,
  and the governance service's listing, creation checks, gas buffer and vote dispatch;
- role identifiers, role checks and permissions;
- the address validators and formatters, and the network check;
- the two stateful hooks: the home dashboard's totals and the governance-token balance.

Every contract, wallet or gateway read is a parameter: a function or a value of type
`Result` or `Option`, so a failed read is an input like any other. `keccak256` of a role or
vaccine-type name is the symbolic constructor `Keccak(name)` of `Chain.Hash`. Time
(`Date.now()`) is a parameter too.

Code that computes a value is modelled as functions with lemmas. Code that updates React
state or builds a list in a loop is modelled as classes and methods, each proved against
a specification function.

Modules, one per source file plus helpers:

| file | models |
|---|---|
| wrappers.dfy | `Option` and `Result` |
| strings.dfy | the JavaScript string operations the code relies on |
| chain.dfy | the error record, symbolic hashes, `BigNumber.toNumber` |
| sorting.dfy | `Array.prototype.sort`, as a stable insertion sort under a consistent comparator |
| registry.dfy | services/contracts/vaccineRegistry.js |
| registry_form.dfy | components/VaccineRegistryForm.jsx |
| stock_dashboard.dfy | components/StockDashboard.jsx |
| dao_service.dfy | services/contracts/vaccineDAO.js |
| dao_governance.dfy | components/DAOGovernance.jsx |
| roles.dfy | services/contracts/roleManagement.js |
| role_content.dfy | components/RoleBasedContent.jsx |
| vaccine_progress.dfy | components/VaccineProgress.jsx |
| contract_management.dfy | components/ContractManagement.jsx |
| configuration.dfy | components/ConfigurationManagement.jsx |
| blockchain.dfy | services/blockchain.js |
| dashboard_data.dfy | hooks/useDashboardData.ts |
| vgov_balance.dfy | hooks/useVGOVBalance.js |

## Model

| member | source | states |
|---|---|---|
| Chain.ToNumber | services/contracts/vaccineRegistry.js:440 | `toNumber` returns the value when it is at most 2^53 − 1 and fails above it |
| Strings.ShortAddress | components/VaccineRegistryForm.jsx:972-974 | the first six characters, `...`, then the last four; the lengths and both ends are stated, including short inputs |
| Strings.ParseInt | services/blockchain.js:46-50 | after leading blanks and an optional sign, a `0x`/`0X` prefix selects base 16, else base 10; NaN (`None`) iff no digit of that base follows; otherwise the sign times the value of the longest run of digits |
| Strings.ParseIntHex | services/blockchain.js:46-50 | '0x' and the hexadecimal digits of any natural, followed by any non-hex-digit text, parse back to that natural |
| Strings.ParseIntDecimal | services/blockchain.js:46-50 | the decimal text of any natural, followed by any text that neither continues the digits nor forms a '0x' prefix, parses back to that natural |
| Sorting.Sort | components/StockDashboard.jsx:138-164 | the sort used by every in-place `sort` returns a permutation of its input |
| Sorting.SortSorts | components/StockDashboard.jsx:138-164 | under a consistent comparator the result is sorted |
| Sorting.NegatedConsistent | components/StockDashboard.jsx:160-161 | negating a consistent comparator gives a consistent comparator |
| Registry.OrUnknown | services/contracts/vaccineRegistry.js:456-457 | `value \|\| 'Inconnu'`: 'Inconnu' exactly for a missing or empty value, otherwise the value itself |
| Registry.FormatDoses | services/contracts/vaccineRegistry.js:452-459 | the doses are formatted one by one, length and order kept; the map fails exactly when one dose fails |
| Registry.DecodeStatus | services/contracts/vaccineRegistry.js:424-481 | `doseCount` equals the number of doses; a failed read, a token id above 2^53 − 1 or a dose that fails to convert gives the zero status; a non-zero status carries the read's completion flag, token id (0 when absent) and one dose per raw dose |
| Registry.FormatDoseFields | services/contracts/vaccineRegistry.js:455-457 | centre and batch default to 'Inconnu'; no timestamp gives a null date; otherwise the date is the timestamp × 1000 |
| Registry.DecodeKeepsDoses | services/contracts/vaccineRegistry.js:439-466 | without overflow, the decoded status keeps every raw dose in order, with the token id and completion flag |
| Registry.TokenUriHash | services/contracts/vaccineRegistry.js:1109-1115 | `ipfs://H` gives H; otherwise a hash exists exactly when the URI contains `/ipfs/` |
| Registry.RewriteImage | services/contracts/vaccineRegistry.js:1119-1125 | an `ipfs://H` image becomes the Pinata gateway URL for H; any other image is kept |
| Registry.GatewayPathHash | services/contracts/vaccineRegistry.js:1112-1114 | for a gateway URI `prefix/ipfs/H`, the extracted hash is H |
| Registry.ResolveMetadata | services/contracts/vaccineRegistry.js:1109-1127 | an image URL exists only when the metadata has an image, and it is the rewritten image |
| Registry.ResolveCertificate | services/contracts/vaccineRegistry.js:1089-1144 | the certificate carries the vaccine type, token id and dose count; `hasMetadata` and `hasImage` match their fields; metadata failures only clear them |
| Registry.TokenZeroFallback | services/contracts/vaccineRegistry.js:1095-1101 | token 0 without a URI keeps the placeholder URI and fetches no metadata |
| Registry.CompleteTypes | services/contracts/vaccineRegistry.js:1081-1088 | exactly the listed types whose status is complete |
| Registry.CompleteTypesAppend | services/contracts/vaccineRegistry.js:1081-1088 | selecting from a concatenation selects from each part: the input order and repetitions are kept |
| Registry.CompleteTypesOne | services/contracts/vaccineRegistry.js:1081-1088 | a single type is kept iff its course is complete |
| Registry.Names | services/contracts/vaccineRegistry.js:1078 | the names of the vaccine types, in order |
| Registry.CertificatesOf | services/contracts/vaccineRegistry.js:1081-1146 | one certificate per complete type, in input order, each resolved for that type |
| Registry.PatientCertificates | services/contracts/vaccineRegistry.js:1067-1152 | a non-array type list gives []; otherwise the loop builds exactly `CertificatesOf` |
| Registry.CertificateImageUrl | services/contracts/vaccineRegistry.js:1428-1443 | a stored image URL wins; otherwise the rewritten metadata image; otherwise null |
| Registry.ImageUrlAgrees | services/contracts/vaccineRegistry.js:1428-1443 | for a certificate the loop built, `getCertificateImageUrl` returns its stored URL |
| Registry.FirstKeyword | services/contracts/vaccineRegistry.js:1548-1553 | the first keyword, in priority order, that occurs; none exactly when no keyword occurs |
| Registry.ExtractVaccineType | services/contracts/vaccineRegistry.js:1542-1556 | with a ':' the trimmed text before the first ':'; otherwise the first of MPOX, COVID, HEPATITIS, INFLUENZA found case-insensitively; otherwise 'Inconnu' |
| Registry.BeforeFirstColon | services/contracts/vaccineRegistry.js:1543-1544 | the text before the first ':' is recovered whatever follows it |
| Registry.NewestFirstConsistent | services/contracts/vaccineRegistry.js:1623 | the date comparator of the history sort is consistent |
| Registry.DoseEntries | services/contracts/vaccineRegistry.js:1587-1598 | one 'dose' entry per dose, numbered 1..n, with the dose's date, centre and batch |
| Registry.MapiEntries | services/contracts/vaccineRegistry.js:1608-1617 | one 'mapi' entry per event, with its vaccine type, description and date |
| Registry.AppendDoseEntries | services/contracts/vaccineRegistry.js:1587-1598 | the dose loop appends exactly the numbered entries of one vaccine type |
| Registry.AppendMapiEntries | services/contracts/vaccineRegistry.js:1608-1617 | the MAPI loop appends exactly one entry per event, in order |
| Registry.VaccinationHistory | services/contracts/vaccineRegistry.js:1566-1631 | [] for an unknown patient; otherwise a permutation of the dose entries then the MAPI entries, sorted newest first |
| Registry.Existing | services/contracts/vaccineRegistry.js:1034 | keeps exactly the rows marked as existing |
| Registry.ExistingAppend | services/contracts/vaccineRegistry.js:1034 | filtering a concatenation filters each part: the input order and repetitions are kept |
| Registry.ExistingOne | services/contracts/vaccineRegistry.js:1034 | a single row is kept iff it exists |
| Registry.AllVaccinationTypes | services/contracts/vaccineRegistry.js:1025-1040 | [] on a failed read; otherwise a permutation of the existing rows sorted by name |
| Registry.CompareStringsConsistent | services/contracts/vaccineRegistry.js:1034 | the name comparator is consistent |
| Registry.VaccinationTypeExists | services/contracts/vaccineRegistry.js:111-131 | the `exists` flag of the type read under the name's keccak id; a not-found or backend error gives `Success(false)`; any other error is rethrown unchanged |
| RegistryForm.FilterPatients | components/VaccineRegistryForm.jsx:963-967 | keeps a patient iff the lower-cased term occurs in its lower-cased code, category or address |
| RegistryForm.FilterAppend | components/VaccineRegistryForm.jsx:963-967 | filtering commutes with concatenation, so the order is kept |
| RegistryForm.EmptyTermKeepsAll | components/VaccineRegistryForm.jsx:963-967 | an empty term keeps every patient, in order |
| RegistryForm.CellOf | components/VaccineRegistryForm.jsx:510-525 | a failed read gives the empty cell; the dose count is the number of administered doses |
| RegistryForm.MatrixComplete | components/VaccineRegistryForm.jsx:502-533 | every patient × vaccine-type pair has its cell, equal to `CellOf` |
| RegistryForm.FindType | components/VaccineRegistryForm.jsx:795 | the first vaccine type with that name; none exactly when no type has it |
| RegistryForm.LastDoseDue | components/VaccineRegistryForm.jsx:795-803 | due iff the type is known and the current dose count + 1 reaches its required doses, a missing cell counting 0 |
| RegistryForm.LastDoseAsWrittenDisagrees | components/VaccineRegistryForm.jsx:795-803 | as written, with numeric required doses the second dose of a two-dose course is missed, and with `BigNumber` required doses the section shows on the first dose of a three-dose course |
| RegistryForm.AsWrittenBigNumberAlwaysShows | components/VaccineRegistryForm.jsx:797 | as written, with `BigNumber` required doses every patient who has a progress cell sees the last-dose section, whatever the count |
| RegistryForm.ObjectTextAboveDigits | components/VaccineRegistryForm.jsx:797 | the string '[object Object]1' never compares below the decimal text of a number |
| RegistryForm.MapiText | components/VaccineRegistryForm.jsx:457-461 | the text is the vaccine type, ': ', then the description |
| RegistryForm.MapiRoundTrip | components/VaccineRegistryForm.jsx:457-461 | for a type without ':', the registry's parser returns the trimmed type |
| RegistryForm.DefaultMapiVaccine | components/VaccineRegistryForm.jsx:397-404 | the first certificate's type, else the first configured type, else '' |
| RegistryForm.UriHash | components/VaccineRegistryForm.jsx:298-308 | strips `ipfs://`; else takes the last '/'-segment when the URI contains 'ipfs'; else no hash |
| RegistryForm.UriHashLastSegment | components/VaccineRegistryForm.jsx:301-305 | a gateway URI ending in `/H` gives H |
| RegistryForm.CertificateImage | components/VaccineRegistryForm.jsx:296-340 | no hash fails with 'Invalid IPFS URI'; a failed metadata read rethrows its message; no image gives 'No image in metadata'; an image without a hash gives 'Invalid image IPFS URI'; a gateway fetch that rejects rethrows the network error's message; a response that is not ok gives 'Failed to fetch image from IPFS'; otherwise the image's gateway URL |
| RegistryForm.DoseRegistration | components/VaccineRegistryForm.jsx:1015-1057 | no call unless the signer and the four required fields are present; on the last dose with no URI typed and the generate option or a chosen image, the uploaded URI is sent, or the upload's error is thrown; otherwise the typed URI |
| RegistryForm.TypedUriKept | components/VaccineRegistryForm.jsx:1027-1056 | a typed metadata URI is always the one sent, never replaced by an upload |
| RegistryForm.Codes | components/VaccineRegistryForm.jsx:507 | the patients' codes, in order |
| RegistryForm.FormState.constructor | components/VaccineRegistryForm.jsx:44-140 | empty progress, hidden metadata section, empty MAPI form |
| RegistryForm.LoadRow | components/VaccineRegistryForm.jsx:506-532 | one patient's row holds exactly one cell per vaccine type, each the registry's status for that pair (an empty cell for a failed read) |
| RegistryForm.FormState.LoadVaccineProgress | components/VaccineRegistryForm.jsx:485-542 | nothing changes without a signer, patients or types, or when the registry handle cannot be built; otherwise progress becomes `ProgressMatrix` of the patients' codes |
| RegistryForm.FormState.CheckIfLastDose | components/VaccineRegistryForm.jsx:792-807 | with a code and a type, the metadata section is shown iff `LastDoseDue`; otherwise unchanged |
| RegistryForm.FormState.DeclareMapi | components/VaccineRegistryForm.jsx:393-405 | opens the form on `DefaultMapiVaccine` with an empty description |
| RegistryForm.FormState.SubmitMapi | components/VaccineRegistryForm.jsx:445-479 | sends `MapiText` iff there is a signer, a selected patient and a registry handle; resets the form only after a successful declaration |
| StockDashboard.StockKey | components/StockDashboard.jsx:108 | the key is the centre, '_', then the type |
| StockDashboard.StockKeyCollides | components/StockDashboard.jsx:108 | two different (centre, type) pairs share one key |
| StockDashboard.PairKeysIsolate | components/StockDashboard.jsx:104-110 | keyed by the pair, writing one pair's stock leaves every other pair unchanged |
| StockDashboard.ConfiguredStocks | components/StockDashboard.jsx:119 | at most one stock per type; all types configured iff one stock per type |
| StockDashboard.ConfiguredStocksArePresentCells | components/StockDashboard.jsx:119 | the configured stocks are the `map` of the types to their cells followed by `filter(Boolean)`, in type order |
| StockDashboard.ConfiguredStocksMembers | components/StockDashboard.jsx:119 | a stock is among the configured ones iff some type's cell holds it |
| StockDashboard.CountLow | components/StockDashboard.jsx:120 | the count of low stocks is at most the number of stocks |
| StockDashboard.CountLowCountsLow | components/StockDashboard.jsx:120 | the count equals the number of positions whose stock is at or below its threshold |
| StockDashboard.CenterStats | components/StockDashboard.jsx:118-128 | alerts ≤ configured ≤ number of types; all configured iff every type has a stock; nothing configured gives a total of 0 |
| StockDashboard.CenterStatsCounts | components/StockDashboard.jsx:118-128 | for any stock data: `configured` is the number of types with a stock, `alerts` the number of types whose cell is critical, `totalStock` the sum of every cell's quantity with null cells adding 0 |
| StockDashboard.IsCritical | components/StockDashboard.jsx:497 | critical iff a stock exists at or below its threshold; an empty stock is critical |
| StockDashboard.RemoveDisabled | components/StockDashboard.jsx:565 | 'Retirer 1' is disabled while loading, otherwise exactly at quantity 0 |
| StockDashboard.AlertsAreCriticalCells | components/StockDashboard.jsx:118-128 | the alert count equals the number of highlighted cells of the card |
| StockDashboard.FilterCenters | components/StockDashboard.jsx:134-136 | keeps a centre iff the lower-cased term occurs in its lower-cased id |
| StockDashboard.EmptySearchKeepsAll | components/StockDashboard.jsx:134-136 | an empty search keeps every centre in order |
| StockDashboard.DescReversesAsc | components/StockDashboard.jsx:142-161 | 'desc' is exactly the negation of the 'asc' comparison |
| StockDashboard.ComparisonConsistent | components/StockDashboard.jsx:142-159 | each sort key gives a consistent comparison |
| StockDashboard.CenterOrderConsistent | components/StockDashboard.jsx:142-161 | the comparator handed to `sort` is consistent in both orders |
| StockDashboard.FilteredAndSorted | components/StockDashboard.jsx:133-165 | a permutation of the filtered centres, sorted by the chosen key and order |
| StockDashboard.Slice | components/StockDashboard.jsx:172-174 | `slice` with the bounds clamped to the list |
| StockDashboard.PageCount | components/StockDashboard.jsx:177 | the ceiling of n/6 |
| StockDashboard.Paginate | components/StockDashboard.jsx:170-180 | the total and page count of the list; at most six centres per page; a page in range is never empty |
| StockDashboard.PagesUpToPrefix | components/StockDashboard.jsx:170-180 | pages 1..k are the first 6k centres |
| StockDashboard.PagesCoverList | components/StockDashboard.jsx:170-180 | pages 1..totalPages together give back the whole list |
| StockDashboard.PageWindow | components/StockDashboard.jsx:624-635 | min(5, totalPages) consecutive numbers within 1..totalPages, including the current page when it is in range |
| StockDashboard.PreviousPage | components/StockDashboard.jsx:615 | one page back, never below 1 |
| StockDashboard.NextPage | components/StockDashboard.jsx:653 | one page on, never past the last page |
| StockDashboard.NavigationStaysInRange | components/StockDashboard.jsx:615-654 | from a page in range, previous and next stay in range |
| StockDashboard.DashboardState.constructor | components/StockDashboard.jsx:40-60 | sorted by name ascending, on page 1, no stocks |
| StockDashboard.DashboardState.HandleSort | components/StockDashboard.jsx:185-193 | the same key toggles the order; a new key sorts ascending; both go back to page 1 |
| StockDashboard.DashboardState.FetchStock | components/StockDashboard.jsx:99-115 | without a signer or a stock contract handle nothing changes; otherwise the entry of the (centre, type) pair is replaced and every other pair keeps its entry (pair keys, see Left out) |
| StockDashboard.DashboardState.GoToPage | components/StockDashboard.jsx:615-654 | only the current page changes |
| StockDashboard.DashboardState.SetSearchTerm | components/StockDashboard.jsx:274-277 | a new search term sends the list back to page 1; sort and stocks unchanged |
| DashboardData.DosesTotalSplits | hooks/useDashboardData.ts:59-74 | the dose total over two groups of patients is the sum of their totals |
| DashboardData.UnreadableStatusesCountZero | hooks/useDashboardData.ts:59-74 | when no status can be read, no dose is counted |
| DashboardData.UnreadablePatientZero | hooks/useDashboardData.ts:61-72 | the same for one patient |
| DashboardData.StockDataOf | components/StockDashboard.jsx:104-110 | the stock map after reading every centre × type pair holds each pair's read |
| DashboardData.CenterUnitsIsCardTotal | hooks/useDashboardData.ts:77-90 | a centre's units in the total equal the total stock its stock-dashboard card shows for the same reads |
| DashboardData.Dashboard.constructor | hooks/useDashboardData.ts:28-35 | all totals 0, not loading, no error |
| DashboardData.Dashboard.CountDoses | hooks/useDashboardData.ts:59-74 | the nested loop computes the sum of the administered doses over patients × types |
| DashboardData.Dashboard.CountUnits | hooks/useDashboardData.ts:77-90 | the nested loop computes the sum of the quantities over centres × types, null stocks adding 0 |
| DashboardData.Dashboard.Record | hooks/useDashboardData.ts:92-99 | the four totals set as given, loading and error cleared |
| DashboardData.Dashboard.FetchDashboardData | hooks/useDashboardData.ts:38-107 | disconnected: totals unchanged; a contract handle that cannot be built: the error text with totals unchanged (the patient and centre reads answer `[]` on a revert); otherwise the list lengths and the two sums; never left loading |
| DaoService.ProposalStatesTable | services/contracts/vaccineDAO.js:571-580 | the state table has exactly the keys 0..7, with eight different labels |
| DaoService.VoteTypesTable | services/contracts/vaccineDAO.js:582-586 | AGAINST = 0, FOR = 1, ABSTAIN = 2, and no two share a value |
| DaoService.ProposalCount | services/contracts/vaccineDAO.js:60-68 | a failed read gives 0; the count when it fits a number; 0 for a count above 2^53 − 1 |
| DaoService.ProposalState | services/contracts/vaccineDAO.js:415-428 | a failed read gives 2 (Canceled) |
| DaoService.ProposalVotes | services/contracts/vaccineDAO.js:430-453 | a failed read gives '0' for all three totals |
| DaoService.HasVoted | services/contracts/vaccineDAO.js:455-468 | a failed read gives false |
| DaoService.VotingPower | services/contracts/vaccineDAO.js:470-485 | a failed read gives '0' |
| DaoService.ProposalDeadline | services/contracts/vaccineDAO.js:487-500 | a failed read gives 0; the deadline when it fits a number; 0 for a deadline above 2^53 − 1 |
| DaoService.Quorum | services/contracts/vaccineDAO.js:502-517 | a failed read gives '0' |
| DaoService.ProposalThreshold | services/contracts/vaccineDAO.js:561-569 | a failed read gives '0' |
| DaoService.ProposalById | services/contracts/vaccineDAO.js:76-95 | a failed read or a block number above 2^53 − 1 throws; otherwise the proposer, description, start and end under its id, with its state and tally read by the fallback helpers |
| DaoService.ReadableUpToContents | services/contracts/vaccineDAO.js:107-127 | exactly the ids 1..n whose read succeeds are listed, each with its own proposal |
| DaoService.LatestStartFirstConsistent | services/contracts/vaccineDAO.js:129 | the voteStart comparator is consistent |
| DaoService.SortLatestFirst | services/contracts/vaccineDAO.js:129 | a permutation sorted by voteStart, latest first |
| DaoService.AllProposals | services/contracts/vaccineDAO.js:102-134 | a permutation of the readable proposals 1..count sorted latest first; a failed count gives [] |
| DaoService.OrZero | services/contracts/vaccineDAO.js:159 | `v \|\| '0'` is never empty and keeps a non-empty value |
| DaoService.FirstFailing | services/contracts/vaccineDAO.js:157-170 | the first element that fails the check; none iff all pass |
| DaoService.GasLimit | services/contracts/vaccineDAO.js:259 | estimate × 150 / 100 in integers, between the estimate and 1.5 times it |
| DaoService.ReasonOrMessage | services/contracts/vaccineDAO.js:237 | the reason when there is one, else the message |
| DaoService.ProposalMessage | services/contracts/vaccineDAO.js:316-322 | the threshold, identical-proposal and execution-reverted messages, each when the earlier patterns are absent; other messages unchanged |
| DaoService.ValidationError | services/contracts/vaccineDAO.js:148-170 | none iff the inputs are valid; the fixed messages for empty targets and unequal lengths; with the right shape, 'Valeur invalide: ' and the first failing value, or, all values passing, 'Adresse cible invalide: ' and the first failing target |
| DaoService.ContentError | services/contracts/vaccineDAO.js:157-170 | none iff every value parses and every target is an address; otherwise 'Valeur invalide: ' and the first failing value, or, all values passing, 'Adresse cible invalide: ' and the first failing target |
| DaoService.ValidationErrorNames | services/contracts/vaccineDAO.js:157-170 | when the shape is right, an error names a value that fails the number check or a target that fails the address check |
| DaoService.VotingCheckError | services/contracts/vaccineDAO.js:179-224 | no error iff the check passes; 'Voting power insuffisant' when power is below the threshold; a failed read's reason or message, unless it is a call exception |
| DaoService.StaticCallFailure | services/contracts/vaccineDAO.js:235-238 | the fixed prefix 'La proposition échouerait: ' followed by the failure's reason, or by its message when there is no reason |
| DaoService.BufferedGas | services/contracts/vaccineDAO.js:240-259 | the estimate plus 50%, or the 1M fallback plus 50% when estimation fails |
| DaoService.SendChecked | services/contracts/vaccineDAO.js:227-278 | the static call comes first; its failure stops everything with that message; otherwise `propose` is sent with the buffered gas, giving that limit, or the friendlier reason or message of its failure |
| DaoService.CreateProposal | services/contracts/vaccineDAO.js:145-326 | invalid inputs fail before any call; the voting-power check comes first and its refusal stops with its message; a failing static call stops before estimation; a failing `propose` gives its friendlier reason or message after the four calls; success sends the buffered gas limit |
| DaoService.VoteCallFor | services/contracts/vaccineDAO.js:339-343 | `castVoteWithReason` iff the reason is non-empty, with the same id and support |
| DaoService.VoteMessage | services/contracts/vaccineDAO.js:353-362 | the two fixed messages for an inactive vote and a repeated vote; other messages unchanged |
| DaoService.CastVoteOutcome | services/contracts/vaccineDAO.js:336-366 | the call sent, or the translated message of its failure |
| DaoGovernance.ExtractTitle | components/DAOGovernance.jsx:131-134 | never empty: the first line or the placeholder |
| DaoGovernance.ExtractBody | components/DAOGovernance.jsx:136-139 | never empty: the lines from the third on, or the placeholder |
| DaoGovernance.OneLineDescription | components/DAOGovernance.jsx:131-139 | a one-line description is all title and shows the placeholder body |
| DaoGovernance.DescriptionRoundTrip | components/DAOGovernance.jsx:131-139 | a title without '\n' and a non-empty body, joined by a blank line, split back into that title and body |
| DaoGovernance.NonBlank | components/DAOGovernance.jsx:252 | no longer than the input, and every kept target is non-blank |
| DaoGovernance.NonBlankAppend | components/DAOGovernance.jsx:252 | filtering a concatenation filters each part: the input order and repetitions are kept |
| DaoGovernance.NonBlankOne | components/DAOGovernance.jsx:252 | a single target is kept iff it is not blank |
| DaoGovernance.NonBlankKeeps | components/DAOGovernance.jsx:252 | a target is kept iff it is in the input and not blank |
| DaoGovernance.Meaningful | components/DAOGovernance.jsx:254 | no longer than the input, and no kept calldata is '' or '0x' |
| DaoGovernance.MeaningfulAppend | components/DAOGovernance.jsx:254 | filtering a concatenation filters each part: the input order and repetitions are kept |
| DaoGovernance.MeaningfulOne | components/DAOGovernance.jsx:254 | a single calldata is kept iff it is neither '' nor '0x' |
| DaoGovernance.MeaningfulKeeps | components/DAOGovernance.jsx:254 | a calldata is kept iff it is in the input and is neither '' nor '0x' |
| DaoGovernance.ZeroDefaults | components/DAOGovernance.jsx:253 | each empty value becomes '0' |
| DaoGovernance.Pad | components/DAOGovernance.jsx:265-267 | n entries, each the list's entry when non-empty, else the default |
| DaoGovernance.NormalizeActions | components/DAOGovernance.jsx:252-268 | three arrays of one equal length ≥ 1; no non-blank target gives the single (DAO, '0', '0x') action; no empty value or calldata |
| DaoGovernance.NormalizeActionsContents | components/DAOGovernance.jsx:252-268 | with a non-blank target: the longest of the three lists sets the length; the kept targets come first and the DAO address fills the rest; values are the entered ones with '0' for empty or missing; the kept calldatas come first and '0x' fills the rest |
| DaoGovernance.SingleRowActions | components/DAOGovernance.jsx:252-268 | the form's single row is sent as it is, or as the default action when its target is blank |
| DaoGovernance.NormalizedShapeAccepted | services/contracts/vaccineDAO.js:148-154 | normalised arrays pass the shape checks of `createProposal` |
| DaoGovernance.CreationErrorToast | components/DAOGovernance.jsx:299-308 | the power toast, then 'Transaction reverted', then 'gas', each when the earlier patterns are absent, else 'Échec de la création: ' and the message |
| DaoGovernance.SubmitProposal | components/DAOGovernance.jsx:279-308 | the toast is a success iff `createProposal` succeeds, otherwise the catch's toast of its message; the outcome for invalid inputs, a refused voting check, a failed static call and a failed `propose`, with the calls made; too little voting power gives the 'Voting power insuffisant pour créer une proposition' toast after the one check |
| DaoGovernance.RefusalToast | components/DAOGovernance.jsx:299-300 | the refusal message passes the service's friendlier messages unchanged and selects the voting-power toast |
| DaoGovernance.RefusalMessageKept | services/contracts/vaccineDAO.js:316-322 | a message shorter than 40 characters without an 'x' matches none of the three friendlier messages |
| DaoGovernance.ProposalForm.Reset | components/DAOGovernance.jsx:283-291 | the form goes back to blank |
| DaoGovernance.ProposalForm.constructor | components/DAOGovernance.jsx:40-50 | the blank form |
| DaoGovernance.ProposalForm.HandleCreateProposal | components/DAOGovernance.jsx:235-312 | missing fields or a missing signer, then the threshold, then a missing governor address (the contract handle throws) refuse before any call; otherwise the normalised actions and composed description are submitted and the toast follows `createProposal`'s outcome; success resets the form; failure leaves it unchanged |
| DaoGovernance.StateLabel | components/DAOGovernance.jsx:380-393 | the table's label for states 0..7, state 0's label otherwise |
| DaoGovernance.StateLabelsDistinct | components/DAOGovernance.jsx:380-393 | the eight states get eight different badges |
| DaoGovernance.Remaining | components/DAOGovernance.jsx:403-414 | none iff the deadline has passed; otherwise days and hours with days·day + hours·hour ≤ diff < days·day + (hours+1)·hour and hours < 24 |
| DaoGovernance.RemainingUnique | components/DAOGovernance.jsx:403-414 | no other split of days and hours fits the remaining time |
| DaoGovernance.FormatTimeRemaining | components/DAOGovernance.jsx:403-414 | 'Expiré' once passed; otherwise the hours, preceded by the days only when there is at least one |
| DaoGovernance.TimeRemainingShape | components/DAOGovernance.jsx:403-414 | a running proposal's text ends with 'h restantes' and is never 'Expiré' |
| DaoGovernance.VoteGateActive | components/DAOGovernance.jsx:595 | whenever the vote buttons show, the badge reads 'Actif', which no other state shows |
| Roles.RoleHash | services/contracts/roleManagement.js:45-50 | the zero hash exactly for the two admin names; the keccak of the name otherwise |
| Roles.RoleHashInjective | services/contracts/roleManagement.js:45-50 | two names share an id only when equal or both admin names |
| Roles.RoleIdsAgree | services/contracts/roleManagement.js:34-38 | `ROLES` has the three keys, each equal to `getRoleHash` of its key, all different |
| Roles.HasRole | services/contracts/roleManagement.js:97-105 | true iff the read succeeds with true; any failure reads as false |
| Roles.SendRoleTransaction | services/contracts/roleManagement.js:59-140 | the transaction is sent for the role's id; a failure is passed on unchanged |
| Roles.CheckRoles | services/contracts/roleManagement.js:153-168 | the map has exactly the listed roles, each with `hasRole`'s answer |
| Roles.GetAllUserRoles | services/contracts/roleManagement.js:148-177 | fails iff a contract handle is missing; otherwise admin and medical agent on the registry, admin and logistic manager on the stock contract |
| Roles.IsUserAdmin | services/contracts/roleManagement.js:183-190 | admin on either contract; false when the roles cannot be read |
| RoleContent.InRoleOrderBounded | components/RoleBasedContent.jsx:36-45 | a list in role order has no duplicates and at most three entries |
| RoleContent.UserRolesList | components/RoleBasedContent.jsx:24-54 | admin iff admin on either contract; medical only from the registry; logistic only from the stock contract; in order; [] without an address, a signer or a contract |
| RoleContent.SharesRole | components/RoleBasedContent.jsx:68 | true iff some allowed role is held |
| RoleContent.HasPermission | components/RoleBasedContent.jsx:67-68 | granted iff nothing is required or an allowed role is held |
| RoleContent.PermissionMonotone | components/RoleBasedContent.jsx:67-68 | holding more roles never loses a permission |
| RoleContent.NoRolesNoAccess | components/RoleBasedContent.jsx:26-29 | a user without roles sees only unrestricted sections |
| VaccineProgress.LineOf | components/VaccineProgress.jsx:39-88 | missing data counts 0 doses and not complete; percentage = current/required × 100 when required > 0, else 0; the bar is clamped to 100; the status text and the not-started warning |
| VaccineProgress.FullBar | components/VaccineProgress.jsx:54-75 | the bar is full exactly when the required doses have all been received |
| VaccineProgress.ProgressPanel | components/VaccineProgress.jsx:3-41 | no data iff no code or no types; loading iff no entry for the patient; otherwise one line per type |
| VaccineProgress.LineMatchesRegistry | components/VaccineProgress.jsx:45-52 | the dose count shown is the number of doses the registry returns for that patient and type |
| ContractManagement.AddressError | components/ContractManagement.jsx:77-86 | accepted iff a signer and a '0x' address of 42 characters; the two refusal messages in order |
| ContractManagement.FormatAddress | components/ContractManagement.jsx:174-177 | '' and 'Non configuré' unchanged; a valid address becomes its first six and last four characters around '...' |
| ContractManagement.WellFormedIsConfigured | components/ContractManagement.jsx:182-184 | every address the handlers accept counts as configured |
| ContractManagement.EnvAddress | components/ContractManagement.jsx:43-48 | an unset variable shows 'Non configuré' |
| ContractManagement.EnvAddressConfigured | components/ContractManagement.jsx:43-48 | a shown address is configured iff its variable holds a '0x' value |
| ContractManagement.ContractScreen.constructor | components/ContractManagement.jsx:20-40 | every address loading, not admin, empty forms |
| ContractManagement.ContractScreen.LoadContractAddresses | components/ContractManagement.jsx:42-49 | the four addresses from the environment; nothing else changes |
| ContractManagement.ContractScreen.CheckAdminRole | components/ContractManagement.jsx:54-71 | admin iff a signer, an account and a registry handle and the admin role on it |
| ContractManagement.ContractScreen.HandleSetStockContract | components/ContractManagement.jsx:76-101 | refused by `AddressError` before any call; success clears only this field |
| ContractManagement.ContractScreen.HandleSetDaoRegistry | components/ContractManagement.jsx:106-131 | refused by `AddressError` before any call; success clears only this field, the DAO stock field untouched |
| ContractManagement.ContractScreen.HandleSetDaoStock | components/ContractManagement.jsx:136-161 | refused by `AddressError` before any call; success clears only this field, the DAO registry field untouched |
| Configuration.CheckUserRoles | components/ConfigurationManagement.jsx:51-76 | no roles without a signer, an account or a handle; otherwise the four role checks |
| Configuration.ManagementRights | components/ConfigurationManagement.jsx:191-200 | centre management iff stock admin or logistic manager; vaccine types iff registry admin or medical agent |
| Configuration.CentersOf | components/ConfigurationManagement.jsx:91 | one `{id: c, name: c}` per centre, in order |
| Configuration.AddCenterError | components/ConfigurationManagement.jsx:145-149 | the dedicated message iff the error mentions `CenterAlreadyExists` |
| Configuration.VaccineTypeError | components/ConfigurationManagement.jsx:159-168 | refused for a missing signer, a blank name or an empty count, or a count outside 1..10; a count that is not a number passes |
| Configuration.ConfigurationScreen.constructor | components/ConfigurationManagement.jsx:20-40 | empty forms with the default of 2 doses, empty lists |
| Configuration.ConfigurationScreen.LoadCenters | components/ConfigurationManagement.jsx:81-99 | no signer empties the list; a handle that cannot be built empties it with the loading-error toast; otherwise one centre per id read, none when the read reverts |
| Configuration.ConfigurationScreen.HandleAddCenter | components/ConfigurationManagement.jsx:127-153 | a blank id is refused; the trimmed id is sent; success clears the form and reloads the centres |
| Configuration.ConfigurationScreen.HandleAddVaccineType | components/ConfigurationManagement.jsx:158-186 | refused by `VaccineTypeError`; the trimmed name and parsed count are sent; success resets the form and reloads the types |
| Blockchain.GetContract | services/blockchain.js:78-84 | fails iff the address, the ABI or the signer is missing |
| Blockchain.FormatAddress | services/blockchain.js:91-94 | '' for no address; otherwise the first six and last four characters around '...' |
| Blockchain.ExpectedChainId | services/blockchain.js:36 | the configured id, else '296' |
| Blockchain.DefaultNetwork | services/blockchain.js:34-39 | without a setting, exactly chain 296 passes the check |
| Blockchain.CheckNetworkUnique | services/blockchain.js:34-39 | at most one chain passes the check |
| Blockchain.ChainIdHex | services/blockchain.js:46-50 | starts with '0x'; a setting that is not a number gives '0xNaN' |
| Blockchain.ChainIdHexOfHexSetting | services/blockchain.js:46-50 | a setting written as '0x' + hex digits is sent as that same id |
| Blockchain.ChainIdHexRoundTrip | services/blockchain.js:46-50 | for a decimal id, the hex text sent is '0x' + its hex digits, which parse back to the id |
| Blockchain.SwitchNetwork | services/blockchain.js:45-67 | the switch request always; the add request only after error 4902, with the defaults; only the add request's error is thrown |
| GovBalance.Fetch | hooks/useVGOVBalance.js:21-51 | disconnected: balance '0', no token info, lastUpdate 0; throttled: unchanged; success: the balance, lastUpdate = now, token info read only while unknown; failure: balance, token info and lastUpdate kept |
| GovBalance.ThrottleWindow | hooks/useVGOVBalance.js:29-31 | after a successful fetch, fetches that are not forced change nothing for 5000 ms |
| GovBalance.DisconnectClearsThrottle | hooks/useVGOVBalance.js:22-31 | after a disconnection the next fetch reads again, token info included |
| GovBalance.GovBalanceHook.constructor | hooks/useVGOVBalance.js:12-16 | balance '0', no token info, not loading, lastUpdate 0 |
| GovBalance.GovBalanceHook.FetchBalance | hooks/useVGOVBalance.js:21-51 | the new state is `Fetch` of the old |
| GovBalance.GovBalanceHook.RefreshBalance | hooks/useVGOVBalance.js:56-58 | a forced fetch: with both reads succeeding it always records the balance and the time |
| GovBalance.TransferCaseInsensitive | hooks/useVGOVBalance.js:85-90 | the transfer test gives the same answer whatever the letter case of the addresses |
| GovBalance.HandleTransfer | hooks/useVGOVBalance.js:85-90 | a forced refresh iff the account sends or receives, ignoring case; otherwise nothing changes |

## Left out

- Contract calls, IPFS gateway fetches, `tx.wait()` and the wallet: each is a parameter (an oracle returning `Result` or `Option`). Solidity-side behaviour (vote tallying, quorum, stock accounting, role enforcement, token mint and burn) is not part of this model.
- `keccak256(toUtf8Bytes(name))` is the symbolic `Keccak(name)`, so distinct names have distinct ids; hashing itself is not modelled. `getVaccinationTypeInfo` uses `formatBytes32String` instead of keccak (services/contracts/vaccineRegistry.js:866); it is not modelled.
- Floating point: `parseFloat` comparisons of balances and thresholds, percentages of votes and quorum, the stock-level percentage, the dose-progress percentage and its `Math.round` display (components/VaccineProgress.jsx:54-90, computed over reals and not rounded here), `formatEther` and `parseEther`, `canCreateProposal`. The voting-power check of the creation form is a boolean input, the voting check of `createProposal` compares integers, and the vote gate takes the voting power as a real.
- DaoGovernance.ProposalForm.HandleCreateProposal: the threshold toast is the fixed prefix 'Seuil de proposition non atteint' without the formatted amounts, which need `toLocaleString`.
- DaoService.CreateProposal: the message thrown for insufficient voting power is its fixed prefix, without the `formatEther` amounts; the decoding of revert data into 'Transaction reverted: …' (services/contracts/vaccineDAO.js:291-313) is not modelled, and `getVotes` with its retry on an older block is one oracle answer.
- Locale and dates: `localeCompare` is the code-unit order of the strings; `toUpperCase` and `toLowerCase` are ASCII only; dates are integer milliseconds rather than ISO strings, and a null date sorts as the epoch.
- `Array.prototype.sort` is a stable insertion sort; the order it gives to elements that compare equal may differ from the engine's.
- StockDashboard.DashboardState.FetchStock, StockDashboard.Lookup, StockDashboard.CenterStats, DashboardData.StockDataOf: the stock state is keyed by the (centre, type) pair, the intended behaviour; the source's `${centerId}_${vaccineType}` string key can merge two pairs, so one pair's write can replace what another reads (see Findings).
- Strings.ParseInt: a result beyond 2^53 is an exact integer, where `parseInt` returns the nearest double.
- RegistryForm.DoseRegistration: the generated certificate image itself (canvas drawing) is not modelled; the upload's answer is a parameter shared by the generate and upload options.
- Registry.VaccinationHistory: stated as a permutation of the entries, sorted newest first, not as one particular order of equal dates.
- The patient list of the home dashboard is the list of patient codes the registry returns; the fallback of `getAllPatients` through past events (services/contracts/vaccineRegistry.js:933-975) is not part of this model.
- Concurrency: the `Promise.all` fan-outs, `setInterval` refreshes and the two-second delay before a transfer refresh are sequential steps; the time of each step is a parameter.
- RegistryForm.CertificateImage: returns the gateway URL the image was downloaded from, in place of the object URL `URL.createObjectURL` makes for the downloaded blob.
- Canvas certificate drawing, printing, blobs, uploads, components/MetadataUpload.jsx and services/pinata.js are I/O and not part of this model.
- Wallet and session plumbing (hooks/useWallet.js, context/WalletContext.js, the connect button, page routing, the language switcher) is not part of this model.
- The thin wrappers of services/contracts/vaccineStock.js and services/contracts/vaccineGovToken.js are oracles; components/VaccineTokenBalance.jsx is not part of this model.
- The formatted balance of `useVGOVBalance` (`parseFloat` and `toLocaleString`) is not modelled.
- The commented-out alternative implementations in the source are dead code and not modelled.

## Findings

| source | as written | input that shows it | evidently intended | confidence | as-written member | corrected member |
|---|---|---|---|---|---|---|
| components/StockDashboard.jsx:108 | stocks are stored under the key centre + '_' + type | centre 'A_B' with type 'C', and centre 'A' with type 'B_C', share the key 'A_B_C', so one pair's stock shows for the other | each (centre, type) pair has its own entry | not executed | StockDashboard.StockKeyCollides | StockDashboard.PairKeysIsolate |
| components/VaccineRegistryForm.jsx:797 | the progress cell is an object `{doseCount, isComplete}`, so `currentDoses + 1` is the string '[object Object]1'; against a numeric `requiredDoses` it compares as NaN (never due), against a `BigNumber` it compares as text and '[' sorts after every digit (always due) | numeric: patient P1 with one MPOX dose of two, the section stays hidden; `BigNumber`: patient P1 with no HEPATITIS_B dose of three, the section shows; which of the two arises depends on the contract ABI, not part of this model | the section shows when the dose count + 1 reaches the required doses | not executed | RegistryForm.LastDoseAsWrittenDisagrees | RegistryForm.LastDoseDue |
