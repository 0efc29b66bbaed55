# Material management: a Dafny model of the request and estimate-sheet core

This project models the core of the material-management back end. This is a Go
service that tracks the materials a maintenance project plans to use for each
piece of equipment (the *estimate*) and what it actually uses (the *reality*).
The model covers these parts:

- **Index-path codec** (`IndexPath`). A dotted outline number such as `"1.2.10"`
  becomes an int64 sort key. Level *i* (from 0) is a 6-bit field at bits
  54-6i..59-6i, so a path has at most 10 levels and each level is 0..63. Keys
  sort in depth-first outline order. Decoding stops at the first zero field.
- **Utilities** (`Utils`): `GetFileExtension`, the case-insensitive `Contains`
  (it trims the element, not the list items), and `MapKeys`.
- **Repository queries** (`Repository`): the maintenance, profile and equipment
  filters the services call, as functions over the stored records.
- **Material merge** (`Merge`). Each inner loop of `UpdateNumberOfRequest` and
  the consumable aggregation of the export are the same loop. For each
  requested material, in map order, it adds the quantity to the entry of the
  same name, or inserts the material. With float64 modelled as `real`, the set
  of names and the summed quantities do not depend on the iteration order. The
  other fields of a newly inserted name (for the export, the unit) come from the
  first material of that name the loop visits, so they do.
- **Materials requests** (`Requests`). `CreateMaterialsRequest` validates the
  sector and the tier, needs exactly one matching maintenance, and that every
  equipment ID is stored. `UpdateMaterialsRequest` is locked once the request
  has a number. `UpdateNumberOfRequest` sets the number and folds the request's
  materials into the reality of each selected profile. The repositories are the
  fields of the class `Store`.
- **Request export** (`Export`): the material table of the request document.
  Each equipment gets a numbered heading and its replacement rows. A final
  heading (the upper-cased consumable label) lists the consumables, summed by
  name over all equipment. Item numbers run 1, 2, … across the whole table.
- **Placeholder replacement** (`Placeholders`): `replaceTextInRun` on a
  document run, as the class `Run`.
- **Estimate-sheet upload** (`Profiles`). The row loop of `UploadEstimateSheet`
  is a state machine over the sheet's rows, with `ensureMaterialsProfile`. The
  loop's variables are the fields of the class `SheetLoader`, and the function
  `Step` specifies one row.

The codec functions `StringToIndexPath` and `IndexPathToString` are defined in
a file of the `utils` package that is not part of this model. Their behaviour
is reconstructed from `utils/utils_test.go`:

- an empty or blank string is `EmptyInput`;
- more than ten levels is `TooDeep`;
- a non-numeric level is `ParseFailure`;
- a level outside 0..63 is `OutOfRange`.

Go returns the value 0 with an error; the model returns `Failure(error)`.

Go map iteration order is unspecified. Each loop over a map picks its next key
with `:|` and returns the order it used as a ghost sequence. Its contract then
holds for that order, which is any order of the keys.

## Model

| member | source | states |
|---|---|---|
| IndexPath.Encode | utils/utils_test.go:36-71 | a successful key is non-negative and below 2^60; the empty error happens exactly when the trimmed input is empty; the too-deep error exactly when the input has more than ten levels |
| IndexPath.RoundTrip | utils/utils_test.go:5-34 | every path of 1..10 levels in 1..63 encodes to its packed key, and that key decodes back to the same dotted string |
| IndexPath.EncodeFormat | utils/utils_test.go:36-71 | a formatted path of any depth and any levels encodes to TooDeep above 10 levels, to OutOfRange when a level exceeds 63, and otherwise to its packed key |
| IndexPath.DecodePack | utils/utils_test.go:36-50 | decoding a packed key gives the path up to its first zero level, so a key of 0 decodes to "" |
| IndexPath.FieldOfPack | utils/utils_test.go:74-93 | the 6-bit field i of a packed key is level i of the path, or 0 beyond the path's length |
| IndexPath.PackBelowLimit | utils/utils_test.go:59-71 | a path of at most 10 levels in 0..63 packs into a non-negative key below 2^60 |
| IndexPath.PackOrder | utils/utils_test.go:142-182 | for valid paths, key order is outline order (a prefix comes first, otherwise the first differing level decides), and keys are equal exactly when the paths are |
| IndexPath.BeforeTotal | utils/utils_test.go:142-182 | outline order is total and asymmetric |
| IndexPath.ParentBeforeDescendant | utils/utils_test.go:216-253 | a parent's key is below every descendant's key |
| IndexPath.SubtreeBeforeNextSibling | utils/utils_test.go:95-140 | every node of the subtree under p.x has a key below the key of the next sibling p.(x+1) |
| IndexPath.EncodeOrder | utils/utils_test.go:184-214 | encoding two valid dotted paths succeeds, and the keys compare exactly as the paths do in outline order |
| IndexPath.FirstFailingPart | utils/utils_test.go:36-57 | parsing the parts fails with the error of the first part that does not parse |
| IndexPath.EncodeNonNumeric | utils/utils_test.go:36-57 | a non-blank path of at most ten levels whose first unparsable level is not a number encodes to ParseFailure |
| IndexPath.ParseDecimals | utils/utils_test.go:52-57 | parsing the decimal parts of a path gives the levels back, or OutOfRange when one exceeds 63 |
| IndexPathExamples.OneTwo | utils/utils_test.go:74-93 | "1.2" encodes to (1<<54)\|(2<<48), and that key decodes to "1.2" |
| IndexPathExamples.Empty | utils/utils_test.go:37-50 | "" and a blank string fail with EmptyInput, and decoding 0 gives "" |
| IndexPathExamples.NotANumber | utils/utils_test.go:36-57 | "x", a level that is not a number, fails with ParseFailure (the tests fix only that the edge cases fail) |
| IndexPathExamples.SixtyFourOne | utils/utils_test.go:52-57 | "64.1" fails with OutOfRange |
| IndexPathExamples.ZeroLevel | utils/utils_test.go:46-49 | "1.0.2" encodes, but its key decodes to "1" because decoding stops at a zero field |
| IndexPathExamples.NumericNotTextual | utils/utils_test.go:184-214 | "1.9" sorts before "1.10": levels compare as numbers, not as text |
| IndexPathExamples.SubtreeBeforeTwo | utils/utils_test.go:96-140 | the deepest child "1.63.63.63" of 1 sorts before "2" |
| Text.Split | utils/utils.go:17 | strings.Split yields one more part than separators, no part holds the separator, and joining the parts gives the input back |
| Text.SplitJoin | utils/utils.go:17 | splitting a join of separator-free parts gives the parts back |
| Text.TrimSpace | utils/utils.go:26 | the result is the input without its leading and trailing white space, and it is empty exactly when the input is all white space |
| Text.Itoa | utils/utils_test.go:5-34 | the decimal notation is non-empty, all digits and has the number's value; 0 is exactly "0", and a longer notation has no leading zero |
| Text.AtoiItoa | utils/utils_test.go:5-34 | parsing the decimal notation of an int64-sized number gives the number back |
| Utils.GetFileExtension | utils/utils.go:13-22 | the extension holds no dot; without a dot in the name it is empty; otherwise it is exactly the text after the last dot |
| Utils.TrailingDot | utils/utils.go:13-22 | a name ending in a dot has an empty extension |
| Utils.ExtensionAfterLastDot | utils/utils.go:13-22 | stem + "." + ext has extension ext whenever ext holds no dot |
| Utils.Contains | utils/utils.go:24-31 | true exactly when some list item equals the trimmed element up to case folding |
| Utils.EmptyList | utils/utils.go:24-31 | nothing is in the empty list |
| Utils.ElementTrimmed | utils/utils.go:26 | the element is trimmed: " x " is found in ["x"] |
| Utils.ItemsUntrimmed | utils/utils.go:26 | the items are not trimmed: "x" is not found in [" x"] |
| Utils.MapKeys | utils/utils.go:5-11 | the keys come out once each, all of them and nothing else, in some order |
| Repository.FilterMaintenances | internal/repository/maintenance_repo.go:67-86 | exactly the stored maintenances that match the non-empty project code, tier and number fields; the Project field plays no part |
| Repository.FindByIDs | internal/repository/equipment_machinery_repo.go:71-93 | the stored equipment whose ID is among the requested IDs, keyed by ID |
| Repository.AllFound | internal/service/materials_request_service.go:74-84 | the found count equals the (distinct) requested ID count exactly when every requested ID is stored |
| Repository.FilterProfileIds | internal/repository/materials_profile_repo.go:51-68 | exactly the stored profiles of the listed maintenances and equipment IDs (an empty list matches all) and of the sector (empty matches all) |
| Repository.FilterProfiles | internal/repository/materials_profile_repo.go:51-68 | the same filter over a stored sequence: only and all matching stored profiles |
| Merge.MergeKeys | internal/service/materials_request_service.go:278-285 | after merging a list, the names present are the old names plus the list's names |
| Merge.MergeExisting | internal/service/materials_request_service.go:279-281 | an existing entry keeps its fields and gains the summed quantity of the list's items of that name |
| Merge.MergeNew | internal/service/materials_request_service.go:282-283 | a new name gets the first such item of the list, with the quantity summed over all items of that name |
| Merge.MergeUntouched | internal/service/materials_request_service.go:278-285 | an entry whose name the list does not mention is unchanged |
| Merge.MergeAppend | internal/service/materials_request_service.go:278-285 | merging two lists one after the other is merging their concatenation |
| Merge.SumQtyPerm | internal/service/materials_request_service.go:278-285 | the summed quantity of a name does not depend on the order of the items |
| Merge.ValuesPerm | internal/service/materials_request_service.go:278 | two iteration orders of one map give the same multiset of values |
| Merge.SumInAnyOrder | internal/service/materials_request_service.go:278 | in every iteration order, the summed quantity of a name is the map's total for that name |
| Merge.MergedFromKeys | internal/service/materials_request_service.go:278-295 | after a merge from a map, the names present are the old names plus the names of the map's values |
| Merge.MergedExisting | internal/service/materials_request_service.go:279-281 | in any iteration order, an existing entry gains the map's total quantity for its name |
| Merge.MergedUntouched | internal/service/materials_request_service.go:278-295 | in any iteration order, an entry the map does not name is unchanged |
| Merge.MergedNew | internal/service/materials_request_service.go:282-283 | in any iteration order, a new name holds one of the map's materials of that name, with the map's total quantity |
| Merge.MergeInto | internal/service/materials_request_service.go:278-285 | the loop's result is the merge of the map's values in the order it visited them, so every Merged* property holds of it |
| Requests.UpdateFields | internal/service/materials_request_service.go:195-218 | an update succeeds exactly when the request has no number and the new materials map is empty or all of its equipment is stored; an empty sector, description or map keeps the stored value, a non-empty one replaces it, and nothing else changes |
| Requests.UpdateLockedAfterNumbering | internal/service/materials_request_service.go:195-197 | every update of a numbered request fails with UpdateAfterGotNumOfRequest |
| Requests.UpdateIdempotent | internal/service/materials_request_service.go:198-218 | applying a successful update a second time gives the same request |
| Requests.NumberingLocks | internal/service/materials_request_service.go:195-197 | after UpdateNumberOfRequest sets a non-zero number, every UpdateMaterialsRequest fails |
| Requests.FilterIsSelected | internal/service/materials_request_service.go:247-259 | the query built from the request's maintenance, equipment IDs and sector selects exactly the Selected profiles, whatever the order of the IDs |
| Requests.MergedRealityNames | internal/service/materials_request_service.go:270-295 | after folding, each reality list is allocated and names the old names plus the requested ones |
| Requests.MergedRealityQuantity | internal/service/materials_request_service.go:278-285 | an existing consumable in the reality gains the request's total quantity for its name |
| Requests.FoldedProfile | internal/service/materials_request_service.go:268-295 | only the profile's reality changes, and each of its two lists is the merge of the requested list into it (a nil list is first made empty) |
| Requests.FoldRequest | internal/service/materials_request_service.go:266-302 | every selected profile whose equipment is in the request has its reality merged; every other profile is unchanged |
| Requests.Store.CreateMaterialsRequest | internal/service/materials_request_service.go:52-95 | fails with the first failing guard's error and stores nothing; otherwise stores a request for the one matching maintenance with number 0, the user and the time given, and returns its ID |
| Requests.Store.UpdateMaterialsRequest | internal/service/materials_request_service.go:190-220 | a missing request is MaterialRequestNotFound; otherwise the stored request becomes UpdatedRequest's result, or stays as it was with its error |
| Requests.Store.UpdateNumberOfRequest | internal/service/materials_request_service.go:235-305 | a missing request, or fewer or more selected profiles than equipment IDs, is an error that changes nothing; otherwise the request gets the number, and the selected profiles get the request's materials merged into their reality |
| Requests.OtherProjectAccepted | internal/service/materials_request_service.go:63-73 | with the source's filter, a lone maintenance of another project that matches tier and number is accepted; with the project checked, it is MaintenanceNotFound |
| Requests.ProjectIgnored | internal/service/materials_request_service.go:63-73 | the concrete case: a request for project "A" attaches to the only maintenance, which is of project "B" |
| Requests.RulesAgreeWithinProject | internal/service/materials_request_service.go:63-73 | when every maintenance with the requested tier and number belongs to the named project, the source's rule and the corrected rule give the same outcome |
| Requests.CreatedInProject | internal/service/materials_request_service.go:63-73 | a request created by the corrected rule refers to a stored maintenance of the request's project, tier and number |
| Requests.ListedNames | types/constants.go:35-73 | "Cơ khí" is a listed sector and "SCCN" a listed tier |
| Export.TableNumbering | internal/service/materials_request_service.go:341-405 | the table's headings are numbered 1..n+1 and titled by the equipment names in visit order, then by the consumable label; its item rows are numbered 1, 2, … with no gap across all sections |
| Export.SectionsNumbering | internal/service/materials_request_service.go:344-380 | the equipment sections alone have headings 1..n in order and items numbered 1..total |
| Export.AggregateStep | internal/service/materials_request_service.go:358-365 | merging one more equipment's consumables keeps the aggregate meaning: keys are the union of names, and each quantity is the total over the visited equipment |
| Export.ReplacementRows | internal/service/materials_request_service.go:367-377 | exactly one item row per replacement material, in visit order, numbered consecutively from the current counter |
| Export.ConsumableSection | internal/service/materials_request_service.go:395-405 | exactly one item row per aggregated consumable, named by its key, numbered consecutively on from the counter |
| Export.EquipmentSections | internal/service/materials_request_service.go:344-380 | after the equipment loop, every equipment has been visited once; the rows are its sections; the consumables are aggregated over all of them; the counters are one past the last heading and item |
| Export.BuildMaterialTable | internal/service/materials_request_service.go:337-405 | the rows are exactly the table of the equipment sections in some visit order followed by the consumable section, with the consumables aggregated over every equipment; whatever the order, headings are numbered 1..n+1 for n equipment, the last being the consumable title, and item rows are numbered 1, 2, … without a gap |
| Export.ExportTable | internal/service/materials_request_service.go:323-405 | fails with SomeEquipmentMachineryNotFound exactly when some requested equipment is not stored; otherwise gives that table, headed by the upper-cased consumable label |
| Placeholders.ReplaceText | internal/service/materials_request_service.go:478-488 | the text is the result of replacing the placeholders in some order of the map; it is modified exactly when some placeholder occurs in the original text, and otherwise returned unchanged |
| Placeholders.NothingToReplace | internal/service/materials_request_service.go:482-487 | when no placeholder occurs, every order leaves the text as it is |
| Placeholders.Run.ReplaceTextInRun | internal/service/materials_request_service.go:478-493 | a run in which some placeholder occurs becomes the one replaced text; any other run is left untouched |
| Profiles.EnsuredProfiles | internal/service/materials_profile_service.go:387-417 | the name is then present, no other name is added, and existing entries are unchanged |
| Profiles.EnsureIdempotent | internal/service/materials_profile_service.go:388 | ensuring a name a second time, with any equipment or index, changes nothing |
| Profiles.EnsureReusesStored | internal/service/materials_profile_service.go:389-395 | a name seen first takes the first stored profile of that maintenance, equipment and sector |
| Profiles.EnsureNewIndex | internal/service/materials_profile_service.go:396-414 | with nothing stored, a new profile has the encoded outline number as its index and empty estimate and reality lists |
| Profiles.EnsureBadIndex | internal/service/materials_profile_service.go:397-400 | an outline number that does not encode gives index 0 |
| Profiles.NewProfilesInOutlineOrder | internal/service/materials_profile_service.go:397-405 | new profiles' indexes sort exactly as their outline numbers do |
| Profiles.FormatIsIndex | internal/service/materials_profile_service.go:190-199 | every dotted outline number is recognised as an index cell |
| Profiles.NotIndex | internal/service/materials_profile_service.go:190-199 | a "-" cell is not an index cell |
| Profiles.IndexRowStartsEquipment | internal/service/materials_profile_service.go:198-225 | an index row makes its title the current equipment, records the index, resets the kind, looks up the equipment ID, and ensures its profile |
| Profiles.ConsumableLabelWins | internal/service/materials_profile_service.go:226-233 | a title holding the lower-cased consumable label switches to consumables, even when it also holds the replacement label |
| Profiles.LabelsSetKind | internal/service/materials_profile_service.go:198-233 | on every row, "-" rows included, the consumable label selects consumables, else the replacement label selects replacements, else the kind stays (reset by an index row) |
| Profiles.LabelledConsumableRowRecorded | internal/service/materials_profile_service.go:226-250 | a "-" row whose title holds the consumable label switches to consumables and is recorded in the consumable list under its title, whatever the kind before |
| Profiles.LabelledReplacementRowRecorded | internal/service/materials_profile_service.go:226-267 | a "-" row whose title holds only the replacement label switches to replacements and is recorded in the replacement list under its title |
| Profiles.ReplacementLabel | internal/service/materials_profile_service.go:226-229 | a title holding only the replacement label switches to replacement materials |
| Profiles.ShortConsumableRowSkipped | internal/service/materials_profile_service.go:236-238 | a consumable "-" row with fewer than 3 cells changes nothing |
| Profiles.ShortReplacementRowSkipped | internal/service/materials_profile_service.go:254-256 | a replacement "-" row with fewer than 4 cells changes nothing |
| Profiles.ConsumableDefaultQuantity | internal/service/materials_profile_service.go:234-250 | a consumable "-" row of 3 cells records the title with the lower-cased unit and quantity 0 in the current estimate, and changes nothing else |
| Profiles.ConsumableRowRecorded | internal/service/materials_profile_service.go:234-250 | a consumable "-" row of 4 or more cells with a parsed quantity records the title with the lower-cased unit and that quantity in the current estimate, and changes nothing else |
| Profiles.ReplacementRowRecorded | internal/service/materials_profile_service.go:253-267 | a replacement "-" row of 4 or more cells with a parsed quantity records the title with the lower-cased unit and that quantity in the current estimate, and changes nothing else |
| Profiles.UnparsableQuantityAborts | internal/service/materials_profile_service.go:240-244 | a quantity that does not parse ends the upload with that error |
| Profiles.MaterialBeforeEquipmentPanics | internal/service/materials_profile_service.go:234-267 | before any index row, every "-" row that is not skipped (a consumable row of 3 or more cells, a replacement row of 4 or more, with a quantity that parses when given) writes through a nil profile: a panic; shorter rows are skipped, as ShortConsumableRowSkipped and ShortReplacementRowSkipped state |
| Profiles.ShortRowPanics | internal/service/materials_profile_service.go:195-196 | a row of fewer than 2 cells panics |
| Profiles.RunConsistent | internal/service/materials_profile_service.go:194-269 | over any rows the loop keeps every profile tied to the request's maintenance and sector, and to the equipment ID found for its name |
| Profiles.SheetLoader.EnsureMaterialsProfile | internal/service/materials_profile_service.go:387-417 | the loader's profile map becomes EnsuredProfiles of the old one; nothing else changes |
| Profiles.SheetLoader.Record | internal/service/materials_profile_service.go:246-266 | records the material in the current profile's list of that kind, or reports the nil profile or nil list it would write through |
| Profiles.SheetLoader.ProcessRow | internal/service/materials_profile_service.go:195-267 | one iteration of the row loop does what Step says of the old state, and leaves Step's new state |
| Profiles.SheetLoader.LoadRows | internal/service/materials_profile_service.go:194-269 | the loop over the rows does what RunRows says, and leaves its final state |
| Profiles.UploadEstimateSheet | internal/service/materials_profile_service.go:141-283 | the upload fails on an unlisted sector or tier, or unless exactly one maintenance matches; a sheet without rows panics; otherwise the rows after the header are loaded and the profiles saved |
| Profiles.RunRowsAppend | internal/service/materials_profile_service.go:194-269 | running the loop over two blocks of rows is running it over the first and, unless that stopped, over the second from where it left off |
| Profiles.RowAbortsRun | internal/service/materials_profile_service.go:194-269 | a row that aborts stops the loop with its error, whatever rows follow |
| Profiles.AbortedRowFailsUpload | internal/service/materials_profile_service.go:240-279 | when a data row's quantity does not parse, the whole upload fails with that error and no profile is saved |
| Profiles.SavedForRequest | internal/service/materials_profile_service.go:149-159 | every saved profile belongs to the one maintenance of the request's project code, tier and number, and to the request's sector |

## Left out

- File handling is left out: the upload, excelize, the docx template, the temporary file and the saving directory. The model starts from the sheet's rows as strings and ends at the table rows.
- Repository and database errors are left out (`err != nil` after a query, save or update), as are errors from ObjectID hex conversion. The store never fails.
- `FindByID` errors are modelled as a missing key, which gives `MaterialRequestNotFound`.
- The user ID from the context and `time.Now()` are parameters of `Store.CreateMaterialsRequest`.
- Requests.Store.CreateMaterialsRequest: implements the corrected project check (`CreateCorrected`), not the source's query, which ignores `Project` (see Findings). The source's behaviour is `CreateAsWritten`; `RulesAgreeWithinProject` shows the two agree whenever every maintenance with the requested tier and number belongs to the named project, and `OtherProjectAccepted` and `ProjectIgnored` show where they differ.
- `Store.CreateMaterialsRequest`: the ID the database assigns is a parameter, and it must be fresh (`newId !in requests`).
- Float64 is modelled as `real`: no rounding, no NaN. `%.2f` formatting and `strconv.ParseFloat` are left out, and parsing is the `World.parseFloat` parameter.
- Unicode case mapping (`strings.ToLower`, `strings.ToUpper`, `strings.EqualFold`) is a character-mapping parameter, because Unicode tables are not modelled.
- Heading numbers are kept as numbers. The Roman-numeral formatting `utils.IntToRoman` is not part of this model.
- Go map iteration order is nondeterministic and is modelled as a ghost order chosen by the loop. Contracts hold for every order.
- Pointer aliasing of profiles that the maps share is not modelled: profiles are values.
- Profiles.World: the equipment lookup-or-create is one function from a name to an ID for the whole upload. The case-insensitive substring match of the equipment filter, the save that creates an equipment, and the effect of that creation on later lookups in the same upload are not modelled.
- The document walking of `replacePlaceholderInDoc` and the construction of the replacement map are left out. Only `replaceTextInRun` is modelled.
- `Profiles.UploadEstimateSheet`: the order in which `SaveMany` receives the profiles and the IDs the database assigns to new profiles are not modelled. A new profile has ID "".
- The codec bodies are not in the modelled files. `IndexPath.Encode` checks the depth before parsing the levels, which the tests do not fix.
- The upload request type in types/request.go has no ProjectCode field, although `UploadEstimateSheet` reads one. The model gives the request a `projectCode`.
- `Utils.Contains` trims only the element. The services store the untrimmed sector, and the model does the same.
- Export.BuildMaterialTable: an aggregated consumable keeps the unit of the first material of that name that the loop visited. The contract states each consumable row's name, number and summed quantity, but not its unit.
- `GetMaterialsRequest`, `FilterMaterialsRequests`, `DeleteMaterialsRequest` and the other profile-service operations (`GetMaterialsProfiles`, filters) are outside the modelled core.

## Findings

| source | as written | input that shows it | evidently intended | confidence | as-written member | corrected member |
|---|---|---|---|---|---|---|
| internal/service/materials_request_service.go:63-67 | CreateMaterialsRequest filters maintenances by `Project`, but the maintenance repository's Filter (internal/repository/maintenance_repo.go:67-86) reads only ProjectCode, tier and number, so the project is ignored | project "A", tier "SCCN", number "1", sector "Cơ khí"; the only stored maintenance is "m1" of project "B" with tier "SCCN" and number "1": the request is attached to "m1" | reject with MaintenanceNotFound unless the maintenance belongs to the requested project | medium, not executed | Requests.CreateAsWritten, Requests.ProjectIgnored | Requests.CreateCorrected, Requests.CreatedInProject |
