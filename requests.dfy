/**
 * The state-changing rules of the materials request service: creating a
 * request, editing it while it has no request number yet, and assigning the
 * number, which folds the requested quantities into the reality lists of the
 * matching materials profiles.
 *
 * The repositories are the fields of `Store`; a repository call is a lookup
 * in, or an update of, one of those fields.
 */
module Requests {
  import opened Wrappers
  import opened Text
  import opened Utils
  import opened Types
  import opened Repository
  import opened Merge

  // ---------------------------------------------------------------------------
  // UpdateMaterialsRequest
  // ---------------------------------------------------------------------------

  /**
   * The stored request after UpdateMaterialsRequest, or its error: a request
   * that already has a number is locked; an empty sector or description keeps
   * the stored one; a non-empty materials map replaces the stored one, and only
   * when every equipment ID in it is stored.
   */
  function UpdatedRequest(stored: MaterialRequest, upd: MaterialRequestUpdate, equipment: map<string, EquipmentMachinery>)
    : Result<MaterialRequest, Error>
  {
    if stored.numOfRequest != 0 then Failure(UpdateAfterGotNumOfRequest)
    else if |upd.materialsForEquipment| > 0 && !(upd.materialsForEquipment.Keys <= equipment.Keys) then
      Failure(SomeEquipmentMachineryNotFound)
    else
      Success(stored.(
        sector := if upd.sector != "" then upd.sector else stored.sector,
        description := if upd.description != "" then upd.description else stored.description,
        materialsForEquipment := if |upd.materialsForEquipment| > 0 then upd.materialsForEquipment else stored.materialsForEquipment))
  }

  /** Once a request has a number, every update fails and changes nothing. */
  lemma UpdateLockedAfterNumbering(stored: MaterialRequest, upd: MaterialRequestUpdate, equipment: map<string, EquipmentMachinery>)
    requires stored.numOfRequest != 0
    ensures UpdatedRequest(stored, upd, equipment) == Failure(UpdateAfterGotNumOfRequest)
  {
  }

  /** What an update keeps and what it replaces, and exactly when it succeeds. */
  lemma UpdateFields(stored: MaterialRequest, upd: MaterialRequestUpdate, equipment: map<string, EquipmentMachinery>)
    ensures UpdatedRequest(stored, upd, equipment).Success? <==>
      stored.numOfRequest == 0 && (|upd.materialsForEquipment| == 0 || upd.materialsForEquipment.Keys <= equipment.Keys)
    ensures UpdatedRequest(stored, upd, equipment).Success? ==>
      var r := UpdatedRequest(stored, upd, equipment).value;
      && r.id == stored.id && r.maintenanceInstanceId == stored.maintenanceInstanceId
      && r.numOfRequest == 0 && r.requestedBy == stored.requestedBy && r.requestedAt == stored.requestedAt
      && (upd.sector == "" ==> r.sector == stored.sector) && (upd.sector != "" ==> r.sector == upd.sector)
      && (upd.description == "" ==> r.description == stored.description)
      && (upd.description != "" ==> r.description == upd.description)
      && (|upd.materialsForEquipment| == 0 ==> r.materialsForEquipment == stored.materialsForEquipment)
      && (|upd.materialsForEquipment| > 0 ==> r.materialsForEquipment == upd.materialsForEquipment)
  {
  }

  /** Applying the same update a second time changes nothing more. */
  lemma UpdateIdempotent(stored: MaterialRequest, upd: MaterialRequestUpdate, equipment: map<string, EquipmentMachinery>)
    requires UpdatedRequest(stored, upd, equipment).Success?
    ensures UpdatedRequest(UpdatedRequest(stored, upd, equipment).value, upd, equipment) == UpdatedRequest(stored, upd, equipment)
  {
  }

  // ---------------------------------------------------------------------------
  // UpdateNumberOfRequest
  // ---------------------------------------------------------------------------

  /**
   * The profiles UpdateNumberOfRequest selects for `req`: its maintenance,
   * one of its equipment IDs (any equipment when the request names none) and
   * its sector (any sector when the request has none).
   */
  predicate Selected(p: MaterialsProfile, req: MaterialRequest)
  {
    && p.maintenanceInstanceId == req.maintenanceInstanceId
    && (|req.materialsForEquipment| > 0 ==> p.equipmentMachineryId in req.materialsForEquipment)
    && (req.sector != "" ==> p.sector == req.sector)
  }

  function SelectedIds(profiles: map<string, MaterialsProfile>, req: MaterialRequest): set<string>
  {
    set id | id in profiles.Keys && Selected(profiles[id], req)
  }

  /** The profile query the service builds selects exactly the `Selected` profiles. */
  lemma FilterIsSelected(profiles: map<string, MaterialsProfile>, req: MaterialRequest, emIds: seq<string>)
    requires IsOrderOf(emIds, req.materialsForEquipment.Keys)
    ensures FilterProfileIds(profiles, ProfileFilter([req.maintenanceInstanceId], emIds, req.sector)) == SelectedIds(profiles, req)
  {
    OrderLength(emIds, req.materialsForEquipment.Keys);
  }

  /** The error UpdateNumberOfRequest returns, if any. */
  function NumberingError(requests: map<string, MaterialRequest>, profiles: map<string, MaterialsProfile>, id: string): Option<Error>
  {
    if id !in requests then Some(MaterialRequestNotFound)
    else if |SelectedIds(profiles, requests[id])| != |requests[id].materialsForEquipment| then Some(SomeEquipmentMachineryNotFound)
    else None
  }

  /**
   * `after` is the reality of a profile once `materials` is folded in: a nil
   * list is first made empty, then each requested list is merged into it.
   */
  ghost predicate RealityMerged(before: MaterialsForEquipment, after: MaterialsForEquipment, materials: MaterialsForEquipment)
  {
    && after.replacementMaterials.Some? && after.consumableSupplies.Some?
    && MergedFrom(OrEmpty(before.replacementMaterials), after.replacementMaterials.value, OrEmpty(materials.replacementMaterials))
    && MergedFrom(OrEmpty(before.consumableSupplies), after.consumableSupplies.value, OrEmpty(materials.consumableSupplies))
  }

  /** The profile is one the numbering loop folds the request into. */
  predicate Touched(id: string, profiles: map<string, MaterialsProfile>, req: MaterialRequest, done: set<string>)
    requires id in profiles
  {
    id in done && profiles[id].equipmentMachineryId in req.materialsForEquipment
  }

  /**
   * The profiles after folding `req` into those of `done`: only their reality
   * changes, and it changes by RealityMerged; every other profile is as it was.
   */
  ghost predicate ProfilesMerged(before: map<string, MaterialsProfile>, after: map<string, MaterialsProfile>, req: MaterialRequest, done: set<string>)
  {
    && after.Keys == before.Keys
    && forall id :: id in before ==>
      if Touched(id, before, req, done) then
        && after[id] == before[id].(reality := after[id].reality)
        && RealityMerged(before[id].reality, after[id].reality, req.materialsForEquipment[before[id].equipmentMachineryId])
      else after[id] == before[id]
  }

  /** The reality of a touched profile gains every requested name and keeps its own. */
  lemma MergedRealityNames(before: MaterialsForEquipment, after: MaterialsForEquipment, materials: MaterialsForEquipment)
    requires RealityMerged(before, after, materials)
    ensures after.consumableSupplies.value.Keys == OrEmpty(before.consumableSupplies).Keys + ValueNames(OrEmpty(materials.consumableSupplies))
    ensures after.replacementMaterials.value.Keys == OrEmpty(before.replacementMaterials).Keys + ValueNames(OrEmpty(materials.replacementMaterials))
  {
    MergedFromKeys(OrEmpty(before.consumableSupplies), after.consumableSupplies.value, OrEmpty(materials.consumableSupplies));
    MergedFromKeys(OrEmpty(before.replacementMaterials), after.replacementMaterials.value, OrEmpty(materials.replacementMaterials));
  }

  /** An existing consumable of a touched profile grows by exactly the requested total under its name. */
  lemma MergedRealityQuantity(before: MaterialsForEquipment, after: MaterialsForEquipment, materials: MaterialsForEquipment, n: string)
    requires RealityMerged(before, after, materials)
    requires n in OrEmpty(before.consumableSupplies)
    ensures n in after.consumableSupplies.value
    ensures after.consumableSupplies.value[n] ==
      OrEmpty(before.consumableSupplies)[n].(quantity := OrEmpty(before.consumableSupplies)[n].quantity + TotalQty(OrEmpty(materials.consumableSupplies), n))
  {
    MergedExisting(OrEmpty(before.consumableSupplies), after.consumableSupplies.value, OrEmpty(materials.consumableSupplies), n);
  }

  /** One pass of the numbering loop: a nil list is made empty and the requested list merged into it. */
  method FoldedProfile(prof: MaterialsProfile, materials: MaterialsForEquipment) returns (updated: MaterialsProfile)
    ensures updated == prof.(reality := updated.reality)
    ensures RealityMerged(prof.reality, updated.reality, materials)
  {
    ghost var order1, order2;
    var consumables, replacements;
    consumables, order1 := MergeInto(OrEmpty(prof.reality.consumableSupplies), OrEmpty(materials.consumableSupplies));
    replacements, order2 := MergeInto(OrEmpty(prof.reality.replacementMaterials), OrEmpty(materials.replacementMaterials));
    updated := prof.(reality := MaterialsForEquipment(Some(replacements), Some(consumables)));
  }

  /** Folding the request into one more untouched profile keeps ProfilesMerged. */
  lemma MergedStep(before: map<string, MaterialsProfile>, profiles: map<string, MaterialsProfile>, req: MaterialRequest,
                   done: set<string>, pid: string, updated: MaterialsProfile)
    requires ProfilesMerged(before, profiles, req, done)
    requires pid in before && pid !in done
    requires before[pid].equipmentMachineryId in req.materialsForEquipment
    requires updated == profiles[pid].(reality := updated.reality)
    requires RealityMerged(profiles[pid].reality, updated.reality, req.materialsForEquipment[profiles[pid].equipmentMachineryId])
    ensures ProfilesMerged(before, profiles[pid := updated], req, done + {pid})
  {
    assert profiles[pid] == before[pid];
  }

  /** The numbering loop: each selected profile, in some order, gets the request folded into its reality. */
  method FoldRequest(profiles: map<string, MaterialsProfile>, req: MaterialRequest, selected: set<string>)
    returns (folded: map<string, MaterialsProfile>)
    requires selected <= profiles.Keys
    ensures ProfilesMerged(profiles, folded, req, selected)
  {
    folded := profiles;
    var todo := selected;
    ghost var done: set<string> := {};
    while todo != {}
      invariant done == selected - todo && todo <= selected
      invariant ProfilesMerged(profiles, folded, req, done)
      decreases |todo|
    {
      var pid :| pid in todo;
      assert pid !in done;
      var prof := folded[pid];
      if prof.equipmentMachineryId in req.materialsForEquipment {
        var updated := FoldedProfile(prof, req.materialsForEquipment[prof.equipmentMachineryId]);
        MergedStep(profiles, folded, req, done, pid, updated);
        folded := folded[pid := updated];
      }
      todo := todo - {pid};
      done := done + {pid};
    }
  }

  // ---------------------------------------------------------------------------
  // CreateMaterialsRequest
  // ---------------------------------------------------------------------------

  /** The maintenances of `found` that belong to `project`. */
  function InProject(found: seq<Maintenance>, project: string): (r: seq<Maintenance>)
    ensures forall i :: 0 <= i < |r| ==> r[i] in found && r[i].project == project
    ensures forall m :: m in found && m.project == project ==> m in r
  {
    if found == [] then []
    else (if found[0].project == project then [found[0]] else []) + InProject(found[1..], project)
  }

  /** The filter CreateMaterialsRequest builds: Project, tier and number, and no project code. */
  function CreateFilter(req: CreateMaterialRequestReq): MaintenanceFilter
  {
    MaintenanceFilter(req.project, "", req.maintenanceTier, req.maintenanceNumber)
  }

  /**
   * CreateMaterialsRequest's checks, in order, given the maintenances its query
   * found: the sector and the tier must be listed (after trimming, ignoring
   * case), exactly one maintenance must be found, and every equipment ID of
   * the request must be stored. On success, the ID of that maintenance.
   */
  function CreateOutcome(req: CreateMaterialRequestReq, fold: char -> char, found: seq<Maintenance>,
                         equipment: map<string, EquipmentMachinery>): Result<string, Error>
  {
    if !InList(SectorList, req.sector, fold) then Failure(InvalidSector)
    else if !InList(MaintenanceTierList, req.maintenanceTier, fold) then Failure(InvalidMaintenanceTier)
    else if |found| != 1 then Failure(MaintenanceNotFound)
    else if !(req.materialsForEquipment.Keys <= equipment.Keys) then Failure(SomeEquipmentMachineryNotFound)
    else Success(found[0].id)
  }

  /** As written: the repository's query never reads the Project field, so any project's maintenance is accepted. */
  function CreateAsWritten(stored: seq<Maintenance>, equipment: map<string, EquipmentMachinery>,
                           req: CreateMaterialRequestReq, fold: char -> char): Result<string, Error>
  {
    CreateOutcome(req, fold, FilterMaintenances(stored, CreateFilter(req)), equipment)
  }

  /** Corrected: the maintenance must also belong to the project the caller names. */
  function CreateCorrected(stored: seq<Maintenance>, equipment: map<string, EquipmentMachinery>,
                           req: CreateMaterialRequestReq, fold: char -> char): Result<string, Error>
  {
    CreateOutcome(req, fold, InProject(FilterMaintenances(stored, CreateFilter(req)), req.project), equipment)
  }

  /** InProject keeps every maintenance when all of them already belong to the project. */
  lemma {:induction false} InProjectKeepsAll(found: seq<Maintenance>, project: string)
    requires forall i :: 0 <= i < |found| ==> found[i].project == project
    ensures InProject(found, project) == found
  {
    if found != [] {
      InProjectKeepsAll(found[1..], project);
    }
  }

  /**
   * The two rules differ only through maintenances of other projects: when
   * every maintenance with the requested tier and number belongs to the named
   * project, the code as written and the corrected check give the same outcome.
   */
  lemma RulesAgreeWithinProject(stored: seq<Maintenance>, equipment: map<string, EquipmentMachinery>,
                                req: CreateMaterialRequestReq, fold: char -> char)
    requires forall m :: m in FilterMaintenances(stored, CreateFilter(req)) ==> m.project == req.project
    ensures CreateAsWritten(stored, equipment, req, fold) == CreateCorrected(stored, equipment, req, fold)
  {
    var found := FilterMaintenances(stored, CreateFilter(req));
    assert forall i :: 0 <= i < |found| ==> found[i] in found;
    InProjectKeepsAll(found, req.project);
  }

  /** The sector "Cơ khí" and the tier "SCCN" pass validation, under any case folding. */
  lemma ListedNames(fold: char -> char)
    ensures InList(SectorList, "Cơ khí", fold)
    ensures InList(MaintenanceTierList, "SCCN", fold)
  {
    SectorListed(fold);
    TierListed(fold);
  }

  lemma SectorListed(fold: char -> char)
    ensures InList(SectorList, "Cơ khí", fold)
  {
    TrimSpaceOfTrimmed("Cơ khí");
    assert SectorList[0] == "Cơ khí";
    FoldSame(SectorList[0], "Cơ khí", fold);
  }

  lemma TierListed(fold: char -> char)
    ensures InList(MaintenanceTierList, "SCCN", fold)
  {
    TrimSpaceOfTrimmed("SCCN");
    assert MaintenanceTierList[1] == "SCCN";
    FoldSame(MaintenanceTierList[1], "SCCN", fold);
  }

  lemma FoldSame(a: string, b: string, fold: char -> char)
    requires a == b
    ensures EqualFold(a, b, fold)
  {
  }

  /**
   * A request for project "A" is attached to the only SCCN number 1
   * maintenance, which belongs to project "B"; the corrected check reports
   * that project "A" has no such maintenance.
   */
  lemma ProjectIgnored(fold: char -> char)
    ensures
      var stored := [Maintenance("m1", "B", "B", "SCCN", "1")];
      var req := CreateMaterialRequestReq("A", "SCCN", "1", "Cơ khí", "", map[]);
      && CreateAsWritten(stored, map[], req, fold) == Success("m1")
      && CreateCorrected(stored, map[], req, fold) == Failure(MaintenanceNotFound)
  {
    var m := Maintenance("m1", "B", "B", "SCCN", "1");
    var req := CreateMaterialRequestReq("A", "SCCN", "1", "Cơ khí", "", map[]);
    ListedNames(fold);
    assert MaintenanceMatches(m, CreateFilter(req));
    OtherProjectAccepted(m, req, fold);
  }

  /**
   * Whenever the only maintenance with the requested tier and number belongs to
   * another project, the code as written attaches the request to it and the
   * corrected check rejects the request.
   */
  lemma OtherProjectAccepted(m: Maintenance, req: CreateMaterialRequestReq, fold: char -> char)
    requires InList(SectorList, req.sector, fold) && InList(MaintenanceTierList, req.maintenanceTier, fold)
    requires req.materialsForEquipment == map[]
    requires MaintenanceMatches(m, CreateFilter(req)) && m.project != req.project
    ensures CreateAsWritten([m], map[], req, fold) == Success(m.id)
    ensures CreateCorrected([m], map[], req, fold) == Failure(MaintenanceNotFound)
  {
    assert FilterMaintenances([m], CreateFilter(req)) == [m];
    assert InProject([m], req.project) == [];
  }

  /** A corrected creation attaches the request to a maintenance of the named project, tier and number. */
  lemma CreatedInProject(stored: seq<Maintenance>, equipment: map<string, EquipmentMachinery>,
                         req: CreateMaterialRequestReq, fold: char -> char)
    requires CreateCorrected(stored, equipment, req, fold).Success?
    ensures exists m :: (m in stored && m.id == CreateCorrected(stored, equipment, req, fold).value
      && m.project == req.project
      && (req.maintenanceTier != "" ==> m.maintenanceTier == req.maintenanceTier)
      && (req.maintenanceNumber != "" ==> m.maintenanceNumber == req.maintenanceNumber))
  {
    var found := InProject(FilterMaintenances(stored, CreateFilter(req)), req.project);
    assert found[0] in FilterMaintenances(stored, CreateFilter(req));
  }

  // ---------------------------------------------------------------------------
  // The store
  // ---------------------------------------------------------------------------

  class Store {
    var requests: map<string, MaterialRequest>
    var profiles: map<string, MaterialsProfile>
    var maintenances: seq<Maintenance>
    var equipment: map<string, EquipmentMachinery>

    constructor (requests: map<string, MaterialRequest>, profiles: map<string, MaterialsProfile>,
                 maintenances: seq<Maintenance>, equipment: map<string, EquipmentMachinery>)
      ensures this.requests == requests && this.profiles == profiles
      ensures this.maintenances == maintenances && this.equipment == equipment
    {
      this.requests := requests;
      this.profiles := profiles;
      this.maintenances := maintenances;
      this.equipment := equipment;
    }

    /**
     * CreateMaterialsRequest with the project check. `newId` is the ID the
     * database assigns, `userId` the caller and `now` the clock.
     */
    method CreateMaterialsRequest(req: CreateMaterialRequestReq, fold: char -> char, userId: string, now: int, newId: string)
      returns (id: string, err: Option<Error>)
      requires newId !in requests
      modifies this
      ensures profiles == old(profiles) && maintenances == old(maintenances) && equipment == old(equipment)
      ensures var outcome := CreateCorrected(maintenances, equipment, req, fold);
        && (outcome.Failure? ==> err == Some(outcome.error) && requests == old(requests))
        && (outcome.Success? ==> err == None && id == newId && requests == old(requests)[newId :=
              MaterialRequest(newId, outcome.value, req.sector, req.description, 0, req.materialsForEquipment, userId, now)])
    {
      id := "";
      var sectorOk := Contains(SectorList, req.sector, fold);
      if !sectorOk {
        return id, Some(InvalidSector);
      }
      var tierOk := Contains(MaintenanceTierList, req.maintenanceTier, fold);
      if !tierOk {
        return id, Some(InvalidMaintenanceTier);
      }
      var found := InProject(FilterMaintenances(maintenances, CreateFilter(req)), req.project);
      if |found| != 1 {
        return id, Some(MaintenanceNotFound);
      }
      var emIds := MapKeys(req.materialsForEquipment.Keys);
      var eqs := FindByIDs(equipment, emIds);
      AllFound(equipment, emIds, req.materialsForEquipment.Keys);
      if |eqs| != |emIds| {
        return id, Some(SomeEquipmentMachineryNotFound);
      }
      requests := requests[newId := MaterialRequest(newId, found[0].id, req.sector, req.description, 0,
                                                    req.materialsForEquipment, userId, now)];
      return newId, None;
    }

    /** UpdateMaterialsRequest: the stored request becomes UpdatedRequest, or stays and the error is returned. */
    method UpdateMaterialsRequest(id: string, upd: MaterialRequestUpdate) returns (err: Option<Error>)
      modifies this
      ensures profiles == old(profiles) && maintenances == old(maintenances) && equipment == old(equipment)
      ensures id !in old(requests) ==> err == Some(MaterialRequestNotFound) && requests == old(requests)
      ensures id in old(requests) && UpdatedRequest(old(requests)[id], upd, equipment).Failure? ==>
        err == Some(UpdatedRequest(old(requests)[id], upd, equipment).error) && requests == old(requests)
      ensures id in old(requests) && UpdatedRequest(old(requests)[id], upd, equipment).Success? ==>
        err == None && requests == old(requests)[id := UpdatedRequest(old(requests)[id], upd, equipment).value]
    {
      if id !in requests {
        return Some(MaterialRequestNotFound);
      }
      var r := requests[id];
      if r.numOfRequest != 0 {
        return Some(UpdateAfterGotNumOfRequest);
      }
      if upd.sector != "" {
        r := r.(sector := upd.sector);
      }
      if upd.description != "" {
        r := r.(description := upd.description);
      }
      if |upd.materialsForEquipment| > 0 {
        var emIds := MapKeys(upd.materialsForEquipment.Keys);
        var eqs := FindByIDs(equipment, emIds);
        AllFound(equipment, emIds, upd.materialsForEquipment.Keys);
        if |eqs| != |emIds| {
          return Some(SomeEquipmentMachineryNotFound);
        }
        r := r.(materialsForEquipment := upd.materialsForEquipment);
      }
      requests := requests[id := r];
      return None;
    }

    /**
     * UpdateNumberOfRequest: the request gets its number and its quantities are
     * folded into the reality lists of the selected profiles; if the number of
     * selected profiles differs from the number of requested equipment, nothing
     * changes.
     */
    method UpdateNumberOfRequest(id: string, num: int) returns (err: Option<Error>)
      modifies this
      ensures maintenances == old(maintenances) && equipment == old(equipment)
      ensures err == NumberingError(old(requests), old(profiles), id)
      ensures err.Some? ==> requests == old(requests) && profiles == old(profiles)
      ensures err.None? ==>
        && id in old(requests)
        && requests == old(requests)[id := old(requests)[id].(numOfRequest := num)]
        && ProfilesMerged(old(profiles), profiles, old(requests)[id], SelectedIds(old(profiles), old(requests)[id]))
    {
      if id !in requests {
        return Some(MaterialRequestNotFound);
      }
      var req := requests[id];
      var emIds := MapKeys(req.materialsForEquipment.Keys);
      var selected := FilterProfileIds(profiles, ProfileFilter([req.maintenanceInstanceId], emIds, req.sector));
      FilterIsSelected(profiles, req, emIds);
      if |selected| != |emIds| {
        return Some(SomeEquipmentMachineryNotFound);
      }
      var folded := FoldRequest(profiles, req, selected);
      profiles := folded;
      requests := requests[id := req.(numOfRequest := num)];
      return None;
    }
  }

  /** After numbering with a non-zero number, the request can no longer be edited. */
  lemma NumberingLocks(stored: MaterialRequest, num: int, upd: MaterialRequestUpdate, equipment: map<string, EquipmentMachinery>)
    requires num != 0
    ensures UpdatedRequest(stored.(numOfRequest := num), upd, equipment) == Failure(UpdateAfterGotNumOfRequest)
  {
  }
}
