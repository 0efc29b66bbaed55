/**
 * What the repository queries the services call return, stated over the
 * stored collections: each filter field constrains the query only when it is
 * non-empty, and a lookup by IDs returns the records found keyed by ID.
 */
module Repository {
  import opened Types
  import opened Utils

  // ---------------------------------------------------------------------------
  // maintenanceRepository.Filter
  // ---------------------------------------------------------------------------

  /** The maintenance filter record. `project` is a field of it that the query never reads. */
  datatype MaintenanceFilter = MaintenanceFilter(
    project: string,
    projectCode: string,
    maintenanceTier: string,
    maintenanceNumber: string)

  /** A maintenance is selected when it agrees with every non-empty field the query reads. */
  predicate MaintenanceMatches(m: Maintenance, f: MaintenanceFilter)
  {
    && (f.projectCode != "" ==> m.projectCode == f.projectCode)
    && (f.maintenanceTier != "" ==> m.maintenanceTier == f.maintenanceTier)
    && (f.maintenanceNumber != "" ==> m.maintenanceNumber == f.maintenanceNumber)
  }

  /** The maintenances selected by `f`, in stored order. */
  function FilterMaintenances(stored: seq<Maintenance>, f: MaintenanceFilter): (r: seq<Maintenance>)
    ensures |r| <= |stored|
    ensures forall i :: 0 <= i < |r| ==> r[i] in stored && MaintenanceMatches(r[i], f)
    ensures forall m :: m in stored && MaintenanceMatches(m, f) ==> m in r
  {
    if stored == [] then []
    else (if MaintenanceMatches(stored[0], f) then [stored[0]] else []) + FilterMaintenances(stored[1..], f)
  }

  // ---------------------------------------------------------------------------
  // equipmentMachineryRepo.FindByIDs
  // ---------------------------------------------------------------------------

  /** The records whose ID is among `ids`, keyed by ID; IDs that are not stored are dropped silently. */
  function FindByIDs(stored: map<string, EquipmentMachinery>, ids: seq<string>): (found: map<string, EquipmentMachinery>)
    ensures found.Keys == stored.Keys * set i | i in ids
    ensures forall id :: id in found ==> found[id] == stored[id]
  {
    map id | id in stored.Keys && id in ids :: stored[id]
  }

  /**
   * The services compare the number of records found with the number of IDs
   * asked for. For the distinct keys of a map, the two agree exactly when
   * every ID is stored.
   */
  lemma AllFound(stored: map<string, EquipmentMachinery>, ids: seq<string>, wanted: set<string>)
    requires IsOrderOf(ids, wanted)
    ensures |FindByIDs(stored, ids)| == |ids| <==> wanted <= stored.Keys
  {
    OrderLength(ids, wanted);
    var found := FindByIDs(stored, ids).Keys;
    assert found == stored.Keys * wanted;
    assert wanted == found + (wanted - found);
    assert |wanted| == |found| + |wanted - found|;
    if !(wanted <= stored.Keys) {
      var w :| w in wanted && w !in stored.Keys;
      assert w in wanted - found;
    }
  }

  // ---------------------------------------------------------------------------
  // materialsProfileRepository.Filter
  // ---------------------------------------------------------------------------

  datatype ProfileFilter = ProfileFilter(
    maintenanceInstanceIds: seq<string>,
    equipmentMachineryIds: seq<string>,
    sector: string)

  /** `$in` on each non-empty ID list, equality on a non-empty sector. */
  predicate ProfileMatches(p: MaterialsProfile, f: ProfileFilter)
  {
    && (|f.maintenanceInstanceIds| > 0 ==> p.maintenanceInstanceId in f.maintenanceInstanceIds)
    && (|f.equipmentMachineryIds| > 0 ==> p.equipmentMachineryId in f.equipmentMachineryIds)
    && (f.sector != "" ==> p.sector == f.sector)
  }

  /** The IDs of the stored profiles that `f` selects. */
  function FilterProfileIds(stored: map<string, MaterialsProfile>, f: ProfileFilter): (ids: set<string>)
    ensures forall id :: id in ids <==> id in stored && ProfileMatches(stored[id], f)
  {
    set id | id in stored.Keys && ProfileMatches(stored[id], f)
  }

  /** The stored profiles that `f` selects, in stored order. */
  function FilterProfiles(stored: seq<MaterialsProfile>, f: ProfileFilter): (r: seq<MaterialsProfile>)
    ensures |r| <= |stored|
    ensures forall i :: 0 <= i < |r| ==> r[i] in stored && ProfileMatches(r[i], f)
    ensures forall p :: p in stored && ProfileMatches(p, f) ==> p in r
  {
    if stored == [] then []
    else (if ProfileMatches(stored[0], f) then [stored[0]] else []) + FilterProfiles(stored[1..], f)
  }
}
