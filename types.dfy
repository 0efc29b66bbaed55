/**
 * The records the material-management services read and write, the request
 * payloads they accept, their errors and their configuration tables.
 *
 * A Go map that may be nil is an `Option<map<..>>`: `None` is the nil map,
 * which reads like an empty map but panics when written to.
 */
module Types {
  import opened Wrappers

  /** One material line: name, unit and quantity (a float64 in Go, a real here). */
  datatype Material = Material(name: string, unit: string, quantity: real)

  /** The two material lists of one piece of equipment, each keyed by material name. */
  datatype MaterialsForEquipment = MaterialsForEquipment(
    replacementMaterials: Option<map<string, Material>>,
    consumableSupplies: Option<map<string, Material>>)

  /** Both lists allocated and empty, as `make(map[string]types.Material)` gives them. */
  const NoMaterials: MaterialsForEquipment := MaterialsForEquipment(Some(map[]), Some(map[]))

  /** A stored materials request, keyed by equipment ID. */
  datatype MaterialRequest = MaterialRequest(
    id: string,
    maintenanceInstanceId: string,
    sector: string,
    description: string,
    numOfRequest: int,
    materialsForEquipment: map<string, MaterialsForEquipment>,
    requestedBy: string,
    requestedAt: int)

  /** The estimated and the actually used materials of one equipment in one maintenance. */
  datatype MaterialsProfile = MaterialsProfile(
    id: string,
    maintenanceInstanceId: string,
    equipmentMachineryId: string,
    sector: string,
    index: int,
    estimate: MaterialsForEquipment,
    reality: MaterialsForEquipment)

  /** One maintenance instance of a project. */
  datatype Maintenance = Maintenance(
    id: string,
    project: string,
    projectCode: string,
    maintenanceTier: string,
    maintenanceNumber: string)

  datatype EquipmentMachinery = EquipmentMachinery(id: string, name: string, sector: string)

  /** Payload of CreateMaterialsRequest. */
  datatype CreateMaterialRequestReq = CreateMaterialRequestReq(
    project: string,
    maintenanceTier: string,
    maintenanceNumber: string,
    sector: string,
    description: string,
    materialsForEquipment: map<string, MaterialsForEquipment>)

  /** Payload of UpdateMaterialsRequest: empty fields mean "keep". */
  datatype MaterialRequestUpdate = MaterialRequestUpdate(
    sector: string,
    description: string,
    materialsForEquipment: map<string, MaterialsForEquipment>)

  /** Payload of UploadEstimateSheet, without the uploaded file and the sheet name. */
  datatype UploadEstimateSheetReq = UploadEstimateSheetReq(
    projectCode: string,
    maintenanceTier: string,
    maintenanceNumber: string,
    sector: string)

  /** The service errors of types/error.go that the modelled code returns, and a failed quantity parse. */
  datatype Error =
    | InvalidSector
    | InvalidMaintenanceTier
    | MaintenanceNotFound
    | MaterialRequestNotFound
    | UpdateAfterGotNumOfRequest
    | SomeEquipmentMachineryNotFound
    | QuantityParse(cell: string)

  const LabelReplacement: string := "vật tư thay thế"
  const LabelConsumable: string := "vật tư tiêu hao"

  const SectorList: seq<string> := [
    "Cơ khí", "Vũ khí", "Vỏ Tàu", "Đà đốc", "Điện tàu",
    "Động lực", "Van ống", "KT-ĐT", "Trang trí", "Cơ điện"
  ]

  const MaintenanceTierList: seq<string> := ["SCCĐ", "SCCN", "SCCV"]
}
