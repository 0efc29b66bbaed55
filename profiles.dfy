/**
 * UploadEstimateSheet of the materials profile service: the rows of an
 * estimate sheet become one materials profile per equipment. A row whose
 * first cell is an outline number ("1", "2.3") starts an equipment; a title
 * holding the replacement or the consumable label switches the kind of the
 * material rows that follow; a row whose first cell is "-" records one
 * material of the current kind in the current equipment's estimate.
 *
 * The equipment lookup-or-create, the stored profiles, float parsing and
 * lower-casing are what the loop sees of the world, in `World`.
 */
module Profiles {
  import opened Wrappers
  import opened Text
  import opened Utils
  import opened Types
  import opened Repository
  import opened IndexPath

  /** The kind of material rows currently being read. */
  datatype MaterialType = NoType | Replacement | Consumable

  /**
   * What the loop sees of the world: the ID the equipment lookup (or, when it
   * finds nothing, the creation) gives for a name, the stored profiles in query
   * order, strconv.ParseFloat, and the mapping of strings.ToLower.
   */
  datatype World = World(
    equipmentIdFor: string -> string,
    stored: seq<MaterialsProfile>,
    parseFloat: string -> Option<real>,
    lower: char -> char)

  /** The loop's fixed inputs: the request's sector and the maintenance found for it. */
  datatype Env = Env(sector: string, maintenanceId: string, world: World)

  /** The loop's variables: current equipment, current kind, last outline number, and the two maps it fills. */
  datatype SheetState = SheetState(
    currentName: string,
    currentType: MaterialType,
    lastIndex: string,
    profiles: map<string, MaterialsProfile>,
    equipmentNameToId: map<string, string>)

  const Initial: SheetState := SheetState("", NoType, "", map[], map[])

  /** The result of a row, or of the whole loop: go on, return an error, or panic. */
  datatype Outcome = Next(state: SheetState) | Abort(error: Error) | Panic

  // ---------------------------------------------------------------------------
  // ensureMaterialsProfile
  // ---------------------------------------------------------------------------

  /** The index of a new profile: the encoded outline number, 0 when it does not encode. */
  function IndexOf(indexStr: string): int
  {
    match Encode(indexStr)
    case Success(v) => v
    case Failure(_) => 0
  }

  /** A profile for the equipment that nothing stored provides yet, with empty, allocated material maps. */
  function NewProfile(env: Env, equipmentId: string, indexStr: string): MaterialsProfile
  {
    MaterialsProfile("", env.maintenanceId, equipmentId, env.sector, IndexOf(indexStr), NoMaterials, NoMaterials)
  }

  /** The stored profiles of this maintenance, equipment and sector. */
  function StoredFor(env: Env, equipmentId: string): seq<MaterialsProfile>
  {
    FilterProfiles(env.world.stored, ProfileFilter([env.maintenanceId], [equipmentId], env.sector))
  }

  /**
   * The profile map after ensureMaterialsProfile: unchanged if the equipment
   * name has a profile; otherwise the first stored profile of that maintenance,
   * equipment and sector, or else a new profile.
   */
  function EnsuredProfiles(profiles: map<string, MaterialsProfile>, env: Env, name: string,
                           equipmentId: string, indexStr: string): (r: map<string, MaterialsProfile>)
    ensures name in r && r.Keys == profiles.Keys + {name}
    ensures forall n :: n in profiles ==> n in r && r[n] == profiles[n]
  {
    if name in profiles then profiles
    else
      var found := StoredFor(env, equipmentId);
      if |found| > 0 then profiles[name := found[0]]
      else profiles[name := NewProfile(env, equipmentId, indexStr)]
  }

  /** Ensuring twice is ensuring once, whatever the second call's other arguments. */
  lemma EnsureIdempotent(profiles: map<string, MaterialsProfile>, env: Env, name: string,
                         equipmentId: string, indexStr: string, equipmentId': string, indexStr': string)
    ensures EnsuredProfiles(EnsuredProfiles(profiles, env, name, equipmentId, indexStr), env, name, equipmentId', indexStr')
      == EnsuredProfiles(profiles, env, name, equipmentId, indexStr)
  {
  }

  /** A new name gets a stored profile of that maintenance, equipment and sector when there is one. */
  lemma EnsureReusesStored(profiles: map<string, MaterialsProfile>, env: Env, name: string,
                           equipmentId: string, indexStr: string)
    requires name !in profiles && |StoredFor(env, equipmentId)| > 0
    ensures var p := EnsuredProfiles(profiles, env, name, equipmentId, indexStr)[name];
      && p == StoredFor(env, equipmentId)[0] && p in env.world.stored
      && p.maintenanceInstanceId == env.maintenanceId && p.equipmentMachineryId == equipmentId
      && (env.sector != "" ==> p.sector == env.sector)
  {
  }

  /**
   * Otherwise the new profile is keyed by the encoded outline number: for a
   * valid path written in dotted form, the packed levels.
   */
  lemma EnsureNewIndex(profiles: map<string, MaterialsProfile>, env: Env, name: string,
                       equipmentId: string, levels: seq<nat>)
    requires name !in profiles && |StoredFor(env, equipmentId)| == 0
    requires ValidPath(levels)
    ensures EnsuredProfiles(profiles, env, name, equipmentId, Format(levels))[name] ==
      MaterialsProfile("", env.maintenanceId, equipmentId, env.sector, Pack(levels), NoMaterials, NoMaterials)
  {
    RoundTrip(levels);
  }

  /** An outline number that does not encode (too deep, a level above 63) gives index 0. */
  lemma EnsureBadIndex(profiles: map<string, MaterialsProfile>, env: Env, name: string,
                       equipmentId: string, indexStr: string)
    requires name !in profiles && |StoredFor(env, equipmentId)| == 0
    requires Encode(indexStr).Failure?
    ensures EnsuredProfiles(profiles, env, name, equipmentId, indexStr)[name].index == 0
  {
  }

  /** New profiles sort like their outline numbers. */
  lemma NewProfilesInOutlineOrder(env: Env, a: seq<nat>, b: seq<nat>, idA: string, idB: string)
    requires ValidPath(a) && ValidPath(b)
    ensures NewProfile(env, idA, Format(a)).index < NewProfile(env, idB, Format(b)).index <==> Before(a, b)
  {
    EncodeOrder(a, b);
  }

  // ---------------------------------------------------------------------------
  // One row
  // ---------------------------------------------------------------------------

  /** The index-cell pattern ^\d+(\.\d+)*$: dot-separated runs of one or more ASCII digits. */
  predicate IsIndex(cell: string)
  {
    forall part :: part in Split(cell, '.') ==> part != [] && AllDigits(part)
  }

  /** The dotted form of any path is an index cell. */
  lemma FormatIsIndex(levels: seq<nat>)
    requires |levels| >= 1
    ensures IsIndex(Format(levels))
  {
    var parts := Decimals(levels);
    forall j | 0 <= j < |parts| ensures '.' !in parts[j] {
      ItoaPlain(levels[j]);
    }
    SplitJoin(parts, '.');
  }

  /** The state after an index row: a new current equipment, its ID recorded, its profile ensured, no kind. */
  function StartEquipment(env: Env, st: SheetState, indexCell: string, title: string): SheetState
  {
    var eqId := env.world.equipmentIdFor(title);
    st.(lastIndex := indexCell, currentName := title,
        equipmentNameToId := st.equipmentNameToId[title := eqId],
        profiles := EnsuredProfiles(st.profiles, env, title, eqId, indexCell),
        currentType := NoType)
  }

  /** The kind after the label checks on a lower-cased title; the consumable label is checked last, so it wins. */
  function KindAfter(t: MaterialType, lowered: string): MaterialType
  {
    if HasSubstring(lowered, LabelConsumable) then Consumable
    else if HasSubstring(lowered, LabelReplacement) then Replacement
    else t
  }

  /** The state after the index test and the label tests. */
  function Classified(env: Env, st: SheetState, indexCell: string, title: string): SheetState
  {
    var st1 := if IsIndex(indexCell) then StartEquipment(env, st, indexCell, title) else st;
    st1.(currentType := KindAfter(st1.currentType, MapCase(title, env.world.lower)))
  }

  /**
   * Writing into the current equipment's estimate; None when Go panics: the
   * current name has no profile (a nil pointer) or the map is nil.
   */
  function Recorded(st: SheetState, consumable: bool, m: Material): Option<SheetState>
  {
    if st.currentName !in st.profiles then None
    else
      var p := st.profiles[st.currentName];
      var list := if consumable then p.estimate.consumableSupplies else p.estimate.replacementMaterials;
      if list.None? then None
      else
        var list' := Some(list.value[m.name := m]);
        var estimate := if consumable then p.estimate.(consumableSupplies := list')
                        else p.estimate.(replacementMaterials := list');
        Some(st.(profiles := st.profiles[st.currentName := p.(estimate := estimate)]))
  }

  function OrPanic(o: Option<SheetState>): Outcome
  {
    if o.Some? then Next(o.value) else Panic
  }

  /** One iteration of the row loop, on a row of at least two cells. */
  function MaterialRow(env: Env, st: SheetState, row: seq<string>, indexCell: string, title: string): Outcome
    requires |row| >= 2
  {
    if st.currentType == Consumable && indexCell == "-" then
      if |row| < 3 then Next(st)
      else
        var unit := MapCase(TrimSpace(row[2]), env.world.lower);
        if |row| >= 4 then
          var q := env.world.parseFloat(TrimSpace(row[3]));
          if q.None? then Abort(QuantityParse(TrimSpace(row[3])))
          else OrPanic(Recorded(st, true, Material(title, unit, q.value)))
        else OrPanic(Recorded(st, true, Material(title, unit, 0.0)))
    else if st.currentType == Replacement && indexCell == "-" then
      if |row| < 4 then Next(st)
      else
        var unit := MapCase(TrimSpace(row[2]), env.world.lower);
        var q := env.world.parseFloat(TrimSpace(row[3]));
        if q.None? then Abort(QuantityParse(TrimSpace(row[3])))
        else OrPanic(Recorded(st, false, Material(title, unit, q.value)))
    else Next(st)
  }

  /** One iteration of the row loop; a row of fewer than two cells panics (row[1] is out of range). */
  function Step(env: Env, st: SheetState, row: seq<string>): Outcome
  {
    if |row| < 2 then Panic
    else
      var indexCell := TrimSpace(row[0]);
      var title := TrimSpace(row[1]);
      MaterialRow(env, Classified(env, st, indexCell, title), row, indexCell, title)
  }

  /** The row loop: rows in order, stopping at the first error or panic. */
  function RunRows(env: Env, st: SheetState, rows: seq<seq<string>>): Outcome
    decreases |rows|
  {
    if rows == [] then Next(st)
    else
      match Step(env, st, rows[0])
      case Next(st') => RunRows(env, st', rows[1..])
      case other => other
  }

  // ---------------------------------------------------------------------------
  // What rows do
  // ---------------------------------------------------------------------------

  /** A row without either label in its title. */
  predicate Unlabelled(env: Env, row: seq<string>)
    requires |row| >= 2
  {
    var lowered := MapCase(TrimSpace(row[1]), env.world.lower);
    !HasSubstring(lowered, LabelReplacement) && !HasSubstring(lowered, LabelConsumable)
  }

  /** An unlabelled index row starts its equipment: it becomes current, gets a profile, and the kind is reset. */
  lemma IndexRowStartsEquipment(env: Env, st: SheetState, row: seq<string>)
    requires |row| >= 2 && IsIndex(TrimSpace(row[0])) && Unlabelled(env, row)
    ensures Step(env, st, row).Next?
    ensures var st' := Step(env, st, row).state;
      && st'.currentName == TrimSpace(row[1]) && st'.currentType == NoType && st'.lastIndex == TrimSpace(row[0])
      && st'.currentName in st'.profiles && st'.profiles.Keys == st.profiles.Keys + {st'.currentName}
      && st'.equipmentNameToId == st.equipmentNameToId[TrimSpace(row[1]) := env.world.equipmentIdFor(TrimSpace(row[1]))]
  {
    assert TrimSpace(row[0]) != "-" by {
      assert Split("-", '.') == ["-"] by { SplitNoSeparator("-", '.'); }
      assert !AllDigits("-");
    }
  }

  /** A title with the consumable label selects consumables, even when it also holds the replacement label. */
  lemma ConsumableLabelWins(env: Env, st: SheetState, row: seq<string>)
    requires |row| >= 2 && TrimSpace(row[0]) != "-"
    requires HasSubstring(MapCase(TrimSpace(row[1]), env.world.lower), LabelConsumable)
    ensures Step(env, st, row).Next? && Step(env, st, row).state.currentType == Consumable
  {
  }

  /**
   * The label checks run on every row, whatever its first cell: the title's
   * consumable label wins, then the replacement label; a title with neither
   * keeps the kind, which an index row has reset.
   */
  lemma LabelsSetKind(env: Env, st: SheetState, indexCell: string, title: string)
    ensures var lowered := MapCase(title, env.world.lower);
      var k := Classified(env, st, indexCell, title).currentType;
      && (HasSubstring(lowered, LabelConsumable) ==> k == Consumable)
      && (!HasSubstring(lowered, LabelConsumable) && HasSubstring(lowered, LabelReplacement) ==> k == Replacement)
      && (!HasSubstring(lowered, LabelConsumable) && !HasSubstring(lowered, LabelReplacement) ==>
            k == if IsIndex(indexCell) then NoType else st.currentType)
  {
  }

  /**
   * A "-" row whose title holds the consumable label switches to consumables
   * and is then recorded as a consumable, under whatever kind was current.
   */
  lemma LabelledConsumableRowRecorded(env: Env, st: SheetState, row: seq<string>, q: real)
    requires |row| >= 4 && TrimSpace(row[0]) == "-"
    requires HasSubstring(MapCase(TrimSpace(row[1]), env.world.lower), LabelConsumable)
    requires st.currentName in st.profiles && st.profiles[st.currentName].estimate.consumableSupplies.Some?
    requires env.world.parseFloat(TrimSpace(row[3])) == Some(q)
    ensures Step(env, st, row).Next?
    ensures var p := st.profiles[st.currentName];
      var title := TrimSpace(row[1]);
      Step(env, st, row).state == st.(currentType := Consumable, profiles := st.profiles[st.currentName :=
        p.(estimate := p.estimate.(consumableSupplies := Some(p.estimate.consumableSupplies.value[title :=
          Material(title, MapCase(TrimSpace(row[2]), env.world.lower), q)])))])
  {
    NotIndex(row);
  }

  /**
   * A "-" row whose title holds only the replacement label switches to
   * replacement materials and is then recorded as one.
   */
  lemma LabelledReplacementRowRecorded(env: Env, st: SheetState, row: seq<string>, q: real)
    requires |row| >= 4 && TrimSpace(row[0]) == "-"
    requires HasSubstring(MapCase(TrimSpace(row[1]), env.world.lower), LabelReplacement)
    requires !HasSubstring(MapCase(TrimSpace(row[1]), env.world.lower), LabelConsumable)
    requires st.currentName in st.profiles && st.profiles[st.currentName].estimate.replacementMaterials.Some?
    requires env.world.parseFloat(TrimSpace(row[3])) == Some(q)
    ensures Step(env, st, row).Next?
    ensures var p := st.profiles[st.currentName];
      var title := TrimSpace(row[1]);
      Step(env, st, row).state == st.(currentType := Replacement, profiles := st.profiles[st.currentName :=
        p.(estimate := p.estimate.(replacementMaterials := Some(p.estimate.replacementMaterials.value[title :=
          Material(title, MapCase(TrimSpace(row[2]), env.world.lower), q)])))])
  {
    NotIndex(row);
  }

  /** A title with only the replacement label selects replacements. */
  lemma ReplacementLabel(env: Env, st: SheetState, row: seq<string>)
    requires |row| >= 2 && TrimSpace(row[0]) != "-"
    requires HasSubstring(MapCase(TrimSpace(row[1]), env.world.lower), LabelReplacement)
    requires !HasSubstring(MapCase(TrimSpace(row[1]), env.world.lower), LabelConsumable)
    ensures Step(env, st, row).Next? && Step(env, st, row).state.currentType == Replacement
  {
  }

  /** An unlabelled consumable row with fewer than three cells is skipped. */
  lemma ShortConsumableRowSkipped(env: Env, st: SheetState, row: seq<string>)
    requires |row| == 2 && TrimSpace(row[0]) == "-" && Unlabelled(env, row) && st.currentType == Consumable
    ensures Step(env, st, row) == Next(st)
  {
    NotIndex(row);
  }

  /** An unlabelled replacement row with fewer than four cells is skipped. */
  lemma ShortReplacementRowSkipped(env: Env, st: SheetState, row: seq<string>)
    requires 2 <= |row| < 4 && TrimSpace(row[0]) == "-" && Unlabelled(env, row) && st.currentType == Replacement
    ensures Step(env, st, row) == Next(st)
  {
    NotIndex(row);
  }

  /** "-" is not an outline number. */
  lemma NotIndex(row: seq<string>)
    requires |row| >= 1 && TrimSpace(row[0]) == "-"
    ensures !IsIndex(TrimSpace(row[0]))
  {
    SplitNoSeparator("-", '.');
    assert !AllDigits("-");
  }

  /**
   * An unlabelled three-cell consumable row records the material under its
   * title, with the trimmed, lower-cased unit and quantity 0, replacing any
   * earlier entry of that title; nothing else changes.
   */
  lemma ConsumableDefaultQuantity(env: Env, st: SheetState, row: seq<string>)
    requires |row| == 3 && TrimSpace(row[0]) == "-" && Unlabelled(env, row) && st.currentType == Consumable
    requires st.currentName in st.profiles && st.profiles[st.currentName].estimate.consumableSupplies.Some?
    ensures Step(env, st, row).Next?
    ensures var p := st.profiles[st.currentName];
      var title := TrimSpace(row[1]);
      Step(env, st, row).state == st.(profiles := st.profiles[st.currentName :=
        p.(estimate := p.estimate.(consumableSupplies := Some(p.estimate.consumableSupplies.value[title :=
          Material(title, MapCase(TrimSpace(row[2]), env.world.lower), 0.0)])))])
  {
    NotIndex(row);
  }

  /**
   * An unlabelled consumable row of four or more cells whose quantity parses
   * records the material under its title, with the trimmed, lower-cased unit
   * and the parsed quantity, replacing any earlier entry of that title;
   * nothing else changes.
   */
  lemma ConsumableRowRecorded(env: Env, st: SheetState, row: seq<string>, q: real)
    requires |row| >= 4 && TrimSpace(row[0]) == "-" && Unlabelled(env, row) && st.currentType == Consumable
    requires st.currentName in st.profiles && st.profiles[st.currentName].estimate.consumableSupplies.Some?
    requires env.world.parseFloat(TrimSpace(row[3])) == Some(q)
    ensures Step(env, st, row).Next?
    ensures var p := st.profiles[st.currentName];
      var title := TrimSpace(row[1]);
      Step(env, st, row).state == st.(profiles := st.profiles[st.currentName :=
        p.(estimate := p.estimate.(consumableSupplies := Some(p.estimate.consumableSupplies.value[title :=
          Material(title, MapCase(TrimSpace(row[2]), env.world.lower), q)])))])
  {
    NotIndex(row);
  }

  /**
   * An unlabelled replacement row of four or more cells whose quantity parses
   * records the material under its title in the replacement list, replacing
   * any earlier entry of that title; nothing else changes.
   */
  lemma ReplacementRowRecorded(env: Env, st: SheetState, row: seq<string>, q: real)
    requires |row| >= 4 && TrimSpace(row[0]) == "-" && Unlabelled(env, row) && st.currentType == Replacement
    requires st.currentName in st.profiles && st.profiles[st.currentName].estimate.replacementMaterials.Some?
    requires env.world.parseFloat(TrimSpace(row[3])) == Some(q)
    ensures Step(env, st, row).Next?
    ensures var p := st.profiles[st.currentName];
      var title := TrimSpace(row[1]);
      Step(env, st, row).state == st.(profiles := st.profiles[st.currentName :=
        p.(estimate := p.estimate.(replacementMaterials := Some(p.estimate.replacementMaterials.value[title :=
          Material(title, MapCase(TrimSpace(row[2]), env.world.lower), q)])))])
  {
    NotIndex(row);
  }

  /** A quantity that does not parse stops the upload with that error. */
  lemma UnparsableQuantityAborts(env: Env, st: SheetState, row: seq<string>)
    requires |row| >= 4 && TrimSpace(row[0]) == "-" && Unlabelled(env, row)
    requires st.currentType == Consumable || st.currentType == Replacement
    requires env.world.parseFloat(TrimSpace(row[3])).None?
    ensures Step(env, st, row) == Abort(QuantityParse(TrimSpace(row[3])))
  {
    NotIndex(row);
  }

  /**
   * A material row before any equipment row panics: there is no profile to
   * write into. This holds for every row the kind does not skip: a consumable
   * row of three or more cells, a replacement row of four or more, with a
   * quantity that parses when there is one.
   */
  lemma MaterialBeforeEquipmentPanics(env: Env, row: seq<string>, t: MaterialType)
    requires |row| >= 3 && TrimSpace(row[0]) == "-" && Unlabelled(env, row) && t != NoType
    requires t == Replacement ==> |row| >= 4
    requires |row| >= 4 ==> env.world.parseFloat(TrimSpace(row[3])).Some?
    ensures Step(env, Initial.(currentType := t), row) == Panic
  {
    NotIndex(row);
    var st := Initial.(currentType := t);
    assert Classified(env, st, TrimSpace(row[0]), TrimSpace(row[1])) == st;
    NoProfileRowPanics(env, st, row, TrimSpace(row[1]));
  }

  lemma NoProfileRowPanics(env: Env, st: SheetState, row: seq<string>, title: string)
    requires |row| >= 3 && st.currentName !in st.profiles && st.currentType != NoType
    requires st.currentType == Replacement ==> |row| >= 4
    requires |row| >= 4 ==> env.world.parseFloat(TrimSpace(row[3])).Some?
    ensures MaterialRow(env, st, row, "-", title) == Panic
  {
  }

  /** Too few cells in any row is a panic. */
  lemma ShortRowPanics(env: Env, st: SheetState, row: seq<string>)
    requires |row| < 2
    ensures Step(env, st, row) == Panic
  {
  }

  // ---------------------------------------------------------------------------
  // The invariant of the loop
  // ---------------------------------------------------------------------------

  /**
   * Every equipment name seen has an ID and a profile, and each profile
   * belongs to the request's maintenance, its equipment and (when given) its
   * sector.
   */
  predicate Consistent(env: Env, st: SheetState)
  {
    && st.profiles.Keys == st.equipmentNameToId.Keys
    && forall n :: n in st.profiles ==>
      && st.profiles[n].maintenanceInstanceId == env.maintenanceId
      && st.profiles[n].equipmentMachineryId == st.equipmentNameToId[n]
      && (env.sector != "" ==> st.profiles[n].sector == env.sector)
  }

  /** Recording a material keeps a profile's maintenance, equipment and sector. */
  lemma RecordedConsistent(env: Env, st: SheetState, consumable: bool, m: Material)
    requires Consistent(env, st) && Recorded(st, consumable, m).Some?
    ensures Consistent(env, Recorded(st, consumable, m).value)
  {
  }

  /** Each equipment name is looked up by name alone, so it keeps its ID. */
  lemma StartConsistent(env: Env, st: SheetState, indexCell: string, title: string)
    requires Consistent(env, st)
    requires forall n :: n in st.equipmentNameToId ==> st.equipmentNameToId[n] == env.world.equipmentIdFor(n)
    ensures Consistent(env, StartEquipment(env, st, indexCell, title))
  {
    var eqId := env.world.equipmentIdFor(title);
    if title !in st.profiles && |StoredFor(env, eqId)| > 0 {
      EnsureReusesStored(st.profiles, env, title, eqId, indexCell);
    }
  }

  /** The IDs recorded are the lookup's. */
  predicate LookedUp(env: Env, st: SheetState)
  {
    forall n :: n in st.equipmentNameToId ==> st.equipmentNameToId[n] == env.world.equipmentIdFor(n)
  }

  /** The index and label tests keep the invariant. */
  lemma ClassifiedConsistent(env: Env, st: SheetState, indexCell: string, title: string)
    requires Consistent(env, st) && LookedUp(env, st)
    ensures Consistent(env, Classified(env, st, indexCell, title)) && LookedUp(env, Classified(env, st, indexCell, title))
  {
    if IsIndex(indexCell) {
      StartConsistent(env, st, indexCell, title);
    }
  }

  /** A material row, once classified, keeps the invariant. */
  lemma MaterialRowConsistent(env: Env, c: SheetState, row: seq<string>, indexCell: string, title: string)
    requires |row| >= 2 && Consistent(env, c) && LookedUp(env, c)
    requires MaterialRow(env, c, row, indexCell, title).Next?
    ensures Consistent(env, MaterialRow(env, c, row, indexCell, title).state)
    ensures LookedUp(env, MaterialRow(env, c, row, indexCell, title).state)
  {
    if indexCell == "-" && |row| >= 3 && (c.currentType == Consumable || (c.currentType == Replacement && |row| >= 4)) {
      var consumable := c.currentType == Consumable;
      var unit := MapCase(TrimSpace(row[2]), env.world.lower);
      var q := if |row| >= 4 then env.world.parseFloat(TrimSpace(row[3])) else Some(0.0);
      RecordedConsistent(env, c, consumable, Material(title, unit, q.value));
    }
  }

  /** One row keeps the invariant. */
  lemma StepConsistent(env: Env, st: SheetState, row: seq<string>)
    requires Consistent(env, st) && LookedUp(env, st)
    requires Step(env, st, row).Next?
    ensures Consistent(env, Step(env, st, row).state) && LookedUp(env, Step(env, st, row).state)
  {
    var indexCell := TrimSpace(row[0]);
    var title := TrimSpace(row[1]);
    ClassifiedConsistent(env, st, indexCell, title);
    MaterialRowConsistent(env, Classified(env, st, indexCell, title), row, indexCell, title);
  }

  /**
   * The whole loop keeps the invariant: the saved profiles are one per
   * equipment of the request's maintenance. The equipment conjunct of
   * Consistent rests on the lookup being one function of the name for the
   * whole upload (World.equipmentIdFor). In Go, a second index row with the
   * same title repeats the lookup and may overwrite equipmentNameToID with a
   * different ID, while the profile ensured for the first row keeps the first
   * ID; that case is outside this model.
   */
  lemma {:induction false} RunConsistent(env: Env, st: SheetState, rows: seq<seq<string>>)
    requires Consistent(env, st) && LookedUp(env, st)
    requires RunRows(env, st, rows).Next?
    ensures Consistent(env, RunRows(env, st, rows).state)
    decreases |rows|
  {
    if rows != [] {
      StepConsistent(env, st, rows[0]);
      RunConsistent(env, Step(env, st, rows[0]).state, rows[1..]);
    }
  }

  /** Running a block of rows, then the rest: the loop goes on only while every row steps on. */
  lemma {:induction false} RunRowsAppend(env: Env, st: SheetState, a: seq<seq<string>>, b: seq<seq<string>>)
    ensures RunRows(env, st, a + b) == match RunRows(env, st, a)
      case Next(st') => RunRows(env, st', b)
      case other => other
    decreases |a|
  {
    if a != [] {
      assert (a + b)[0] == a[0] && (a + b)[1..] == a[1..] + b;
      match Step(env, st, a[0])
      case Next(st') => RunRowsAppend(env, st', a[1..], b);
      case _ =>
    } else {
      assert a + b == b;
    }
  }

  /**
   * A row that aborts ends the loop with its error, whatever rows follow: the
   * loop over rows[k..] stops at row i when the rows k..i-1 before it ran.
   */
  lemma RowAbortsRun(env: Env, st: SheetState, rows: seq<seq<string>>, k: nat, i: nat, before: SheetState, e: Error)
    requires k <= i < |rows|
    requires RunRows(env, st, rows[k..i]) == Next(before)
    requires Step(env, before, rows[i]) == Abort(e)
    ensures RunRows(env, st, rows[k..]) == Abort(e)
  {
    SliceAround(rows, k, i);
    AbortBetween(env, st, rows[k..i], rows[i], rows[i + 1..], before, e);
  }

  lemma AbortBetween(env: Env, st: SheetState, a: seq<seq<string>>, row: seq<string>, b: seq<seq<string>>,
                     before: SheetState, e: Error)
    requires RunRows(env, st, a) == Next(before)
    requires Step(env, before, row) == Abort(e)
    ensures RunRows(env, st, a + ([row] + b)) == Abort(e)
  {
    RunRowsAppend(env, st, a, [row] + b);
    assert ([row] + b)[0] == row;
  }

  lemma SliceAround<T>(s: seq<T>, k: nat, i: nat)
    requires k <= i < |s|
    ensures s[k..] == s[k..i] + ([s[i]] + s[i + 1..])
  {
  }

  // ---------------------------------------------------------------------------
  // The loop, on the variables it updates
  // ---------------------------------------------------------------------------

  /** The variables of UploadEstimateSheet's row loop, including the profile map it fills in place. */
  class SheetLoader {
    const env: Env
    var currentName: string
    var currentType: MaterialType
    var lastIndex: string
    var profiles: map<string, MaterialsProfile>
    var equipmentNameToId: map<string, string>

    function State(): SheetState
      reads this
    {
      SheetState(currentName, currentType, lastIndex, profiles, equipmentNameToId)
    }

    constructor (env: Env)
      ensures this.env == env && State() == Initial
    {
      this.env := env;
      currentName, currentType, lastIndex := "", NoType, "";
      profiles, equipmentNameToId := map[], map[];
    }

    /** ensureMaterialsProfile on the loader's profile map. */
    method EnsureMaterialsProfile(name: string, equipmentId: string, indexStr: string)
      modifies this
      ensures State() == old(State()).(profiles := EnsuredProfiles(old(profiles), env, name, equipmentId, indexStr))
    {
      if name !in profiles {
        var found := StoredFor(env, equipmentId);
        if |found| > 0 {
          profiles := profiles[name := found[0]];
        } else {
          var index := 0;
          var encoded := Encode(indexStr);
          if encoded.Success? {
            index := encoded.value;
          }
          profiles := profiles[name := MaterialsProfile("", env.maintenanceId, equipmentId, env.sector, index,
                                                        NoMaterials, NoMaterials)];
        }
      }
    }

    /** Writes into the current equipment's estimate; false where Go panics. */
    method Record(consumable: bool, m: Material) returns (ok: bool)
      modifies this
      ensures ok <==> Recorded(old(State()), consumable, m).Some?
      ensures ok ==> State() == Recorded(old(State()), consumable, m).value
      ensures !ok ==> State() == old(State())
    {
      if currentName !in profiles {
        return false;
      }
      var p := profiles[currentName];
      if consumable {
        if p.estimate.consumableSupplies.None? {
          return false;
        }
        var list := p.estimate.consumableSupplies.value[m.name := m];
        profiles := profiles[currentName := p.(estimate := p.estimate.(consumableSupplies := Some(list)))];
      } else {
        if p.estimate.replacementMaterials.None? {
          return false;
        }
        var list := p.estimate.replacementMaterials.value[m.name := m];
        profiles := profiles[currentName := p.(estimate := p.estimate.(replacementMaterials := Some(list)))];
      }
      return true;
    }

    /** One iteration of the row loop. */
    method ProcessRow(row: seq<string>) returns (outcome: Outcome)
      modifies this
      ensures outcome == Step(env, old(State()), row)
      ensures outcome.Next? ==> State() == outcome.state
    {
      if |row| < 2 {
        return Panic;
      }
      var indexCell := TrimSpace(row[0]);
      var title := TrimSpace(row[1]);
      if IsIndex(indexCell) {
        lastIndex := indexCell;
        currentName := title;
        var eqId := env.world.equipmentIdFor(title);
        equipmentNameToId := equipmentNameToId[title := eqId];
        EnsureMaterialsProfile(title, eqId, indexCell);
        currentType := NoType;
        assert State() == StartEquipment(env, old(State()), indexCell, title);
      }
      ghost var st1 := State();
      var lowered := MapCase(title, env.world.lower);
      if HasSubstring(lowered, LabelReplacement) {
        currentType := Replacement;
      }
      if HasSubstring(lowered, LabelConsumable) {
        currentType := Consumable;
      }
      assert currentType == KindAfter(st1.currentType, lowered);
      outcome := MaterialStep(row, indexCell, title);
    }

    /** The material part of one iteration, once the row is classified. */
    method MaterialStep(row: seq<string>, indexCell: string, title: string) returns (outcome: Outcome)
      requires |row| >= 2
      modifies this
      ensures outcome == MaterialRow(env, old(State()), row, indexCell, title)
      ensures outcome.Next? ==> State() == outcome.state
    {
      if currentType == Consumable && indexCell == "-" {
        if |row| < 3 {
          return Next(State());
        }
        var unit := MapCase(TrimSpace(row[2]), env.world.lower);
        var quantity := 0.0;
        if |row| >= 4 {
          var parsed := env.world.parseFloat(TrimSpace(row[3]));
          if parsed.None? {
            return Abort(QuantityParse(TrimSpace(row[3])));
          }
          quantity := parsed.value;
        }
        var ok := Record(true, Material(title, unit, quantity));
        return if ok then Next(State()) else Panic;
      }
      if currentType == Replacement && indexCell == "-" {
        if |row| < 4 {
          return Next(State());
        }
        var unit := MapCase(TrimSpace(row[2]), env.world.lower);
        var parsed := env.world.parseFloat(TrimSpace(row[3]));
        if parsed.None? {
          return Abort(QuantityParse(TrimSpace(row[3])));
        }
        var ok := Record(false, Material(title, unit, parsed.value));
        return if ok then Next(State()) else Panic;
      }
      return Next(State());
    }

    /** The row loop over `rows`. */
    method LoadRows(rows: seq<seq<string>>) returns (outcome: Outcome)
      modifies this
      ensures outcome == RunRows(env, old(State()), rows)
      ensures outcome.Next? ==> State() == outcome.state
    {
      var i := 0;
      while i < |rows|
        invariant 0 <= i <= |rows|
        invariant RunRows(env, old(State()), rows) == RunRows(env, State(), rows[i..])
        decreases |rows| - i
      {
        assert rows[i..][1..] == rows[i + 1..];
        var step := ProcessRow(rows[i]);
        if !step.Next? {
          return step;
        }
        i := i + 1;
      }
      return Next(State());
    }
  }

  // ---------------------------------------------------------------------------
  // UploadEstimateSheet
  // ---------------------------------------------------------------------------

  /** How an upload ends: the profiles handed to SaveMany (keyed by equipment name), an error, or a panic. */
  datatype Upload = Saved(profiles: map<string, MaterialsProfile>) | Failed(error: Error) | Panicked

  /** The maintenances of the request's project code, tier and number. */
  function MaintenancesFor(req: UploadEstimateSheetReq, maintenances: seq<Maintenance>): seq<Maintenance>
  {
    FilterMaintenances(maintenances, MaintenanceFilter("", req.projectCode, req.maintenanceTier, req.maintenanceNumber))
  }

  /**
   * UploadEstimateSheet: the sector and the tier must be listed, exactly one
   * maintenance must have the project code, tier and number, and the sheet
   * must have a header row; the remaining rows go through the row loop.
   */
  function UploadResult(req: UploadEstimateSheetReq, fold: char -> char, maintenances: seq<Maintenance>,
                        world: World, rows: seq<seq<string>>): Upload
  {
    if !InList(SectorList, req.sector, fold) then Failed(InvalidSector)
    else if !InList(MaintenanceTierList, req.maintenanceTier, fold) then Failed(InvalidMaintenanceTier)
    else
      var found := MaintenancesFor(req, maintenances);
      if |found| != 1 then Failed(MaintenanceNotFound)
      else if rows == [] then Panicked
      else
        match RunRows(Env(req.sector, found[0].id, world), Initial, rows[1..])
        case Next(st) => Saved(st.profiles)
        case Abort(e) => Failed(e)
        case Panic => Panicked
  }

  /** The saved profiles all belong to the maintenance found for the request, and to its sector. */
  lemma SavedForRequest(req: UploadEstimateSheetReq, fold: char -> char, maintenances: seq<Maintenance>,
                        world: World, rows: seq<seq<string>>)
    requires UploadResult(req, fold, maintenances, world, rows).Saved?
    ensures var saved := UploadResult(req, fold, maintenances, world, rows).profiles;
      exists m :: (m in maintenances
        && (req.projectCode != "" ==> m.projectCode == req.projectCode)
        && (req.maintenanceTier != "" ==> m.maintenanceTier == req.maintenanceTier)
        && (req.maintenanceNumber != "" ==> m.maintenanceNumber == req.maintenanceNumber)
        && forall n :: n in saved ==>
          && saved[n].maintenanceInstanceId == m.id
          && (req.sector != "" ==> saved[n].sector == req.sector))
  {
    var found := FilterMaintenances(maintenances, MaintenanceFilter("", req.projectCode, req.maintenanceTier, req.maintenanceNumber));
    var env := Env(req.sector, found[0].id, world);
    RunConsistent(env, Initial, rows[1..]);
    assert found[0] in maintenances;
  }

  /**
   * A row after the header whose quantity does not parse (or that aborts for
   * any reason) fails the whole upload with its error, so no profile is saved.
   */
  lemma AbortedRowFailsUpload(req: UploadEstimateSheetReq, fold: char -> char, maintenances: seq<Maintenance>,
                              world: World, rows: seq<seq<string>>, i: nat, before: SheetState, e: Error)
    requires InList(SectorList, req.sector, fold) && InList(MaintenanceTierList, req.maintenanceTier, fold)
    requires |MaintenancesFor(req, maintenances)| == 1
    requires 1 <= i < |rows|
    requires RunRows(Env(req.sector, MaintenancesFor(req, maintenances)[0].id, world), Initial, rows[1..i]) == Next(before)
    requires Step(Env(req.sector, MaintenancesFor(req, maintenances)[0].id, world), before, rows[i]) == Abort(e)
    ensures UploadResult(req, fold, maintenances, world, rows) == Failed(e)
  {
    RowAbortsRun(Env(req.sector, MaintenancesFor(req, maintenances)[0].id, world), Initial, rows, 1, i, before, e);
  }

  /** UploadEstimateSheet (its checks, then the row loop over the rows after the header). */
  method UploadEstimateSheet(req: UploadEstimateSheetReq, fold: char -> char, maintenances: seq<Maintenance>,
                             world: World, rows: seq<seq<string>>) returns (result: Upload)
    ensures result == UploadResult(req, fold, maintenances, world, rows)
  {
    var sectorOk := Contains(SectorList, req.sector, fold);
    if !sectorOk {
      return Failed(InvalidSector);
    }
    var tierOk := Contains(MaintenanceTierList, req.maintenanceTier, fold);
    if !tierOk {
      return Failed(InvalidMaintenanceTier);
    }
    var found := MaintenancesFor(req, maintenances);
    if |found| != 1 {
      return Failed(MaintenanceNotFound);
    }
    if rows == [] {
      return Panicked;
    }
    var loader := new SheetLoader(Env(req.sector, found[0].id, world));
    var outcome := loader.LoadRows(rows[1..]);
    match outcome
    case Next(st) => return Saved(loader.profiles);
    case Abort(e) => return Failed(e);
    case Panic => return Panicked;
  }
}
