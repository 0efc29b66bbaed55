/**
 * The material table of an exported materials request. For each requested
 * equipment, in the request map's iteration order, there is a bold heading
 * row (numbered I, II, ... in the document) titled with the equipment's name,
 * followed by one numbered row per replacement material. Then comes one more
 * heading for the consumables, and one row per consumable name, where the
 * consumables of all equipment are added up by name. Material rows share one
 * counter that starts at 1.
 */
module Export {
  import opened Wrappers
  import opened Text
  import opened Utils
  import opened Types
  import opened Repository
  import opened Merge

  /** One inserted table row: a heading, or a material line (number, name, unit, quantity). */
  datatype Row =
    | Heading(number: nat, title: string)
    | Item(number: nat, name: string, unit: string, quantity: real)

  // ---------------------------------------------------------------------------
  // The table as a function of the iteration orders
  // ---------------------------------------------------------------------------

  /** One material line per item, numbered from `first`. */
  function ItemRows(items: seq<Material>, first: nat): (rows: seq<Row>)
    ensures |rows| == |items|
    ensures forall i :: 0 <= i < |items| ==>
      rows[i] == Item(first + i, items[i].name, items[i].unit, items[i].quantity)
  {
    if items == [] then []
    else
      var n := |items| - 1;
      ItemRows(items[..n], first) + [Item(first + n, items[n].name, items[n].unit, items[n].quantity)]
  }

  /** One more item, one more line at the end. */
  lemma ItemRowsSnoc(items: seq<Material>, x: Material, first: nat)
    ensures ItemRows(items + [x], first) == ItemRows(items, first) + [Item(first + |items|, x.name, x.unit, x.quantity)]
  {
    assert (items + [x])[..|items|] == items;
  }

  /** One line per consumable name of `order`, numbered from `first`, with that entry's unit and quantity. */
  function ConsumableRows(consumables: map<string, Material>, order: seq<string>, first: nat): (rows: seq<Row>)
    requires forall k :: k in order ==> k in consumables
    ensures |rows| == |order|
    ensures forall i :: 0 <= i < |order| ==>
      rows[i] == Item(first + i, order[i], consumables[order[i]].unit, consumables[order[i]].quantity)
  {
    if order == [] then []
    else
      var n := |order| - 1;
      ConsumableRows(consumables, order[..n], first) +
        [Item(first + n, order[n], consumables[order[n]].unit, consumables[order[n]].quantity)]
  }

  /** The total number of items of the lists. */
  function TotalLen(lists: seq<seq<Material>>): nat
  {
    if lists == [] then 0 else TotalLen(lists[..|lists| - 1]) + |lists[|lists| - 1]|
  }

  /** The equipment sections: section i has heading number i + 1 and continues the material numbering. */
  function Sections(titles: seq<string>, lists: seq<seq<Material>>): seq<Row>
    requires |titles| == |lists|
  {
    if titles == [] then []
    else
      var n := |titles| - 1;
      Sections(titles[..n], lists[..n]) + [Heading(n + 1, titles[n])] + ItemRows(lists[n], 1 + TotalLen(lists[..n]))
  }

  /** The inserted rows, given the titles, the replacement lists and the consumable order. */
  function Table(titles: seq<string>, lists: seq<seq<Material>>, consumableTitle: string,
                 consumables: map<string, Material>, consumableOrder: seq<string>): seq<Row>
    requires |titles| == |lists|
    requires forall k :: k in consumableOrder ==> k in consumables
  {
    Sections(titles, lists) + [Heading(|titles| + 1, consumableTitle)]
      + ConsumableRows(consumables, consumableOrder, 1 + TotalLen(lists))
  }

  /** The equipment names, in the given order. */
  function Titles(equipment: map<string, EquipmentMachinery>, order: seq<string>): (titles: seq<string>)
    requires forall k :: k in order ==> k in equipment
    ensures |titles| == |order|
    ensures forall i :: 0 <= i < |order| ==> titles[i] == equipment[order[i]].name
  {
    if order == [] then [] else Titles(equipment, order[..|order| - 1]) + [equipment[order[|order| - 1]].name]
  }

  // ---------------------------------------------------------------------------
  // Numbering
  // ---------------------------------------------------------------------------

  function HeadingNumbers(rows: seq<Row>): seq<nat>
  {
    if rows == [] then []
    else HeadingNumbers(rows[..|rows| - 1]) + (if rows[|rows| - 1].Heading? then [rows[|rows| - 1].number] else [])
  }

  function HeadingTitles(rows: seq<Row>): seq<string>
  {
    if rows == [] then []
    else HeadingTitles(rows[..|rows| - 1]) + (if rows[|rows| - 1].Heading? then [rows[|rows| - 1].title] else [])
  }

  function ItemNumbers(rows: seq<Row>): seq<nat>
  {
    if rows == [] then []
    else ItemNumbers(rows[..|rows| - 1]) + (if rows[|rows| - 1].Item? then [rows[|rows| - 1].number] else [])
  }

  /** `s` counts up by one from `first`. */
  predicate Consecutive(s: seq<nat>, first: nat)
  {
    forall i :: 0 <= i < |s| ==> s[i] == first + i
  }

  /** The headings, heading titles and item numbers of two row blocks put together. */
  lemma RowsAppend(a: seq<Row>, b: seq<Row>)
    ensures HeadingNumbers(a + b) == HeadingNumbers(a) + HeadingNumbers(b)
    ensures HeadingTitles(a + b) == HeadingTitles(a) + HeadingTitles(b)
    ensures ItemNumbers(a + b) == ItemNumbers(a) + ItemNumbers(b)
  {
    HeadingNumbersAppend(a, b);
    HeadingTitlesAppend(a, b);
    ItemNumbersAppend(a, b);
  }

  lemma {:induction false} HeadingNumbersAppend(a: seq<Row>, b: seq<Row>)
    ensures HeadingNumbers(a + b) == HeadingNumbers(a) + HeadingNumbers(b)
  {
    if b == [] {
      assert a + b == a;
    } else {
      var n := |b| - 1;
      assert (a + b)[..|a + b| - 1] == a + b[..n];
      assert (a + b)[|a + b| - 1] == b[n];
      HeadingNumbersAppend(a, b[..n]);
    }
  }

  lemma {:induction false} HeadingTitlesAppend(a: seq<Row>, b: seq<Row>)
    ensures HeadingTitles(a + b) == HeadingTitles(a) + HeadingTitles(b)
  {
    if b == [] {
      assert a + b == a;
    } else {
      var n := |b| - 1;
      assert (a + b)[..|a + b| - 1] == a + b[..n];
      assert (a + b)[|a + b| - 1] == b[n];
      HeadingTitlesAppend(a, b[..n]);
    }
  }

  lemma {:induction false} ItemNumbersAppend(a: seq<Row>, b: seq<Row>)
    ensures ItemNumbers(a + b) == ItemNumbers(a) + ItemNumbers(b)
  {
    if b == [] {
      assert a + b == a;
    } else {
      var n := |b| - 1;
      assert (a + b)[..|a + b| - 1] == a + b[..n];
      assert (a + b)[|a + b| - 1] == b[n];
      ItemNumbersAppend(a, b[..n]);
    }
  }

  /** Two consecutive runs, the second starting where the first ends, make one. */
  lemma ConsecutiveAppend(a: seq<nat>, b: seq<nat>, first: nat)
    requires Consecutive(a, first) && Consecutive(b, first + |a|)
    ensures Consecutive(a + b, first)
  {
  }

  /** A block of items numbered from `first` has no heading and consecutive item numbers. */
  lemma {:induction false} ItemsOnly(rows: seq<Row>, first: nat)
    requires forall i :: 0 <= i < |rows| ==> rows[i].Item? && rows[i].number == first + i
    ensures HeadingNumbers(rows) == [] && HeadingTitles(rows) == []
    ensures Consecutive(ItemNumbers(rows), first) && |ItemNumbers(rows)| == |rows|
  {
    if rows != [] {
      var n := |rows| - 1;
      ItemsOnly(rows[..n], first);
      assert ItemNumbers(rows) == ItemNumbers(rows[..n]) + [first + n];
    }
  }

  /** The sections number their headings from 1, carry the titles in order, and number their items from 1. */
  lemma {:induction false} SectionsNumbering(titles: seq<string>, lists: seq<seq<Material>>)
    requires |titles| == |lists|
    ensures Consecutive(HeadingNumbers(Sections(titles, lists)), 1)
    ensures |HeadingNumbers(Sections(titles, lists))| == |titles|
    ensures HeadingTitles(Sections(titles, lists)) == titles
    ensures Consecutive(ItemNumbers(Sections(titles, lists)), 1)
    ensures |ItemNumbers(Sections(titles, lists))| == TotalLen(lists)
  {
    if titles != [] {
      var n := |titles| - 1;
      SectionsNumbering(titles[..n], lists[..n]);
      NumberingStep(Sections(titles[..n], lists[..n]), titles[..n], titles[n], lists[n], TotalLen(lists[..n]));
      assert titles == titles[..n] + [titles[n]];
    }
  }

  /** One more section after rows numbered so far keeps the numbering. */
  lemma NumberingStep(before: seq<Row>, titles: seq<string>, title: string, list: seq<Material>, total: nat)
    requires Consecutive(HeadingNumbers(before), 1) && |HeadingNumbers(before)| == |titles|
    requires HeadingTitles(before) == titles
    requires Consecutive(ItemNumbers(before), 1) && |ItemNumbers(before)| == total
    ensures var rows := before + [Heading(|titles| + 1, title)] + ItemRows(list, 1 + total);
      && Consecutive(HeadingNumbers(rows), 1) && |HeadingNumbers(rows)| == |titles| + 1
      && HeadingTitles(rows) == titles + [title]
      && Consecutive(ItemNumbers(rows), 1) && |ItemNumbers(rows)| == total + |list|
  {
    var heading := [Heading(|titles| + 1, title)];
    var items := ItemRows(list, 1 + total);
    ItemsOnly(items, 1 + total);
    RowsAppend(before, heading);
    RowsAppend(before + heading, items);
    HeadingsAppend(HeadingNumbers(before), |titles|);
    ConsecutiveAppend(ItemNumbers(before), ItemNumbers(items), 1);
  }

  /** The next heading number continues the headings. */
  lemma HeadingsAppend(numbers: seq<nat>, n: nat)
    requires Consecutive(numbers, 1) && |numbers| == n
    ensures Consecutive(numbers + [n + 1], 1)
  {
  }

  /**
   * The numbering of an exported table: its headings are numbered 1 to k + 1
   * (the consumable heading last), titled with the equipment names and then
   * the consumable title, and its material lines are numbered 1 to the number
   * of replacements plus the number of consumable names, without a gap.
   */
  lemma TableNumbering(titles: seq<string>, lists: seq<seq<Material>>, consumableTitle: string,
                       consumables: map<string, Material>, consumableOrder: seq<string>)
    requires |titles| == |lists|
    requires forall k :: k in consumableOrder ==> k in consumables
    ensures Consecutive(HeadingNumbers(Table(titles, lists, consumableTitle, consumables, consumableOrder)), 1)
    ensures |HeadingNumbers(Table(titles, lists, consumableTitle, consumables, consumableOrder))| == |titles| + 1
    ensures HeadingTitles(Table(titles, lists, consumableTitle, consumables, consumableOrder)) == titles + [consumableTitle]
    ensures Consecutive(ItemNumbers(Table(titles, lists, consumableTitle, consumables, consumableOrder)), 1)
    ensures |ItemNumbers(Table(titles, lists, consumableTitle, consumables, consumableOrder))| == TotalLen(lists) + |consumableOrder|
  {
    var sections := Sections(titles, lists);
    var heading := [Heading(|titles| + 1, consumableTitle)];
    var items := ConsumableRows(consumables, consumableOrder, 1 + TotalLen(lists));
    SectionsNumbering(titles, lists);
    ItemsOnly(items, 1 + TotalLen(lists));
    RowsAppend(sections, heading);
    RowsAppend(sections + heading, items);
    ConsecutiveAppend(HeadingNumbers(sections), [|titles| + 1], 1);
    ConsecutiveAppend(ItemNumbers(sections), ItemNumbers(items), 1);
  }

  // ---------------------------------------------------------------------------
  // The consumables, added up over all equipment
  // ---------------------------------------------------------------------------

  /** The consumable names of the equipment of `order`. */
  ghost function ConsumedNames(materials: map<string, MaterialsForEquipment>, order: seq<string>): set<string>
    requires forall k :: k in order ==> k in materials
  {
    if order == [] then {}
    else
      ConsumedNames(materials, order[..|order| - 1])
        + ValueNames(OrEmpty(materials[order[|order| - 1]].consumableSupplies))
  }

  /** The total quantity of the consumables named `n` of the equipment of `order`. */
  ghost function ConsumedTotal(materials: map<string, MaterialsForEquipment>, order: seq<string>, n: string): real
    requires forall k :: k in order ==> k in materials
  {
    if order == [] then 0.0
    else
      ConsumedTotal(materials, order[..|order| - 1], n)
        + TotalQty(OrEmpty(materials[order[|order| - 1]].consumableSupplies), n)
  }

  /** `acc` holds each consumable name once, under its own name, with its total quantity. */
  ghost predicate Aggregated(acc: map<string, Material>, materials: map<string, MaterialsForEquipment>, order: seq<string>)
    requires forall k :: k in order ==> k in materials
  {
    && acc.Keys == ConsumedNames(materials, order)
    && forall n :: n in acc ==> acc[n].name == n && acc[n].quantity == ConsumedTotal(materials, order, n)
  }

  /** A name no value carries adds nothing. */
  lemma AbsentTotal(m: map<string, Material>, n: string)
    requires n !in ValueNames(m)
    ensures TotalQty(m, n) == 0.0
  {
    NamesOfValues(m, SomeOrder(m.Keys));
    NoItemsNoSum(ValuesInOrder(m, SomeOrder(m.Keys)), n);
  }

  /** A name none of the equipment consumes has total zero. */
  lemma {:induction false} NotConsumed(materials: map<string, MaterialsForEquipment>, order: seq<string>, n: string)
    requires forall k :: k in order ==> k in materials
    requires n !in ConsumedNames(materials, order)
    ensures ConsumedTotal(materials, order, n) == 0.0
  {
    if order != [] {
      NotConsumed(materials, order[..|order| - 1], n);
      AbsentTotal(OrEmpty(materials[order[|order| - 1]].consumableSupplies), n);
    }
  }

  /** Folding one more equipment's consumables into the running map keeps it aggregated. */
  lemma AggregateStep(acc: map<string, Material>, acc': map<string, Material>,
                      materials: map<string, MaterialsForEquipment>, order: seq<string>, e: string)
    requires forall k :: k in order ==> k in materials
    requires e in materials
    requires Aggregated(acc, materials, order)
    requires MergedFrom(acc, acc', OrEmpty(materials[e].consumableSupplies))
    ensures Aggregated(acc', materials, order + [e])
  {
    var order' := order + [e];
    var consumed := OrEmpty(materials[e].consumableSupplies);
    assert order'[..|order'| - 1] == order;
    MergedFromKeys(acc, acc', consumed);
    forall n | n in acc'
      ensures acc'[n].name == n && acc'[n].quantity == ConsumedTotal(materials, order', n)
    {
      if n in acc {
        MergedExisting(acc, acc', consumed, n);
      } else {
        var k := MergedNew(acc, acc', consumed, n);
        NotConsumed(materials, order, n);
      }
    }
  }

  // ---------------------------------------------------------------------------
  // The loops of ExportMaterialsRequest
  // ---------------------------------------------------------------------------

  /** The rows of one equipment's replacement materials, in the map's iteration order, numbered from `first`. */
  method ReplacementRows(m: map<string, Material>, first: nat) returns (rows: seq<Row>, ghost order: seq<string>)
    ensures IsOrderOf(order, m.Keys)
    ensures rows == ItemRows(ValuesInOrder(m, order), first)
    ensures |rows| == |m|
    ensures forall i :: 0 <= i < |rows| ==> rows[i].Item? && rows[i].number == first + i
  {
    rows := [];
    order := [];
    var index := first;
    var rest := m.Keys;
    while rest != {}
      invariant rest <= m.Keys
      invariant IsOrderOf(order, m.Keys - rest)
      invariant index == first + |order|
      invariant rows == ItemRows(ValuesInOrder(m, order), first)
      decreases |rest|
    {
      var k :| k in rest;
      var replacement := m[k];
      OrderStep(order, m.Keys, rest, k);
      ReplacementStep(m, order, rows, first, k);
      rows := rows + [Item(index, replacement.name, replacement.unit, replacement.quantity)];
      index := index + 1;
      order := order + [k];
      rest := rest - {k};
    }
    OrderLength(order, m.Keys);
  }

  /** One more replacement line. */
  lemma ReplacementStep(m: map<string, Material>, order: seq<string>, rows: seq<Row>, first: nat, k: string)
    requires forall j :: j in order ==> j in m
    requires k in m
    requires rows == ItemRows(ValuesInOrder(m, order), first)
    ensures rows + [Item(first + |order|, m[k].name, m[k].unit, m[k].quantity)] ==
      ItemRows(ValuesInOrder(m, order + [k]), first)
  {
    ValuesSnoc(m, order, k);
    ItemRowsSnoc(ValuesInOrder(m, order), m[k], first);
  }

  /** The rows of the added-up consumables, keyed by name, in the map's iteration order, numbered from `first`. */
  method ConsumableSection(consumables: map<string, Material>, first: nat) returns (rows: seq<Row>, ghost order: seq<string>)
    ensures IsOrderOf(order, consumables.Keys)
    ensures rows == ConsumableRows(consumables, order, first)
    ensures |rows| == |consumables|
    ensures forall i :: 0 <= i < |rows| ==> rows[i].Item? && rows[i].number == first + i && rows[i].name in consumables
  {
    rows := [];
    order := [];
    var index := first;
    var rest := consumables.Keys;
    while rest != {}
      invariant rest <= consumables.Keys
      invariant IsOrderOf(order, consumables.Keys - rest)
      invariant index == first + |order|
      invariant rows == ConsumableRows(consumables, order, first)
      decreases |rest|
    {
      var name :| name in rest;
      OrderStep(order, consumables.Keys, rest, name);
      assert (order + [name])[..|order|] == order;
      rows := rows + [Item(index, name, consumables[name].unit, consumables[name].quantity)];
      index := index + 1;
      order := order + [name];
      rest := rest - {name};
    }
    OrderLength(order, consumables.Keys);
  }

  /** The replacement materials of one requested equipment; a nil map reads as empty. */
  function Replacements(materials: map<string, MaterialsForEquipment>, e: string): map<string, Material>
    requires e in materials
  {
    OrEmpty(materials[e].replacementMaterials)
  }

  /** The replacement lists are the equipment's replacement materials, list i in the iteration order orders[i]. */
  ghost predicate ListsOf(lists: seq<seq<Material>>, orders: seq<seq<string>>,
                          materials: map<string, MaterialsForEquipment>, order: seq<string>)
    requires forall k :: k in order ==> k in materials
  {
    && |lists| == |order| && |orders| == |order|
    && forall i :: 0 <= i < |order| ==>
      && IsOrderOf(orders[i], Replacements(materials, order[i]).Keys)
      && lists[i] == ValuesInOrder(Replacements(materials, order[i]), orders[i])
  }

  /**
   * The state of the loop over the requested equipment once the equipment of
   * `order` is done and that of `rest` is pending: one section per equipment
   * done, the consumables of those added up, `heading` and `next` the heading
   * and material numbers to use next.
   */
  ghost predicate SectionsSoFar(materials: map<string, MaterialsForEquipment>, equipment: map<string, EquipmentMachinery>,
                                rest: set<string>, rows: seq<Row>, consumables: map<string, Material>, heading: int, next: int,
                                order: seq<string>, lists: seq<seq<Material>>, orders: seq<seq<string>>)
    requires materials.Keys <= equipment.Keys
  {
    && rest <= materials.Keys
    && IsOrderOf(order, materials.Keys - rest)
    && ListsOf(lists, orders, materials, order)
    && heading == |order| + 1 && next == 1 + TotalLen(lists)
    && Aggregated(consumables, materials, order)
    && rows == Sections(Titles(equipment, order), lists)
  }

  /** One pass of the loop over the requested equipment: the section of `eqId`. */
  method AddSection(materials: map<string, MaterialsForEquipment>, equipment: map<string, EquipmentMachinery>,
                    rest: set<string>, rows: seq<Row>, consumables: map<string, Material>, heading: int, next: int,
                    ghost order: seq<string>, ghost lists: seq<seq<Material>>, ghost orders: seq<seq<string>>, eqId: string)
    returns (rows': seq<Row>, consumables': map<string, Material>, heading': int, next': int,
             ghost order': seq<string>, ghost lists': seq<seq<Material>>, ghost orders': seq<seq<string>>)
    requires materials.Keys <= equipment.Keys
    requires SectionsSoFar(materials, equipment, rest, rows, consumables, heading, next, order, lists, orders)
    requires eqId in rest
    ensures SectionsSoFar(materials, equipment, rest - {eqId}, rows', consumables', heading', next', order', lists', orders')
  {
    var eqMaterials := materials[eqId];
    ghost var consumedOrder;
    consumables', consumedOrder := MergeInto(consumables, OrEmpty(eqMaterials.consumableSupplies));
    var section;
    ghost var replacementOrder;
    section, replacementOrder := ReplacementRows(Replacements(materials, eqId), next);
    rows' := rows + [Heading(heading, equipment[eqId].name)] + section;
    next' := next + |section|;
    heading' := heading + 1;
    order' := order + [eqId];
    lists' := lists + [ValuesInOrder(Replacements(materials, eqId), replacementOrder)];
    orders' := orders + [replacementOrder];
    SoFarStep(materials, equipment, rest, rows, consumables, heading, next, order, lists, orders,
              eqId, consumables', replacementOrder);
  }

  /** The loop state after the section of `eqId`. */
  lemma SoFarStep(materials: map<string, MaterialsForEquipment>, equipment: map<string, EquipmentMachinery>,
                  rest: set<string>, rows: seq<Row>, consumables: map<string, Material>, heading: int, next: int,
                  order: seq<string>, lists: seq<seq<Material>>, orders: seq<seq<string>>,
                  eqId: string, consumables': map<string, Material>, replacementOrder: seq<string>)
    requires materials.Keys <= equipment.Keys
    requires SectionsSoFar(materials, equipment, rest, rows, consumables, heading, next, order, lists, orders)
    requires eqId in rest
    requires MergedFrom(consumables, consumables', OrEmpty(materials[eqId].consumableSupplies))
    requires IsOrderOf(replacementOrder, Replacements(materials, eqId).Keys)
    ensures var list := ValuesInOrder(Replacements(materials, eqId), replacementOrder);
      SectionsSoFar(materials, equipment, rest - {eqId},
                    rows + [Heading(heading, equipment[eqId].name)] + ItemRows(list, next), consumables',
                    heading + 1, next + |list|, order + [eqId], lists + [list], orders + [replacementOrder])
  {
    var list := ValuesInOrder(Replacements(materials, eqId), replacementOrder);
    OrderStep(order, materials.Keys, rest, eqId);
    AggregateStep(consumables, consumables', materials, order, eqId);
    SectionStep(equipment, order, lists, eqId, list, rows, heading, next);
    ListsStep(lists, orders, materials, order, eqId, replacementOrder);
  }

  /**
   * The loop over the requested equipment: one section per equipment, in the
   * map's iteration order, and the consumables added up on the way. `heading`
   * and `next` are the heading and material numbers after the last section.
   */
  method EquipmentSections(materials: map<string, MaterialsForEquipment>, equipment: map<string, EquipmentMachinery>)
    returns (rows: seq<Row>, consumables: map<string, Material>, heading: int, next: int,
             ghost order: seq<string>, ghost lists: seq<seq<Material>>, ghost orders: seq<seq<string>>)
    requires materials.Keys <= equipment.Keys
    ensures SectionsSoFar(materials, equipment, {}, rows, consumables, heading, next, order, lists, orders)
  {
    rows, consumables, heading, next, order, lists, orders := [], map[], 1, 1, [], [], [];
    var rest := materials.Keys;
    assert materials.Keys - rest == {};
    while rest != {}
      invariant SectionsSoFar(materials, equipment, rest, rows, consumables, heading, next, order, lists, orders)
      decreases |rest|
    {
      var eqId :| eqId in rest;
      rows, consumables, heading, next, order, lists, orders :=
        AddSection(materials, equipment, rest, rows, consumables, heading, next, order, lists, orders, eqId);
      rest := rest - {eqId};
    }
  }

  /**
   * The table-filling loops of ExportMaterialsRequest, once every requested
   * equipment is known to be stored. `consumableTitle` is the upper-cased
   * consumable label.
   */
  method BuildMaterialTable(materials: map<string, MaterialsForEquipment>, equipment: map<string, EquipmentMachinery>,
                            consumableTitle: string)
    returns (rows: seq<Row>, consumables: map<string, Material>,
             ghost order: seq<string>, ghost lists: seq<seq<Material>>, ghost orders: seq<seq<string>>,
             ghost consumableOrder: seq<string>)
    requires materials.Keys <= equipment.Keys
    ensures IsOrderOf(order, materials.Keys)
    ensures ListsOf(lists, orders, materials, order)
    ensures Aggregated(consumables, materials, order)
    ensures IsOrderOf(consumableOrder, consumables.Keys)
    ensures rows == Table(Titles(equipment, order), lists, consumableTitle, consumables, consumableOrder)
    ensures Consecutive(HeadingNumbers(rows), 1) && |HeadingNumbers(rows)| == |materials| + 1
    ensures |HeadingTitles(rows)| > 0 && HeadingTitles(rows)[|HeadingTitles(rows)| - 1] == consumableTitle
    ensures Consecutive(ItemNumbers(rows), 1)
  {
    var sections, heading, next, tail;
    sections, consumables, heading, next, order, lists, orders := EquipmentSections(materials, equipment);
    tail, consumableOrder := ConsumableSection(consumables, next);
    rows := sections + [Heading(heading, consumableTitle)] + tail;
    TableParts(equipment, order, lists, consumableTitle, consumables, consumableOrder, sections, heading, next, tail);
    OrderLength(order, materials.Keys);
    TableShape(Titles(equipment, order), lists, consumableTitle, consumables, consumableOrder, rows, |materials|);
  }

  /** The numbering of a built table, in the terms of BuildMaterialTable's contract. */
  lemma TableShape(titles: seq<string>, lists: seq<seq<Material>>, consumableTitle: string,
                   consumables: map<string, Material>, consumableOrder: seq<string>, rows: seq<Row>, n: nat)
    requires |titles| == |lists| == n
    requires forall k :: k in consumableOrder ==> k in consumables
    requires rows == Table(titles, lists, consumableTitle, consumables, consumableOrder)
    ensures Consecutive(HeadingNumbers(rows), 1) && |HeadingNumbers(rows)| == n + 1
    ensures |HeadingTitles(rows)| > 0 && HeadingTitles(rows)[|HeadingTitles(rows)| - 1] == consumableTitle
    ensures Consecutive(ItemNumbers(rows), 1)
  {
    TableNumbering(titles, lists, consumableTitle, consumables, consumableOrder);
  }

  /** The table is the sections, the consumable heading and the consumable lines. */
  lemma TableParts(equipment: map<string, EquipmentMachinery>, order: seq<string>, lists: seq<seq<Material>>,
                   consumableTitle: string, consumables: map<string, Material>, consumableOrder: seq<string>,
                   sections: seq<Row>, heading: int, next: nat, tail: seq<Row>)
    requires forall k :: k in order ==> k in equipment
    requires |lists| == |order|
    requires forall k :: k in consumableOrder ==> k in consumables
    requires sections == Sections(Titles(equipment, order), lists)
    requires heading == |order| + 1 && next == 1 + TotalLen(lists)
    requires tail == ConsumableRows(consumables, consumableOrder, next)
    ensures sections + [Heading(heading, consumableTitle)] + tail ==
      Table(Titles(equipment, order), lists, consumableTitle, consumables, consumableOrder)
  {
    assert |Titles(equipment, order)| + 1 == heading;
  }

  /** One more equipment section at the end of the sections. */
  lemma SectionStep(equipment: map<string, EquipmentMachinery>, order: seq<string>, lists: seq<seq<Material>>,
                    e: string, list: seq<Material>, rows: seq<Row>, heading: int, next: int)
    requires forall k :: k in order ==> k in equipment
    requires e in equipment && |lists| == |order|
    requires rows == Sections(Titles(equipment, order), lists)
    requires heading == |order| + 1 && next == 1 + TotalLen(lists)
    ensures rows + [Heading(heading, equipment[e].name)] + ItemRows(list, next) ==
      Sections(Titles(equipment, order + [e]), lists + [list])
    ensures next + |list| == 1 + TotalLen(lists + [list])
  {
    SectionUnfold(equipment, order, lists, e, list);
  }

  lemma SectionUnfold(equipment: map<string, EquipmentMachinery>, order: seq<string>, lists: seq<seq<Material>>,
                      e: string, list: seq<Material>)
    requires forall k :: k in order ==> k in equipment
    requires e in equipment && |lists| == |order|
    ensures Sections(Titles(equipment, order + [e]), lists + [list]) ==
      Sections(Titles(equipment, order), lists) + [Heading(|order| + 1, equipment[e].name)] + ItemRows(list, 1 + TotalLen(lists))
    ensures TotalLen(lists + [list]) == TotalLen(lists) + |list|
  {
    assert (order + [e])[..|order|] == order;
    assert (lists + [list])[..|lists|] == lists;
  }

  /** One more equipment's replacement list. */
  lemma ListsStep(lists: seq<seq<Material>>, orders: seq<seq<string>>, materials: map<string, MaterialsForEquipment>,
                  order: seq<string>, e: string, o: seq<string>)
    requires forall k :: k in order ==> k in materials
    requires e in materials
    requires ListsOf(lists, orders, materials, order)
    requires IsOrderOf(o, Replacements(materials, e).Keys)
    ensures ListsOf(lists + [ValuesInOrder(Replacements(materials, e), o)], orders + [o], materials, order + [e])
  {
  }

  /**
   * ExportMaterialsRequest's table: fails when some requested equipment is not
   * stored, and otherwise fills the rows. `upper` is the per-character mapping
   * of strings.ToUpper.
   */
  method ExportTable(request: MaterialRequest, equipment: map<string, EquipmentMachinery>, upper: char -> char)
    returns (result: Result<seq<Row>, Error>)
    ensures !(request.materialsForEquipment.Keys <= equipment.Keys) <==> result == Failure(SomeEquipmentMachineryNotFound)
    ensures result.Success? ==>
      exists order, lists, orders, consumables, consumableOrder :: (
        && IsOrderOf(order, request.materialsForEquipment.Keys)
        && (forall k :: k in order ==> k in equipment)
        && ListsOf(lists, orders, request.materialsForEquipment, order)
        && Aggregated(consumables, request.materialsForEquipment, order)
        && IsOrderOf(consumableOrder, consumables.Keys)
        && |lists| == |order|
        && result.value == Table(Titles(equipment, order), lists, MapCase(LabelConsumable, upper), consumables, consumableOrder))
  {
    var eqIds := MapKeys(request.materialsForEquipment.Keys);
    var eqs := FindByIDs(equipment, eqIds);
    AllFound(equipment, eqIds, request.materialsForEquipment.Keys);
    if |eqs| != |eqIds| {
      return Failure(SomeEquipmentMachineryNotFound);
    }
    var rows, consumables;
    ghost var order, lists, orders, consumableOrder;
    rows, consumables, order, lists, orders, consumableOrder :=
      BuildMaterialTable(request.materialsForEquipment, equipment, MapCase(LabelConsumable, upper));
    assert forall k :: k in order ==> k in equipment;
    assert IsOrderOf(order, request.materialsForEquipment.Keys) && ListsOf(lists, orders, request.materialsForEquipment, order)
      && Aggregated(consumables, request.materialsForEquipment, order) && IsOrderOf(consumableOrder, consumables.Keys)
      && |lists| == |order|
      && rows == Table(Titles(equipment, order), lists, MapCase(LabelConsumable, upper), consumables, consumableOrder);
    return Success(rows);
  }
}
