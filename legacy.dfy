/** The unified inventory: POS products and general items kept in two
    dictionaries keyed by generated ids, with guarded stock changes, keyed
    add/update/delete, searches, category and low-stock queries, statistics,
    JSON import and the migration of the old pipe-delimited product file. */
module Legacy {
  import opened Basics
  import opened Text
  import opened Values
  import opened Models

  datatype POSProduct = POSProduct(
    id: string,
    name: string,
    price: real,
    stock: int,
    category: string,
    description: string,
    createdAt: string,
    updatedAt: string)

  datatype GeneralItem = GeneralItem(
    id: string,
    name: string,
    quantity: int,
    category: string,
    description: string,
    unit: string,
    minQuantity: int,
    location: string,
    createdAt: string,
    updatedAt: string)

  /** `__post_init__`: an empty timestamp becomes the current time. */
  function Stamp(t: string, now: string): string {
    if t == [] then now else t
  }

  /** The POS product constructor followed by `__post_init__`. */
  function NewPos(id: string, name: string, price: real, stock: int, category: string,
                  description: string, createdAt: string, updatedAt: string, now: string): (p: POSProduct)
    ensures p.createdAt != [] || now == []
    ensures p.id == id && p.name == name && p.price == price && p.stock == stock
    ensures p.category == category && p.description == description
    ensures p.createdAt == (if createdAt != [] then createdAt else now)
    ensures p.updatedAt == (if updatedAt != [] then updatedAt else now)
  {
    POSProduct(id, name, price, stock, category, description, Stamp(createdAt, now), Stamp(updatedAt, now))
  }

  /** The general item constructor followed by `__post_init__`. */
  function NewItem(id: string, name: string, quantity: int, category: string, description: string,
                   unit: string, minQuantity: int, location: string, createdAt: string,
                   updatedAt: string, now: string): (g: GeneralItem)
    ensures g.createdAt != [] || now == []
    ensures g.id == id && g.name == name && g.quantity == quantity && g.category == category
    ensures g.description == description && g.unit == unit && g.minQuantity == minQuantity
    ensures g.location == location
    ensures g.createdAt == (if createdAt != [] then createdAt else now)
    ensures g.updatedAt == (if updatedAt != [] then updatedAt else now)
  {
    GeneralItem(id, name, quantity, category, description, unit, minQuantity, location,
                Stamp(createdAt, now), Stamp(updatedAt, now))
  }

  // ---------------------------------------------------------------------------
  // Keyword updates

  /** One keyword argument of `update_pos_product`. */
  datatype PosUpdate =
    | PosId(id: string)
    | PosName(name: string)
    | PosPrice(price: real)
    | PosStock(stock: int)
    | PosCategory(category: string)
    | PosDescription(description: string)
    | PosCreatedAt(createdAt: string)
    | PosUpdatedAt(updatedAt: string)
    | PosOther(key: string)

  function ApplyPosUpdate(p: POSProduct, u: PosUpdate): POSProduct {
    match u
    case PosId(v) => p.(id := v)
    case PosName(v) => p.(name := v)
    case PosPrice(v) => p.(price := v)
    case PosStock(v) => p.(stock := v)
    case PosCategory(v) => p.(category := v)
    case PosDescription(v) => p.(description := v)
    case PosCreatedAt(v) => p.(createdAt := v)
    case PosUpdatedAt(v) => p.(updatedAt := v)
    case PosOther(_) => p
  }

  function ApplyPosUpdates(p: POSProduct, us: seq<PosUpdate>): POSProduct {
    if us == [] then p else ApplyPosUpdate(ApplyPosUpdates(p, us[..|us| - 1]), us[|us| - 1])
  }

  /** Keywords that are not attributes of the product change nothing; the stock
      changes only through a `stock` keyword. */
  lemma {:induction false} PosUpdatesTouchOnlyNamed(p: POSProduct, us: seq<PosUpdate>)
    ensures (forall k :: 0 <= k < |us| ==> us[k].PosOther?) ==> ApplyPosUpdates(p, us) == p
    ensures (forall k :: 0 <= k < |us| ==> !us[k].PosStock?) ==> ApplyPosUpdates(p, us).stock == p.stock
    ensures (forall k :: 0 <= k < |us| ==> !us[k].PosPrice?) ==> ApplyPosUpdates(p, us).price == p.price
  {
    if us != [] {
      PosUpdatesTouchOnlyNamed(p, us[..|us| - 1]);
    }
  }

  /** One keyword argument of `update_general_item`. */
  datatype ItemUpdate =
    | ItemId(id: string)
    | ItemName(name: string)
    | ItemQuantity(quantity: int)
    | ItemCategory(category: string)
    | ItemDescription(description: string)
    | ItemUnit(unit: string)
    | ItemMinQuantity(minQuantity: int)
    | ItemLocation(location: string)
    | ItemCreatedAt(createdAt: string)
    | ItemUpdatedAt(updatedAt: string)
    | ItemOther(key: string)

  function ApplyItemUpdate(g: GeneralItem, u: ItemUpdate): GeneralItem {
    match u
    case ItemId(v) => g.(id := v)
    case ItemName(v) => g.(name := v)
    case ItemQuantity(v) => g.(quantity := v)
    case ItemCategory(v) => g.(category := v)
    case ItemDescription(v) => g.(description := v)
    case ItemUnit(v) => g.(unit := v)
    case ItemMinQuantity(v) => g.(minQuantity := v)
    case ItemLocation(v) => g.(location := v)
    case ItemCreatedAt(v) => g.(createdAt := v)
    case ItemUpdatedAt(v) => g.(updatedAt := v)
    case ItemOther(_) => g
  }

  function ApplyItemUpdates(g: GeneralItem, us: seq<ItemUpdate>): GeneralItem {
    if us == [] then g else ApplyItemUpdate(ApplyItemUpdates(g, us[..|us| - 1]), us[|us| - 1])
  }

  /** Keywords that are not attributes of the item change nothing; the quantity
      changes only through a `quantity` keyword. */
  lemma {:induction false} ItemUpdatesTouchOnlyNamed(g: GeneralItem, us: seq<ItemUpdate>)
    ensures (forall k :: 0 <= k < |us| ==> us[k].ItemOther?) ==> ApplyItemUpdates(g, us) == g
    ensures (forall k :: 0 <= k < |us| ==> !us[k].ItemQuantity?) ==> ApplyItemUpdates(g, us).quantity == g.quantity
    ensures (forall k :: 0 <= k < |us| ==> !us[k].ItemMinQuantity?) ==> ApplyItemUpdates(g, us).minQuantity == g.minQuantity
  {
    if us != [] {
      ItemUpdatesTouchOnlyNamed(g, us[..|us| - 1]);
    }
  }

  // ---------------------------------------------------------------------------
  // Stock invariant

  ghost predicate StockNonNegative(d: Entries<POSProduct>) {
    forall i :: 0 <= i < |d| ==> d[i].1.stock >= 0
  }

  ghost predicate QuantityNonNegative(d: Entries<GeneralItem>) {
    forall i :: 0 <= i < |d| ==> d[i].1.quantity >= 0
  }

  lemma PutKeepsStock(d: Entries<POSProduct>, k: string, p: POSProduct)
    requires StockNonNegative(d) && p.stock >= 0
    ensures StockNonNegative(Put(d, k, p))
  {
  }

  lemma PutKeepsQuantity(d: Entries<GeneralItem>, k: string, g: GeneralItem)
    requires QuantityNonNegative(d) && g.quantity >= 0
    ensures QuantityNonNegative(Put(d, k, g))
  {
  }

  // ---------------------------------------------------------------------------
  // Searching, filtering and statistics over the dictionary values

  /** What `getattr(x, field, "").lower()` meets: no such attribute (the item
      is passed over), text, or a number, whose missing `lower` raises. */
  datatype FieldLookup = NoAttribute | Text(s: string) | NotText

  function PosField(p: POSProduct, field: string): FieldLookup {
    match field
    case "id" => Text(p.id)
    case "name" => Text(p.name)
    case "category" => Text(p.category)
    case "description" => Text(p.description)
    case "created_at" => Text(p.createdAt)
    case "updated_at" => Text(p.updatedAt)
    case "price" => NotText
    case "stock" => NotText
    case _ => NoAttribute
  }

  function ItemField(g: GeneralItem, field: string): FieldLookup {
    match field
    case "id" => Text(g.id)
    case "name" => Text(g.name)
    case "category" => Text(g.category)
    case "description" => Text(g.description)
    case "unit" => Text(g.unit)
    case "location" => Text(g.location)
    case "created_at" => Text(g.createdAt)
    case "updated_at" => Text(g.updatedAt)
    case "quantity" => NotText
    case "min_quantity" => NotText
    case _ => NoAttribute
  }

  /** The outcome of a search loop over `xs` for the lower-cased query `q`:
      the elements whose field, lower-cased, contains `q`, in order, or an error
      as soon as an element's field is not text. */
  function SearchSpec<T>(xs: seq<T>, q: string, field: T -> FieldLookup): Result<seq<T>> {
    if xs == [] then Ok([])
    else
      match SearchSpec(xs[..|xs| - 1], q, field)
      case Err(m) => Err(m)
      case Ok(found) =>
        var x := xs[|xs| - 1];
        match field(x)
        case NoAttribute => Ok(found)
        case NotText => Err("attribute has no lower()")
        case Text(s) => Ok(if IsSubstring(q, Lower(s)) then found + [x] else found)
  }

  /** A search fails exactly when some element's field is not text; otherwise
      it finds exactly the elements whose field text contains the query. */
  lemma {:induction false} SearchSpecMeaning<T(!new)>(xs: seq<T>, q: string, field: T -> FieldLookup)
    ensures SearchSpec(xs, q, field).Err? <==> exists i :: 0 <= i < |xs| && field(xs[i]).NotText?
    ensures SearchSpec(xs, q, field).Ok? ==>
      forall x :: x in SearchSpec(xs, q, field).value <==>
        x in xs && field(x).Text? && IsSubstring(q, Lower(field(x).s))
    ensures SearchSpec(xs, q, field).Ok? ==>
      SearchSpec(xs, q, field).value == Keep(xs, x => field(x).Text? && IsSubstring(q, Lower(field(x).s)))
  {
    if xs != [] {
      var init := xs[..|xs| - 1];
      SearchSpecMeaning(init, q, field);
      assert xs == init + [xs[|xs| - 1]];
      if SearchSpec(xs, q, field).Err? && SearchSpec(init, q, field).Err? {
        var i :| 0 <= i < |init| && field(init[i]).NotText?;
        assert xs[i] == init[i];
      }
      if SearchSpec(init, q, field).Ok? {
        assert forall i :: 0 <= i < |init| ==> init[i] == xs[i];
      }
    }
  }

  /** Searching a field no element has finds nothing and never fails. */
  lemma {:induction false} SearchUnknownField(ps: seq<POSProduct>, q: string, field: string)
    requires PosField(DefaultPos, field).NoAttribute?
    ensures SearchSpec(ps, q, p => PosField(p, field)) == Ok([])
  {
    if ps != [] {
      SearchUnknownField(ps[..|ps| - 1], q, field);
    }
  }

  const DefaultPos: POSProduct := POSProduct("", "", 0.0, 0, "General", "", "", "")

  /** `filter_by_category(category, POS_PRODUCT)`: case-insensitive equality. */
  function FilterPosByCategory(ps: seq<POSProduct>, category: string): (r: seq<POSProduct>)
    ensures |r| <= |ps|
    ensures forall p :: p in r <==> p in ps && Lower(p.category) == Lower(category)
  {
    Keep(ps, (p: POSProduct) => Lower(p.category) == Lower(category))
  }

  /** `filter_by_category` for any other inventory type: the general items. */
  function FilterItemsByCategory(gs: seq<GeneralItem>, category: string): (r: seq<GeneralItem>)
    ensures |r| <= |gs|
    ensures forall g :: g in r <==> g in gs && Lower(g.category) == Lower(category)
  {
    Keep(gs, (g: GeneralItem) => Lower(g.category) == Lower(category))
  }

  /** `get_low_stock_items(threshold)['pos_products']` */
  function LowStockPos(ps: seq<POSProduct>, threshold: int): (r: seq<POSProduct>)
    ensures |r| <= |ps|
    ensures forall p :: p in r <==> p in ps && p.stock <= threshold
  {
    Keep(ps, (p: POSProduct) => p.stock <= threshold)
  }

  /** `get_low_stock_items()['general_items']`: each item against its own minimum. */
  function LowStockItems(gs: seq<GeneralItem>): (r: seq<GeneralItem>)
    ensures |r| <= |gs|
    ensures forall g :: g in r <==> g in gs && g.quantity <= g.minQuantity
  {
    Keep(gs, (g: GeneralItem) => g.quantity <= g.minQuantity)
  }

  /** The default threshold of `get_low_stock_items`. */
  const LowStockThreshold: int := 5

  /** Raising the threshold never drops a product from the low-stock list. */
  lemma LowStockMonotone(ps: seq<POSProduct>, t: int, t': int)
    requires t <= t'
    ensures forall p :: p in LowStockPos(ps, t) ==> p in LowStockPos(ps, t')
  {
  }

  function SumStock(ps: seq<POSProduct>): int {
    if ps == [] then 0 else SumStock(ps[..|ps| - 1]) + ps[|ps| - 1].stock
  }

  function SumValue(ps: seq<POSProduct>): real {
    if ps == [] then 0.0 else SumValue(ps[..|ps| - 1]) + ps[|ps| - 1].price * ps[|ps| - 1].stock as real
  }

  function SumQuantity(gs: seq<GeneralItem>): int {
    if gs == [] then 0 else SumQuantity(gs[..|gs| - 1]) + gs[|gs| - 1].quantity
  }

  /** `set(...)` of a list of category names: the distinct names. */
  function Distinct(names: seq<string>): (r: set<string>)
    ensures |r| <= |names| && (r == {} <==> names == [])
    ensures forall c :: c in r <==> c in names
  {
    if names == [] then {}
    else
      var init := names[..|names| - 1];
      assert names == init + [names[|names| - 1]];
      Distinct(init) + {names[|names| - 1]}
  }

  /** Non-negative stocks add up to a non-negative total. */
  lemma {:induction false} SumStockNonNegative(ps: seq<POSProduct>)
    requires forall i :: 0 <= i < |ps| ==> ps[i].stock >= 0
    ensures SumStock(ps) >= 0
  {
    if ps != [] {
      SumStockNonNegative(ps[..|ps| - 1]);
    }
  }

  lemma {:induction false} SumQuantityNonNegative(gs: seq<GeneralItem>)
    requires forall i :: 0 <= i < |gs| ==> gs[i].quantity >= 0
    ensures SumQuantity(gs) >= 0
  {
    if gs != [] {
      SumQuantityNonNegative(gs[..|gs| - 1]);
    }
  }

  datatype InventoryStats = InventoryStats(
    totalPosProducts: nat,
    totalGeneralItems: nat,
    totalPosValue: real,
    totalPosStock: int,
    totalGeneralQuantity: int,
    posCategories: nat,
    generalCategories: nat,
    lowStockPos: nat,
    lowStockGeneral: nat,
    lastUpdated: string)

  /** `get_inventory_stats()` over the two dictionaries, with the default
      low-stock threshold. */
  function GetInventoryStats(pos: Entries<POSProduct>, general: Entries<GeneralItem>, now: string): (s: InventoryStats)
    ensures s.totalPosProducts == |pos| && s.totalGeneralItems == |general|
    ensures s.lowStockPos <= s.totalPosProducts && s.lowStockGeneral <= s.totalGeneralItems
    ensures s.posCategories <= s.totalPosProducts && (s.posCategories == 0 <==> s.totalPosProducts == 0)
    ensures s.generalCategories <= s.totalGeneralItems && (s.generalCategories == 0 <==> s.totalGeneralItems == 0)
    ensures StockNonNegative(pos) ==> s.totalPosStock >= 0
    ensures QuantityNonNegative(general) ==> s.totalGeneralQuantity >= 0
    ensures s.totalPosValue == SumValue(ValuesOf(pos)) && s.totalPosStock == SumStock(ValuesOf(pos))
    ensures s.totalGeneralQuantity == SumQuantity(ValuesOf(general))
    ensures s.posCategories == |set i | 0 <= i < |pos| :: pos[i].1.category|
    ensures s.generalCategories == |set i | 0 <= i < |general| :: general[i].1.category|
    ensures s.lowStockPos == |Keep(ValuesOf(pos), (p: POSProduct) => p.stock <= LowStockThreshold)|
    ensures s.lowStockGeneral == |Keep(ValuesOf(general), (g: GeneralItem) => g.quantity <= g.minQuantity)|
    ensures s.lastUpdated == now
  {
    var ps := ValuesOf(pos);
    var gs := ValuesOf(general);
    PosCategoriesOf(pos);
    ItemCategoriesOf(general);
    assert StockNonNegative(pos) ==> SumStock(ps) >= 0 by {
      if StockNonNegative(pos) { SumStockNonNegative(ps); }
    }
    assert QuantityNonNegative(general) ==> SumQuantity(gs) >= 0 by {
      if QuantityNonNegative(general) { SumQuantityNonNegative(gs); }
    }
    InventoryStats(|pos|, |general|, SumValue(ps), SumStock(ps), SumQuantity(gs),
                   |Distinct(PosCategoryNames(pos))|, |Distinct(ItemCategoryNames(general))|,
                   |LowStockPos(ps, LowStockThreshold)|, |LowStockItems(gs)|, now)
  }

  function PosCategoryNames(pos: Entries<POSProduct>): seq<string> {
    seq(|pos|, i requires 0 <= i < |pos| => pos[i].1.category)
  }

  function ItemCategoryNames(general: Entries<GeneralItem>): seq<string> {
    seq(|general|, i requires 0 <= i < |general| => general[i].1.category)
  }

  /** `set(p.category for p in pos_products.values())` is exactly the set of
      categories stored under the keys. */
  lemma PosCategoriesOf(pos: Entries<POSProduct>)
    ensures Distinct(PosCategoryNames(pos)) == set i | 0 <= i < |pos| :: pos[i].1.category
  {
    var names := PosCategoryNames(pos);
    forall c | c in Distinct(names)
      ensures c in set i | 0 <= i < |pos| :: pos[i].1.category
    {
      var i :| 0 <= i < |names| && names[i] == c;
      assert pos[i].1.category == c;
    }
    forall i | 0 <= i < |pos|
      ensures pos[i].1.category in Distinct(names)
    {
      assert names[i] == pos[i].1.category;
    }
  }

  /** The same for the general items. */
  lemma ItemCategoriesOf(general: Entries<GeneralItem>)
    ensures Distinct(ItemCategoryNames(general)) == set i | 0 <= i < |general| :: general[i].1.category
  {
    var names := ItemCategoryNames(general);
    forall c | c in Distinct(names)
      ensures c in set i | 0 <= i < |general| :: general[i].1.category
    {
      var i :| 0 <= i < |names| && names[i] == c;
      assert general[i].1.category == c;
    }
    forall i | 0 <= i < |general|
      ensures general[i].1.category in Distinct(names)
    {
      assert names[i] == general[i].1.category;
    }
  }

  // ---------------------------------------------------------------------------
  // Building records from JSON dictionaries (`POSProduct(**data)`)

  const PosKeys: seq<string> := ["id", "name", "price", "stock", "category", "description", "created_at", "updated_at"]
  const ItemKeys: seq<string> := ["id", "name", "quantity", "category", "description", "unit",
                                  "min_quantity", "location", "created_at", "updated_at"]

  /** A keyword argument without a default: missing raises TypeError. */
  function RequiredText(d: Entries<Value>, key: string): Result<string> {
    match Lookup(d, key)
    case None => Err("missing required argument " + key)
    case Some(v) => if v.VStr? then Ok(v.s) else Err("argument " + key + " is not text")
  }

  function RequiredInt(d: Entries<Value>, key: string): Result<int> {
    match Lookup(d, key)
    case None => Err("missing required argument " + key)
    case Some(v) => if v.VInt? then Ok(v.i) else Err("argument " + key + " is not an integer")
  }

  function OptionalInt(d: Entries<Value>, key: string, default: int): Result<int> {
    match Lookup(d, key)
    case None => Ok(default)
    case Some(v) => if v.VInt? then Ok(v.i) else Err("argument " + key + " is not an integer")
  }

  /** A JSON number for a float field: an integer or a float. */
  function RequiredReal(d: Entries<Value>, key: string): Result<real> {
    match Lookup(d, key)
    case None => Err("missing required argument " + key)
    case Some(v) =>
      if v.VFloat? then Ok(v.r) else if v.VInt? then Ok(v.i as real) else Err("argument " + key + " is not a number")
  }

  predicate OnlyKeys(d: Entries<Value>, keys: seq<string>) {
    forall i :: 0 <= i < |d| ==> d[i].0 in keys
  }

  /** `POSProduct(**data)`: an unknown keyword or a missing required one raises. */
  function PosFromValue(v: Value, now: string): Result<POSProduct> {
    if !v.VDict? then Err("argument after ** must be a mapping")
    else if !OnlyKeys(v.entries, PosKeys) then Err("unexpected keyword argument")
    else PosFromKeywords(v.entries, now)
  }

  /** The keywords of `POSProduct(**data)`, all of them known ones. */
  function PosFromKeywords(d: Entries<Value>, now: string): Result<POSProduct> {
    var id := RequiredText(d, "id");
    var name := RequiredText(d, "name");
    var price := RequiredReal(d, "price");
    var stock := RequiredInt(d, "stock");
    var category := TextField(d, "category", "General");
    var description := TextField(d, "description", "");
    var createdAt := TextField(d, "created_at", "");
    var updatedAt := TextField(d, "updated_at", "");
    if id.Err? || name.Err? || price.Err? || stock.Err? then Err("missing or mistyped required argument")
    else if category.Err? || description.Err? || createdAt.Err? || updatedAt.Err? then Err("mistyped argument")
    else Ok(NewPos(id.value, name.value, price.value, stock.value, category.value, description.value,
                   createdAt.value, updatedAt.value, now))
  }

  /** `GeneralItem(**data)`. */
  function ItemFromValue(v: Value, now: string): Result<GeneralItem> {
    if !v.VDict? then Err("argument after ** must be a mapping")
    else if !OnlyKeys(v.entries, ItemKeys) then Err("unexpected keyword argument")
    else ItemFromKeywords(v.entries, now)
  }

  /** The keywords of `GeneralItem(**data)`, all of them known ones. */
  function ItemFromKeywords(d: Entries<Value>, now: string): Result<GeneralItem> {
    var id := RequiredText(d, "id");
    var name := RequiredText(d, "name");
    var quantity := RequiredInt(d, "quantity");
    var category := RequiredText(d, "category");
    var description := TextField(d, "description", "");
    var unit := TextField(d, "unit", "pcs");
    var minQuantity := OptionalInt(d, "min_quantity", 0);
    var location := TextField(d, "location", "");
    var createdAt := TextField(d, "created_at", "");
    var updatedAt := TextField(d, "updated_at", "");
    if id.Err? || name.Err? || quantity.Err? || category.Err? then Err("missing or mistyped required argument")
    else if description.Err? || unit.Err? || minQuantity.Err? || location.Err? || createdAt.Err? || updatedAt.Err? then
      Err("mistyped argument")
    else Ok(NewItem(id.value, name.value, quantity.value, category.value, description.value, unit.value,
                    minQuantity.value, location.value, createdAt.value, updatedAt.value, now))
  }

  /** The JSON form `asdict` gives a POS product. */
  function PosToValue(p: POSProduct): Value {
    VDict([("id", VStr(p.id)), ("name", VStr(p.name)), ("price", VFloat(p.price)), ("stock", VInt(p.stock)),
           ("category", VStr(p.category)), ("description", VStr(p.description)),
           ("created_at", VStr(p.createdAt)), ("updated_at", VStr(p.updatedAt))])
  }

  /** A product saved with its timestamps set is rebuilt unchanged by
      `POSProduct(**data)`. */
  lemma PosValueRoundTrip(p: POSProduct, now: string)
    requires p.createdAt != [] && p.updatedAt != []
    ensures PosFromValue(PosToValue(p), now) == Ok(p)
  {
    var d := PosToValue(p).entries;
    assert OnlyKeys(d, PosKeys) by {
      assert KeysOf(d) == PosKeys;
      forall i | 0 <= i < |d| ensures d[i].0 in PosKeys {
        assert d[i].0 == PosKeys[i];
      }
    }
    PosLookupsLow(p);
    PosLookupsHigh(p);
    PosFromFields(d, p, now);
  }

  lemma PosLookupsLow(p: POSProduct)
    ensures var d := PosToValue(p).entries;
      Lookup(d, "id") == Some(VStr(p.id)) && Lookup(d, "name") == Some(VStr(p.name)) &&
      Lookup(d, "price") == Some(VFloat(p.price)) && Lookup(d, "stock") == Some(VInt(p.stock))
  {
    var d := PosToValue(p).entries;
    LookupAt(d, "id", 0);
    LookupAt(d, "name", 1);
    LookupAt(d, "price", 2);
    LookupAt(d, "stock", 3);
  }

  lemma PosLookupsHigh(p: POSProduct)
    ensures var d := PosToValue(p).entries;
      Lookup(d, "category") == Some(VStr(p.category)) && Lookup(d, "description") == Some(VStr(p.description)) &&
      Lookup(d, "created_at") == Some(VStr(p.createdAt)) && Lookup(d, "updated_at") == Some(VStr(p.updatedAt))
  {
    var d := PosToValue(p).entries;
    LookupAt(d, "category", 4);
    LookupAt(d, "description", 5);
    LookupAt(d, "created_at", 6);
    LookupAt(d, "updated_at", 7);
  }

  lemma PosFromFields(d: Entries<Value>, p: POSProduct, now: string)
    requires OnlyKeys(d, PosKeys) && p.createdAt != [] && p.updatedAt != []
    requires Lookup(d, "id") == Some(VStr(p.id)) && Lookup(d, "name") == Some(VStr(p.name))
    requires Lookup(d, "price") == Some(VFloat(p.price)) && Lookup(d, "stock") == Some(VInt(p.stock))
    requires Lookup(d, "category") == Some(VStr(p.category)) && Lookup(d, "description") == Some(VStr(p.description))
    requires Lookup(d, "created_at") == Some(VStr(p.createdAt)) && Lookup(d, "updated_at") == Some(VStr(p.updatedAt))
    ensures PosFromValue(VDict(d), now) == Ok(p)
  {
    PosFromKeywordsOf(d, p, now);
  }

  lemma PosFromKeywordsOf(d: Entries<Value>, p: POSProduct, now: string)
    requires p.createdAt != [] && p.updatedAt != []
    requires Lookup(d, "id") == Some(VStr(p.id)) && Lookup(d, "name") == Some(VStr(p.name))
    requires Lookup(d, "price") == Some(VFloat(p.price)) && Lookup(d, "stock") == Some(VInt(p.stock))
    requires Lookup(d, "category") == Some(VStr(p.category)) && Lookup(d, "description") == Some(VStr(p.description))
    requires Lookup(d, "created_at") == Some(VStr(p.createdAt)) && Lookup(d, "updated_at") == Some(VStr(p.updatedAt))
    ensures PosFromKeywords(d, now) == Ok(p)
  {
  }

  /** The `section` member of the imported document as a dictionary:
      absent counts as empty, anything but a dictionary has no `items()`. */
  function Section(doc: Entries<Value>, key: string): Option<Entries<Value>> {
    match Lookup(doc, key)
    case None => Some([])
    case Some(v) => if v.VDict? then Some(v.entries) else None
  }

  /** `store[key] = POSProduct(**data)` for each entry in order; the first entry
      that does not build stops the import, keeping those stored before it. */
  function ImportPos(store: Entries<POSProduct>, entries: Entries<Value>, now: string): (Entries<POSProduct>, bool) {
    if entries == [] then (store, true)
    else
      var (s, ok) := ImportPos(store, entries[..|entries| - 1], now);
      if !ok then (s, false)
      else match PosFromValue(entries[|entries| - 1].1, now)
        case Err(_) => (s, false)
        case Ok(p) => (Put(s, entries[|entries| - 1].0, p), true)
  }

  function ImportItems(store: Entries<GeneralItem>, entries: Entries<Value>, now: string): (Entries<GeneralItem>, bool) {
    if entries == [] then (store, true)
    else
      var (s, ok) := ImportItems(store, entries[..|entries| - 1], now);
      if !ok then (s, false)
      else match ItemFromValue(entries[|entries| - 1].1, now)
        case Err(_) => (s, false)
        case Ok(g) => (Put(s, entries[|entries| - 1].0, g), true)
  }

  /** A complete import leaves every key it does not mention as it was and
      stores something under every key it mentions. */
  lemma {:induction false} ImportPosMerges(store: Entries<POSProduct>, entries: Entries<Value>, now: string, k: string)
    requires ImportPos(store, entries, now).1
    ensures k !in KeysOf(entries) ==> Lookup(ImportPos(store, entries, now).0, k) == Lookup(store, k)
    ensures k in KeysOf(entries) ==> Lookup(ImportPos(store, entries, now).0, k).Some?
  {
    if entries != [] {
      var init := entries[..|entries| - 1];
      var last := entries[|entries| - 1];
      var p := ImportPosStep(store, entries, now);
      ImportPosMerges(store, init, now, k);
      KeysOfSnoc(entries);
      MergeStep(ImportPos(store, init, now).0, store, KeysOf(init), last.0, p, k);
    }
  }

  /** Storing one more entry keeps the merge property for the longer key list. */
  lemma MergeStep(s: Entries<POSProduct>, store: Entries<POSProduct>, keys: seq<string>, key: string, p: POSProduct, k: string)
    requires k !in keys ==> Lookup(s, k) == Lookup(store, k)
    requires k in keys ==> Lookup(s, k).Some?
    ensures k !in keys + [key] ==> Lookup(Put(s, key, p), k) == Lookup(store, k)
    ensures k in keys + [key] ==> Lookup(Put(s, key, p), k).Some?
  {
    LookupPut(s, key, p, k);
  }

  /** A complete import of a non-empty section is the import of all but its
      last entry followed by storing the last one. */
  lemma ImportPosStep(store: Entries<POSProduct>, entries: Entries<Value>, now: string) returns (p: POSProduct)
    requires entries != [] && ImportPos(store, entries, now).1
    ensures ImportPos(store, entries[..|entries| - 1], now).1
    ensures PosFromValue(entries[|entries| - 1].1, now) == Ok(p)
    ensures ImportPos(store, entries, now).0 == Put(ImportPos(store, entries[..|entries| - 1], now).0, entries[|entries| - 1].0, p)
  {
    p := PosFromValue(entries[|entries| - 1].1, now).value;
  }

  lemma ImportPosUnique(store: Entries<POSProduct>, entries: Entries<Value>, now: string)
    requires UniqueKeys(store)
    ensures UniqueKeys(ImportPos(store, entries, now).0)
  {
    if entries != [] {
      ImportPosUnique(store, entries[..|entries| - 1], now);
      var (s, _) := ImportPos(store, entries[..|entries| - 1], now);
      match PosFromValue(entries[|entries| - 1].1, now)
      case Err(_) =>
      case Ok(p) => PutKeepsUnique(s, entries[|entries| - 1].0, p);
    }
  }

  lemma ImportItemsUnique(store: Entries<GeneralItem>, entries: Entries<Value>, now: string)
    requires UniqueKeys(store)
    ensures UniqueKeys(ImportItems(store, entries, now).0)
  {
    if entries != [] {
      ImportItemsUnique(store, entries[..|entries| - 1], now);
      var (s, _) := ImportItems(store, entries[..|entries| - 1], now);
      match ItemFromValue(entries[|entries| - 1].1, now)
      case Err(_) =>
      case Ok(g) => PutKeepsUnique(s, entries[|entries| - 1].0, g);
    }
  }

  /** The two dictionaries and the result of `import_from_json` on a parsed
      document, starting from `pos` and `general` (already cleared when not
      merging). */
  function ImportSpec(pos: Entries<POSProduct>, general: Entries<GeneralItem>, doc: Value, now: string)
    : (Entries<POSProduct>, Entries<GeneralItem>, bool)
  {
    if !doc.VDict? then (pos, general, false)
    else match Section(doc.entries, "pos_products")
      case None => (pos, general, false)
      case Some(pe) =>
        var (pos', ok) := ImportPos(pos, pe, now);
        if !ok then (pos', general, false)
        else match Section(doc.entries, "general_items")
          case None => (pos', general, false)
          case Some(ge) =>
            var (general', ok') := ImportItems(general, ge, now);
            (pos', general', ok')
  }

  /** Importing a document without product or item sections changes nothing. */
  lemma ImportEmptyDocument(pos: Entries<POSProduct>, general: Entries<GeneralItem>, now: string)
    ensures ImportSpec(pos, general, VDict([]), now) == (pos, general, true)
  {
  }

  // ---------------------------------------------------------------------------
  // Migration from the old pipe-delimited product file

  /** One line of the old POS file: stripped, it must be non-empty, hold a `|`
      and split into at least four parts id|name|price|stock; price and stock
      must convert. Gives name, price and stock, or None for a skipped line. */
  function MigrateLine(line: string): Option<(string, real, int)> {
    var l := Strip(line);
    if l == [] || '|' !in l then None
    else
      var parts := Split(l, '|');
      if |parts| < 4 then None
      else match (ToFloat(VStr(parts[2])), ToInt(VStr(parts[3])))
        case (Some(price), Some(stock)) => Some((parts[1], price, stock))
        case _ => None
  }

  /** The rows the migration adds, in file order: a skipped line does not stop
      the lines after it. */
  function MigratedRows(lines: seq<string>): seq<(string, real, int)> {
    if lines == [] then []
    else
      var tail := match MigrateLine(lines[|lines| - 1]) case Some(row) => [row] case None => [];
      MigratedRows(lines[..|lines| - 1]) + tail
  }

  lemma {:induction false} MigratedRowsAppend(a: seq<string>, b: seq<string>)
    ensures MigratedRows(a + b) == MigratedRows(a) + MigratedRows(b)
  {
    if b != [] {
      MigratedRowsAppend(a, b[..|b| - 1]);
      assert (a + b)[..|a + b| - 1] == a + b[..|b| - 1];
    } else {
      assert a + b == a;
    }
  }

  /** A line in the old format whose fields hold no `|` and whose price is a
      whole number of cents gives back its name, price and stock; whitespace
      before the id is stripped with the rest of the line. */
  lemma MigrateLineRoundTrip(id: string, name: string, price: real, stock: int)
    requires '|' !in id && '|' !in name
    requires WholeCents(price)
    ensures MigrateLine(Join([id, name, Render(VFloat(price)), Render(VInt(stock))], '|')) == Some((name, price, stock))
  {
    var rest := Join([name, Render(VFloat(price)), Render(VInt(stock))], '|');
    var id' := TrimLeft(id);
    var line := Join([id, name, Render(VFloat(price)), Render(VInt(stock))], '|');
    var line' := Join([id', name, Render(VFloat(price)), Render(VInt(stock))], '|');
    assert [id, name, Render(VFloat(price)), Render(VInt(stock))][1..] == [name, Render(VFloat(price)), Render(VInt(stock))];
    assert [id', name, Render(VFloat(price)), Render(VInt(stock))][1..] == [name, Render(VFloat(price)), Render(VInt(stock))];
    assert line == id + (['|'] + rest);
    assert line' == id' + (['|'] + rest);
    TrimLeftAppend(id, ['|'] + rest);
    TrimLeftAppend(id', ['|'] + rest);
    TrimLeftSuffix(id);
    TrimLeftEdge(id);
    assert TrimLeft(id') == id';
    assert Strip(line) == Strip(line');
    MigrateStrippedLine(id', name, price, stock);
  }

  /** The same line when its id does not start with whitespace. */
  lemma MigrateStrippedLine(id: string, name: string, price: real, stock: int)
    requires '|' !in id && '|' !in name && (id != [] ==> !IsSpace(id[0]))
    requires WholeCents(price)
    ensures MigrateLine(Join([id, name, Render(VFloat(price)), Render(VInt(stock))], '|')) == Some((name, price, stock))
  {
    var fields := [id, name, Render(VFloat(price)), Render(VInt(stock))];
    var line := Join(fields, '|');
    NumberTextOmits(VFloat(price), '|');
    NumberTextOmits(VInt(stock), '|');
    JoinEdges(fields, '|');
    StripUnchanged(line);
    SplitJoin(fields, '|');
    assert line[|id|] == '|';
    IntTextRoundTrip(stock);
    FloatTextRoundTrip(price);
  }

  /** The products the migration adds: the k-th under `prod_` and the k-th
      generated token. */
  function AddPosRows(store: Entries<POSProduct>, rows: seq<(string, real, int)>, token: nat -> string, now: string)
    : Entries<POSProduct>
  {
    if rows == [] then store
    else
      var n := |rows| - 1;
      var id := "prod_" + token(n);
      Put(AddPosRows(store, rows[..n], token, now), id, POSProduct(id, rows[n].0, rows[n].1, rows[n].2, "General", "", now, now))
  }

  /** An item of the old general file that `add_general_item` accepts: a
      dictionary with name, quantity and category. */
  function MigrateItem(v: Value): Option<(string, int, string)> {
    if !v.VDict? then None
    else match (RequiredText(v.entries, "name"), RequiredInt(v.entries, "quantity"), RequiredText(v.entries, "category"))
      case (Ok(name), Ok(quantity), Ok(category)) => Some((name, quantity, category))
      case _ => None
  }

  function MigratedItems(items: seq<Value>): seq<(string, int, string)> {
    if items == [] then []
    else
      var tail := match MigrateItem(items[|items| - 1]) case Some(row) => [row] case None => [];
      MigratedItems(items[..|items| - 1]) + tail
  }

  /** The items the migration adds, the k-th under `item_` and token
      `first + k`. */
  function AddItemRows(store: Entries<GeneralItem>, rows: seq<(string, int, string)>, token: nat -> string,
                       first: nat, now: string): Entries<GeneralItem>
  {
    if rows == [] then store
    else
      var n := |rows| - 1;
      var id := "item_" + token(first + n);
      Put(AddItemRows(store, rows[..n], token, first, now), id,
          GeneralItem(id, rows[n].0, rows[n].1, rows[n].2, "", "pcs", 0, "", now, now))
  }

  lemma MigratedItemsStep(items: seq<Value>, j: nat)
    requires j < |items|
    ensures MigrateItem(items[j]).None? ==> MigratedItems(items[..j + 1]) == MigratedItems(items[..j])
    ensures MigrateItem(items[j]).Some? ==>
              MigratedItems(items[..j + 1]) == MigratedItems(items[..j]) + [MigrateItem(items[j]).value]
  {
    assert items[..j + 1][..j] == items[..j];
    assert MigratedItems(items[..j]) + [] == MigratedItems(items[..j]);
  }

  lemma AddItemRowsStep(store: Entries<GeneralItem>, rows: seq<(string, int, string)>, row: (string, int, string),
                        token: nat -> string, first: nat, now: string)
    ensures AddItemRows(store, rows + [row], token, first, now) ==
      Put(AddItemRows(store, rows, token, first, now), "item_" + token(first + |rows|),
          GeneralItem("item_" + token(first + |rows|), row.0, row.1, row.2, "", "pcs", 0, "", now, now))
  {
    assert (rows + [row])[..|rows|] == rows;
  }

  lemma MigratedRowsStep(lines: seq<string>, i: nat)
    requires i < |lines|
    ensures MigrateLine(lines[i]).None? ==> MigratedRows(lines[..i + 1]) == MigratedRows(lines[..i])
    ensures MigrateLine(lines[i]).Some? ==>
              MigratedRows(lines[..i + 1]) == MigratedRows(lines[..i]) + [MigrateLine(lines[i]).value]
  {
    assert lines[..i + 1][..i] == lines[..i];
    assert MigratedRows(lines[..i]) + [] == MigratedRows(lines[..i]);
  }

  lemma AddPosRowsStep(store: Entries<POSProduct>, rows: seq<(string, real, int)>, row: (string, real, int),
                       token: nat -> string, now: string)
    ensures AddPosRows(store, rows + [row], token, now) ==
      Put(AddPosRows(store, rows, token, now), "prod_" + token(|rows|),
          POSProduct("prod_" + token(|rows|), row.0, row.1, row.2, "General", "", now, now))
  {
    assert (rows + [row])[..|rows|] == rows;
  }

  lemma AddPosRowsUnique(store: Entries<POSProduct>, rows: seq<(string, real, int)>, token: nat -> string, now: string)
    requires UniqueKeys(store)
    ensures UniqueKeys(AddPosRows(store, rows, token, now))
  {
    if rows != [] {
      var n := |rows| - 1;
      AddPosRowsUnique(store, rows[..n], token, now);
      PutKeepsUnique(AddPosRows(store, rows[..n], token, now), "prod_" + token(n),
                     POSProduct("prod_" + token(n), rows[n].0, rows[n].1, rows[n].2, "General", "", now, now));
    }
  }

  lemma AddItemRowsUnique(store: Entries<GeneralItem>, rows: seq<(string, int, string)>, token: nat -> string,
                          first: nat, now: string)
    requires UniqueKeys(store)
    ensures UniqueKeys(AddItemRows(store, rows, token, first, now))
  {
    if rows != [] {
      var n := |rows| - 1;
      AddItemRowsUnique(store, rows[..n], token, first, now);
      PutKeepsUnique(AddItemRows(store, rows[..n], token, first, now), "item_" + token(first + n),
                     GeneralItem("item_" + token(first + n), rows[n].0, rows[n].1, rows[n].2, "", "pcs", 0, "", now, now));
    }
  }

  // ---------------------------------------------------------------------------
  // The manager

  /** The unified inventory manager: two insertion-ordered dictionaries changed
      in place. Saving after each change is not modelled. */
  class LegacyInventory {
    var posProducts: Entries<POSProduct>
    var generalItems: Entries<GeneralItem>

    ghost predicate Valid()
      reads this
    {
      UniqueKeys(posProducts) && UniqueKeys(generalItems)
    }

    constructor ()
      ensures Valid() && posProducts == [] && generalItems == []
    {
      posProducts := [];
      generalItems := [];
    }

    /** `add_pos_product`: stores the product under `prod_` + the generated
        token and returns that id; both timestamps are the current time. */
    method AddPosProduct(name: string, price: real, stock: int, category: string, description: string,
                         token: string, now: string) returns (id: string)
      requires Valid()
      modifies this
      ensures Valid()
      ensures id == "prod_" + token
      ensures posProducts == Put(old(posProducts), id, POSProduct(id, name, price, stock, category, description, now, now))
      ensures Lookup(posProducts, id) == Some(POSProduct(id, name, price, stock, category, description, now, now))
      ensures generalItems == old(generalItems)
    {
      id := "prod_" + token;
      var p := NewPos(id, name, price, stock, category, description, "", "", now);
      PutKeepsUnique(posProducts, id, p);
      LookupPut(posProducts, id, p, id);
      posProducts := Put(posProducts, id, p);
    }

    /** `update_pos_product`: false for an unknown id; otherwise the keyword
        updates are applied in order, updated_at becomes the current time, and
        no other product changes. */
    method UpdatePosProduct(id: string, updates: seq<PosUpdate>, now: string) returns (ok: bool)
      requires Valid()
      modifies this
      ensures Valid()
      ensures ok == HasKey(old(posProducts), id)
      ensures !ok ==> posProducts == old(posProducts)
      ensures ok ==> posProducts == Put(old(posProducts), id,
        ApplyPosUpdates(Lookup(old(posProducts), id).value, updates).(updatedAt := now))
      ensures forall k :: k != id ==> Lookup(posProducts, k) == Lookup(old(posProducts), k)
      ensures generalItems == old(generalItems)
    {
      if !HasKey(posProducts, id) {
        return false;
      }
      var p0 := Lookup(posProducts, id).value;
      var p := p0;
      var i := 0;
      while i < |updates|
        invariant 0 <= i <= |updates|
        invariant p == ApplyPosUpdates(p0, updates[..i])
      {
        p := ApplyPosUpdate(p, updates[i]);
        assert updates[..i + 1][..i] == updates[..i];
        i := i + 1;
      }
      assert updates[..i] == updates;
      p := p.(updatedAt := now);
      ghost var before := posProducts;
      PutKeepsUnique(posProducts, id, p);
      posProducts := Put(posProducts, id, p);
      forall k | k != id
        ensures Lookup(posProducts, k) == Lookup(before, k)
      {
        LookupPut(before, id, p, k);
      }
      return true;
    }

    /** `delete_pos_product`: removes exactly that key. */
    method DeletePosProduct(id: string) returns (ok: bool)
      requires Valid()
      modifies this
      ensures Valid()
      ensures ok == HasKey(old(posProducts), id)
      ensures posProducts == Remove(old(posProducts), id)
      ensures forall k :: Lookup(posProducts, k) == if k == id then None else Lookup(old(posProducts), k)
      ensures generalItems == old(generalItems)
    {
      ghost var before := posProducts;
      RemoveKeepsUnique(posProducts, id);
      ok := HasKey(posProducts, id);
      if ok {
        posProducts := Remove(posProducts, id);
      }
      forall k ensures Lookup(posProducts, k) == if k == id then None else Lookup(before, k) {
        LookupRemove(before, id, k);
      }
    }

    /** `update_pos_stock`: false, with nothing changed, for an unknown id or
        when the stock would go below zero; otherwise stock += change. */
    method UpdatePosStock(id: string, change: int, now: string) returns (ok: bool)
      requires Valid()
      modifies this
      ensures Valid()
      ensures ok <==> HasKey(old(posProducts), id) && Lookup(old(posProducts), id).value.stock + change >= 0
      ensures !ok ==> posProducts == old(posProducts)
      ensures ok ==> var p := Lookup(old(posProducts), id).value;
        posProducts == Put(old(posProducts), id, p.(stock := p.stock + change, updatedAt := now))
      ensures StockNonNegative(old(posProducts)) ==> StockNonNegative(posProducts)
      ensures generalItems == old(generalItems)
    {
      if !HasKey(posProducts, id) {
        return false;
      }
      var p := Lookup(posProducts, id).value;
      var newStock := p.stock + change;
      if newStock < 0 {
        return false;
      }
      var p' := p.(stock := newStock, updatedAt := now);
      PutKeepsUnique(posProducts, id, p');
      if StockNonNegative(posProducts) {
        PutKeepsStock(posProducts, id, p');
      }
      posProducts := Put(posProducts, id, p');
      return true;
    }

    /** `add_general_item`: stores the item under `item_` + the generated token. */
    method AddGeneralItem(name: string, quantity: int, category: string, description: string, unit: string,
                          minQuantity: int, location: string, token: string, now: string) returns (id: string)
      requires Valid()
      modifies this
      ensures Valid()
      ensures id == "item_" + token
      ensures generalItems == Put(old(generalItems), id,
        GeneralItem(id, name, quantity, category, description, unit, minQuantity, location, now, now))
      ensures posProducts == old(posProducts)
    {
      id := "item_" + token;
      var g := NewItem(id, name, quantity, category, description, unit, minQuantity, location, "", "", now);
      PutKeepsUnique(generalItems, id, g);
      generalItems := Put(generalItems, id, g);
    }

    /** `update_general_item` */
    method UpdateGeneralItem(id: string, updates: seq<ItemUpdate>, now: string) returns (ok: bool)
      requires Valid()
      modifies this
      ensures Valid()
      ensures ok == HasKey(old(generalItems), id)
      ensures !ok ==> generalItems == old(generalItems)
      ensures ok ==> generalItems == Put(old(generalItems), id,
        ApplyItemUpdates(Lookup(old(generalItems), id).value, updates).(updatedAt := now))
      ensures forall k :: k != id ==> Lookup(generalItems, k) == Lookup(old(generalItems), k)
      ensures posProducts == old(posProducts)
    {
      if !HasKey(generalItems, id) {
        return false;
      }
      var g0 := Lookup(generalItems, id).value;
      var g := g0;
      var i := 0;
      while i < |updates|
        invariant 0 <= i <= |updates|
        invariant g == ApplyItemUpdates(g0, updates[..i])
      {
        g := ApplyItemUpdate(g, updates[i]);
        assert updates[..i + 1][..i] == updates[..i];
        i := i + 1;
      }
      assert updates[..i] == updates;
      g := g.(updatedAt := now);
      ghost var before := generalItems;
      PutKeepsUnique(generalItems, id, g);
      generalItems := Put(generalItems, id, g);
      forall k | k != id
        ensures Lookup(generalItems, k) == Lookup(before, k)
      {
        LookupPut(before, id, g, k);
      }
      return true;
    }

    /** `delete_general_item` */
    method DeleteGeneralItem(id: string) returns (ok: bool)
      requires Valid()
      modifies this
      ensures Valid()
      ensures ok == HasKey(old(generalItems), id)
      ensures generalItems == Remove(old(generalItems), id)
      ensures forall k :: Lookup(generalItems, k) == if k == id then None else Lookup(old(generalItems), k)
      ensures posProducts == old(posProducts)
    {
      ghost var before := generalItems;
      RemoveKeepsUnique(generalItems, id);
      ok := HasKey(generalItems, id);
      if ok {
        generalItems := Remove(generalItems, id);
      }
      forall k ensures Lookup(generalItems, k) == if k == id then None else Lookup(before, k) {
        LookupRemove(before, id, k);
      }
    }

    /** `update_general_quantity`: the same guard as `update_pos_stock`. */
    method UpdateGeneralQuantity(id: string, change: int, now: string) returns (ok: bool)
      requires Valid()
      modifies this
      ensures Valid()
      ensures ok <==> HasKey(old(generalItems), id) && Lookup(old(generalItems), id).value.quantity + change >= 0
      ensures !ok ==> generalItems == old(generalItems)
      ensures ok ==> var g := Lookup(old(generalItems), id).value;
        generalItems == Put(old(generalItems), id, g.(quantity := g.quantity + change, updatedAt := now))
      ensures QuantityNonNegative(old(generalItems)) ==> QuantityNonNegative(generalItems)
      ensures posProducts == old(posProducts)
    {
      if !HasKey(generalItems, id) {
        return false;
      }
      var g := Lookup(generalItems, id).value;
      var newQuantity := g.quantity + change;
      if newQuantity < 0 {
        return false;
      }
      var g' := g.(quantity := newQuantity, updatedAt := now);
      PutKeepsUnique(generalItems, id, g');
      if QuantityNonNegative(generalItems) {
        PutKeepsQuantity(generalItems, id, g');
      }
      generalItems := Put(generalItems, id, g');
      return true;
    }

    /** `search_pos_products(query, field)`: Err where Python raises because
        the field is a number. */
    method SearchPosProducts(query: string, field: string) returns (r: Result<seq<POSProduct>>)
      ensures r == SearchSpec(ValuesOf(posProducts), Lower(query), p => PosField(p, field))
    {
      var q := Lower(query);
      var ps := ValuesOf(posProducts);
      var found: seq<POSProduct> := [];
      var i := 0;
      while i < |ps|
        invariant 0 <= i <= |ps|
        invariant SearchSpec(ps[..i], q, p => PosField(p, field)) == Ok(found)
      {
        assert ps[..i + 1][..i] == ps[..i];
        var f := PosField(ps[i], field);
        if f.NotText? {
          SearchStopsAtError(ps, q, p => PosField(p, field), i + 1);
          return Err("attribute has no lower()");
        }
        if f.Text? && IsSubstring(q, Lower(f.s)) {
          found := found + [ps[i]];
        }
        i := i + 1;
      }
      assert ps[..i] == ps;
      return Ok(found);
    }

    /** `search_general_items(query, field)` */
    method SearchGeneralItems(query: string, field: string) returns (r: Result<seq<GeneralItem>>)
      ensures r == SearchSpec(ValuesOf(generalItems), Lower(query), g => ItemField(g, field))
    {
      var q := Lower(query);
      var gs := ValuesOf(generalItems);
      var found: seq<GeneralItem> := [];
      var i := 0;
      while i < |gs|
        invariant 0 <= i <= |gs|
        invariant SearchSpec(gs[..i], q, g => ItemField(g, field)) == Ok(found)
      {
        assert gs[..i + 1][..i] == gs[..i];
        var f := ItemField(gs[i], field);
        if f.NotText? {
          SearchStopsAtError(gs, q, g => ItemField(g, field), i + 1);
          return Err("attribute has no lower()");
        }
        if f.Text? && IsSubstring(q, Lower(f.s)) {
          found := found + [gs[i]];
        }
        i := i + 1;
      }
      assert gs[..i] == gs;
      return Ok(found);
    }

    /** The loop of `import_from_json` over the `pos_products` section. */
    method ImportPosEntries(entries: Entries<Value>, now: string) returns (ok: bool)
      requires Valid()
      modifies this
      ensures Valid()
      ensures (posProducts, ok) == ImportPos(old(posProducts), entries, now)
      ensures generalItems == old(generalItems)
    {
      ghost var pos0 := posProducts;
      var i := 0;
      while i < |entries|
        invariant 0 <= i <= |entries|
        invariant ImportPos(pos0, entries[..i], now) == (posProducts, true)
        invariant Valid() && generalItems == old(generalItems)
      {
        assert entries[..i + 1][..i] == entries[..i];
        var p := PosFromValue(entries[i].1, now);
        if p.Err? {
          ImportPosStops(pos0, entries, now, i + 1);
          return false;
        }
        PutKeepsUnique(posProducts, entries[i].0, p.value);
        posProducts := Put(posProducts, entries[i].0, p.value);
        i := i + 1;
      }
      assert entries[..i] == entries;
      return true;
    }

    /** The loop of `import_from_json` over the `general_items` section. */
    method ImportItemEntries(entries: Entries<Value>, now: string) returns (ok: bool)
      requires Valid()
      modifies this
      ensures Valid()
      ensures (generalItems, ok) == ImportItems(old(generalItems), entries, now)
      ensures posProducts == old(posProducts)
    {
      ghost var general0 := generalItems;
      var i := 0;
      while i < |entries|
        invariant 0 <= i <= |entries|
        invariant ImportItems(general0, entries[..i], now) == (generalItems, true)
        invariant Valid() && posProducts == old(posProducts)
      {
        assert entries[..i + 1][..i] == entries[..i];
        var g := ItemFromValue(entries[i].1, now);
        if g.Err? {
          ImportItemsStops(general0, entries, now, i + 1);
          return false;
        }
        PutKeepsUnique(generalItems, entries[i].0, g.value);
        generalItems := Put(generalItems, entries[i].0, g.value);
        i := i + 1;
      }
      assert entries[..i] == entries;
      return true;
    }

    /** `import_from_json(path, merge)`: false with nothing changed when the
        file cannot be read or parsed; otherwise both dictionaries are cleared
        unless merging, and the sections are imported entry by entry. A failure
        part-way returns false and keeps what was imported before it. */
    method ImportFromJson(file: JsonFile, merge: bool, now: string) returns (ok: bool)
      requires Valid()
      modifies this
      ensures Valid()
      ensures !file.Parsed? ==> !ok && posProducts == old(posProducts) && generalItems == old(generalItems)
      ensures file.Parsed? ==>
        (posProducts, generalItems, ok) == ImportSpec(if merge then old(posProducts) else [],
                                                      if merge then old(generalItems) else [], file.doc, now)
    {
      if !file.Parsed? {
        return false;
      }
      if !merge {
        posProducts := [];
        generalItems := [];
      }
      var doc := file.doc;
      if !doc.VDict? {
        return false;
      }
      var pe := Section(doc.entries, "pos_products");
      if pe.None? {
        return false;
      }
      ok := ImportPosEntries(pe.value, now);
      if !ok {
        return false;
      }
      var ge := Section(doc.entries, "general_items");
      if ge.None? {
        return false;
      }
      ok := ImportItemEntries(ge.value, now);
    }

    /** The line loop of `migrate_from_old_format` over the old POS file. */
    method MigratePosLines(lines: seq<string>, token: nat -> string, now: string) returns (added: nat)
      requires Valid()
      modifies this
      ensures Valid()
      ensures added == |MigratedRows(lines)|
      ensures posProducts == AddPosRows(old(posProducts), MigratedRows(lines), token, now)
      ensures generalItems == old(generalItems)
    {
      ghost var pos0 := posProducts;
      added := 0;
      var i := 0;
      while i < |lines|
        invariant 0 <= i <= |lines|
        invariant added == |MigratedRows(lines[..i])|
        invariant posProducts == AddPosRows(pos0, MigratedRows(lines[..i]), token, now)
        invariant Valid() && generalItems == old(generalItems)
      {
        added := MigratePosLine(lines, i, added, token, now, pos0);
        i := i + 1;
      }
      assert lines[..i] == lines;
    }

    /** One pass of the line loop: a line that parses adds a product under the
        next token. */
    method MigratePosLine(lines: seq<string>, i: nat, added: nat, token: nat -> string, now: string,
                          ghost pos0: Entries<POSProduct>) returns (added': nat)
      requires i < |lines| && Valid()
      requires added == |MigratedRows(lines[..i])|
      requires posProducts == AddPosRows(pos0, MigratedRows(lines[..i]), token, now)
      modifies this
      ensures Valid() && generalItems == old(generalItems)
      ensures added' == |MigratedRows(lines[..i + 1])|
      ensures posProducts == AddPosRows(pos0, MigratedRows(lines[..i + 1]), token, now)
    {
      MigratedRowsStep(lines, i);
      added' := added;
      var parsed := MigrateLine(lines[i]);
      if parsed.Some? {
        var _ := AddPosProduct(parsed.value.0, parsed.value.1, parsed.value.2, "General", "", token(added), now);
        AddPosRowsStep(pos0, MigratedRows(lines[..i]), parsed.value, token, now);
        added' := added + 1;
      }
    }

    /** The item loop of `migrate_from_old_format` over the old general file;
        tokens are drawn from `first` on. */
    method MigrateItemValues(items: seq<Value>, token: nat -> string, first: nat, now: string)
      requires Valid()
      modifies this
      ensures Valid()
      ensures generalItems == AddItemRows(old(generalItems), MigratedItems(items), token, first, now)
      ensures posProducts == old(posProducts)
    {
      ghost var general0 := generalItems;
      var added := first;
      var j := 0;
      while j < |items|
        invariant 0 <= j <= |items|
        invariant added == first + |MigratedItems(items[..j])|
        invariant generalItems == AddItemRows(general0, MigratedItems(items[..j]), token, first, now)
        invariant Valid() && posProducts == old(posProducts)
      {
        MigratedItemsStep(items, j);
        var parsed := MigrateItem(items[j]);
        added := AddMigratedItem(parsed, added, token, first, now, general0, MigratedItems(items[..j]));
        j := j + 1;
      }
      assert items[..j] == items;
    }

    /** One pass of the item loop: a suitable item, already read into `row`,
        becomes a general item under the next token. */
    method AddMigratedItem(row: Option<(string, int, string)>, added: nat, token: nat -> string, first: nat,
                           now: string, ghost general0: Entries<GeneralItem>, ghost rows: seq<(string, int, string)>)
      returns (added': nat)
      requires Valid() && added == first + |rows|
      requires generalItems == AddItemRows(general0, rows, token, first, now)
      modifies this
      ensures Valid() && posProducts == old(posProducts)
      ensures row.None? ==> added' == added && generalItems == old(generalItems)
      ensures row.Some? ==> added' == first + |rows + [row.value]| &&
                            generalItems == AddItemRows(general0, rows + [row.value], token, first, now)
    {
      added' := added;
      if row.Some? {
        var _ := AddGeneralItem(row.value.0, row.value.1, row.value.2, "", "pcs", 0, "", token(added), now);
        AddItemRowsStep(general0, rows, row.value, token, first, now);
        added' := added + 1;
      }
    }

    /** `migrate_from_old_format`: each line of the old POS file that parses adds
        a product in category General, and each suitable item of the old general
        file adds an item; the k-th product or item added takes the k-th
        generated token. A general file that is not valid JSON or not iterable
        returns false after the products were added. */
    method MigrateFromOldFormat(posFile: Option<string>, generalFile: JsonFile, token: nat -> string, now: string)
      returns (ok: bool)
      requires Valid()
      modifies this
      ensures Valid()
      ensures var rows := if posFile.Some? then MigratedRows(TextLines(posFile.value)) else [];
        posProducts == AddPosRows(old(posProducts), rows, token, now) &&
        match generalFile
        case Missing => ok && generalItems == old(generalItems)
        case Malformed => !ok && generalItems == old(generalItems)
        case Parsed(doc) =>
          match Iterate(doc)
          case None => !ok && generalItems == old(generalItems)
          case Some(items) => ok && generalItems == AddItemRows(old(generalItems), MigratedItems(items), token, |rows|, now)
    {
      var added := 0;
      if posFile.Some? {
        added := MigratePosLines(TextLines(posFile.value), token, now);
      }
      if generalFile.Missing? {
        return true;
      }
      if generalFile.Malformed? {
        return false;
      }
      var items := Iterate(generalFile.doc);
      if items.None? {
        return false;
      }
      MigrateItemValues(items.value, token, added, now);
      return true;
    }
  }

  /** Once a search has failed, later elements do not change the outcome. */
  lemma {:induction false} SearchStopsAtError<T>(xs: seq<T>, q: string, field: T -> FieldLookup, i: nat)
    requires i <= |xs| && SearchSpec(xs[..i], q, field).Err?
    ensures SearchSpec(xs, q, field) == Err("attribute has no lower()")
    decreases |xs| - i
  {
    if i < |xs| {
      assert xs[..i + 1][..i] == xs[..i];
      SearchStopsAtError(xs, q, field, i + 1);
    } else {
      assert xs[..i] == xs;
      SearchErrorMessage(xs, q, field);
    }
  }

  lemma {:induction false} SearchErrorMessage<T>(xs: seq<T>, q: string, field: T -> FieldLookup)
    ensures SearchSpec(xs, q, field).Err? ==> SearchSpec(xs, q, field) == Err("attribute has no lower()")
  {
    if xs != [] {
      SearchErrorMessage(xs[..|xs| - 1], q, field);
    }
  }

  lemma {:induction false} ImportPosStops(store: Entries<POSProduct>, entries: Entries<Value>, now: string, i: nat)
    requires i <= |entries| && !ImportPos(store, entries[..i], now).1
    ensures ImportPos(store, entries, now) == ImportPos(store, entries[..i], now)
    decreases |entries| - i
  {
    if i < |entries| {
      assert entries[..i + 1][..i] == entries[..i];
      ImportPosStops(store, entries, now, i + 1);
    } else {
      assert entries[..i] == entries;
    }
  }

  lemma {:induction false} ImportItemsStops(store: Entries<GeneralItem>, entries: Entries<Value>, now: string, i: nat)
    requires i <= |entries| && !ImportItems(store, entries[..i], now).1
    ensures ImportItems(store, entries, now) == ImportItems(store, entries[..i], now)
    decreases |entries| - i
  {
    if i < |entries| {
      assert entries[..i + 1][..i] == entries[..i];
      ImportItemsStops(store, entries, now, i + 1);
    } else {
      assert entries[..i] == entries;
    }
  }
}
