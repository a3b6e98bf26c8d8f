/**
 * app/contexts/ProductsContext.tsx: the provider that keeps the product list
 * and the simulation rows side by side, position i of one belonging to
 * position i of the other.
 */
module ProductsState {

  datatype ProductData = ProductData(name: string, price: real, variableCost: real)

  datatype SimulationRow = SimulationRow(
    price: real, variableCost: real, quantity: real, salesAmount: real, variableCostAmount: real)

  /** The fields of a simulation row a user may edit. */
  datatype SimField = PriceField | VariableCostField | QuantityField

  const EmptyProduct := ProductData("", 0.0, 0.0)
  const ZeroRow := SimulationRow(0.0, 0.0, 0.0, 0.0, 0.0)

  /** The two amounts of a row are its unit figures times its quantity. */
  predicate AmountsCurrent(r: SimulationRow) {
    r.salesAmount == r.price * r.quantity && r.variableCostAmount == r.variableCost * r.quantity
  }

  /** A row carries the price and variable cost of its product. */
  predicate Mirrors(r: SimulationRow, p: ProductData) {
    r.price == p.price && r.variableCost == p.variableCost
  }

  /** Rows and products correspond one to one, position by position. */
  predicate MirrorsAll(products: seq<ProductData>, rows: seq<SimulationRow>) {
    |products| == |rows| && forall i :: 0 <= i < |rows| ==> Mirrors(rows[i], products[i])
  }

  predicate AllCurrent(rows: seq<SimulationRow>) {
    forall i :: 0 <= i < |rows| ==> AmountsCurrent(rows[i])
  }

  /** The row for a product sold `quantity` times. */
  function RowFor(p: ProductData, quantity: real): (r: SimulationRow)
    ensures Mirrors(r, p) && AmountsCurrent(r) && r.quantity == quantity
  {
    SimulationRow(p.price, p.variableCost, quantity, p.price * quantity, p.variableCost * quantity)
  }

  /** `{ ...row, [field]: value }` with both amounts recomputed afterwards. */
  function EditRow(row: SimulationRow, field: SimField, value: real): (r: SimulationRow)
    ensures AmountsCurrent(r)
    ensures r.price == (if field == PriceField then value else row.price)
    ensures r.variableCost == (if field == VariableCostField then value else row.variableCost)
    ensures r.quantity == (if field == QuantityField then value else row.quantity)
  {
    var sim := match field
      case PriceField => row.(price := value)
      case VariableCostField => row.(variableCost := value)
      case QuantityField => row.(quantity := value);
    sim.(salesAmount := sim.price * sim.quantity, variableCostAmount := sim.variableCost * sim.quantity)
  }

  /** Editing a row and then writing the old value back restores it, provided its amounts were current. */
  lemma EditRowUndo(row: SimulationRow, field: SimField, value: real)
    requires AmountsCurrent(row)
    ensures var back := match field
        case PriceField => row.price
        case VariableCostField => row.variableCost
        case QuantityField => row.quantity;
      EditRow(EditRow(row, field, value), field, back) == row
  {
  }

  /** The quantity `existingSim?.quantity || 0` takes from the old rows. */
  function QuantityAt(rows: seq<SimulationRow>, i: int): real {
    if 0 <= i < |rows| then rows[i].quantity else 0.0
  }

  /** The rows `setProducts` derives: one per product, keeping the quantity found at the same position. */
  function Sync(products: seq<ProductData>, rows: seq<SimulationRow>): (r: seq<SimulationRow>)
    ensures MirrorsAll(products, r) && AllCurrent(r)
    ensures forall i :: 0 <= i < |r| ==> r[i].quantity == (if i < |rows| then rows[i].quantity else 0.0)
  {
    seq(|products|, i requires 0 <= i < |products| => RowFor(products[i], QuantityAt(rows, i)))
  }

  /** Syncing against rows that already mirror the products changes nothing. */
  lemma SyncStable(products: seq<ProductData>, rows: seq<SimulationRow>)
    requires MirrorsAll(products, rows) && AllCurrent(rows)
    ensures Sync(products, rows) == rows
  {
    var r := Sync(products, rows);
    forall i | 0 <= i < |rows| ensures r[i] == rows[i] {
      assert Mirrors(rows[i], products[i]) && AmountsCurrent(rows[i]);
    }
  }

  /** `list.filter((_, i) => i !== index)`: the element at `index` removed, if there is one. */
  function RemoveAt<T>(s: seq<T>, index: int): (r: seq<T>)
    ensures 0 <= index < |s| ==> |r| == |s| - 1
    ensures 0 <= index < |s| ==> forall j :: 0 <= j < index ==> r[j] == s[j]
    ensures 0 <= index < |s| ==> forall j :: index <= j < |r| ==> r[j] == s[j + 1]
    ensures !(0 <= index < |s|) ==> r == s
  {
    if 0 <= index < |s| then s[..index] + s[index + 1..] else s
  }

  /** `RemoveAt` deletes exactly one occurrence: the multiset loses s[index] and nothing else. */
  lemma RemoveAtMultiset<T>(s: seq<T>, index: int)
    requires 0 <= index < |s|
    ensures multiset(RemoveAt(s, index)) + multiset{s[index]} == multiset(s)
  {
    assert s == s[..index] + [s[index]] + s[index + 1..];
  }

  /** A list that would become empty is replaced by its one default entry. */
  function OrDefault<T>(s: seq<T>, default: T): (r: seq<T>)
    ensures |r| > 0
    ensures |s| > 0 ==> r == s
    ensures |s| == 0 ==> r == [default]
  {
    if |s| > 0 then s else [default]
  }

  /** Removing the same position from both lists keeps them in correspondence. */
  lemma RemovePreservesMirror(products: seq<ProductData>, rows: seq<SimulationRow>, index: int)
    requires MirrorsAll(products, rows)
    ensures MirrorsAll(OrDefault(RemoveAt(products, index), EmptyProduct), OrDefault(RemoveAt(rows, index), ZeroRow))
  {
    var ps, rs := RemoveAt(products, index), RemoveAt(rows, index);
    assert |ps| == |rs|;
    if 0 <= index < |rows| {
      forall j | 0 <= j < |rs| ensures Mirrors(rs[j], ps[j]) {
        if j < index {
          assert rs[j] == rows[j] && ps[j] == products[j];
        } else {
          assert rs[j] == rows[j + 1] && ps[j] == products[j + 1];
        }
      }
    }
  }

  /** Removing a row keeps every remaining row's amounts current. */
  lemma RemovePreservesCurrent(rows: seq<SimulationRow>, index: int)
    requires AllCurrent(rows)
    ensures AllCurrent(OrDefault(RemoveAt(rows, index), ZeroRow))
  {
    var rs := RemoveAt(rows, index);
    if 0 <= index < |rows| {
      forall j | 0 <= j < |rs| ensures AmountsCurrent(rs[j]) {
        if j < index {
          assert rs[j] == rows[j];
        } else {
          assert rs[j] == rows[j + 1];
        }
      }
    }
  }

  /** The row `updateProduct` writes: new base values, same quantity, amounts recomputed. */
  function Rebase(row: SimulationRow, p: ProductData): (r: SimulationRow)
    ensures Mirrors(r, p) && AmountsCurrent(r) && r.quantity == row.quantity
  {
    row.(price := p.price, variableCost := p.variableCost,
         salesAmount := p.price * row.quantity, variableCostAmount := p.variableCost * row.quantity)
  }

  /** The provider's state: products, simulation rows and the simulator's fixed cost. */
  class ProductsProvider {
    var products: seq<ProductData>
    var simulations: seq<SimulationRow>
    var simulatorFixedCost: real

    /** The two lists have the same length. */
    ghost predicate Aligned()
      reads this
    {
      |products| == |simulations|
    }

    /** Every row mirrors its product's base values and has current amounts. */
    ghost predicate Synced()
      reads this
    {
      MirrorsAll(products, simulations) && AllCurrent(simulations)
    }

    constructor ()
      ensures products == [EmptyProduct] && simulations == [ZeroRow] && simulatorFixedCost == 0.0
      ensures Synced()
    {
      products := [EmptyProduct];
      simulations := [ZeroRow];
      simulatorFixedCost := 0.0;
    }

    /** Replaces the product list and rebuilds the rows, keeping quantities by position. */
    method SetProducts(newProducts: seq<ProductData>)
      modifies this
      ensures products == newProducts
      ensures simulations == Sync(newProducts, old(simulations))
      ensures Synced()
      ensures forall i :: 0 <= i < |simulations| ==>
        simulations[i].quantity == QuantityAt(old(simulations), i)
      ensures simulatorFixedCost == old(simulatorFixedCost)
    {
      products := newProducts;
      simulations := Sync(newProducts, simulations);
    }

    /**
     * Writes `product` at `index`. A negative index writes no array element;
     * index == |products| appends to the products only, since no row exists there.
     */
    method UpdateProduct(index: int, product: ProductData)
      requires index <= |products|
      modifies this
      ensures 0 <= index < |old(products)| ==> products == old(products)[index := product]
      ensures index == |old(products)| ==> products == old(products) + [product]
      ensures index < 0 ==> products == old(products)
      ensures simulations == if 0 <= index < |old(simulations)|
        then old(simulations)[index := Rebase(old(simulations)[index], product)]
        else old(simulations)
      ensures old(Synced()) && 0 <= index < |old(products)| ==> Synced() && |products| > 0
      ensures old(Aligned()) && index == |old(products)| ==> |products| == |simulations| + 1
      ensures simulatorFixedCost == old(simulatorFixedCost)
    {
      if 0 <= index < |products| {
        products := products[index := product];
      } else if index == |products| {
        products := products + [product];
      }
      if 0 <= index < |simulations| {
        simulations := simulations[index := Rebase(simulations[index], product)];
      }
    }

    /** Appends one empty product and one zero row. */
    method AddProduct()
      modifies this
      ensures products == old(products) + [EmptyProduct]
      ensures simulations == old(simulations) + [ZeroRow]
      ensures old(Synced()) ==> Synced()
      ensures simulatorFixedCost == old(simulatorFixedCost)
    {
      products := products + [EmptyProduct];
      simulations := simulations + [ZeroRow];
    }

    /** Deletes position `index` from both lists; a list left empty gets its default entry back. */
    method RemoveProduct(index: int)
      modifies this
      ensures products == OrDefault(RemoveAt(old(products), index), EmptyProduct)
      ensures simulations == OrDefault(RemoveAt(old(simulations), index), ZeroRow)
      ensures |products| > 0 && |simulations| > 0
      ensures !(0 <= index < |old(products)|) && |old(products)| > 0 ==> products == old(products)
      ensures !(0 <= index < |old(simulations)|) && |old(simulations)| > 0 ==> simulations == old(simulations)
      ensures old(Synced()) ==> Synced()
      ensures simulatorFixedCost == old(simulatorFixedCost)
    {
      if Synced() {
        RemovePreservesMirror(products, simulations, index);
        RemovePreservesCurrent(simulations, index);
      }
      products := OrDefault(RemoveAt(products, index), EmptyProduct);
      simulations := OrDefault(RemoveAt(simulations, index), ZeroRow);
    }

    /** Edits one field of row `index` and recomputes its amounts; the products are untouched. */
    method UpdateSimulation(index: int, field: SimField, value: real)
      requires 0 <= index < |simulations|
      modifies this
      ensures simulations == old(simulations)[index := EditRow(old(simulations)[index], field, value)]
      ensures products == old(products)
      ensures old(Aligned()) ==> Aligned()
      ensures old(AllCurrent(simulations)) ==> AllCurrent(simulations)
      ensures old(Synced()) && field == QuantityField ==> Synced()
      ensures simulatorFixedCost == old(simulatorFixedCost)
    {
      simulations := simulations[index := EditRow(simulations[index], field, value)];
    }

    method SetSimulatorFixedCost(cost: real)
      modifies this
      ensures simulatorFixedCost == cost
      ensures products == old(products) && simulations == old(simulations)
    {
      simulatorFixedCost := cost;
    }
  }
}
