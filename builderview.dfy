// BuilderView.tsx: the bill-of-materials editor. Its item list is edited by
// addItem, updateQuantity, removeItem, setQuantity and the quantity field's
// blur handler; `finance` sums it (with a per-category breakdown) and
// handleSave commits it as a project.

module BuilderView {
  import opened Types
  import opened Collections
  import opened Budget
  import opened App
  import opened CatalogView

  /** No two lines of the editor share a part id (the source keys its rows by it). */
  ghost predicate UniqueLines(items: seq<ProjectItem>) {
    Distinct(items, (x: ProjectItem) => x.partId)
  }

  /** `items.find(i => i.partId === partId)` finds something. */
  predicate HasLine(items: seq<ProjectItem>, partId: string) {
    exists i :: 0 <= i < |items| && items[i].partId == partId
  }

  /** `Math.max`. */
  function Max(a: real, b: real): real {
    if a >= b then a else b
  }

  /** `Number(q.toFixed(2))` on exact reals: round half up to a whole number
      of hundredths. */
  function Round2(x: real): (r: real)
    ensures x - 0.005 < r <= x + 0.005
    ensures x >= 0.1 ==> r >= 0.1
    ensures (r * 100.0).Floor as real == r * 100.0
  {
    ((x * 100.0 + 0.5).Floor as real) / 100.0
  }

  /** Every line for `partId` gets the quantity `f` gives for its old one; the
      other lines are left as they are (`prev.map(i => i.partId === partId ? ... : i)`). */
  function UpdateLines(items: seq<ProjectItem>, partId: string, f: real -> real): (r: seq<ProjectItem>)
    ensures |r| == |items|
    ensures forall i :: 0 <= i < |items| ==>
      r[i] == if items[i].partId == partId then ProjectItem(partId, f(items[i].quantity)) else items[i]
  {
    seq(|items|, i requires 0 <= i < |items| =>
      if items[i].partId == partId then items[i].(quantity := f(items[i].quantity)) else items[i])
  }

  lemma UpdateLinesKeepsUnique(items: seq<ProjectItem>, partId: string, f: real -> real)
    requires UniqueLines(items)
    ensures UniqueLines(UpdateLines(items, partId, f))
  {
    var r := UpdateLines(items, partId, f);
    forall i, j | 0 <= i < j < |r|
      ensures r[i].partId != r[j].partId
    {
      assert r[i].partId == items[i].partId && r[j].partId == items[j].partId;
    }
  }

  // ---------------------------------------------------------------------------
  // addItem

  /** addItem: a part already on the list gets one more unit on its line(s);
      otherwise a line of quantity 1 is appended. */
  function WithItemAdded(items: seq<ProjectItem>, partId: string): (r: seq<ProjectItem>)
    ensures HasLine(r, partId)
    ensures HasLine(items, partId) ==> |r| == |items| && forall i :: 0 <= i < |r| ==>
      r[i].partId == items[i].partId
      && r[i].quantity == (if items[i].partId == partId then items[i].quantity + 1.0 else items[i].quantity)
    ensures !HasLine(items, partId) ==> r == items + [ProjectItem(partId, 1.0)]
  {
    if HasLine(items, partId) then UpdateLines(items, partId, q => q + 1.0)
    else
      var r := items + [ProjectItem(partId, 1.0)];
      assert r[|items|].partId == partId;
      r
  }

  /** addItem never creates a second line for a part. */
  lemma AddItemKeepsUnique(items: seq<ProjectItem>, partId: string)
    requires UniqueLines(items)
    ensures UniqueLines(WithItemAdded(items, partId))
  {
    if HasLine(items, partId) {
      UpdateLinesKeepsUnique(items, partId, q => q + 1.0);
    } else {
      var r := WithItemAdded(items, partId);
      forall i, j | 0 <= i < j < |r|
        ensures r[i].partId != r[j].partId
      {
        if j == |items| {
          assert r[i] == items[i];
        }
      }
    }
  }

  /** addItem keeps every quantity positive if they all were. */
  lemma AddItemKeepsPositive(items: seq<ProjectItem>, partId: string)
    requires forall i :: 0 <= i < |items| ==> items[i].quantity > 0.0
    ensures forall i :: 0 <= i < |WithItemAdded(items, partId)| ==> WithItemAdded(items, partId)[i].quantity > 0.0
  {
  }

  /** Two lists that differ only at position `k` differ in total only by the
      two lines at `k`. */
  lemma {:induction false} TotalReplaceAt(catalog: seq<Part>, a: seq<ProjectItem>, b: seq<ProjectItem>, k: nat, side: Side)
    requires |a| == |b| && k < |a|
    requires forall i :: 0 <= i < |a| && i != k ==> a[i] == b[i]
    ensures Total(catalog, b, side) == Total(catalog, a, side) - LineAmount(catalog, a[k], side) + LineAmount(catalog, b[k], side)
  {
    assert a[..k] + a[k + 1..] == b[..k] + b[k + 1..];
    TotalRemoveAt(catalog, a, k, side);
    TotalRemoveAt(catalog, b, k, side);
  }

  /** On a list without repeated parts, addItem raises the cost and the sale
      total by exactly one unit price of the part. */
  lemma {:induction false} AddItemAddsOneUnit(catalog: seq<Part>, items: seq<ProjectItem>, part: Part, side: Side)
    requires UniqueLines(items)
    requires FindPart(catalog, part.id) == Some(part)
    ensures Total(catalog, WithItemAdded(items, part.id), side) == Total(catalog, items, side) + UnitPrice(part, side)
  {
    var r := WithItemAdded(items, part.id);
    if !HasLine(items, part.id) {
      TotalSnoc(catalog, items, ProjectItem(part.id, 1.0), side);
    } else {
      var k :| 0 <= k < |items| && items[k].partId == part.id;
      OneMoreOnLine(catalog, items, k, part, side);
    }
  }

  /** addItem on the line at `k`: one more unit of that line's part. */
  lemma {:induction false} OneMoreOnLine(catalog: seq<Part>, items: seq<ProjectItem>, k: nat, part: Part, side: Side)
    requires UniqueLines(items) && k < |items| && items[k].partId == part.id
    requires FindPart(catalog, part.id) == Some(part)
    ensures Total(catalog, UpdateLines(items, part.id, q => q + 1.0), side) == Total(catalog, items, side) + UnitPrice(part, side)
  {
    var r := UpdateLines(items, part.id, q => q + 1.0);
    OnlyLineOf(items, k);
    TotalReplaceAt(catalog, items, r, k, side);
    var q, u := items[k].quantity, UnitPrice(part, side);
    assert r[k] == ProjectItem(part.id, q + 1.0);
    LineAmountOneMore(catalog, part, q, side);
  }

  lemma LineAmountOneMore(catalog: seq<Part>, part: Part, q: real, side: Side)
    requires FindPart(catalog, part.id) == Some(part)
    ensures LineAmount(catalog, ProjectItem(part.id, q + 1.0), side)
         == LineAmount(catalog, ProjectItem(part.id, q), side) + UnitPrice(part, side)
  {
    var u := UnitPrice(part, side);
    assert u * (q + 1.0) == u * q + u;
  }

  /** In a list without repeated parts, line `k` is the only one for its part. */
  lemma {:induction false} OnlyLineOf(items: seq<ProjectItem>, k: nat)
    requires UniqueLines(items) && k < |items|
    ensures forall i :: 0 <= i < |items| && i != k ==> items[i].partId != items[k].partId
  {
    forall i | 0 <= i < |items| && i != k
      ensures items[i].partId != items[k].partId
    {
      if i < k {
        assert items[i].partId != items[k].partId;
      } else {
        assert items[k].partId != items[i].partId;
      }
    }
  }

  // ---------------------------------------------------------------------------
  // updateQuantity and the blur handler

  /** Where updateQuantity moves a quantity: `q + delta`, floored at 0.1 and
      rounded to two decimals. */
  function Stepped(q: real, delta: real): (r: real)
    ensures r >= 0.1
  {
    Round2(Max(0.1, q + delta))
  }

  /** What UpdateLines does, stated on membership. */
  lemma UpdateLinesMembers(items: seq<ProjectItem>, partId: string, f: real -> real)
    ensures forall x :: x in items && x.partId == partId ==> ProjectItem(partId, f(x.quantity)) in UpdateLines(items, partId, f)
    ensures forall x :: x in items && x.partId != partId ==> x in UpdateLines(items, partId, f)
    ensures forall x :: x in UpdateLines(items, partId, f) && x.partId != partId ==> x in items
  {
    var r := UpdateLines(items, partId, f);
    forall x | x in items
      ensures x.partId == partId ==> ProjectItem(partId, f(x.quantity)) in r
      ensures x.partId != partId ==> x in r
    {
      var i :| 0 <= i < |items| && items[i] == x;
      assert r[i] in r;
    }
    forall x | x in r && x.partId != partId
      ensures x in items
    {
      var i :| 0 <= i < |r| && r[i] == x;
      assert items[i] in items;
    }
  }

  /** updateQuantity: the line(s) for `partId` move by `delta` (see Stepped);
      then every line whose quantity is not positive is dropped, whichever
      part it is for. */
  function QuantityUpdated(items: seq<ProjectItem>, partId: string, delta: real): (r: seq<ProjectItem>)
    ensures forall x :: x in r ==> x.quantity > 0.0
  {
    Filter(UpdateLines(items, partId, q => Stepped(q, delta)), (x: ProjectItem) => x.quantity > 0.0)
  }

  /** After updateQuantity the part's line(s) hold the stepped quantity, the
      other lines stay exactly when their quantity is positive, and no other
      line appears. */
  lemma QuantityUpdatedLines(items: seq<ProjectItem>, partId: string, delta: real)
    ensures forall x :: x in items && x.partId == partId ==>
      ProjectItem(partId, Stepped(x.quantity, delta)) in QuantityUpdated(items, partId, delta)
    ensures forall x :: x in items && x.partId != partId ==> (x in QuantityUpdated(items, partId, delta) <==> x.quantity > 0.0)
    ensures forall x :: x in QuantityUpdated(items, partId, delta) && x.partId != partId ==> x in items
  {
    UpdateLinesMembers(items, partId, q => Stepped(q, delta));
  }

  lemma QuantityUpdatedKeepsUnique(items: seq<ProjectItem>, partId: string, delta: real)
    requires UniqueLines(items)
    ensures UniqueLines(QuantityUpdated(items, partId, delta))
  {
    var f := q => Stepped(q, delta);
    UpdateLinesKeepsUnique(items, partId, f);
    FilterKeepsDistinct(UpdateLines(items, partId, f), (x: ProjectItem) => x.quantity > 0.0, (x: ProjectItem) => x.partId);
  }

  /** The blur handler on a line below 0.1 asks updateQuantity for the
      difference to 0.1, which leaves that part's line at exactly 0.1. */
  lemma BlurRestoresFloor(items: seq<ProjectItem>, k: nat)
    requires k < |items| && items[k].quantity < 0.1
    ensures ProjectItem(items[k].partId, 0.1) in QuantityUpdated(items, items[k].partId, 0.1 - items[k].quantity)
  {
    var x := items[k];
    QuantityUpdatedLines(items, x.partId, 0.1 - x.quantity);
    assert x in items;
    assert (0.1 * 100.0 + 0.5).Floor == 10;
    assert Stepped(x.quantity, 0.1 - x.quantity) == 0.1;
  }

  // ---------------------------------------------------------------------------
  // removeItem

  /** On a list without repeated parts, removeItem takes out exactly the one
      line for the part and keeps the others in order. */
  lemma {:induction false} RemoveItemTakesOutItsLine(items: seq<ProjectItem>, k: nat)
    requires UniqueLines(items) && k < |items|
    ensures LinesWithout(items, items[k].partId) == items[..k] + items[k + 1..]
  {
    var id := items[k].partId;
    OnlyLineOf(items, k);
    assert items == items[..k] + [items[k]] + items[k + 1..];
    FilterDropsOne(items[..k], items[k], items[k + 1..], (x: ProjectItem) => x.partId != id);
  }

  /** ... so it lowers each total by exactly that line's amount. */
  lemma RemoveItemSubtractsItsLine(catalog: seq<Part>, items: seq<ProjectItem>, k: nat, side: Side)
    requires UniqueLines(items) && k < |items|
    ensures Total(catalog, LinesWithout(items, items[k].partId), side)
         == Total(catalog, items, side) - LineAmount(catalog, items[k], side)
  {
    RemoveItemTakesOutItsLine(items, k);
    TotalRemoveAt(catalog, items, k, side);
  }

  /** ... and keeps the relative order of the rest: it acts on a list piece by
      piece, each piece keeping its order. */
  lemma RemoveItemKeepsOrder(a: seq<ProjectItem>, b: seq<ProjectItem>, partId: string)
    ensures LinesWithout(a + b, partId) == LinesWithout(a, partId) + LinesWithout(b, partId)
  {
    FilterConcat(a, b, (x: ProjectItem) => x.partId != partId);
  }

  // ---------------------------------------------------------------------------
  // setQuantity

  /** setQuantity: the line(s) for `partId` take the typed value as it is (0
      when it does not parse; no floor, no sign check); nothing else changes
      and no line is added or dropped. */
  function QuantitySet(items: seq<ProjectItem>, partId: string, parsed: Option<real>): (r: seq<ProjectItem>)
    ensures |r| == |items|
    ensures forall i :: 0 <= i < |r| ==> r[i].partId == items[i].partId
    ensures forall i :: 0 <= i < |r| && items[i].partId != partId ==> r[i] == items[i]
    ensures forall i :: 0 <= i < |r| && items[i].partId == partId ==>
      r[i].quantity == (if parsed.Some? then parsed.value else 0.0)
  {
    UpdateLines(items, partId, _ => NumberOrZero(parsed))
  }

  // ---------------------------------------------------------------------------
  // handleSave

  /** The clean-up before saving: `Math.max(0.1, q || 0.1)` on every line. */
  function Cleaned(items: seq<ProjectItem>): (r: seq<ProjectItem>)
    ensures |r| == |items|
    ensures forall i :: 0 <= i < |r| ==> r[i].partId == items[i].partId && r[i].quantity >= 0.1
    ensures forall i :: 0 <= i < |r| && items[i].quantity >= 0.1 ==> r[i] == items[i]
    ensures forall i :: 0 <= i < |r| && items[i].quantity < 0.1 ==> r[i].quantity == 0.1
  {
    seq(|items|, i requires 0 <= i < |items| =>
      items[i].(quantity := Max(0.1, if items[i].quantity == 0.0 then 0.1 else items[i].quantity)))
  }

  /** A list whose quantities are all at least 0.1 is saved as it stands, so
      the saved project has the budget the editor showed. */
  lemma CleanedKeepsNormalisedList(catalog: seq<Part>, items: seq<ProjectItem>)
    requires forall i :: 0 <= i < |items| ==> items[i].quantity >= 0.1
    ensures Cleaned(items) == items
    ensures ComputeBudget(catalog, Cleaned(items)) == ComputeBudget(catalog, items)
  {
    assert forall i :: 0 <= i < |items| ==> Cleaned(items)[i] == items[i];
  }

  // ---------------------------------------------------------------------------
  // finance

  /** What a category already holds, 0 for a category not yet seen (the
      `if (!acc.byCategory[cat]) acc.byCategory[cat] = 0` step). */
  function CategoryAmount(m: map<string, real>, category: string): real {
    if category in m then m[category] else 0.0
  }

  /** The per-category sale totals, grown line by line as the reduce grows them. */
  function CategorySales(catalog: seq<Part>, items: seq<ProjectItem>): map<string, real>
    decreases |items|
  {
    if items == [] then map[]
    else AddLineSale(catalog, CategorySales(catalog, items[..|items| - 1]), items[|items| - 1])
  }

  /** One line's share of the breakdown: its sale goes to its part's category;
      a line whose part is unknown adds nothing. */
  function AddLineSale(catalog: seq<Part>, m: map<string, real>, x: ProjectItem): map<string, real> {
    match FindPart(catalog, x.partId)
    case None => m
    case Some(p) => m[p.category := CategoryAmount(m, p.category) + p.price * x.quantity]
  }

  lemma AddLineSaleFound(catalog: seq<Part>, m: map<string, real>, x: ProjectItem, p: Part)
    requires FindPart(catalog, x.partId) == Some(p)
    ensures AddLineSale(catalog, m, x) == m[p.category := CategoryAmount(m, p.category) + p.price * x.quantity]
  {
    var r := AddLineSale(catalog, m, x);
    var e := m[p.category := CategoryAmount(m, p.category) + p.price * x.quantity];
    assert r.Keys == e.Keys;
    assert forall k :: k in r ==> r[k] == e[k];
  }

  /** One more line extends the breakdown by that line alone. */
  lemma CategorySalesSnoc(catalog: seq<Part>, items: seq<ProjectItem>, x: ProjectItem)
    ensures CategorySales(catalog, items + [x]) == AddLineSale(catalog, CategorySales(catalog, items), x)
  {
    assert (items + [x])[..|items|] == items;
  }

  lemma CategorySalesStep(catalog: seq<Part>, items: seq<ProjectItem>, i: nat)
    requires i < |items|
    ensures CategorySales(catalog, items[..i + 1]) == AddLineSale(catalog, CategorySales(catalog, items[..i]), items[i])
  {
    assert items[..i + 1][..i] == items[..i];
  }

  /** The sum of all values of a map, in no particular order. */
  ghost function MapSum(m: map<string, real>): real
    decreases m.Keys
  {
    if m.Keys == {} then 0.0
    else
      var k :| k in m.Keys;
      m[k] + MapSum(m - {k})
  }

  /** The sum does not depend on which key is taken out first. */
  lemma {:induction false} MapSumRemove(m: map<string, real>, k: string)
    requires k in m
    ensures MapSum(m) == m[k] + MapSum(m - {k})
    decreases m.Keys
  {
    var j :| j in m.Keys && MapSum(m) == m[j] + MapSum(m - {j});
    if j != k {
      assert (m - {j}).Keys < m.Keys && (m - {k}).Keys < m.Keys;
      MapSumRemove(m - {j}, k);
      MapSumRemove(m - {k}, j);
      assert m - {j} - {k} == m - {k} - {j};
    }
  }

  /** Setting one key changes the sum by the difference. */
  lemma MapSumUpdate(m: map<string, real>, k: string, v: real)
    ensures MapSum(m[k := v]) == MapSum(m) - CategoryAmount(m, k) + v
  {
    MapSumRemove(m[k := v], k);
    if k in m {
      MapSumRemove(m, k);
      assert m[k := v] - {k} == m - {k};
    } else {
      assert m[k := v] - {k} == m;
    }
  }

  /** A line adds its sale amount to the sum of the breakdown. */
  lemma MapSumAddLine(catalog: seq<Part>, m: map<string, real>, x: ProjectItem)
    ensures MapSum(AddLineSale(catalog, m, x)) == MapSum(m) + LineAmount(catalog, x, Sale)
  {
    match FindPart(catalog, x.partId)
    case None =>
    case Some(p) =>
      AddLineSaleFound(catalog, m, x, p);
      MapSumUpdate(m, p.category, CategoryAmount(m, p.category) + p.price * x.quantity);
  }

  /** The per-category breakdown accounts for the whole sale total. */
  lemma {:induction false} CategorySalesSum(catalog: seq<Part>, items: seq<ProjectItem>)
    ensures MapSum(CategorySales(catalog, items)) == Total(catalog, items, Sale)
    decreases |items|
  {
    if items == [] {
      assert CategorySales(catalog, items).Keys == {};
    } else {
      var prefix, x := items[..|items| - 1], items[|items| - 1];
      CategorySalesSum(catalog, prefix);
      assert items == prefix + [x];
      TotalSnoc(catalog, prefix, x, Sale);
      CategorySalesSnoc(catalog, prefix, x);
      MapSumAddLine(catalog, CategorySales(catalog, prefix), x);
    }
  }

  /** A category appears in the breakdown exactly when some line resolves to a
      part of that category. */
  lemma {:induction false} CategorySalesKeys(catalog: seq<Part>, items: seq<ProjectItem>, category: string)
    ensures category in CategorySales(catalog, items) <==>
      exists i :: 0 <= i < |items| && FindPart(catalog, items[i].partId).Some?
        && FindPart(catalog, items[i].partId).value.category == category
    decreases |items|
  {
    if items != [] {
      var prefix := items[..|items| - 1];
      CategorySalesKeys(catalog, prefix, category);
      assert forall i :: 0 <= i < |prefix| ==> prefix[i] == items[i];
    }
  }

  /** The reduce callback of finance: a line whose part is unknown leaves the
      accumulator as it is; otherwise its cost and sale (a falsy quantity
      counting as 0) are added to the running totals, and its sale to its
      part's category, which starts at 0 when absent or 0. */
  method AccumulateLine(catalog: seq<Part>, item: ProjectItem, cost: real, sale: real, byCategory: map<string, real>)
    returns (cost': real, sale': real, byCategory': map<string, real>)
    ensures cost' == cost + LineAmount(catalog, item, Cost)
    ensures sale' == sale + LineAmount(catalog, item, Sale)
    ensures byCategory' == AddLineSale(catalog, byCategory, item)
  {
    cost', sale', byCategory' := cost, sale, byCategory;
    var part := FindPart(catalog, item.partId);
    if part.None? {
      return;
    }
    var p := part.value;
    var qty := if item.quantity == 0.0 then 0.0 else item.quantity;
    var costTotal := p.purchasePrice * qty;
    var saleTotal := p.price * qty;
    cost' := cost' + costTotal;
    sale' := sale' + saleTotal;
    if p.category !in byCategory' || byCategory'[p.category] == 0.0 {
      byCategory' := byCategory'[p.category := 0.0];
    }
    byCategory' := byCategory'[p.category := byCategory'[p.category] + saleTotal];
    assert qty == item.quantity;
    assert byCategory' == byCategory[p.category := CategoryAmount(byCategory, p.category) + saleTotal];
    AddLineSaleFound(catalog, byCategory, item, p);
  }

  /** finance, profit and margin: a reduce over the lines with AccumulateLine,
      then the guarded margin; the totals are the shared engine's budget and
      the breakdown is CategorySales. */
  method Finance(catalog: seq<Part>, items: seq<ProjectItem>) returns (b: Budget, byCategory: map<string, real>)
    ensures b == ComputeBudget(catalog, items)
    ensures byCategory == CategorySales(catalog, items)
  {
    var totalCost := 0.0;
    var totalSale := 0.0;
    byCategory := map[];
    var i := 0;
    while i < |items|
      invariant 0 <= i <= |items|
      invariant totalCost == Total(catalog, items[..i], Cost)
      invariant totalSale == Total(catalog, items[..i], Sale)
      invariant byCategory == CategorySales(catalog, items[..i])
    {
      TotalStep(catalog, items, i, Cost);
      TotalStep(catalog, items, i, Sale);
      CategorySalesStep(catalog, items, i);
      totalCost, totalSale, byCategory := AccumulateLine(catalog, items[i], totalCost, totalSale, byCategory);
      i := i + 1;
    }
    assert items[..i] == items;
    var totalProfit := totalSale - totalCost;
    var profitMargin := if totalSale > 0.0 then (totalProfit / totalSale) * 100.0 else 0.0;
    b := Budget(totalCost, totalSale, totalProfit, profitMargin);
    BudgetFromTotals(catalog, items, totalCost, totalSale);
  }

  // ---------------------------------------------------------------------------
  // The editor

  class Builder {
    var projectName: string
    var selectedItems: seq<ProjectItem>
    var searchTerm: string

    ghost predicate Valid()
      reads this
    {
      UniqueLines(selectedItems)
    }

    constructor ()
      ensures Valid()
      ensures projectName == "" && selectedItems == [] && searchTerm == ""
    {
      projectName := "";
      selectedItems := [];
      searchTerm := "";
    }

    /** The part picker: the catalogue narrowed by the editor's search term. */
    function FilteredCatalog(catalog: seq<Part>): (r: seq<Part>)
      reads this
      ensures forall p :: p in r <==> p in catalog && MatchesSearch(p, searchTerm)
    {
      SearchFilter(catalog, searchTerm)
    }

    method SetProjectName(name: string)
      modifies this
      ensures projectName == name
      ensures selectedItems == old(selectedItems) && searchTerm == old(searchTerm)
    {
      projectName := name;
    }

    method SetSearchTerm(term: string)
      modifies this
      ensures searchTerm == term
      ensures selectedItems == old(selectedItems) && projectName == old(projectName)
    {
      searchTerm := term;
    }

    method AddItem(part: Part)
      requires Valid()
      modifies this
      ensures Valid()
      ensures selectedItems == WithItemAdded(old(selectedItems), part.id)
      ensures projectName == old(projectName) && searchTerm == old(searchTerm)
    {
      AddItemKeepsUnique(selectedItems, part.id);
      selectedItems := WithItemAdded(selectedItems, part.id);
    }

    method UpdateQuantity(partId: string, delta: real)
      requires Valid()
      modifies this
      ensures Valid()
      ensures selectedItems == QuantityUpdated(old(selectedItems), partId, delta)
      ensures projectName == old(projectName) && searchTerm == old(searchTerm)
    {
      QuantityUpdatedKeepsUnique(selectedItems, partId, delta);
      selectedItems := QuantityUpdated(selectedItems, partId, delta);
    }

    method RemoveItem(partId: string)
      requires Valid()
      modifies this
      ensures Valid()
      ensures selectedItems == LinesWithout(old(selectedItems), partId)
      ensures projectName == old(projectName) && searchTerm == old(searchTerm)
    {
      FilterKeepsDistinct(selectedItems, (x: ProjectItem) => x.partId != partId, (x: ProjectItem) => x.partId);
      selectedItems := LinesWithout(selectedItems, partId);
    }

    method SetQuantity(partId: string, parsed: Option<real>)
      requires Valid()
      modifies this
      ensures Valid()
      ensures selectedItems == QuantitySet(old(selectedItems), partId, parsed)
      ensures projectName == old(projectName) && searchTerm == old(searchTerm)
    {
      UpdateLinesKeepsUnique(selectedItems, partId, _ => NumberOrZero(parsed));
      selectedItems := QuantitySet(selectedItems, partId, parsed);
    }

    /** The quantity field of line `k` loses focus: a quantity below 0.1 (0
        included) is brought back to 0.1 through updateQuantity (the line then
        reads 0.1: BlurRestoresFloor). */
    method Blur(k: nat)
      requires Valid() && k < |selectedItems|
      modifies this
      ensures Valid()
      ensures old(selectedItems[k].quantity) >= 0.1 ==> selectedItems == old(selectedItems)
      ensures old(selectedItems[k].quantity) < 0.1 ==>
        selectedItems == QuantityUpdated(old(selectedItems), old(selectedItems[k].partId), 0.1 - old(selectedItems[k].quantity))
      ensures projectName == old(projectName) && searchTerm == old(searchTerm)
    {
      var item := selectedItems[k];
      if item.quantity == 0.0 || item.quantity < 0.1 {
        var q := if item.quantity == 0.0 then 0.0 else item.quantity;
        assert q == item.quantity;
        ghost var before := selectedItems;
        UpdateQuantity(item.partId, 0.1 - q);
        assert selectedItems == QuantityUpdated(before, item.partId, 0.1 - item.quantity);
      }
    }

    /** handleSave: without a name or without lines nothing happens. Otherwise
        the cleaned lines are saved as a new project through the application's
        handler (which also opens the dashboard), and the editor is emptied. */
    method HandleSave(app: AppState, freshId: string, now: int)
      requires Valid()
      modifies this, app
      ensures Valid()
      ensures old(projectName) == "" || old(selectedItems) == [] ==>
        projectName == old(projectName) && selectedItems == old(selectedItems)
        && app.projects == old(app.projects) && app.activeView == old(app.activeView)
      ensures old(projectName) != "" && old(selectedItems) != [] ==>
        app.projects == old(app.projects) + [Project(freshId, old(projectName), Cleaned(old(selectedItems)), now)]
        && app.activeView == Dashboard
        && projectName == "" && selectedItems == []
      ensures app.parts == old(app.parts) && searchTerm == old(searchTerm)
    {
      if projectName == "" || |selectedItems| == 0 {
        return;
      }
      var cleanedItems := Cleaned(selectedItems);
      app.HandleSaveProject(Project(freshId, projectName, cleanedItems, now));
      projectName := "";
      selectedItems := [];
    }
  }
}
