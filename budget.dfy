// The budget engine: the rule that AIView.tsx, BuilderView.tsx, Dashboard.tsx
// and CatalogView.tsx each write out separately, defined here once. Every
// call site is proved to agree with it in its own module.

module Budget {
  import opened Types
  import opened Collections

  // ---------------------------------------------------------------------------
  // Catalogue lookup (`parts.find(p => p.id === item.partId)`)

  /** Position of the first part carrying `id`, the one Array.prototype.find returns. */
  function FirstIndexOf(catalog: seq<Part>, id: string): (r: Option<nat>)
    ensures r.Some? ==> r.value < |catalog| && catalog[r.value].id == id
    ensures r.Some? ==> forall j :: 0 <= j < r.value ==> catalog[j].id != id
    ensures r.None? <==> forall j :: 0 <= j < |catalog| ==> catalog[j].id != id
  {
    if catalog == [] then None
    else if catalog[0].id == id then Some(0)
    else match FirstIndexOf(catalog[1..], id)
      case None => None
      case Some(k) => Some(k + 1)
  }

  /** The first part of the catalogue whose id is `id`, if any. */
  function FindPart(catalog: seq<Part>, id: string): (r: Option<Part>)
    ensures r.Some? ==> r.value in catalog && r.value.id == id
  {
    match FirstIndexOf(catalog, id)
    case None => None
    case Some(k) => Some(catalog[k])
  }

  /** Looking up in a catalogue that starts with `p`. */
  lemma FindPartCons(p: Part, rest: seq<Part>, id: string)
    ensures FindPart([p] + rest, id) == if p.id == id then Some(p) else FindPart(rest, id)
  {
    assert ([p] + rest)[1..] == rest;
  }

  /** The catalogue without any part carrying `id` (App.tsx handleDeletePart,
      and the "deselect" half of AIView.tsx togglePart). */
  function PartsWithout(parts: seq<Part>, id: string): (r: seq<Part>)
    ensures forall p :: p in r <==> p in parts && p.id != id
  {
    Filter(parts, (p: Part) => p.id != id)
  }

  /** The item list without any line for `partId` (BuilderView.tsx removeItem). */
  function LinesWithout(items: seq<ProjectItem>, partId: string): (r: seq<ProjectItem>)
    ensures forall x :: x in r <==> x in items && x.partId != partId
  {
    Filter(items, (x: ProjectItem) => x.partId != partId)
  }

  /** Removing every part with id `id` makes `id` unresolvable and leaves the
      lookup of every other id as it was. */
  lemma {:induction false} FindPartWithout(parts: seq<Part>, id: string, other: string)
    ensures FindPart(PartsWithout(parts, id), other) == if other == id then None else FindPart(parts, other)
  {
    if parts != [] {
      var p := parts[0];
      FindPartWithout(parts[1..], id, other);
      assert parts == [p] + parts[1..];
      FindPartCons(p, parts[1..], other);
      if p.id != id {
        assert PartsWithout(parts, id) == [p] + PartsWithout(parts[1..], id);
        FindPartCons(p, PartsWithout(parts[1..], id), other);
      } else {
        assert PartsWithout(parts, id) == PartsWithout(parts[1..], id);
      }
    }
  }

  // ---------------------------------------------------------------------------
  // Totals

  /** Which of the two per-unit prices a total sums. */
  datatype Side = Cost | Sale

  function UnitPrice(p: Part, side: Side): real {
    match side
    case Cost => p.purchasePrice
    case Sale => p.price
  }

  /** What one line adds to a total: the unit price times the quantity, or
      nothing at all when no part carries the line's id. */
  function LineAmount(catalog: seq<Part>, item: ProjectItem, side: Side): real {
    match FindPart(catalog, item.partId)
    case None => 0.0
    case Some(p) => UnitPrice(p, side) * item.quantity
  }

  /** The running sum the source accumulates from left to right. */
  function Total(catalog: seq<Part>, items: seq<ProjectItem>, side: Side): real
    decreases |items|
  {
    if items == [] then 0.0
    else Total(catalog, items[..|items| - 1], side) + LineAmount(catalog, items[|items| - 1], side)
  }

  /** Appending one line adds exactly that line's amount. */
  lemma TotalSnoc(catalog: seq<Part>, items: seq<ProjectItem>, x: ProjectItem, side: Side)
    ensures Total(catalog, items + [x], side) == Total(catalog, items, side) + LineAmount(catalog, x, side)
  {
    assert (items + [x])[..|items|] == items;
  }

  /** The loop step of every call site: the prefix one line longer adds that
      line's amount. */
  lemma TotalStep(catalog: seq<Part>, items: seq<ProjectItem>, i: nat, side: Side)
    requires i < |items|
    ensures Total(catalog, items[..i + 1], side) == Total(catalog, items[..i], side) + LineAmount(catalog, items[i], side)
  {
    assert items[..i + 1][..i] == items[..i];
  }

  /** The per-line body shared by calculateIdeaBudget's loop and
      getProjectTotals' reduce callback: look the part up and, if it is
      there, add the line's cost and sale to the running totals. */
  method AddLineTotals(catalog: seq<Part>, item: ProjectItem, cost: real, sale: real)
    returns (cost': real, sale': real)
    ensures cost' == cost + LineAmount(catalog, item, Cost)
    ensures sale' == sale + LineAmount(catalog, item, Sale)
  {
    cost', sale' := cost, sale;
    var part := FindPart(catalog, item.partId);
    if part.Some? {
      cost' := cost' + part.value.purchasePrice * item.quantity;
      sale' := sale' + part.value.price * item.quantity;
    }
  }

  /** Totals are additive over concatenation of item lists. */
  lemma {:induction false} TotalConcat(catalog: seq<Part>, a: seq<ProjectItem>, b: seq<ProjectItem>, side: Side)
    ensures Total(catalog, a + b, side) == Total(catalog, a, side) + Total(catalog, b, side)
    decreases |b|
  {
    if b == [] {
      assert a + b == a;
    } else {
      var b' := b[..|b| - 1];
      var x := b[|b| - 1];
      assert a + b == (a + b') + [x];
      assert b == b' + [x];
      TotalSnoc(catalog, a + b', x, side);
      TotalSnoc(catalog, b', x, side);
      TotalConcat(catalog, a, b', side);
    }
  }

  /** Taking the line at position `j` out of a list subtracts exactly its amount. */
  lemma TotalRemoveAt(catalog: seq<Part>, b: seq<ProjectItem>, j: nat, side: Side)
    requires j < |b|
    ensures Total(catalog, b, side) == Total(catalog, b[..j] + b[j + 1..], side) + LineAmount(catalog, b[j], side)
  {
    var left, right := b[..j], b[j + 1..];
    assert b == (left + [b[j]]) + right;
    TotalConcat(catalog, left + [b[j]], right, side);
    TotalSnoc(catalog, left, b[j], side);
    TotalConcat(catalog, left, right, side);
  }

  /** Totals do not depend on the order of the lines. */
  lemma {:induction false} TotalPermutation(catalog: seq<Part>, a: seq<ProjectItem>, b: seq<ProjectItem>, side: Side)
    requires multiset(a) == multiset(b)
    ensures Total(catalog, a, side) == Total(catalog, b, side)
    decreases |a|
  {
    if a == [] {
      assert |multiset(b)| == 0;
    } else {
      var last := |a| - 1;
      var x := a[last];
      assert x in multiset(b);
      var j :| 0 <= j < |b| && b[j] == x;
      MultisetRemoveAt(a, last);
      MultisetRemoveAt(b, j);
      assert a[..last] + a[last + 1..] == a[..last];
      TotalPermutation(catalog, a[..last], b[..j] + b[j + 1..], side);
      TotalRemoveAt(catalog, b, j, side);
      TotalRemoveAt(catalog, a, last, side);
    }
  }

  /** A line whose part is missing contributes nothing: dropping it leaves
      every total as it was. */
  lemma DanglingLineTotal(catalog: seq<Part>, a: seq<ProjectItem>, x: ProjectItem, b: seq<ProjectItem>, side: Side)
    requires FindPart(catalog, x.partId).None?
    ensures Total(catalog, a + [x] + b, side) == Total(catalog, a + b, side)
  {
    TotalConcat(catalog, a + [x], b, side);
    TotalSnoc(catalog, a, x, side);
    TotalConcat(catalog, a, b, side);
  }

  /** A line is worth the same in two catalogues that resolve its part alike. */
  lemma SameLookupSameAmount(c1: seq<Part>, c2: seq<Part>, x: ProjectItem, side: Side)
    requires FindPart(c1, x.partId) == FindPart(c2, x.partId)
    ensures LineAmount(c1, x, side) == LineAmount(c2, x, side)
  {
  }

  /** After deleting part `id`, a line for `id` is worth nothing and any other
      line is worth what it was. */
  lemma {:induction false} LineAmountWithout(parts: seq<Part>, id: string, x: ProjectItem, side: Side)
    ensures LineAmount(PartsWithout(parts, id), x, side) == if x.partId == id then 0.0 else LineAmount(parts, x, side)
  {
    var kept := PartsWithout(parts, id);
    FindPartWithout(parts, id, x.partId);
    if x.partId != id {
      SameLookupSameAmount(kept, parts, x, side);
    }
  }

  /** Deleting a part from the catalogue changes every total exactly as if the
      lines for that part were removed from the item list: the lines are left
      dangling and count for nothing. */
  lemma {:induction false} DeletedPartDropsItsLines(parts: seq<Part>, id: string, items: seq<ProjectItem>, side: Side)
    ensures Total(PartsWithout(parts, id), items, side) == Total(parts, LinesWithout(items, id), side)
    decreases |items|
  {
    if items != [] {
      var items' := items[..|items| - 1];
      var x := items[|items| - 1];
      assert items == items' + [x];
      var kept := LinesWithout([x], id);
      assert kept == if x.partId == id then [] else [x];
      TotalSnoc(catalog := parts, items := [], x := x, side := side);
      assert Total(parts, kept, side) == if x.partId == id then 0.0 else LineAmount(parts, x, side);
      calc {
        Total(PartsWithout(parts, id), items, side);
        { TotalSnoc(PartsWithout(parts, id), items', x, side); }
        Total(PartsWithout(parts, id), items', side) + LineAmount(PartsWithout(parts, id), x, side);
        { DeletedPartDropsItsLines(parts, id, items', side);
          LineAmountWithout(parts, id, x, side); }
        Total(parts, LinesWithout(items', id), side) + Total(parts, kept, side);
        { TotalConcat(parts, LinesWithout(items', id), kept, side); }
        Total(parts, LinesWithout(items', id) + kept, side);
        { FilterConcat(items', [x], (y: ProjectItem) => y.partId != id); }
        Total(parts, LinesWithout(items, id), side);
      }
    }
  }

  /** When every resolvable line's part sells for 0, the sale total is 0. */
  lemma {:induction false} FreePartsSellForNothing(catalog: seq<Part>, items: seq<ProjectItem>)
    requires forall i :: 0 <= i < |items| && FindPart(catalog, items[i].partId).Some? ==>
               FindPart(catalog, items[i].partId).value.price == 0.0
    ensures Total(catalog, items, Sale) == 0.0
    decreases |items|
  {
    if items != [] {
      FreePartsSellForNothing(catalog, items[..|items| - 1]);
    }
  }

  // ---------------------------------------------------------------------------
  // Profit and margin

  /** The margin rule: profit as a percentage of sale, and 0 whenever the sale
      total is not positive (so no division by zero ever happens). */
  function Margin(profit: real, sale: real): (r: real)
    ensures sale <= 0.0 ==> r == 0.0
    ensures sale > 0.0 ==> r * sale == profit * 100.0
  {
    if sale > 0.0 then (profit / sale) * 100.0 else 0.0
  }

  /** What the margin means: 0 without a positive sale; otherwise the number
      that, applied as a percentage to the sale, gives the profit; its sign is
      the profit's when there is a sale. */
  lemma MarginMeaning(profit: real, sale: real)
    ensures sale <= 0.0 ==> Margin(profit, sale) == 0.0
    ensures sale > 0.0 ==> Margin(profit, sale) * sale == profit * 100.0
    ensures Margin(profit, sale) < 0.0 <==> sale > 0.0 && profit < 0.0
    ensures Margin(profit, sale) > 0.0 <==> sale > 0.0 && profit > 0.0
  {
    if sale > 0.0 {
      var m := (profit / sale) * 100.0;
      assert profit / sale * sale == profit;
      assert m * sale == profit * 100.0;
    }
  }

  /** What every call site shows for a list of lines. */
  datatype Budget = Budget(totalCost: real, totalSale: real, profit: real, margin: real)

  /** The shared engine: cost and sale summed over the resolvable lines,
      profit their difference, margin by the margin rule. */
  function ComputeBudget(catalog: seq<Part>, items: seq<ProjectItem>): (b: Budget)
    ensures b.profit == b.totalSale - b.totalCost
    ensures b.totalSale <= 0.0 ==> b.margin == 0.0
  {
    var cost := Total(catalog, items, Cost);
    var sale := Total(catalog, items, Sale);
    Budget(cost, sale, sale - cost, Margin(sale - cost, sale))
  }

  /** What every call site computes once it holds the two totals: profit as
      their difference and the margin guarded by a positive sale. */
  lemma BudgetFromTotals(catalog: seq<Part>, items: seq<ProjectItem>, cost: real, sale: real)
    requires cost == Total(catalog, items, Cost) && sale == Total(catalog, items, Sale)
    ensures ComputeBudget(catalog, items)
         == Budget(cost, sale, sale - cost, if sale > 0.0 then ((sale - cost) / sale) * 100.0 else 0.0)
  {
  }

  /** An empty list of lines costs, sells and earns nothing, with margin 0. */
  lemma EmptyBudget(catalog: seq<Part>)
    ensures ComputeBudget(catalog, []) == Budget(0.0, 0.0, 0.0, 0.0)
  {
  }

  /** A single resolvable line. */
  lemma SingleLineBudget(catalog: seq<Part>, item: ProjectItem, p: Part)
    requires FindPart(catalog, item.partId) == Some(p)
    ensures ComputeBudget(catalog, [item]).totalCost == p.purchasePrice * item.quantity
    ensures ComputeBudget(catalog, [item]).totalSale == p.price * item.quantity
  {
    TotalSnoc(catalog, [], item, Cost);
    TotalSnoc(catalog, [], item, Sale);
  }

  /** Cost, sale and profit add up over concatenated item lists (the margin
      does not, and is recomputed from the sums). */
  lemma BudgetAdditive(catalog: seq<Part>, a: seq<ProjectItem>, b: seq<ProjectItem>)
    ensures ComputeBudget(catalog, a + b).totalCost == ComputeBudget(catalog, a).totalCost + ComputeBudget(catalog, b).totalCost
    ensures ComputeBudget(catalog, a + b).totalSale == ComputeBudget(catalog, a).totalSale + ComputeBudget(catalog, b).totalSale
    ensures ComputeBudget(catalog, a + b).profit == ComputeBudget(catalog, a).profit + ComputeBudget(catalog, b).profit
  {
    TotalConcat(catalog, a, b, Cost);
    TotalConcat(catalog, a, b, Sale);
  }

  /** Reordering the lines never changes the budget. */
  lemma BudgetOrderIndependent(catalog: seq<Part>, a: seq<ProjectItem>, b: seq<ProjectItem>)
    requires multiset(a) == multiset(b)
    ensures ComputeBudget(catalog, a) == ComputeBudget(catalog, b)
  {
    TotalPermutation(catalog, a, b, Cost);
    TotalPermutation(catalog, a, b, Sale);
  }

  /** A line whose part is missing can be dropped without changing the budget. */
  lemma DanglingLineIgnored(catalog: seq<Part>, a: seq<ProjectItem>, x: ProjectItem, b: seq<ProjectItem>)
    requires FindPart(catalog, x.partId).None?
    ensures ComputeBudget(catalog, a + [x] + b) == ComputeBudget(catalog, a + b)
  {
    DanglingLineTotal(catalog, a, x, b, Cost);
    DanglingLineTotal(catalog, a, x, b, Sale);
  }

  /** With nothing to sell the margin is 0, not a division by zero. */
  lemma ZeroSaleMargin(catalog: seq<Part>, items: seq<ProjectItem>)
    requires forall i :: 0 <= i < |items| && FindPart(catalog, items[i].partId).Some? ==>
               FindPart(catalog, items[i].partId).value.price == 0.0
    ensures ComputeBudget(catalog, items).totalSale == 0.0
    ensures ComputeBudget(catalog, items).margin == 0.0
  {
    FreePartsSellForNothing(catalog, items);
  }
}
