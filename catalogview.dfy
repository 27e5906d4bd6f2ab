// CatalogView.tsx: the per-part margin column, the search filter (shared with
// the builder's part picker) and the new-part form.

module CatalogView {
  import opened Types
  import opened Collections
  import opened Budget
  import opened Constants
  import opened App

  // ---------------------------------------------------------------------------
  // Per-part margin

  /** The margin column: profit per unit as a percentage of the sale price,
      0 for a part that sells for nothing. It is the project margin of a single
      line of quantity 1 for that part, and it is negative exactly when the part
      sells, below its cost (nothing clamps it). */
  function PartMargin(p: Part): (m: real)
    ensures m == ComputeBudget([p], [ProjectItem(p.id, 1.0)]).margin
    ensures m < 0.0 <==> p.price > 0.0 && p.purchasePrice > p.price
  {
    SingleLineBudget([p], ProjectItem(p.id, 1.0), p);
    var profit := p.price - p.purchasePrice;
    if p.price > 0.0 then (profit / p.price) * 100.0 else 0.0
  }

  /** The same holds against any catalogue in which the part's id resolves to
      that part. */
  lemma PartMarginIsUnitLineMargin(catalog: seq<Part>, p: Part)
    requires FindPart(catalog, p.id) == Some(p)
    ensures PartMargin(p) == ComputeBudget(catalog, [ProjectItem(p.id, 1.0)]).margin
  {
    SingleLineBudget(catalog, ProjectItem(p.id, 1.0), p);
    SingleLineBudget([p], ProjectItem(p.id, 1.0), p);
  }

  /** Negative margins are representable: a part bought for 10 and sold for 8
      shows -25%. */
  lemma NegativeMarginExample()
    ensures PartMargin(Part("x", "Sobra", 10.0, 8.0, "Outros", "un", None)) == -25.0
  {
  }

  /** Every part of the starting catalogue shows a positive margin. */
  lemma InitialMarginsPositive()
    ensures forall i :: 0 <= i < |InitialParts| ==> PartMargin(InitialParts[i]) > 0.0
  {
    InitialPricesOrdered();
    forall i | 0 <= i < |InitialParts|
      ensures PartMargin(InitialParts[i]) > 0.0
    {
      var p := InitialParts[i];
      SingleLineBudget([p], ProjectItem(p.id, 1.0), p);
    }
  }

  // ---------------------------------------------------------------------------
  // Search

  /** `toLowerCase`, on the ASCII letters. */
  function LowerChar(c: char): char {
    if 'A' <= c <= 'Z' then (c as int + 32) as char else c
  }

  /** toLowerCase on ASCII: no capital is left, each capital becomes its small
      letter, and every other character stays where it was. */
  function Lower(s: string): (r: string)
    ensures |r| == |s|
    ensures forall i :: 0 <= i < |r| ==> !('A' <= r[i] <= 'Z')
    ensures forall i :: 0 <= i < |s| ==>
      if 'A' <= s[i] <= 'Z' then r[i] as int == s[i] as int + 32 else r[i] == s[i]
  {
    seq(|s|, i requires 0 <= i < |s| => LowerChar(s[i]))
  }

  /** Lowercasing twice is lowercasing once. */
  lemma LowerIdempotent(s: string)
    ensures Lower(Lower(s)) == Lower(s)
  {
    var t := Lower(s);
    assert forall i :: 0 <= i < |t| ==> Lower(t)[i] == t[i];
  }

  /** The search ignores the case of the term: a term matches exactly when its
      lowercase form does. */
  lemma SearchIgnoresTermCase(p: Part, term: string)
    ensures MatchesSearch(p, Lower(term)) <==> MatchesSearch(p, term)
  {
    LowerIdempotent(term);
  }

  /** `needle` occurs in `hay` starting at position `i`. */
  predicate OccursAt(hay: string, needle: string, i: nat) {
    i + |needle| <= |hay| && hay[i..i + |needle|] == needle
  }

  /** `String.prototype.includes`: `needle` occurs somewhere in `hay`. */
  predicate Includes(hay: string, needle: string) {
    exists i: nat :: i <= |hay| && OccursAt(hay, needle, i)
  }

  /** The search test: the term, lowercased, occurs in the part's lowercased
      name or category. */
  predicate MatchesSearch(p: Part, term: string) {
    Includes(Lower(p.name), Lower(term)) || Includes(Lower(p.category), Lower(term))
  }

  /** filteredParts (and the builder's filteredCatalog): the matching parts, in
      catalogue order. */
  function SearchFilter(parts: seq<Part>, term: string): (r: seq<Part>)
    ensures forall p :: p in r <==> p in parts && MatchesSearch(p, term)
  {
    Filter(parts, (p: Part) => MatchesSearch(p, term))
  }

  /** An empty search term shows the whole catalogue, in order. */
  lemma EmptySearchShowsAll(parts: seq<Part>)
    ensures SearchFilter(parts, "") == parts
  {
    forall i | 0 <= i < |parts|
      ensures MatchesSearch(parts[i], "")
    {
      assert OccursAt(Lower(parts[i].name), Lower(""), 0);
    }
    FilterKeepsAll(parts, (p: Part) => MatchesSearch(p, ""));
  }

  /** A search narrows a catalogue piecewise: searching a catalogue built of two
      halves gives the two halves' results, in order. */
  lemma SearchFilterConcat(a: seq<Part>, b: seq<Part>, term: string)
    ensures SearchFilter(a + b, term) == SearchFilter(a, term) + SearchFilter(b, term)
  {
    FilterConcat(a, b, (p: Part) => MatchesSearch(p, term));
  }

  // ---------------------------------------------------------------------------
  // New-part form

  /** The form's fields: a part without an id. */
  datatype PartDraft = PartDraft(
    name: string,
    purchasePrice: real,
    price: real,
    category: string,
    unit: string,
    imageUrl: string)

  /** The form as it opens and as it is reset after a part is added. */
  const EmptyDraft := PartDraft("", 0.0, 0.0, "Madeira", "un", "")

  /** The form's default category is one the category list offers. */
  lemma EmptyDraftCategoryListed()
    ensures EmptyDraft.category in Categories
  {
    assert Categories[0] == EmptyDraft.category;
  }

  /** A typed number, or 0 when the text does not parse (here `None`). The
      price fields store `parseFloat(text) || 0`, where a parsed zero also
      gives 0; the builder's quantity field stores
      `isNaN(parseFloat(text)) ? 0 : parseFloat(text)`. Both come to this. */
  function NumberOrZero(parsed: Option<real>): (r: real)
    ensures r == (if parsed.Some? then parsed.value else 0.0)
  {
    match parsed
    case None => 0.0
    case Some(x) => if x == 0.0 then 0.0 else x
  }

  /** The guard of handleAdd: a name and a positive sale price. */
  predicate Acceptable(d: PartDraft) {
    d.name != "" && d.price > 0.0
  }

  /** The part handleAdd builds: the form's fields and the fresh id. */
  function WithId(d: PartDraft, id: string): (p: Part)
    ensures p.id == id && p.name == d.name && p.category == d.category && p.unit == d.unit
    ensures p.purchasePrice == d.purchasePrice && p.price == d.price && p.imageUrl == Some(d.imageUrl)
  {
    Part(id, d.name, d.purchasePrice, d.price, d.category, d.unit, Some(d.imageUrl))
  }

  /** An accepted part never shows the zero-price margin fallback. */
  lemma AcceptedPartMargin(d: PartDraft, id: string)
    requires Acceptable(d)
    ensures PartMargin(WithId(d, id)) * d.price == (d.price - d.purchasePrice) * 100.0
  {
    var p := WithId(d, id);
    SingleLineBudget([p], ProjectItem(id, 1.0), p);
  }

  class CatalogForm {
    var searchTerm: string
    var isAdding: bool
    var newPart: PartDraft

    constructor ()
      ensures searchTerm == "" && !isAdding && newPart == EmptyDraft
    {
      searchTerm := "";
      isAdding := false;
      newPart := EmptyDraft;
    }

    method SetPurchasePrice(parsed: Option<real>)
      modifies this
      ensures newPart == old(newPart).(purchasePrice := NumberOrZero(parsed))
      ensures searchTerm == old(searchTerm) && isAdding == old(isAdding)
    {
      newPart := newPart.(purchasePrice := NumberOrZero(parsed));
    }

    method SetPrice(parsed: Option<real>)
      modifies this
      ensures newPart == old(newPart).(price := NumberOrZero(parsed))
      ensures searchTerm == old(searchTerm) && isAdding == old(isAdding)
    {
      newPart := newPart.(price := NumberOrZero(parsed));
    }

    /** handleAdd: an unnamed or non-positively priced draft is refused and
        nothing changes; otherwise the part, with `freshId`, is appended to the
        catalogue and the form is reset and closed. */
    method HandleAdd(app: AppState, freshId: string)
      modifies this, app
      ensures !Acceptable(old(newPart)) ==>
        newPart == old(newPart) && isAdding == old(isAdding) && app.parts == old(app.parts)
      ensures Acceptable(old(newPart)) ==>
        app.parts == old(app.parts) + [WithId(old(newPart), freshId)]
        && newPart == EmptyDraft && !isAdding
      ensures searchTerm == old(searchTerm)
      ensures app.projects == old(app.projects) && app.activeView == old(app.activeView)
    {
      if newPart.name == "" || newPart.price <= 0.0 {
        return;
      }
      app.HandleAddPart(WithId(newPart, freshId));
      newPart := EmptyDraft;
      isAdding := false;
    }
  }
}
