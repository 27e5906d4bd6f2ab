// constants.tsx: the starting catalogue and the category list, with the
// facts the rest of the model relies on when it uses them.

module Constants {
  import opened Types
  import opened Budget

  /** The catalogue a first start shows. */
  const InitialParts: seq<Part> := [
    Part("1", "Placa MDF 18mm Branca", 45.00, 85.50, "Madeira", "un", None),
    Part("2", "Dobradiça Caneco 35mm", 1.80, 4.20, "Ferragem", "un", None),
    Part("3", "Puxador Alumínio 128mm", 2.50, 6.50, "Acessório", "un", None),
    Part("4", "Corrediça Telescópica 450mm", 5.50, 12.80, "Ferragem", "par", None),
    Part("5", "Parafuso 4.0x40 (Cento)", 3.20, 8.00, "Consumível", "cento", None),
    Part("6", "Cola de Contato 1L", 12.00, 22.50, "Químico", "un", None),
    Part("7", "Fita de Borda PVC 22mm (Metro)", 0.45, 1.15, "Acabamento", "m", None)
  ]

  /** The categories the catalogue form offers. */
  const Categories: seq<string> := ["Madeira", "Ferragem", "Acessório", "Consumível", "Químico", "Acabamento", "Outros"]

  /** The fixture's ids are pairwise distinct, so first-match lookup on it
      never has to choose. */
  lemma InitialIdsDistinct()
    ensures forall i, j :: 0 <= i < j < |InitialParts| ==> InitialParts[i].id != InitialParts[j].id
  {
  }

  /** Every fixture part is bought for less than it sells for. */
  lemma InitialPricesOrdered()
    ensures forall i :: 0 <= i < |InitialParts| ==> 0.0 <= InitialParts[i].purchasePrice < InitialParts[i].price
  {
  }

  /** Every fixture part belongs to a listed category. */
  lemma InitialCategoriesListed()
    ensures forall i :: 0 <= i < |InitialParts| ==> InitialParts[i].category in Categories
  {
  }

  /** Seven distinct categories. */
  lemma CategoriesDistinct()
    ensures |Categories| == 7
    ensures forall i, j :: 0 <= i < j < |Categories| ==> Categories[i] != Categories[j]
  {
  }

  /** Two sheets of MDF and ten hinges. */
  lemma WorkedExampleTwoLines()
    ensures ComputeBudget(InitialParts, [ProjectItem("1", 2.0), ProjectItem("2", 10.0)])
         == Budget(108.0, 213.0, 105.0, 10500.0 / 213.0)
  {
    var items := [ProjectItem("1", 2.0), ProjectItem("2", 10.0)];
    assert FindPart(InitialParts, "1") == Some(InitialParts[0]);
    assert FindPart(InitialParts, "2") == Some(InitialParts[1]);
    TotalSnoc(InitialParts, [], items[0], Cost);
    TotalSnoc(InitialParts, [], items[0], Sale);
    assert items == [items[0]] + [items[1]];
    TotalSnoc(InitialParts, [items[0]], items[1], Cost);
    TotalSnoc(InitialParts, [items[0]], items[1], Sale);
  }

  /** One sheet of MDF next to a line whose part does not exist: the dangling
      line changes nothing. */
  lemma WorkedExampleDanglingLine()
    ensures ComputeBudget(InitialParts, [ProjectItem("1", 1.0), ProjectItem("999", 5.0)])
         == Budget(45.0, 85.5, 40.5, 4050.0 / 85.5)
  {
    var items := [ProjectItem("1", 1.0), ProjectItem("999", 5.0)];
    assert FindPart(InitialParts, "1") == Some(InitialParts[0]);
    assert FindPart(InitialParts, "999") == None;
    DanglingLineIgnored(InitialParts, [items[0]], items[1], []);
    assert [items[0]] + [items[1]] + [] == items;
    assert [items[0]] + [] == [items[0]];
    SingleLineBudget(InitialParts, items[0], InitialParts[0]);
  }
}
