// AIView.tsx: the budget of an AI-suggested idea, the toggle set of parts the
// user offers the assistant, and the guards around the remote calls. The
// remote service itself is outside the model: its answers are parameters.

module AIView {
  import opened Types
  import opened Collections
  import opened Budget

  /** One suggested line: a part, a quantity and free text on where it goes. */
  datatype SuggestionItem = SuggestionItem(partId: string, quantity: real, usage: string)

  /** One idea returned by the assistant. */
  datatype Idea = Idea(title: string, summary: string, description: string, suggestedItems: seq<SuggestionItem>)

  /** The suggested lines as budget lines (the `usage` text plays no part). */
  function AsItems(suggested: seq<SuggestionItem>): (r: seq<ProjectItem>)
    ensures |r| == |suggested|
  {
    seq(|suggested|, i requires 0 <= i < |suggested| => ProjectItem(suggested[i].partId, suggested[i].quantity))
  }

  /** calculateIdeaBudget: two running totals over the suggested lines,
      skipping lines whose part is not in the catalogue; its result is the
      shared engine's budget of the idea. */
  method CalculateIdeaBudget(parts: seq<Part>, idea: Idea) returns (b: Budget)
    ensures b == ComputeBudget(parts, AsItems(idea.suggestedItems))
  {
    var items := AsItems(idea.suggestedItems);
    var totalCost := 0.0;
    var totalSale := 0.0;
    var i := 0;
    while i < |items|
      invariant 0 <= i <= |items|
      invariant totalCost == Total(parts, items[..i], Cost)
      invariant totalSale == Total(parts, items[..i], Sale)
    {
      TotalStep(parts, items, i, Cost);
      TotalStep(parts, items, i, Sale);
      totalCost, totalSale := AddLineTotals(parts, items[i], totalCost, totalSale);
      i := i + 1;
    }
    assert items[..i] == items;
    var profit := totalSale - totalCost;
    var margin := if totalSale > 0.0 then (profit / totalSale) * 100.0 else 0.0;
    b := Budget(totalCost, totalSale, profit, margin);
    BudgetFromTotals(parts, items, totalCost, totalSale);
  }

  /** togglePart: deselect every part with that id if one is selected,
      otherwise select the part by appending it. */
  function Toggled(selected: seq<Part>, part: Part): seq<Part> {
    if FindPart(selected, part.id).Some? then PartsWithout(selected, part.id)
    else selected + [part]
  }

  /** Toggling flips whether the part's id is selected. */
  lemma ToggleFlipsSelection(selected: seq<Part>, part: Part)
    ensures FindPart(Toggled(selected, part), part.id).Some? <==> FindPart(selected, part.id).None?
  {
    if FindPart(selected, part.id).Some? {
      FindPartWithout(selected, part.id, part.id);
    } else {
      assert (selected + [part])[|selected|] == part;
    }
  }

  /** Toggling keeps the selected ids unique in any selection whose ids are. */
  lemma ToggleKeepsIdsDistinct(selected: seq<Part>, part: Part)
    requires Distinct(selected, (p: Part) => p.id)
    ensures Distinct(Toggled(selected, part), (p: Part) => p.id)
  {
    if FindPart(selected, part.id).Some? {
      FilterKeepsDistinct(selected, (p: Part) => p.id != part.id, (p: Part) => p.id);
    } else {
      var r := selected + [part];
      forall i, j | 0 <= i < j < |r|
        ensures r[i].id != r[j].id
      {
        if j == |selected| {
          assert r[i] == selected[i];
        }
      }
    }
  }

  /** Toggling a part that is not selected twice restores the selection. */
  lemma ToggleTwiceRestores(selected: seq<Part>, part: Part)
    requires FindPart(selected, part.id).None?
    ensures Toggled(Toggled(selected, part), part) == selected
  {
    var once := selected + [part];
    assert FindPart(once, part.id).Some? by {
      assert once[|selected|] == part;
    }
    FilterConcat(selected, [part], (p: Part) => p.id != part.id);
    FilterKeepsAll(selected, (p: Part) => p.id != part.id);
    assert PartsWithout([part], part.id) == [];
  }

  /** selectedWeightedBudget: the budget of the chosen idea, or nothing when no
      idea is chosen or the index does not name one. */
  function SelectedWeightedBudget(parts: seq<Part>, ideas: seq<Idea>, index: Option<int>): (r: Option<Budget>)
    ensures r.Some? <==> index.Some? && 0 <= index.value < |ideas|
    ensures r.Some? ==> r.value == ComputeBudget(parts, AsItems(ideas[index.value].suggestedItems))
  {
    if index.None? then None
    else if index.value < 0 || index.value >= |ideas| then None
    else Some(ComputeBudget(parts, AsItems(ideas[index.value].suggestedItems)))
  }

  /** The state of the assistant screen. */
  class AiSession {
    var selectedParts: seq<Part>
    var loading: bool
    var ideas: seq<Idea>
    var selectedIdeaIndex: Option<int>
    var generatedImageUrl: Option<string>

    ghost predicate Valid()
      reads this
    {
      Distinct(selectedParts, (p: Part) => p.id)
    }

    constructor ()
      ensures Valid()
      ensures selectedParts == [] && !loading && ideas == []
      ensures selectedIdeaIndex == None && generatedImageUrl == None
    {
      selectedParts := [];
      loading := false;
      ideas := [];
      selectedIdeaIndex := None;
      generatedImageUrl := None;
    }

    method TogglePart(part: Part)
      requires Valid()
      modifies this
      ensures Valid()
      ensures selectedParts == Toggled(old(selectedParts), part)
      ensures loading == old(loading) && ideas == old(ideas)
      ensures selectedIdeaIndex == old(selectedIdeaIndex) && generatedImageUrl == old(generatedImageUrl)
    {
      ToggleKeepsIdsDistinct(selectedParts, part);
      selectedParts := Toggled(selectedParts, part);
    }

    /** generateIdeas, run to completion. With nothing selected it returns at
        once. Otherwise it clears the image, the ideas and the chosen index and
        stores the assistant's answer (`None`: the call or its parsing failed,
        and the ideas stay empty). */
    method GenerateIdeas(response: Option<seq<Idea>>)
      modifies this
      ensures old(selectedParts) == [] ==>
        selectedParts == old(selectedParts) && loading == old(loading) && ideas == old(ideas)
        && selectedIdeaIndex == old(selectedIdeaIndex) && generatedImageUrl == old(generatedImageUrl)
      ensures old(selectedParts) != [] ==>
        selectedParts == old(selectedParts) && !loading
        && ideas == (if response.Some? then response.value else [])
        && selectedIdeaIndex == None && generatedImageUrl == None
    {
      if |selectedParts| == 0 {
        return;
      }
      loading := true;
      generatedImageUrl := None;
      ideas := [];
      selectedIdeaIndex := None;
      if response.Some? {
        ideas := response.value;
      }
      loading := false;
    }

    /** generateVisual, run to completion: the idea at `index` becomes the
        chosen one; `image` is the first inline image of the answer, if the
        call succeeded and returned one. */
    method GenerateVisual(index: int, image: Option<string>)
      modifies this
      ensures selectedIdeaIndex == Some(index) && !loading
      ensures generatedImageUrl == if image.Some? then image else old(generatedImageUrl)
      ensures selectedParts == old(selectedParts) && ideas == old(ideas)
    {
      selectedIdeaIndex := Some(index);
      loading := true;
      if image.Some? {
        generatedImageUrl := image;
      }
      loading := false;
    }
  }
}
