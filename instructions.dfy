/** The guide library page (src/app/instructions/page.tsx): the category, brand and model choices
  * and the list of guides matching a search term and the three selections. */
module Instructions {
  import opened Wrappers
  import opened Types
  import opened Text
  import Seqs
  import Data

  /** The selections the page offers for the category filter. */
  const CATEGORIES: seq<string> := ["All", "Maintenance", "Repair", "Cleaning"]

  /** `machines.map(m => m.brand)`. */
  function BrandsOf(machines: seq<CoffeeMachine>): (r: seq<string>)
    ensures |r| == |machines| && forall i :: 0 <= i < |machines| ==> r[i] == machines[i].brand
    ensures forall b :: b in r <==> exists m :: m in machines && m.brand == b
  {
    Seqs.MapSeqMembers(machines, (m: CoffeeMachine) => m.brand);
    Seqs.MapSeq(machines, (m: CoffeeMachine) => m.brand)
  }

  /** `machines.map(m => m.model)`. */
  function ModelsOf(machines: seq<CoffeeMachine>): (r: seq<string>)
    ensures |r| == |machines| && forall i :: 0 <= i < |machines| ==> r[i] == machines[i].model
    ensures forall x :: x in r <==> exists m :: m in machines && m.model == x
  {
    Seqs.MapSeqMembers(machines, (m: CoffeeMachine) => m.model);
    Seqs.MapSeq(machines, (m: CoffeeMachine) => m.model)
  }

  /** `machines.filter(m => m.brand === brand)`: that brand's machines, in list order. */
  function MachinesOfBrand(machines: seq<CoffeeMachine>, brand: string): (r: seq<CoffeeMachine>)
    ensures forall m :: m in r <==> m in machines && m.brand == brand
    ensures Seqs.IsSubseq(r, machines)
  {
    var r := Seqs.Filter(machines, (m: CoffeeMachine) => m.brand == brand);
    assert forall m :: m in machines ==> multiset(machines)[m] > 0;
    r
  }

  /** The brand choices: "All", then every machine brand once, in order of first occurrence. */
  function Brands(machines: seq<CoffeeMachine>): (r: seq<string>)
    ensures |r| >= 1 && r[0] == "All"
    ensures forall b :: b in r[1..] <==> exists m :: m in machines && m.brand == b
    ensures forall i, j :: 1 <= i < j < |r| ==> r[i] != r[j]
  {
    var r := ["All"] + Seqs.Distinct(BrandsOf(machines));
    assert r[1..] == Seqs.Distinct(BrandsOf(machines));
    r
  }

  /** The model choices for a brand selection: "All", then with "All" every machine model once,
    * otherwise the models of that brand's machines in list order. */
  function AvailableModels(machines: seq<CoffeeMachine>, selectedBrand: string): (r: seq<string>)
    ensures |r| >= 1 && r[0] == "All"
    ensures selectedBrand == "All" ==>
      (forall x :: x in r[1..] <==> exists m :: m in machines && m.model == x) &&
      (forall i, j :: 1 <= i < j < |r| ==> r[i] != r[j])
    ensures selectedBrand != "All" ==> r[1..] == ModelsOf(MachinesOfBrand(machines, selectedBrand))
  {
    if selectedBrand == "All" then
      var r := ["All"] + Seqs.Distinct(ModelsOf(machines));
      assert r[1..] == Seqs.Distinct(ModelsOf(machines));
      r
    else
      var r := ["All"] + ModelsOf(MachinesOfBrand(machines, selectedBrand));
      assert r[1..] == ModelsOf(MachinesOfBrand(machines, selectedBrand));
      r
  }

  /** The choices after "All" in `["All"] + Distinct(s)` are elements of `s` in the order of their
    * first occurrence in `s`. */
  lemma ChoicesInFirstOccurrenceOrder(s: seq<string>, r: seq<string>)
    requires r == ["All"] + Seqs.Distinct(s)
    ensures forall i :: 1 <= i < |r| ==> r[i] in s
    ensures forall i, j :: 1 <= i < j < |r| ==> Seqs.FirstIndex(s, r[i]) < Seqs.FirstIndex(s, r[j])
  {
    var d := Seqs.Distinct(s);
    forall i, j | 1 <= i < j < |r|
      ensures Seqs.FirstIndex(s, r[i]) < Seqs.FirstIndex(s, r[j])
    {
      assert r[i] == d[i - 1] && r[j] == d[j - 1];
    }
  }

  /** The brand choices after "All" come in the order of their first occurrence in the machine list. */
  lemma BrandsInFirstOccurrenceOrder(machines: seq<CoffeeMachine>)
    ensures var r, s := Brands(machines), BrandsOf(machines);
      (forall i :: 1 <= i < |r| ==> r[i] in s) &&
      (forall i, j :: 1 <= i < j < |r| ==> Seqs.FirstIndex(s, r[i]) < Seqs.FirstIndex(s, r[j]))
  {
    ChoicesInFirstOccurrenceOrder(BrandsOf(machines), Brands(machines));
  }

  /** With "All", the model choices after "All" come in the order of their first occurrence in the
    * machine list. */
  lemma ModelsInFirstOccurrenceOrder(machines: seq<CoffeeMachine>)
    ensures var r, s := AvailableModels(machines, "All"), ModelsOf(machines);
      (forall i :: 1 <= i < |r| ==> r[i] in s) &&
      (forall i, j :: 1 <= i < j < |r| ==> Seqs.FirstIndex(s, r[i]) < Seqs.FirstIndex(s, r[j]))
  {
    ChoicesInFirstOccurrenceOrder(ModelsOf(machines), AvailableModels(machines, "All"));
  }

  /** The four filter inputs of the page. */
  datatype Filters = Filters(searchTerm: string, category: string, brand: string, model: string)

  /** The filters with nothing chosen. */
  const NO_FILTERS: Filters := Filters("", "All", "All", "All")

  /** The search term matches, ignoring (ASCII) case, anywhere in the title, the summary or the
    * category name. */
  predicate SearchMatches(g: InstructionGuide, term: string)
  {
    var t := ToLowerAscii(term);
    Includes(ToLowerAscii(g.title), t) || Includes(ToLowerAscii(g.summary), t)
    || Includes(ToLowerAscii(CategoryName(g.category)), t)
  }

  /** A guide is listed when the search matches and each selection is "All" or equal to the
    * guide's own value. */
  predicate Matches(g: InstructionGuide, f: Filters)
  {
    SearchMatches(g, f.searchTerm)
    && (f.category == "All" || CategoryName(g.category) == f.category)
    && (f.brand == "All" || g.machineBrand == f.brand)
    && (f.model == "All" || g.machineModel == f.model)
  }

  /** The guides listed: exactly the matching ones, each once per occurrence, in catalogue order. */
  function FilteredGuides(guides: seq<InstructionGuide>, f: Filters): (r: seq<InstructionGuide>)
    ensures forall g :: g in r <==> g in guides && Matches(g, f)
    ensures forall g :: multiset(r)[g] == if Matches(g, f) then multiset(guides)[g] else 0
    ensures Seqs.IsSubseq(r, guides)
  {
    var r := Seqs.Filter(guides, (g: InstructionGuide) => Matches(g, f));
    assert forall g :: g in guides ==> multiset(guides)[g] > 0;
    r
  }

  /** The empty search term matches every guide. */
  lemma EmptySearchMatches(g: InstructionGuide)
    ensures SearchMatches(g, "")
  {
    IncludesEmpty(ToLowerAscii(g.title));
  }

  /** With nothing chosen, the whole catalogue is listed. */
  lemma NoFiltersListAll(guides: seq<InstructionGuide>)
    ensures FilteredGuides(guides, NO_FILTERS) == guides
  {
    forall i | 0 <= i < |guides| ensures Matches(guides[i], NO_FILTERS) {
      EmptySearchMatches(guides[i]);
    }
    Seqs.FilterAll(guides, (g: InstructionGuide) => Matches(g, NO_FILTERS));
  }

  /** Case does not matter: lower-casing twice is lower-casing once. */
  lemma {:induction false} ToLowerIdempotent(s: string)
    ensures ToLowerAscii(ToLowerAscii(s)) == ToLowerAscii(s)
  {
    var l := ToLowerAscii(s);
    forall i | 0 <= i < |s| ensures ToLowerAscii(l)[i] == l[i] {
      assert l[i] == LowerChar(s[i]);
    }
  }

  /** Upper- and lower-case spellings of a search term match the same guides. */
  lemma SearchIgnoresCase(g: InstructionGuide, term: string)
    ensures SearchMatches(g, ToLowerAscii(term)) == SearchMatches(g, term)
  {
    ToLowerIdempotent(term);
  }

  /** Choosing "All" for a selection lists at least every guide that the narrower choice lists,
    * and a guide listed under "All" stays listed when the selection is the guide's own value. */
  lemma AllWidens(g: InstructionGuide, f: Filters)
    ensures Matches(g, f) ==> Matches(g, f.(category := "All"))
    ensures Matches(g, f) ==> Matches(g, f.(brand := "All"))
    ensures Matches(g, f) ==> Matches(g, f.(model := "All"))
    ensures Matches(g, f.(category := "All")) && CategoryName(g.category) == f.category ==> Matches(g, f)
    ensures Matches(g, f.(brand := "All")) && g.machineBrand == f.brand ==> Matches(g, f)
    ensures Matches(g, f.(model := "All")) && g.machineModel == f.model ==> Matches(g, f)
  {
  }

  /** When no brand repeats, the brand choices are "All" and the brands in list order. */
  lemma BrandsWithoutRepeats(machines: seq<CoffeeMachine>, brands: seq<string>)
    requires brands == BrandsOf(machines)
    requires forall i, j :: 0 <= i < j < |brands| ==> brands[i] != brands[j]
    ensures Brands(machines) == ["All"] + brands
  {
    Seqs.DistinctOfDistinct(brands);
  }

  /** When no model repeats, the model choices for "All" are "All" and the models in list order. */
  lemma ModelsWithoutRepeats(machines: seq<CoffeeMachine>, models: seq<string>)
    requires models == ModelsOf(machines)
    requires forall i, j :: 0 <= i < j < |models| ==> models[i] != models[j]
    ensures AvailableModels(machines, "All") == ["All"] + models
  {
    Seqs.DistinctOfDistinct(models);
  }

  /** The brand choices of the sample machines. */
  lemma SampleBrands()
    ensures Brands(Data.COFFEE_MACHINES) == ["All", "Breville", "DeLonghi", "Gaggia", "Generic"]
  {
    var brands := ["Breville", "DeLonghi", "Gaggia", "Generic"];
    SampleBrandsOf(brands);
    BrandsWithoutRepeats(Data.COFFEE_MACHINES, brands);
    assert ["All"] + brands == ["All", "Breville", "DeLonghi", "Gaggia", "Generic"];
  }

  /** The brands of the sample machines, in list order. */
  lemma SampleBrandsOf(brands: seq<string>)
    requires brands == ["Breville", "DeLonghi", "Gaggia", "Generic"]
    ensures brands == BrandsOf(Data.COFFEE_MACHINES)
    ensures forall i, j :: 0 <= i < j < |brands| ==> brands[i] != brands[j]
  {
  }

  /** The model choices of the sample machines, for all brands and for one brand. */
  lemma SampleModelsAll()
    ensures AvailableModels(Data.COFFEE_MACHINES, "All") == ["All", "Barista Express", "Magnifica", "Classic Pro", "Espresso Pro"]
  {
    var models := ["Barista Express", "Magnifica", "Classic Pro", "Espresso Pro"];
    SampleModelsOf(models);
    ModelsWithoutRepeats(Data.COFFEE_MACHINES, models);
    assert ["All"] + models == ["All", "Barista Express", "Magnifica", "Classic Pro", "Espresso Pro"];
  }

  /** The models of the sample machines, in list order. */
  lemma SampleModelsOf(models: seq<string>)
    requires models == ["Barista Express", "Magnifica", "Classic Pro", "Espresso Pro"]
    ensures models == ModelsOf(Data.COFFEE_MACHINES)
    ensures forall i, j :: 0 <= i < j < |models| ==> models[i] != models[j]
  {
  }

  lemma SampleModelsGaggia()
    ensures AvailableModels(Data.COFFEE_MACHINES, "Gaggia") == ["All", "Classic Pro"]
  {
  }

  /** The page's filter state. */
  class FilterState {
    var searchTerm: string
    var selectedCategory: string
    var selectedBrand: string
    var selectedModel: string

    /** Empty search, every selection "All". */
    constructor ()
      ensures Current() == NO_FILTERS
    {
      searchTerm, selectedCategory, selectedBrand, selectedModel := "", "All", "All", "All";
    }

    /** The filter inputs as a value. */
    function Current(): Filters
      reads this
    {
      Filters(searchTerm, selectedCategory, selectedBrand, selectedModel)
    }

    /** The guides of `guides` the page lists now. */
    function Visible(guides: seq<InstructionGuide>): (r: seq<InstructionGuide>)
      reads this
      ensures forall g :: g in r <==> g in guides && Matches(g, Current())
      ensures forall g :: multiset(r)[g] == if Matches(g, Current()) then multiset(guides)[g] else 0
      ensures Seqs.IsSubseq(r, guides)
    {
      FilteredGuides(guides, Current())
    }

    /** `handleSearchChange`. */
    method HandleSearchChange(value: string)
      modifies this
      ensures Current() == old(Current()).(searchTerm := value)
    {
      searchTerm := value;
    }

    /** The category select. */
    method SetCategory(category: string)
      modifies this
      ensures Current() == old(Current()).(category := category)
    {
      selectedCategory := category;
    }

    /** `onBrandChange`: a new brand resets the model to "All". */
    method OnBrandChange(brand: string)
      modifies this
      ensures Current() == old(Current()).(brand := brand, model := "All")
    {
      selectedBrand := brand;
      selectedModel := "All";
    }

    /** The model select. */
    method SetModel(model: string)
      modifies this
      ensures Current() == old(Current()).(model := model)
    {
      selectedModel := model;
    }

    /** `handleClearFilters`: back to the initial filters. */
    method HandleClearFilters()
      modifies this
      ensures Current() == NO_FILTERS
    {
      searchTerm, selectedCategory, selectedBrand, selectedModel := "", "All", "All", "All";
    }
  }

  /** After clearing, every guide is listed again. */
  method ClearShowsAll(state: FilterState, guides: seq<InstructionGuide>) returns (visible: seq<InstructionGuide>)
    modifies state
    ensures visible == guides
  {
    state.HandleClearFilters();
    visible := state.Visible(guides);
    NoFiltersListAll(guides);
  }
}
