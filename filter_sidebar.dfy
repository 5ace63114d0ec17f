/**
 * The filter sidebar's own state: which sections are expanded, and the
 * selected filters (a budget range, five multi-choice lists and one
 * availability choice).
 */
module FilterSidebar {
  import Lists

  datatype Section = BudgetSection | PropertyTypeSection | BhkSection | PostedBySection
                   | FurnishingSection | AvailabilitySection | AmenitiesSection

  /** The multi-choice categories `toggleFilter` is called with. */
  datatype Category = PropertyTypes | Bhk | PostedBy | Furnishing | Amenities

  datatype Budget = Budget(min: string, max: string)

  datatype Selection = Selection(budget: Budget, lists: map<Category, seq<string>>, availability: string)

  /** Every section starts expanded except the amenities. */
  const InitialExpanded: map<Section, bool> := map[
    BudgetSection := true, PropertyTypeSection := true, BhkSection := true, PostedBySection := true,
    FurnishingSection := true, AvailabilitySection := true, AmenitiesSection := false]

  const InitialSelection := Selection(
    Budget("", ""),
    map[PropertyTypes := [], Bhk := [], PostedBy := [], Furnishing := [], Amenities := []],
    "")

  /** Every section has a flag. */
  predicate FullExpanded(e: map<Section, bool>) {
    forall s: Section :: s in e
  }

  /** Every category has a list, and no list names a value twice. */
  predicate WellFormed(sel: Selection) {
    forall c: Category :: c in sel.lists && Lists.NoDup(sel.lists[c])
  }

  lemma InitialIsWellFormed()
    ensures FullExpanded(InitialExpanded) && WellFormed(InitialSelection)
  {
    forall s: Section ensures s in InitialExpanded {
      match s
      case BudgetSection =>
      case PropertyTypeSection =>
      case BhkSection =>
      case PostedBySection =>
      case FurnishingSection =>
      case AvailabilitySection =>
      case AmenitiesSection =>
    }
    forall c: Category ensures c in InitialSelection.lists && Lists.NoDup(InitialSelection.lists[c]) {
      match c
      case PropertyTypes =>
      case Bhk =>
      case PostedBy =>
      case Furnishing =>
      case Amenities =>
    }
  }

  /** `toggleSection`: exactly the named flag flips. */
  function ToggleSection(e: map<Section, bool>, s: Section): (r: map<Section, bool>)
    requires FullExpanded(e)
    ensures FullExpanded(r)
    ensures r[s] == !e[s]
    ensures forall t :: t != s ==> r[t] == e[t]
  {
    e[s := !e[s]]
  }

  /** `toggleFilter`: within one category, a present value leaves and an absent one is appended. */
  function ToggleFilter(sel: Selection, c: Category, value: string): (r: Selection)
    requires WellFormed(sel)
    ensures WellFormed(r)
    ensures value in r.lists[c] <==> value !in sel.lists[c]
    ensures forall v :: v != value ==> (v in r.lists[c] <==> v in sel.lists[c])
    ensures value !in sel.lists[c] ==> r.lists[c] == sel.lists[c] + [value]
    ensures forall d :: d != c ==> r.lists[d] == sel.lists[d]
    ensures r.budget == sel.budget && r.availability == sel.availability
  {
    Lists.ToggleKeepsNoDup(sel.lists[c], value);
    sel.(lists := sel.lists[c := Lists.Toggle(sel.lists[c], value)])
  }

  /** Toggling an unselected value twice gives the selection back. */
  lemma ToggleFilterTwice(sel: Selection, c: Category, value: string)
    requires WellFormed(sel) && value !in sel.lists[c]
    ensures ToggleFilter(ToggleFilter(sel, c, value), c, value) == sel
  {
    Lists.ToggleTwiceRestores(sel.lists[c], value);
    assert ToggleFilter(ToggleFilter(sel, c, value), c, value).lists == sel.lists;
  }

  /** The minimum-price input: the maximum is kept. */
  function WithMin(sel: Selection, v: string): (r: Selection)
    ensures r.budget == Budget(v, sel.budget.max)
    ensures r.lists == sel.lists && r.availability == sel.availability
  {
    sel.(budget := sel.budget.(min := v))
  }

  /** The maximum-price input: the minimum is kept. */
  function WithMax(sel: Selection, v: string): (r: Selection)
    ensures r.budget == Budget(sel.budget.min, v)
    ensures r.lists == sel.lists && r.availability == sel.availability
  {
    sel.(budget := sel.budget.(max := v))
  }

  /** An availability radio button: the choice replaces the previous one. */
  function ChooseAvailability(sel: Selection, v: string): (r: Selection)
    ensures r.availability == v
    ensures r.budget == sel.budget && r.lists == sel.lists
  {
    sel.(availability := v)
  }

  class Sidebar {
    var expanded: map<Section, bool>
    var selected: Selection

    predicate Valid()
      reads this
    {
      FullExpanded(expanded) && WellFormed(selected)
    }

    constructor ()
      ensures Valid() && expanded == InitialExpanded && selected == InitialSelection
    {
      expanded := InitialExpanded;
      selected := InitialSelection;
      InitialIsWellFormed();
    }

    method OnToggleSection(s: Section)
      requires Valid()
      modifies this`expanded
      ensures Valid() && expanded == ToggleSection(old(expanded), s)
    {
      expanded := expanded[s := !expanded[s]];
    }

    method OnToggleFilter(c: Category, value: string)
      requires Valid()
      modifies this`selected
      ensures Valid() && selected == ToggleFilter(old(selected), c, value)
    {
      selected := ToggleFilter(selected, c, value);
    }

    /** `clearFilters`: the selection returns to its initial value; the expansion flags stay. */
    method ClearFilters()
      requires Valid()
      modifies this`selected
      ensures Valid() && selected == InitialSelection
    {
      selected := InitialSelection;
      InitialIsWellFormed();
    }

    method OnMinPrice(v: string)
      requires Valid()
      modifies this`selected
      ensures Valid() && selected == WithMin(old(selected), v)
    {
      selected := selected.(budget := selected.budget.(min := v));
    }

    method OnMaxPrice(v: string)
      requires Valid()
      modifies this`selected
      ensures Valid() && selected == WithMax(old(selected), v)
    {
      selected := selected.(budget := selected.budget.(max := v));
    }

    method OnAvailability(v: string)
      requires Valid()
      modifies this`selected
      ensures Valid() && selected == ChooseAvailability(old(selected), v)
    {
      selected := selected.(availability := v);
    }
  }
}
