/** The filter panel of the product listings (components/ProductFilters.tsx): the "active filters"
    badge, the price inputs and their apply button, the sort selector and the subcategory buttons. */
module ProductFiltering {
  import opened Wrappers
  import opened Catalog

  /** The filter props the panel is given; every one of them may be undefined. */
  datatype FilterProps = FilterProps(
    selectedSubcategory: Option<string>,
    minPrice: Option<real>,
    maxPrice: Option<real>,
    inStock: Option<bool>,
    sortBy: Option<SortOption>)

  /** JavaScript truthiness of an optional string: defined and non-empty. */
  predicate TruthyText(s: Option<string>) {
    s.Some? && s.value != ""
  }

  /** `hasActiveFilters`: a non-empty subcategory, a defined price bound, or `inStock` true. The
      bounds are compared with `!== undefined`, so a bound of 0 counts. */
  predicate HasActiveFilters(p: FilterProps) {
    TruthyText(p.selectedSubcategory) || p.minPrice.Some? || p.maxPrice.Some? || p.inStock == Some(true)
  }

  /** No filter is active exactly when there is no (or an empty) subcategory, neither bound is
      defined and `inStock` is not true; the sort order never matters. */
  lemma NoActiveFiltersIff(p: FilterProps, sort: Option<SortOption>)
    ensures !HasActiveFilters(p) <==>
      && (p.selectedSubcategory == None || p.selectedSubcategory == Some(""))
      && p.minPrice == None && p.maxPrice == None
      && (p.inStock == None || p.inStock == Some(false))
    ensures HasActiveFilters(p.(sortBy := sort)) == HasActiveFilters(p)
  {
    if p.inStock.Some? && !p.inStock.value {
      assert p.inStock == Some(false);
    }
  }

  /** A price bound of 0 still makes the filters active. */
  lemma ZeroBoundIsActive(p: FilterProps)
    requires p.minPrice == Some(0.0) || p.maxPrice == Some(0.0)
    ensures HasActiveFilters(p)
  {
  }

  /** `sortBy || 'newest'`: every sort value is a non-empty string, so only an undefined one falls
      back to 'newest'. */
  function DisplayedSort(p: FilterProps): (s: SortOption)
    ensures p.sortBy.Some? ==> s == p.sortBy.value
    ensures p.sortBy == None ==> s == Newest
  {
    p.sortBy.GetOr(Newest)
  }

  /** `bound?.toString() || ''`: the initial text of a price input. `show` is `Number.prototype
      .toString`. */
  function InitialText(bound: Option<real>, show: real -> string): string {
    if bound.Some? then show(bound.value) else ""
  }

  /** `text ? parseFloat(text) : undefined`: an empty input gives no bound. `parse` is
      `parseFloat`. */
  function BoundOf(text: string, parse: string -> real): (b: Option<real>)
    ensures b == None <==> text == ""
    ensures b.Some? ==> b.value == parse(text)
  {
    if text != "" then Some(parse(text)) else None
  }

  /** Applying the untouched inputs reports an undefined bound as undefined, and a defined one as
      itself whenever `parse` reads back what `show` wrote. */
  lemma ApplyUntouchedReportsProps(bound: Option<real>, show: real -> string, parse: string -> real)
    requires bound.Some? ==> show(bound.value) != "" && parse(show(bound.value)) == bound.value
    ensures BoundOf(InitialText(bound, show), parse) == bound
  {
  }

  /** A button of the subcategory list: "Tümü" (all) or one subcategory. */
  datatype SubcategoryButton = AllButton | SubButton(slug: string)

  /** The buttons in the order they are drawn. */
  function SubcategoryButtons(subcategories: seq<Subcategory>): (bs: seq<SubcategoryButton>)
    ensures |bs| == |subcategories| + 1 && bs[0] == AllButton
    ensures forall i :: 0 <= i < |subcategories| ==> bs[i + 1] == SubButton(subcategories[i].slug)
  {
    [AllButton] + seq(|subcategories|, i requires 0 <= i < |subcategories| => SubButton(subcategories[i].slug))
  }

  /** The value the button passes to `onSubcategoryChange`. */
  function Reported(b: SubcategoryButton): Option<string> {
    match b
    case AllButton => None
    case SubButton(slug) => Some(slug)
  }

  /** The button drawn as selected: "Tümü" when `!selectedSubcategory`, a subcategory when
      `selectedSubcategory === subcat.slug`. */
  predicate Highlighted(b: SubcategoryButton, selected: Option<string>) {
    match b
    case AllButton => !TruthyText(selected)
    case SubButton(slug) => selected == Some(slug)
  }

  /** With subcategories of distinct non-empty slugs, exactly one button is highlighted for any
      selection among them or none: clicking a button and passing its value back as the selection
      highlights that button and no other. */
  lemma ClickHighlightsOnlyThatButton(subcategories: seq<Subcategory>, i: nat, j: nat)
    requires forall k :: 0 <= k < |subcategories| ==> subcategories[k].slug != ""
    requires forall k, m :: 0 <= k < m < |subcategories| ==> subcategories[k].slug != subcategories[m].slug
    requires i < |subcategories| + 1 && j < |subcategories| + 1
    ensures var bs := SubcategoryButtons(subcategories);
      Highlighted(bs[j], Reported(bs[i])) <==> i == j
  {
    var bs := SubcategoryButtons(subcategories);
    if i != j && 0 < i && 0 < j {
      assert bs[i].slug == subcategories[i - 1].slug;
      assert bs[j].slug == subcategories[j - 1].slug;
      if i < j {
        assert subcategories[i - 1].slug != subcategories[j - 1].slug;
      } else {
        assert subcategories[j - 1].slug != subcategories[i - 1].slug;
      }
    }
  }

  /** The panel's own state: the mobile drawer and the two price inputs. */
  class ProductFilters {
    var isOpen: bool
    var localMinPrice: string
    var localMaxPrice: string

    /** The initial state for the given props. */
    constructor (props: FilterProps, show: real -> string)
      ensures !isOpen
      ensures localMinPrice == InitialText(props.minPrice, show)
      ensures localMaxPrice == InitialText(props.maxPrice, show)
    {
      isOpen := false;
      localMinPrice := InitialText(props.minPrice, show);
      localMaxPrice := InitialText(props.maxPrice, show);
    }

    /** Typing in the minimum-price input. */
    method SetLocalMinPrice(text: string)
      modifies this
      ensures localMinPrice == text && localMaxPrice == old(localMaxPrice) && isOpen == old(isOpen)
    {
      localMinPrice := text;
    }

    /** Typing in the maximum-price input. */
    method SetLocalMaxPrice(text: string)
      modifies this
      ensures localMaxPrice == text && localMinPrice == old(localMinPrice) && isOpen == old(isOpen)
    {
      localMaxPrice := text;
    }

    /** `handlePriceApply`: the two bounds of the single `onPriceChange(min, max)` call. */
    method HandlePriceApply(parse: string -> real) returns (min: Option<real>, max: Option<real>)
      ensures min == BoundOf(localMinPrice, parse) && max == BoundOf(localMaxPrice, parse)
      ensures min == None <==> localMinPrice == ""
      ensures max == None <==> localMaxPrice == ""
    {
      min := if localMinPrice != "" then Some(parse(localMinPrice)) else None;
      max := if localMaxPrice != "" then Some(parse(localMaxPrice)) else None;
    }

    /** The "Filtreler" toggle. */
    method ToggleOpen()
      modifies this
      ensures isOpen == !old(isOpen) && localMinPrice == old(localMinPrice) && localMaxPrice == old(localMaxPrice)
    {
      isOpen := !isOpen;
    }

    /** Every drawer action that ends with `setIsOpen(false)`. */
    method Close()
      modifies this
      ensures !isOpen && localMinPrice == old(localMinPrice) && localMaxPrice == old(localMaxPrice)
    {
      isOpen := false;
    }
  }
}
